/**
 The bulk endpoint around the store: request validation with de-duplication, and the aggregate
 that has to account for every item.
 */
module BulkExecutor {
  import opened Options
  import opened Sorting
  import opened Text
  import Utf8

  // ------------------------------------------------------------------ validation

  datatype Action =
    | SetEnabled | SetPriority | SetStaticWeight | ClearRateLimit
    | Recover | RefreshCredential | MoveChannel | UnknownAction

  datatype Request = Request(
    ids: seq<int>, action: Action, enabled: Option<bool>, priority: Option<int>, staticWeight: Option<int>,
    channelID: Option<int>, reason: string)

  datatype Limits = Limits(maxIDs: nat, maxRefreshIDs: nat)

  datatype Rejection =
    | IDsRequired | InvalidID | EnabledRequired | PriorityRequired | StaticWeightRequired | ChannelIDRequired
    | InvalidAction | TargetLimitExceeded | ReasonRequired | ReasonTooLong

  datatype Validation = Accepted(ids: seq<int>, duplicates: int) | Rejected(why: Rejection)

  function ArgumentError(req: Request): Option<Rejection> {
    match req.action
    case SetEnabled => if req.enabled.None? then Some(EnabledRequired) else None
    case SetPriority => if req.priority.None? then Some(PriorityRequired) else None
    case SetStaticWeight =>
      if req.staticWeight.None? || req.staticWeight.value < 0 then Some(StaticWeightRequired) else None
    case MoveChannel => if req.channelID.None? || req.channelID.value <= 0 then Some(ChannelIDRequired) else None
    case UnknownAction => Some(InvalidAction)
    case _ => None
  }

  predicate NeedsReason(req: Request) {
    || req.action == ClearRateLimit || req.action == Recover
    || (req.action == SetEnabled && req.enabled == Some(false))
  }

  /** What takes accounts out of service or clears their state. */
  predicate Destructive(req: Request) {
    req.action in {Action.Recover, ClearRateLimit} || (req.action.SetEnabled? && req.enabled == Some(false))
  }

  function LimitFor(req: Request, limits: Limits): nat {
    if req.action == RefreshCredential then limits.maxRefreshIDs else limits.maxIDs
  }

  /** The position of an element's first occurrence, or the length when there is none. */
  function FirstAt(s: seq<int>, x: int): nat {
    if s == [] || s[0] == x then 0 else 1 + FirstAt(s[1..], x)
  }

  lemma {:induction false} FirstAtShape(s: seq<int>, x: int)
    ensures FirstAt(s, x) <= |s|
    ensures FirstAt(s, x) < |s| <==> x in s
    ensures FirstAt(s, x) < |s| ==> s[FirstAt(s, x)] == x
    ensures x !in s[..FirstAt(s, x)]
  {
    if s != [] && s[0] != x {
      FirstAtShape(s[1..], x);
      assert s[..FirstAt(s, x)] == [s[0]] + s[1..][..FirstAt(s[1..], x)];
    }
  }

  /** ids is the list without its repetitions, in the order of first occurrence. */
  ghost predicate Deduplicates(all: seq<int>, ids: seq<int>) {
    && Distinct(ids)
    && (forall x :: x in ids <==> x in all)
    && (forall i, j :: 0 <= i < j < |ids| ==> FirstAt(all, ids[i]) < FirstAt(all, ids[j]))
  }

  lemma {:induction false} FirstAtExtends(s: seq<int>, y: int, x: int)
    ensures x in s ==> FirstAt(s + [y], x) == FirstAt(s, x)
    ensures x !in s && x == y ==> FirstAt(s + [y], x) == |s|
  {
    if s != [] && s[0] != x {
      assert (s + [y])[1..] == s[1..] + [y];
      FirstAtExtends(s[1..], y, x);
    }
  }

  /** A repetition is dropped, anything else goes to the end. */
  lemma NextDeduplicates(all: seq<int>, ids: seq<int>, y: int)
    requires Deduplicates(all, ids)
    ensures Deduplicates(all + [y], if y in ids then ids else ids + [y])
  {
    forall x | x in ids ensures FirstAt(all + [y], x) == FirstAt(all, x) < |all| {
      FirstAtExtends(all, y, x);
      FirstAtShape(all, x);
    }
    FirstAtExtends(all, y, y);
    var next := if y in ids then ids else ids + [y];
    forall i, j | 0 <= i < j < |next| ensures FirstAt(all + [y], next[i]) < FirstAt(all + [y], next[j]) {
      assert next[i] in ids;
      assert j < |ids| ==> next[j] in ids;
    }
  }

  predicate AllPositive(ids: seq<int>) {
    forall i :: 0 <= i < |ids| ==> ids[i] > 0
  }

  /** The number of distinct ids is within a limit. */
  ghost predicate DistinctWithin(all: seq<int>, limit: nat) {
    exists ids :: Deduplicates(all, ids) && |ids| <= limit
  }

  lemma WithinLimit(all: seq<int>, ids: seq<int>, limit: nat)
    requires Deduplicates(all, ids)
    ensures DistinctWithin(all, limit) <==> |ids| <= limit
  {
    if DistinctWithin(all, limit) {
      var other :| Deduplicates(all, other) && |other| <= limit;
      SameSize(other, ids);
    }
  }

  /** The loop of `validateRequest` over the ids. */
  method DeduplicateIDs(all: seq<int>) returns (r: Option<seq<int>>)
    ensures r.Some? <==> AllPositive(all)
    ensures r.Some? ==> Deduplicates(all, r.value)
  {
    var seen: set<int> := {};
    var ids := [];
    for n := 0 to |all|
      invariant AllPositive(all[..n])
      invariant forall x :: x in seen <==> x in ids
      invariant Deduplicates(all[..n], ids)
    {
      var id := all[n];
      if id <= 0 {
        return None;
      }
      assert all[..n + 1] == all[..n] + [id];
      NextDeduplicates(all[..n], ids, id);
      if id in seen {
        continue;
      }
      seen := seen + {id};
      ids := ids + [id];
    }
    assert all[..|all|] == all;
    r := Some(ids);
  }

  /**
   `validateRequest`: accepts exactly the requests with positive ids, the argument their action
   needs, no more distinct ids than the limit, and a reason where one is due.
   */
  method ValidateRequest(req: Request, limits: Limits) returns (v: Validation)
    ensures v.Accepted? <==>
      && req.ids != [] && AllPositive(req.ids)
      && ArgumentError(req) == None
      && DistinctWithin(req.ids, LimitFor(req, limits))
      && (NeedsReason(req) ==> Trim(req.reason) != "")
      && |Utf8.Bytes(Trim(req.reason))| <= 512
    ensures v.Accepted? ==>
      && Deduplicates(req.ids, v.ids) && |v.ids| <= LimitFor(req, limits)
      && |v.ids| + v.duplicates == |req.ids|
    ensures v.Accepted? && Destructive(req) ==> Trim(req.reason) != ""
    ensures v == Rejected(ReasonRequired) ==> Destructive(req) && Trim(req.reason) == ""
    ensures v == Rejected(ReasonTooLong) ==> |Utf8.Bytes(Trim(req.reason))| > 512
    ensures v == Rejected(TargetLimitExceeded) ==> !DistinctWithin(req.ids, LimitFor(req, limits))
    ensures v == Rejected(IDsRequired) <==> req.ids == []
    ensures v == Rejected(InvalidID) <==> !AllPositive(req.ids)
    ensures v.Rejected? && ArgumentError(req).Some? && req.ids != [] && AllPositive(req.ids) ==>
      v.why == ArgumentError(req).value
  {
    if |req.ids| == 0 {
      return Rejected(IDsRequired);
    }
    var deduplicated := DeduplicateIDs(req.ids);
    if deduplicated.None? {
      return Rejected(InvalidID);
    }
    var ids := deduplicated.value;
    WithinLimit(req.ids, ids, LimitFor(req, limits));
    var duplicates := |req.ids| - |ids|;
    var limit := limits.maxIDs;
    match req.action {
      case SetEnabled => if req.enabled.None? { return Rejected(EnabledRequired); }
      case SetPriority => if req.priority.None? { return Rejected(PriorityRequired); }
      case SetStaticWeight =>
        if req.staticWeight.None? || req.staticWeight.value < 0 { return Rejected(StaticWeightRequired); }
      case MoveChannel => if req.channelID.None? || req.channelID.value <= 0 { return Rejected(ChannelIDRequired); }
      case ClearRateLimit =>
      case Recover =>
      case RefreshCredential => limit := limits.maxRefreshIDs;
      case UnknownAction => return Rejected(InvalidAction);
    }
    if |ids| > limit {
      return Rejected(TargetLimitExceeded);
    }
    if NeedsReason(req) && Trim(req.reason) == "" {
      return Rejected(ReasonRequired);
    }
    if |Utf8.Bytes(Trim(req.reason))| > 512 {
      return Rejected(ReasonTooLong);
    }
    v := Accepted(ids, duplicates);
  }

  /** Lists of distinct elements with the same elements have the same length. */
  lemma SameSize(a: seq<int>, b: seq<int>)
    requires Distinct(a) && Distinct(b) && forall x :: x in a <==> x in b
    ensures |a| == |b|
  {
    SetSize(a);
    SetSize(b);
    assert (set x | x in a) == (set x | x in b);
  }

  lemma {:induction false} SetSize(a: seq<int>)
    requires Distinct(a)
    ensures |set x | x in a| == |a|
  {
    if a != [] {
      var front, last := a[..|a| - 1], a[|a| - 1];
      SetSize(front);
      assert last !in front;
      assert (set x | x in a) == (set x | x in front) + {last};
    }
  }

  // ------------------------------------------------------------------ aggregation

  datatype Status = Succeeded | Skipped | Deferred | Failed | Cancelled | WouldApply | WouldReject

  datatype Item = Item(id: int, status: Status)

  /** The counter an item goes to; a refusal a dry run foretells counts as a failure. */
  datatype Bucket = Good | Untouched | Later | Lost | Bad

  function BucketOf(status: Status): Bucket {
    match status
    case Succeeded => Good
    case WouldApply => Good
    case Skipped => Untouched
    case Deferred => Later
    case Cancelled => Lost
    case Failed => Bad
    case WouldReject => Bad
  }

  function IDs(items: seq<Item>, buckets: set<Bucket>): seq<int> {
    if items == [] then []
    else
      var last := items[|items| - 1];
      IDs(items[..|items| - 1], buckets) + if BucketOf(last.status) in buckets then [last.id] else []
  }

  lemma NextIDs(items: seq<Item>, i: nat, buckets: set<Bucket>)
    requires i < |items|
    ensures IDs(items[..i + 1], buckets)
      == IDs(items[..i], buckets) + if BucketOf(items[i].status) in buckets then [items[i].id] else []
  {
    assert items[..i + 1][..i] == items[..i];
  }

  datatype Summary = Summary(
    total: nat, succeeded: nat, skipped: nat, deferred: nat, failed: nat, cancelled: nat,
    partialSuccess: bool, succeededIDs: seq<int>, failedIDs: seq<int>)

  /** `aggregate`: every item is in exactly one counter, and the id lists are the sorted ids behind them. */
  method Aggregate(items: seq<Item>) returns (r: Summary)
    ensures r.total == |items| == r.succeeded + r.skipped + r.deferred + r.failed + r.cancelled
    ensures r.succeeded == |IDs(items, {Good})| && r.skipped == |IDs(items, {Untouched})|
    ensures r.deferred == |IDs(items, {Later})| && r.failed == |IDs(items, {Bad})|
    ensures r.cancelled == |IDs(items, {Lost})|
    ensures Sorted(r.succeededIDs) && multiset(r.succeededIDs) == multiset(IDs(items, {Good}))
    ensures Sorted(r.failedIDs) && multiset(r.failedIDs) == multiset(IDs(items, {Bad, Lost}))
    ensures r.partialSuccess <==> IDs(items, {Good}) != [] && IDs(items, {Bad, Later, Lost}) != []
  {
    var succeeded, skipped, deferred, failed, cancelled := 0, 0, 0, 0, 0;
    var good, bad: seq<int> := [], [];
    for i := 0 to |items|
      invariant succeeded + skipped + deferred + failed + cancelled == i
      invariant good == IDs(items[..i], {Good}) && bad == IDs(items[..i], {Bad, Lost})
      invariant succeeded == |good| && failed == |IDs(items[..i], {Bad})| && cancelled == |IDs(items[..i], {Lost})|
      invariant skipped == |IDs(items[..i], {Untouched})| && deferred == |IDs(items[..i], {Later})|
      invariant failed + deferred + cancelled == |IDs(items[..i], {Bad, Later, Lost})|
    {
      var item := items[i];
      NextIDs(items, i, {Good});
      NextIDs(items, i, {Untouched});
      NextIDs(items, i, {Later});
      NextIDs(items, i, {Bad});
      NextIDs(items, i, {Lost});
      NextIDs(items, i, {Bad, Lost});
      NextIDs(items, i, {Bad, Later, Lost});
      match item.status {
        case Succeeded => succeeded, good := succeeded + 1, good + [item.id];
        case WouldApply => succeeded, good := succeeded + 1, good + [item.id];
        case Skipped => skipped := skipped + 1;
        case Deferred => deferred := deferred + 1;
        case Cancelled => cancelled, bad := cancelled + 1, bad + [item.id];
        case _ => failed, bad := failed + 1, bad + [item.id];
      }
    }
    assert items[..|items|] == items;
    var partial := succeeded > 0 && (failed > 0 || deferred > 0 || cancelled > 0);
    good := Sort(good);
    bad := Sort(bad);
    r := Summary(|items|, succeeded, skipped, deferred, failed, cancelled, partial, good, bad);
  }

  lemma {:induction false} IDsAreItems(items: seq<Item>, buckets: set<Bucket>, x: int)
    ensures x in IDs(items, buckets) <==>
      exists i :: 0 <= i < |items| && items[i].id == x && BucketOf(items[i].status) in buckets
  {
    if items != [] {
      var front, last := items[..|items| - 1], items[|items| - 1];
      IDsAreItems(front, buckets, x);
      if x in IDs(front, buckets) {
        var i :| 0 <= i < |front| && front[i].id == x && BucketOf(front[i].status) in buckets;
        assert items[i] == front[i];
      }
      if exists i :: 0 <= i < |items| && items[i].id == x && BucketOf(items[i].status) in buckets {
        var i :| 0 <= i < |items| && items[i].id == x && BucketOf(items[i].status) in buckets;
        if i < |front| { assert front[i] == items[i]; }
      }
    }
  }

  lemma {:induction false} IDsDistinct(items: seq<Item>, buckets: set<Bucket>)
    requires forall i, j :: 0 <= i < j < |items| ==> items[i].id != items[j].id
    ensures Distinct(IDs(items, buckets))
  {
    if items != [] {
      var front, last := items[..|items| - 1], items[|items| - 1];
      IDsDistinct(front, buckets);
      IDsAreItems(front, buckets, last.id);
      assert last.id !in IDs(front, buckets);
    }
  }

  /** A list names exactly the accounts of some statuses, each once and in ascending order. */
  ghost predicate Lists(list: seq<int>, items: seq<Item>, buckets: set<Bucket>) {
    && (forall i, j :: 0 <= i < j < |list| ==> list[i] < list[j])
    && (forall x :: x in list <==>
          exists i :: 0 <= i < |items| && items[i].id == x && BucketOf(items[i].status) in buckets)
  }

  lemma SortedIDsList(list: seq<int>, items: seq<Item>, buckets: set<Bucket>)
    requires Sorted(list) && multiset(list) == multiset(IDs(items, buckets))
    requires forall i, j :: 0 <= i < j < |items| ==> items[i].id != items[j].id
    ensures Lists(list, items, buckets)
  {
    IDsDistinct(items, buckets);
    SortedDistinct(list, IDs(items, buckets));
    forall x
      ensures x in list <==> exists i :: 0 <= i < |items| && items[i].id == x && BucketOf(items[i].status) in buckets
    {
      IDsAreItems(items, buckets, x);
      assert x in list <==> x in multiset(list);
    }
  }

  /** One item for each accepted account, in the order of the request. */
  function Items(ids: seq<int>, statuses: seq<Status>): seq<Item>
    requires |ids| == |statuses|
  {
    seq(|ids|, i requires 0 <= i < |ids| => Item(ids[i], statuses[i]))
  }

  /**
   The answer accounts for the whole request: the counters add up to the accepted ids, these
   and the removed repetitions to the ids that were sent, the two id lists are strictly sorted
   and disjoint, and they list exactly the accounts of their statuses.
   */
  method Answer(req: Request, limits: Limits, statuses: seq<Status>) returns (v: Validation, r: Summary)
    ensures v.Accepted? && |statuses| == |v.ids| ==>
      && r.succeeded + r.skipped + r.deferred + r.failed + r.cancelled + v.duplicates == |req.ids|
      && Deduplicates(req.ids, v.ids)
      && Lists(r.succeededIDs, Items(v.ids, statuses), {Good})
      && Lists(r.failedIDs, Items(v.ids, statuses), {Bad, Lost})
      && (forall x :: x in r.succeededIDs ==> x !in r.failedIDs)
  {
    v := ValidateRequest(req, limits);
    r := Summary(0, 0, 0, 0, 0, 0, false, [], []);
    if v.Accepted? && |statuses| == |v.ids| {
      r := Summarize(v.ids, statuses);
    }
  }

  /** The aggregate of one item for each of several different accounts. */
  method Summarize(ids: seq<int>, statuses: seq<Status>) returns (r: Summary)
    requires Distinct(ids) && |ids| == |statuses|
    ensures r.succeeded + r.skipped + r.deferred + r.failed + r.cancelled == |ids|
    ensures Lists(r.succeededIDs, Items(ids, statuses), {Good})
    ensures Lists(r.failedIDs, Items(ids, statuses), {Bad, Lost})
    ensures forall x :: x in r.succeededIDs ==> x !in r.failedIDs
  {
    var items := Items(ids, statuses);
    r := Aggregate(items);
    SortedIDsList(r.succeededIDs, items, {Good});
    SortedIDsList(r.failedIDs, items, {Bad, Lost});
    DisjointLists(r.succeededIDs, r.failedIDs, items);
  }

  lemma DisjointLists(good: seq<int>, bad: seq<int>, items: seq<Item>)
    requires Lists(good, items, {Good}) && Lists(bad, items, {Bad, Lost})
    requires forall i, j :: 0 <= i < j < |items| ==> items[i].id != items[j].id
    ensures forall x :: x in good ==> x !in bad
  {
  }

  lemma SortedDistinct(s: seq<int>, t: seq<int>)
    requires Sorted(s) && multiset(s) == multiset(t) && Distinct(t)
    ensures forall i, j :: 0 <= i < j < |s| ==> s[i] < s[j]
  {
    forall i, j | 0 <= i < j < |s| ensures s[i] < s[j] {
      if s[i] == s[j] {
        TwiceCounted(s, i, j);
        CountOfDistinct(t, s[i]);
      }
    }
  }
}
