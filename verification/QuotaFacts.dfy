/**
 The store of quota facts (`accountquota`): snapshots are upserted row by row under the guard
 that nothing newer is overwritten, a complete snapshot then deletes the older rows of its own
 source, and a failed probe records its state without touching the measured values.
 */
module QuotaFacts {
  import opened Options
  import opened Text

  datatype Values = Values(
    used: Option<real>, limit: Option<real>, remaining: Option<real>, unit: string,
    utilization: Option<real>, remainingPercent: Option<real>, resetsAt: Option<int>, validUntil: Option<int>)

  const NoValues := Values(None, None, None, "", None, None, None, None)

  datatype FactState = Available | Exhausted | Unknown | Error | OtherState(name: string)

  datatype Fact = Fact(metricKey: string, modelKey: string, state: FactState, values: Values, errorClass: string)

  datatype Source =
    | UpstreamUsage | UpstreamBilling | UpstreamModelCatalog | ResponseHeaders | CapabilityContract
    | OtherSource(name: string)

  /** `observedAt` is absent when the Go time is zero. */
  datatype Snapshot = Snapshot(
    tenantID: int, accountID: int, vendor: string, source: Source,
    observedAt: Option<int>, complete: bool, facts: seq<Fact>)

  /** The primary key of `provider_account_quota_facts`. */
  datatype Key = Key(tenantID: int, accountID: int, metric: string, model: string)

  datatype Row = Row(vendor: string, state: FactState, values: Values, observedAt: int, source: Source,
                     errorClass: string)

  type Table = map<Key, Row>

  // ------------------------------------------------------------------ validation

  predicate Within(v: Option<real>, top: Option<real>) {
    v.Some? ==> 0.0 <= v.value && (top.Some? ==> v.value <= top.value)
  }

  predicate FactValid(f: Fact) {
    && Trim(f.metricKey) != ""
    && !f.state.OtherState?
    && (f.state == Error <==> Trim(f.errorClass) != "")
    && (f.state == Unknown ==>
          f.values.used == f.values.limit == f.values.remaining == None
          && f.values.utilization == f.values.remainingPercent == None)
    && Within(f.values.used, None) && Within(f.values.limit, None) && Within(f.values.remaining, None)
    && Within(f.values.utilization, Some(100.0)) && Within(f.values.remainingPercent, Some(100.0))
  }

  /** What the validation compares: the trimmed keys with a NUL between them. */
  function Dimension(f: Fact): string {
    Trim(f.metricKey) + "\0" + Trim(f.modelKey)
  }

  predicate Valid(s: Snapshot) {
    && s.tenantID > 0 && s.accountID > 0 && Trim(s.vendor) != "" && !s.source.OtherSource? && s.observedAt.Some?
    && s.facts != []
    && (forall i :: 0 <= i < |s.facts| ==> FactValid(s.facts[i]))
    && (forall i, j :: 0 <= i < j < |s.facts| ==> Dimension(s.facts[i]) != Dimension(s.facts[j]))
  }

  predicate AtLeastZero(v: Option<real>) {
    v == None || v.value >= 0.0
  }

  predicate Percentage(v: Option<real>) {
    v == None || (v.value >= 0.0 && v.value <= 100.0)
  }

  /** Nothing was measured, but for the times. */
  predicate Unmeasured(v: Values) {
    v.used == None && v.limit == None && v.remaining == None && v.utilization == None && v.remainingPercent == None
  }

  /** A fact by its state: what must and what must not be said with it. */
  predicate Sayable(f: Fact) {
    && Trim(f.metricKey) != ""
    && (match f.state
        case Available => Trim(f.errorClass) == ""
        case Exhausted => Trim(f.errorClass) == ""
        case Unknown => Trim(f.errorClass) == "" && Unmeasured(f.values)
        case Error => Trim(f.errorClass) != ""
        case OtherState(_) => false)
    && AtLeastZero(f.values.used) && AtLeastZero(f.values.limit) && AtLeastZero(f.values.remaining)
    && Percentage(f.values.utilization) && Percentage(f.values.remainingPercent)
  }

  lemma ValidIsSayable(f: Fact)
    ensures FactValid(f) <==> Sayable(f)
  {
  }

  lemma JoinedByNul(a: string, b: string, c: string, d: string)
    requires '\0' !in a && '\0' !in c
    ensures a + "\0" + b == c + "\0" + d ==> a == c && b == d
  {
    var s, t := a + "\0" + b, c + "\0" + d;
    if s == t {
      assert s[|a|] == '\0' && t[|c|] == '\0';
      assert a == s[..|a|] && c == t[..|c|] && b == s[|a| + 1..] && d == t[|c| + 1..];
    }
  }

  /** Facts have one dimension exactly when their trimmed keys are the same, as long as metrics have no NUL. */
  lemma DimensionsAre(f: Fact, g: Fact)
    ensures Trim(f.metricKey) == Trim(g.metricKey) && Trim(f.modelKey) == Trim(g.modelKey) ==>
      Dimension(f) == Dimension(g)
    ensures '\0' !in Trim(f.metricKey) && '\0' !in Trim(g.metricKey) && Dimension(f) == Dimension(g) ==>
      Trim(f.metricKey) == Trim(g.metricKey) && Trim(f.modelKey) == Trim(g.modelKey)
  {
    if '\0' !in Trim(f.metricKey) && '\0' !in Trim(g.metricKey) {
      JoinedByNul(Trim(f.metricKey), Trim(f.modelKey), Trim(g.metricKey), Trim(g.modelKey));
    }
  }

  // ------------------------------------------------------------------ the statements

  function KeyOf(s: Snapshot, f: Fact): Key {
    Key(s.tenantID, s.accountID, Trim(f.metricKey), Trim(f.modelKey))
  }

  function RowOf(s: Snapshot, f: Fact): Row
    requires s.observedAt.Some?
  {
    Row(Trim(s.vendor), f.state, f.values.(unit := Trim(f.values.unit)), s.observedAt.value, s.source,
      Trim(f.errorClass))
  }

  /** INSERT ... ON CONFLICT DO UPDATE ... WHERE stored.observed_at <= new.observed_at */
  function Upsert(t: Table, k: Key, r: Row): Table {
    if k in t && t[k].observedAt > r.observedAt then t else t[k := r]
  }

  function UpsertAll(t: Table, s: Snapshot, facts: seq<Fact>): Table
    requires s.observedAt.Some?
  {
    if facts == [] then t
    else
      var f := facts[|facts| - 1];
      Upsert(UpsertAll(t, s, facts[..|facts| - 1]), KeyOf(s, f), RowOf(s, f))
  }

  predicate Outdated(s: Snapshot, k: Key, r: Row)
    requires s.observedAt.Some?
  {
    s.complete && k.tenantID == s.tenantID && k.accountID == s.accountID
    && r.source == s.source && r.observedAt < s.observedAt.value
  }

  /** The DELETE that a complete snapshot ends with. */
  function DeleteOutdated(t: Table, s: Snapshot): Table
    requires s.observedAt.Some?
  {
    map k | k in t && !Outdated(s, k, t[k]) :: t[k]
  }

  function Replace(t: Table, s: Snapshot): Table
    requires s.observedAt.Some?
  {
    DeleteOutdated(UpsertAll(t, s, s.facts), s)
  }

  function FailureFact(errorClass: string): Fact {
    Fact("probe_status", "", Error, NoValues, Trim(errorClass))
  }

  /** The failure upsert sets everything but the measured values, which the row keeps. */
  function Fail(t: Table, s: Snapshot, errorClass: string): Table
    requires s.observedAt.Some?
  {
    var k := FailureKey(s);
    Upsert(t, k, FailureRow(s, errorClass, if k in t then t[k].values else NoValues))
  }

  /** A failure can be recorded exactly if it has a class. */
  lemma FailureIsSayable(errorClass: string)
    ensures FactValid(FailureFact(errorClass)) <==> Trim(errorClass) != ""
  {
    TrimTrims(errorClass);
    assert Trim("probe_status") == "probe_status";
  }

  function FailureKey(s: Snapshot): Key {
    Key(s.tenantID, s.accountID, "probe_status", "")
  }

  function FailureRow(s: Snapshot, errorClass: string, kept: Values): Row
    requires s.observedAt.Some?
  {
    Row(Trim(s.vendor), Error, kept, s.observedAt.value, s.source, Trim(errorClass))
  }

  // ------------------------------------------------- what is stored, field by field

  /** The row says what the fact says, as the snapshot observed it. */
  predicate Stores(r: Row, s: Snapshot, f: Fact) {
    && r.state == f.state && r.errorClass == Trim(f.errorClass)
    && r.values.used == f.values.used && r.values.limit == f.values.limit && r.values.remaining == f.values.remaining
    && r.values.unit == Trim(f.values.unit)
    && r.values.utilization == f.values.utilization && r.values.remainingPercent == f.values.remainingPercent
    && r.values.resetsAt == f.values.resetsAt && r.values.validUntil == f.values.validUntil
    && r.vendor == Trim(s.vendor) && Some(r.observedAt) == s.observedAt && r.source == s.source
  }

  /** The stored row of the key is newer than the snapshot. */
  predicate Ahead(t: Table, s: Snapshot, k: Key) {
    k in t && s.observedAt.Some? && t[k].observedAt > s.observedAt.value
  }

  predicate FactStored(t: Table, s: Snapshot, f: Fact, after: Table) {
    var k := Key(s.tenantID, s.accountID, Trim(f.metricKey), Trim(f.modelKey));
    k in after && if Ahead(t, s, k) then after[k] == t[k] else Stores(after[k], s, f)
  }

  /** A row that is older than the complete snapshot of its own source and account. */
  predicate Superseded(t: Table, s: Snapshot, k: Key)
    requires k in t
  {
    && s.complete && (k.tenantID, k.accountID) == (s.tenantID, s.accountID)
    && t[k].source == s.source && s.observedAt.Some? && s.observedAt.value > t[k].observedAt
  }

  ghost predicate Facts(s: Snapshot, k: Key) {
    exists i :: 0 <= i < |s.facts|
      && k == Key(s.tenantID, s.accountID, Trim(s.facts[i].metricKey), Trim(s.facts[i].modelKey))
  }

  /**
   After a valid snapshot every fact has its row, or a newer one; and a key it has no fact for
   has the row it had, unless that is superseded.
   */
  ghost predicate Holds(t: Table, s: Snapshot, after: Table) {
    && (forall i :: 0 <= i < |s.facts| ==> FactStored(t, s, s.facts[i], after))
    && (forall k :: !Facts(s, k) ==>
          if k in t && !Superseded(t, s, k) then k in after && after[k] == t[k] else k !in after)
  }

  lemma SnapshotHolds(t: Table, s: Snapshot)
    requires Valid(s)
    ensures Holds(t, s, Replace(t, s))
  {
    forall i | 0 <= i < |s.facts| ensures FactStored(t, s, s.facts[i], Replace(t, s)) {
      BringsTheFact(s, i);
      ReplaceAt(t, s, KeyOf(s, s.facts[i]));
      UpsertAllAt(t, s, s.facts, KeyOf(s, s.facts[i]));
      assert Find(Replace(t, s), KeyOf(s, s.facts[i])).Some?;
    }
    forall k | !Facts(s, k)
      ensures if k in t && !Superseded(t, s, k) then k in Replace(t, s) && Replace(t, s)[k] == t[k]
              else k !in Replace(t, s)
    {
      BringsIsAFact(s, s.facts, k);
      ReplaceAt(t, s, k);
      assert Find(t, k).Some? <==> k in t;
    }
  }

  // ------------------------------------------------------------------ the store

  class Store {
    var facts: Table

    constructor ()
      ensures facts == map[]
    {
      facts := map[];
    }

    /** `ReplaceSnapshot`: all of it in one transaction, or nothing when the snapshot is not valid. */
    method ReplaceSnapshot(s: Snapshot) returns (ok: bool)
      modifies this
      ensures ok <==> Valid(s)
      ensures facts == if ok then Replace(old(facts), s) else old(facts)
      ensures ok ==> Holds(old(facts), s, facts)
    {
      ok := Validate(s);
      if ok {
        SnapshotHolds(facts, s);
        UpsertFacts(s);
        if s.complete {
          Delete(s);
        } else {
          assert DeleteOutdated(facts, s) == facts;
        }
      }
    }

    method UpsertFacts(s: Snapshot)
      requires s.observedAt.Some?
      modifies this
      ensures facts == UpsertAll(old(facts), s, s.facts)
    {
      for i := 0 to |s.facts|
        invariant facts == UpsertAll(old(facts), s, s.facts[..i])
      {
        assert s.facts[..i + 1][..i] == s.facts[..i];
        var k, r := KeyOf(s, s.facts[i]), RowOf(s, s.facts[i]);
        if k !in facts || facts[k].observedAt <= r.observedAt {
          facts := facts[k := r];
        }
      }
      assert s.facts[..|s.facts|] == s.facts;
    }

    method Delete(s: Snapshot)
      requires s.observedAt.Some? && s.complete
      modifies this
      ensures facts == DeleteOutdated(old(facts), s)
    {
      facts := map k | k in facts && !(k.tenantID == s.tenantID && k.accountID == s.accountID
                 && facts[k].source == s.source && facts[k].observedAt < s.observedAt.value) :: facts[k];
    }

    /** `RecordFailure` */
    method RecordFailure(s: Snapshot, errorClass: string) returns (ok: bool)
      modifies this
      ensures ok <==> Valid(s.(facts := [FailureFact(errorClass)]))
      ensures ok <==>
        && s.tenantID > 0 && s.accountID > 0 && Trim(s.vendor) != "" && !s.source.OtherSource? && s.observedAt.Some?
        && Trim(errorClass) != ""
      ensures facts == if ok then Fail(old(facts), s, errorClass) else old(facts)
      ensures var k := Key(s.tenantID, s.accountID, "probe_status", "");
        ok && !Ahead(old(facts), s, k) ==>
          && k in facts && facts == old(facts)[k := facts[k]]
          && facts[k].state == Error && facts[k].errorClass == Trim(errorClass) != ""
          && facts[k].vendor == Trim(s.vendor) && Some(facts[k].observedAt) == s.observedAt
          && facts[k].source == s.source
          && facts[k].values == if k in old(facts) then old(facts)[k].values else NoValues
      ensures Ahead(old(facts), s, Key(s.tenantID, s.accountID, "probe_status", "")) ==> facts == old(facts)
    {
      ok := Validate(s.(facts := [FailureFact(errorClass)]));
      FailureIsSayable(errorClass);
      assert ok ==> FactValid([FailureFact(errorClass)][0]);
      if !ok {
        return;
      }
      var k, r := FailureKey(s), FailureRow(s, errorClass, NoValues);
      if k !in facts {
        facts := facts[k := r];
      } else if facts[k].observedAt <= r.observedAt {
        facts := facts[k := facts[k].(vendor := r.vendor, state := r.state, observedAt := r.observedAt,
                                      source := r.source, errorClass := r.errorClass)];
      }
    }
  }

  /** `Snapshot.Validate` */
  method Validate(s: Snapshot) returns (ok: bool)
    ensures ok <==> Valid(s)
    ensures ok ==> forall f :: f in s.facts ==> Sayable(f)
    ensures (exists f :: f in s.facts && !Sayable(f)) ==> !ok
  {
    forall f ensures FactValid(f) <==> Sayable(f) { ValidIsSayable(f); }
    if || s.tenantID <= 0 || s.accountID <= 0 || Trim(s.vendor) == ""
       || s.source.OtherSource? || s.observedAt.None? || |s.facts| == 0
    {
      return false;
    }
    var valid := seq(|s.facts|, i requires 0 <= i < |s.facts| => FactValid(s.facts[i]));
    var dimensions := seq(|s.facts|, i requires 0 <= i < |s.facts| => Dimension(s.facts[i]));
    ok := CheckFacts(valid, dimensions);
    assert forall i :: 0 <= i < |s.facts| ==> valid[i] == FactValid(s.facts[i]);
    assert forall i :: 0 <= i < |s.facts| ==> dimensions[i] == Dimension(s.facts[i]);
  }

  /** The loop of `Validate` over the facts, with its map of dimensions already seen. */
  method CheckFacts(valid: seq<bool>, dimensions: seq<string>) returns (ok: bool)
    requires |valid| == |dimensions|
    ensures ok <==>
      && (forall i :: 0 <= i < |valid| ==> valid[i])
      && (forall i, j :: 0 <= i < j < |dimensions| ==> dimensions[i] != dimensions[j])
  {
    var seen: set<string> := {};
    for i := 0 to |valid|
      invariant forall j :: 0 <= j < i ==> valid[j]
      invariant seen == set j | 0 <= j < i :: dimensions[j]
      invariant forall j, k :: 0 <= j < k < i ==> dimensions[j] != dimensions[k]
    {
      if !valid[i] || dimensions[i] in seen {
        return false;
      }
      seen := seen + {dimensions[i]};
    }
    ok := true;
  }

  /** Facts of a valid snapshot never share a row. */
  lemma ValidKeysDiffer(s: Snapshot, i: nat, j: nat)
    requires Valid(s) && i < |s.facts| && j < |s.facts| && i != j
    ensures KeyOf(s, s.facts[i]) != KeyOf(s, s.facts[j])
  {
  }

  // ------------------------------------------------------- one snapshot, row by row

  /** The row a snapshot brings for a key, if any. */
  function Brings(s: Snapshot, facts: seq<Fact>, k: Key): Option<Row>
    requires s.observedAt.Some?
  {
    if facts == [] then None
    else
      var f := facts[|facts| - 1];
      if KeyOf(s, f) == k then Some(RowOf(s, f)) else Brings(s, facts[..|facts| - 1], k)
  }

  function Find(t: Table, k: Key): Option<Row> {
    if k in t then Some(t[k]) else None
  }

  /** The newer of two rows; of two equally old ones the one that came last. */
  function Newer(stored: Option<Row>, brought: Option<Row>): Option<Row> {
    if brought.None? || (stored.Some? && stored.value.observedAt > brought.value.observedAt) then stored else brought
  }

  lemma {:induction false} UpsertAllAt(t: Table, s: Snapshot, facts: seq<Fact>, k: Key)
    requires s.observedAt.Some?
    ensures Find(UpsertAll(t, s, facts), k) == Newer(Find(t, k), Brings(s, facts, k))
    ensures Brings(s, facts, k).Some? ==>
      Brings(s, facts, k).value.observedAt == s.observedAt.value && Brings(s, facts, k).value.source == s.source
      && k.tenantID == s.tenantID && k.accountID == s.accountID
  {
    if facts != [] {
      UpsertAllAt(t, s, facts[..|facts| - 1], k);
    }
  }

  /** What a snapshot does to any one key, stated without the order of its facts. */
  lemma ReplaceAt(t: Table, s: Snapshot, k: Key)
    requires s.observedAt.Some?
    ensures var merged := Newer(Find(t, k), Brings(s, s.facts, k));
      Find(Replace(t, s), k) == if merged.Some? && Outdated(s, k, merged.value) then None else merged
  {
    UpsertAllAt(t, s, s.facts, k);
  }

  lemma {:induction false} BringsIsAFact(s: Snapshot, facts: seq<Fact>, k: Key)
    requires s.observedAt.Some?
    ensures match Brings(s, facts, k)
            case Some(r) => exists i :: 0 <= i < |facts| && KeyOf(s, facts[i]) == k && r == RowOf(s, facts[i])
            case None => forall i :: 0 <= i < |facts| ==> KeyOf(s, facts[i]) != k
  {
    if facts != [] && KeyOf(s, facts[|facts| - 1]) != k {
      BringsIsAFact(s, facts[..|facts| - 1], k);
    }
  }

  lemma SameTable(a: Table, b: Table)
    requires forall k :: Find(a, k) == Find(b, k)
    ensures a == b
  {
    forall k ensures k in a <==> k in b { assert Find(a, k) == Find(b, k); }
    forall k | k in a ensures a[k] == b[k] { assert Find(a, k) == Find(b, k); }
  }

  /** The order of the facts inside a valid snapshot does not matter. */
  lemma FactOrderIsIrrelevant(t: Table, s: Snapshot, s': Snapshot)
    requires Valid(s) && Valid(s') && s' == s.(facts := s'.facts)
    requires forall f :: f in s.facts <==> f in s'.facts
    ensures Replace(t, s) == Replace(t, s')
  {
    forall k ensures Find(Replace(t, s), k) == Find(Replace(t, s'), k) {
      ReplaceAt(t, s, k);
      ReplaceAt(t, s', k);
      SameRow(s, s', k);
      SameRow(s', s, k);
    }
    SameTable(Replace(t, s), Replace(t, s'));
  }

  /** In a valid snapshot a key is brought by one fact only. */
  lemma BringsTheFact(s: Snapshot, i: nat)
    requires Valid(s) && i < |s.facts|
    ensures Brings(s, s.facts, KeyOf(s, s.facts[i])) == Some(RowOf(s, s.facts[i]))
  {
    var k := KeyOf(s, s.facts[i]);
    BringsIsAFact(s, s.facts, k);
    var n :| 0 <= n < |s.facts| && KeyOf(s, s.facts[n]) == k && Brings(s, s.facts, k).value == RowOf(s, s.facts[n]);
    if n != i { ValidKeysDiffer(s, n, i); }
  }

  lemma SameRow(s: Snapshot, s': Snapshot, k: Key)
    requires Valid(s) && Valid(s') && s' == s.(facts := s'.facts)
    requires forall f :: f in s.facts <==> f in s'.facts
    ensures Brings(s, s.facts, k).Some? ==> Brings(s', s'.facts, k) == Brings(s, s.facts, k)
  {
    BringsIsAFact(s, s.facts, k);
    if Brings(s, s.facts, k).Some? {
      var i :| 0 <= i < |s.facts| && KeyOf(s, s.facts[i]) == k && Brings(s, s.facts, k).value == RowOf(s, s.facts[i]);
      assert s.facts[i] in s'.facts;
      var j :| 0 <= j < |s'.facts| && s'.facts[j] == s.facts[i];
      BringsTheFact(s', j);
    }
  }
}
