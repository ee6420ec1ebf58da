/**
 Model discovery (`accountmodeldiscovery`): the pages of an upstream catalogue are fetched one
 after the other under hard limits, and the models on them are brought into one canonical list.
 */
module ModelCatalogue {
  import opened Options
  import opened Ordering
  import opened Sets
  import opened Text

  datatype Model = Model(id: string, displayName: string, protocolFamily: string, capabilities: seq<string>,
                         contextWindow: int)

  // -------------------------------------------------------------------- lists of names

  /** The text of some value without the white space around it, unless nothing is left of it. */
  ghost predicate Names(values: seq<string>, x: string) {
    x != "" && exists i :: 0 <= i < |values| && Trim(values[i]) == x
  }

  /** The canonical form of a list of names: trimmed, without blanks and repetitions, sorted. */
  ghost predicate IsClean(values: seq<string>, out: seq<string>) {
    StrictlySorted(out) && forall x :: x in out <==> Names(values, x)
  }

  function Clean(values: seq<string>): (out: seq<string>)
    ensures StrictlySorted(out)
  {
    if values == [] then []
    else
      var rest, x := Clean(values[..|values| - 1]), Trim(values[|values| - 1]);
      if x == "" then rest else Insert(rest, x)
  }

  lemma {:induction false} CleanIsClean(values: seq<string>)
    ensures IsClean(values, Clean(values))
  {
    if values != [] {
      var front := values[..|values| - 1];
      CleanIsClean(front);
      forall x ensures x in Clean(values) <==> Names(values, x) {
        NamesNext(values, x);
      }
    }
  }

  lemma NamesNext(values: seq<string>, x: string)
    requires values != []
    ensures Names(values, x) <==> Names(values[..|values| - 1], x) || (x != "" && x == Trim(values[|values| - 1]))
  {
  }

  /** There is one canonical form only, so the order of the values does not matter to it. */
  lemma CleanIsUnique(values: seq<string>, out: seq<string>)
    requires IsClean(values, out)
    ensures out == Clean(values)
  {
    CleanIsClean(values);
    SortedUnique(out, Clean(values));
  }

  /** A list in canonical form is left alone. */
  lemma CleanTwice(values: seq<string>)
    ensures Clean(Clean(values)) == Clean(values)
  {
    var out := Clean(values);
    CleanIsClean(values);
    forall x ensures x in out <==> Names(out, x) {
      if x in out {
        TrimmedName(values, x);
        var i :| 0 <= i < |out| && out[i] == x;
        assert Trim(out[i]) == x;
      }
      if Names(out, x) {
        var i :| 0 <= i < |out| && Trim(out[i]) == x;
        TrimmedName(values, out[i]);
      }
    }
    CleanIsUnique(out, out);
  }

  lemma TrimmedName(values: seq<string>, x: string)
    requires Names(values, x)
    ensures Trim(x) == x && x != ""
  {
    var i :| 0 <= i < |values| && Trim(values[i]) == x;
    TrimTrims(values[i]);
  }

  /** `cleanStrings` and `normalizedIDs`: the same loop, over a map of what was seen. */
  method CleanStrings(values: seq<string>) returns (out: seq<string>)
    ensures out == Clean(values)
  {
    var seen: set<string> := {};
    out := [];
    for i := 0 to |values|
      invariant forall x :: x in seen <==> x in Clean(values[..i])
      invariant forall x :: x in out <==> x in seen
    {
      assert values[..i + 1][..i] == values[..i];
      var value := Trim(values[i]);
      if value == "" || value in seen {
        continue;
      }
      seen := seen + {value};
      out := out + [value];
    }
    assert values[..|values|] == values;
    ghost var found := out;
    out := SortStrings(out);
    SortedUnique(out, Clean(values));
  }

  /** `sort.Strings` of names that are all different. */
  method SortStrings(s: seq<string>) returns (r: seq<string>)
    ensures StrictlySorted(r) && forall x :: x in r <==> x in s
  {
    r := [];
    for i := 0 to |s|
      invariant StrictlySorted(r) && forall x :: x in r <==> x in s[..i]
    {
      assert s[..i + 1] == s[..i] + [s[i]];
      r := Insert(r, s[i]);
    }
    assert s[..|s|] == s;
  }

  // ------------------------------------------------------------------- lists of models

  function Tidy(m: Model): Model {
    var id := Trim(m.id);
    m.(id := id,
       displayName := if Trim(m.displayName) == "" then id else Trim(m.displayName),
       capabilities := Clean(m.capabilities))
  }

  /** What is kept of a model: its name, or else its id, without outer white space, and all else as it came. */
  lemma TidyIs(m: Model)
    ensures Tidy(m).id == Trim(m.id) && Tidy(m).protocolFamily == m.protocolFamily
    ensures Tidy(m).contextWindow == m.contextWindow && Tidy(m).capabilities == Clean(m.capabilities)
    ensures Trim(m.displayName) != "" ==> Tidy(m).displayName == Trim(m.displayName)
    ensures Trim(m.displayName) == "" ==> Tidy(m).displayName == Trim(m.id)
  {
  }

  ghost predicate SortedByID(out: seq<Model>) {
    forall i, j :: 0 <= i < j < |out| ==> Less(out[i].id, out[j].id)
  }

  /** Of the models with this id the first one. */
  ghost predicate IsFirst(models: seq<Model>, n: int, id: string) {
    && 0 <= n < |models| && Trim(models[n].id) == id
    && forall i :: 0 <= i < n ==> Trim(models[i].id) != id
  }

  ghost predicate IsFirstTidy(models: seq<Model>, m: Model) {
    m.id != "" && exists n :: IsFirst(models, n, m.id) && m == Tidy(models[n])
  }

  /** The canonical catalogue: sorted by id, and for every id the first model that carries it. */
  ghost predicate IsCatalogue(models: seq<Model>, out: seq<Model>) {
    SortedByID(out) && forall m :: m in out <==> IsFirstTidy(models, m)
  }

  lemma FirstExists(models: seq<Model>, id: string, n: nat)
    requires n < |models| && Trim(models[n].id) == id
    ensures exists k :: IsFirst(models, k, id)
  {
    if k :| 0 <= k < n && Trim(models[k].id) == id {
      FirstExists(models, id, k);
    } else {
      assert IsFirst(models, n, id);
    }
  }

  lemma {:induction false} SortedByIDUnique(a: seq<Model>, b: seq<Model>)
    requires SortedByID(a) && SortedByID(b) && forall m :: m in a <==> m in b
    ensures a == b
  {
    assert a != [] ==> a[0] in b;
    assert b != [] ==> b[0] in a;
    if a != [] {
      SameGreatest(a, b);
      var a', b', x := a[..|a| - 1], b[..|b| - 1], a[|a| - 1];
      assert a == a' + [x] && b == b' + [x];
      forall z ensures z in a' <==> z in b' {
        FrontOf(a, z);
        FrontOf(b, z);
      }
      SortedByIDUnique(a', b');
    }
  }

  lemma SameGreatest(a: seq<Model>, b: seq<Model>)
    requires SortedByID(a) && SortedByID(b) && a != [] && b != [] && forall m :: m in a <==> m in b
    ensures a[|a| - 1] == b[|b| - 1]
  {
    var x, y := a[|a| - 1], b[|b| - 1];
    assert x in b && y in a;
    LastIsGreatestID(a, y);
    LastIsGreatestID(b, x);
    if Less(x.id, y.id) && Less(y.id, x.id) {
      LessTransitive(x.id, y.id, x.id);
      LessIrreflexive(x.id);
    }
  }

  lemma FrontOf(s: seq<Model>, z: Model)
    requires SortedByID(s) && s != []
    ensures z in s[..|s| - 1] <==> z in s && z != s[|s| - 1]
  {
    var last := s[|s| - 1];
    assert s == s[..|s| - 1] + [last];
    if z in s[..|s| - 1] {
      var i :| 0 <= i < |s| - 1 && s[i] == z;
      LessIrreflexive(z.id);
    }
  }

  lemma LastIsGreatestID(s: seq<Model>, m: Model)
    requires SortedByID(s) && m in s
    ensures m == s[|s| - 1] || Less(m.id, s[|s| - 1].id)
  {
  }

  /** A list of models has one catalogue only, however the map of `normalizeModels` was walked. */
  lemma CatalogueIsUnique(models: seq<Model>, a: seq<Model>, b: seq<Model>)
    requires IsCatalogue(models, a) && IsCatalogue(models, b)
    ensures a == b
  {
    SortedByIDUnique(a, b);
  }

  lemma TidyTwice(m: Model)
    ensures Tidy(Tidy(m)) == Tidy(m)
  {
    TrimTrims(m.id);
    TrimTrims(m.displayName);
    CleanTwice(m.capabilities);
  }

  /** A catalogue is its own catalogue. */
  lemma CatalogueTwice(models: seq<Model>, out: seq<Model>)
    requires IsCatalogue(models, out)
    ensures IsCatalogue(out, out)
  {
    forall i | 0 <= i < |out| ensures Tidy(out[i]) == out[i] && out[i].id != "" && IsFirst(out, i, out[i].id) {
      MemberIsTidy(models, out, i);
      forall j | 0 <= j < i ensures Trim(out[j].id) != out[i].id {
        MemberIsTidy(models, out, j);
        LessIrreflexive(out[i].id);
      }
    }
    forall m ensures m in out <==> IsFirstTidy(out, m) {
      if m in out {
        var i :| 0 <= i < |out| && out[i] == m;
        assert IsFirst(out, i, m.id) && m == Tidy(out[i]);
      }
      if IsFirstTidy(out, m) {
        var n :| IsFirst(out, n, m.id) && m == Tidy(out[n]);
        assert m == out[n];
      }
    }
  }

  lemma MemberIsTidy(models: seq<Model>, out: seq<Model>, i: nat)
    requires IsCatalogue(models, out) && i < |out|
    ensures Tidy(out[i]) == out[i] && Trim(out[i].id) == out[i].id && out[i].id != ""
  {
    assert out[i] in out;
    var n :| IsFirst(models, n, out[i].id) && out[i] == Tidy(models[n]);
    TidyTwice(models[n]);
  }

  function IDs(models: seq<Model>): (ids: seq<string>)
    ensures |ids| == |models| && forall i :: 0 <= i < |ids| ==> ids[i] == models[i].id
  {
    seq(|models|, i requires 0 <= i < |models| => models[i].id)
  }

  /** The ids of the catalogue are the canonical form of the ids upstream sent: none lost, none added. */
  lemma CatalogueIDs(models: seq<Model>, out: seq<Model>)
    requires IsCatalogue(models, out)
    ensures IDs(out) == Clean(IDs(models))
  {
    forall x ensures x in IDs(out) <==> Names(IDs(models), x) {
      if x in IDs(out) {
        var i :| 0 <= i < |out| && out[i].id == x;
        assert out[i] in out;
        var n :| IsFirst(models, n, out[i].id) && out[i] == Tidy(models[n]);
        assert IDs(models)[n] == models[n].id;
      }
      if Names(IDs(models), x) {
        var i :| 0 <= i < |models| && Trim(IDs(models)[i]) == x;
        FirstExists(models, x, i);
        var n :| IsFirst(models, n, x);
        var m := Tidy(models[n]);
        assert IsFirst(models, n, m.id);
        assert m in out;
        var k :| 0 <= k < |out| && out[k] == m;
        assert IDs(out)[k] == x;
      }
    }
    assert IsClean(IDs(models), IDs(out));
    CleanIsUnique(IDs(models), IDs(out));
  }

  ghost predicate EntriesAreFirst(models: seq<Model>, byID: map<string, Model>) {
    forall id :: id in byID ==> byID[id].id == id && IsFirstTidy(models, byID[id])
  }

  predicate Covered(m: Model, byID: map<string, Model>) {
    Trim(m.id) != "" ==> Trim(m.id) in byID
  }

  /** What the map of `normalizeModels` holds after the first models. */
  ghost predicate HoldsFirsts(models: seq<Model>, byID: map<string, Model>) {
    EntriesAreFirst(models, byID) && CoversAll(models, byID)
  }

  predicate CoversAll(models: seq<Model>, byID: map<string, Model>) {
    forall m :: m in models ==> Covered(m, byID)
  }

  lemma FirstTidyNext(models: seq<Model>, m: Model)
    requires models != [] && IsFirstTidy(models[..|models| - 1], m)
    ensures IsFirstTidy(models, m)
  {
  }

  lemma NewFirst(models: seq<Model>, byID: map<string, Model>)
    requires models != [] && HoldsFirsts(models[..|models| - 1], byID)
    requires Trim(models[|models| - 1].id) !in byID && Trim(models[|models| - 1].id) != ""
    ensures IsFirstTidy(models, Tidy(models[|models| - 1]))
  {
    var front, id := models[..|models| - 1], Trim(models[|models| - 1].id);
    forall i | 0 <= i < |front| ensures Trim(models[i].id) != id {
      assert front[i] == models[i] && front[i] in front && Covered(front[i], byID);
    }
    assert IsFirst(models, |models| - 1, id);
  }

  lemma EntriesNext(models: seq<Model>, byID: map<string, Model>)
    requires models != [] && EntriesAreFirst(models[..|models| - 1], byID)
    ensures EntriesAreFirst(models, byID)
  {
    forall id | id in byID ensures IsFirstTidy(models, byID[id]) { FirstTidyNext(models, byID[id]); }
  }

  lemma CoversNext(models: seq<Model>, byID: map<string, Model>, next: map<string, Model>)
    requires models != [] && CoversAll(models[..|models| - 1], byID)
    requires byID.Keys <= next.Keys && Covered(models[|models| - 1], next)
    ensures CoversAll(models, next)
  {
    forall m | m in models ensures Covered(m, next) {
      if m in models[..|models| - 1] { assert Covered(m, byID); }
    }
  }

  lemma EntriesGrow(models: seq<Model>, byID: map<string, Model>, m: Model)
    requires EntriesAreFirst(models, byID) && IsFirstTidy(models, m)
    ensures EntriesAreFirst(models, byID[m.id := m])
  {
  }

  /** What the next model does to the map. */
  lemma HoldsNext(models: seq<Model>, byID: map<string, Model>, m: Model)
    requires models != [] && HoldsFirsts(models[..|models| - 1], byID) && m == Tidy(models[|models| - 1])
    ensures m.id == "" || m.id in byID ==> HoldsFirsts(models, byID)
    ensures m.id != "" && m.id !in byID ==> HoldsFirsts(models, byID[m.id := m])
  {
    var last := models[|models| - 1];
    assert m.id == Trim(last.id);
    EntriesNext(models, byID);
    if m.id == "" || m.id in byID {
      CoversNext(models, byID, byID);
    } else {
      NewFirst(models, byID);
      EntriesGrow(models, byID, m);
      CoversNext(models, byID, byID[m.id := m]);
    }
  }

  /** `normalizeModels`; the walk over the map takes its entries in any order. */
  method NormalizeModels(models: seq<Model>) returns (out: seq<Model>)
    ensures IsCatalogue(models, out)
  {
    var byID: map<string, Model> := map[];
    for n := 0 to |models|
      invariant HoldsFirsts(models[..n], byID)
    {
      assert models[..n + 1][..n] == models[..n];
      HoldsNext(models[..n + 1], byID, Tidy(models[n]));
      var model := models[n];
      model := model.(id := Trim(model.id));
      if model.id == "" {
        continue;
      }
      model := model.(displayName := Trim(model.displayName));
      if model.displayName == "" {
        model := model.(displayName := model.id);
      }
      var capabilities := CleanStrings(model.capabilities);
      model := model.(capabilities := capabilities);
      if model.id !in byID {
        byID := byID[model.id := model];
      }
    }
    assert models[..|models|] == models;
    out := SortedValues(byID);
    forall m ensures m in out <==> IsFirstTidy(models, m) { MemberIsFirst(models, byID, m); }
  }

  lemma MemberIsFirst(models: seq<Model>, byID: map<string, Model>, m: Model)
    requires HoldsFirsts(models, byID)
    ensures m.id in byID && byID[m.id] == m <==> IsFirstTidy(models, m)
  {
    if IsFirstTidy(models, m) {
      var n :| IsFirst(models, n, m.id) && m == Tidy(models[n]);
      assert models[n] in models && Covered(models[n], byID);
      var k :| IsFirst(models, k, m.id) && byID[m.id] == Tidy(models[k]);
    }
  }

  /** The entries of the map in the order of their ids. */
  method SortedValues(byID: map<string, Model>) returns (out: seq<Model>)
    requires forall id :: id in byID ==> byID[id].id == id
    ensures SortedByID(out) && forall m :: m in out <==> m.id in byID && byID[m.id] == m
  {
    out := [];
    var left := byID.Keys;
    while left != {}
      invariant left <= byID.Keys && SortedByID(out)
      invariant forall m :: m in out <==> m.id in byID.Keys - left && byID[m.id] == m
      decreases |left|
    {
      var id := AnyOf(left);
      ghost var before := out;
      out := InsertByID(out, byID[id]);
      left := left - {id};
    }
  }

  function InsertByID(out: seq<Model>, m: Model): (r: seq<Model>)
    requires SortedByID(out) && forall i :: 0 <= i < |out| ==> out[i].id != m.id
    ensures SortedByID(r) && forall x :: x in r <==> x in out || x == m
  {
    if out == [] then [m]
    else
      var front, last := out[..|out| - 1], out[|out| - 1];
      LessTotal(last.id, m.id);
      assert out == front + [last];
      if Less(last.id, m.id) then
        assert forall i :: 0 <= i < |out| ==> Less(out[i].id, m.id) by {
          forall i | 0 <= i < |out| - 1 ensures Less(out[i].id, m.id) { LessTransitive(out[i].id, last.id, m.id); }
        }
        out + [m]
      else
        var r := InsertByID(front, m);
        assert forall x :: x in r ==> Less(x.id, last.id);
        r + [last]
  }

  // -------------------------------------------------------------------- the page loop

  datatype Kind = CredentialRejected | RateLimited | Upstream | ResponseInvalid | EmptyCatalog | CatalogTooLarge

  /** One page of models and the query for the page after it, empty when there is none. */
  datatype Page = Page(models: seq<Model>, next: string)

  /** How one request ends: no answer that can be read, or a status and, if it parses, a page. */
  datatype Answer = Failed(kind: Kind) | Answered(status: int, page: Option<Page>)

  datatype Verdict = Success(models: seq<Model>) | Failure(kind: Kind)

  const MAX_PAGES := 16

  const MAX_MODELS := 1000

  function StatusKind(status: int): Kind {
    if status == 401 || status == 403 then CredentialRejected else if status == 429 then RateLimited else Upstream
  }

  /** The page an answer carries, if the loop accepts it. */
  function PageOf(a: Answer): Option<Page> {
    if a.Answered? && 200 <= a.status < 300 then a.page else None
  }

  function KindOf(a: Answer): Kind
    requires PageOf(a).None?
  {
    match a
    case Failed(kind) => kind
    case Answered(status, _) => if 200 <= status < 300 then ResponseInvalid else StatusKind(status)
  }

  function AllModels(pages: seq<Page>): seq<Model> {
    if pages == [] then [] else AllModels(pages[..|pages| - 1]) + pages[|pages| - 1].models
  }

  /** The query that follows the pages fetched so far. */
  function QueryAfter(query: string, pages: seq<Page>): string {
    if pages == [] then query else pages[|pages| - 1].next
  }

  /** More is to be fetched after these pages, and no limit has been reached. */
  predicate Goes(pages: seq<Page>) {
    && |AllModels(pages)| <= MAX_MODELS
    && |pages| < MAX_PAGES
    && (pages != [] ==> pages[|pages| - 1].next != "")
  }

  /**
   The upstream's answers as a function of the number of the request and its query, and the
   pages the loop has fetched from it.
   */
  ghost predicate Fetched(upstream: (nat, string) -> Answer, query: string, pages: seq<Page>) {
    forall i: nat :: i < |pages| ==> Goes(pages[..i]) && IsPage(upstream, query, pages, i)
  }

  ghost predicate IsPage(upstream: (nat, string) -> Answer, query: string, pages: seq<Page>, i: nat)
    requires i < |pages|
  {
    PageOf(upstream(i, QueryAfter(query, pages[..i]))) == Some(pages[i])
  }

  /** All the pages there are, within the limits. */
  predicate Whole(pages: seq<Page>) {
    && pages != [] && |pages| <= MAX_PAGES
    && |AllModels(pages)| <= MAX_MODELS
    && pages[|pages| - 1].next == ""
  }

  ghost predicate Named(models: seq<Model>) {
    exists i :: 0 <= i < |models| && Trim(models[i].id) != ""
  }

  /** The loop ends after these pages with this verdict. */
  ghost predicate Ends(upstream: (nat, string) -> Answer, query: string, pages: seq<Page>, v: Verdict) {
    && Fetched(upstream, query, pages)
    && match v
       case Success(models) => Whole(pages) && Named(AllModels(pages)) && IsCatalogue(AllModels(pages), models)
       case Failure(kind) =>
         var answer := upstream(|pages|, QueryAfter(query, pages));
         if Goes(pages) then PageOf(answer).None? && kind == KindOf(answer)
         else if Whole(pages) then !Named(AllModels(pages)) && kind == EmptyCatalog
         else kind == CatalogTooLarge
  }

  /** A failed request is told as what it is: refused, limited, unreadable, or the upstream's own. */
  predicate Tells(answer: Answer, kind: Kind) {
    match answer
    case Failed(why) => kind == why
    case Answered(status, page) =>
      && (kind == CredentialRejected <==> status in {401, 403})
      && (kind == RateLimited <==> status == 429)
      && (kind == ResponseInvalid <==> 199 < status < 300)
      && (kind == ResponseInvalid ==> page == None)
      && (kind == Upstream <==> status !in {401, 403, 429} && (status < 200 || status > 299))
  }

  /** A page is taken from an answer exactly if its status is of the two hundreds and it can be read. */
  lemma AnswersAre(answer: Answer)
    ensures PageOf(answer).None? ==> Tells(answer, KindOf(answer))
    ensures PageOf(answer).Some? <==> answer.Answered? && 199 < answer.status < 300 && answer.page.Some?
    ensures PageOf(answer).Some? ==> PageOf(answer) == answer.page
  {
  }

  /** The page loop of `Discover`, with the number of requests it made. */
  method Discover(upstream: (nat, string) -> Answer, query: string)
    returns (v: Verdict, pages: seq<Page>, requests: nat)
    ensures Ends(upstream, query, pages, v)
    ensures |pages| <= requests <= |pages| + 1 && requests <= MAX_PAGES
    ensures requests > |pages| ==> v.Failure? && Tells(upstream(|pages|, QueryAfter(query, pages)), v.kind)
    ensures requests == |pages| && v.Failure? ==>
      pages != [] && v.kind ==
        if |AllModels(pages)| > 1000 || pages[|pages| - 1].next != "" then CatalogTooLarge else EmptyCatalog
    ensures v.Success? ==> |AllModels(pages)| <= 1000 && pages != [] && pages[|pages| - 1].next == ""
  {
    pages := [];
    requests := 0;
    var models: seq<Model> := [];
    var q := query;
    for page := 0 to MAX_PAGES
      invariant page == |pages| == requests
      invariant page < MAX_PAGES ==> Goes(pages)
      invariant page == MAX_PAGES ==> Whole(pages)
      invariant Fetched(upstream, query, pages)
      invariant models == AllModels(pages) && q == QueryAfter(query, pages)
    {
      var answer := upstream(page, q);
      requests := requests + 1;
      AnswersAre(answer);
      if PageOf(answer).None? {
        return Failure(KindOf(answer)), pages, requests;
      }
      FetchedNext(upstream, query, pages, PageOf(answer).value);
      pages := pages + [PageOf(answer).value];
      models := models + PageOf(answer).value.models;
      if |models| > MAX_MODELS {
        return Failure(CatalogTooLarge), pages, requests;
      }
      q := PageOf(answer).value.next;
      if q == "" {
        break;
      }
      if page == MAX_PAGES - 1 {
        return Failure(CatalogTooLarge), pages, requests;
      }
    }
    var out := NormalizeModels(models);
    CatalogueIsEmpty(models, out);
    v := if |out| == 0 then Failure(EmptyCatalog) else Success(out);
  }

  lemma FetchedNext(upstream: (nat, string) -> Answer, query: string, pages: seq<Page>, page: Page)
    requires Fetched(upstream, query, pages) && Goes(pages)
    requires PageOf(upstream(|pages|, QueryAfter(query, pages))) == Some(page)
    ensures Fetched(upstream, query, pages + [page])
    ensures AllModels(pages + [page]) == AllModels(pages) + page.models
  {
    var longer := pages + [page];
    assert longer[..|pages|] == pages;
    forall i: nat | i < |longer| ensures Goes(longer[..i]) && IsPage(upstream, query, longer, i) {
      assert i < |pages| ==> longer[..i] == pages[..i] && Goes(pages[..i]) && IsPage(upstream, query, pages, i);
    }
  }

  lemma CatalogueIsEmpty(models: seq<Model>, out: seq<Model>)
    requires IsCatalogue(models, out)
    ensures out == [] <==> !Named(models)
  {
    if out != [] {
      assert out[0] in out;
      var n :| IsFirst(models, n, out[0].id) && out[0] == Tidy(models[n]);
    }
    if Named(models) {
      var i :| 0 <= i < |models| && Trim(models[i].id) != "";
      FirstExists(models, Trim(models[i].id), i);
      var n :| IsFirst(models, n, Trim(models[i].id));
      assert IsFirst(models, n, Tidy(models[n]).id);
      assert Tidy(models[n]) in out;
    }
  }

  /** Two fetches of one upstream agree as far as both go. */
  lemma {:induction false} SamePages(upstream: (nat, string) -> Answer, query: string, a: seq<Page>, b: seq<Page>,
                                     n: nat)
    requires Fetched(upstream, query, a) && Fetched(upstream, query, b) && n <= |a| && n <= |b|
    ensures a[..n] == b[..n]
  {
    if n > 0 {
      SamePages(upstream, query, a, b, n - 1);
      assert IsPage(upstream, query, a, n - 1) && IsPage(upstream, query, b, n - 1);
      assert a[..n] == a[..n - 1] + [a[n - 1]] && b[..n] == b[..n - 1] + [b[n - 1]];
    }
  }

  lemma Longer(upstream: (nat, string) -> Answer, query: string, a: seq<Page>, v: Verdict, b: seq<Page>)
    requires Ends(upstream, query, a, v) && Fetched(upstream, query, b)
    ensures |b| <= |a|
  {
    if |a| < |b| {
      assert a[..|a|] == a && Goes(b[..|a|]) && IsPage(upstream, query, b, |a|);
      SamePages(upstream, query, a, b, |a|);
    }
  }

  /** `Ends` leaves nothing open: an upstream has one verdict, reached after the same pages. */
  lemma OneVerdict(upstream: (nat, string) -> Answer, query: string, a: seq<Page>, v: Verdict, b: seq<Page>, w: Verdict)
    requires Ends(upstream, query, a, v) && Ends(upstream, query, b, w)
    ensures a == b && v == w
  {
    Longer(upstream, query, a, v, b);
    Longer(upstream, query, b, w, a);
    SamePages(upstream, query, a, b, |a|);
    assert a[..|a|] == a && b[..|b|] == b;
    if v.Success? && w.Success? { CatalogueIsUnique(AllModels(a), v.models, w.models); }
  }

  /**
   All or nothing: a successful discovery has read every page up to the one without a successor,
   at most sixteen of them, and carries every id those pages name; and whenever such a chain of
   pages within the limits names a model, discovery succeeds.
   */
  lemma WholeCatalogueOrNone(upstream: (nat, string) -> Answer, query: string, pages: seq<Page>, v: Verdict)
    requires Ends(upstream, query, pages, v)
    ensures v.Success? <==> exists all :: Fetched(upstream, query, all) && Whole(all) && Named(AllModels(all))
    ensures v.Success? ==> |pages| <= MAX_PAGES && IDs(v.models) == Clean(IDs(AllModels(pages)))
  {
    if v.Success? {
      CatalogueIDs(AllModels(pages), v.models);
    }
    if all :| Fetched(upstream, query, all) && Whole(all) && Named(AllModels(all)) {
      WholeSucceeds(upstream, query, pages, v, all);
    }
  }

  lemma WholeSucceeds(upstream: (nat, string) -> Answer, query: string, pages: seq<Page>, v: Verdict, all: seq<Page>)
    requires Ends(upstream, query, pages, v) && Fetched(upstream, query, all) && Whole(all) && Named(AllModels(all))
    ensures v.Success? && pages == all
  {
    Longer(upstream, query, pages, v, all);
    assert all[..|all|] == all;
    assert |all| < |pages| ==> Goes(pages[..|all|]);
    SamePages(upstream, query, pages, all, |all|);
    assert pages[..|pages|] == pages;
  }
}
