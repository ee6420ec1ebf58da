/**
 What the quota store promises over whole histories: partial snapshots converge whatever their
 order of arrival, no row moves back in time, the rows of one source are its last complete
 snapshot carried forward, and a shared key has the row of an operation that nothing displaced.
 */
module QuotaConvergence {
  import opened Options
  import opened QuotaFacts
  import opened Text

  function RowFor(s: Snapshot, k: Key): Option<Row>
    requires s.observedAt.Some?
  {
    Brings(s, s.facts, k)
  }

  // ------------------------------------------------------------ partial snapshots converge

  /** Partial snapshots; being valid in other respects does not matter to what the statements do. */
  ghost predicate Partials(ss: seq<Snapshot>) {
    forall i :: 0 <= i < |ss| ==> ss[i].observedAt.Some? && !ss[i].complete
  }

  function ReplaceEach(t: Table, ss: seq<Snapshot>): Table
    requires forall i :: 0 <= i < |ss| ==> ss[i].observedAt.Some?
  {
    if ss == [] then t else Replace(ReplaceEach(t, ss[..|ss| - 1]), ss[|ss| - 1])
  }

  ghost predicate NotNewer(s: Snapshot, k: Key, time: int)
    requires s.observedAt.Some?
  {
    RowFor(s, k).Some? ==> s.observedAt.value <= time
  }

  ghost predicate Brought(ss: seq<Snapshot>, k: Key, r: Row)
    requires Partials(ss)
  {
    exists i :: 0 <= i < |ss| && RowFor(ss[i], k) == Some(r)
  }

  /** Some snapshot brings the row, and no snapshot brings a newer one for that key. */
  ghost predicate IsNewest(ss: seq<Snapshot>, k: Key, r: Row)
    requires Partials(ss)
  {
    Brought(ss, k, r) && forall i :: 0 <= i < |ss| ==> NotNewer(ss[i], k, r.observedAt)
  }

  ghost predicate NeverBrought(ss: seq<Snapshot>, k: Key)
    requires Partials(ss)
  {
    forall i :: 0 <= i < |ss| ==> RowFor(ss[i], k) == None
  }

  lemma BroughtAt(s: Snapshot, k: Key)
    requires s.observedAt.Some? && RowFor(s, k).Some?
    ensures RowFor(s, k).value.observedAt == s.observedAt.value
  {
    UpsertAllAt(map[], s, s.facts, k);
  }

  lemma PartialAt(t: Table, s: Snapshot, k: Key)
    requires s.observedAt.Some? && !s.complete
    ensures Find(Replace(t, s), k) == Newer(Find(t, k), RowFor(s, k))
  {
    ReplaceAt(t, s, k);
  }

  lemma StillBrought(ss: seq<Snapshot>, k: Key, r: Row)
    requires Partials(ss) && ss != [] && Brought(ss[..|ss| - 1], k, r)
    ensures Brought(ss, k, r)
  {
  }

  /** Each key of the table holds the newest fact that mentions it. */
  lemma {:induction false} NewestWins(ss: seq<Snapshot>, k: Key)
    requires Partials(ss)
    ensures match Find(ReplaceEach(map[], ss), k)
            case Some(r) => IsNewest(ss, k, r)
            case None => NeverBrought(ss, k)
  {
    if ss != [] {
      var front, last := ss[..|ss| - 1], ss[|ss| - 1];
      NewestWins(front, k);
      PartialAt(ReplaceEach(map[], front), last, k);
      if RowFor(last, k).Some? { BroughtAt(last, k); }
      NewestStep(ss, k, Find(ReplaceEach(map[], front), k));
    }
  }

  lemma NewestStep(ss: seq<Snapshot>, k: Key, stored: Option<Row>)
    requires Partials(ss) && ss != []
    requires match stored
             case Some(r) => IsNewest(ss[..|ss| - 1], k, r)
             case None => NeverBrought(ss[..|ss| - 1], k)
    requires var brought := RowFor(ss[|ss| - 1], k);
      brought.Some? ==> brought.value.observedAt == ss[|ss| - 1].observedAt.value
    ensures match Newer(stored, RowFor(ss[|ss| - 1], k))
            case Some(r) => IsNewest(ss, k, r)
            case None => NeverBrought(ss, k)
  {
    var brought := RowFor(ss[|ss| - 1], k);
    var kept := Newer(stored, brought);
    forall i | 0 <= i < |ss| - 1
      ensures if kept.Some? then NotNewer(ss[i], k, kept.value.observedAt) else RowFor(ss[i], k) == None
    {
      assert ss[i] == ss[..|ss| - 1][i];
      assert stored.Some? ==> NotNewer(ss[..|ss| - 1][i], k, stored.value.observedAt);
    }
    if kept.Some? && kept == stored { StillBrought(ss, k, stored.value); }
  }

  /** Both bring a key at one instant, with different rows. */
  ghost predicate Tie(a: Snapshot, b: Snapshot)
    requires a.observedAt.Some? && b.observedAt.Some?
  {
    && a.observedAt == b.observedAt
    && exists k :: RowFor(a, k).Some? && RowFor(b, k).Some? && RowFor(a, k) != RowFor(b, k)
  }

  /** Observations of one instant that bring one key agree on its row. */
  ghost predicate NoTies(ss: seq<Snapshot>)
    requires Partials(ss)
  {
    forall i, j :: 0 <= i < |ss| && 0 <= j < |ss| ==> !Tie(ss[i], ss[j])
  }

  /** The same snapshot with its facts in some order, each at least once. */
  ghost predicate SameObservation(s: Snapshot, s': Snapshot) {
    s' == s.(facts := s'.facts) && (forall f :: f in s.facts <==> f in s'.facts)
  }

  ghost predicate AllValid(ss: seq<Snapshot>) {
    forall i :: 0 <= i < |ss| ==> Valid(ss[i])
  }

  ghost predicate AllObserved(ss: seq<Snapshot>, ss': seq<Snapshot>) {
    forall i :: 0 <= i < |ss| ==> ObservedIn(ss[i], ss')
  }

  ghost predicate ObservedIn(s: Snapshot, ss: seq<Snapshot>) {
    exists j :: 0 <= j < |ss| && SameObservation(s, ss[j])
  }

  lemma SameRowFor(s: Snapshot, s': Snapshot, k: Key)
    requires Valid(s) && Valid(s') && SameObservation(s, s')
    ensures RowFor(s, k) == RowFor(s', k)
  {
    SameRow(s, s', k);
    SameRow(s', s, k);
  }

  lemma BroughtThere(ss: seq<Snapshot>, ss': seq<Snapshot>, k: Key, r: Row)
    requires Partials(ss) && Partials(ss') && AllValid(ss) && AllValid(ss') && AllObserved(ss, ss') && Brought(ss, k, r)
    ensures Brought(ss', k, r)
  {
    var i :| 0 <= i < |ss| && RowFor(ss[i], k) == Some(r);
    assert ObservedIn(ss[i], ss');
    var j :| 0 <= j < |ss'| && SameObservation(ss[i], ss'[j]);
    SameRowFor(ss[i], ss'[j], k);
  }

  lemma SameRowsHold(ss: seq<Snapshot>, ss': seq<Snapshot>)
    requires Partials(ss) && Partials(ss') && AllValid(ss) && AllValid(ss')
    requires AllObserved(ss, ss') && AllObserved(ss', ss)
    ensures SameRows(ss, ss')
  {
    forall k, r ensures Brought(ss, k, r) <==> Brought(ss', k, r) {
      if Brought(ss, k, r) { BroughtThere(ss, ss', k, r); }
      if Brought(ss', k, r) { BroughtThere(ss', ss, k, r); }
    }
  }

  /** Without ties there is one newest row for a key. */
  lemma NewestIsUnique(ss: seq<Snapshot>, k: Key, r: Row, r': Row)
    requires Partials(ss) && NoTies(ss) && IsNewest(ss, k, r) && Brought(ss, k, r') && r.observedAt <= r'.observedAt
    ensures r == r'
  {
    var i :| 0 <= i < |ss| && RowFor(ss[i], k) == Some(r);
    var j :| 0 <= j < |ss| && RowFor(ss[j], k) == Some(r');
    BroughtAt(ss[i], k);
    BroughtAt(ss[j], k);
    assert NotNewer(ss[j], k, r.observedAt);
    assert !Tie(ss[i], ss[j]);
  }

  lemma NewestIsLater(ss: seq<Snapshot>, k: Key, r: Row, r': Row)
    requires Partials(ss) && IsNewest(ss, k, r) && Brought(ss, k, r')
    ensures r'.observedAt <= r.observedAt
  {
    var j :| 0 <= j < |ss| && RowFor(ss[j], k) == Some(r');
    BroughtAt(ss[j], k);
    assert NotNewer(ss[j], k, r.observedAt);
  }

  lemma NothingBrought(ss: seq<Snapshot>, k: Key, r: Row)
    requires Partials(ss) && NeverBrought(ss, k)
    ensures !Brought(ss, k, r)
  {
  }

  ghost predicate SameRows(ss: seq<Snapshot>, ss': seq<Snapshot>)
    requires Partials(ss) && Partials(ss')
  {
    forall k, r :: Brought(ss, k, r) <==> Brought(ss', k, r)
  }

  lemma SameNewest(ss: seq<Snapshot>, ss': seq<Snapshot>, k: Key, a: Option<Row>, b: Option<Row>)
    requires Partials(ss) && Partials(ss') && NoTies(ss) && SameRows(ss, ss')
    requires if a.Some? then IsNewest(ss, k, a.value) else NeverBrought(ss, k)
    requires if b.Some? then IsNewest(ss', k, b.value) else NeverBrought(ss', k)
    ensures a == b
  {
    if a.Some? && b.Some? {
      NewestIsLater(ss', k, b.value, a.value);
      NewestIsUnique(ss, k, a.value, b.value);
    } else if a.Some? {
      NothingBrought(ss', k, a.value);
    } else if b.Some? {
      NothingBrought(ss, k, b.value);
    }
  }

  lemma SameRowsConverge(ss: seq<Snapshot>, ss': seq<Snapshot>)
    requires Partials(ss) && Partials(ss') && NoTies(ss) && SameRows(ss, ss')
    ensures ReplaceEach(map[], ss) == ReplaceEach(map[], ss')
  {
    forall k ensures Find(ReplaceEach(map[], ss), k) == Find(ReplaceEach(map[], ss'), k) {
      NewestWins(ss, k);
      NewestWins(ss', k);
      SameNewest(ss, ss', k, Find(ReplaceEach(map[], ss), k), Find(ReplaceEach(map[], ss'), k));
    }
    SameTable(ReplaceEach(map[], ss), ReplaceEach(map[], ss'));
  }

  /**
   Partial snapshots converge: applied to an empty table in any order, any number of times, and
   with the facts inside each in any order, they give one and the same table.
   */
  lemma PartialsConverge(ss: seq<Snapshot>, ss': seq<Snapshot>)
    requires Partials(ss) && Partials(ss') && NoTies(ss) && AllObserved(ss, ss') && AllObserved(ss', ss)
    requires AllValid(ss) && AllValid(ss')
    ensures ReplaceEach(map[], ss) == ReplaceEach(map[], ss')
  {
    SameRowsHold(ss, ss');
    SameRowsConverge(ss, ss');
  }

  // --------------------------------------------------------- when two snapshots commute

  ghost predicate Commute(a: Snapshot, b: Snapshot)
    requires a.observedAt.Some? && b.observedAt.Some?
  {
    forall t: Table :: Replace(Replace(t, a), b) == Replace(Replace(t, b), a)
  }

  ghost predicate SameOrigin(a: Snapshot, b: Snapshot) {
    a.tenantID == b.tenantID && a.accountID == b.accountID && a.source == b.source
  }

  lemma TwiceAt(t: Table, a: Snapshot, b: Snapshot, k: Key)
    requires a.observedAt.Some? && b.observedAt.Some?
    ensures var once := Newer(Find(t, k), RowFor(a, k));
      var kept := if once.Some? && Outdated(a, k, once.value) then None else once;
      var twice := Newer(kept, RowFor(b, k));
      Find(Replace(Replace(t, a), b), k) == if twice.Some? && Outdated(b, k, twice.value) then None else twice
  {
    ReplaceAt(t, a, k);
    ReplaceAt(Replace(t, a), b, k);
  }

  lemma TieShows(a: Snapshot, b: Snapshot)
    requires a.observedAt.Some? && b.observedAt.Some? && Tie(a, b)
    ensures Replace(Replace(map[], a), b) != Replace(Replace(map[], b), a)
  {
    var k :| RowFor(a, k).Some? && RowFor(b, k).Some? && RowFor(a, k) != RowFor(b, k);
    TwiceAt(map[], a, b, k);
    TwiceAt(map[], b, a, k);
    BroughtAt(a, k);
    BroughtAt(b, k);
    assert Find(Replace(Replace(map[], a), b), k) != Find(Replace(Replace(map[], b), a), k);
  }

  lemma PartialsCommuteAt(t: Table, a: Snapshot, b: Snapshot, k: Key)
    requires a.observedAt.Some? && b.observedAt.Some? && !a.complete && !b.complete && !Tie(a, b)
    ensures Find(Replace(Replace(t, a), b), k) == Find(Replace(Replace(t, b), a), k)
  {
    PartialAt(t, a, k);
    PartialAt(Replace(t, a), b, k);
    PartialAt(t, b, k);
    PartialAt(Replace(t, b), a, k);
    if RowFor(a, k).Some? { BroughtAt(a, k); }
    if RowFor(b, k).Some? { BroughtAt(b, k); }
  }

  /** Two partial snapshots commute on every table exactly when they do not tie. */
  lemma PartialsCommute(a: Snapshot, b: Snapshot)
    requires Valid(a) && Valid(b) && !a.complete && !b.complete
    ensures Commute(a, b) <==> !Tie(a, b)
  {
    if Tie(a, b) {
      TieShows(a, b);
    } else {
      forall t: Table ensures Replace(Replace(t, a), b) == Replace(Replace(t, b), a) {
        forall k ensures Find(Replace(Replace(t, a), b), k) == Find(Replace(Replace(t, b), a), k) {
          PartialsCommuteAt(t, a, b, k);
        }
        SameTable(Replace(Replace(t, a), b), Replace(Replace(t, b), a));
      }
    }
  }

  /** The partial snapshot brings no key that is missing from the complete one. */
  ghost predicate Covered(p: Snapshot, c: Snapshot)
    requires p.observedAt.Some? && c.observedAt.Some?
  {
    forall k :: RowFor(p, k).Some? ==> RowFor(c, k).Some?
  }

  /**
   A complete and a partial snapshot of one source commute exactly when they do not tie and
   the partial one is not older, or at least brings nothing the complete one left out: a late
   partial snapshot brings back a row that the complete one has already deleted.
   */
  lemma LatePartialsDoNotCommute(c: Snapshot, p: Snapshot)
    requires Valid(c) && Valid(p) && c.complete && !p.complete && SameOrigin(c, p)
    ensures Commute(c, p) <==> !Tie(c, p) && (p.observedAt.value >= c.observedAt.value || Covered(p, c))
  {
    if Tie(c, p) {
      TieShows(c, p);
    } else if p.observedAt.value < c.observedAt.value && !Covered(p, c) {
      var k :| RowFor(p, k).Some? && RowFor(c, k).None?;
      LateComesBack(c, p, k);
    } else {
      forall t: Table ensures Replace(Replace(t, c), p) == Replace(Replace(t, p), c) {
        forall k ensures Find(Replace(Replace(t, c), p), k) == Find(Replace(Replace(t, p), c), k) {
          CompleteCommutesAt(t, c, p, k);
        }
        SameTable(Replace(Replace(t, c), p), Replace(Replace(t, p), c));
      }
    }
  }

  lemma LateComesBack(c: Snapshot, p: Snapshot, k: Key)
    requires c.observedAt.Some? && p.observedAt.Some? && c.complete && !p.complete && SameOrigin(c, p)
    requires p.observedAt.value < c.observedAt.value && RowFor(p, k).Some? && RowFor(c, k).None?
    ensures k in Replace(Replace(map[], c), p) && k !in Replace(Replace(map[], p), c)
  {
    TwiceAt(map[], c, p, k);
    TwiceAt(map[], p, c, k);
    UpsertAllAt(map[], p, p.facts, k);
    assert Find(Replace(Replace(map[], c), p), k).Some? && Find(Replace(Replace(map[], p), c), k).None?;
  }

  const Whole := Snapshot(1, 1, "v", UpstreamUsage, Some(2), true, [Fact("a", "", Available, NoValues, "")])
  const Late := Snapshot(1, 1, "v", UpstreamUsage, Some(1), false, [Fact("b", "", Available, NoValues, "")])

  /** Two valid snapshots of one source whose order decides whether a row is there. */
  lemma OrderMatters()
    ensures Valid(Whole) && Valid(Late) && SameOrigin(Whole, Late) && !Tie(Whole, Late)
    ensures var k := Key(1, 1, "b", "");
      k in Replace(Replace(map[], Whole), Late) && k !in Replace(Replace(map[], Late), Whole)
  {
    assert Trim("a") == "a" && Trim("b") == "b" && Trim("v") == "v" && Trim("") == "";
    var k := Key(1, 1, "b", "");
    assert "a"[0] != "b"[0];
    assert KeyOf(Whole, Whole.facts[0]).metric == "a" && KeyOf(Late, Late.facts[0]) == k;
    assert Brings(Whole, Whole.facts[..0], k) == None;
    LateComesBack(Whole, Late, k);
  }

  lemma CompleteCommutesAt(t: Table, c: Snapshot, p: Snapshot, k: Key)
    requires c.observedAt.Some? && p.observedAt.Some? && c.complete && !p.complete && SameOrigin(c, p)
    requires !Tie(c, p) && (p.observedAt.value >= c.observedAt.value || Covered(p, c))
    ensures Find(Replace(Replace(t, c), p), k) == Find(Replace(Replace(t, p), c), k)
  {
    TwiceAt(t, c, p, k);
    TwiceAt(t, p, c, k);
    UpsertAllAt(map[], c, c.facts, k);
    UpsertAllAt(map[], p, p.facts, k);
  }

  // ------------------------------------------------------------------ no way back

  datatype Op = Observe(s: Snapshot) | ProbeFailed(s: Snapshot, errorClass: string)

  /** All that the statements need of a snapshot that passed validation. */
  predicate Timed(op: Op) {
    op.s.observedAt.Some?
  }

  predicate AllTimed(ops: seq<Op>) {
    forall i :: 0 <= i < |ops| ==> Timed(ops[i])
  }

  function ApplyOp(t: Table, op: Op): Table
    requires Timed(op)
  {
    match op
    case Observe(s) => Replace(t, s)
    case ProbeFailed(s, errorClass) => Fail(t, s, errorClass)
  }

  function Run(t: Table, ops: seq<Op>): Table
    requires AllTimed(ops)
  {
    if ops == [] then t else ApplyOp(Run(t, ops[..|ops| - 1]), ops[|ops| - 1])
  }

  lemma OpNeverGoesBack(t: Table, op: Op, k: Key)
    requires Timed(op) && k in t && k in ApplyOp(t, op)
    ensures ApplyOp(t, op)[k].observedAt >= t[k].observedAt
  {
    if op.Observe? {
      ReplaceAt(t, op.s, k);
    }
  }

  lemma RunNext(t: Table, ops: seq<Op>, n: nat)
    requires AllTimed(ops) && n < |ops|
    ensures Run(t, ops[..n + 1]) == ApplyOp(Run(t, ops[..n]), ops[n])
  {
    assert ops[..n + 1][..n] == ops[..n];
  }

  predicate Present(t: Table, ops: seq<Op>, k: Key, n: nat)
    requires AllTimed(ops) && n <= |ops|
  {
    k in Run(t, ops[..n])
  }

  function StampAt(t: Table, ops: seq<Op>, k: Key, n: nat): int
    requires AllTimed(ops) && n <= |ops| && Present(t, ops, k, n)
  {
    Run(t, ops[..n])[k].observedAt
  }

  lemma StampStep(t: Table, ops: seq<Op>, k: Key, n: nat)
    requires AllTimed(ops) && n < |ops| && Present(t, ops, k, n) && Present(t, ops, k, n + 1)
    ensures StampAt(t, ops, k, n) <= StampAt(t, ops, k, n + 1)
  {
    RunNext(t, ops, n);
    OpNeverGoesBack(Run(t, ops[..n]), ops[n], k);
  }

  /** Over any run, a key that is there all the time never moves back in `observed_at`. */
  lemma {:induction false} NeverGoesBack(t: Table, ops: seq<Op>, k: Key, first: nat, last: nat)
    requires AllTimed(ops) && first <= last <= |ops|
    requires forall n: nat :: first <= n <= last ==> Present(t, ops, k, n)
    ensures StampAt(t, ops, k, first) <= StampAt(t, ops, k, last)
    decreases last
  {
    if first < last {
      NeverGoesBack(t, ops, k, first, last - 1);
      StampStep(t, ops, k, last - 1);
    }
  }

  // ----------------------------------------------- the rows of one source, carried forward

  datatype Origin = Origin(tenantID: int, accountID: int, source: Source)

  function OriginOf(op: Op): Origin {
    Origin(op.s.tenantID, op.s.accountID, op.s.source)
  }

  function TimeOf(op: Op): int
    requires Timed(op)
  {
    op.s.observedAt.value
  }

  /** The operation writes the row of this key. */
  predicate Touches(op: Op, k: Key)
    requires Timed(op)
  {
    match op
    case Observe(s) => RowFor(s, k).Some?
    case ProbeFailed(s, errorClass) => k == FailureKey(s)
  }

  /** The observations of one source carry strictly increasing times. */
  ghost predicate InOrder(ops: seq<Op>, o: Origin)
    requires AllTimed(ops)
  {
    forall i, j :: 0 <= i < j < |ops| && OriginOf(ops[i]) == o && OriginOf(ops[j]) == o ==>
      TimeOf(ops[i]) < TimeOf(ops[j])
  }

  /** No other source writes a key of this one. */
  ghost predicate KeysAreOwn(ops: seq<Op>, o: Origin)
    requires AllTimed(ops)
  {
    forall i, j :: 0 <= i < |ops| && 0 <= j < |ops| && OriginOf(ops[i]) == o && OriginOf(ops[j]) != o ==>
      Apart(ops[i], ops[j])
  }

  ghost predicate Apart(a: Op, b: Op)
    requires Timed(a) && Timed(b)
  {
    forall k :: Touches(a, k) ==> !Touches(b, k)
  }

  function OwnRows(t: Table, o: Origin): Table {
    map k | k in t && k.tenantID == o.tenantID && k.accountID == o.accountID && t[k].source == o.source :: t[k]
  }

  /** The facts of one snapshot as a table of their own. */
  function FactTable(s: Snapshot): (t: Table)
    requires s.observedAt.Some?
    ensures forall k :: Find(t, k) == RowFor(s, k)
  {
    UpsertAllAtEach(s);
    UpsertAll(map[], s, s.facts)
  }

  lemma UpsertAllAtEach(s: Snapshot)
    requires s.observedAt.Some?
    ensures forall k :: Find(UpsertAll(map[], s, s.facts), k) == RowFor(s, k)
  {
    forall k ensures Find(UpsertAll(map[], s, s.facts), k) == RowFor(s, k) { UpsertAllAt(map[], s, s.facts, k); }
  }

  /**
   What the rows of one source should be: the last complete snapshot, extended and overridden by
   the partial snapshots and failure records that came after it.
   */
  function CarriedForward(ops: seq<Op>, o: Origin): Table
    requires AllTimed(ops)
  {
    if ops == [] then map[]
    else
      var before, last := CarriedForward(ops[..|ops| - 1], o), ops[|ops| - 1];
      if OriginOf(last) != o then before
      else
        match last
        case Observe(s) => if s.complete then FactTable(s) else before + FactTable(s)
        case ProbeFailed(s, errorClass) =>
          var k := FailureKey(s);
          before[k := FailureRow(s, errorClass, if k in before then before[k].values else NoValues)]
  }

  ghost predicate Wrote(op: Op, k: Key, r: Row)
    requires Timed(op)
  {
    Touches(op, k) && OriginOf(op) == Origin(k.tenantID, k.accountID, r.source) && TimeOf(op) == r.observedAt
  }

  /** Every row was written by an operation of its own source and time. */
  lemma {:induction false} RowHasAWriter(ops: seq<Op>, k: Key)
    requires AllTimed(ops) && k in Run(map[], ops)
    ensures exists i :: 0 <= i < |ops| && Wrote(ops[i], k, Run(map[], ops)[k])
  {
    if ops != [] {
      var front, last := ops[..|ops| - 1], ops[|ops| - 1];
      var t := Run(map[], front);
      if last.Observe? {
        ReplaceAt(t, last.s, k);
        UpsertAllAt(t, last.s, last.s.facts, k);
      }
      if k in t && Run(map[], ops)[k] == t[k] {
        RowHasAWriter(front, k);
        var i :| 0 <= i < |front| && Wrote(front[i], k, t[k]);
        assert ops[i] == front[i];
      } else {
        assert Wrote(ops[|ops| - 1], k, Run(map[], ops)[k]);
      }
    }
  }

  ghost predicate Settled(ops: seq<Op>, o: Origin)
    requires AllTimed(ops)
  {
    InOrder(ops, o) && KeysAreOwn(ops, o)
  }

  lemma SettledBefore(ops: seq<Op>, o: Origin)
    requires AllTimed(ops) && Settled(ops, o) && ops != []
    ensures Settled(ops[..|ops| - 1], o)
  {
  }

  /** A row stored before the last operation of a source touches its key is an older row of that source. */
  lemma StoredIsOlder(ops: seq<Op>, o: Origin, k: Key)
    requires AllTimed(ops) && Settled(ops, o) && ops != [] && k in Run(map[], ops[..|ops| - 1])
    requires OriginOf(ops[|ops| - 1]) == o
    ensures var r := Run(map[], ops[..|ops| - 1])[k];
      var own := Origin(k.tenantID, k.accountID, r.source) == o;
      (own ==> r.observedAt < TimeOf(ops[|ops| - 1])) && (Touches(ops[|ops| - 1], k) ==> own)
  {
    var front := ops[..|ops| - 1];
    RowHasAWriter(front, k);
    var i :| 0 <= i < |front| && Wrote(front[i], k, Run(map[], front)[k]);
    assert ops[i] == front[i];
    if OriginOf(ops[i]) != o { assert Apart(ops[|ops| - 1], ops[i]); }
  }

  /** A row of the source is not touched by the operations of others. */
  lemma OwnIsUntouched(ops: seq<Op>, o: Origin, k: Key)
    requires AllTimed(ops) && Settled(ops, o) && ops != [] && k in OwnRows(Run(map[], ops[..|ops| - 1]), o)
    requires OriginOf(ops[|ops| - 1]) != o
    ensures !Touches(ops[|ops| - 1], k)
  {
    var front := ops[..|ops| - 1];
    RowHasAWriter(front, k);
    var i :| 0 <= i < |front| && Wrote(front[i], k, Run(map[], front)[k]);
    assert ops[i] == front[i] && Apart(ops[i], ops[|ops| - 1]);
  }

  /**
   The store refines the fold: when a source observes in order and no other source writes its
   keys, its rows are always the last complete snapshot carried forward.
   */
  lemma {:induction false} RowsAreCarriedForward(ops: seq<Op>, o: Origin)
    requires AllTimed(ops) && Settled(ops, o)
    ensures OwnRows(Run(map[], ops), o) == CarriedForward(ops, o)
  {
    if ops != [] {
      var front, last := ops[..|ops| - 1], ops[|ops| - 1];
      SettledBefore(ops, o);
      RowsAreCarriedForward(front, o);
      forall k ensures Find(OwnRows(Run(map[], ops), o), k) == Find(CarriedForward(ops, o), k) {
        if OriginOf(last) == o { OwnStep(ops, o, k); } else { OtherStep(ops, o, k); }
      }
      SameTable(OwnRows(Run(map[], ops), o), CarriedForward(ops, o));
    }
  }

  lemma OtherStep(ops: seq<Op>, o: Origin, k: Key)
    requires AllTimed(ops) && Settled(ops, o) && ops != [] && OriginOf(ops[|ops| - 1]) != o
    ensures Find(OwnRows(Run(map[], ops), o), k) == Find(OwnRows(Run(map[], ops[..|ops| - 1]), o), k)
  {
    var front, last := ops[..|ops| - 1], ops[|ops| - 1];
    if k in OwnRows(Run(map[], front), o) { OwnIsUntouched(ops, o, k); }
    if last.Observe? {
      ReplaceAt(Run(map[], front), last.s, k);
      UpsertAllAt(Run(map[], front), last.s, last.s.facts, k);
    }
  }

  lemma OwnStep(ops: seq<Op>, o: Origin, k: Key)
    requires AllTimed(ops) && Settled(ops, o) && ops != [] && OriginOf(ops[|ops| - 1]) == o
    requires OwnRows(Run(map[], ops[..|ops| - 1]), o) == CarriedForward(ops[..|ops| - 1], o)
    ensures Find(OwnRows(Run(map[], ops), o), k) == Find(CarriedForward(ops, o), k)
  {
    var front, last := ops[..|ops| - 1], ops[|ops| - 1];
    var t := Run(map[], front);
    if k in t { StoredIsOlder(ops, o, k); }
    match last
    case Observe(s) =>
      ReplaceAt(t, s, k);
      UpsertAllAt(t, s, s.facts, k);
      assert Find(FactTable(s), k) == RowFor(s, k);
    case ProbeFailed(s, errorClass) =>
      if k == FailureKey(s) { assert Touches(last, k); }
  }

  /** A row whose key the source has touched is the source's own. */
  lemma RowIsOwn(ops: seq<Op>, o: Origin, i: nat, k: Key)
    requires AllTimed(ops) && Settled(ops, o) && i < |ops| && OriginOf(ops[i]) == o && Touches(ops[i], k)
    requires k in Run(map[], ops)
    ensures k in OwnRows(Run(map[], ops), o)
  {
    RowHasAWriter(ops, k);
    var j :| 0 <= j < |ops| && Wrote(ops[j], k, Run(map[], ops)[k]);
    assert !Apart(ops[i], ops[j]);
  }

  /** A failure is forgotten at the next complete snapshot that does not carry it. */
  lemma FailureIsCleared(ops: seq<Op>, o: Origin, i: nat)
    requires AllTimed(ops) && Settled(ops, o) && i < |ops| && OriginOf(ops[i]) == o && ops[i].ProbeFailed?
    requires var last := ops[|ops| - 1];
      OriginOf(last) == o && last.Observe? && last.s.complete && RowFor(last.s, FailureKey(ops[i].s)).None?
    ensures FailureKey(ops[i].s) !in Run(map[], ops)
  {
    var k := FailureKey(ops[i].s);
    if k in Run(map[], ops) { RowIsOwn(ops, o, i, k); }
    RowsAreCarriedForward(ops, o);
    assert Find(FactTable(ops[|ops| - 1].s), k) == None;
  }

  // ------------------------------------------------------- a key that several sources write

  /** The row that an operation writes for a key; the values of a failure are those kept, if any. */
  function WrittenRow(op: Op, k: Key): Row
    requires Timed(op) && Touches(op, k)
  {
    match op
    case Observe(s) => RowFor(s, k).value
    case ProbeFailed(s, errorClass) => FailureRow(s, errorClass, NoValues)
  }

  /** All of a row but the measured values. */
  function Bare(r: Row): Row {
    r.(values := NoValues)
  }

  /** A complete snapshot of the same source and account, newer than the row. */
  predicate Clears(later: Op, op: Op)
    requires Timed(later) && Timed(op)
  {
    later.Observe? && later.s.complete && OriginOf(later) == OriginOf(op) && TimeOf(later) > TimeOf(op)
  }

  /** A later operation removes or replaces what an earlier one has written. */
  predicate Displaces(later: Op, op: Op, k: Key)
    requires Timed(later) && Timed(op)
  {
    Clears(later, op) || (Touches(later, k) && TimeOf(later) >= TimeOf(op))
  }

  /** Operation i writes the key, and no operation after it displaces what it wrote. */
  ghost predicate Standing(ops: seq<Op>, k: Key, i: nat)
    requires AllTimed(ops)
  {
    i < |ops| && Touches(ops[i], k) && forall j :: i < j < |ops| ==> !Displaces(ops[j], ops[i], k)
  }

  /** The stored row is, but for the values, the one this operation wrote. */
  predicate WrittenBy(t: Table, op: Op, k: Key)
    requires Timed(op)
  {
    k in t && Touches(op, k) && Bare(t[k]) == Bare(WrittenRow(op, k))
  }

  lemma TouchesItsAccount(op: Op, k: Key)
    requires Timed(op) && Touches(op, k)
    ensures k.tenantID == op.s.tenantID && k.accountID == op.s.accountID
    ensures WrittenRow(op, k).observedAt == TimeOf(op) && WrittenRow(op, k).source == op.s.source
  {
    if op.Observe? { UpsertAllAt(map[], op.s, op.s.facts, k); }
  }

  /** What one operation does to a stored row: it stays exactly when it is not displaced. */
  lemma RowStep(t: Table, w: Op, op: Op, k: Key)
    requires Timed(w) && Timed(op) && WrittenBy(t, w, k)
    ensures !Displaces(op, w, k) ==> WrittenBy(ApplyOp(t, op), w, k)
    ensures Displaces(op, w, k) && Touches(op, k) ==> WrittenBy(ApplyOp(t, op), op, k)
    ensures Displaces(op, w, k) && !Touches(op, k) ==> k !in ApplyOp(t, op)
  {
    TouchesItsAccount(w, k);
    if op.Observe? {
      ReplaceAt(t, op.s, k);
      UpsertAllAt(t, op.s, op.s.facts, k);
    }
  }

  lemma FirstRow(t: Table, op: Op, k: Key)
    requires Timed(op) && k !in t
    ensures if Touches(op, k) then WrittenBy(ApplyOp(t, op), op, k) else k !in ApplyOp(t, op)
  {
    if op.Observe? {
      ReplaceAt(t, op.s, k);
      UpsertAllAt(t, op.s, op.s.facts, k);
    }
  }

  lemma StillStanding(ops: seq<Op>, k: Key, i: nat)
    requires AllTimed(ops) && i < |ops| - 1
    ensures Standing(ops, k, i) <==>
      Standing(ops[..|ops| - 1], k, i) && !Displaces(ops[|ops| - 1], ops[i], k)
  {
    assert forall j :: 0 <= j < |ops| - 1 ==> ops[..|ops| - 1][j] == ops[j];
  }

  /** Whatever sources write a key, and in whatever order, its row is that of an operation still standing. */
  lemma {:induction false} RowIsStanding(ops: seq<Op>, k: Key) returns (i: nat)
    requires AllTimed(ops) && k in Run(map[], ops)
    ensures Standing(ops, k, i) && WrittenBy(Run(map[], ops), ops[i], k)
  {
    var front, last := ops[..|ops| - 1], ops[|ops| - 1];
    var t := Run(map[], front);
    i := |ops| - 1;
    if k in t {
      var before := RowIsStanding(front, k);
      RowStep(t, ops[before], last, k);
      StillStanding(ops, k, before);
      if !Displaces(last, ops[before], k) { i := before; }
    } else {
      FirstRow(t, last, k);
    }
  }

  /** The operations that write a key come in the order of their times. */
  ghost predicate WrittenInOrder(ops: seq<Op>, k: Key)
    requires AllTimed(ops)
  {
    forall i, j :: 0 <= i < j < |ops| && Touches(ops[i], k) && Touches(ops[j], k) ==> TimeOf(ops[i]) <= TimeOf(ops[j])
  }

  /** If they come in order, what is still standing is stored. */
  lemma {:induction false} StandingIsStored(ops: seq<Op>, k: Key, i: nat)
    requires AllTimed(ops) && WrittenInOrder(ops, k) && Standing(ops, k, i)
    ensures WrittenBy(Run(map[], ops), ops[i], k)
  {
    var front, last := ops[..|ops| - 1], ops[|ops| - 1];
    var t := Run(map[], front);
    assert AllTimed(front) && WrittenInOrder(front, k);
    if i < |ops| - 1 {
      StillStanding(ops, k, i);
      StandingIsStored(front, k, i);
      RowStep(t, ops[i], last, k);
    } else if k in t {
      var before := RowIsStanding(front, k);
      assert ops[before] == front[before];
      RowStep(t, ops[before], last, k);
    } else {
      FirstRow(t, last, k);
    }
  }

  // -------------------------------------------------------------- the shared probe row

  ghost predicate OnlyFailures(ops: seq<Op>, k: Key)
    requires AllTimed(ops)
  {
    forall i :: 0 <= i < |ops| && ops[i].Observe? ==> RowFor(ops[i].s, k).None?
  }

  lemma {:induction false} NothingMeasured(ops: seq<Op>, k: Key)
    requires AllTimed(ops) && OnlyFailures(ops, k) && k in Run(map[], ops)
    ensures Run(map[], ops)[k].values == NoValues
  {
    var front, last := ops[..|ops| - 1], ops[|ops| - 1];
    assert AllTimed(front) && OnlyFailures(front, k);
    if k in Run(map[], front) { NothingMeasured(front, k); }
    if last.Observe? { ReplaceAt(Run(map[], front), last.s, k); }
  }

  /** The last failure recorded for the account of a probe key, of whatever source. */
  ghost predicate LastFailure(ops: seq<Op>, k: Key, i: nat)
    requires AllTimed(ops)
  {
    && i < |ops| && ops[i].ProbeFailed? && k == FailureKey(ops[i].s)
    && forall j :: i < j < |ops| && ops[j].ProbeFailed? ==> k != FailureKey(ops[j].s)
  }

  lemma LastToWrite(ops: seq<Op>, k: Key, i: nat, j: nat)
    requires AllTimed(ops) && OnlyFailures(ops, k) && LastFailure(ops, k, i) && j < |ops|
    ensures Touches(ops[j], k) ==> j <= i
    ensures j == i ==> Touches(ops[j], k) && WrittenRow(ops[j], k) == FailureRow(ops[j].s, ops[j].errorClass, NoValues)
  {
  }

  ghost predicate Cleared(ops: seq<Op>, i: nat)
    requires AllTimed(ops) && i < |ops|
  {
    exists j :: i < j < |ops| && Clears(ops[j], ops[i])
  }

  /** Only the last failure can be standing, and it is until it is cleared. */
  lemma LastStands(ops: seq<Op>, k: Key, i: nat, w: nat)
    requires AllTimed(ops) && OnlyFailures(ops, k) && WrittenInOrder(ops, k) && LastFailure(ops, k, i)
    ensures Standing(ops, k, w) ==> w == i
    ensures Standing(ops, k, i) <==> !Cleared(ops, i)
  {
    LastToWrite(ops, k, i, i);
    if Standing(ops, k, w) {
      LastToWrite(ops, k, i, w);
      if w < i { assert Displaces(ops[i], ops[w], k); }
    }
    forall j: nat | i < j < |ops| ensures !Touches(ops[j], k) { LastToWrite(ops, k, i, j); }
  }

  /**
   All sources of an account share one probe row. If failures are recorded in the order of their
   times it is that of the last of them, until a newer complete snapshot of the very source that
   failed last removes it.
   */
  lemma SharedProbeRow(ops: seq<Op>, k: Key, i: nat)
    requires AllTimed(ops) && OnlyFailures(ops, k) && WrittenInOrder(ops, k) && LastFailure(ops, k, i)
    ensures k in Run(map[], ops) <==> !Cleared(ops, i)
    ensures k in Run(map[], ops) ==> Run(map[], ops)[k] == FailureRow(ops[i].s, ops[i].errorClass, NoValues)
  {
    LastStands(ops, k, i, i);
    LastToWrite(ops, k, i, i);
    if k in Run(map[], ops) {
      var w := RowIsStanding(ops, k);
      LastStands(ops, k, i, w);
      NothingMeasured(ops, k);
    } else if !Cleared(ops, i) {
      StandingIsStored(ops, k, i);
    }
  }

  /**
   So the failure of one source can be lost: that of another overwrites it, and the recovery of
   the other removes the row, although the first source has not recovered.
   */
  lemma OneClearsBoth(a: Snapshot, x: string, b: Snapshot, y: string, c: Snapshot)
    requires a.observedAt.Some? && b.observedAt.Some? && c.observedAt.Some? && c.complete
    requires a.observedAt.value <= b.observedAt.value < c.observedAt.value
    requires FailureKey(a) == FailureKey(b) && a.source != b.source
    requires SameOrigin(c, b) && RowFor(c, FailureKey(a)).None?
    ensures FailureKey(a) in Run(map[], [ProbeFailed(a, x), Observe(c)])
    ensures FailureKey(a) !in Run(map[], [ProbeFailed(a, x), ProbeFailed(b, y), Observe(c)])
  {
    var k := FailureKey(a);
    var first, both := [ProbeFailed(a, x), Observe(c)], [ProbeFailed(a, x), ProbeFailed(b, y), Observe(c)];
    SharedProbeRow(first, k, 0);
    assert Clears(both[2], both[1]);
    SharedProbeRow(both, k, 1);
  }
}
