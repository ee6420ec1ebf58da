/**
 The single-flight cache behind `bindingRoutingPolicySource.fallbackPolicy`, as an
 interleaving of the steps of any number of goroutines. A critical section under `mu`
 is one step; the database reads and the channel operations between them are steps of
 their own, so every schedule of the real code is a list of events here. A leader reads
 with the context of its own request: when that ends, the read is cut off with an error.
 */
module RoutingPolicyProtocol {
  import opened Options

  datatype Key = Key(tenantID: int, poolGroupID: int, requestedModel: string)

  datatype Waits = Waits(
    fallbackTimeoutMS: int, fallbackMaxWaiting: int,
    stickyTimeoutMS: int, stickyMaxWaiting: int, topKDefault: int)

  /** What one database load reads for a key. */
  datatype Config = Config(waits: Waits, requestedModel: string, accountIDs: seq<int>)

  datatype Entry = Entry(config: Config, expiresAt: int)

  datatype Outcome = Loaded(entry: Entry) | Failed(error: string)

  /** One `routingPolicyInflight`; `closes` counts how often its channel was closed. */
  datatype Call = Call(key: Key, closes: nat, outcome: Option<Outcome>)

  /** The fields guarded by `mu`, with the call objects numbered in order of creation. */
  datatype Shared = Shared(cache: map<Key, Entry>, inflight: map<Key, nat>, calls: seq<Call>)

  datatype Decision = UseCached(entry: Entry) | WaitOn(call: nat) | Lead(call: nat)

  /** What the first critical section decides. */
  function Decide(sh: Shared, now: int, key: Key): Decision {
    if key in sh.cache && now < sh.cache[key].expiresAt then UseCached(sh.cache[key])
    else if key in sh.inflight then WaitOn(sh.inflight[key])
    else Lead(|sh.calls|)
  }

  /** The first critical section registers a call exactly when its goroutine is to lead. */
  function Register(sh: Shared, now: int, key: Key): Shared {
    if Decide(sh, now, key).Lead? then
      sh.(inflight := sh.inflight[key := |sh.calls|], calls := sh.calls + [Call(key, 0, None)])
    else sh
  }

  /** The second critical section: store, hand over, delete, close. */
  function Settle(sh: Shared, key: Key, call: nat, outcome: Outcome): Shared
    requires call < |sh.calls|
  {
    Shared(
      if outcome.Loaded? then sh.cache[key := outcome.entry] else sh.cache,
      sh.inflight - {key},
      sh.calls[call := Call(sh.calls[call].key, sh.calls[call].closes + 1, Some(outcome))])
  }

  datatype Answer =
    | Hit(entry: Entry, at: int)
    | Led(call: nat, outcome: Outcome)
    | Joined(call: nat, outcome: Outcome)
    | Abandoned

  datatype Phase =
    | Loading(key: Key, call: nat, startedAt: int)
    | Holding(key: Key, call: nat, startedAt: int, outcome: Outcome)
    | Waiting(key: Key, call: nat)
    | Returned(key: Key, answer: Answer)

  /** A finished load, in the order in which the results were published. */
  datatype Load = Load(key: Key, startedAt: int, outcome: Outcome)

  /**
   `leaders`, `log` and `cut` are history: who created each call, every published load, and the
   calls whose load was cut off because the request of their leader ended, with its error.
   */
  datatype State = State(
    now: int, shared: Shared, procs: map<nat, Phase>, leaders: seq<nat>, log: seq<Load>, cut: map<nat, string>)

  datatype Event =
    | Tick(duration: nat)
    | Enter(p: nat, key: Key)
    | Read(p: nat, key: Key, result: Result<Config>)
    | CutOff(p: nat, error: string)
    | Publish(p: nat)
    | Wake(p: nat)
    | Abandon(p: nat)

  const Start := State(0, Shared(map[], map[], []), map[], [], [], map[])

  /** The answer is the outcome of a call, its leader's or that of a released waiter. */
  predicate Shares(answer: Answer) {
    answer.Led? || answer.Joined?
  }

  predicate Leading(ph: Phase) {
    ph.Loading? || ph.Holding?
  }

  predicate Free(s: State, p: nat) {
    p in s.procs ==> s.procs[p].Returned?
  }

  predicate Enabled(s: State, e: Event) {
    match e
    case Tick(_) => true
    case Enter(p, _) => Free(s, p)
    case Read(p, key, _) => p in s.procs && s.procs[p].Loading? && s.procs[p].key == key
    case CutOff(p, _) => p in s.procs && s.procs[p].Loading?
    case Publish(p) => p in s.procs && s.procs[p].Holding? && s.procs[p].call < |s.shared.calls|
    case Wake(p) =>
      && p in s.procs && s.procs[p].Waiting?
      && s.procs[p].call < |s.shared.calls| && s.shared.calls[s.procs[p].call].outcome.Some?
    case Abandon(p) => p in s.procs && s.procs[p].Waiting?
  }

  function Finish(ttl: nat, now: int, result: Result<Config>): Outcome {
    match result
    case Ok(config) => Loaded(Entry(config, now + ttl))
    case Err(error) => Failed(error)
  }

  function Apply(ttl: nat, s: State, e: Event): State
    requires Enabled(s, e)
  {
    match e
    case Tick(d) => s.(now := s.now + d)
    case Enter(p, key) =>
      var phase := match Decide(s.shared, s.now, key)
        case UseCached(entry) => Returned(key, Hit(entry, s.now))
        case WaitOn(call) => Waiting(key, call)
        case Lead(call) => Loading(key, call, s.now);
      s.(shared := Register(s.shared, s.now, key),
         procs := s.procs[p := phase],
         leaders := if phase.Loading? then s.leaders + [p] else s.leaders)
    case Read(p, key, result) =>
      var ph := s.procs[p];
      s.(procs := s.procs[p := Holding(key, ph.call, ph.startedAt, Finish(ttl, s.now, result))])
    case CutOff(p, error) =>
      var ph := s.procs[p];
      s.(procs := s.procs[p := Holding(ph.key, ph.call, ph.startedAt, Failed(error))], cut := s.cut[ph.call := error])
    case Publish(p) =>
      var ph := s.procs[p];
      s.(shared := Settle(s.shared, ph.key, ph.call, ph.outcome),
         procs := s.procs[p := Returned(ph.key, Led(ph.call, ph.outcome))],
         log := s.log + [Load(ph.key, ph.startedAt, ph.outcome)])
    case Wake(p) =>
      var ph := s.procs[p];
      s.(procs := s.procs[p := Returned(ph.key, Joined(ph.call, s.shared.calls[ph.call].outcome.value))])
    case Abandon(p) =>
      s.(procs := s.procs[p := Returned(s.procs[p].key, Abandoned)])
  }

  /** Runs a schedule from the empty cache; None when some step is not possible where it stands. */
  function Exec(ttl: nat, es: seq<Event>): Option<State> {
    if es == [] then Some(Start)
    else
      match Exec(ttl, es[..|es| - 1])
      case None => None
      case Some(s) =>
        var e := es[|es| - 1];
        if Enabled(s, e) then Some(Apply(ttl, s, e)) else None
  }

  // ---------------------------------------------------------------- single flight

  /** A registered call is open, belongs to its key, and its creator is the goroutine loading it. */
  ghost predicate FlightOk(s: State, k: Key)
    requires k in s.shared.inflight
  {
    var c := s.shared.inflight[k];
    && c < |s.shared.calls| == |s.leaders|
    && s.shared.calls[c] == Call(k, 0, None)
    && s.leaders[c] in s.procs && Leading(s.procs[s.leaders[c]])
    && s.procs[s.leaders[c]].key == k && s.procs[s.leaders[c]].call == c
  }

  /** A call is either registered and open, or closed exactly once with a result. */
  ghost predicate CallOk(s: State, c: nat)
    requires c < |s.shared.calls|
  {
    var call := s.shared.calls[c];
    || (call.key in s.shared.inflight && s.shared.inflight[call.key] == c)
    || (call.closes == 1 && call.outcome.Some?)
  }

  ghost predicate ProcOk(s: State, p: nat)
    requires p in s.procs
  {
    var ph := s.procs[p];
    && (Leading(ph) ==>
      && ph.key in s.shared.inflight && s.shared.inflight[ph.key] == ph.call
      && ph.call < |s.leaders| && s.leaders[ph.call] == p)
    && (ph.Waiting? ==> ph.call < |s.shared.calls| && s.shared.calls[ph.call].key == ph.key)
    && (ph.Returned? && Shares(ph.answer) ==>
      && ph.answer.call < |s.shared.calls|
      && s.shared.calls[ph.answer.call].key == ph.key
      && s.shared.calls[ph.answer.call].outcome == Some(ph.answer.outcome))
  }

  ghost predicate FlightInv(s: State) {
    && |s.leaders| == |s.shared.calls|
    && (forall k :: k in s.shared.inflight ==> FlightOk(s, k))
    && (forall c: nat :: c < |s.shared.calls| ==> CallOk(s, c))
    && (forall p :: p in s.procs ==> ProcOk(s, p))
  }

  /** A hit and a waiter leave the calls alone. */
  lemma FlightEnterBeside(s: State, p: nat, key: Key)
    requires FlightInv(s) && Free(s, p) && !Decide(s.shared, s.now, key).Lead?
    ensures FlightInv(Apply(0, s, Enter(p, key)))
  {
    var t := Apply(0, s, Enter(p, key));
    assert t.shared == s.shared && t.leaders == s.leaders;
    forall k | k in t.shared.inflight ensures FlightOk(t, k) { assert FlightOk(s, k); }
    forall c: nat | c < |t.shared.calls| ensures CallOk(t, c) { assert CallOk(s, c); }
    forall q | q in t.procs ensures ProcOk(t, q) {
      if q != p { assert ProcOk(s, q); } else if key in s.shared.inflight { assert FlightOk(s, key); }
    }
  }

  lemma FlightEnterLeading(s: State, p: nat, key: Key)
    requires FlightInv(s) && Free(s, p) && Decide(s.shared, s.now, key).Lead?
    ensures FlightInv(Apply(0, s, Enter(p, key)))
  {
    var t := Apply(0, s, Enter(p, key));
    forall k | k in t.shared.inflight ensures FlightOk(t, k) {
      if k != key { assert FlightOk(s, k); }
    }
    forall c: nat | c < |t.shared.calls| ensures CallOk(t, c) {
      if c < |s.shared.calls| { assert CallOk(s, c); }
    }
    forall q | q in t.procs ensures ProcOk(t, q) {
      if q != p { assert ProcOk(s, q); }
    }
  }

  /** Two goroutines never load for one call, nor one key. */
  lemma LoadsApart(s: State, p: nat, q: nat)
    requires FlightInv(s) && p in s.procs && q in s.procs && Leading(s.procs[p]) && Leading(s.procs[q]) && p != q
    ensures s.procs[p].call != s.procs[q].call && s.procs[p].key != s.procs[q].key
  {
    assert ProcOk(s, p) && ProcOk(s, q);
  }

  /** A published call changes neither the other registered calls nor the other goroutines. */
  lemma ProcPublish(s: State, p: nat, q: nat)
    requires FlightInv(s) && Enabled(s, Publish(p)) && q in s.procs
    ensures ProcOk(Apply(0, s, Publish(p)), q)
  {
    assert ProcOk(s, p) && ProcOk(s, q) && FlightOk(s, s.procs[p].key);
    if q != p && Leading(s.procs[q]) { LoadsApart(s, p, q); }
  }

  lemma FlightPublish(s: State, p: nat)
    requires FlightInv(s) && Enabled(s, Publish(p))
    ensures FlightInv(Apply(0, s, Publish(p)))
  {
    var t := Apply(0, s, Publish(p));
    assert ProcOk(s, p) && FlightOk(s, s.procs[p].key);
    forall k | k in t.shared.inflight ensures FlightOk(t, k) { assert FlightOk(s, k); }
    forall c: nat | c < |t.shared.calls| ensures CallOk(t, c) { assert CallOk(s, c); }
    forall q | q in t.procs ensures ProcOk(t, q) { ProcPublish(s, p, q); }
  }

  /** Steps that only move one goroutine forward, between the critical sections. */
  lemma FlightLocal(ttl: nat, s: State, e: Event)
    requires FlightInv(s) && Enabled(s, e) && !e.Enter? && !e.Publish?
    ensures FlightInv(Apply(ttl, s, e))
  {
    var t := Apply(ttl, s, e);
    forall k | k in t.shared.inflight ensures FlightOk(t, k) {
      assert FlightOk(s, k);
    }
    forall c: nat | c < |t.shared.calls| ensures CallOk(t, c) {
      assert CallOk(s, c);
    }
    forall q | q in t.procs ensures ProcOk(t, q) {
      assert ProcOk(s, q);
    }
  }

  lemma {:induction false} FlightHolds(ttl: nat, es: seq<Event>)
    requires Exec(ttl, es).Some?
    ensures FlightInv(Exec(ttl, es).value)
  {
    if es != [] {
      FlightHolds(ttl, es[..|es| - 1]);
      var s, e := Exec(ttl, es[..|es| - 1]).value, es[|es| - 1];
      match e
      case Enter(p, key) =>
        if Decide(s.shared, s.now, key).Lead? { FlightEnterLeading(s, p, key); } else { FlightEnterBeside(s, p, key); }
      case Publish(p) => FlightPublish(s, p);
      case _ => FlightLocal(ttl, s, e);
    }
  }

  ghost predicate LoadedBy(s: State, k: Key, p: nat) {
    p in s.procs && Leading(s.procs[p]) && s.procs[p].key == k
  }

  /**
   In every schedule: a key is in flight exactly while one goroutine loads it, that goroutine
   holds the registered call, no call is closed twice, nobody waits on a call that is neither
   registered nor closed, and leaders and released waiters carry the one outcome of their call.
   */
  lemma SingleFlight(ttl: nat, es: seq<Event>)
    requires Exec(ttl, es).Some?
    ensures var s := Exec(ttl, es).value;
      && (forall k :: k in s.shared.inflight <==> exists p :: LoadedBy(s, k, p))
      && (forall k, p, q :: LoadedBy(s, k, p) && LoadedBy(s, k, q) ==> p == q)
      && (forall k, p :: LoadedBy(s, k, p) ==> s.shared.inflight[k] == s.procs[p].call)
      && (forall c :: 0 <= c < |s.shared.calls| ==>
            s.shared.calls[c].closes == if s.shared.calls[c].outcome.Some? then 1 else 0)
      && (forall p :: p in s.procs && s.procs[p].Waiting? ==>
            var ph := s.procs[p];
            && ph.call < |s.shared.calls|
            && (s.shared.calls[ph.call].outcome.None? ==>
                  ph.key in s.shared.inflight && s.shared.inflight[ph.key] == ph.call))
      && (forall p :: p in s.procs && s.procs[p].Returned? && Shares(s.procs[p].answer) ==>
            var answer := s.procs[p].answer;
            && answer.call < |s.shared.calls| && s.shared.calls[answer.call].key == s.procs[p].key
            && s.shared.calls[answer.call].outcome == Some(answer.outcome))
  {
    FlightHolds(ttl, es);
    var s := Exec(ttl, es).value;
    forall k ensures k in s.shared.inflight <==> exists p :: LoadedBy(s, k, p) {
      if k in s.shared.inflight {
        assert FlightOk(s, k);
        assert LoadedBy(s, k, s.leaders[s.shared.inflight[k]]);
      }
      forall p | LoadedBy(s, k, p) ensures k in s.shared.inflight { assert ProcOk(s, p); }
    }
    forall k, p | LoadedBy(s, k, p)
      ensures k in s.shared.inflight && s.shared.inflight[k] == s.procs[p].call
      ensures s.shared.inflight[k] < |s.leaders| && s.leaders[s.shared.inflight[k]] == p
    {
      assert ProcOk(s, p);
    }
    forall c: nat | c < |s.shared.calls|
      ensures s.shared.calls[c].closes == if s.shared.calls[c].outcome.Some? then 1 else 0
    {
      assert CallOk(s, c);
      assert s.shared.calls[c].key in s.shared.inflight ==> FlightOk(s, s.shared.calls[c].key);
    }
    forall p | p in s.procs && s.procs[p].Waiting? ensures ProcOk(s, p) && CallOk(s, s.procs[p].call) {
      assert ProcOk(s, p);
      assert CallOk(s, s.procs[p].call);
    }
    forall p | p in s.procs && s.procs[p].Returned? ensures ProcOk(s, p) {}
  }

  /** The steps that are still needed before goroutine p, waiting on a call, is released. */
  function Release(s: State, p: nat, result: Result<Config>): seq<Event>
    requires p in s.procs && s.procs[p].Waiting?
  {
    var c := s.procs[p].call;
    if c < |s.shared.calls| && c < |s.leaders| && s.shared.calls[c].outcome.None? then
      var leader := s.leaders[c];
      if leader in s.procs && s.procs[leader].Loading? then
        [Read(leader, s.procs[p].key, result), Publish(leader), Wake(p)]
      else [Publish(leader), Wake(p)]
    else [Wake(p)]
  }

  /** One more event at the end of a schedule. */
  lemma More(ttl: nat, es: seq<Event>, s: State, e: Event) returns (longer: seq<Event>, t: State)
    requires Exec(ttl, es) == Some(s) && Enabled(s, e)
    ensures longer == es + [e] && t == Apply(ttl, s, e) && Exec(ttl, longer) == Some(t)
  {
    longer, t := es + [e], Apply(ttl, s, e);
    assert longer[..|es|] == es;
  }

  /** The leader of an open call ends its load and publishes. */
  lemma LeaderCloses(ttl: nat, es: seq<Event>, s: State, c: nat, result: Result<Config>)
    returns (longer: seq<Event>, t: State)
    requires FlightInv(s) && Exec(ttl, es) == Some(s) && c < |s.shared.calls| && s.shared.calls[c].outcome.None?
    ensures var leader := s.leaders[c];
      leader in s.procs && Leading(s.procs[leader]) && longer == es
        + (if s.procs[leader].Loading? then [Read(leader, s.shared.calls[c].key, result)] else []) + [Publish(leader)]
    ensures Exec(ttl, longer) == Some(t) && c < |t.shared.calls| && t.shared.calls[c].outcome.Some?
    ensures forall p :: p in s.procs && s.procs[p].Waiting? ==> p in t.procs && t.procs[p] == s.procs[p]
  {
    assert CallOk(s, c) && FlightOk(s, s.shared.calls[c].key);
    var leader := s.leaders[c];
    longer, t := es, s;
    if s.procs[leader].Loading? {
      longer, t := More(ttl, longer, t, Read(leader, s.shared.calls[c].key, result));
    }
    longer, t := More(ttl, longer, t, Publish(leader));
  }

  /**
   Nobody waits for ever: whatever the schedule did so far and whatever the leader reads,
   at most three more steps of the leader and the waiter release the waiter with an outcome.
   */
  lemma WaitersCanBeReleased(ttl: nat, es: seq<Event>, p: nat, result: Result<Config>)
    requires Exec(ttl, es).Some?
    requires var s := Exec(ttl, es).value; p in s.procs && s.procs[p].Waiting?
    ensures var s := Exec(ttl, es).value;
      var t := Exec(ttl, es + Release(s, p, result));
      && t.Some? && p in t.value.procs && t.value.procs[p].Returned?
      && t.value.procs[p].answer.Joined? && t.value.procs[p].answer.call == s.procs[p].call
  {
    FlightHolds(ttl, es);
    var s := Exec(ttl, es).value;
    var c := s.procs[p].call;
    assert ProcOk(s, p);
    var fs, t := es, s;
    if s.shared.calls[c].outcome.None? {
      fs, t := LeaderCloses(ttl, es, s, c, result);
    }
    fs, t := More(ttl, fs, t, Wake(p));
    assert fs == es + Release(s, p, result);
  }

  // ------------------------------------------------------------- load spacing and staleness

  /** The last load of a key that succeeded. */
  function LastGood(log: seq<Load>, k: Key): Option<Load> {
    if log == [] then None
    else
      var last := log[|log| - 1];
      if last.key == k && last.outcome.Loaded? then Some(last) else LastGood(log[..|log| - 1], k)
  }

  function Cached(s: State, k: Key): Option<Entry> {
    if k in s.shared.cache then Some(s.shared.cache[k]) else None
  }

  function GoodEntry(load: Option<Load>): Option<Entry> {
    if load.Some? && load.value.outcome.Loaded? then Some(load.value.outcome.entry) else None
  }

  /** When a successful load of an entry read the clock. */
  function FinishedAt(ttl: nat, entry: Entry): int {
    entry.expiresAt - ttl
  }

  /** A load starting at the given instant finds the previous result of its key expired. */
  ghost predicate StartsLate(log: seq<Load>, k: Key, startedAt: int) {
    var previous := LastGood(log, k);
    previous.Some? && previous.value.outcome.Loaded? ==> startedAt >= previous.value.outcome.entry.expiresAt
  }

  ghost predicate LoadOk(ttl: nat, s: State, i: nat)
    requires i < |s.log|
  {
    var load := s.log[i];
    && load.startedAt <= s.now
    && StartsLate(s.log[..i], load.key, load.startedAt)
    && (load.outcome.Loaded? ==> load.startedAt <= FinishedAt(ttl, load.outcome.entry) <= s.now)
  }

  /** An entry some published load of the key produced. */
  ghost predicate Published(log: seq<Load>, k: Key, outcome: Outcome) {
    exists i :: 0 <= i < |log| && log[i].key == k && log[i].outcome == outcome
  }

  ghost predicate ClockOk(ttl: nat, s: State, p: nat)
    requires p in s.procs
  {
    var ph := s.procs[p];
    && (Leading(ph) ==> ph.startedAt <= s.now && StartsLate(s.log, ph.key, ph.startedAt))
    && (ph.Holding? && ph.outcome.Loaded? ==>
          ph.startedAt <= FinishedAt(ttl, ph.outcome.entry) <= s.now)
    && (ph.Returned? && ph.answer.Hit? ==>
          && FinishedAt(ttl, ph.answer.entry) <= ph.answer.at < FinishedAt(ttl, ph.answer.entry) + ttl
          && Published(s.log, ph.key, Loaded(ph.answer.entry)))
  }

  ghost predicate TimeInv(ttl: nat, s: State) {
    && (forall k :: Cached(s, k) == GoodEntry(LastGood(s.log, k)))
    && (forall i: nat :: i < |s.log| ==> LoadOk(ttl, s, i))
    && (forall p :: p in s.procs ==> ClockOk(ttl, s, p))
  }

  lemma {:induction false} LastGoodIsPublished(log: seq<Load>, k: Key)
    requires LastGood(log, k).Some?
    ensures exists i :: 0 <= i < |log| && log[i] == LastGood(log, k).value
    ensures var load := LastGood(log, k).value; load.key == k && load.outcome.Loaded?
  {
    if !(log[|log| - 1].key == k && log[|log| - 1].outcome.Loaded?) {
      LastGoodIsPublished(log[..|log| - 1], k);
    }
  }

  lemma TimeEnter(ttl: nat, s: State, p: nat, key: Key)
    requires TimeInv(ttl, s) && Free(s, p)
    ensures TimeInv(ttl, Apply(ttl, s, Enter(p, key)))
  {
    var t := Apply(ttl, s, Enter(p, key));
    assert Cached(s, key) == GoodEntry(LastGood(s.log, key));
    forall k ensures Cached(t, k) == GoodEntry(LastGood(t.log, k)) {
      assert Cached(t, k) == Cached(s, k);
    }
    forall i: nat | i < |t.log| ensures LoadOk(ttl, t, i) { assert LoadOk(ttl, s, i); }
    forall q | q in t.procs ensures ClockOk(ttl, t, q) {
      if q != p {
        assert ClockOk(ttl, s, q);
      } else {
        if LastGood(s.log, key).Some? {
          LastGoodIsPublished(s.log, key);
          var i :| 0 <= i < |s.log| && s.log[i] == LastGood(s.log, key).value;
          assert LoadOk(ttl, s, i);
        }
      }
    }
  }

  function Finished(s: State, p: nat): Load
    requires p in s.procs && s.procs[p].Holding?
  {
    Load(s.procs[p].key, s.procs[p].startedAt, s.procs[p].outcome)
  }

  /** A published load that is not the last one keeps its place in the log. */
  lemma LogGrows(ttl: nat, s: State, p: nat)
    requires TimeInv(ttl, s) && p in s.procs && s.procs[p].Holding?
    ensures forall i: nat :: i <= |s.log| ==> (s.log + [Finished(s, p)])[..i] == s.log[..i]
    ensures forall k, outcome :: Published(s.log, k, outcome) ==> Published(s.log + [Finished(s, p)], k, outcome)
  {
    var log := s.log + [Finished(s, p)];
    forall k, outcome | Published(s.log, k, outcome) ensures Published(log, k, outcome) {
      var i :| 0 <= i < |s.log| && s.log[i].key == k && s.log[i].outcome == outcome;
      assert log[i] == s.log[i];
    }
  }

  lemma LogPublish(ttl: nat, s: State, p: nat, i: nat)
    requires FlightInv(s) && TimeInv(ttl, s) && Enabled(s, Publish(p)) && i <= |s.log|
    ensures LoadOk(ttl, Apply(ttl, s, Publish(p)), i)
  {
    LogGrows(ttl, s, p);
    if i < |s.log| { assert LoadOk(ttl, s, i); } else { assert ClockOk(ttl, s, p); }
  }

  lemma ClockPublish(ttl: nat, s: State, p: nat, q: nat)
    requires FlightInv(s) && TimeInv(ttl, s) && Enabled(s, Publish(p)) && q in s.procs
    ensures ClockOk(ttl, Apply(ttl, s, Publish(p)), q)
  {
    assert ClockOk(ttl, s, q);
    if q != p && Leading(s.procs[q]) {
      LoadsApart(s, p, q);
      assert (s.log + [Finished(s, p)])[..|s.log|] == s.log;
    } else if s.procs[q].Returned? && s.procs[q].answer.Hit? {
      LogGrows(ttl, s, p);
    }
  }

  lemma TimePublish(ttl: nat, s: State, p: nat)
    requires FlightInv(s) && TimeInv(ttl, s) && Enabled(s, Publish(p))
    ensures TimeInv(ttl, Apply(ttl, s, Publish(p)))
  {
    var t := Apply(ttl, s, Publish(p));
    assert t.log[..|s.log|] == s.log;
    forall k ensures Cached(t, k) == GoodEntry(LastGood(t.log, k)) {
      assert Cached(s, k) == GoodEntry(LastGood(s.log, k));
    }
    forall i: nat | i < |t.log| ensures LoadOk(ttl, t, i) { LogPublish(ttl, s, p, i); }
    forall q | q in t.procs ensures ClockOk(ttl, t, q) { ClockPublish(ttl, s, p, q); }
  }

  lemma TimeLocal(ttl: nat, s: State, e: Event)
    requires TimeInv(ttl, s) && Enabled(s, e) && !e.Enter? && !e.Publish?
    ensures TimeInv(ttl, Apply(ttl, s, e))
  {
    var t := Apply(ttl, s, e);
    forall k ensures Cached(t, k) == GoodEntry(LastGood(t.log, k)) {
      assert Cached(t, k) == Cached(s, k);
    }
    forall i: nat | i < |t.log| ensures LoadOk(ttl, t, i) { assert LoadOk(ttl, s, i); }
    forall q | q in t.procs ensures ClockOk(ttl, t, q) { assert ClockOk(ttl, s, q); }
  }

  lemma {:induction false} TimeHolds(ttl: nat, es: seq<Event>)
    requires Exec(ttl, es).Some?
    ensures TimeInv(ttl, Exec(ttl, es).value)
  {
    if es != [] {
      var s, e := Exec(ttl, es[..|es| - 1]).value, es[|es| - 1];
      TimeHolds(ttl, es[..|es| - 1]);
      FlightHolds(ttl, es[..|es| - 1]);
      match e
      case Enter(p, key) => TimeEnter(ttl, s, p, key);
      case Publish(p) => TimePublish(ttl, s, p);
      case _ => TimeLocal(ttl, s, e);
    }
  }

  /** In any log that satisfies the invariant, the expiry of the last good load bounds all earlier ones. */
  lemma {:induction false} LastGoodIsLatest(ttl: nat, s: State, n: nat, i: nat)
    requires TimeInv(ttl, s) && i < n <= |s.log| && s.log[i].outcome.Loaded?
    ensures var last := LastGood(s.log[..n], s.log[i].key);
      && last.Some? && last.value.outcome.Loaded?
      && last.value.outcome.entry.expiresAt >= s.log[i].outcome.entry.expiresAt
    decreases n
  {
    var front := s.log[..n];
    assert front[..n - 1] == s.log[..n - 1];
    if i < n - 1 {
      LastGoodIsLatest(ttl, s, n - 1, i);
      assert LoadOk(ttl, s, n - 1);
    }
  }

  /** Of two successful loads of one key, the later starts at least one TTL after the earlier finished. */
  lemma LoadsAreSpaced(ttl: nat, es: seq<Event>, i: nat, j: nat)
    requires Exec(ttl, es).Some?
    requires var log := Exec(ttl, es).value.log;
      i < j < |log| && log[i].key == log[j].key && log[i].outcome.Loaded? && log[j].outcome.Loaded?
    ensures var log := Exec(ttl, es).value.log;
      && log[j].startedAt >= FinishedAt(ttl, log[i].outcome.entry) + ttl
      && FinishedAt(ttl, log[j].outcome.entry) >= log[j].startedAt
  {
    TimeHolds(ttl, es);
    var s := Exec(ttl, es).value;
    LastGoodIsLatest(ttl, s, j, i);
    assert LoadOk(ttl, s, j);
  }

  /** The successful loads of a key, oldest first, as the instants at which they finished. */
  function FinishTimes(ttl: nat, log: seq<Load>, k: Key): seq<int> {
    if log == [] then []
    else
      var last := log[|log| - 1];
      FinishTimes(ttl, log[..|log| - 1], k)
      + if last.key == k && last.outcome.Loaded? then [FinishedAt(ttl, last.outcome.entry)] else []
  }

  lemma {:induction false} FinishTimesSpan(ttl: nat, s: State, k: Key, n: nat)
    requires TimeInv(ttl, s) && n <= |s.log|
    ensures var times := FinishTimes(ttl, s.log[..n], k);
      times != [] ==>
        && LastGood(s.log[..n], k).Some? && LastGood(s.log[..n], k).value.outcome.Loaded?
        && times[|times| - 1] == FinishedAt(ttl, LastGood(s.log[..n], k).value.outcome.entry)
        && times[|times| - 1] - times[0] >= (|times| - 1) * ttl
  {
    if n > 0 {
      assert s.log[..n][..n - 1] == s.log[..n - 1];
      FinishTimesSpan(ttl, s, k, n - 1);
      assert LoadOk(ttl, s, n - 1);
      var before := FinishTimes(ttl, s.log[..n - 1], k);
      assert |before| * ttl == (|before| - 1) * ttl + ttl;
    }
  }

  /** n successful loads of one key span at least n-1 TTLs. */
  lemma LoadsSpan(ttl: nat, es: seq<Event>, k: Key)
    requires Exec(ttl, es).Some?
    ensures var times := FinishTimes(ttl, Exec(ttl, es).value.log, k);
      times != [] ==> times[|times| - 1] - times[0] >= (|times| - 1) * ttl
  {
    TimeHolds(ttl, es);
    var s := Exec(ttl, es).value;
    assert s.log[..|s.log|] == s.log;
    FinishTimesSpan(ttl, s, k, |s.log|);
  }

  /** Every cache hit hands out the result of a published load that finished less than one TTL ago. */
  lemma HitsAreFresh(ttl: nat, es: seq<Event>, p: nat)
    requires Exec(ttl, es).Some?
    requires var s := Exec(ttl, es).value; p in s.procs && s.procs[p].Returned? && s.procs[p].answer.Hit?
    ensures var s := Exec(ttl, es).value;
      var hit := s.procs[p].answer;
      && Published(s.log, s.procs[p].key, Loaded(hit.entry))
      && 0 <= hit.at - FinishedAt(ttl, hit.entry) < ttl
  {
    TimeHolds(ttl, es);
    assert ClockOk(ttl, Exec(ttl, es).value, p);
  }

  /** The cache holds the last successful load of each key and nothing else: a failed load leaves it alone. */
  lemma CacheIsLastGoodLoad(ttl: nat, es: seq<Event>, k: Key)
    requires Exec(ttl, es).Some?
    ensures var s := Exec(ttl, es).value; Cached(s, k) == GoodEntry(LastGood(s.log, k))
  {
    TimeHolds(ttl, es);
  }

  // ------------------------------------------------------------------- transparency

  /** Every read that was not cut off is answered by one and the same database. */
  ghost predicate ReadsFrom(db: Key -> Result<Config>, es: seq<Event>) {
    forall i :: 0 <= i < |es| && es[i].Read? ==> es[i].result == db(es[i].key)
  }

  /** What an outcome says once its expiry is forgotten. */
  function Content(outcome: Outcome): Result<Config> {
    match outcome
    case Loaded(entry) => Ok(entry.config)
    case Failed(error) => Err(error)
  }

  function AnswerContent(answer: Answer): Option<Result<Config>> {
    match answer
    case Hit(entry, _) => Some(Ok(entry.config))
    case Led(_, outcome) => Some(Content(outcome))
    case Joined(_, outcome) => Some(Content(outcome))
    case Abandoned => None
  }

  /** What the load behind a call has to say: the error it was cut off with, or the database. */
  function Due(db: Key -> Result<Config>, cut: map<nat, string>, call: nat, key: Key): Result<Config> {
    if call in cut then Err(cut[call]) else db(key)
  }

  ghost predicate CacheTrue(db: Key -> Result<Config>, sh: Shared) {
    forall k :: k in sh.cache ==> db(k) == Ok(sh.cache[k].config)
  }

  ghost predicate CallTrue(db: Key -> Result<Config>, s: State, c: nat)
    requires c < |s.shared.calls|
  {
    var call := s.shared.calls[c];
    call.outcome.Some? ==> Content(call.outcome.value) == Due(db, s.cut, c, call.key)
  }

  ghost predicate PhaseTrue(db: Key -> Result<Config>, cut: map<nat, string>, ph: Phase) {
    && (ph.Loading? ==> ph.call !in cut)
    && (ph.Holding? ==> Content(ph.outcome) == Due(db, cut, ph.call, ph.key))
    && (ph.Returned? && ph.answer.Hit? ==> db(ph.key) == Ok(ph.answer.entry.config))
  }

  ghost predicate TrueTo(db: Key -> Result<Config>, s: State) {
    && CacheTrue(db, s.shared)
    && (forall c: nat :: c < |s.shared.calls| ==> CallTrue(db, s, c))
    && (forall p :: p in s.procs ==> PhaseTrue(db, s.cut, s.procs[p]))
    && (forall c :: c in s.cut ==> c < |s.shared.calls|)
  }

  lemma TrueEnter(ttl: nat, db: Key -> Result<Config>, s: State, p: nat, key: Key)
    requires TrueTo(db, s) && Free(s, p)
    ensures TrueTo(db, Apply(ttl, s, Enter(p, key)))
  {
    var t := Apply(ttl, s, Enter(p, key));
    forall c: nat | c < |t.shared.calls| ensures CallTrue(db, t, c) {
      if c < |s.shared.calls| { assert CallTrue(db, s, c); }
    }
    forall q | q in t.procs ensures PhaseTrue(db, t.cut, t.procs[q]) {
      if q != p { assert PhaseTrue(db, s.cut, s.procs[q]); }
    }
  }

  lemma TruePublish(ttl: nat, db: Key -> Result<Config>, s: State, p: nat)
    requires FlightInv(s) && TrueTo(db, s) && Enabled(s, Publish(p))
    ensures TrueTo(db, Apply(ttl, s, Publish(p)))
  {
    var t := Apply(ttl, s, Publish(p));
    assert ProcOk(s, p) && FlightOk(s, s.procs[p].key) && PhaseTrue(db, s.cut, s.procs[p]);
    forall c: nat | c < |t.shared.calls| ensures CallTrue(db, t, c) { assert CallTrue(db, s, c); }
    forall q | q in t.procs ensures PhaseTrue(db, t.cut, t.procs[q]) { assert PhaseTrue(db, s.cut, s.procs[q]); }
  }

  /** A call being loaded has no outcome yet. */
  lemma LoadingIsOpen(s: State, p: nat)
    requires FlightInv(s) && p in s.procs && Leading(s.procs[p])
    ensures s.procs[p].call < |s.shared.calls| && s.shared.calls[s.procs[p].call].outcome == None
  {
    assert ProcOk(s, p) && FlightOk(s, s.procs[p].key);
  }

  lemma TrueCutOff(ttl: nat, db: Key -> Result<Config>, s: State, p: nat, error: string)
    requires FlightInv(s) && TrueTo(db, s) && Enabled(s, CutOff(p, error))
    ensures TrueTo(db, Apply(ttl, s, CutOff(p, error)))
  {
    var t := Apply(ttl, s, CutOff(p, error));
    LoadingIsOpen(s, p);
    forall c: nat | c < |t.shared.calls| ensures CallTrue(db, t, c) { assert CallTrue(db, s, c); }
    forall q | q in t.procs ensures PhaseTrue(db, t.cut, t.procs[q]) {
      assert PhaseTrue(db, s.cut, s.procs[q]);
      if q != p && Leading(s.procs[q]) { LoadsApart(s, p, q); }
    }
  }

  lemma TrueLocal(ttl: nat, db: Key -> Result<Config>, s: State, e: Event)
    requires TrueTo(db, s) && Enabled(s, e) && (e.Tick? || e.Read? || e.Wake? || e.Abandon?)
    requires e.Read? ==> e.result == db(e.key)
    ensures TrueTo(db, Apply(ttl, s, e))
  {
    var t := Apply(ttl, s, e);
    forall c: nat | c < |t.shared.calls| ensures CallTrue(db, t, c) { assert CallTrue(db, s, c); }
    forall q | q in t.procs ensures PhaseTrue(db, t.cut, t.procs[q]) { assert PhaseTrue(db, s.cut, s.procs[q]); }
  }

  lemma {:induction false} TrueHolds(ttl: nat, db: Key -> Result<Config>, es: seq<Event>)
    requires Exec(ttl, es).Some? && ReadsFrom(db, es)
    ensures TrueTo(db, Exec(ttl, es).value)
  {
    if es != [] {
      TrueHolds(ttl, db, es[..|es| - 1]);
      FlightHolds(ttl, es[..|es| - 1]);
      var s, e := Exec(ttl, es[..|es| - 1]).value, es[|es| - 1];
      match e
      case Enter(p, key) => TrueEnter(ttl, db, s, p, key);
      case Publish(p) => TruePublish(ttl, db, s, p);
      case CutOff(p, error) => TrueCutOff(ttl, db, s, p, error);
      case _ => TrueLocal(ttl, db, s, e);
    }
  }

  /** The load behind an answer was cut off because the request of its leader ended. */
  predicate WasCutOff(s: State, answer: Answer) {
    Shares(answer) && answer.call in s.cut
  }

  /**
   While the database does not change, a goroutine that was not abandoned gets what a direct
   lookup of its key gives, unless the load behind its answer was cut off: then it gets the
   error of the leader's request, which may be another request than its own. So its answer is
   that of a direct lookup if and only if the load was not cut off, or the lookup fails with
   that same error. A hit is always what a lookup gives.
   */
  lemma Transparency(ttl: nat, db: Key -> Result<Config>, es: seq<Event>, p: nat)
    requires Exec(ttl, es).Some? && ReadsFrom(db, es)
    requires var s := Exec(ttl, es).value;
      p in s.procs && s.procs[p].Returned? && s.procs[p].answer != Abandoned
    ensures var s := Exec(ttl, es).value;
      var ph := s.procs[p];
      && (AnswerContent(ph.answer) == Some(db(ph.key)) <==>
            !WasCutOff(s, ph.answer) || db(ph.key) == Err(s.cut[ph.answer.call]))
      && (WasCutOff(s, ph.answer) ==> AnswerContent(ph.answer) == Some(Err(s.cut[ph.answer.call])))
  {
    TrueHolds(ttl, db, es);
    FlightHolds(ttl, es);
    var s := Exec(ttl, es).value;
    assert PhaseTrue(db, s.cut, s.procs[p]) && ProcOk(s, p);
    if Shares(s.procs[p].answer) { assert CallTrue(db, s, s.procs[p].answer.call); }
  }

  /** Only a cut-off marks a call, so without one everybody gets what a direct lookup gives. */
  lemma {:induction false} CutOnlyByCutOff(ttl: nat, es: seq<Event>)
    requires Exec(ttl, es).Some? && forall i :: 0 <= i < |es| ==> !es[i].CutOff?
    ensures Exec(ttl, es).value.cut == map[]
  {
    if es != [] {
      CutOnlyByCutOff(ttl, es[..|es| - 1]);
    }
  }

  /**
   A goroutine whose own request goes on can fail for the request of another: it joins a call,
   the leader's request ends during the load, and the error goes to both.
   */
  lemma CutOffReachesWaiters(ttl: nat, db: Key -> Result<Config>, key: Key, error: string) returns (es: seq<Event>)
    requires db(key).Ok?
    ensures Exec(ttl, es).Some? && ReadsFrom(db, es) && forall i :: 0 <= i < |es| ==> !es[i].Abandon?
    ensures var s := Exec(ttl, es).value;
      1 in s.procs && s.procs[1] == Returned(key, Joined(0, Failed(error)))
  {
    var s;
    es, s := BothWaiting(ttl, key);
    es, s := More(ttl, es, s, CutOff(0, error));
    es, s := More(ttl, es, s, Publish(0));
    es, s := More(ttl, es, s, Wake(1));
  }

  lemma BothWaiting(ttl: nat, key: Key) returns (es: seq<Event>, s: State)
    ensures Exec(ttl, es) == Some(s) && es == [Enter(0, key), Enter(1, key)]
    ensures s.procs == map[0 := Loading(key, 0, 0), 1 := Waiting(key, 0)] && |s.shared.calls| == 1
  {
    es, s := More(ttl, [], Start, Enter(0, key));
    es, s := More(ttl, es, s, Enter(1, key));
  }

  // -------------------------------------------------- what holds of the shared fields alone

  /** A registered call is open and belongs to its key. */
  ghost predicate Registered(sh: Shared) {
    forall k :: k in sh.inflight ==> sh.inflight[k] < |sh.calls| && sh.calls[sh.inflight[k]] == Call(k, 0, None)
  }

  /** So it is in every schedule, and while the database does not change the cache is true, too ... */
  lemma ReachableIsTrue(ttl: nat, db: Key -> Result<Config>, es: seq<Event>)
    requires Exec(ttl, es).Some? && ReadsFrom(db, es)
    ensures Registered(Exec(ttl, es).value.shared) && CacheTrue(db, Exec(ttl, es).value.shared)
  {
    TrueHolds(ttl, db, es);
    FlightHolds(ttl, es);
    var s := Exec(ttl, es).value;
    forall k | k in s.shared.inflight
      ensures s.shared.inflight[k] < |s.shared.calls| && s.shared.calls[s.shared.inflight[k]] == Call(k, 0, None)
    {
      assert FlightOk(s, k);
    }
  }

  /** ... and over each of the two critical sections; a load that tells the truth keeps the cache true. */
  lemma SharedSteps(db: Key -> Result<Config>, sh: Shared, now: int, key: Key, call: nat, outcome: Outcome)
    requires Registered(sh) && CacheTrue(db, sh)
    ensures Registered(Register(sh, now, key)) && CacheTrue(db, Register(sh, now, key))
    ensures key in sh.inflight && sh.inflight[key] == call && (outcome.Loaded? ==> Content(outcome) == db(key)) ==>
      call < |sh.calls| && Registered(Settle(sh, key, call, outcome)) && CacheTrue(db, Settle(sh, key, call, outcome))
  {
  }

  // ------------------------------------------------------------------ time, and giving up

  /** The time that has passed in a run. */
  function Elapsed(es: seq<Event>): nat {
    if es == [] then 0
    else Elapsed(es[..|es| - 1]) + if es[|es| - 1].Tick? then es[|es| - 1].duration else 0
  }

  lemma {:induction false} TimePasses(ttl: nat, es: seq<Event>)
    requires Exec(ttl, es).Some?
    ensures Exec(ttl, es).value.now == Elapsed(es)
  {
    if es != [] {
      TimePasses(ttl, es[..|es| - 1]);
    }
  }

  /** A waiter whose own request ends leaves at once, and nobody else notices. */
  lemma LeavesAlone(ttl: nat, s: State, p: nat)
    requires p in s.procs && s.procs[p].Waiting?
    ensures Enabled(s, Abandon(p))
    ensures var t := Apply(ttl, s, Abandon(p));
      && p in t.procs && t.procs[p] == Returned(s.procs[p].key, Abandoned) && Free(t, p)
      && t.shared == s.shared && t.now == s.now && t.log == s.log && t.procs.Keys == s.procs.Keys
      && forall q :: q in s.procs && q != p ==> t.procs[q] == s.procs[q]
  {
  }
}
