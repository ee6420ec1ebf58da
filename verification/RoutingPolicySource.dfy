/**
 The routing policy source as an object: the two critical sections, the load between them
 and the policy handed to the caller, with every slice a heap array of its own. `view` is
 the value the steps of RoutingPolicyProtocol work on; `Valid` ties it to the fields.
 */
module RoutingPolicySource {
  import opened Options
  import P = RoutingPolicyProtocol

  datatype Mode = StrictPriority | PriorityWeighted | FillFirst

  /** Anything that is not one of the two named modes means strict priority. */
  function ModeOf(selectionMode: string): Mode {
    if selectionMode == "priority_weighted" then PriorityWeighted
    else if selectionMode == "fill_first" then FillFirst
    else StrictPriority
  }

  datatype Request = Request(tenantID: int, poolGroupID: int, requestedModel: string, selectionMode: string)

  function KeyOf(req: Request): P.Key {
    P.Key(req.tenantID, req.poolGroupID, req.requestedModel)
  }

  datatype PoolRead = PoolRow(waits: P.Waits) | PoolError(error: string)

  datatype RouteRead<T> = RouteRows(rows: seq<T>) | RouteError(error: string)

  /** What a lookup without any cache reads for a key. */
  function Lookup(readsRoutes: bool, key: P.Key, pool: PoolRead, routes: RouteRead<seq<int>>): Result<P.Config> {
    match pool
    case PoolError(error) => Err(error)
    case PoolRow(waits) =>
      if !readsRoutes || key.requestedModel == "" then Ok(P.Config(waits, key.requestedModel, []))
      else
        match routes
        case RouteError(error) => Err("read model account route: " + error)
        case RouteRows(rows) =>
          if |rows| > 1 then Err("more than one enabled route for the group and model")
          else Ok(P.Config(waits, key.requestedModel, if rows == [] then [] else rows[0]))
  }

  /** The policy a request gets from a configuration, as a value. */
  datatype PolicyValue = PolicyValue(
    mode: Mode, operatorScoring: bool, scoringVersion: string,
    waits: P.Waits, modelAccountIDs: map<string, seq<int>>)

  const NoWaits := P.Waits(0, 0, 0, 0, 0)

  function BasePolicy(mode: Mode): PolicyValue {
    var weighted := mode == PriorityWeighted;
    PolicyValue(mode, weighted, if weighted then "adaptive-v1" else "", NoWaits, map[])
  }

  function WithConfig(base: PolicyValue, config: P.Config): PolicyValue {
    base.(waits := config.waits,
          modelAccountIDs := if config.requestedModel != "" && config.accountIDs != []
                             then map[config.requestedModel := config.accountIDs]
                             else base.modelAccountIDs)
  }

  class Policy {
    var mode: Mode
    var operatorScoring: bool
    var scoringVersion: string
    var waits: P.Waits
    var modelAccountIDs: map<string, array<int>>

    constructor (mode: Mode)
      ensures Value() == BasePolicy(mode) && Arrays() == {}
    {
      this.mode := mode;
      operatorScoring := mode == PriorityWeighted;
      scoringVersion := if mode == PriorityWeighted then "adaptive-v1" else "";
      waits := NoWaits;
      modelAccountIDs := map[];
    }

    ghost function Arrays(): set<array<int>>
      reads this
    {
      set k | k in modelAccountIDs :: modelAccountIDs[k]
    }

    ghost function Value(): PolicyValue
      reads this, Arrays()
    {
      PolicyValue(mode, operatorScoring, scoringVersion, waits,
                  map k | k in modelAccountIDs :: modelAccountIDs[k][..])
    }

    method SetRoute(model: string, ids: array<int>)
      modifies this
      ensures Arrays() == {ids}
      ensures Value() == old(Value()).(modelAccountIDs := map[model := ids[..]])
    {
      modelAccountIDs := map[model := ids];
      assert modelAccountIDs[model] == ids;
    }
  }

  /** A cache entry whose account list is an array in the heap. */
  datatype Entry = Entry(waits: P.Waits, requestedModel: string, accountIDs: array<int>, expiresAt: int)

  datatype Outcome = Loaded(entry: Entry) | Failed(error: string)

  ghost function EntryView(e: Entry): P.Entry
    reads e.accountIDs
  {
    P.Entry(P.Config(e.waits, e.requestedModel, e.accountIDs[..]), e.expiresAt)
  }

  ghost function OutcomeView(o: Outcome): P.Outcome
    reads if o.Loaded? then {o.entry.accountIDs} else {}
  {
    match o
    case Loaded(e) => P.Loaded(EntryView(e))
    case Failed(error) => P.Failed(error)
  }

  class Inflight {
    const key: P.Key
    ghost const id: nat
    var done: bool
    var outcome: Option<Outcome>

    constructor (key: P.Key, ghost id: nat)
      ensures this.key == key && this.id == id && !done && outcome == None
    {
      this.key, this.id, done, outcome := key, id, false, None;
    }
  }

  /** To settle a call is to store what was loaded and then to do the rest. */
  lemma StoredFirst(v: P.Shared, key: P.Key, id: nat, o: P.Outcome)
    requires id < |v.calls|
    ensures var cache := if o.Loaded? then v.cache[key := o.entry] else v.cache;
      P.Settle(v, key, id, o) == P.Settle(v.(cache := cache), key, id, o).(cache := cache)
  {
  }

  datatype Decision = UseCached(entry: Entry) | WaitOn(call: Inflight) | Lead(call: Inflight)

  class Source {
    const ttl: nat
    const hasQueries: bool
    const readsRoutes: bool
    var cache: map<P.Key, Entry>
    var inflight: map<P.Key, Inflight>
    ghost var calls: seq<Inflight>
    ghost var view: P.Shared
    ghost var Repr: set<object>

    /** The call object agrees with its view: closed exactly when `done`. */
    ghost predicate CallValid(c: Inflight, v: P.Call)
      reads this, c, Repr
    {
      && c.key == v.key
      && (c.done <==> v.closes > 0)
      && (c.outcome == None <==> v.outcome == None)
      && (c.outcome.Some? && c.outcome.value.Failed? ==> v.outcome == Some(P.Failed(c.outcome.value.error)))
      && (c.outcome.Some? && c.outcome.value.Loaded? ==>
            var e := c.outcome.value.entry;
            e.accountIDs in Repr && v.outcome == Some(P.Loaded(EntryView(e))))
    }

    ghost predicate CacheValid()
      reads this, Repr
    {
      && view.cache.Keys == cache.Keys
      && forall k :: k in cache ==> cache[k].accountIDs in Repr && view.cache[k] == EntryView(cache[k])
    }

    ghost predicate Valid()
      reads this, Repr
    {
      && this !in Repr
      && CacheValid()
      && |calls| == |view.calls|
      && (forall i :: 0 <= i < |calls| ==> calls[i] in Repr && calls[i].id == i)
      && (forall i :: 0 <= i < |calls| ==> CallValid(calls[i], view.calls[i]))
      && inflight.Keys == view.inflight.Keys
      && (forall k :: k in inflight ==>
            inflight[k].id < |calls| && calls[inflight[k].id] == inflight[k] && view.inflight[k] == inflight[k].id)
    }

    constructor (cacheTTL: int, defaultTTL: nat, hasQueries: bool, readsRoutes: bool)
      ensures Valid() && fresh(Repr)
      ensures view == P.Start.shared
      ensures ttl == (if cacheTTL > 0 then cacheTTL else defaultTTL)
      ensures this.hasQueries == hasQueries && this.readsRoutes == readsRoutes
    {
      ttl := if cacheTTL > 0 then cacheTTL else defaultTTL;
      this.hasQueries, this.readsRoutes := hasQueries, readsRoutes;
      cache, inflight := map[], map[];
      calls, view, Repr := [], P.Start.shared, {};
    }

    /** The decision on the heap is the one the protocol takes from the fields before it. */
    ghost predicate Decided(before: P.Shared, now: int, key: P.Key, d: Decision)
      reads this, Repr, if d.UseCached? then {d.entry.accountIDs} else {d.call}
    {
      match P.Decide(before, now, key)
      case UseCached(e) => d.UseCached? && d.entry.accountIDs in Repr && EntryView(d.entry) == e
      case WaitOn(c) => d.WaitOn? && c < |calls| && d.call == calls[c] && d.call in Repr
      case Lead(c) => d.Lead? && c < |calls| && d.call == calls[c] && d.call in Repr && d.call.key == key
    }

    /** The first critical section of `fallbackPolicy`, one step of the protocol. */
    method Enter(key: P.Key, now: int) returns (d: Decision)
      requires Valid()
      modifies this
      ensures Valid() && old(Repr) <= Repr && fresh(Repr - old(Repr))
      ensures view == P.Register(old(view), now, key)
      ensures Decided(old(view), now, key, d) && (d.Lead? ==> fresh(d.call))
    {
      if key in cache && now < cache[key].expiresAt {
        return UseCached(cache[key]);
      }
      if key in inflight {
        return WaitOn(inflight[key]);
      }
      var call := NewCall(key, now);
      d := Lead(call);
    }

    /** The registration of a call by its leader. */
    method NewCall(key: P.Key, now: int) returns (call: Inflight)
      requires Valid() && P.Decide(view, now, key).Lead?
      modifies this
      ensures Valid() && Repr == old(Repr) + {call} && fresh(call) && call.key == key
      ensures calls == old(calls) + [call] && view == P.Register(old(view), now, key)
    {
      call := new Inflight(key, |calls|);
      inflight := inflight[key := call];
      view := P.Register(view, now, key);
      calls := calls + [call];
      Repr := Repr + {call};
    }

    /** The unlocked part: read the pool and the route, and copy the account list out of the row. */
    method Load(key: P.Key, pool: PoolRead, routes: RouteRead<array<int>>, ghost rows: RouteRead<seq<int>>, clock: int)
      returns (r: Outcome)
      requires SameRows(routes, rows)
      ensures OutcomeView(r) == P.Finish(ttl, clock, Lookup(readsRoutes, key, pool, rows))
      ensures r.Loaded? ==> fresh(r.entry.accountIDs)
    {
      if pool.PoolError? {
        return Failed(pool.error);
      }
      var ids := new int[0];
      if readsRoutes && key.requestedModel != "" {
        if routes.RouteError? {
          return Failed("read model account route: " + routes.error);
        } else if |routes.rows| > 1 {
          return Failed("more than one enabled route for the group and model");
        } else if |routes.rows| == 1 {
          ids := Copy(routes.rows[0]);
        }
      }
      r := Loaded(Entry(pool.waits, key.requestedModel, ids, clock + ttl));
    }

    /** The second critical section: store, hand over, delete, close. */
    method Publish(call: Inflight, r: Outcome)
      requires Valid() && call.id < |calls| && calls[call.id] == call && !call.done
      requires r.Loaded? ==> r.entry.accountIDs !in Repr
      modifies this, call
      ensures Valid() && call.done && call.outcome == Some(r) && calls == old(calls)
      ensures Repr == old(Repr) + if r.Loaded? then {r.entry.accountIDs} else {}
      ensures view == P.Settle(old(view), call.key, call.id, OutcomeView(r))
    {
      StoredFirst(view, call.key, call.id, OutcomeView(r));
      if r.Loaded? {
        Store(call.key, r.entry);
      }
      Close(call, r);
    }

    method Store(key: P.Key, entry: Entry)
      requires Valid() && entry.accountIDs !in Repr
      modifies this
      ensures Valid() && calls == old(calls) && Repr == old(Repr) + {entry.accountIDs}
      ensures view == old(view).(cache := old(view).cache[key := EntryView(entry)])
    {
      cache := cache[key := entry];
      Repr := Repr + {entry.accountIDs};
      view := view.(cache := view.cache[key := EntryView(entry)]);
      forall i | 0 <= i < |calls| ensures CallValid(calls[i], view.calls[i]) {
        assert old(CallValid(calls[i], view.calls[i]));
      }
    }

    /** Hand over, delete, close. */
    method Close(call: Inflight, r: Outcome)
      requires Valid() && call.id < |calls| && calls[call.id] == call && !call.done
      requires r.Loaded? ==> r.entry.accountIDs in Repr
      modifies this, call
      ensures Valid() && call.done && call.outcome == Some(r) && calls == old(calls) && Repr == old(Repr)
      ensures view == P.Settle(old(view), call.key, call.id, OutcomeView(r)).(cache := old(view).cache)
    {
      call.outcome := Some(r);
      inflight := inflight - {call.key};
      call.done := true;
      view := P.Settle(view, call.key, call.id, OutcomeView(r)).(cache := view.cache);
      assert forall i :: 0 <= i < |calls| && i != call.id ==> calls[i] != call;
      forall i | 0 <= i < |calls| ensures CallValid(calls[i], view.calls[i]) {
        assert old(CallValid(calls[i], view.calls[i]));
      }
    }

    /** A registered call is open. */
    lemma OpenCall(key: P.Key, call: Inflight)
      requires Valid() && P.Registered(view) && call.id < |calls| && calls[call.id] == call
      requires key in view.inflight && view.inflight[key] == call.id
      ensures call.key == key && !call.done && call in Repr
    {
      assert CallValid(calls[call.id], view.calls[call.id]);
    }

    /** A waiter whose channel is closed reads the outcome its leader left in the call. */
    method Await(call: Inflight) returns (r: Outcome)
      requires Valid() && call.id < |calls| && calls[call.id] == call && call.outcome.Some?
      ensures call.outcome == Some(r) && Some(OutcomeView(r)) == view.calls[call.id].outcome
      ensures r.Loaded? ==> r.entry.accountIDs in Repr
    {
      assert CallValid(calls[call.id], view.calls[call.id]);
      r := call.outcome.value;
    }

    /**
     The start of `GetRoutingPolicy`: the policy the mode alone decides, and what to do next.
     Without queries, tenant or group the bare policy is the answer.
     */
    method Begin(req: Request, now: int) returns (policy: Policy, d: Option<Decision>)
      requires Valid()
      modifies this
      ensures Valid() && fresh(policy) && fresh(Repr - old(Repr)) && policy !in Repr
      ensures policy.Arrays() == {} && policy.Value() == BasePolicy(ModeOf(req.selectionMode))
      ensures d == None <==> !hasQueries || req.tenantID == 0 || req.poolGroupID == 0
      ensures d == None ==> view == old(view)
      ensures d.Some? ==> view == P.Register(old(view), now, KeyOf(req)) && Decided(old(view), now, KeyOf(req), d.value)
      ensures var key := P.Key(req.tenantID, req.poolGroupID, req.requestedModel);
        d.Some? && d.value.UseCached? ==>
          && key in old(view).cache && EntryView(d.value.entry) == old(view).cache[key]
          && now < d.value.entry.expiresAt
      ensures old(Repr) <= Repr && (d.Some? && d.value.Lead? ==> fresh(d.value.call))
    {
      policy := new Policy(ModeOf(req.selectionMode));
      assert Valid();
      if !hasQueries || req.tenantID == 0 || req.poolGroupID == 0 {
        return policy, None;
      }
      var decision := Enter(KeyOf(req), now);
      d := Some(decision);
    }

    /**
     The end of `GetRoutingPolicy`: a failed load gives no policy; otherwise the policy is
     filled. All its arrays are new, so none of them belongs to the source or to a load that is
     still to be published; and the source does not change.
     */
    method Deliver(policy: Policy, r: Outcome) returns (ok: bool)
      requires Valid() && policy !in Repr && policy as object != this
      requires policy.Arrays() == {}
      requires r.Loaded? ==> r.entry.accountIDs in Repr
      modifies policy
      ensures Valid() && view == old(view)
      ensures ok <==> r.Loaded?
      ensures ok ==> policy.Value() == WithConfig(old(policy.Value()), EntryView(r.entry).config)
      ensures fresh(policy.Arrays()) && policy.Arrays() !! Repr
    {
      if r.Failed? {
        return false;
      }
      ApplyFallback(policy, r.entry);
      ok := true;
    }

    /** Whatever a caller writes into a policy it was given, the source stays what it was. */
    method TamperWithAnswer(policy: Policy, model: string, i: nat, value: int)
      requires Valid() && policy.Arrays() !! Repr
      requires model in policy.modelAccountIDs && i < policy.modelAccountIDs[model].Length
      modifies policy.modelAccountIDs[model]
      ensures Valid() && view == old(view)
      ensures policy.modelAccountIDs[model][i] == value
    {
      var ids := policy.modelAccountIDs[model];
      assert ids in policy.Arrays();
      ids[i] := value;
      assert forall k :: k in cache ==> EntryView(cache[k]) == old(EntryView(cache[k]));
      forall c | 0 <= c < |calls| ensures CallValid(calls[c], view.calls[c]) {
        assert old(CallValid(calls[c], view.calls[c]));
      }
    }
  }

  /** The policy a request gets without cache and sharing: the bare one, filled from a direct lookup. */
  function DirectPolicy(s: Flags, req: Request, found: Result<P.Config>): Result<PolicyValue> {
    var base := BasePolicy(ModeOf(req.selectionMode));
    if !s.hasQueries || req.tenantID == 0 || req.poolGroupID == 0 then Ok(base)
    else
      match found
      case Ok(config) => Ok(WithConfig(base, config))
      case Err(error) => Err(error)
  }

  /** What a source was built with. */
  datatype Flags = Flags(hasQueries: bool, readsRoutes: bool)

  /** The rows read, as values. */
  predicate SameRows(routes: RouteRead<array<int>>, rows: RouteRead<seq<int>>)
    reads if routes.RouteRows? then set i | 0 <= i < |routes.rows| :: routes.rows[i] else {}
  {
    match routes
    case RouteError(error) => rows == RouteError(error)
    case RouteRows(arrays) =>
      rows.RouteRows? && |rows.rows| == |arrays| && forall i :: 0 <= i < |arrays| ==> rows.rows[i] == arrays[i][..]
  }

  /**
   `GetRoutingPolicy` from its start to its end, over any state of the cache. A hit is handed
   out; a leader loads and publishes; a waiter is released when the leader, whose load and
   publication are those of another goroutine, has closed the call. Whichever way it goes, the
   request gets the policy of a direct lookup, in arrays of its own: its mode from the request,
   the waits of the pool and, for a named model, the accounts of the one route there may be.
   */
  method Serve(s: Source, req: Request, now: int, pool: PoolRead, routes: RouteRead<array<int>>,
               ghost rows: RouteRead<seq<int>>, clock: int, ghost db: P.Key -> Result<P.Config>)
    returns (policy: Policy, ok: bool)
    requires s.Valid() && P.Registered(s.view) && P.CacheTrue(db, s.view)
    requires SameRows(routes, rows)
    requires var key := P.Key(req.tenantID, req.poolGroupID, req.requestedModel);
      db(key) == Lookup(s.readsRoutes, key, pool, rows)
    modifies s, s.Repr
    ensures s.Valid() && P.Registered(s.view) && P.CacheTrue(db, s.view)
    ensures var direct := DirectPolicy(Flags(s.hasQueries, s.readsRoutes), req, db(KeyOf(req)));
      (ok <==> direct.Ok?) && (ok ==> policy.Value() == direct.value)
    ensures Routed(s.readsRoutes, req) && Asks(s.hasQueries, req) ==>
      (ok <==> pool.PoolRow? && rows.RouteRows? && |rows.rows| <= 1)
    ensures !Routed(s.readsRoutes, req) && Asks(s.hasQueries, req) ==> (ok <==> pool.PoolRow?)
    ensures !Asks(s.hasQueries, req) ==> ok
    ensures ok ==> policy.Value() == PolicyValue(
      if req.selectionMode == "priority_weighted" then PriorityWeighted
      else if req.selectionMode == "fill_first" then FillFirst else StrictPriority,
      req.selectionMode == "priority_weighted",
      if req.selectionMode == "priority_weighted" then "adaptive-v1" else "",
      if Asks(s.hasQueries, req) then pool.waits else NoWaits,
      if Asks(s.hasQueries, req) && Routed(s.readsRoutes, req) && rows.rows != [] && rows.rows[0] != []
      then map[req.requestedModel := rows.rows[0]] else map[])
    ensures fresh(policy) && fresh(policy.Arrays()) && policy.Arrays() !! s.Repr
  {
    ghost var before := s.view;
    var d;
    policy, d := Start(s, req, now, db);
    ok := true;
    if d.Some? {
      ok := Fill(s, policy, d.value, KeyOf(req), before, now, pool, routes, rows, clock, db);
    }
  }

  /** The request is answered from the database, not by the bare policy. */
  predicate Asks(hasQueries: bool, req: Request) {
    hasQueries && req.tenantID != 0 && req.poolGroupID != 0
  }

  /** The route of the model is read, too. */
  predicate Routed(readsRoutes: bool, req: Request) {
    readsRoutes && req.requestedModel != ""
  }

  /** The first critical section keeps the cache true. */
  method Start(s: Source, req: Request, now: int, ghost db: P.Key -> Result<P.Config>)
    returns (policy: Policy, d: Option<Decision>)
    requires s.Valid() && P.Registered(s.view) && P.CacheTrue(db, s.view)
    modifies s
    ensures s.Valid() && P.Registered(s.view) && P.CacheTrue(db, s.view)
    ensures fresh(policy) && policy !in s.Repr && policy.Arrays() == {}
    ensures policy.Value() == BasePolicy(ModeOf(req.selectionMode))
    ensures d == None <==> !s.hasQueries || req.tenantID == 0 || req.poolGroupID == 0
    ensures d.Some? ==>
      s.view == P.Register(old(s.view), now, KeyOf(req)) && s.Decided(old(s.view), now, KeyOf(req), d.value)
    ensures d.Some? && !d.value.UseCached? ==> d.value.call in old(s.Repr) || fresh(d.value.call)
  {
    P.SharedSteps(db, s.view, now, KeyOf(req), 0, P.Failed(""));
    policy, d := s.Begin(req, now);
  }

  /** What follows the first critical section, up to the end. */
  method Fill(s: Source, policy: Policy, d: Decision, key: P.Key, ghost before: P.Shared, ghost now: int,
              pool: PoolRead, routes: RouteRead<array<int>>, ghost rows: RouteRead<seq<int>>, clock: int,
              ghost db: P.Key -> Result<P.Config>)
    returns (ok: bool)
    requires s.Valid() && s.Decided(before, now, key, d) && P.CacheTrue(db, before)
    requires s.view == P.Register(before, now, key) && P.Registered(s.view) && P.CacheTrue(db, s.view)
    requires SameRows(routes, rows) && db(key) == Lookup(s.readsRoutes, key, pool, rows)
    requires policy !in s.Repr && policy as object != s && policy.Arrays() == {}
    modifies s, policy, if d.UseCached? then {} else {d.call}
    ensures s.Valid() && P.Registered(s.view) && P.CacheTrue(db, s.view)
    ensures (ok <==> db(key).Ok?) && (ok ==> policy.Value() == WithConfig(old(policy.Value()), db(key).value))
    ensures fresh(policy.Arrays()) && policy.Arrays() !! s.Repr
  {
    var r := Obtain(s, d, key, before, now, pool, routes, rows, clock, db);
    ok := s.Deliver(policy, r);
  }

  /** What follows the first critical section, up to the outcome of the load. */
  method Obtain(s: Source, d: Decision, key: P.Key, ghost before: P.Shared, ghost now: int, pool: PoolRead,
                routes: RouteRead<array<int>>, ghost rows: RouteRead<seq<int>>, clock: int,
                ghost db: P.Key -> Result<P.Config>)
    returns (r: Outcome)
    requires s.Valid() && s.Decided(before, now, key, d) && P.CacheTrue(db, before)
    requires s.view == P.Register(before, now, key) && P.Registered(s.view) && P.CacheTrue(db, s.view)
    requires SameRows(routes, rows) && db(key) == Lookup(s.readsRoutes, key, pool, rows)
    modifies s, if d.UseCached? then {} else {d.call}
    ensures s.Valid() && P.Registered(s.view) && P.CacheTrue(db, s.view)
    ensures P.Content(OutcomeView(r)) == db(key) && (r.Loaded? ==> r.entry.accountIDs in s.Repr)
    ensures old(s.Repr) <= s.Repr && fresh(s.Repr - old(s.Repr))
  {
    if d.UseCached? {
      return Loaded(d.entry);
    }
    r := LoadAndPublish(s, d.call, key, pool, routes, rows, clock, db);
  }

  /** The leader's part of a call: the load, the second critical section, and the outcome as its waiters read it. */
  method LoadAndPublish(s: Source, call: Inflight, key: P.Key, pool: PoolRead, routes: RouteRead<array<int>>,
                        ghost rows: RouteRead<seq<int>>, clock: int, ghost db: P.Key -> Result<P.Config>)
    returns (r: Outcome)
    requires s.Valid() && P.Registered(s.view) && P.CacheTrue(db, s.view)
    requires call.id < |s.calls| && s.calls[call.id] == call
    requires key in s.view.inflight && s.view.inflight[key] == call.id
    requires SameRows(routes, rows) && db(key) == Lookup(s.readsRoutes, key, pool, rows)
    modifies s, call
    ensures s.Valid() && P.Registered(s.view) && P.CacheTrue(db, s.view)
    ensures P.Content(OutcomeView(r)) == db(key) && (r.Loaded? ==> r.entry.accountIDs in s.Repr)
    ensures old(s.Repr) <= s.Repr && fresh(s.Repr - old(s.Repr))
  {
    var loaded := s.Load(key, pool, routes, rows, clock);
    PublishTrue(s, call, key, loaded, db);
    r := s.Await(call);
  }

  method PublishTrue(s: Source, call: Inflight, key: P.Key, loaded: Outcome, ghost db: P.Key -> Result<P.Config>)
    requires s.Valid() && P.Registered(s.view) && P.CacheTrue(db, s.view)
    requires call.id < |s.calls| && s.calls[call.id] == call
    requires key in s.view.inflight && s.view.inflight[key] == call.id
    requires P.Content(OutcomeView(loaded)) == db(key) && (loaded.Loaded? ==> loaded.entry.accountIDs !in s.Repr)
    modifies s, call
    ensures s.Valid() && P.Registered(s.view) && P.CacheTrue(db, s.view)
    ensures call.id < |s.calls| && s.calls[call.id] == call && call.outcome == Some(loaded)
    ensures s.Repr == old(s.Repr) + if loaded.Loaded? then {loaded.entry.accountIDs} else {}
    ensures OutcomeView(loaded) == old(OutcomeView(loaded))
  {
    s.OpenCall(key, call);
    P.SharedSteps(db, s.view, 0, key, call.id, OutcomeView(loaded));
    s.Publish(call, loaded);
  }

  /**
   A load that was finished before a policy was delivered and is published after it does not
   touch that policy either: what was handed out stays apart from all the source will hold.
   */
  method DeliverWhilePending(s: Source, policy: Policy, hit: Entry, call: Inflight, pending: Outcome)
    requires s.Valid() && policy !in s.Repr && policy as object != s && policy.Arrays() == {}
    requires hit.accountIDs in s.Repr
    requires call.id < |s.calls| && s.calls[call.id] == call && !call.done
    requires pending.Loaded? ==> pending.entry.accountIDs !in s.Repr
    modifies s, call, policy
    ensures s.Valid() && policy.Arrays() !! s.Repr
    ensures s.view == P.Settle(old(s.view), call.key, call.id, old(OutcomeView(pending)))
    ensures policy.Value() == WithConfig(old(policy.Value()), old(EntryView(hit).config))
  {
    var ok := s.Deliver(policy, Loaded(hit));
    s.Publish(call, pending);
  }

  /** `applyRoutingPolicyFallback`: the account list the caller gets is a fresh copy. */
  method ApplyFallback(policy: Policy, entry: Entry)
    requires policy.Arrays() == {}
    modifies policy
    ensures policy.Value() == WithConfig(old(policy.Value()), EntryView(entry).config)
    ensures fresh(policy.Arrays())
  {
    policy.waits := entry.waits;
    if entry.requestedModel != "" && entry.accountIDs.Length > 0 {
      var ids := Copy(entry.accountIDs);
      assert entry.accountIDs[..] != [];
      policy.SetRoute(entry.requestedModel, ids);
    }
  }

  /** `append([]int64(nil), a...)` */
  method Copy(a: array<int>) returns (b: array<int>)
    ensures fresh(b) && b[..] == a[..]
  {
    b := new int[a.Length];
    for i := 0 to a.Length
      invariant forall j :: 0 <= j < i ==> b[j] == a[j]
    {
      b[i] := a[i];
    }
  }
}
