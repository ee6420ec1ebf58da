/**
 `executor.runParallel`: one sender, an unbuffered channel and a bounded number of workers that
 fill one results array, while the batch context may be cancelled at any moment. A send and the
 receive it meets are one step; so is the check of the context, and so is each write.
 */
module WorkerPool {
  import opened Options

  /** A slot of the results array. */
  datatype Slot<O> = Refreshed(id: int, outcome: O) | Cancelled(id: int)

  datatype Worker = Idle | Took(index: nat) | Refreshing(index: nat) | Exited

  /** `received`, `started` and `writes` are history. */
  datatype State<O> = State(
    next: nat, closed: bool, cancelled: bool, workers: seq<Worker>, results: seq<Option<Slot<O>>>,
    received: seq<nat>, started: seq<nat>, writes: seq<nat>)

  datatype Event<O> = Handoff(w: nat) | Close | Check(w: nat) | Finish(w: nat, outcome: O) | Exit(w: nat) | Cancel

  /** The pool is never larger than the batch, and never empty. */
  function WorkerCount(wanted: int, jobs: nat): (workers: nat)
    ensures 1 <= workers && (workers <= jobs || workers == 1) && (workers <= wanted || workers == 1)
    ensures workers >= jobs || workers >= wanted
  {
    var workers := if wanted > jobs then jobs else wanted;
    if workers < 1 then 1 else workers
  }

  function Begin<O>(ids: seq<int>, wanted: int): State<O> {
    State(0, false, false, seq(WorkerCount(wanted, |ids|), _ => Idle),
          seq(|ids|, _ => None), [], [], seq(|ids|, _ => 0))
  }

  predicate Enabled<O>(ids: seq<int>, s: State<O>, e: Event<O>) {
    match e
    case Handoff(w) => w < |s.workers| && s.workers[w] == Idle && s.next < |ids|
    case Close => s.next >= |ids| && !s.closed
    case Check(w) => w < |s.workers| && s.workers[w].Took? && InRange(ids, s, s.workers[w].index)
    case Finish(w, _) => w < |s.workers| && s.workers[w].Refreshing? && InRange(ids, s, s.workers[w].index)
    case Exit(w) => w < |s.workers| && s.workers[w] == Idle && s.closed
    case Cancel => !s.cancelled
  }

  predicate InRange<O>(ids: seq<int>, s: State<O>, i: nat) {
    i < |ids| && i < |s.results| && i < |s.writes|
  }

  function Write<O>(s: State<O>, w: nat, i: nat, slot: Slot<O>): State<O>
    requires w < |s.workers| && i < |s.results| && i < |s.writes|
  {
    s.(workers := s.workers[w := Idle], results := s.results[i := Some(slot)], writes := s.writes[i := s.writes[i] + 1])
  }

  function Apply<O>(ids: seq<int>, s: State<O>, e: Event<O>): State<O>
    requires Enabled(ids, s, e)
  {
    match e
    case Handoff(w) =>
      s.(next := s.next + 1, workers := s.workers[w := Took(s.next)], received := s.received + [s.next])
    case Close => s.(closed := true)
    case Check(w) =>
      var i := s.workers[w].index;
      if s.cancelled then Write(s, w, i, Slot.Cancelled(ids[i]))
      else s.(workers := s.workers[w := Refreshing(i)], started := s.started + [i])
    case Finish(w, outcome) =>
      var i := s.workers[w].index;
      Write(s, w, i, Refreshed(ids[i], outcome))
    case Exit(w) => s.(workers := s.workers[w := Exited])
    case Cancel => s.(cancelled := true)
  }

  function Exec<O>(ids: seq<int>, wanted: int, es: seq<Event<O>>): Option<State<O>> {
    if es == [] then Some(Begin(ids, wanted))
    else
      match Exec(ids, wanted, es[..|es| - 1])
      case None => None
      case Some(s) =>
        var e := es[|es| - 1];
        if Enabled(ids, s, e) then Some(Apply(ids, s, e)) else None
  }

  /** `wg.Wait()` returns. */
  predicate Finished<O>(s: State<O>) {
    s.closed && forall w :: 0 <= w < |s.workers| ==> s.workers[w] == Exited
  }

  // -------------------------------------------------------------- every index once

  predicate Holds<O>(s: State<O>, w: nat, i: nat) {
    w < |s.workers| && (s.workers[w].Took? || s.workers[w].Refreshing?) && s.workers[w].index == i
  }

  /** An index is unsent, in the hands of exactly one worker, or written once under its own id. */
  ghost predicate IndexOk<O>(ids: seq<int>, s: State<O>, i: nat)
    requires |s.results| == |s.writes| == |ids| && i < |ids|
  {
    && (i >= s.next ==> s.results[i] == None)
    && (s.results[i] == None ==> s.writes[i] == 0)
    && (s.results[i].Some? ==> s.writes[i] == 1 && s.results[i].value.id == ids[i])
    && (forall w :: Holds(s, w, i) ==> i < s.next && s.results[i] == None)
    && (i < s.next && s.results[i] == None ==> exists w :: Holds(s, w, i))
    && (forall v, w :: Holds(s, v, i) && Holds(s, w, i) ==> v == w)
  }

  /**
   Whoever refreshes was started, and only what was started has a refresh as its result. What
   a worker has merely taken was not started; what was started is written or being refreshed.
   */
  ghost predicate StartedOk<O>(s: State<O>) {
    && (forall w :: 0 <= w < |s.workers| && s.workers[w].Refreshing? ==> s.workers[w].index in s.started)
    && (forall w :: 0 <= w < |s.workers| && s.workers[w].Took? ==> s.workers[w].index !in s.started)
    && (forall i :: 0 <= i < |s.results| && s.results[i].Some? && s.results[i].value.Refreshed? ==> i in s.started)
    && (forall i :: i in s.started ==> i < s.next)
    && (forall i :: InFlight(s, i) ==> BeingRefreshed(s.workers, i))
  }

  /** A refresh that was started and has not been written. */
  predicate InFlight<O>(s: State<O>, i: nat) {
    i in s.started && i < |s.results| && s.results[i] == None
  }

  predicate BeingRefreshed(workers: seq<Worker>, i: nat) {
    exists w :: 0 <= w < |workers| && workers[w] == Refreshing(i)
  }

  /** The sizes, the queue, and what the workers are doing. */
  ghost predicate ShapeOk<O>(ids: seq<int>, wanted: int, s: State<O>) {
    && |s.results| == |s.writes| == |ids|
    && |s.workers| == WorkerCount(wanted, |ids|)
    && s.next <= |ids| && (s.closed ==> s.next == |ids|)
    && (forall w :: 0 <= w < |s.workers| && s.workers[w] == Exited ==> s.closed)
    && (forall w :: 0 <= w < |s.workers| && (s.workers[w].Took? || s.workers[w].Refreshing?) ==>
          s.workers[w].index < s.next)
    && s.received == seq(s.next, i => i)
  }

  ghost predicate PoolInv<O>(ids: seq<int>, wanted: int, s: State<O>) {
    ShapeOk(ids, wanted, s) && StartedOk(s) && forall i: nat :: i < |ids| ==> IndexOk(ids, s, i)
  }

  lemma ShapeStep<O>(ids: seq<int>, wanted: int, s: State<O>, e: Event<O>)
    requires ShapeOk(ids, wanted, s) && Enabled(ids, s, e)
    ensures ShapeOk(ids, wanted, Apply(ids, s, e))
  {
  }

  lemma StartedStep<O>(ids: seq<int>, wanted: int, s: State<O>, e: Event<O>)
    requires PoolInv(ids, wanted, s) && Enabled(ids, s, e)
    ensures StartedOk(Apply(ids, s, e))
  {
    var t := Apply(ids, s, e);
    forall i | InFlight(t, i) ensures BeingRefreshed(t.workers, i) {
      if InFlight(s, i) {
        var w :| 0 <= w < |s.workers| && s.workers[w] == Refreshing(i);
        assert t.workers[w] == Refreshing(i);
      } else {
        assert t.workers[e.w] == Refreshing(i);
      }
    }
    if e.Check? && !s.cancelled {
      forall w | 0 <= w < |t.workers| && t.workers[w].Took? ensures t.workers[w].index !in t.started {
        assert IndexOk(ids, s, s.workers[e.w].index);
        assert Holds(s, e.w, s.workers[e.w].index) && Holds(s, w, t.workers[w].index);
      }
    }
  }

  lemma IndexStep<O>(ids: seq<int>, s: State<O>, e: Event<O>, i: nat)
    requires |s.results| == |s.writes| == |ids| && i < |ids| && IndexOk(ids, s, i) && Enabled(ids, s, e)
    ensures IndexOk(ids, Apply(ids, s, e), i)
  {
    var t := Apply(ids, s, e);
    if !e.Close? && !e.Cancel? {
      assert forall w :: w != e.w ==> (Holds(t, w, i) <==> Holds(s, w, i));
      if e.Handoff? && s.next == i { assert Holds(t, e.w, i); }
      if e.Check? || e.Finish? {
        assert Holds(s, e.w, s.workers[e.w].index);
      }
      if i < t.next && t.results[i] == None && i < s.next {
        var w :| Holds(s, w, i);
        assert Holds(t, w, i);
      }
    } else {
      assert forall w :: Holds(t, w, i) <==> Holds(s, w, i);
    }
  }

  lemma {:induction false} PoolHolds<O>(ids: seq<int>, wanted: int, es: seq<Event<O>>)
    requires Exec(ids, wanted, es).Some?
    ensures PoolInv(ids, wanted, Exec(ids, wanted, es).value)
  {
    if es != [] {
      PoolHolds(ids, wanted, es[..|es| - 1]);
      var s, e := Exec(ids, wanted, es[..|es| - 1]).value, es[|es| - 1];
      ShapeStep(ids, wanted, s, e);
      StartedStep(ids, wanted, s, e);
      forall i: nat | i < |ids| ensures IndexOk(ids, Apply(ids, s, e), i) { IndexStep(ids, s, e, i); }
    }
  }

  /**
   In every interleaving each index is received once and in order, every slot is written at
   most once and under the id of its own index, no index is worked on by two workers, and
   never more workers exist than min(wanted, jobs), at least one.
   */
  lemma EachIndexOnce<O>(ids: seq<int>, wanted: int, es: seq<Event<O>>)
    requires Exec(ids, wanted, es).Some?
    ensures var s := Exec(ids, wanted, es).value;
      && s.received == seq(s.next, i => i) && s.next <= |ids|
      && |s.results| == |s.writes| == |ids|
      && (forall i :: 0 <= i < |ids| ==> s.writes[i] == if s.results[i].Some? then 1 else 0)
      && (forall i :: 0 <= i < |ids| && s.results[i].Some? ==> s.results[i].value.id == ids[i])
      && (forall i :: 0 <= i < |ids| && s.results[i].Some? && s.results[i].value.Refreshed? ==> i in s.started)
      && (forall i, v, w :: Holds(s, v, i) && Holds(s, w, i) ==> v == w)
      && |s.workers| <= (if wanted < 1 || ids == [] then 1 else if wanted < |ids| then wanted else |ids|)
  {
    PoolHolds(ids, wanted, es);
    var s := Exec(ids, wanted, es).value;
    forall i: nat | i < |ids|
      ensures s.writes[i] == if s.results[i].Some? then 1 else 0
      ensures s.results[i].Some? ==> s.results[i].value.id == ids[i]
    {
      assert IndexOk(ids, s, i);
    }
    forall i: nat, v, w | Holds(s, v, i) && Holds(s, w, i) ensures v == w {
      assert IndexOk(ids, s, i);
    }
  }

  /** When the pool is done every slot is written, and a slot holds a refresh or a cancellation. */
  lemma FinishedIsComplete<O>(ids: seq<int>, wanted: int, es: seq<Event<O>>)
    requires Exec(ids, wanted, es).Some? && Finished(Exec(ids, wanted, es).value)
    ensures var s := Exec(ids, wanted, es).value;
      |s.results| == |ids| && forall i :: 0 <= i < |ids| ==> s.results[i].Some? && s.results[i].value.id == ids[i]
  {
    PoolHolds(ids, wanted, es);
    var s := Exec(ids, wanted, es).value;
    forall i: nat | i < |ids| ensures s.results[i].Some? && s.results[i].value.id == ids[i] {
      assert IndexOk(ids, s, i);
    }
  }

  // ------------------------------------------------------------------ termination

  function Weight(w: Worker): nat {
    match w
    case Took(_) => 3
    case Refreshing(_) => 2
    case Idle => 1
    case Exited => 0
  }

  function Weights(ws: seq<Worker>): nat {
    if ws == [] then 0 else Weights(ws[..|ws| - 1]) + Weight(ws[|ws| - 1])
  }

  lemma {:induction false} WeightsUpdate(ws: seq<Worker>, i: nat, w: Worker)
    requires i < |ws|
    ensures Weights(ws[i := w]) == Weights(ws) - Weight(ws[i]) + Weight(w)
  {
    if i < |ws| - 1 {
      WeightsUpdate(ws[..|ws| - 1], i, w);
      assert ws[i := w][..|ws| - 1] == ws[..|ws| - 1][i := w];
    } else {
      assert ws[i := w][..|ws| - 1] == ws[..|ws| - 1];
    }
  }

  lemma {:induction false} IdleWeights(n: nat)
    ensures Weights(seq(n, _ => Idle)) == n
  {
    if n > 0 {
      IdleWeights(n - 1);
      assert seq(n, _ => Idle)[..n - 1] == seq(n - 1, _ => Idle);
    }
  }

  /** An upper bound on the number of steps still to come. */
  function StepsLeft<O>(ids: seq<int>, s: State<O>): int {
    3 * (|ids| - s.next) + Weights(s.workers) + (if s.closed then 0 else 1) + (if s.cancelled then 0 else 1)
  }

  lemma EveryStepCounts<O>(ids: seq<int>, s: State<O>, e: Event<O>)
    requires Enabled(ids, s, e)
    ensures StepsLeft(ids, Apply(ids, s, e)) < StepsLeft(ids, s)
  {
    match e
    case Handoff(w) => WeightsUpdate(s.workers, w, Took(s.next));
    case Check(w) =>
      WeightsUpdate(s.workers, w, Idle);
      WeightsUpdate(s.workers, w, Refreshing(s.workers[w].index));
    case Finish(w, _) => WeightsUpdate(s.workers, w, Idle);
    case Exit(w) => WeightsUpdate(s.workers, w, Exited);
    case Close =>
    case Cancel =>
  }

  lemma {:induction false} StepsBound<O>(ids: seq<int>, wanted: int, es: seq<Event<O>>)
    requires Exec(ids, wanted, es).Some?
    ensures |es| + StepsLeft(ids, Exec(ids, wanted, es).value) <= 3 * |ids| + WorkerCount(wanted, |ids|) + 2
  {
    if es == [] {
      IdleWeights(WorkerCount(wanted, |ids|));
      assert Begin<O>(ids, wanted).workers == seq(WorkerCount(wanted, |ids|), _ => Idle);
    } else {
      StepsBound(ids, wanted, es[..|es| - 1]);
      EveryStepCounts(ids, Exec(ids, wanted, es[..|es| - 1]).value, es[|es| - 1]);
    }
  }

  /**
   The pool always ends: no schedule is longer than three steps per job, one per worker and
   two, and as long as the pool is not done some step other than a cancellation is possible.
   */
  lemma PoolTerminates<O>(ids: seq<int>, wanted: int, es: seq<Event<O>>, outcome: O)
    requires Exec(ids, wanted, es).Some?
    ensures |es| <= 3 * |ids| + WorkerCount(wanted, |ids|) + 2
    ensures Finished(Exec(ids, wanted, es).value) ||
      exists e: Event<O> :: e != Cancel && Enabled(ids, Exec(ids, wanted, es).value, e)
  {
    StepsBound(ids, wanted, es);
    PoolHolds(ids, wanted, es);
    var s := Exec(ids, wanted, es).value;
    if !Finished(s) {
      if !s.closed && s.next >= |ids| {
        assert Enabled(ids, s, Event.Close);
      } else {
        var w := if s.closed then Unfinished(s) else 0;
        var e: Event<O> := match s.workers[w]
          case Idle => if s.closed then Exit(w) else Handoff(w)
          case Took(_) => Check(w)
          case Refreshing(_) => Finish(w, outcome)
          case Exited => Event.Close;
        assert Enabled(ids, s, e);
      }
    }
  }

  ghost function Unfinished<O>(s: State<O>): (w: nat)
    requires s.closed && !Finished(s)
    ensures w < |s.workers| && s.workers[w] != Exited
  {
    var w: nat :| w < |s.workers| && s.workers[w] != Exited;
    w
  }

  // ------------------------------------------------------------------ the outcome

  /**
   A refresh that ends while the batch is not cancelled ends the way it would end alone. One
   that is still running when the batch context ends is handed the end of it, and may answer
   anything.
   */
  ghost predicate Answers<O>(ids: seq<int>, wanted: int, refresh: int -> O, es: seq<Event<O>>) {
    forall n :: 0 <= n < |es| && es[n].Finish? && Exec(ids, wanted, es[..n]).Some? ==>
      var s := Exec(ids, wanted, es[..n]).value;
      Enabled(ids, s, es[n]) && !s.cancelled ==> es[n].outcome == refresh(ids[s.workers[es[n].w].index])
  }

  /** What the sequential loop computes. */
  function Sequential<O>(ids: seq<int>, refresh: int -> O): seq<Slot<O>> {
    seq(|ids|, i requires 0 <= i < |ids| => Refreshed(ids[i], refresh(ids[i])))
  }

  /** Nothing is written so far but what the sequential loop would write. */
  ghost predicate SlotsTrue<O>(refresh: int -> O, ids: seq<int>, s: State<O>) {
    && |s.results| == |ids|
    && forall i :: 0 <= i < |ids| && s.results[i].Some? ==> s.results[i].value == Sequential(ids, refresh)[i]
  }

  lemma {:induction false} SlotsHold<O>(ids: seq<int>, wanted: int, refresh: int -> O, es: seq<Event<O>>)
    requires Exec(ids, wanted, es).Some? && Answers(ids, wanted, refresh, es)
    ensures !Exec(ids, wanted, es).value.cancelled ==> SlotsTrue(refresh, ids, Exec(ids, wanted, es).value)
  {
    if es != [] {
      var front := es[..|es| - 1];
      AnswersPrefix(ids, wanted, refresh, es, |es| - 1);
      SlotsHold(ids, wanted, refresh, front);
      var s, e := Exec(ids, wanted, front).value, es[|es| - 1];
      if !Apply(ids, s, e).cancelled { SlotsStep(refresh, ids, s, e); }
    }
  }

  lemma AnswersPrefix<O>(ids: seq<int>, wanted: int, refresh: int -> O, es: seq<Event<O>>, n: nat)
    requires n <= |es| && Answers(ids, wanted, refresh, es)
    ensures Answers(ids, wanted, refresh, es[..n])
  {
    assert forall k :: 0 <= k < n ==> es[..n][..k] == es[..k] && es[..n][k] == es[k];
  }

  lemma SlotsStep<O>(refresh: int -> O, ids: seq<int>, s: State<O>, e: Event<O>)
    requires SlotsTrue(refresh, ids, s) && Enabled(ids, s, e) && !s.cancelled
    requires e.Finish? ==> e.outcome == refresh(ids[s.workers[e.w].index])
    ensures SlotsTrue(refresh, ids, Apply(ids, s, e))
  {
  }

  lemma CancelsOnly<O>(ids: seq<int>, s: State<O>, e: Event<O>)
    requires Enabled(ids, s, e)
    ensures Apply(ids, s, e).cancelled <==> s.cancelled || e == Event.Cancel
  {
  }

  lemma {:induction false} CancelledByCancel<O>(ids: seq<int>, wanted: int, es: seq<Event<O>>)
    requires Exec(ids, wanted, es).Some?
    ensures Exec(ids, wanted, es).value.cancelled <==> Event.Cancel in es
  {
    if es != [] {
      var front, last := es[..|es| - 1], es[|es| - 1];
      assert es == front + [last];
      CancelledByCancel(ids, wanted, front);
      CancelsOnly(ids, Exec(ids, wanted, front).value, last);
    }
  }

  // ------------------------------------------------------------- after a cancellation

  /** From the cancellation on no further refresh is started. */
  lemma {:induction false} CancelStopsRefreshes<O>(ids: seq<int>, wanted: int, before: seq<Event<O>>,
                                                   after: seq<Event<O>>)
    requires Exec(ids, wanted, before + after).Some?
    requires Exec(ids, wanted, before).Some? && Exec(ids, wanted, before).value.cancelled
    ensures var s, t := Exec(ids, wanted, before).value, Exec(ids, wanted, before + after).value;
      t.cancelled && t.started == s.started
  {
    if after == [] {
      assert before + after == before;
    } else {
      assert (before + after)[..|before + after| - 1] == before + after[..|after| - 1];
      CancelStopsRefreshes(ids, wanted, before, after[..|after| - 1]);
    }
  }

  /** What became of a slot since: kept, refreshed if its refresh was running, else cancelled. */
  ghost predicate SlotSince<O>(ids: seq<int>, s: State<O>, t: State<O>, i: nat)
    requires i < |ids| && |s.results| == |t.results| == |ids|
  {
    if s.results[i].Some? then t.results[i] == s.results[i]
    else t.results[i].Some? ==>
      if InFlight(s, i) then t.results[i].value.Refreshed? && t.results[i].value.id == ids[i]
      else t.results[i].value == Slot.Cancelled(ids[i])
  }

  lemma SinceStep<O>(ids: seq<int>, wanted: int, s: State<O>, t: State<O>, e: Event<O>, i: nat)
    requires |s.results| == |ids| && i < |ids| && PoolInv(ids, wanted, t) && SlotSince(ids, s, t, i)
    requires t.cancelled && t.started == s.started && Enabled(ids, t, e)
    ensures SlotSince(ids, s, Apply(ids, t, e), i)
  {
    if (e.Check? || e.Finish?) && t.workers[e.w].index == i {
      assert IndexOk(ids, t, i) && Holds(t, e.w, i);
    }
  }

  lemma {:induction false} SinceCancel<O>(ids: seq<int>, wanted: int, before: seq<Event<O>>, after: seq<Event<O>>,
                                           i: nat)
    requires Exec(ids, wanted, before + after).Some? && i < |ids|
    requires Exec(ids, wanted, before).Some? && Exec(ids, wanted, before).value.cancelled
    ensures var s, t := Exec(ids, wanted, before).value, Exec(ids, wanted, before + after).value;
      |s.results| == |t.results| == |ids| && SlotSince(ids, s, t, i)
  {
    PoolHolds(ids, wanted, before);
    if after == [] {
      assert before + after == before;
    } else {
      var front := after[..|after| - 1];
      assert (before + after)[..|before + after| - 1] == before + front;
      SinceCancel(ids, wanted, before, front, i);
      CancelStopsRefreshes(ids, wanted, before, front);
      PoolHolds(ids, wanted, before + front);
      SinceStep(ids, wanted, Exec(ids, wanted, before).value, Exec(ids, wanted, before + front).value,
                after[|after| - 1], i);
    }
  }

  lemma {:induction false} PrefixRuns<O>(ids: seq<int>, wanted: int, es: seq<Event<O>>, n: nat)
    requires Exec(ids, wanted, es).Some? && n <= |es|
    ensures Exec(ids, wanted, es[..n]).Some?
    decreases |es|
  {
    if n == |es| {
      assert es[..n] == es;
    } else {
      PrefixRuns(ids, wanted, es[..|es| - 1], n);
      assert es[..|es| - 1][..n] == es[..n];
    }
  }

  /**
   What a cancelled batch ends with: an item written before the cancellation is what the
   sequential loop computes, one that was being refreshed at that moment has whatever its
   refresh answered, and every other is marked cancelled.
   */
  predicate ItemIs<O(==)>(ids: seq<int>, refresh: int -> O, s: State<O>, i: nat, item: Slot<O>)
    requires i < |ids| == |s.results|
  {
    if s.results[i].Some? then item == Sequential(ids, refresh)[i]
    else if InFlight(s, i) then item.Refreshed? && item.id == ids[i]
    else item == Slot.Cancelled(ids[i])
  }

  lemma CancelledItem<O>(ids: seq<int>, refresh: int -> O, s: State<O>, s': State<O>, t: State<O>, i: nat)
    requires SlotsTrue(refresh, ids, s) && s' == s.(cancelled := true) && |t.results| == |ids| && i < |ids|
    requires t.results[i].Some? && SlotSince(ids, s', t, i)
    ensures ItemIs(ids, refresh, s, i, t.results[i].value)
  {
  }

  /** Split at a cancellation a run has a state before it, which was not cancelled, and goes on from there. */
  lemma SplitAtCancel<O>(ids: seq<int>, wanted: int, es: seq<Event<O>>, n: nat)
    requires Exec(ids, wanted, es).Some? && n < |es| && es[n] == Event.Cancel
    ensures Exec(ids, wanted, es[..n]).Some? && !Exec(ids, wanted, es[..n]).value.cancelled
    ensures Exec(ids, wanted, es[..n + 1]) == Some(Exec(ids, wanted, es[..n]).value.(cancelled := true))
    ensures es == es[..n + 1] + es[n + 1..]
  {
    PrefixRuns(ids, wanted, es, n);
    PrefixRuns(ids, wanted, es, n + 1);
    assert es[..n + 1][..n] == es[..n];
  }

  /** Item by item, what a cancelled batch ends with. */
  lemma CancelledItems<O>(ids: seq<int>, wanted: int, refresh: int -> O, es: seq<Event<O>>, n: nat)
    requires Exec(ids, wanted, es).Some? && Answers(ids, wanted, refresh, es) && Finished(Exec(ids, wanted, es).value)
    requires n < |es| && es[n] == Event.Cancel
    ensures Exec(ids, wanted, es[..n]).Some?
    ensures var s, results := Exec(ids, wanted, es[..n]).value, Exec(ids, wanted, es).value.results;
      |s.results| == |results| == |ids| &&
      forall i: nat :: i < |ids| ==> results[i].Some? && ItemIs(ids, refresh, s, i, results[i].value)
  {
    SplitAtCancel(ids, wanted, es, n);
    AnswersPrefix(ids, wanted, refresh, es, n);
    SlotsHold(ids, wanted, refresh, es[..n]);
    FinishedIsComplete(ids, wanted, es);
    var s, t := Exec(ids, wanted, es[..n]).value, Exec(ids, wanted, es).value;
    forall i: nat | i < |ids| ensures t.results[i].Some? && ItemIs(ids, refresh, s, i, t.results[i].value) {
      SinceCancel(ids, wanted, es[..n + 1], es[n + 1..], i);
      CancelledItem(ids, refresh, s, s.(cancelled := true), t, i);
    }
  }

  /** At the moment of the cancellation the refresh of this slot was running. */
  ghost predicate InFlightAtCancel<O>(ids: seq<int>, wanted: int, es: seq<Event<O>>, i: nat) {
    exists n :: 0 <= n < |es| && es[n] == Event.Cancel
      && Exec(ids, wanted, es[..n]).Some? && InFlight(Exec(ids, wanted, es[..n]).value, i)
  }

  /**
   A finished run that was not cancelled holds what the sequential loop computes, whatever the
   interleaving. In a cancelled one a slot differs only if it is marked cancelled, or if its
   refresh was running when the batch was cancelled.
   */
  lemma SameAsSequential<O>(ids: seq<int>, wanted: int, refresh: int -> O, es: seq<Event<O>>)
    requires Exec(ids, wanted, es).Some? && Answers(ids, wanted, refresh, es) && Finished(Exec(ids, wanted, es).value)
    ensures var results := Exec(ids, wanted, es).value.results;
      && |results| == |ids|
      && (forall i: nat :: i < |ids| ==>
            || results[i] == Some(Sequential(ids, refresh)[i])
            || (Event.Cancel in es && results[i] == Some(Slot.Cancelled(ids[i])))
            || InFlightAtCancel(ids, wanted, es, i))
      && (Event.Cancel !in es ==>
            results == seq(|ids|, i requires 0 <= i < |ids| => Some(Sequential(ids, refresh)[i])))
  {
    FinishedIsComplete(ids, wanted, es);
    CancelledByCancel(ids, wanted, es);
    if Event.Cancel in es {
      var n :| 0 <= n < |es| && es[n] == Event.Cancel;
      CancelledItems(ids, wanted, refresh, es, n);
    } else {
      SlotsHold(ids, wanted, refresh, es);
    }
  }

  // --------------------------------------------------------- how many, and that it happens

  /** The indices being refreshed, at most one for each worker. */
  function Running(workers: seq<Worker>): (r: set<nat>)
    ensures |r| <= |workers|
    ensures forall i :: BeingRefreshed(workers, i) ==> i in r
  {
    if workers == [] then {}
    else
      var front, last := workers[..|workers| - 1], workers[|workers| - 1];
      var before := Running(front);
      assert forall i :: BeingRefreshed(workers, i) ==> BeingRefreshed(front, i) || last == Refreshing(i);
      if last.Refreshing? then before + {last.index} else before
  }

  lemma Contained(small: set<nat>, large: set<nat>)
    requires small <= large
    ensures |small| <= |large|
  {
    assert large == small + (large - small);
  }

  /** At any moment no more refreshes are running than there are workers. */
  lemma FewInFlight<O>(ids: seq<int>, wanted: int, es: seq<Event<O>>)
    requires Exec(ids, wanted, es).Some?
    ensures |set i: nat | i < |ids| && InFlight(Exec(ids, wanted, es).value, i)| <= WorkerCount(wanted, |ids|)
  {
    PoolHolds(ids, wanted, es);
    var s := Exec(ids, wanted, es).value;
    var inFlight := set i: nat | i < |ids| && InFlight(s, i);
    Contained(inFlight, Running(s.workers));
  }

  /** A step that is no refresh ending before the cancellation needs no answer. */
  lemma AnswersMore<O>(ids: seq<int>, wanted: int, refresh: int -> O, es: seq<Event<O>>, s: State<O>, e: Event<O>)
    returns (longer: seq<Event<O>>, t: State<O>)
    requires Exec(ids, wanted, es) == Some(s) && Enabled(ids, s, e) && Answers(ids, wanted, refresh, es)
    requires e.Finish? ==> s.cancelled
    ensures longer == es + [e] && t == Apply(ids, s, e) && Exec(ids, wanted, longer) == Some(t)
    ensures Answers(ids, wanted, refresh, longer)
  {
    longer, t := es + [e], Apply(ids, s, e);
    assert longer[..|es|] == es;
    assert forall n :: 0 <= n < |es| ==> longer[..n] == es[..n] && longer[n] == es[n];
  }

  /**
   One worker and two accounts, the batch ending during the first refresh: the first item has
   the error of the ended context, which is neither what its refresh gives alone nor a mark.
   */
  lemma CutShort<O>(a: int, b: int, refresh: int -> O, error: O) returns (es: seq<Event<O>>)
    ensures Exec([a, b], 1, es).Some? && Answers([a, b], 1, refresh, es) && Finished(Exec([a, b], 1, es).value)
    ensures Exec([a, b], 1, es).value.results == [Some(Refreshed(a, error)), Some(Slot.Cancelled(b))]
  {
    var ids, s := [a, b], Begin<O>([a, b], 1);
    es := [];
    es, s := AnswersMore(ids, 1, refresh, es, s, Handoff(0));
    es, s := AnswersMore(ids, 1, refresh, es, s, Check(0));
    es, s := AnswersMore(ids, 1, refresh, es, s, Event.Cancel);
    es, s := AnswersMore(ids, 1, refresh, es, s, Finish(0, error));
    es, s := AnswersMore(ids, 1, refresh, es, s, Handoff(0));
    es, s := AnswersMore(ids, 1, refresh, es, s, Check(0));
    es, s := AnswersMore(ids, 1, refresh, es, s, Close);
    es, s := AnswersMore(ids, 1, refresh, es, s, Exit(0));
  }

  // ------------------------------------------------------------------ the sequential loop

  /**
   The sequential loop of `executor.run`, whose context is found ended from some item on, if
   within the batch at all: every item before has its own outcome, every later one is cancelled.
   */
  method RunSequentially<O>(ids: seq<int>, run: nat -> O, ended: nat) returns (results: seq<Slot<O>>)
    ensures |results| == |ids|
    ensures forall i :: 0 <= i < |ids| ==>
      results[i] == if i < ended then Refreshed(ids[i], run(i)) else Slot.Cancelled(ids[i])
  {
    results := [];
    for i := 0 to |ids|
      invariant |results| == i
      invariant forall j :: 0 <= j < i ==>
        results[j] == if j < ended then Refreshed(ids[j], run(j)) else Slot.Cancelled(ids[j])
    {
      if i >= ended {
        results := results + [Slot.Cancelled(ids[i])];
        continue;
      }
      results := results + [Refreshed(ids[i], run(i))];
    }
  }
}
