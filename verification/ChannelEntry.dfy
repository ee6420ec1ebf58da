/**
 Accounts entering channels under concurrency: bulk moves (`PostgresStore.MoveChannel`) and
 account creation (`accountcreate.InsertTx`) from any number of transactions. A move locks
 its account row, then the (tenant, channel) advisory lock; a creation takes only the latter.
 Under that lock both read the channel's members, judge the risk, and write.
 */
module ChannelEntry {
  import opened MixedRisk
  import opened Options

  datatype Channel = Channel(tenantID: int, id: int)

  /** `stamp` and `confirmed` are history: when the account entered its channel, and how. */
  datatype Row = Row(channel: Channel, profile: Profile, stamp: nat, confirmed: bool)

  datatype Job = Job(creates: bool, account: int, target: Channel, confirm: bool, dryRun: bool)

  datatype Result = NotFound | AlreadyThere | ChannelMissing | NeedsConfirmation | WouldApply | Succeeded | StoreError

  datatype Phase =
    | WantRow(job: Job)
    | HaveRow(job: Job, profile: Profile, from: Channel)
    | WantChannel(job: Job, profile: Profile)
    | HaveChannel(job: Job, profile: Profile)
    | PeersRead(job: Job, profile: Profile, seen: map<int, Profile>)
    | Judged(job: Job, profile: Profile, seen: map<int, Profile>, risky: bool)
    | Written(job: Job, profile: Profile, seen: map<int, Profile>, risky: bool)
    | Finished(result: Result)

  /** A committed entry with the members its check saw and the members at the commit. */
  datatype Entry = Entry(job: Job, seen: map<int, Profile>, members: set<int>)

  datatype State = State(
    accounts: map<int, Row>, channels: set<Channel>,
    rowLocks: map<int, nat>, channelLocks: map<Channel, nat>,
    txs: map<nat, Phase>, log: seq<Entry>)

  datatype Event =
    | Start(t: nat, job: Job, profile: Profile)
    | Step(t: nat)
    | Fail(t: nat)
    | Remove(account: int)
    | Reprofile(account: int, profile: Profile)
    | DeleteChannel(channel: Channel)

  /** The accounts of a channel that are not deleted. */
  ghost function Members(s: State, c: Channel): set<int> {
    set a | a in s.accounts && s.accounts[a].channel == c
  }

  ghost function Peers(s: State, c: Channel): map<int, Profile> {
    map a | a in Members(s, c) :: s.accounts[a].profile
  }

  function Freed<K>(locks: map<K, nat>, t: nat): map<K, nat> {
    map k | k in locks && locks[k] != t :: locks[k]
  }

  /** A row lock blocks the row, an advisory lock the channel; all other steps can always be taken. */
  predicate CanStep(s: State, t: nat) {
    && t in s.txs
    && match s.txs[t]
       case WantRow(job) => job.account in s.rowLocks ==> job.account !in s.accounts
       case WantChannel(job, _) => job.target !in s.channelLocks
       case Finished(_) => false
       case _ => true
  }

  /** The sequence behind account identities hands out each number once. */
  predicate BeingCreated(s: State, account: int) {
    exists t :: t in s.txs && !s.txs[t].Finished? && s.txs[t].job.creates && s.txs[t].job.account == account
  }

  predicate Enabled(s: State, e: Event) {
    match e
    case Start(t, job, _) =>
      && t !in s.txs
      && (job.creates ==> job.account !in s.accounts && !BeingCreated(s, job.account))
    case Step(t) => CanStep(s, t)
    case Fail(t) => t in s.txs && !s.txs[t].Finished?
    case Remove(a) => a in s.accounts && a !in s.rowLocks
    case Reprofile(a, _) => a in s.accounts
    case DeleteChannel(_) => true
  }

  function End(s: State, t: nat, result: Result): State {
    s.(rowLocks := Freed(s.rowLocks, t), channelLocks := Freed(s.channelLocks, t), txs := s.txs[t := Finished(result)])
  }

  /** The commit of an entry: the account is in the channel, both locks are released. */
  ghost function Commit(s: State, t: nat): State
    requires t in s.txs && s.txs[t].Written?
  {
    var ph := s.txs[t];
    var job := ph.job;
    if !job.creates && job.account !in s.accounts then End(s, t, NotFound)
    else
      End(s, t, Succeeded).(
        accounts := s.accounts[job.account := Row(
          job.target, if job.creates then ph.profile else s.accounts[job.account].profile, |s.log| + 1, job.confirm)],
        log := s.log + [Entry(job, ph.seen, Members(s, job.target))])
  }

  ghost function StepTx(s: State, t: nat): State
    requires CanStep(s, t)
  {
    match s.txs[t]
    case WantRow(job) =>
      if job.account !in s.accounts || s.accounts[job.account].channel.tenantID != job.target.tenantID then
        End(s, t, NotFound)
      else
        var current := s.accounts[job.account];
        s.(rowLocks := s.rowLocks[job.account := t],
           txs := s.txs[t := HaveRow(job, current.profile, current.channel)])
    case HaveRow(job, profile, from) =>
      if from == job.target then End(s, t, AlreadyThere)
      else if job.target !in s.channels then End(s, t, ChannelMissing)
      else s.(txs := s.txs[t := WantChannel(job, profile)])
    case WantChannel(job, profile) =>
      s.(channelLocks := s.channelLocks[job.target := t], txs := s.txs[t := HaveChannel(job, profile)])
    case HaveChannel(job, profile) =>
      s.(txs := s.txs[t := PeersRead(job, profile, Peers(s, job.target))])
    case PeersRead(job, profile, seen) =>
      var self := if job.account in s.accounts then s.accounts[job.account].profile else profile;
      s.(txs := s.txs[t := Judged(job, self, seen, Risky(seen, job.account, self))])
    case Judged(job, profile, seen, risky) =>
      if risky && !job.confirm then End(s, t, NeedsConfirmation)
      else if job.dryRun then End(s, t, WouldApply)
      else s.(txs := s.txs[t := Written(job, profile, seen, risky)])
    case Written(_, _, _, _) => Commit(s, t)
    case Finished(_) => s
  }

  ghost function Apply(s: State, e: Event): State
    requires Enabled(s, e)
  {
    match e
    case Start(t, job, profile) =>
      s.(txs := s.txs[t := if job.creates then WantChannel(job, profile) else WantRow(job)])
    case Step(t) => StepTx(s, t)
    case Fail(t) => End(s, t, StoreError)
    case Remove(a) => s.(accounts := s.accounts - {a})
    case Reprofile(a, profile) => s.(accounts := s.accounts[a := s.accounts[a].(profile := profile)])
    case DeleteChannel(c) => s.(channels := s.channels - {c})
  }

  ghost function Exec(base: State, es: seq<Event>): Option<State> {
    if es == [] then Some(base)
    else
      match Exec(base, es[..|es| - 1])
      case None => None
      case Some(s) =>
        var e := es[|es| - 1];
        if Enabled(s, e) then Some(Apply(s, e)) else None
  }

  /** Any accounts and channels, nothing running; base accounts carry the stamp 0. */
  ghost predicate AtRest(base: State) {
    && base.rowLocks == map[] && base.channelLocks == map[] && base.txs == map[] && base.log == []
    && forall a :: a in base.accounts ==> base.accounts[a].stamp == 0
  }

  // ------------------------------------------------------------------ locks

  predicate HoldsRow(s: State, t: nat) {
    && t in s.txs && !s.txs[t].WantRow? && !s.txs[t].Finished? && !s.txs[t].job.creates
  }

  predicate HoldsChannel(s: State, t: nat) {
    t in s.txs && (s.txs[t].HaveChannel? || s.txs[t].PeersRead? || s.txs[t].Judged? || s.txs[t].Written?)
  }

  ghost predicate RowInv(s: State) {
    && (forall t :: HoldsRow(s, t) ==>
          var a := s.txs[t].job.account; a in s.rowLocks && s.rowLocks[a] == t && a in s.accounts)
    && (forall a :: a in s.rowLocks ==> HoldsRow(s, s.rowLocks[a]) && s.txs[s.rowLocks[a]].job.account == a)
  }

  ghost predicate ChannelInv(s: State) {
    && (forall t :: HoldsChannel(s, t) ==>
          var c := s.txs[t].job.target; c in s.channelLocks && s.channelLocks[c] == t)
    && (forall c :: c in s.channelLocks ==>
          HoldsChannel(s, s.channelLocks[c]) && s.txs[s.channelLocks[c]].job.target == c)
  }

  /** An account being created is not there yet, and only one transaction creates it. */
  ghost predicate CreateInv(s: State) {
    && (forall t :: Creating(s, t) ==> s.txs[t].job.account !in s.accounts && !s.txs[t].WantRow? && !s.txs[t].HaveRow?)
    && (forall t, u :: Creating(s, t) && Creating(s, u) && s.txs[t].job.account == s.txs[u].job.account ==> t == u)
    && (forall t :: t in s.txs && (s.txs[t].WantRow? || s.txs[t].HaveRow?) ==> !s.txs[t].job.creates)
  }

  predicate Creating(s: State, t: nat) {
    t in s.txs && !s.txs[t].Finished? && s.txs[t].job.creates
  }

  /** A transaction ended: it is finished, and its locks are gone. */
  ghost predicate Ended(s: State, n: State, t: nat) {
    && t in s.txs && t in n.txs && n.txs[t].Finished? && n.txs == s.txs[t := n.txs[t]]
    && n.rowLocks == Freed(s.rowLocks, t) && n.channelLocks == Freed(s.channelLocks, t)
  }

  /** A transaction that has just taken a lock, or moved between two phases that hold the same locks. */
  ghost predicate Moved(s: State, n: State, t: nat) {
    && t in s.txs && t in n.txs && n.txs == s.txs[t := n.txs[t]]
    && !s.txs[t].Finished? && !n.txs[t].Finished? && n.txs[t].job == s.txs[t].job
    && n.accounts == s.accounts
    && n.rowLocks == (if s.txs[t].WantRow? then s.rowLocks[s.txs[t].job.account := t] else s.rowLocks)
    && n.channelLocks == (if s.txs[t].WantChannel? then s.channelLocks[s.txs[t].job.target := t] else s.channelLocks)
    && (s.txs[t].WantRow? <==> n.txs[t].HaveRow?)
    && (s.txs[t].WantChannel? <==> n.txs[t].HaveChannel?)
    && !n.txs[t].WantRow?
    && (HoldsChannel(s, t) ==> HoldsChannel(n, t))
    && (HoldsChannel(n, t) ==> HoldsChannel(s, t) || s.txs[t].WantChannel?)
  }

  /** The steps that release the locks. */
  predicate Ending(s: State, t: nat)
    requires CanStep(s, t)
  {
    match s.txs[t]
    case WantRow(job) => job.account !in s.accounts || s.accounts[job.account].channel.tenantID != job.target.tenantID
    case HaveRow(job, _, from) => from == job.target || job.target !in s.channels
    case Judged(job, _, _, risky) => (risky && !job.confirm) || job.dryRun
    case Written(_, _, _, _) => true
    case _ => false
  }

  lemma StepEnds(s: State, t: nat)
    requires CanStep(s, t) && Ending(s, t)
    ensures Ended(s, StepTx(s, t), t)
  {
  }

  lemma StepMoves(s: State, t: nat)
    requires CanStep(s, t) && !Ending(s, t)
    ensures Moved(s, StepTx(s, t), t)
  {
  }

  lemma StepEffect(s: State, t: nat)
    requires CanStep(s, t)
    ensures Ended(s, StepTx(s, t), t) || Moved(s, StepTx(s, t), t)
  {
    if Ending(s, t) { StepEnds(s, t); } else { StepMoves(s, t); }
  }

  lemma StepAccounts(s: State, t: nat)
    requires CanStep(s, t)
    ensures !s.txs[t].Written? ==> StepTx(s, t).accounts == s.accounts
    ensures s.accounts.Keys <= StepTx(s, t).accounts.Keys
    ensures StepTx(s, t).accounts.Keys
      <= s.accounts.Keys + (if s.txs[t].job.creates then {s.txs[t].job.account} else {})
  {
  }

  lemma RowEnded(s: State, n: State, t: nat)
    requires RowInv(s) && Ended(s, n, t) && s.accounts.Keys <= n.accounts.Keys
    ensures RowInv(n)
  {
  }

  lemma RowMoved(s: State, n: State, t: nat)
    requires RowInv(s) && CreateInv(s) && Moved(s, n, t)
    requires s.txs[t].WantRow? ==> s.txs[t].job.account !in s.rowLocks && s.txs[t].job.account in s.accounts
    ensures RowInv(n)
  {
  }

  lemma ChannelEnded(s: State, n: State, t: nat)
    requires ChannelInv(s) && Ended(s, n, t)
    ensures ChannelInv(n)
  {
  }

  lemma ChannelMoved(s: State, n: State, t: nat)
    requires ChannelInv(s) && Moved(s, n, t)
    requires s.txs[t].WantChannel? ==> s.txs[t].job.target !in s.channelLocks
    ensures ChannelInv(n)
  {
  }

  lemma CreateStep(s: State, t: nat)
    requires CreateInv(s) && CanStep(s, t)
    ensures CreateInv(StepTx(s, t))
  {
    var n := StepTx(s, t);
    StepEffect(s, t);
    StepAccounts(s, t);
    forall u | Creating(n, u) ensures Creating(s, u) && n.txs[u].job == s.txs[u].job {}
    forall u | Creating(n, u) ensures n.txs[u].job.account !in n.accounts {
      assert Creating(s, u);
      if u != t && s.txs[t].job.creates { assert Creating(s, t); }
    }
  }

  lemma LocksStep(s: State, t: nat)
    requires LockInv(s) && CanStep(s, t)
    ensures LockInv(StepTx(s, t))
  {
    var n := StepTx(s, t);
    StepEffect(s, t);
    StepAccounts(s, t);
    CreateStep(s, t);
    if Ended(s, n, t) {
      RowEnded(s, n, t);
      ChannelEnded(s, n, t);
    } else {
      RowMoved(s, n, t);
      ChannelMoved(s, n, t);
    }
  }

  lemma LocksStart(s: State, t: nat, job: Job, profile: Profile)
    requires LockInv(s) && Enabled(s, Start(t, job, profile))
    ensures LockInv(Apply(s, Start(t, job, profile)))
  {
    var n := Apply(s, Start(t, job, profile));
    assert forall u :: HoldsRow(n, u) <==> HoldsRow(s, u);
    assert forall u :: HoldsChannel(n, u) <==> HoldsChannel(s, u);
    forall u | Creating(n, u) ensures Creating(s, u) || (u == t && job.creates) {}
  }

  /** Events that change rows only. */
  lemma LocksRows(s: State, e: Event)
    requires LockInv(s) && Enabled(s, e) && (e.Remove? || e.Reprofile? || e.DeleteChannel?)
    ensures LockInv(Apply(s, e))
  {
    var n := Apply(s, e);
    assert n.txs == s.txs && n.rowLocks == s.rowLocks && n.channelLocks == s.channelLocks;
    assert forall u :: HoldsRow(n, u) <==> HoldsRow(s, u);
    assert forall u :: HoldsChannel(n, u) <==> HoldsChannel(s, u);
  }

  ghost predicate LockInv(s: State) {
    RowInv(s) && ChannelInv(s) && CreateInv(s)
  }

  lemma {:induction false} LocksHold(base: State, es: seq<Event>)
    requires AtRest(base) && Exec(base, es).Some?
    ensures LockInv(Exec(base, es).value)
  {
    if es != [] {
      LocksHold(base, es[..|es| - 1]);
      var s, e := Exec(base, es[..|es| - 1]).value, es[|es| - 1];
      match e
      case Step(t) => LocksStep(s, t);
      case Fail(t) =>
        RowEnded(s, Apply(s, e), t);
        ChannelEnded(s, Apply(s, e), t);
      case Start(t, job, profile) => LocksStart(s, t, job, profile);
      case _ => LocksRows(s, e);
    }
  }

  // ---------------------------------------------------------------- no deadlock

  /** t cannot go on before u ends. */
  predicate WaitsFor(s: State, t: nat, u: nat) {
    && t in s.txs
    && match s.txs[t]
       case WantRow(job) => job.account in s.accounts && job.account in s.rowLocks && s.rowLocks[job.account] == u
       case WantChannel(job, _) => job.target in s.channelLocks && s.channelLocks[job.target] == u
       case _ => false
  }

  ghost predicate WaitCycle(s: State, path: seq<nat>) {
    |path| >= 2 && path[0] == path[|path| - 1] && forall i :: 0 <= i < |path| - 1 ==> WaitsFor(s, path[i], path[i + 1])
  }

  /** Who waits for a row waits for somebody who at most waits for a channel, and that ends the chain. */
  lemma ChainsAreShort(s: State, t: nat, u: nat, v: nat, w: nat)
    requires LockInv(s)
    ensures !(WaitsFor(s, t, u) && WaitsFor(s, u, v) && WaitsFor(s, v, w))
  {
  }

  /** Taking the account row before the channel lock admits no deadlock in any schedule. */
  lemma NoDeadlock(base: State, es: seq<Event>, path: seq<nat>)
    requires AtRest(base) && Exec(base, es).Some?
    ensures !WaitCycle(Exec(base, es).value, path)
  {
    LocksHold(base, es);
    var s := Exec(base, es).value;
    if WaitCycle(s, path) {
      var n := |path| - 1;
      var second, third := path[1], path[if n == 1 then 1 else 2];
      var fourth := path[if n == 1 then 1 else if n == 2 then 1 else 3];
      ChainsAreShort(s, path[0], second, third, fourth);
    }
  }

  /** While some transaction is running, some transaction can take its next step. */
  lemma SomebodyCanStep(base: State, es: seq<Event>, t: nat)
    requires AtRest(base) && Exec(base, es).Some?
    requires t in Exec(base, es).value.txs && !Exec(base, es).value.txs[t].Finished?
    ensures exists u :: CanStep(Exec(base, es).value, u)
  {
    LocksHold(base, es);
    var s := Exec(base, es).value;
    if !CanStep(s, t) {
      var u := if s.txs[t].WantRow? then s.rowLocks[s.txs[t].job.account] else s.channelLocks[s.txs[t].job.target];
      assert s.txs[t].WantRow? ==> HoldsRow(s, u);
      assert s.txs[t].WantChannel? ==> HoldsChannel(s, u);
      if !CanStep(s, u) {
        assert s.txs[u].WantChannel?;
        assert HoldsChannel(s, s.channelLocks[s.txs[u].job.target]);
        assert CanStep(s, s.channelLocks[s.txs[u].job.target]);
      }
    }
  }

  // ------------------------------------------------------ the check sees everybody

  predicate HasSeen(s: State, t: nat) {
    t in s.txs && (s.txs[t].PeersRead? || s.txs[t].Judged? || s.txs[t].Written?)
  }

  ghost predicate SeenOk(s: State, t: nat) {
    HasSeen(s, t) ==> Members(s, s.txs[t].job.target) - {s.txs[t].job.account} <= s.txs[t].seen.Keys
  }

  ghost predicate SeenInv(s: State) {
    forall t :: SeenOk(s, t)
  }

  ghost predicate LogOk(log: seq<Entry>) {
    forall i :: 0 <= i < |log| ==> log[i].members - {log[i].job.account} <= log[i].seen.Keys
  }

  predicate Commits(s: State, e: Event) {
    e.Step? && e.t in s.txs && s.txs[e.t].Written?
  }

  /** Only the commit of an entry into a channel adds a member to it. */
  lemma MembersGrow(s: State, e: Event, c: Channel)
    requires Enabled(s, e)
    ensures !Commits(s, e) ==> Members(Apply(s, e), c) <= Members(s, c)
    ensures Commits(s, e) && s.txs[e.t].job.target != c ==> Members(Apply(s, e), c) <= Members(s, c)
  {
    if e.Step? { StepAccounts(s, e.t); }
  }

  /** The steps of others leave a transaction where it is. */
  lemma StaysPut(s: State, e: Event, t: nat)
    requires Enabled(s, e) && t in s.txs && e != Step(t) && e != Fail(t)
    ensures t in Apply(s, e).txs && Apply(s, e).txs[t] == s.txs[t]
  {
    if e.Step? { StepEffect(s, e.t); }
  }

  /** Two transactions that hold channel locks enter different channels. */
  lemma OtherChannel(s: State, t: nat, u: nat)
    requires LockInv(s) && t != u && HoldsChannel(s, t) && HoldsChannel(s, u)
    ensures s.txs[t].job.target != s.txs[u].job.target
  {
  }

  lemma SeenOwn(s: State, t: nat)
    requires SeenOk(s, t) && CanStep(s, t)
    ensures SeenOk(StepTx(s, t), t)
  {
    var n := StepTx(s, t);
    if HasSeen(n, t) {
      assert n.accounts == s.accounts;
      assert Members(n, n.txs[t].job.target) == Members(s, s.txs[t].job.target);
    }
  }

  lemma SeenBeside(s: State, e: Event, t: nat)
    requires LockInv(s) && SeenOk(s, t) && Enabled(s, e) && HasSeen(s, t) && e != Step(t) && e != Fail(t)
    ensures SeenOk(Apply(s, e), t)
  {
    StaysPut(s, e, t);
    MembersGrow(s, e, s.txs[t].job.target);
    assert HoldsChannel(s, t);
    if Commits(s, e) { OtherChannel(s, t, e.t); }
  }

  lemma SeenStep(s: State, e: Event, t: nat)
    requires LockInv(s) && SeenOk(s, t) && Enabled(s, e)
    ensures SeenOk(Apply(s, e), t)
  {
    if e == Step(t) {
      SeenOwn(s, t);
    } else if HasSeen(s, t) && e != Fail(t) {
      SeenBeside(s, e, t);
    } else if t in s.txs && e != Fail(t) {
      StaysPut(s, e, t);
    } else {
      SeenNothing(s, e, t);
    }
  }

  /** A transaction that has just begun or failed has seen nothing. */
  lemma SeenNothing(s: State, e: Event, t: nat)
    requires Enabled(s, e) && (t !in s.txs || e == Fail(t))
    ensures !HasSeen(Apply(s, e), t)
  {
    if e.Step? { StepEffect(s, e.t); }
  }

  lemma {:induction false} SeenHolds(base: State, es: seq<Event>)
    requires AtRest(base) && Exec(base, es).Some?
    ensures SeenInv(Exec(base, es).value) && LogOk(Exec(base, es).value.log)
  {
    if es != [] {
      SeenHolds(base, es[..|es| - 1]);
      LocksHold(base, es[..|es| - 1]);
      var s, e := Exec(base, es[..|es| - 1]).value, es[|es| - 1];
      forall t ensures SeenOk(Apply(s, e), t) { SeenStep(s, e, t); }
      LogStep(s, e);
    }
  }

  lemma LogStep(s: State, e: Event)
    requires SeenInv(s) && LogOk(s.log) && Enabled(s, e)
    ensures LogOk(Apply(s, e).log)
  {
    if e.Step? && s.txs[e.t].Written? {
      assert SeenOk(s, e.t);
    }
  }

  /**
   At the commit of every entry into a channel, confirmed or not, each other member of the
   channel is one its risk check has seen. The update of a move never misses its row.
   */
  lemma EveryMemberWasSeen(base: State, es: seq<Event>)
    requires AtRest(base) && Exec(base, es).Some?
    ensures var s := Exec(base, es).value;
      && (forall i :: 0 <= i < |s.log| ==> s.log[i].members - {s.log[i].job.account} <= s.log[i].seen.Keys)
      && (forall t :: t in s.txs && s.txs[t].Written? && !s.txs[t].job.creates ==> s.txs[t].job.account in s.accounts)
  {
    SeenHolds(base, es);
    LocksHold(base, es);
    var s := Exec(base, es).value;
    forall t | t in s.txs && s.txs[t].Written? && !s.txs[t].job.creates ensures s.txs[t].job.account in s.accounts {
      assert HoldsRow(s, t);
    }
  }

  // ------------------------------------------------------------ channels stay unmixed

  /** No account changes provider, vendor or credential type during the run. */
  ghost predicate Steady(es: seq<Event>) {
    forall i :: 0 <= i < |es| ==> !es[i].Reprofile?
  }

  /** What a check has read is still true of the accounts that are still there. */
  ghost predicate TrueOk(s: State, t: nat) {
    HasSeen(s, t) ==>
      var ph := s.txs[t];
      && (forall a :: a in Members(s, ph.job.target) && a != ph.job.account && a in ph.seen ==>
            ph.seen[a] == s.accounts[a].profile)
      && ((ph.Judged? || ph.Written?) ==>
            && (ph.risky <==> Risky(ph.seen, ph.job.account, ph.profile))
            && (ph.job.account in s.accounts ==> ph.profile == s.accounts[ph.job.account].profile))
      && (ph.Written? ==> !ph.risky || ph.job.confirm)
  }

  /** Of two members of a channel, the later entrant was confirmed or is like the earlier one. */
  ghost predicate Unmixed(s: State, a: int, b: int) {
    a in s.accounts && b in s.accounts && a != b ==>
      s.accounts[a].channel == s.accounts[b].channel && s.accounts[a].stamp < s.accounts[b].stamp ==>
        s.accounts[b].confirmed || s.accounts[a].profile == s.accounts[b].profile
  }

  ghost predicate StampsOk(base: State, s: State) {
    && (forall a :: a in s.accounts ==> s.accounts[a].stamp <= |s.log|)
    && (forall a :: a in s.accounts && s.accounts[a].stamp == 0 ==>
          a in base.accounts && s.accounts[a] == base.accounts[a])
    && (forall a, b :: a in s.accounts && b in s.accounts && a != b && s.accounts[a].stamp == s.accounts[b].stamp ==>
          s.accounts[a].stamp == 0)
  }

  ghost predicate MixInv(base: State, s: State) {
    && (forall t :: TrueOk(s, t))
    && (forall a, b :: Unmixed(s, a, b))
    && StampsOk(base, s)
  }

  /** An account either stays as it was, or is the one being committed. */
  lemma AccountsStep(s: State, e: Event, a: int)
    requires Enabled(s, e) && !e.Reprofile? && a in Apply(s, e).accounts
    ensures || (a in s.accounts && Apply(s, e).accounts[a] == s.accounts[a])
            || (Commits(s, e) && a == s.txs[e.t].job.account
                && Apply(s, e).accounts[a].stamp == |s.log| + 1 == |Apply(s, e).log|
                && (a in s.accounts && !s.txs[e.t].job.creates ==>
                      Apply(s, e).accounts[a].profile == s.accounts[a].profile))
    ensures |s.log| <= |Apply(s, e).log|
  {
  }

  lemma StampsStep(base: State, s: State, e: Event)
    requires StampsOk(base, s) && Enabled(s, e) && !e.Reprofile?
    ensures StampsOk(base, Apply(s, e))
  {
    var n := Apply(s, e);
    forall a | a in n.accounts
      ensures n.accounts[a].stamp <= |n.log|
      ensures n.accounts[a].stamp == 0 ==> a in base.accounts && n.accounts[a] == base.accounts[a]
    {
      AccountsStep(s, e, a);
    }
    forall a, b | a in n.accounts && b in n.accounts && a != b && n.accounts[a].stamp == n.accounts[b].stamp
      ensures n.accounts[a].stamp == 0
    {
      AccountsStep(s, e, a);
      AccountsStep(s, e, b);
    }
  }

  /** The steps of the checking transaction itself. */
  lemma TrueOwn(s: State, t: nat)
    requires LockInv(s) && TrueOk(s, t) && CanStep(s, t)
    ensures TrueOk(StepTx(s, t), t)
  {
  }

  /** What a check has read of one account is still true, whatever others do. */
  lemma ReadIsTrue(s: State, e: Event, t: nat, a: int)
    requires LockInv(s) && TrueOk(s, t) && Enabled(s, e) && !e.Reprofile?
    requires HasSeen(s, t) && e != Step(t) && e != Fail(t)
    requires a in Members(Apply(s, e), s.txs[t].job.target) && a != s.txs[t].job.account && a in s.txs[t].seen
    ensures s.txs[t].seen[a] == Apply(s, e).accounts[a].profile
  {
    MembersGrow(s, e, s.txs[t].job.target);
    AccountsStep(s, e, a);
    assert HoldsChannel(s, t);
    if Commits(s, e) { OtherChannel(s, t, e.t); }
    assert a in Members(s, s.txs[t].job.target);
  }

  /** The candidate of a check is not touched by others. */
  lemma CandidateStays(s: State, e: Event, t: nat)
    requires LockInv(s) && Enabled(s, e) && !e.Reprofile? && HasSeen(s, t) && e != Step(t) && e != Fail(t)
    requires s.txs[t].job.account in Apply(s, e).accounts
    ensures var a := s.txs[t].job.account; a in s.accounts && Apply(s, e).accounts[a] == s.accounts[a]
  {
    AccountsStep(s, e, s.txs[t].job.account);
    assert HoldsChannel(s, t);
    if Commits(s, e) {
      assert HoldsChannel(s, e.t);
      OtherAccount(s, e.t, t);
    }
  }

  /** The steps of everybody else. */
  lemma TrueOthers(s: State, e: Event, t: nat)
    requires LockInv(s) && TrueOk(s, t) && Enabled(s, e) && !e.Reprofile?
    requires HasSeen(s, t) && e != Step(t) && e != Fail(t)
    ensures TrueOk(Apply(s, e), t)
  {
    var n := Apply(s, e);
    var job := s.txs[t].job;
    StaysPut(s, e, t);
    forall a | a in Members(n, job.target) && a != job.account && a in s.txs[t].seen
      ensures s.txs[t].seen[a] == n.accounts[a].profile
    {
      ReadIsTrue(s, e, t, a);
    }
    if job.account in n.accounts { CandidateStays(s, e, t); }
  }

  lemma TrueStep(s: State, e: Event, t: nat)
    requires LockInv(s) && TrueOk(s, t) && Enabled(s, e) && !e.Reprofile?
    ensures TrueOk(Apply(s, e), t)
  {
    if e == Step(t) {
      TrueOwn(s, t);
    } else if HasSeen(s, t) && e != Fail(t) {
      TrueOthers(s, e, t);
    } else if t in s.txs && e != Fail(t) {
      StaysPut(s, e, t);
    } else {
      SeenNothing(s, e, t);
    }
  }

  /** Two transactions past their locks never work on the same account. */
  lemma OtherAccount(s: State, t: nat, u: nat)
    requires LockInv(s) && t != u && HoldsChannel(s, t) && HoldsChannel(s, u)
    ensures s.txs[t].job.account != s.txs[u].job.account
  {
  }

  lemma MixCommit(s: State, t: nat)
    requires LockInv(s) && SeenOk(s, t) && TrueOk(s, t) && t in s.txs && s.txs[t].Written?
    requires forall a :: a in s.accounts ==> s.accounts[a].stamp <= |s.log|
    requires forall a, b :: Unmixed(s, a, b)
    ensures forall a, b :: Unmixed(Commit(s, t), a, b)
  {
    var n := Commit(s, t);
    var x := s.txs[t].job.account;
    forall a, b ensures Unmixed(n, a, b) {
      assert Unmixed(s, a, b);
      if b == x && a != x && a in s.accounts && s.accounts[a].channel == s.txs[t].job.target {
        assert a in Members(s, s.txs[t].job.target);
      }
    }
  }

  lemma {:induction false} MixHolds(base: State, es: seq<Event>)
    requires AtRest(base) && Exec(base, es).Some? && Steady(es)
    ensures MixInv(base, Exec(base, es).value)
  {
    if es != [] {
      MixHolds(base, es[..|es| - 1]);
      SeenHolds(base, es[..|es| - 1]);
      LocksHold(base, es[..|es| - 1]);
      var s, e := Exec(base, es[..|es| - 1]).value, es[|es| - 1];
      forall t ensures TrueOk(Apply(s, e), t) { TrueStep(s, e, t); }
      StampsStep(base, s, e);
      if Commits(s, e) {
        assert SeenOk(s, e.t) && TrueOk(s, e.t);
        MixCommit(s, e.t);
      } else {
        forall a, b ensures Unmixed(Apply(s, e), a, b) { MixOther(s, e, a, b); }
      }
    }
  }

  lemma MixOther(s: State, e: Event, a: int, b: int)
    requires Enabled(s, e) && !e.Reprofile? && !Commits(s, e) && Unmixed(s, a, b)
    ensures Unmixed(Apply(s, e), a, b)
  {
  }

  /**
   In a run in which no account changes its nature, two members of one channel can differ
   only if the later of the two was let in with a confirmation, or both were there before.
   */
  lemma MixingNeedsConfirmation(base: State, es: seq<Event>, a: int, b: int)
    requires AtRest(base) && Exec(base, es).Some? && Steady(es)
    requires var s := Exec(base, es).value;
      && a in s.accounts && b in s.accounts && a != b && s.accounts[a].channel == s.accounts[b].channel
      && s.accounts[a].profile != s.accounts[b].profile && s.accounts[a].stamp <= s.accounts[b].stamp
    ensures var s := Exec(base, es).value;
      || s.accounts[b].confirmed
      || (a in base.accounts && b in base.accounts
          && base.accounts[a] == s.accounts[a] && base.accounts[b] == s.accounts[b])
  {
    MixHolds(base, es);
    assert Unmixed(Exec(base, es).value, a, b);
  }
}
