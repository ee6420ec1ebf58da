/**
 One move as BulkStore runs it, alone on the database, is one schedule of ChannelEntry: so what
 holds of every schedule holds of `MoveChannel`, and the steps of a transaction there are the
 statements of the code. The same for one creation.
 */
module MoveAlone {
  import opened ChannelEntry
  import C = ChannelEntry
  import opened MixedRisk
  import opened Options
  import B = BulkStore

  /** The accounts and channels of a database, with nothing running. */
  function Resting(db: B.DB): State {
    State(map a | a in db.accounts :: RowOf(db.accounts[a]),
          set c | c in db.channels :: Channel(db.channels[c], c),
          map[], map[], map[], [])
  }

  function RowOf(row: B.Row): Row {
    Row(Channel(row.tenantID, row.channelID), ProfileOf(row.nature), 0, false)
  }

  function JobOf(m: B.ChannelMove, id: int): Job {
    Job(false, id, Channel(m.tenantID, m.targetID), m.confirm, m.dryRun)
  }

  /** What the code answers as the end of the transaction. */
  function EndOf(r: B.ItemResult): C.Result {
    match r.code
    case NotFound => C.Result.NotFound
    case AlreadyInChannel => AlreadyThere
    case ChannelNotFound => ChannelMissing
    case MixedRiskConfirmRequired => NeedsConfirmation
    case NoCode => if r.status == B.WouldApply then C.Result.WouldApply else C.Result.Succeeded
    case AlreadyInDesiredState => StoreError
  }

  /** The machine has the accounts of the database where the database has them. */
  ghost predicate Agrees(s: State, db: B.DB) {
    && s.accounts.Keys == db.accounts.Keys
    && forall a :: a in db.accounts ==>
         && s.accounts[a].channel == Channel(db.accounts[a].tenantID, db.accounts[a].channelID)
         && s.accounts[a].profile == ProfileOf(db.accounts[a].nature)
  }

  /** The transaction is over, as the code answers, with nothing locked and the accounts the code leaves. */
  ghost predicate EndsAs(s: State, outcome: (B.DB, B.ItemResult)) {
    && 0 in s.txs && s.txs[0] == Finished(EndOf(outcome.1)) && s.rowLocks == map[] && s.channelLocks == map[]
    && Agrees(s, outcome.0)
  }

  /** Nothing was written. */
  lemma Unchanged(db: B.DB, s: State, outcome: (B.DB, B.ItemResult))
    requires s.accounts == Resting(db).accounts && outcome.0 == db && s.rowLocks == map[] && s.channelLocks == map[]
    requires s.txs == map[0 := Finished(EndOf(outcome.1))]
    ensures EndsAs(s, outcome)
  {
    forall a | a in db.accounts ensures s.accounts[a] == RowOf(db.accounts[a]) {}
  }

  lemma More(base: State, es: seq<Event>, s: State, e: Event) returns (longer: seq<Event>, t: State)
    requires Exec(base, es) == Some(s) && Enabled(s, e)
    ensures longer == es + [e] && t == Apply(s, e) && Exec(base, longer) == Some(t)
  {
    longer, t := es + [e], Apply(s, e);
    assert longer[..|es|] == es;
  }

  /** The only transaction takes its next step. */
  lemma Next(base: State, es: seq<Event>, s: State, phase: Phase) returns (longer: seq<Event>, t: State)
    requires Exec(base, es) == Some(s) && s.txs.Keys == {0} && CanStep(s, 0)
    requires StepTx(s, 0).txs == s.txs[0 := phase]
    ensures Exec(base, longer) == Some(t) && t == StepTx(s, 0) && t.txs == map[0 := phase]
  {
    longer, t := More(base, es, s, Step(0));
    assert s.txs[0 := phase] == map[0 := phase];
  }

  predicate OnlyOwn<K>(locks: map<K, nat>) {
    forall k :: k in locks ==> locks[k] == 0
  }

  lemma AllFreed<K>(locks: map<K, nat>)
    requires OnlyOwn(locks)
    ensures Freed(locks, 0) == map[]
  {
  }

  /** It ends without a commit and leaves everything as it was. */
  lemma Ends(base: State, es: seq<Event>, s: State, result: C.Result) returns (longer: seq<Event>, t: State)
    requires Exec(base, es) == Some(s) && s.txs.Keys == {0} && CanStep(s, 0)
    requires OnlyOwn(s.rowLocks) && OnlyOwn(s.channelLocks) && StepTx(s, 0) == End(s, 0, result)
    ensures Exec(base, longer) == Some(t)
    ensures t == s.(rowLocks := map[], channelLocks := map[], txs := map[0 := Finished(result)])
  {
    AllFreed(s.rowLocks);
    AllFreed(s.channelLocks);
    longer, t := Next(base, es, s, Finished(result));
  }

  lemma PeersAre(db: B.DB, s: State, tenantID: int, channelID: int)
    requires s.accounts == Resting(db).accounts
    ensures Peers(s, Channel(tenantID, channelID)) == B.Members(db, tenantID, channelID)
  {
    var c := Channel(tenantID, channelID);
    var peers, members := Peers(s, c), B.Members(db, tenantID, channelID);
    forall a ensures a in peers <==> a in members {
      if a in db.accounts { assert s.accounts[a] == RowOf(db.accounts[a]); }
      assert a in peers <==> a in s.accounts && s.accounts[a].channel == c;
    }
    forall a | a in peers ensures peers[a] == members[a] { assert s.accounts[a] == RowOf(db.accounts[a]); }
  }

  lemma Known(db: B.DB, tenantID: int, channelID: int)
    ensures Channel(tenantID, channelID) in Resting(db).channels
      <==> channelID in db.channels && db.channels[channelID] == tenantID
  {
  }

  /** The steps of one move and their end are what the code answers and leaves behind. */
  lemma MoveIsASchedule(db: B.DB, m: B.ChannelMove, id: int, any: Profile) returns (es: seq<Event>)
    ensures Exec(Resting(db), es).Some? && EndsAs(Exec(Resting(db), es).value, B.Move(db, m, id))
  {
    var base, job := Resting(db), JobOf(m, id);
    var s;
    es, s := More(base, [], base, Start(0, job, any));
    assert s.txs == map[0 := WantRow(job)];
    if !B.Visible(db, m.tenantID, id) {
      es, s := Ends(base, es, s, C.Result.NotFound);
      Unchanged(db, s, B.Move(db, m, id));
      return;
    }
    var row := db.accounts[id];
    var profile, from := ProfileOf(row.nature), Channel(row.tenantID, row.channelID);
    es, s := Next(base, es, s, HaveRow(job, profile, from));
    es := Decide(db, m, id, es, s);
  }

  /** From the locked row on. */
  lemma Decide(db: B.DB, m: B.ChannelMove, id: int, es0: seq<Event>, s0: State) returns (es: seq<Event>)
    requires B.Visible(db, m.tenantID, id) && Exec(Resting(db), es0) == Some(s0)
    requires s0 == Resting(db).(rowLocks := map[id := 0], txs := map[0 := HaveRow(JobOf(m, id),
      ProfileOf(db.accounts[id].nature), Channel(db.accounts[id].tenantID, db.accounts[id].channelID))])
    ensures Exec(Resting(db), es).Some? && EndsAs(Exec(Resting(db), es).value, B.Move(db, m, id))
  {
    var base, job := Resting(db), JobOf(m, id);
    var profile := ProfileOf(db.accounts[id].nature);
    var s := s0;
    es := es0;
    Known(db, m.tenantID, m.targetID);
    if db.accounts[id].channelID == m.targetID {
      es, s := Ends(base, es, s, AlreadyThere);
      Unchanged(db, s, B.Move(db, m, id));
      return;
    }
    if job.target !in base.channels {
      es, s := Ends(base, es, s, ChannelMissing);
      Unchanged(db, s, B.Move(db, m, id));
      return;
    }
    es, s := Next(base, es, s, WantChannel(job, profile));
    es, s := Next(base, es, s, HaveChannel(job, profile));
    var seen := Peers(s, job.target);
    PeersAre(db, s, m.tenantID, m.targetID);
    es, s := Next(base, es, s, PeersRead(job, profile, seen));
    es, s := Next(base, es, s, Judged(job, profile, seen, Risky(seen, id, profile)));
    MoveGoesOn(db, m, id);
    es := Write(db, m, id, profile, seen, Risky(seen, id, profile), B.Move(db, m, id), es, s);
  }

  /** How a move that gets as far as the judgement goes on from there. */
  ghost predicate GoesOn(db: B.DB, m: B.ChannelMove, id: int, risky: bool, outcome: (B.DB, B.ItemResult))
    requires id in db.accounts
  {
    if risky && !m.confirm then outcome.0 == db && EndOf(outcome.1) == NeedsConfirmation
    else if m.dryRun then outcome.0 == db && EndOf(outcome.1) == C.Result.WouldApply
    else
      && outcome.0.accounts == db.accounts[id := db.accounts[id].(channelID := m.targetID)]
      && EndOf(outcome.1) == C.Result.Succeeded
  }

  lemma MoveGoesOn(db: B.DB, m: B.ChannelMove, id: int)
    requires B.Visible(db, m.tenantID, id) && db.accounts[id].channelID != m.targetID
    requires m.targetID in db.channels && db.channels[m.targetID] == m.tenantID
    ensures GoesOn(db, m, id, Risky(B.Members(db, m.tenantID, m.targetID), id, ProfileOf(db.accounts[id].nature)),
                   B.Move(db, m, id))
  {
  }

  /** From the judgement on. */
  lemma Write(db: B.DB, m: B.ChannelMove, id: int, profile: Profile, seen: map<int, Profile>, risky: bool,
              outcome: (B.DB, B.ItemResult), es0: seq<Event>, s0: State)
    returns (es: seq<Event>)
    requires B.Visible(db, m.tenantID, id) && GoesOn(db, m, id, risky, outcome)
    requires Exec(Resting(db), es0) == Some(s0)
    requires s0 == Resting(db).(rowLocks := map[id := 0], channelLocks := map[JobOf(m, id).target := 0],
                                txs := map[0 := Judged(JobOf(m, id), profile, seen, risky)])
    ensures Exec(Resting(db), es).Some? && EndsAs(Exec(Resting(db), es).value, outcome)
  {
    var base, job, s := Resting(db), JobOf(m, id), s0;
    es := es0;
    if risky && !m.confirm {
      es, s := Ends(base, es, s, NeedsConfirmation);
      Unchanged(db, s, outcome);
    } else if m.dryRun {
      es, s := Ends(base, es, s, C.Result.WouldApply);
      Unchanged(db, s, outcome);
    } else {
      es, s := Next(base, es, s, Written(job, profile, seen, risky));
      es, s := Commits(db, m, id, es, s);
      assert forall a :: a in outcome.0.accounts <==> a in db.accounts;
    }
  }

  /** The commit moves the account and nothing else. */
  lemma Commits(db: B.DB, m: B.ChannelMove, id: int, es: seq<Event>, s: State) returns (longer: seq<Event>, t: State)
    requires B.Visible(db, m.tenantID, id) && Exec(Resting(db), es) == Some(s) && s.txs.Keys == {0}
    requires s.txs[0].Written? && s.txs[0].job == JobOf(m, id) && s.accounts == Resting(db).accounts
    requires OnlyOwn(s.rowLocks) && OnlyOwn(s.channelLocks)
    ensures Exec(Resting(db), longer) == Some(t) && t.txs == map[0 := Finished(C.Result.Succeeded)]
    ensures t.rowLocks == map[] && t.channelLocks == map[] && id in t.accounts && t.accounts[id].confirmed == m.confirm
    ensures Agrees(t, db.(accounts := db.accounts[id := db.accounts[id].(channelID := m.targetID)]))
  {
    AllFreed(s.rowLocks);
    AllFreed(s.channelLocks);
    longer, t := Next(Resting(db), es, s, Finished(C.Result.Succeeded));
    assert s.accounts[id] == RowOf(db.accounts[id]);
  }

  /** Some account of the channel differs from a new one, by the fields of both. */
  predicate Mixes(db: B.DB, target: Channel, nature: Nature) {
    exists a :: a in db.accounts && InTarget(db.accounts[a], target) && DifferAnyhow(db.accounts[a].nature, nature)
  }

  predicate InTarget(row: B.Row, target: Channel) {
    row.tenantID == target.tenantID && row.channelID == target.id
  }

  lemma MixingIsSeen(db: B.DB, id: int, target: Channel, nature: Nature)
    requires id !in db.accounts
    ensures Risky(B.Members(db, target.tenantID, target.id), id, ProfileOf(nature)) <==> Mixes(db, target, nature)
  {
    var seen := B.Members(db, target.tenantID, target.id);
    forall a | a in db.accounts
      ensures db.accounts[a].Kind() != ProfileOf(nature) <==> DifferAnyhow(db.accounts[a].nature, nature)
      ensures a in seen <==> InTarget(db.accounts[a], target)
    {
      ProfilesDiffer(db.accounts[a].nature, nature);
    }
    if a :| a in db.accounts && InTarget(db.accounts[a], target) && DifferAnyhow(db.accounts[a].nature, nature) {
      assert a in seen && seen[a] == db.accounts[a].Kind() && a != id;
    }
  }

  /**
   A creation run alone: it needs a confirmation exactly if it differs from some member of its
   channel, and otherwise, or confirmed, the account is there with its own channel and nature.
   */
  lemma CreationIsASchedule(db: B.DB, id: int, target: Channel, nature: Nature, confirm: bool)
    returns (es: seq<Event>, s: State)
    requires id !in db.accounts
    ensures Exec(Resting(db), es) == Some(s) && 0 in s.txs && s.rowLocks == map[] && s.channelLocks == map[]
    ensures Mixes(db, target, nature) && !confirm ==>
      s.txs[0] == Finished(NeedsConfirmation) && s.accounts == Resting(db).accounts
    ensures !Mixes(db, target, nature) || confirm ==>
      && s.txs[0] == Finished(C.Result.Succeeded)
      && s.accounts == Resting(db).accounts[id := Row(target, ProfileOf(nature), 1, confirm)]
  {
    var base, job, profile := Resting(db), Job(true, id, target, confirm, false), ProfileOf(nature);
    es, s := More(base, [], base, Start(0, job, profile));
    assert s.txs == map[0 := WantChannel(job, profile)];
    es, s := Next(base, es, s, HaveChannel(job, profile));
    var seen := Peers(s, target);
    PeersAre(db, s, target.tenantID, target.id);
    MixingIsSeen(db, id, target, nature);
    es, s := Next(base, es, s, PeersRead(job, profile, seen));
    es, s := Next(base, es, s, Judged(job, profile, seen, Risky(seen, id, profile)));
    es, s := EndOfCreation(base, es, s, job, profile, seen, Risky(seen, id, profile));
  }

  lemma EndOfCreation(base: State, es0: seq<Event>, s0: State, job: Job, profile: Profile, seen: map<int, Profile>,
                      risky: bool) returns (es: seq<Event>, s: State)
    requires Exec(base, es0) == Some(s0) && job.creates && !job.dryRun && base.log == []
    requires s0 == base.(channelLocks := map[job.target := 0], txs := map[0 := Judged(job, profile, seen, risky)])
    requires base.rowLocks == map[]
    ensures Exec(base, es) == Some(s) && 0 in s.txs && s.rowLocks == map[] && s.channelLocks == map[]
    ensures if risky && !job.confirm then s.txs[0] == Finished(NeedsConfirmation) && s.accounts == base.accounts
            else s.txs[0] == Finished(C.Result.Succeeded)
                 && s.accounts == base.accounts[job.account := Row(job.target, profile, 1, job.confirm)]
  {
    es, s := es0, s0;
    if risky && !job.confirm {
      es, s := Ends(base, es, s, NeedsConfirmation);
    } else {
      es, s := Next(base, es, s, Written(job, profile, seen, risky));
      es, s := CreationCommits(base, es, s, profile);
    }
  }

  lemma CreationCommits(base: State, es: seq<Event>, s: State, profile: Profile) returns (longer: seq<Event>, t: State)
    requires Exec(base, es) == Some(s) && s.txs.Keys == {0} && s.txs[0].Written? && s.log == []
    requires s.txs[0].job.creates && s.txs[0].profile == profile && OnlyOwn(s.rowLocks) && OnlyOwn(s.channelLocks)
    ensures Exec(base, longer) == Some(t) && t.rowLocks == map[] && t.channelLocks == map[]
    ensures var job := s.txs[0].job;
      && t.txs == map[0 := Finished(C.Result.Succeeded)]
      && t.accounts == s.accounts[job.account := Row(job.target, profile, 1, job.confirm)]
  {
    AllFreed(s.rowLocks);
    AllFreed(s.channelLocks);
    longer, t := Next(base, es, s, Finished(C.Result.Succeeded));
  }

  /** What goes on beside the transactions changes just what it says. */
  lemma BesideTransactions(s: State, a: int, profile: Profile, c: Channel)
    ensures Enabled(s, Remove(a)) ==>
      a !in Apply(s, Remove(a)).accounts && s == Apply(s, Remove(a)).(accounts := s.accounts)
      && forall b :: b in s.accounts && b != a ==>
           b in Apply(s, Remove(a)).accounts && Apply(s, Remove(a)).accounts[b] == s.accounts[b]
    ensures Enabled(s, Reprofile(a, profile)) ==>
      var t := Apply(s, Reprofile(a, profile));
      && t.accounts.Keys == s.accounts.Keys && t.accounts[a].profile == profile
      && t.accounts[a].channel == s.accounts[a].channel && s == t.(accounts := s.accounts)
      && forall b :: b in s.accounts && b != a ==> t.accounts[b] == s.accounts[b]
    ensures c !in Apply(s, DeleteChannel(c)).channels && Apply(s, DeleteChannel(c)).channels <= s.channels
  {
  }
}
