/**
 `KeyIssuer.Issue` as the code runs it, alone on the database, one statement after the other.
 What it does is one schedule of the steps of KeyIssuance, so whatever holds for every
 schedule holds for it.
 */
module KeyIssuer {
  import opened Options
  import opened KeyIssuance

  /** How the database answers the statements of one transaction. */
  datatype InsertAnswer = RowInserted | NoRows | InsertFails
  datatype CommitAnswer = Acknowledged | CommitRefused | AcknowledgementLost
  datatype Answers = Answers(
    beginFails: bool, lockFails: bool, countFails: bool,
    insert: InsertAnswer, auditFails: bool, commit: CommitAnswer, denyLogged: bool)

  lemma Extend(limits: Limits, base: State, es: seq<Event>, s: State, e: Event)
    requires Exec(limits, base, es) == Some(s) && Enabled(limits, s, e)
    ensures Exec(limits, base, es + [e]) == Some(Apply(limits, s, e))
  {
  }

  /** A failing statement of the only running call ends it and releases its lock. */
  lemma EndAlone(limits: Limits, base: State, es: seq<Event>, s: State, e: Event)
    requires Exec(limits, base, es) == Some(s) && s.calls.Keys == {0} && Enabled(limits, s, e)
    requires e == Fail(0) || e == TargetGone(0)
    requires forall a :: a in s.locks ==> s.locks[a] == 0
    ensures var req := if s.calls[0].Ready? then s.calls[0].req else s.calls[0].tx.req;
      Exec(limits, base, es + [e]) == Some(s.(locks := map[], calls :=
        map[0 := Done(req, Refused(if e.Fail? then Backend else BadRequest))]))
  {
    Extend(limits, base, es, s, e);
    assert Unlocked(s, 0) == map[];
    var done := Apply(limits, s, e).calls[0];
    assert s.calls[0 := done] == map[0 := done];
  }

  /** The statements of the only running call that succeed, up to the commit. */
  lemma InsertAlone(limits: Limits, base: State, es: seq<Event>, s: State, tx: Tx)
    requires Exec(limits, base, es) == Some(s) && s.calls == map[0 := InTx(Counted, tx)] && tx.count < limits.perWindow
    ensures Exec(limits, base, es + [InsertKey(0)]) == Some(
      s.(nextKeyID := s.nextKeyID + 1, calls := map[0 := InTx(Inserted, tx.(keyID := s.nextKeyID))]))
  {
    Extend(limits, base, es, s, InsertKey(0));
    var inserted := InTx(Inserted, tx.(keyID := s.nextKeyID));
    assert s.calls[0 := inserted] == map[0 := inserted];
  }

  lemma AuditAlone(limits: Limits, base: State, es: seq<Event>, s: State, tx: Tx)
    requires Exec(limits, base, es) == Some(s) && s.calls == map[0 := InTx(Inserted, tx)]
    ensures Exec(limits, base, es + [InsertAudit(0)]) == Some(s.(calls := map[0 := InTx(Written, tx)]))
  {
    Extend(limits, base, es, s, InsertAudit(0));
    assert s.calls[0 := InTx(Written, tx)] == map[0 := InTx(Written, tx)];
  }

  /** A commit of the only running call leaves its key and its audit row behind. */
  lemma CommitAlone(limits: Limits, base: State, es: seq<Event>, s: State, tx: Tx, acknowledged: bool)
    requires Exec(limits, base, es) == Some(s) && s.calls == map[0 := InTx(Written, tx)]
    requires forall a :: a in s.locks ==> s.locks[a] == 0
    ensures var result := if acknowledged then Issued(tx.keyID, tx.bearer, Prefix(tx.bearer)) else Refused(Backend);
      Exec(limits, base, es + [Commit(0, acknowledged)]) == Some(State(
      s.now,
      s.keys + [KeyRow(tx.keyID, tx.req.tenantID, tx.req.userID, Bcrypt(tx.bearer), Prefix(tx.bearer), 0)],
      s.audit + [AuditRow(tx.req.actor, IssueAction, Some(tx.keyID), Prefix(tx.bearer), tx.startedAt)],
      s.nextKeyID, map[],
      map[0 := Done(tx.req, result)]))
  {
    Extend(limits, base, es, s, Commit(0, acknowledged));
    assert Unlocked(s, 0) == map[];
    var done := Apply(limits, s, Commit(0, acknowledged)).calls[0];
    assert s.calls[0 := done] == map[0 := done];
  }

  /** What a call answers, and what it leaves behind, when nobody else is at work. */
  function Outcome(limits: Limits, audit: seq<AuditRow>, now: int, nextKeyID: nat, req: Request,
                   verdict: Verdict, bearer: string, db: Answers): Reply {
    if !WellFormed(req) then Refused(BadRequest)
    else if verdict == NotAllowed then Refused(Forbidden)
    else if verdict == TargetInactive then Refused(BadRequest)
    else if verdict == CheckFails then Refused(Backend)
    else if WindowCount(limits, audit, req, now) >= limits.perWindow then Refused(RateLimited)
    else if db.beginFails || db.lockFails || db.countFails then Refused(Backend)
    else WriteOutcome(nextKeyID, bearer, db)
  }

  function WriteOutcome(keyID: nat, bearer: string, db: Answers): Reply {
    if db.insert == InsertFails then Refused(Backend)
    else if db.insert == NoRows then Refused(BadRequest)
    else if db.auditFails || db.commit != Acknowledged then Refused(Backend)
    else Issued(keyID, bearer, Prefix(bearer))
  }

  /** The key that stays behind: the commit went through, whether or not its caller heard of it. */
  function Kept(req: Request, bearer: string, db: Answers, keyID: nat): seq<KeyRow> {
    if || db.beginFails || db.lockFails || db.countFails || db.insert != RowInserted
       || db.auditFails || db.commit == CommitRefused
    then []
    else [KeyRow(keyID, req.tenantID, req.userID, Bcrypt(bearer), Prefix(bearer), 0)]
  }

  /** The audit row that names the key. */
  function Logged(req: Request, at: int, kept: seq<KeyRow>): seq<AuditRow> {
    if kept == [] then [] else [AuditRow(req.actor, IssueAction, Some(kept[0].id), kept[0].prefix, at)]
  }

  predicate Admissible(limits: Limits, audit: seq<AuditRow>, now: int, req: Request, verdict: Verdict) {
    WellFormed(req) && verdict == Passes && WindowCount(limits, audit, req, now) < limits.perWindow
  }

  class Issuer {
    const limits: Limits
    var keys: seq<KeyRow>
    var audit: seq<AuditRow>
    var nextKeyID: nat
    var now: int

    ghost function View(): State
      reads this
    {
      State(now, keys, audit, nextKeyID, map[], map[])
    }

    constructor (limits: Limits)
      ensures this.limits == limits && View() == State(0, [], [], 1, map[], map[])
    {
      this.limits := limits;
      keys, audit, nextKeyID, now := [], [], 1, 0;
    }

    /** The refusal row, written outside any transaction; losing it is tolerated. */
    method LogDenial(req: Request, db: Answers)
      modifies this`audit
      ensures audit == old(audit) + DenyRows(req, now, db.denyLogged)
    {
      if db.denyLogged {
        audit := audit + [AuditRow(req.actor, IssueAction, None, "", now)];
      }
    }

    method CountInWindow(req: Request, at: int) returns (n: nat)
      ensures n == WindowCount(limits, audit, req, at)
    {
      n := 0;
      for i := 0 to |audit|
        invariant n == WindowCount(limits, audit[..i], req, at)
      {
        assert audit[..i + 1][..i] == audit[..i];
        var r := audit[i];
        if (r.actor == req.actor || r.actor == req.legacyActor)
           && r.action == IssueAction && r.targetID.Some? && r.at > at - limits.window {
          n := n + 1;
        }
      }
      assert audit[..|audit|] == audit;
    }

    method Issue(req: Request, verdict: Verdict, bearer: string, db: Answers)
      returns (reply: Reply, ghost es: seq<Event>)
      modifies this`keys, this`audit, this`nextKeyID
      ensures Exec(limits, old(View()), es) == Some(View().(calls := map[0 := Done(req, reply)]))
      ensures reply == Outcome(limits, old(audit), now, old(nextKeyID), req, verdict, bearer, db)
      ensures keys == old(keys) +
        if Admissible(limits, old(audit), now, req, verdict) then Kept(req, bearer, db, old(nextKeyID)) else []
      ensures reply.Issued? <==>
        && req.name != "" && req.tenantID != 0 && req.userID != 0 && req.environment in {"live", "test"}
        && verdict == Passes && WindowCount(limits, old(audit), req, now) < limits.perWindow
        && !db.beginFails && !db.lockFails && !db.countFails && db.insert == RowInserted && !db.auditFails
        && db.commit == Acknowledged
      ensures reply.Issued? ==> keys != old(keys) && reply.plaintext == bearer && Heads(reply.prefix, bearer)
      ensures keys != old(keys) ==>
        && verdict == Passes && req.name != "" && req.tenantID != 0 && req.userID != 0
        && |keys| == |old(keys)| + 1
        && var k := keys[|old(keys)|];
        k.tenantID == req.tenantID && k.userID == req.userID && k.hash == Bcrypt(bearer) && Heads(k.prefix, bearer)
      ensures old(audit) <= audit && forall i :: |old(audit)| <= i < |audit| ==>
        && audit[i].actor == req.actor && audit[i].at == now
        && if keys == old(keys) then audit[i].targetID == None && audit[i].prefix == ""
           else audit[i].targetID == Some(keys[|old(keys)|].id) && Heads(audit[i].prefix, bearer)
    {
      ghost var base := View();
      ghost var s := base;
      es := [];
      ghost var admit := Admit(0, req, verdict, bearer, db.denyLogged);
      Extend(limits, base, es, s, admit);
      es, s := es + [admit], Apply(limits, s, admit);

      assert audit + [] == audit;
      if !WellFormed(req) {
        return Refused(BadRequest), es;
      }
      if verdict == NotAllowed {
        LogDenial(req, db);
        return Refused(Forbidden), es;
      }
      if verdict == CheckFails {
        return Refused(Backend), es;
      }
      if verdict == TargetInactive {
        LogDenial(req, db);
        return Refused(BadRequest), es;
      }
      var preflight := CountInWindow(req, now);
      if preflight >= limits.perWindow {
        LogDenial(req, db);
        return Refused(RateLimited), es;
      }
      reply, es := RunTx(req, bearer, db, base, es, s);
    }

    /** The transaction: begin, lock, count again; then the writes. */
    method RunTx(req: Request, bearer: string, db: Answers, ghost base: State, ghost es0: seq<Event>, ghost s0: State)
      returns (reply: Reply, ghost es: seq<Event>)
      requires Exec(limits, base, es0) == Some(s0)
      requires s0 == View().(calls := map[0 := Ready(req, bearer)])
      requires WindowCount(limits, audit, req, now) < limits.perWindow
      modifies this`keys, this`audit, this`nextKeyID
      ensures Exec(limits, base, es) == Some(View().(calls := map[0 := Done(req, reply)]))
      ensures reply == if db.beginFails || db.lockFails || db.countFails then Refused(Backend)
                       else WriteOutcome(old(nextKeyID), bearer, db)
      ensures keys == old(keys) + Kept(req, bearer, db, old(nextKeyID))
      ensures audit == old(audit) + Logged(req, now, Kept(req, bearer, db, old(nextKeyID)))
    {
      ghost var s := s0;
      es := es0;
      if db.beginFails {
        EndAlone(limits, base, es, s, Fail(0));
        return Refused(Backend), es + [Fail(0)];
      }
      var startedAt := now;
      Extend(limits, base, es, s, Begin(0));
      es, s := es + [Begin(0)], Apply(limits, s, Begin(0));
      if db.lockFails {
        EndAlone(limits, base, es, s, Fail(0));
        return Refused(Backend), es + [Fail(0)];
      }
      Extend(limits, base, es, s, Lock(0));
      es, s := es + [Lock(0)], Apply(limits, s, Lock(0));
      if db.countFails {
        EndAlone(limits, base, es, s, Fail(0));
        return Refused(Backend), es + [Fail(0)];
      }
      var count := CountInWindow(req, startedAt);
      Extend(limits, base, es, s, Event.Count(0));
      es, s := es + [Event.Count(0)], Apply(limits, s, Event.Count(0));
      reply, es := Write(Tx(req, bearer, startedAt, count, 0), db, base, es, s);
    }

    method Write(tx: Tx, db: Answers, ghost base: State, ghost es0: seq<Event>, ghost s0: State)
      returns (reply: Reply, ghost es: seq<Event>)
      requires Exec(limits, base, es0) == Some(s0)
      requires s0 == View().(locks := map[tx.req.actor := 0], calls := map[0 := InTx(Counted, tx)])
      requires tx.count < limits.perWindow && !db.beginFails && !db.lockFails && !db.countFails
      modifies this`keys, this`audit, this`nextKeyID
      ensures Exec(limits, base, es) == Some(View().(calls := map[0 := Done(tx.req, reply)]))
      ensures reply == WriteOutcome(old(nextKeyID), tx.bearer, db)
      ensures keys == old(keys) + Kept(tx.req, tx.bearer, db, old(nextKeyID))
      ensures audit == old(audit) + Logged(tx.req, tx.startedAt, Kept(tx.req, tx.bearer, db, old(nextKeyID)))
    {
      ghost var s := s0;
      es := es0;
      if db.insert == InsertFails {
        EndAlone(limits, base, es, s, Fail(0));
        return Refused(Backend), es + [Fail(0)];
      }
      if db.insert == NoRows {
        EndAlone(limits, base, es, s, TargetGone(0));
        return Refused(BadRequest), es + [TargetGone(0)];
      }
      var keyID := nextKeyID;
      nextKeyID := nextKeyID + 1;
      InsertAlone(limits, base, es, s, tx);
      s := s.(nextKeyID := keyID + 1, calls := map[0 := InTx(Inserted, tx.(keyID := keyID))]);
      reply, es := Settle(tx.(keyID := keyID), db, base, es + [InsertKey(0)], s);
    }

    /** The audit row and the commit. */
    method Settle(tx: Tx, db: Answers, ghost base: State, ghost es0: seq<Event>, ghost s0: State)
      returns (reply: Reply, ghost es: seq<Event>)
      requires Exec(limits, base, es0) == Some(s0)
      requires s0 == View().(locks := map[tx.req.actor := 0], calls := map[0 := InTx(Inserted, tx)])
      modifies this`keys, this`audit
      ensures Exec(limits, base, es) == Some(View().(calls := map[0 := Done(tx.req, reply)]))
      ensures reply == if db.auditFails || db.commit != Acknowledged then Refused(Backend)
                       else Issued(tx.keyID, tx.bearer, Prefix(tx.bearer))
      ensures keys == old(keys) + if db.auditFails || db.commit == CommitRefused then [] else
        [KeyRow(tx.keyID, tx.req.tenantID, tx.req.userID, Bcrypt(tx.bearer), Prefix(tx.bearer), 0)]
      ensures audit == old(audit) + if db.auditFails || db.commit == CommitRefused then [] else
        [AuditRow(tx.req.actor, IssueAction, Some(tx.keyID), Prefix(tx.bearer), tx.startedAt)]
    {
      ghost var s := s0;
      es := es0;
      if db.auditFails {
        EndAlone(limits, base, es, s, Fail(0));
        return Refused(Backend), es + [Fail(0)];
      }
      AuditAlone(limits, base, es, s, tx);
      es, s := es + [InsertAudit(0)], s.(calls := map[0 := InTx(Written, tx)]);
      if db.commit == CommitRefused {
        EndAlone(limits, base, es, s, Fail(0));
        return Refused(Backend), es + [Fail(0)];
      }
      var acknowledged := db.commit == Acknowledged;
      CommitAlone(limits, base, es, s, tx, acknowledged);
      es := es + [Commit(0, acknowledged)];
      keys := keys + [KeyRow(tx.keyID, tx.req.tenantID, tx.req.userID, Bcrypt(tx.bearer), Prefix(tx.bearer), 0)];
      audit := audit + [AuditRow(tx.req.actor, IssueAction, Some(tx.keyID), Prefix(tx.bearer), tx.startedAt)];
      reply := if acknowledged then Issued(tx.keyID, tx.bearer, Prefix(tx.bearer)) else Refused(Backend);
    }
  }
}
