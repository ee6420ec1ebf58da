/**
 `KeyIssuer.Issue` run by any number of gateway replicas against one database. Every
 statement of a transaction is a step, so a schedule may stop a call between its count and
 its insert. `now()` in PostgreSQL is the start of the transaction, and that start is also
 the time stamp of the audit row the transaction writes.
 */
module KeyIssuance {
  import opened Options

  datatype Limits = Limits(perWindow: nat, window: nat)

  datatype Request = Request(
    actor: string, legacyActor: string, tenantID: int, userID: int, name: string, environment: string)

  const IssueAction := "issue_api_key"

  /** A row of `admin_audit_events`; only rows with a target count as issuances. */
  datatype AuditRow = AuditRow(actor: string, action: string, targetID: Option<nat>, prefix: string, at: int)

  /** The stored digest of a bearer; bcrypt is taken to reveal nothing and to collide never. */
  datatype Digest = Bcrypt(bearer: string)

  /** A row of `api_keys`; `caller` is history: the call that wrote it. */
  datatype KeyRow = KeyRow(id: nat, tenantID: int, userID: int, hash: Digest, prefix: string, caller: nat)

  datatype Error = BadRequest | Forbidden | RateLimited | Backend

  datatype Reply = Issued(keyID: nat, plaintext: string, prefix: string) | Refused(error: Error)

  datatype Tx = Tx(req: Request, bearer: string, startedAt: int, count: nat, keyID: nat)

  datatype Stage = Opened | Locked | Counted | Inserted | Written

  datatype Phase = Ready(req: Request, bearer: string) | InTx(stage: Stage, tx: Tx) | Done(req: Request, result: Reply)

  /** Committed rows, the key sequence, the advisory locks, and where every call stands. */
  datatype State = State(
    now: int, keys: seq<KeyRow>, audit: seq<AuditRow>, nextKeyID: nat,
    locks: map<string, nat>, calls: map<nat, Phase>)

  /** What the checks before the transaction find out. */
  datatype Verdict = Passes | NotAllowed | TargetInactive | CheckFails

  datatype Event =
    | Tick(duration: nat)
    | Admit(p: nat, req: Request, verdict: Verdict, bearer: string, denyLogged: bool)
    | Begin(p: nat)
    | Lock(p: nat)
    | Count(p: nat)
    | Reject(p: nat, denyLogged: bool)
    | InsertKey(p: nat)
    | TargetGone(p: nat)
    | InsertAudit(p: nat)
    | Commit(p: nat, acknowledged: bool)
    | Fail(p: nat)

  /** The rows a window count sees: issuances of these actors from an instant on, up to another. */
  datatype Filter = Filter(actors: set<string>, from: int, to: Option<int>)

  predicate Matches(f: Filter, r: AuditRow) {
    && r.action == IssueAction && r.targetID.Some? && r.actor in f.actors
    && f.from <= r.at && (f.to.Some? ==> r.at < f.to.value)
  }

  function Tally(rows: seq<AuditRow>, f: Filter): nat {
    if rows == [] then 0
    else Tally(rows[..|rows| - 1], f) + if Matches(f, rows[|rows| - 1]) then 1 else 0
  }

  /** `CountIssuanceInWindow`: rows of the actor or its legacy key later than `at - window`. */
  function WindowCount(limits: Limits, rows: seq<AuditRow>, req: Request, at: int): nat {
    Tally(rows, Filter({req.actor, req.legacyActor}, at - limits.window + 1, None))
  }

  function Prefix(bearer: string): string {
    if |bearer| > 16 then bearer[..16] else bearer
  }

  function DenyRows(req: Request, at: int, logged: bool): seq<AuditRow> {
    if logged then [AuditRow(req.actor, IssueAction, None, "", at)] else []
  }

  predicate WellFormed(req: Request) {
    && req.name != "" && req.tenantID != 0 && req.userID != 0
    && (req.environment == "live" || req.environment == "test")
  }

  predicate At(s: State, p: nat, stage: Stage) {
    p in s.calls && s.calls[p].InTx? && s.calls[p].stage == stage
  }

  predicate Enabled(limits: Limits, s: State, e: Event) {
    match e
    case Tick(_) => true
    case Admit(p, _, _, _, _) => p !in s.calls
    case Begin(p) => p in s.calls && s.calls[p].Ready?
    case Lock(p) => At(s, p, Opened) && s.calls[p].tx.req.actor !in s.locks
    case Count(p) => At(s, p, Locked)
    case Reject(p, _) => At(s, p, Counted) && s.calls[p].tx.count >= limits.perWindow
    case InsertKey(p) => At(s, p, Counted) && s.calls[p].tx.count < limits.perWindow
    case TargetGone(p) => At(s, p, Counted) && s.calls[p].tx.count < limits.perWindow
    case InsertAudit(p) => At(s, p, Inserted)
    case Commit(p, _) => At(s, p, Written)
    case Fail(p) => p in s.calls && !s.calls[p].Done?
  }

  /** The end of a transaction releases the lock it holds. */
  function Unlocked(s: State, p: nat): map<string, nat> {
    map a | a in s.locks && s.locks[a] != p :: s.locks[a]
  }

  function Refuse(s: State, p: nat, error: Error): State
    requires p in s.calls && !s.calls[p].Done?
  {
    var req := if s.calls[p].Ready? then s.calls[p].req else s.calls[p].tx.req;
    s.(locks := Unlocked(s, p), calls := s.calls[p := Done(req, Refused(error))])
  }

  function Admitted(limits: Limits, s: State, req: Request, verdict: Verdict, bearer: string): Phase {
    if !WellFormed(req) then Done(req, Refused(BadRequest))
    else
      match verdict
      case NotAllowed => Done(req, Refused(Forbidden))
      case TargetInactive => Done(req, Refused(BadRequest))
      case CheckFails => Done(req, Refused(Backend))
      case Passes =>
        if WindowCount(limits, s.audit, req, s.now) >= limits.perWindow then Done(req, Refused(RateLimited))
        else Ready(req, bearer)
  }

  function Apply(limits: Limits, s: State, e: Event): State
    requires Enabled(limits, s, e)
  {
    match e
    case Tick(d) => s.(now := s.now + d)
    case Admit(p, req, verdict, bearer, denyLogged) =>
      var phase := Admitted(limits, s, req, verdict, bearer);
      var denied := WellFormed(req) && phase.Done? && phase.result.error != Backend;
      s.(calls := s.calls[p := phase], audit := s.audit + DenyRows(req, s.now, denied && denyLogged))
    case Begin(p) =>
      s.(calls := s.calls[p := InTx(Opened, Tx(s.calls[p].req, s.calls[p].bearer, s.now, 0, 0))])
    case Lock(p) =>
      s.(locks := s.locks[s.calls[p].tx.req.actor := p], calls := s.calls[p := InTx(Locked, s.calls[p].tx)])
    case Count(p) =>
      var tx := s.calls[p].tx;
      s.(calls := s.calls[p := InTx(Counted, tx.(count := WindowCount(limits, s.audit, tx.req, tx.startedAt)))])
    case Reject(p, denyLogged) =>
      Refuse(s, p, RateLimited).(audit := s.audit + DenyRows(s.calls[p].tx.req, s.now, denyLogged))
    case InsertKey(p) =>
      s.(nextKeyID := s.nextKeyID + 1, calls := s.calls[p := InTx(Inserted, s.calls[p].tx.(keyID := s.nextKeyID))])
    case TargetGone(p) => Refuse(s, p, BadRequest)
    case InsertAudit(p) => s.(calls := s.calls[p := InTx(Written, s.calls[p].tx)])
    case Commit(p, acknowledged) =>
      var tx := s.calls[p].tx;
      var prefix := Prefix(tx.bearer);
      var result := if acknowledged then Issued(tx.keyID, tx.bearer, prefix) else Refused(Backend);
      s.(keys := s.keys + [KeyRow(tx.keyID, tx.req.tenantID, tx.req.userID, Bcrypt(tx.bearer), prefix, p)],
         audit := s.audit + [AuditRow(tx.req.actor, IssueAction, Some(tx.keyID), prefix, tx.startedAt)],
         locks := Unlocked(s, p),
         calls := s.calls[p := Done(tx.req, result)])
    case Fail(p) => Refuse(s, p, Backend)
  }

  function Exec(limits: Limits, base: State, es: seq<Event>): Option<State> {
    if es == [] then Some(base)
    else
      match Exec(limits, base, es[..|es| - 1])
      case None => None
      case Some(s) =>
        var e := es[|es| - 1];
        if Enabled(limits, s, e) then Some(Apply(limits, s, e)) else None
  }

  /** Any database at rest: no call running, and a key sequence beyond every identity in use. */
  ghost predicate AtRest(base: State) {
    && base.calls == map[] && base.locks == map[]
    && (forall i :: 0 <= i < |base.keys| ==> base.keys[i].id < base.nextKeyID)
    && (forall i :: 0 <= i < |base.audit| && base.audit[i].targetID.Some? ==>
          base.audit[i].targetID.value < base.nextKeyID)
  }

  // ------------------------------------------------------------------- counting

  lemma {:induction false} TallyMonotone(rows: seq<AuditRow>, f: Filter, g: Filter)
    requires f.actors <= g.actors && g.from <= f.from && g.to.None?
    ensures Tally(rows, f) <= Tally(rows, g)
  {
    if rows != [] {
      TallyMonotone(rows[..|rows| - 1], f, g);
    }
  }

  lemma {:induction false} TallyConcat(a: seq<AuditRow>, b: seq<AuditRow>, f: Filter)
    ensures Tally(a + b, f) == Tally(a, f) + Tally(b, f)
  {
    if b == [] {
      assert a + b == a;
    } else {
      assert (a + b)[..|a + b| - 1] == a + b[..|b| - 1];
      TallyConcat(a, b[..|b| - 1], f);
    }
  }

  /** The audit rows the run itself has written. */
  function Appended(base: State, s: State): seq<AuditRow> {
    if |base.audit| <= |s.audit| then s.audit[|base.audit|..] else []
  }

  // ------------------------------------------------------------------- the quota

  ghost predicate HoldsLock(s: State, p: nat) {
    p in s.calls && s.calls[p].InTx? && s.calls[p].stage != Opened
  }

  ghost predicate LockInv(s: State) {
    && (forall p :: HoldsLock(s, p) ==>
          s.calls[p].tx.req.actor in s.locks && s.locks[s.calls[p].tx.req.actor] == p)
    && (forall a :: a in s.locks ==> HoldsLock(s, s.locks[a]) && s.calls[s.locks[a]].tx.req.actor == a)
  }

  /** The issuances of the actor itself that lie in the window of a transaction. */
  function OwnCount(limits: Limits, rows: seq<AuditRow>, tx: Tx): nat {
    Tally(rows, Filter({tx.req.actor}, tx.startedAt - limits.window + 1, None))
  }

  /** A call that has counted and still holds its lock counted every issuance of its actor. */
  ghost predicate CountOk(limits: Limits, s: State, p: nat) {
    HoldsLock(s, p) && s.calls[p].stage != Locked ==>
      && OwnCount(limits, s.audit, s.calls[p].tx) <= s.calls[p].tx.count
      && (s.calls[p].stage != Counted ==> s.calls[p].tx.count < limits.perWindow)
  }

  /** The issuances of an actor in the half-open window that starts at an instant. */
  function InWindow(limits: Limits, rows: seq<AuditRow>, actor: string, lo: int): nat {
    Tally(rows, Filter({actor}, lo, Some(lo + limits.window)))
  }

  ghost predicate QuotaOk(limits: Limits, base: State, s: State, actor: string, lo: int) {
    InWindow(limits, Appended(base, s), actor, lo) <= limits.perWindow
  }

  ghost predicate QuotaInv(limits: Limits, base: State, s: State) {
    && base.audit <= s.audit
    && LockInv(s)
    && (forall p :: CountOk(limits, s, p))
    && (forall actor, lo :: QuotaOk(limits, base, s, actor, lo))
  }

  lemma LockStep(limits: Limits, s: State, e: Event)
    requires LockInv(s) && Enabled(limits, s, e)
    ensures LockInv(Apply(limits, s, e))
  {
    var t := Apply(limits, s, e);
    if !e.Tick? {
      assert forall q :: q != e.p ==> (HoldsLock(t, q) <==> HoldsLock(s, q));
      forall a | a in t.locks ensures HoldsLock(t, t.locks[a]) && t.calls[t.locks[a]].tx.req.actor == a {
        assert a in s.locks ==> HoldsLock(s, s.locks[a]);
      }
      forall q | HoldsLock(t, q) ensures t.calls[q].tx.req.actor in t.locks && t.locks[t.calls[q].tx.req.actor] == q {
        assert q != e.p ==> HoldsLock(s, q);
        assert HoldsLock(s, e.p) ==> s.locks[s.calls[e.p].tx.req.actor] == e.p;
      }
    }
  }

  /** Under the lock of its own actor a call counts all the others: nobody else can add to its window. */
  lemma CountCommit(limits: Limits, s: State, p: nat, acknowledged: bool, q: nat)
    requires LockInv(s) && At(s, p, Written) && CountOk(limits, s, q)
    ensures CountOk(limits, Apply(limits, s, Commit(p, acknowledged)), q)
  {
  }

  /** A new row keeps every window of its actor within the limit, because its own call counted that window. */
  lemma QuotaCommit(limits: Limits, base: State, s: State, p: nat, acknowledged: bool, actor: string, lo: int)
    requires base.audit <= s.audit && At(s, p, Written)
    requires CountOk(limits, s, p) && QuotaOk(limits, base, s, actor, lo)
    ensures QuotaOk(limits, base, Apply(limits, s, Commit(p, acknowledged)), actor, lo)
  {
    var t := Apply(limits, s, Commit(p, acknowledged));
    var tx := s.calls[p].tx;
    var row := t.audit[|s.audit|];
    var f := Filter({actor}, lo, Some(lo + limits.window));
    assert HoldsLock(s, p);
    assert Appended(base, t) == Appended(base, s) + [row];
    TallyOne(Appended(base, s), row, f);
    if Matches(f, row) {
      OwnCountCovers(limits, base, s, tx, lo);
    }
  }

  /** A window that contains the start of a transaction has no row its own count would miss. */
  lemma OwnCountCovers(limits: Limits, base: State, s: State, tx: Tx, lo: int)
    requires base.audit <= s.audit && lo <= tx.startedAt < lo + limits.window
    ensures InWindow(limits, Appended(base, s), tx.req.actor, lo) <= OwnCount(limits, s.audit, tx)
  {
    var g := Filter({tx.req.actor}, tx.startedAt - limits.window + 1, None);
    assert s.audit == base.audit + Appended(base, s);
    TallyConcat(base.audit, Appended(base, s), g);
    TallyMonotone(Appended(base, s), Filter({tx.req.actor}, lo, Some(lo + limits.window)), g);
  }

  lemma TallyOne(rows: seq<AuditRow>, row: AuditRow, f: Filter)
    ensures Tally(rows + [row], f) == Tally(rows, f) + if Matches(f, row) then 1 else 0
  {
  }

  /** Steps that write no counted row. */
  lemma QuotaOther(limits: Limits, base: State, s: State, e: Event)
    requires QuotaInv(limits, base, s) && Enabled(limits, s, e) && !e.Commit?
    ensures QuotaInv(limits, base, Apply(limits, s, e))
  {
    var t := Apply(limits, s, e);
    forall f
      ensures Tally(t.audit, f) == Tally(s.audit, f)
      ensures Tally(Appended(base, t), f) == Tally(Appended(base, s), f)
    {
      NothingCounted(limits, base, s, e, f);
    }
    LockStep(limits, s, e);
    forall q ensures CountOk(limits, t, q) {
      CountOther(limits, s, e, q);
    }
    forall actor, lo ensures QuotaOk(limits, base, t, actor, lo) {
      assert QuotaOk(limits, base, s, actor, lo);
    }
  }

  lemma CountOther(limits: Limits, s: State, e: Event, q: nat)
    requires Enabled(limits, s, e) && !e.Commit? && CountOk(limits, s, q)
    requires forall f :: Tally(Apply(limits, s, e).audit, f) == Tally(s.audit, f)
    ensures CountOk(limits, Apply(limits, s, e), q)
  {
    var t := Apply(limits, s, e);
    if HoldsLock(t, q) && t.calls[q].stage != Locked {
      var tx := t.calls[q].tx;
      if e == Count(q) {
        TallyMonotone(s.audit, Filter({tx.req.actor}, tx.startedAt - limits.window + 1, None),
                      Filter({tx.req.actor, tx.req.legacyActor}, tx.startedAt - limits.window + 1, None));
      } else {
        assert HoldsLock(s, q) && s.calls[q].stage != Locked;
        assert OwnCount(limits, s.audit, tx) == OwnCount(limits, s.audit, s.calls[q].tx);
      }
    }
  }

  lemma NothingCounted(limits: Limits, base: State, s: State, e: Event, f: Filter)
    requires base.audit <= s.audit && Enabled(limits, s, e) && !e.Commit?
    ensures Tally(Apply(limits, s, e).audit, f) == Tally(s.audit, f)
    ensures Tally(Appended(base, Apply(limits, s, e)), f) == Tally(Appended(base, s), f)
  {
    var t := Apply(limits, s, e);
    if |t.audit| > |s.audit| {
      var row := t.audit[|s.audit|];
      assert t.audit == s.audit + [row] && !Matches(f, row);
      assert Appended(base, t) == Appended(base, s) + [row];
      TallyOne(s.audit, row, f);
      TallyOne(Appended(base, s), row, f);
    } else {
      assert t.audit == s.audit;
    }
  }

  lemma {:induction false} QuotaHolds(limits: Limits, base: State, es: seq<Event>)
    requires AtRest(base) && Exec(limits, base, es).Some?
    ensures QuotaInv(limits, base, Exec(limits, base, es).value)
  {
    if es == [] {
      assert Appended(base, base) == [];
    } else {
      QuotaHolds(limits, base, es[..|es| - 1]);
      var s, e := Exec(limits, base, es[..|es| - 1]).value, es[|es| - 1];
      match e
      case Commit(p, acknowledged) =>
        LockStep(limits, s, e);
        forall q ensures CountOk(limits, Apply(limits, s, e), q) { CountCommit(limits, s, p, acknowledged, q); }
        forall actor, lo ensures QuotaOk(limits, base, Apply(limits, s, e), actor, lo) {
          QuotaCommit(limits, base, s, p, acknowledged, actor, lo);
        }
      case _ => QuotaOther(limits, base, s, e);
    }
  }

  lemma {:induction false} SetTally(rows: seq<AuditRow>, f: Filter, S: set<nat>)
    requires forall i :: i in S ==> i < |rows| && Matches(f, rows[i])
    ensures |S| <= Tally(rows, f)
  {
    if rows == [] {
      assert S == {};
    } else {
      var last := |rows| - 1;
      SetTally(rows[..last], f, S - {last});
      assert |S| <= |S - {last}| + if last in S then 1 else 0;
    }
  }

  lemma {:induction false} EarliestOf(rows: seq<AuditRow>, S: set<nat>) returns (m: nat)
    requires S != {} && forall i :: i in S ==> i < |rows|
    ensures m in S && forall i :: i in S ==> rows[m].at <= rows[i].at
    decreases |S|
  {
    m :| m in S;
    if S != {m} {
      var rest := EarliestOf(rows, S - {m});
      if rows[rest].at < rows[m].at { m := rest; }
    }
  }

  /**
   The issuance quota over any number of replicas: among the rows the run committed, any set
   of issuances of one actor whose time stamps lie less than one window apart has at most
   `perWindow` members.
   */
  lemma IssuanceQuota(limits: Limits, base: State, es: seq<Event>, actor: string, S: set<nat>)
    requires AtRest(base) && Exec(limits, base, es).Some?
    requires var rows := Appended(base, Exec(limits, base, es).value);
      && (forall i :: i in S ==>
            i < |rows| && rows[i].actor == actor && rows[i].action == IssueAction && rows[i].targetID.Some?)
      && (forall i, j :: i in S && j in S ==> rows[i].at - rows[j].at < limits.window)
    ensures |S| <= limits.perWindow
  {
    var rows := Appended(base, Exec(limits, base, es).value);
    if S != {} {
      var m := EarliestOf(rows, S);
      QuotaAt(limits, base, es, actor, rows[m].at);
      SpanBound(limits, rows, actor, S, m);
    }
  }

  lemma QuotaAt(limits: Limits, base: State, es: seq<Event>, actor: string, lo: int)
    requires AtRest(base) && Exec(limits, base, es).Some?
    ensures QuotaOk(limits, base, Exec(limits, base, es).value, actor, lo)
  {
    QuotaHolds(limits, base, es);
  }

  lemma SpanBound(limits: Limits, rows: seq<AuditRow>, actor: string, S: set<nat>, m: nat)
    requires m < |rows|
    requires forall i :: i in S ==>
      i < |rows| && rows[i].actor == actor && rows[i].action == IssueAction && rows[i].targetID.Some?
    requires forall i :: i in S ==> rows[m].at <= rows[i].at < rows[m].at + limits.window
    ensures |S| <= InWindow(limits, rows, actor, rows[m].at)
  {
    SetTally(rows, Filter({actor}, rows[m].at, Some(rows[m].at + limits.window)), S);
  }

  // ------------------------------------------------- keys, audit rows and answers

  /** The issuances among the rows, oldest first. */
  function Issues(rows: seq<AuditRow>): seq<AuditRow> {
    if rows == [] then []
    else
      var last := rows[|rows| - 1];
      Issues(rows[..|rows| - 1]) + if last.action == IssueAction && last.targetID.Some? then [last] else []
  }

  function NewKeys(base: State, s: State): seq<KeyRow> {
    if |base.keys| <= |s.keys| then s.keys[|base.keys|..] else []
  }

  ghost predicate Pending(s: State, p: nat) {
    At(s, p, Inserted) || At(s, p, Written)
  }

  /** What a call was told agrees with the key it committed. */
  ghost predicate AnswerOk(s: State, k: KeyRow) {
    && k.caller in s.calls && s.calls[k.caller].Done?
    && k.prefix == Prefix(k.hash.bearer)
    && match s.calls[k.caller].result
       case Issued(id, plaintext, prefix) => k.id == id && k.hash == Bcrypt(plaintext) && k.prefix == prefix
       case Refused(error) => error == Backend
  }

  ghost predicate Logs(row: AuditRow, k: KeyRow) {
    row.targetID == Some(k.id) && row.prefix == k.prefix
  }

  /** Keys and the rows naming them, pairwise, with identities in a range and no call twice. */
  ghost predicate KeysLogged(keys: seq<KeyRow>, issues: seq<AuditRow>, lo: nat, hi: nat) {
    && |issues| == |keys|
    && (forall i :: 0 <= i < |keys| ==> lo <= keys[i].id < hi && Logs(issues[i], keys[i]))
    && (forall i, j :: 0 <= i < j < |keys| ==> keys[i].id != keys[j].id)
  }

  ghost predicate AnswersOk(s: State, keys: seq<KeyRow>) {
    && (forall i :: 0 <= i < |keys| ==> AnswerOk(s, keys[i]))
    && (forall i, j :: 0 <= i < j < |keys| ==> keys[i].caller != keys[j].caller)
  }

  /** The identities drawn by open transactions are new, and no two of them are equal. */
  ghost predicate PendingOk(s: State, keys: seq<KeyRow>, lo: nat) {
    PendingDiffer(s, lo) && PendingAreNew(s, keys)
  }

  ghost predicate PendingDiffer(s: State, lo: nat) {
    && (forall p :: Pending(s, p) ==> lo <= s.calls[p].tx.keyID < s.nextKeyID)
    && (forall p, q :: Pending(s, p) && Pending(s, q) && p != q ==> s.calls[p].tx.keyID != s.calls[q].tx.keyID)
  }

  ghost predicate PendingAreNew(s: State, keys: seq<KeyRow>) {
    forall p, i :: Pending(s, p) && 0 <= i < |keys| ==> s.calls[p].tx.keyID != keys[i].id
  }

  ghost predicate Committed(keys: seq<KeyRow>, p: nat) {
    exists i :: 0 <= i < |keys| && keys[i].caller == p
  }

  /** Whoever was given a plaintext committed a key. */
  ghost predicate IssuedOk(s: State, keys: seq<KeyRow>) {
    forall p :: p in s.calls && s.calls[p].Done? && s.calls[p].result.Issued? ==> Committed(keys, p)
  }

  ghost predicate KeyInv(base: State, s: State) {
    && base.keys <= s.keys && base.audit <= s.audit
    && KeysLogged(NewKeys(base, s), Issues(Appended(base, s)), base.nextKeyID, s.nextKeyID)
    && AnswersOk(s, NewKeys(base, s))
    && PendingOk(s, NewKeys(base, s), base.nextKeyID)
    && IssuedOk(s, NewKeys(base, s))
    && base.nextKeyID <= s.nextKeyID
  }

  lemma IssuesOne(rows: seq<AuditRow>, row: AuditRow)
    ensures Issues(rows + [row]) == Issues(rows) + if row.action == IssueAction && row.targetID.Some? then [row] else []
  {
  }

  /** A commit adds one key and the row naming it; other steps add a refusal row at most. */
  lemma RowsAdded(limits: Limits, s: State, e: Event)
    requires Enabled(limits, s, e)
    ensures var t := Apply(limits, s, e);
      && t.keys == s.keys + (if e.Commit? then [t.keys[|s.keys|]] else [])
      && (t.audit == s.audit || (
            && t.audit == s.audit + [t.audit[|s.audit|]]
            && (t.audit[|s.audit|].targetID.Some? <==> e.Commit?)
            && (e.Commit? ==> t.audit[|s.audit|].action == IssueAction)))
      && (e.Commit? ==> |t.audit| == |s.audit| + 1)
  {
  }

  lemma StepShape(limits: Limits, base: State, s: State, e: Event)
    requires base.keys <= s.keys && base.audit <= s.audit && Enabled(limits, s, e)
    ensures var t := Apply(limits, s, e);
      && base.keys <= t.keys && base.audit <= t.audit
      && NewKeys(base, t) == NewKeys(base, s) + (if e.Commit? then [t.keys[|s.keys|]] else [])
      && Issues(Appended(base, t)) == Issues(Appended(base, s)) + (if e.Commit? then [t.audit[|s.audit|]] else [])
  {
    RowsAdded(limits, s, e);
    ShapeOf(base, s, Apply(limits, s, e), e.Commit?);
  }

  lemma ShapeOf(base: State, s: State, t: State, commit: bool)
    requires base.keys <= s.keys && base.audit <= s.audit
    requires commit ==> |t.keys| > |s.keys| && |t.audit| > |s.audit|
    requires t.keys == s.keys + if commit then [t.keys[|s.keys|]] else []
    requires (t.audit == s.audit && !commit) || (
      && |t.audit| > |s.audit|
      && t.audit == s.audit + [t.audit[|s.audit|]]
      && (t.audit[|s.audit|].targetID.Some? <==> commit) && (commit ==> t.audit[|s.audit|].action == IssueAction))
    ensures NewKeys(base, t) == NewKeys(base, s) + if commit then [t.keys[|s.keys|]] else []
    ensures Issues(Appended(base, t)) == Issues(Appended(base, s)) + if commit then [t.audit[|s.audit|]] else []
  {
    if |t.audit| > |s.audit| {
      assert Appended(base, t) == Appended(base, s) + [t.audit[|s.audit|]];
      IssuesOne(Appended(base, s), t.audit[|s.audit|]);
    }
  }

  lemma AnswersStep(limits: Limits, s: State, e: Event, keys: seq<KeyRow>)
    requires AnswersOk(s, keys) && Enabled(limits, s, e)
    ensures var t := Apply(limits, s, e); AnswersOk(t, keys + if e.Commit? then [t.keys[|s.keys|]] else [])
  {
  }

  lemma IssuedStep(limits: Limits, s: State, e: Event, keys: seq<KeyRow>)
    requires IssuedOk(s, keys) && Enabled(limits, s, e)
    ensures var t := Apply(limits, s, e); IssuedOk(t, keys + if e.Commit? then [t.keys[|s.keys|]] else [])
  {
    var t := Apply(limits, s, e);
    var now := keys + if e.Commit? then [t.keys[|s.keys|]] else [];
    forall p | p in t.calls && t.calls[p].Done? && t.calls[p].result.Issued? ensures Committed(now, p) {
      if e.Commit? && p == e.p {
        assert now[|keys|].caller == p;
      } else {
        var i :| 0 <= i < |keys| && keys[i].caller == p;
        assert now[i].caller == p;
      }
    }
  }

  /** Only the drawing of an identity creates a pending one. */
  lemma PendingBefore(limits: Limits, s: State, e: Event, q: nat)
    requires Enabled(limits, s, e) && Pending(Apply(limits, s, e), q) && e != InsertKey(q)
    ensures Pending(s, q) && Apply(limits, s, e).calls[q].tx.keyID == s.calls[q].tx.keyID
    ensures e.Commit? ==> e.p != q
  {
  }

  lemma PendingStep(limits: Limits, s: State, e: Event, keys: seq<KeyRow>, lo: nat)
    requires PendingOk(s, keys, lo) && Enabled(limits, s, e) && lo <= s.nextKeyID
    requires forall i :: 0 <= i < |keys| ==> keys[i].id < s.nextKeyID
    ensures var t := Apply(limits, s, e); PendingOk(t, keys + (if e.Commit? then [t.keys[|s.keys|]] else []), lo)
  {
    DifferStep(limits, s, e, lo);
    var t := Apply(limits, s, e);
    var now := keys + if e.Commit? then [t.keys[|s.keys|]] else [];
    assert e.Commit? ==> Pending(s, e.p) && now[|keys|].id == s.calls[e.p].tx.keyID;
    forall p, i | Pending(t, p) && 0 <= i < |now| ensures t.calls[p].tx.keyID != now[i].id {
      if e != InsertKey(p) { PendingBefore(limits, s, e, p); }
    }
  }

  lemma DifferStep(limits: Limits, s: State, e: Event, lo: nat)
    requires PendingDiffer(s, lo) && Enabled(limits, s, e) && lo <= s.nextKeyID
    ensures PendingDiffer(Apply(limits, s, e), lo)
  {
    var t := Apply(limits, s, e);
    forall p | Pending(t, p) ensures lo <= t.calls[p].tx.keyID < t.nextKeyID {
      if e != InsertKey(p) { PendingBefore(limits, s, e, p); }
    }
    forall p, q | Pending(t, p) && Pending(t, q) && p != q ensures t.calls[p].tx.keyID != t.calls[q].tx.keyID {
      if e != InsertKey(p) { PendingBefore(limits, s, e, p); }
      if e != InsertKey(q) { PendingBefore(limits, s, e, q); }
    }
  }

  lemma LoggedStep(limits: Limits, s: State, e: Event, keys: seq<KeyRow>, issues: seq<AuditRow>, lo: nat)
    requires KeysLogged(keys, issues, lo, s.nextKeyID) && PendingOk(s, keys, lo) && Enabled(limits, s, e)
    ensures var t := Apply(limits, s, e);
      KeysLogged(keys + (if e.Commit? then [t.keys[|s.keys|]] else []),
                 issues + (if e.Commit? then [t.audit[|s.audit|]] else []), lo, t.nextKeyID)
  {
  }

  lemma {:induction false} KeyHolds(limits: Limits, base: State, es: seq<Event>)
    requires AtRest(base) && Exec(limits, base, es).Some?
    ensures KeyInv(base, Exec(limits, base, es).value)
  {
    if es != [] {
      KeyHolds(limits, base, es[..|es| - 1]);
      var s, e := Exec(limits, base, es[..|es| - 1]).value, es[|es| - 1];
      StepShape(limits, base, s, e);
      AnswersStep(limits, s, e, NewKeys(base, s));
      IssuedStep(limits, s, e, NewKeys(base, s));
      PendingStep(limits, s, e, NewKeys(base, s), base.nextKeyID);
      LoggedStep(limits, s, e, NewKeys(base, s), Issues(Appended(base, s)), base.nextKeyID);
    }
  }

  /**
   Every key the run committed is named by exactly one issuance row, in the same order and
   with its own prefix, and every issuance row names such a key.
   */
  lemma OneAuditRowPerKey(limits: Limits, base: State, es: seq<Event>)
    requires AtRest(base) && Exec(limits, base, es).Some?
    ensures var s := Exec(limits, base, es).value;
      var keys, issues := NewKeys(base, s), Issues(Appended(base, s));
      && |issues| == |keys|
      && forall i, j :: 0 <= i < |keys| && 0 <= j < |keys| ==> (Logs(issues[j], keys[i]) <==> i == j)
  {
    KeyHolds(limits, base, es);
    var s := Exec(limits, base, es).value;
    var keys, issues := NewKeys(base, s), Issues(Appended(base, s));
    forall i, j | 0 <= i < |keys| && 0 <= j < |keys| ensures Logs(issues[j], keys[i]) <==> i == j {
      assert Logs(issues[j], keys[j]);
    }
  }

  /**
   A call is given a plaintext only after its key is committed, and it is the plaintext of
   that key. A call that is still running, or was refused for any reason but a database
   failure, has committed nothing; no call commits two keys.
   */
  lemma PlaintextAfterCommit(limits: Limits, base: State, es: seq<Event>, p: nat)
    requires AtRest(base) && Exec(limits, base, es).Some? && p in Exec(limits, base, es).value.calls
    ensures var s := Exec(limits, base, es).value;
      var keys := NewKeys(base, s);
      && (s.calls[p].Done? && s.calls[p].result.Issued? ==>
            exists i :: 0 <= i < |keys| && keys[i].caller == p && keys[i].id == s.calls[p].result.keyID
              && keys[i].hash == Bcrypt(s.calls[p].result.plaintext))
      && (forall i :: 0 <= i < |keys| && keys[i].caller == p ==>
            s.calls[p].Done? && (s.calls[p].result.Issued? || s.calls[p].result == Refused(Backend)))
      && (forall i, j :: 0 <= i < |keys| && 0 <= j < |keys| && keys[i].caller == p && keys[j].caller == p ==> i == j)
  {
    KeyHolds(limits, base, es);
    var s := Exec(limits, base, es).value;
    var keys := NewKeys(base, s);
    if s.calls[p].Done? && s.calls[p].result.Issued? {
      var i :| 0 <= i < |keys| && keys[i].caller == p;
      assert AnswerOk(s, keys[i]);
    }
    forall i | 0 <= i < |keys| && keys[i].caller == p ensures AnswerOk(s, keys[i]) {}
  }

  // ------------------------------------------------- where the keys come from, and what is kept of them

  /** No row has more than sixteen characters of a bearer, and a row that is no issuance has none. */
  ghost predicate PrefixesOk(rows: seq<AuditRow>) {
    forall i :: 0 <= i < |rows| ==> |rows[i].prefix| <= 16 && (rows[i].targetID.None? ==> rows[i].prefix == "")
  }

  lemma {:induction false} PrefixesHold(limits: Limits, base: State, es: seq<Event>)
    requires AtRest(base) && Exec(limits, base, es).Some?
    ensures base.audit <= Exec(limits, base, es).value.audit
    ensures PrefixesOk(Appended(base, Exec(limits, base, es).value))
  {
    if es != [] {
      PrefixesHold(limits, base, es[..|es| - 1]);
      var s := Exec(limits, base, es[..|es| - 1]).value;
      RowsAdded(limits, s, es[|es| - 1]);
      var t := Exec(limits, base, es).value;
      if t.audit != s.audit {
        assert Appended(base, t) == Appended(base, s) + [t.audit[|s.audit|]];
      }
    }
  }

  /** What is kept of a bearer, and told of it, is its first sixteen characters, or all of a shorter one. */
  predicate Heads(prefix: string, bearer: string) {
    prefix <= bearer && |prefix| == if |bearer| < 16 then |bearer| else 16
  }

  /**
   In every run the key rows, the issuance rows and the replies carry the head of the bearer and
   no more of it: no committed row has a bearer longer than that.
   */
  lemma OnlyHeadsAreKept(limits: Limits, base: State, es: seq<Event>)
    requires AtRest(base) && Exec(limits, base, es).Some?
    ensures var s := Exec(limits, base, es).value;
      var keys, issues := NewKeys(base, s), Issues(Appended(base, s));
      && |issues| == |keys|
      && (forall i :: 0 <= i < |keys| ==>
            Heads(keys[i].prefix, keys[i].hash.bearer) && issues[i].prefix == keys[i].prefix)
      && (forall p :: p in s.calls && s.calls[p].Done? && s.calls[p].result.Issued? ==>
            Heads(s.calls[p].result.prefix, s.calls[p].result.plaintext))
      && PrefixesOk(Appended(base, s))
  {
    KeyHolds(limits, base, es);
    PrefixesHold(limits, base, es);
    var s := Exec(limits, base, es).value;
    var keys := NewKeys(base, s);
    forall i | 0 <= i < |keys| ensures AnswerOk(s, keys[i]) && Logs(Issues(Appended(base, s))[i], keys[i]) {}
    forall p | p in s.calls && s.calls[p].Done? && s.calls[p].result.Issued?
      ensures Heads(s.calls[p].result.prefix, s.calls[p].result.plaintext)
    {
      var i :| 0 <= i < |keys| && keys[i].caller == p;
      assert AnswerOk(s, keys[i]);
    }
  }

  /** A call that passed the permission check, for an active target, with a request that is well formed. */
  ghost predicate Passed(es: seq<Event>, i: nat, p: nat, req: Request, bearer: string) {
    && i < |es| && es[i].Admit? && es[i].p == p && es[i].req == req && es[i].bearer == bearer && es[i].verdict == Passes
    && req.name != "" && req.tenantID != 0 && req.userID != 0 && req.environment in {"live", "test"}
  }

  ghost predicate WasPassed(es: seq<Event>, p: nat, req: Request, bearer: string) {
    exists i :: 0 <= i < |es| && Passed(es, i, p, req, bearer)
  }

  lemma PassedBefore(es: seq<Event>, e: Event, p: nat, req: Request, bearer: string)
    requires WasPassed(es, p, req, bearer)
    ensures WasPassed(es + [e], p, req, bearer)
  {
    var i :| 0 <= i < |es| && Passed(es, i, p, req, bearer);
    assert Passed(es + [e], i, p, req, bearer);
  }

  /** Only a call that passed gets as far as a transaction. */
  lemma {:induction false} RunningWasPassed(limits: Limits, base: State, es: seq<Event>, p: nat)
    requires AtRest(base) && Exec(limits, base, es).Some?
    requires p in Exec(limits, base, es).value.calls && !Exec(limits, base, es).value.calls[p].Done?
    ensures match Exec(limits, base, es).value.calls[p]
            case Ready(req, bearer) => WasPassed(es, p, req, bearer)
            case InTx(_, tx) => WasPassed(es, p, tx.req, tx.bearer)
  {
    var front, e := es[..|es| - 1], es[|es| - 1];
    var s, t := Exec(limits, base, front).value, Exec(limits, base, es).value;
    assert es == front + [e];
    if e.Admit? && e.p == p {
      assert Passed(es, |front|, p, e.req, e.bearer);
    } else {
      RunningWasPassed(limits, base, front, p);
      var req, bearer := if s.calls[p].Ready? then s.calls[p].req else s.calls[p].tx.req,
                         if s.calls[p].Ready? then s.calls[p].bearer else s.calls[p].tx.bearer;
      PassedBefore(front, e, p, req, bearer);
    }
  }

  /** The key was written for a call that passed, and as that call asked. */
  ghost predicate AsAsked(es: seq<Event>, k: KeyRow) {
    exists i :: 0 <= i < |es| && es[i].Admit? && k.tenantID == es[i].req.tenantID && k.userID == es[i].req.userID
      && Passed(es, i, k.caller, es[i].req, k.hash.bearer)
  }

  lemma AskedBefore(es: seq<Event>, e: Event, k: KeyRow)
    requires AsAsked(es, k)
    ensures AsAsked(es + [e], k)
  {
    var i :| 0 <= i < |es| && es[i].Admit? && k.tenantID == es[i].req.tenantID && k.userID == es[i].req.userID
      && Passed(es, i, k.caller, es[i].req, k.hash.bearer);
    assert (es + [e])[i] == es[i] && Passed(es + [e], i, k.caller, es[i].req, k.hash.bearer);
  }

  /**
   Every key the run committed goes back to an admission of its own call, with permission and an
   active target, and carries the tenant, the user and the bearer of that admission.
   */
  lemma {:induction false} KeysWereAdmitted(limits: Limits, base: State, es: seq<Event>)
    requires AtRest(base) && Exec(limits, base, es).Some?
    ensures base.keys <= Exec(limits, base, es).value.keys
    ensures forall k :: k in NewKeys(base, Exec(limits, base, es).value) ==> AsAsked(es, k)
  {
    if es != [] {
      var front, e := es[..|es| - 1], es[|es| - 1];
      KeysWereAdmitted(limits, base, front);
      var s, t := Exec(limits, base, front).value, Exec(limits, base, es).value;
      RowsAdded(limits, s, e);
      assert es == front + [e];
      forall k | k in NewKeys(base, t) ensures AsAsked(es, k) {
        if k in NewKeys(base, s) {
          AskedBefore(front, e, k);
        } else {
          AdmittedNow(limits, base, front, e, k);
        }
      }
    }
  }

  lemma AdmittedNow(limits: Limits, base: State, front: seq<Event>, e: Event, k: KeyRow)
    requires AtRest(base) && Exec(limits, base, front).Some? && Enabled(limits, Exec(limits, base, front).value, e)
    requires var s := Exec(limits, base, front).value; e.Commit? && k == Apply(limits, s, e).keys[|s.keys|]
    ensures AsAsked(front + [e], k)
  {
    var tx := Exec(limits, base, front).value.calls[e.p].tx;
    RunningWasPassed(limits, base, front, e.p);
    var i :| 0 <= i < |front| && Passed(front, i, e.p, tx.req, tx.bearer);
    assert AsAsked(front, k);
    AskedBefore(front, e, k);
  }

  // ---------------------------------------------------------------- refusals are due

  /** At event n the call counted this number of issuances in its window. */
  ghost predicate CountedAt(limits: Limits, base: State, es: seq<Event>, n: nat, p: nat, count: nat) {
    && n < |es| && es[n] == Event.Count(p) && Exec(limits, base, es[..n]).Some?
    && var s := Exec(limits, base, es[..n]).value;
    && p in s.calls && s.calls[p].InTx?
    && count == WindowCount(limits, s.audit, s.calls[p].tx.req, s.calls[p].tx.startedAt)
  }

  lemma CountedBefore(limits: Limits, base: State, es: seq<Event>, e: Event, n: nat, p: nat, count: nat)
    requires CountedAt(limits, base, es, n, p, count)
    ensures CountedAt(limits, base, es + [e], n, p, count)
  {
    assert (es + [e])[..n] == es[..n];
  }

  /** What a call past its count goes by is what it counted under its lock. */
  lemma {:induction false} CountIsItsOwn(limits: Limits, base: State, es: seq<Event>, p: nat) returns (n: nat)
    requires AtRest(base) && Exec(limits, base, es).Some?
    requires At(Exec(limits, base, es).value, p, Counted) || Pending(Exec(limits, base, es).value, p)
    ensures CountedAt(limits, base, es, n, p, Exec(limits, base, es).value.calls[p].tx.count)
  {
    var front, e := es[..|es| - 1], es[|es| - 1];
    assert es == front + [e];
    if e == Event.Count(p) {
      n := |front|;
    } else {
      n := CountIsItsOwn(limits, base, front, p);
      CountedBefore(limits, base, front, e, n, p, Exec(limits, base, es).value.calls[p].tx.count);
    }
  }

  /**
   A call is turned away for the rate, or for a target that has gone, according to what it
   counted under its lock: the window was full, or it was not.
   */
  lemma TurnedAwayByCount(limits: Limits, base: State, es: seq<Event>, e: Event) returns (n: nat, count: nat)
    requires AtRest(base) && Exec(limits, base, es).Some? && Enabled(limits, Exec(limits, base, es).value, e)
    requires e.Reject? || e.TargetGone? || e.InsertKey?
    ensures CountedAt(limits, base, es, n, e.p, count) && (e.Reject? <==> count >= limits.perWindow)
  {
    n := CountIsItsOwn(limits, base, es, e.p);
    count := Exec(limits, base, es).value.calls[e.p].tx.count;
  }

  /** The time that has passed in a run. */
  function Elapsed(es: seq<Event>): nat {
    if es == [] then 0
    else Elapsed(es[..|es| - 1]) + if es[|es| - 1].Tick? then es[|es| - 1].duration else 0
  }

  lemma {:induction false} TimePasses(limits: Limits, base: State, es: seq<Event>)
    requires Exec(limits, base, es).Some?
    ensures Exec(limits, base, es).value.now == base.now + Elapsed(es)
  {
    if es != [] {
      TimePasses(limits, base, es[..|es| - 1]);
    }
  }

  /**
   A call that finds the window full under its lock ends with the rate limit, and its refusal is
   logged, unless the log fails, as a row of its actor without a target; nothing else is written.
   */
  lemma RejectionIsLogged(limits: Limits, s: State, p: nat, denyLogged: bool)
    requires Enabled(limits, s, Reject(p, denyLogged))
    ensures var t := Apply(limits, s, Reject(p, denyLogged));
      && p in t.calls && t.calls[p] == Done(s.calls[p].tx.req, Refused(RateLimited)) && t.keys == s.keys
      && (!denyLogged ==> t.audit == s.audit)
      && (denyLogged ==>
            |t.audit| == |s.audit| + 1 && s.audit <= t.audit
            && var row := t.audit[|s.audit|];
            row.actor == s.calls[p].tx.req.actor && row.action == IssueAction && row.targetID == None
            && row.prefix == "" && row.at == s.now)
  {
  }

  // ------------------------------------------------------------------ nobody is stuck

  /** The step a call takes next when nothing fails. */
  function NextOf(limits: Limits, s: State, p: nat): Event
    requires p in s.calls && !s.calls[p].Done?
  {
    match s.calls[p]
    case Ready(_, _) => Begin(p)
    case InTx(stage, tx) =>
      match stage
      case Opened => Lock(p)
      case Locked => Event.Count(p)
      case Counted => if tx.count < limits.perWindow then InsertKey(p) else Reject(p, true)
      case Inserted => InsertAudit(p)
      case Written => Commit(p, true)
  }

  /** A call that has not ended can go on, or waits for the lock of its actor; and then its holder can go on. */
  lemma SomebodyGoesOn(limits: Limits, base: State, es: seq<Event>, p: nat) returns (q: nat)
    requires AtRest(base) && Exec(limits, base, es).Some?
    requires var s := Exec(limits, base, es).value; p in s.calls && !s.calls[p].Done?
    ensures var s := Exec(limits, base, es).value;
      && q in s.calls && !s.calls[q].Done? && Enabled(limits, s, NextOf(limits, s, q))
      && (q != p ==> At(s, p, Opened) && HoldsLock(s, q) && s.calls[q].tx.req.actor == s.calls[p].tx.req.actor)
  {
    QuotaHolds(limits, base, es);
    var s := Exec(limits, base, es).value;
    q := p;
    if At(s, p, Opened) && s.calls[p].tx.req.actor in s.locks {
      q := s.locks[s.calls[p].tx.req.actor];
    }
  }
}
