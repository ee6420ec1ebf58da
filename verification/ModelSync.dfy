/**
 `Sync` of `accountmodeldiscovery` on one account, with any number of syncs, credential
 rotations and edits of the account at work together. A sync discovers with the credential it
 resolved, then opens a transaction, locks the account row and pins the credential version it
 used before it writes the allow list. A change of a credential needs its row exclusively, so
 it is a step that no pin allows. `now()` is the start of the transaction.
 */
module ModelSync {
  import opened Options
  import opened ModelCatalogue
  import opened Ordering

  datatype CredentialState = Active | RefreshingWithGrace | OtherState

  datatype Credential = Credential(version: int, state: CredentialState, graceUntil: Option<int>, deleted: bool)

  /** Which credential found which ids; a legacy plaintext credential has no id. */
  datatype Discovery = Discovery(credentialID: int, version: int, ids: seq<string>)

  datatype Error = Undiscovered | Unsupported | CredentialChanged | Persistence

  datatype Reply = Synced(changed: bool, previousCount: nat) | Refused(error: Error)

  datatype AuditRow = AuditRow(credentialID: int, version: int, changed: bool, beforeCount: nat, models: seq<string>)

  datatype Phase =
    | Fetching(credentialID: int, version: int)
    | Found(d: Discovery)
    | Opened(d: Discovery, startedAt: int)
    | Reading(d: Discovery, startedAt: int, previous: seq<string>)
    | Pinned(d: Discovery, startedAt: int, previous: seq<string>)
    | Done(d: Discovery, reply: Reply)

  datatype State = State(
    now: int, allowList: seq<string>, credentials: map<int, Credential>, audit: seq<AuditRow>, calls: map<nat, Phase>)

  datatype Event =
    | Tick(duration: nat)
    | Resolve(p: nat, credentialID: int, version: int)
    | Discover(p: nat, ids: seq<string>)
    | Begin(p: nat)
    | LockAccount(p: nat)
    | Pin(p: nat)
    | Commit(p: nat, acknowledged: bool)
    | Fail(p: nat)
    | Rotate(credentialID: int, to: Credential)
    | AddCredential(credentialID: int, credential: Credential)
    | Edit(allowList: seq<string>)

  predicate Usable(c: Credential, version: int, at: int) {
    && c.version == version && !c.deleted
    && (c.state == Active
        || (c.state == RefreshingWithGrace && (c.graceUntil.None? || c.graceUntil.value > at)))
  }

  predicate InUse(s: State, credentialID: int, version: int, at: int) {
    credentialID in s.credentials && Usable(s.credentials[credentialID], version, at)
  }

  predicate HoldsAccount(phase: Phase) {
    phase.Reading? || phase.Pinned?
  }

  predicate AccountFree(s: State) {
    forall p :: p in s.calls ==> !HoldsAccount(s.calls[p])
  }

  predicate Unpinned(s: State, credentialID: int) {
    forall p :: p in s.calls ==> !(s.calls[p].Pinned? && s.calls[p].d.credentialID == credentialID)
  }

  predicate Enabled(s: State, e: Event) {
    match e
    case Tick(_) => true
    case Resolve(p, id, version) => p !in s.calls && (InUse(s, id, version, s.now) || id <= 0)
    case Discover(p, ids) => p in s.calls && s.calls[p].Fetching? && ids != [] && Clean(ids) == ids
    case Begin(p) => p in s.calls && s.calls[p].Found?
    case LockAccount(p) => p in s.calls && s.calls[p].Opened? && AccountFree(s)
    case Pin(p) => p in s.calls && s.calls[p].Reading?
    case Commit(p, _) => p in s.calls && s.calls[p].Pinned?
    case Fail(p) => p in s.calls && !s.calls[p].Done?
    case Rotate(id, to) =>
      id in s.credentials && !s.credentials[id].deleted && s.credentials[id].version <= to.version && Unpinned(s, id)
    case AddCredential(id, _) => id > 0 && id !in s.credentials
    case Edit(_) => AccountFree(s)
  }

  function Failed(phase: Phase): Phase
    requires !phase.Done?
  {
    if phase.Fetching? then Done(Discovery(phase.credentialID, phase.version, []), Refused(Undiscovered))
    else Done(phase.d, Refused(Persistence))
  }

  function Move(s: State, p: nat, phase: Phase): State {
    s.(calls := s.calls[p := phase])
  }

  function AfterDiscovery(d: Discovery): Phase {
    if d.credentialID <= 0 || d.version <= 0 then Done(d, Refused(Unsupported)) else Found(d)
  }

  function AfterPin(s: State, phase: Phase): Phase
    requires phase.Reading?
  {
    if InUse(s, phase.d.credentialID, phase.d.version, phase.startedAt)
    then Pinned(phase.d, phase.startedAt, phase.previous)
    else Done(phase.d, Refused(CredentialChanged))
  }

  predicate Changes(previous: seq<string>, ids: seq<string>) {
    Clean(previous) != ids
  }

  function Committed(s: State, p: nat, acknowledged: bool): State
    requires p in s.calls && s.calls[p].Pinned?
  {
    var d, previous := s.calls[p].d, s.calls[p].previous;
    var changed := Changes(previous, d.ids);
    var reply := if acknowledged then Synced(changed, |Clean(previous)|) else Refused(Persistence);
    s.(allowList := if changed then d.ids else s.allowList,
       audit := s.audit + [AuditRow(d.credentialID, d.version, changed, |Clean(previous)|, d.ids)],
       calls := s.calls[p := Done(d, reply)])
  }

  function Apply(s: State, e: Event): State
    requires Enabled(s, e)
  {
    match e
    case Tick(duration) => s.(now := s.now + duration)
    case Resolve(p, id, version) => Move(s, p, Fetching(id, version))
    case Discover(p, ids) => Move(s, p, AfterDiscovery(Discovery(s.calls[p].credentialID, s.calls[p].version, ids)))
    case Begin(p) => Move(s, p, Opened(s.calls[p].d, s.now))
    case LockAccount(p) => Move(s, p, Reading(s.calls[p].d, s.calls[p].startedAt, s.allowList))
    case Pin(p) => Move(s, p, AfterPin(s, s.calls[p]))
    case Commit(p, acknowledged) => Committed(s, p, acknowledged)
    case Fail(p) => Move(s, p, Failed(s.calls[p]))
    case Rotate(id, to) => s.(credentials := s.credentials[id := to])
    case AddCredential(id, credential) => s.(credentials := s.credentials[id := credential])
    case Edit(allowList) => s.(allowList := allowList)
  }

  function Exec(s0: State, es: seq<Event>): Option<State> {
    if es == [] then Some(s0)
    else
      var before := Exec(s0, es[..|es| - 1]);
      if before.Some? && Enabled(before.value, es[|es| - 1]) then Some(Apply(before.value, es[|es| - 1])) else None
  }

  predicate Starts(s: State) {
    s.calls == map[]
  }

  /** The state after the first n events. */
  function After(s0: State, es: seq<Event>, n: nat): State
    requires n <= |es| && Exec(s0, es[..n]).Some?
  {
    Exec(s0, es[..n]).value
  }

  lemma {:induction false} PrefixRuns(s0: State, es: seq<Event>, n: nat)
    requires Exec(s0, es).Some? && n <= |es|
    ensures Exec(s0, es[..n]).Some?
    decreases |es|
  {
    if n == |es| {
      assert es[..n] == es;
    } else {
      PrefixRuns(s0, es[..|es| - 1], n);
      assert es[..|es| - 1][..n] == es[..n];
    }
  }

  lemma StepAt(s0: State, es: seq<Event>, n: nat)
    requires n < |es| && Exec(s0, es).Some?
    ensures Exec(s0, es[..n]).Some? && Exec(s0, es[..n + 1]).Some?
    ensures Enabled(After(s0, es, n), es[n]) && After(s0, es, n + 1) == Apply(After(s0, es, n), es[n])
  {
    PrefixRuns(s0, es, n);
    PrefixRuns(s0, es, n + 1);
    assert es[..n + 1][..n] == es[..n];
  }

  // ------------------------------------------------------------------- every state

  /** What a call has read is still so, as long as it holds its locks. */
  predicate PhaseOk(s: State, phase: Phase) {
    && (HoldsAccount(phase) ==> phase.previous == s.allowList)
    && (phase.Pinned? ==> InUse(s, phase.d.credentialID, phase.d.version, phase.startedAt))
    && (phase.Opened? || HoldsAccount(phase) ==> phase.startedAt <= s.now)
    && (phase.Found? || phase.Opened? || HoldsAccount(phase) ==>
          phase.d.credentialID > 0 && phase.d.version > 0 && Clean(phase.d.ids) == phase.d.ids)
  }

  predicate OneHolder(s: State) {
    forall p, q :: p in s.calls && q in s.calls && HoldsAccount(s.calls[p]) && HoldsAccount(s.calls[q]) ==> p == q
  }

  predicate Sound(s: State) {
    OneHolder(s) && forall p :: p in s.calls ==> PhaseOk(s, s.calls[p])
  }

  lemma SoundStep(s: State, e: Event)
    requires Sound(s) && Enabled(s, e)
    ensures Sound(Apply(s, e))
  {
    var s' := Apply(s, e);
    forall p | p in s'.calls ensures PhaseOk(s', s'.calls[p]) {
      if p in s.calls { assert PhaseOk(s, s.calls[p]); }
    }
  }

  lemma {:induction false} SoundAlways(s0: State, es: seq<Event>)
    requires Starts(s0) && Exec(s0, es).Some?
    ensures Sound(Exec(s0, es).value)
  {
    if es != [] {
      SoundAlways(s0, es[..|es| - 1]);
      SoundStep(Exec(s0, es[..|es| - 1]).value, es[|es| - 1]);
    }
  }

  // --------------------------------------------------- where a committed list comes from

  /** The call resolved this credential at event k and found these ids at event j. */
  ghost predicate Discovered(es: seq<Event>, p: nat, d: Discovery, k: nat, j: nat) {
    && k < j < |es|
    && es[k] == Resolve(p, d.credentialID, d.version)
    && es[j] == Event.Discover(p, d.ids)
  }

  lemma {:induction false} ResolvedAt(s0: State, es: seq<Event>, p: nat) returns (k: nat)
    requires Starts(s0) && Exec(s0, es).Some? && p in Exec(s0, es).value.calls && Exec(s0, es).value.calls[p].Fetching?
    ensures k < |es|
    ensures es[k] == Resolve(p, Exec(s0, es).value.calls[p].credentialID, Exec(s0, es).value.calls[p].version)
  {
    var front, e := es[..|es| - 1], es[|es| - 1];
    if e.Resolve? && e.p == p {
      k := |es| - 1;
    } else {
      k := ResolvedAt(s0, front, p);
    }
  }

  predicate HasDiscovery(s: State, p: nat) {
    p in s.calls && (s.calls[p].Found? || s.calls[p].Opened? || HoldsAccount(s.calls[p]))
  }

  lemma {:induction false} DiscoveredAt(s0: State, es: seq<Event>, p: nat) returns (k: nat, j: nat)
    requires Starts(s0) && Exec(s0, es).Some? && HasDiscovery(Exec(s0, es).value, p)
    ensures Discovered(es, p, Exec(s0, es).value.calls[p].d, k, j)
  {
    var front, e := es[..|es| - 1], es[|es| - 1];
    if e.Discover? && e.p == p {
      k := ResolvedAt(s0, front, p);
      j := |es| - 1;
    } else {
      k, j := DiscoveredAt(s0, front, p);
    }
  }

  /** Versions never go back, and a deleted credential stays deleted. */
  predicate NotBefore(s: State, s': State, id: int) {
    id in s.credentials ==>
      && id in s'.credentials && s.credentials[id].version <= s'.credentials[id].version
      && (s.credentials[id].deleted ==> s'.credentials[id].deleted)
  }

  lemma {:induction false} CredentialsOnlyAge(s0: State, es: seq<Event>, id: int, k: nat, n: nat)
    requires Exec(s0, es).Some? && k <= n <= |es|
    ensures Exec(s0, es[..k]).Some? && Exec(s0, es[..n]).Some?
    ensures NotBefore(After(s0, es, k), After(s0, es, n), id)
    decreases n
  {
    PrefixRuns(s0, es, k);
    if k < n {
      StepAt(s0, es, n - 1);
      CredentialsOnlyAge(s0, es, id, k, n - 1);
    }
  }

  predicate Current(s: State, d: Discovery) {
    && d.credentialID in s.credentials
    && s.credentials[d.credentialID].version == d.version && !s.credentials[d.credentialID].deleted
  }

  /** All the while from one event to another the credential had the version of the discovery. */
  ghost predicate CurrentThroughout(s0: State, es: seq<Event>, d: Discovery, first: nat, last: nat)
    requires last <= |es|
  {
    forall n: nat :: first <= n <= last ==> CurrentAt(s0, es, d, n)
  }

  predicate CurrentAt(s0: State, es: seq<Event>, d: Discovery, n: nat)
    requires n <= |es|
  {
    Exec(s0, es[..n]).Some? && Current(Exec(s0, es[..n]).value, d)
  }

  lemma StaysCurrent(s0: State, es: seq<Event>, d: Discovery, first: nat, last: nat)
    requires Exec(s0, es).Some? && first <= last <= |es|
    requires CurrentAt(s0, es, d, first) && CurrentAt(s0, es, d, last)
    ensures CurrentThroughout(s0, es, d, first, last)
  {
    forall n: nat | first <= n <= last ensures CurrentAt(s0, es, d, n) {
      CredentialsOnlyAge(s0, es, d.credentialID, first, n);
      CredentialsOnlyAge(s0, es, d.credentialID, n, last);
    }
  }

  /** The ids that a commit writes. */
  function CommittedIDs(s0: State, es: seq<Event>, n: nat): seq<string>
    requires Exec(s0, es).Some? && n < |es| && es[n].Commit?
  {
    StepAt(s0, es, n);
    After(s0, es, n).calls[es[n].p].d.ids
  }

  /** A commit goes by a discovery of its own, with a current credential, and leaves its ids in the list. */
  lemma CommitSettles(s0: State, es: seq<Event>, n: nat) returns (d: Discovery)
    requires Starts(s0) && Exec(s0, es).Some? && n < |es| && es[n].Commit?
    ensures d.ids == CommittedIDs(s0, es, n) && d.credentialID > 0
    ensures CurrentAt(s0, es, d, n) && CurrentAt(s0, es, d, n + 1)
    ensures HasDiscovery(Exec(s0, es[..n]).value, es[n].p) && Exec(s0, es[..n]).value.calls[es[n].p].d == d
    ensures Clean(Exec(s0, es[..n + 1]).value.allowList) == d.ids
  {
    StepAt(s0, es, n);
    SoundAlways(s0, es[..n]);
    var s := After(s0, es, n);
    assert PhaseOk(s, s.calls[es[n].p]);
    d := s.calls[es[n].p].d;
  }

  /** A commit writes one audit row, which tells its credential, its ids and whether the normalised list changed. */
  lemma CommitIsAudited(s0: State, es: seq<Event>, n: nat)
    requires Starts(s0) && Exec(s0, es).Some? && n < |es| && es[n].Commit?
    ensures Exec(s0, es[..n]).Some? && Exec(s0, es[..n + 1]).Some?
    ensures var (s, s') := (Exec(s0, es[..n]).value, Exec(s0, es[..n + 1]).value);
      && es[n].p in s.calls && s.calls[es[n].p].Pinned?
      && var d := s.calls[es[n].p].d;
      && |s'.audit| == |s.audit| + 1 && s.audit <= s'.audit
      && var row := s'.audit[|s.audit|];
      && row.credentialID == d.credentialID && row.version == d.version && row.models == d.ids == Clean(s'.allowList)
      && row.beforeCount == |Clean(s.allowList)|
      && (row.changed <==> Clean(s.allowList) != Clean(s'.allowList))
      && (!row.changed ==> s'.allowList == s.allowList)
  {
    StepAt(s0, es, n);
    SoundAlways(s0, es[..n]);
    assert PhaseOk(After(s0, es, n), After(s0, es, n).calls[es[n].p]);
  }

  /** Nothing but a commit writes audit rows. */
  lemma OnlyCommitsAudit(s0: State, es: seq<Event>, n: nat)
    requires Exec(s0, es).Some? && n < |es| && !es[n].Commit?
    ensures Exec(s0, es[..n]).Some? && Exec(s0, es[..n + 1]).Some?
    ensures Exec(s0, es[..n + 1]).value.audit == Exec(s0, es[..n]).value.audit
  {
    StepAt(s0, es, n);
  }

  lemma CurrentWhenResolved(s0: State, es: seq<Event>, d: Discovery, k: nat, p: nat)
    requires Exec(s0, es).Some? && k < |es| && es[k] == Resolve(p, d.credentialID, d.version) && d.credentialID > 0
    ensures CurrentAt(s0, es, d, k)
  {
    StepAt(s0, es, k);
  }

  /**
   A committed list is the list that the committing call discovered, and the credential it was
   discovered with had the very same version at every moment from the resolution of the
   credential up to and including the commit: no rotation came between.
   */
  lemma CommittedWithTheDiscoveredVersion(s0: State, es: seq<Event>, n: nat) returns (d: Discovery, k: nat, j: nat)
    requires Starts(s0) && Exec(s0, es).Some? && n < |es| && es[n].Commit?
    ensures j < n && Discovered(es, es[n].p, d, k, j) && d.ids == CommittedIDs(s0, es, n)
    ensures CurrentThroughout(s0, es, d, k, n + 1)
    ensures ListIs(s0, es, d.ids, n + 1)
  {
    d := CommitSettles(s0, es, n);
    k, j := DiscoveredAt(s0, es[..n], es[n].p);
    assert es[..n][k] == es[k] && es[..n][j] == es[j];
    CurrentWhenResolved(s0, es, d, k, es[n].p);
    StaysCurrent(s0, es, d, k, n + 1);
  }

  // ----------------------------------------------------- what happens beside a sync takes effect

  /** The event sets the credential. */
  predicate Sets(e: Event, id: int, credential: Credential) {
    (e.Rotate? && e.credentialID == id && e.to == credential)
    || (e.AddCredential? && e.credentialID == id && e.credential == credential)
  }

  predicate SetsIt(e: Event, id: int) {
    (e.Rotate? && e.credentialID == id) || (e.AddCredential? && e.credentialID == id)
  }

  /** A credential is as it was last set. */
  lemma {:induction false} CredentialIsAsSet(s0: State, es: seq<Event>, k: nat, n: nat, id: int, credential: Credential)
    requires Exec(s0, es).Some? && k < n <= |es| && Sets(es[k], id, credential)
    requires forall i :: k < i < n ==> !SetsIt(es[i], id)
    ensures Exec(s0, es[..n]).Some? && id in After(s0, es, n).credentials
    ensures After(s0, es, n).credentials[id] == credential
    decreases n
  {
    PrefixRuns(s0, es, n);
    StepAt(s0, es, n - 1);
    if k < n - 1 {
      CredentialIsAsSet(s0, es, k, n - 1, id, credential);
    }
  }

  /**
   A rotation to another version between the discovery and the pin of a sync has the sync
   refused, whatever else happens, and the refused pin leaves the list and the audit alone.
   */
  lemma RotationRefuses(s0: State, es: seq<Event>, k: nat, n: nat)
    requires Exec(s0, es).Some? && k < n < |es| && es[k].Rotate? && es[n].Pin?
    requires Exec(s0, es[..n]).Some? && HasDiscovery(After(s0, es, n), es[n].p)
    requires var d := After(s0, es, n).calls[es[n].p].d;
      d.credentialID == es[k].credentialID && d.version < es[k].to.version
    ensures Exec(s0, es[..n + 1]).Some?
    ensures var (s, t) := (After(s0, es, n), After(s0, es, n + 1));
      && es[n].p in t.calls && t.calls[es[n].p].Done? && t.calls[es[n].p].reply == Refused(CredentialChanged)
      && t.allowList == s.allowList && t.audit == s.audit
  {
    StepAt(s0, es, n);
    StepAt(s0, es, k);
    CredentialsOnlyAge(s0, es, es[k].credentialID, k + 1, n);
  }

  predicate WritesList(e: Event) {
    e.Edit? || e.Commit?
  }

  /** An edit of the list is what the next commit compares with. */
  lemma {:induction false} ListIsAsEdited(s0: State, es: seq<Event>, k: nat, n: nat)
    requires Exec(s0, es).Some? && k < n <= |es| && es[k].Edit?
    requires forall i :: k < i < n ==> !WritesList(es[i])
    ensures Exec(s0, es[..n]).Some? && After(s0, es, n).allowList == es[k].allowList
    decreases n
  {
    PrefixRuns(s0, es, n);
    StepAt(s0, es, n - 1);
    if k < n - 1 {
      ListIsAsEdited(s0, es, k, n - 1);
    }
  }

  /** A rotation to a version not older waits for nothing but a pin on its own credential. */
  lemma OnlyItsPinBlocks(s: State, id: int, to: Credential)
    requires id in s.credentials && !s.credentials[id].deleted && s.credentials[id].version <= to.version
    requires !Enabled(s, Rotate(id, to))
    ensures exists p :: p in s.calls && s.calls[p].Pinned? && s.calls[p].d.credentialID == id
  {
  }

  /** A sync that has not ended can go on, or waits for the account; and then the one that holds it can go on. */
  lemma SomebodyGoesOn(s0: State, es: seq<Event>, p: nat) returns (q: nat, e: Event)
    requires Starts(s0) && Exec(s0, es).Some?
    requires p in Exec(s0, es).value.calls && !Exec(s0, es).value.calls[p].Done?
    ensures var s := Exec(s0, es).value;
      && q in s.calls && !s.calls[q].Done? && Enabled(s, e) && !e.Fail? && Apply(s, e).calls != s.calls
      && (q != p ==> s.calls[p].Opened? && HoldsAccount(s.calls[q]))
  {
    var s := Exec(s0, es).value;
    q := p;
    if s.calls[p].Opened? && !AccountFree(s) {
      q :| q in s.calls && HoldsAccount(s.calls[q]);
    }
    CleanOne();
    e := match s.calls[q]
      case Fetching(_, _) => Event.Discover(q, ["m"])
      case Found(_) => Begin(q)
      case Opened(_, _) => LockAccount(q)
      case Reading(_, _, _) => Pin(q)
      case Pinned(_, _, _) => Commit(q, true)
      case Done(_, _) => Begin(q);
    assert Apply(s, e).calls[q] != s.calls[q];
  }

  // ------------------------------------------------------------ usable when it commits?

  predicate IsPinned(s: State, p: nat) {
    p in s.calls && s.calls[p].Pinned?
  }

  /** Nothing but its own pin pins a call, and what is pinned does not change. */
  lemma PinKeeps(s: State, e: Event, p: nat)
    requires Sound(s) && Enabled(s, e) && e != Pin(p) && IsPinned(Apply(s, e), p)
    ensures IsPinned(s, p) && s.calls[p] == Apply(s, e).calls[p]
    ensures var id := s.calls[p].d.credentialID;
      id in s.credentials && id in Apply(s, e).credentials && Apply(s, e).credentials[id] == s.credentials[id]
  {
    if p in s.calls { assert PhaseOk(s, s.calls[p]); }
  }

  lemma PinSets(s: State, p: nat)
    requires Enabled(s, Pin(p)) && IsPinned(Apply(s, Pin(p)), p)
    ensures var id := Apply(s, Pin(p)).calls[p].d.credentialID;
      id in s.credentials && Apply(s, Pin(p)).credentials == s.credentials
  {
  }

  /** A pinned credential is still the one that was pinned. */
  lemma {:induction false} PinnedSince(s0: State, es: seq<Event>, p: nat) returns (k: nat)
    requires Starts(s0) && Exec(s0, es).Some? && IsPinned(Exec(s0, es).value, p)
    ensures k < |es| && es[k] == Pin(p) && Exec(s0, es[..k]).Some?
    ensures var id := Exec(s0, es).value.calls[p].d.credentialID;
      && id in After(s0, es, k).credentials && id in Exec(s0, es).value.credentials
      && After(s0, es, k).credentials[id] == Exec(s0, es).value.credentials[id]
  {
    var front, e := es[..|es| - 1], es[|es| - 1];
    SoundAlways(s0, front);
    if e == Pin(p) {
      k := |es| - 1;
      PinSets(Exec(s0, front).value, p);
    } else {
      PinKeeps(Exec(s0, front).value, e, p);
      k := PinnedSince(s0, front, p);
      assert es[..k] == front[..k];
    }
  }

  /**
   At a commit the credential is usable as of the start of the transaction. It is usable at
   that moment, too, exactly when what was pinned is active or has a deadline, if any, that
   is still to come.
   */
  lemma UsableSinceTheStart(s0: State, es: seq<Event>, p: nat) returns (k: nat)
    requires Starts(s0) && Exec(s0, es).Some? && Enabled(Exec(s0, es).value, Commit(p, true))
    ensures k < |es| && es[k] == Pin(p) && Exec(s0, es[..k]).Some?
    ensures var s := Exec(s0, es).value;
      var call := s.calls[p];
      && call.startedAt <= s.now && InUse(s, call.d.credentialID, call.d.version, call.startedAt)
      && call.d.credentialID in After(s0, es, k).credentials
      && var pinned := After(s0, es, k).credentials[call.d.credentialID];
      && (pinned.state == Active || pinned.state == RefreshingWithGrace)
      && pinned.version == call.d.version && !pinned.deleted
      && (InUse(s, call.d.credentialID, call.d.version, s.now) <==>
            pinned.state == Active || pinned.graceUntil.None? || pinned.graceUntil.value > s.now)
  {
    SoundAlways(s0, es);
    assert PhaseOk(Exec(s0, es).value, Exec(s0, es).value.calls[p]);
    k := PinnedSince(s0, es, p);
  }

  /** ... and no more than that: its time of grace may end while the transaction runs. */
  lemma GraceMayEndBeforeTheCommit() returns (s0: State, es: seq<Event>)
    ensures Starts(s0) && Exec(s0, es).Some?
    ensures var s := Exec(s0, es).value; Enabled(s, Commit(0, true)) && !InUse(s, 1, 1, s.now)
  {
    s0 := State(0, [], map[1 := Credential(1, RefreshingWithGrace, Some(5), false)], [], map[]);
    CleanOne();
    es := [];
    var s := s0;
    es, s := ResolveAlone(s0, 1, 1, 0);
    es, s := DiscoverAlone(s0, es, s, ["m"]);
    es, s := BeginAlone(s0, es, s);
    es, s := LockAlone(s0, es, s);
    es, s := PinAlone(s0, es, s);
    es, s := More(s0, es, s, Tick(9));
  }

  lemma CleanOne()
    ensures Clean(["m"]) == ["m"]
  {
  }

  /** One more event at the end of a run. */
  lemma More(s0: State, es: seq<Event>, s: State, e: Event) returns (es': seq<Event>, s': State)
    requires Exec(s0, es) == Some(s) && Enabled(s, e)
    ensures es' == es + [e] && s' == Apply(s, e) && Exec(s0, es') == Some(s')
  {
    es', s' := es + [e], Apply(s, e);
    assert es'[..|es|] == es;
  }

  // -------------------------------------------------------------------- syncing twice

  /** Nothing from one event to another edits the list, and commits write the same ids. */
  ghost predicate Quiet(s0: State, es: seq<Event>, ids: seq<string>, first: nat, last: nat)
    requires Exec(s0, es).Some? && last <= |es|
  {
    forall n: nat :: first <= n < last ==> LeavesIDs(s0, es, ids, n)
  }

  predicate LeavesIDs(s0: State, es: seq<Event>, ids: seq<string>, n: nat)
    requires Exec(s0, es).Some? && n < |es|
  {
    if es[n].Commit? then CommittedIDs(s0, es, n) == ids else !es[n].Edit?
  }

  predicate ListIs(s0: State, es: seq<Event>, ids: seq<string>, n: nat)
    requires n <= |es|
  {
    Exec(s0, es[..n]).Some? && Clean(Exec(s0, es[..n]).value.allowList) == ids
  }

  lemma ListStays(s0: State, es: seq<Event>, ids: seq<string>, n: nat)
    requires Starts(s0) && Exec(s0, es).Some? && n < |es| && ListIs(s0, es, ids, n) && LeavesIDs(s0, es, ids, n)
    ensures ListIs(s0, es, ids, n + 1)
  {
    if es[n].Commit? {
      var d := CommitSettles(s0, es, n);
    } else {
      StepAt(s0, es, n);
    }
  }

  lemma {:induction false} QuietKeeps(s0: State, es: seq<Event>, ids: seq<string>, first: nat, last: nat)
    requires Starts(s0) && Exec(s0, es).Some? && first <= last <= |es| && Quiet(s0, es, ids, first, last)
    requires ListIs(s0, es, ids, first)
    ensures ListIs(s0, es, ids, last)
    decreases last
  {
    if first < last {
      QuietKeeps(s0, es, ids, first, last - 1);
      ListStays(s0, es, ids, last - 1);
    }
  }

  /** What a commit reports when the list already says what it found. */
  lemma CommitOnSettledList(s0: State, es: seq<Event>, n: nat)
    requires Starts(s0) && Exec(s0, es).Some? && n < |es| && es[n].Commit? && ListIs(s0, es, CommittedIDs(s0, es, n), n)
    ensures Exec(s0, es[..n]).Some? && Exec(s0, es[..n + 1]).Some?
    ensures Exec(s0, es[..n + 1]).value.allowList == Exec(s0, es[..n]).value.allowList
    ensures es[n].p in Exec(s0, es[..n + 1]).value.calls
    ensures var call := Exec(s0, es[..n + 1]).value.calls[es[n].p];
      call.Done? && call.reply ==
        if es[n].acknowledged then Synced(false, |CommittedIDs(s0, es, n)|) else Refused(Persistence)
  {
    StepAt(s0, es, n);
    SoundAlways(s0, es[..n]);
    var s := After(s0, es, n);
    assert PhaseOk(s, s.calls[es[n].p]);
  }

  /**
   A sync that finds what an earlier one found reports no change and leaves the list as it is,
   whatever other syncs with the same catalogue, failures and rotations came between.
   */
  lemma SecondSyncIsUnchanged(s0: State, es: seq<Event>, n: nat, m: nat)
    requires Starts(s0) && Exec(s0, es).Some? && n < m < |es| && es[n].Commit? && es[m].Commit?
    requires CommittedIDs(s0, es, m) == CommittedIDs(s0, es, n)
    requires Quiet(s0, es, CommittedIDs(s0, es, n), n + 1, m)
    ensures Exec(s0, es[..m]).Some? && Exec(s0, es[..m + 1]).Some?
    ensures Exec(s0, es[..m + 1]).value.allowList == Exec(s0, es[..m]).value.allowList
    ensures es[m].p in Exec(s0, es[..m + 1]).value.calls
    ensures var call := Exec(s0, es[..m + 1]).value.calls[es[m].p];
      call.Done? && call.reply ==
        if es[m].acknowledged then Synced(false, |CommittedIDs(s0, es, m)|) else Refused(Persistence)
  {
    var d := CommitSettles(s0, es, n);
    QuietKeeps(s0, es, d.ids, n + 1, m);
    CommitOnSettledList(s0, es, m);
  }

  // ------------------------------------------------------ one sync alone on the database

  /** How the database and the upstream answer one sync, and the time its discovery takes. */
  datatype Answers = Answers(
    found: Option<seq<string>>, took: nat, beginFails: bool, accountFails: bool, pinFails: bool,
    writeFails: bool, commitRefused: bool, acknowledged: bool)

  /** What a sync answers when nobody else is at work. */
  function Outcome(s: State, credentialID: int, version: int, db: Answers): Reply {
    var found := Clean(s.allowList);
    if db.found.None? then Refused(Undiscovered)
    else if credentialID <= 0 || version <= 0 then Refused(Unsupported)
    else if db.beginFails || db.accountFails || db.pinFails then Refused(Persistence)
    else if !InUse(s, credentialID, version, s.now + db.took) then Refused(CredentialChanged)
    else if db.writeFails || db.commitRefused || !db.acknowledged then Refused(Persistence)
    else Synced(found != db.found.value, |found|)
  }

  /** The commit went through, whether or not its caller heard of it. */
  predicate Commits(s: State, credentialID: int, version: int, db: Answers) {
    && db.found.Some? && credentialID > 0 && version > 0
    && !db.beginFails && !db.accountFails && !db.pinFails
    && InUse(s, credentialID, version, s.now + db.took)
    && !db.writeFails && !db.commitRefused
  }

  /** `equalStrings` */
  method EqualStrings(left: seq<string>, right: seq<string>) returns (equal: bool)
    ensures equal <==> left == right
  {
    if |left| != |right| {
      return false;
    }
    for i := 0 to |left|
      invariant forall j :: 0 <= j < i ==> left[j] == right[j]
    {
      if left[i] != right[i] {
        return false;
      }
    }
    return true;
  }

  class Database {
    var now: int
    var allowList: seq<string>
    var credentials: map<int, Credential>
    var audit: seq<AuditRow>

    ghost function View(): State
      reads this
    {
      State(now, allowList, credentials, audit, map[])
    }

    /** Credential and ids are what the vault and `Discover` give: a usable version, a clean list. */
    method Sync(credentialID: int, version: int, db: Answers) returns (reply: Reply, ghost es: seq<Event>)
      requires InUse(View(), credentialID, version, now) || credentialID <= 0
      requires db.found.Some? ==> db.found.value != [] && Clean(db.found.value) == db.found.value
      modifies this`now, this`allowList, this`audit
      ensures reply == Outcome(old(View()), credentialID, version, db) && now == old(now) + db.took
      ensures Exec(old(View()), es) == Some(View().(calls := map[0 :=
        Done(Discovery(credentialID, version, if db.found.Some? then db.found.value else []), reply)]))
      ensures if Commits(old(View()), credentialID, version, db)
              then Clean(allowList) == db.found.value && |audit| == |old(audit)| + 1
              else allowList == old(allowList) && audit == old(audit)
    {
      ghost var base, s := View(), View();
      es, s := ResolveAlone(base, credentialID, version, db.took);
      now := now + db.took;
      if db.found.None? {
        es, s := FailAlone(base, es, s);
        return Refused(Undiscovered), es;
      }
      reply, es := Persist(credentialID, version, db.found.value, db, base, es, s);
    }

    /** With the ids found; a credential without identity or version cannot be pinned. */
    method Persist(credentialID: int, version: int, modelIDs: seq<string>, db: Answers,
                   ghost base: State, ghost es0: seq<Event>, ghost s0: State)
      returns (reply: Reply, ghost es: seq<Event>)
      requires Exec(base, es0) == Some(s0) && modelIDs != [] && Clean(modelIDs) == modelIDs
      requires s0 == View().(calls := map[0 := Fetching(credentialID, version)])
      modifies this`allowList, this`audit
      ensures Exec(base, es) ==
        Some(View().(calls := map[0 := Done(Discovery(credentialID, version, modelIDs), reply)]))
      ensures reply == Outcome(old(View()), credentialID, version, db.(found := Some(modelIDs), took := 0))
      ensures if Commits(old(View()), credentialID, version, db.(found := Some(modelIDs), took := 0))
              then Clean(allowList) == modelIDs && |audit| == |old(audit)| + 1
              else allowList == old(allowList) && audit == old(audit)
    {
      ghost var s := s0;
      es, s := DiscoverAlone(base, es0, s, modelIDs);
      if credentialID <= 0 || version <= 0 {
        return Refused(Unsupported), es;
      }
      reply, es := Write(credentialID, version, modelIDs, db, base, es, s);
    }

    /** The transaction: lock the account and pin the credential. */
    method Write(credentialID: int, version: int, modelIDs: seq<string>, db: Answers,
                 ghost base: State, ghost es0: seq<Event>, ghost s0: State)
      returns (reply: Reply, ghost es: seq<Event>)
      requires Exec(base, es0) == Some(s0) && credentialID > 0 && version > 0 && Clean(modelIDs) == modelIDs
      requires s0 == View().(calls := map[0 := Found(Discovery(credentialID, version, modelIDs))])
      modifies this`allowList, this`audit
      ensures Exec(base, es) ==
        Some(View().(calls := map[0 := Done(Discovery(credentialID, version, modelIDs), reply)]))
      ensures reply == Outcome(old(View()), credentialID, version, db.(found := Some(modelIDs), took := 0))
      ensures if Commits(old(View()), credentialID, version, db.(found := Some(modelIDs), took := 0))
              then Clean(allowList) == modelIDs && |audit| == |old(audit)| + 1
              else allowList == old(allowList) && audit == old(audit)
    {
      var d := Discovery(credentialID, version, modelIDs);
      ghost var s := s0;
      es := es0;
      if db.beginFails {
        es, s := FailAlone(base, es, s);
        return Refused(Persistence), es;
      }
      var startedAt := now;
      es, s := BeginAlone(base, es, s);
      if db.accountFails {
        es, s := FailAlone(base, es, s);
        return Refused(Persistence), es;
      }
      var previous := allowList;
      es, s := LockAlone(base, es, s);
      if db.pinFails {
        es, s := FailAlone(base, es, s);
        return Refused(Persistence), es;
      }
      es, s := PinAlone(base, es, s);
      if credentialID !in credentials || !Usable(credentials[credentialID], version, startedAt) {
        return Refused(CredentialChanged), es;
      }
      reply, es := Store(d, startedAt, previous, db, base, es, s);
    }

    /** Compare with what is stored, write the list if it differs and the audit row in any case. */
    method Store(d: Discovery, startedAt: int, previous: seq<string>, db: Answers,
                 ghost base: State, ghost es0: seq<Event>, ghost s0: State)
      returns (reply: Reply, ghost es: seq<Event>)
      requires Exec(base, es0) == Some(s0) && Clean(d.ids) == d.ids && previous == allowList
      requires s0 == View().(calls := map[0 := Pinned(d, startedAt, previous)])
      modifies this`allowList, this`audit
      ensures Exec(base, es) == Some(View().(calls := map[0 := Done(d, reply)]))
      ensures reply == if db.writeFails || db.commitRefused || !db.acknowledged then Refused(Persistence)
                       else Synced(Clean(previous) != d.ids, |Clean(previous)|)
      ensures if !db.writeFails && !db.commitRefused
              then Clean(allowList) == d.ids && |audit| == |old(audit)| + 1
              else allowList == old(allowList) && audit == old(audit)
    {
      ghost var s;
      if db.writeFails || db.commitRefused {
        es, s := FailAlone(base, es0, s0);
        return Refused(Persistence), es;
      }
      es, s := CommitAlone(base, es0, s0, db.acknowledged);
      var stored := CleanStrings(previous);
      var equal := EqualStrings(stored, d.ids);
      if !equal {
        allowList := d.ids;
      }
      audit := audit + [AuditRow(d.credentialID, d.version, !equal, |stored|, d.ids)];
      reply := if db.acknowledged then Synced(!equal, |stored|) else Refused(Persistence);
    }
  }

  // What each step does to the only call there is.

  lemma ResolveAlone(base: State, id: int, version: int, took: nat) returns (es: seq<Event>, s: State)
    requires Starts(base) && (InUse(base, id, version, base.now) || id <= 0)
    ensures Exec(base, es) == Some(s) && s == base.(now := base.now + took, calls := map[0 := Fetching(id, version)])
  {
    es, s := More(base, [], base, Resolve(0, id, version));
    es, s := More(base, es, s, Tick(took));
  }

  lemma DiscoverAlone(base: State, es: seq<Event>, s: State, ids: seq<string>) returns (es': seq<Event>, s': State)
    requires Exec(base, es) == Some(s) && s.calls.Keys == {0} && s.calls[0].Fetching? && ids != [] && Clean(ids) == ids
    ensures Exec(base, es') == Some(s')
    ensures s' == s.(calls := map[0 := AfterDiscovery(Discovery(s.calls[0].credentialID, s.calls[0].version, ids))])
  {
    es', s' := More(base, es, s, Event.Discover(0, ids));
    assert s'.calls == map[0 := s'.calls[0]];
  }

  lemma FailAlone(base: State, es: seq<Event>, s: State) returns (es': seq<Event>, s': State)
    requires Exec(base, es) == Some(s) && s.calls.Keys == {0} && !s.calls[0].Done?
    ensures Exec(base, es') == Some(s') && s' == s.(calls := map[0 := Failed(s.calls[0])])
  {
    es', s' := More(base, es, s, Fail(0));
    assert s'.calls == map[0 := s'.calls[0]];
  }

  lemma BeginAlone(base: State, es: seq<Event>, s: State) returns (es': seq<Event>, s': State)
    requires Exec(base, es) == Some(s) && s.calls.Keys == {0} && s.calls[0].Found?
    ensures Exec(base, es') == Some(s') && s' == s.(calls := map[0 := Opened(s.calls[0].d, s.now)])
  {
    es', s' := More(base, es, s, Begin(0));
    assert s'.calls == map[0 := s'.calls[0]];
  }

  lemma LockAlone(base: State, es: seq<Event>, s: State) returns (es': seq<Event>, s': State)
    requires Exec(base, es) == Some(s) && s.calls.Keys == {0} && s.calls[0].Opened?
    ensures Exec(base, es') == Some(s')
    ensures s' == s.(calls := map[0 := Reading(s.calls[0].d, s.calls[0].startedAt, s.allowList)])
  {
    es', s' := More(base, es, s, LockAccount(0));
    assert s'.calls == map[0 := s'.calls[0]];
  }

  lemma PinAlone(base: State, es: seq<Event>, s: State) returns (es': seq<Event>, s': State)
    requires Exec(base, es) == Some(s) && s.calls.Keys == {0} && s.calls[0].Reading?
    ensures Exec(base, es') == Some(s') && s' == s.(calls := map[0 := AfterPin(s, s.calls[0])])
  {
    es', s' := More(base, es, s, Pin(0));
    assert s'.calls == map[0 := s'.calls[0]];
  }

  lemma CommitAlone(base: State, es: seq<Event>, s: State, acknowledged: bool) returns (es': seq<Event>, s': State)
    requires Exec(base, es) == Some(s) && s.calls.Keys == {0} && s.calls[0].Pinned?
    ensures Exec(base, es') == Some(s') && s' == Committed(s, 0, acknowledged)
    ensures s'.calls.Keys == {0} && s'.calls == map[0 := s'.calls[0]]
  {
    es', s' := More(base, es, s, Commit(0, acknowledged));
    assert s'.calls == map[0 := s'.calls[0]];
  }
}
