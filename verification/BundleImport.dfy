/**
 Importing a bundle (`accountbundle/import.go`): the bundle is opened and checked, every account
 of it is planned again, and the entries of the request are executed one after the other, each
 only if its account is ready under the hash the caller has seen.
 */
module BundleImport {
  import opened Bundle
  import opened BundleEnvelope
  import opened BundleExport
  import opened Options
  import opened Sets
  import opened Sorting
  import opened Text

  datatype Destination = Destination(providerID: int, channelID: int)

  type Destinations = map<(int, int), Destination>

  datatype Status = Ready | Skipped | Conflicting | Failed

  datatype PlannedItem = PlannedItem(
    ref: string, status: Status, code: string, planHash: string,
    existingUpdatedAt: Option<int>, confirmations: seq<string>)

  datatype Action = Create | Update | Skip | Conflict | OtherAction

  /** One credential as the intake service plans it. */
  datatype Intake = Intake(action: Action, existingAccountID: int, confirmations: seq<string>, code: string)

  datatype IntakePlan = IntakePlan(planHash: string, items: seq<Intake>)

  /** What one account is handed to the intake service with. */
  datatype Candidate = Candidate(account: PortableAccount, destination: Destination, proxy: Option<PortableProxy>)

  /** The intake service and the accounts of the tenant the bundle is imported to. */
  datatype Target = Target(
    validPayload: PortableCredential -> bool,
    plan: Candidate -> Option<IntakePlan>,
    nameExists: string -> Option<bool>,
    existing: (int, Destination, string) -> Option<int>,
    bundleHash: (Envelope, Destinations, seq<PlannedItem>) -> string)

  datatype ImportRequest = ImportRequest(operator: Operator, envelope: Envelope, password: bytes,
                                         destinations: Destinations)

  datatype Prepared = Prepared(
    items: seq<PlannedItem>, ready: nat, skipped: nat, conflict: nat, failed: nat, bundleHash: string,
    accounts: map<string, PortableAccount>, proxies: map<string, PortableProxy>)

  const CONFIRM_CONFIG := "confirm_account_config_replace"

  // ------------------------------------------------------------------ planning one account

  function Unplanned(account: PortableAccount, code: string): PlannedItem {
    PlannedItem(account.ref, Failed, code, "", None, [])
  }

  function AppendUnique(values: seq<string>, value: string): seq<string> {
    if value in values then values else values + [value]
  }

  /** The destination the account goes to, as `defaultsFromPortable` accepts it. */
  function DestinationFor(account: PortableAccount, destinations: Destinations): Option<Destination> {
    var key := (account.sourceProviderID, account.sourceChannelID);
    if key in destinations && destinations[key].providerID > 0 && destinations[key].channelID > 0
    then Some(destinations[key]) else None
  }

  /** `planImportAccount` */
  function PlanAccount(target: Target, account: PortableAccount, proxies: map<string, PortableProxy>,
                       destinations: Destinations): PlannedItem {
    var destination := DestinationFor(account, destinations);
    if destination.None? then Unplanned(account, "destination_missing")
    else if Trim(account.config.name) == "" then Unplanned(account, "bundle_account_invalid")
    else if account.proxyRef != "" && account.proxyRef !in proxies then Unplanned(account, "proxy_mapping_missing")
    else if !target.validPayload(account.credential) then Unplanned(account, "bundle_account_invalid")
    else
      var proxy := if account.proxyRef == "" then None else Some(proxies[account.proxyRef]);
      var plan := target.plan(Candidate(account, destination.value, proxy));
      if plan.None? then Unplanned(account, "account_plan_failed")
      else if |plan.value.items| != 1
      then Unplanned(account, "credential_count_invalid").(planHash := plan.value.planHash)
      else FromIntake(target, account, destination.value, plan.value.planHash, plan.value.items[0])
  }

  function FromIntake(target: Target, account: PortableAccount, destination: Destination, planHash: string,
                      planned: Intake): PlannedItem {
    var item := PlannedItem(account.ref, Failed, planned.code, planHash, None, planned.confirmations);
    match planned.action
    case Create =>
      var exists' := target.nameExists(Trim(account.config.name));
      if exists'.None? then item.(code := "account_name_check_failed")
      else if exists'.value then item.(status := Conflicting, code := "account_name_conflict")
      else item.(status := Ready, code := "create_ready")
    case Update =>
      var updatedAt := target.existing(planned.existingAccountID, destination, account.config.accountType);
      if updatedAt.None? then item.(status := Conflicting, code := "existing_account_destination_conflict")
      else item.(status := Ready, code := "update_ready", existingUpdatedAt := updatedAt,
                 confirmations := AppendUnique(planned.confirmations, CONFIRM_CONFIG))
    case Skip => item.(status := Skipped)
    case Conflict => item.(status := Conflicting)
    case OtherAction => item
  }

  // ------------------------------------------------------------------ the whole bundle

  predicate Repeated(accounts: seq<PortableAccount>, i: nat)
    requires i < |accounts|
  {
    exists j :: 0 <= j < i && accounts[j].ref == accounts[i].ref
  }

  /** Of the accounts with one ref all but the first are conflicts, and so is a blank ref. */
  function ItemFor(target: Target, accounts: seq<PortableAccount>, i: nat, proxies: map<string, PortableProxy>,
                   destinations: Destinations): PlannedItem
    requires i < |accounts|
  {
    var item := PlanAccount(target, accounts[i], proxies, destinations);
    if Repeated(accounts, i) || Trim(accounts[i].ref) == ""
    then item.(status := Conflicting, code := "duplicate_account_ref")
    else item
  }

  predicate ValidProxies(proxies: seq<PortableProxy>) {
    DistinctRefs(proxies) && forall i :: 0 <= i < |proxies| ==> Trim(proxies[i].ref) != ""
  }

  predicate IndexesProxies(proxies: seq<PortableProxy>, byRef: map<string, PortableProxy>) {
    && (forall i :: 0 <= i < |proxies| ==> proxies[i].ref in byRef && byRef[proxies[i].ref] == proxies[i])
    && (forall ref :: ref in byRef ==> HasProxy(proxies, ref))
  }

  /** The last account with this ref is the one with this index. */
  predicate LastAt(accounts: seq<PortableAccount>, i: int, ref: string) {
    0 <= i < |accounts| && accounts[i].ref == ref && forall j :: i < j < |accounts| ==> accounts[j].ref != ref
  }

  predicate LastIs(accounts: seq<PortableAccount>, ref: string, account: PortableAccount) {
    exists i :: 0 <= i < |accounts| && LastAt(accounts, i, ref) && accounts[i] == account
  }

  /** A map from each ref to the last account that has it. */
  predicate IndexesAccounts(accounts: seq<PortableAccount>, byRef: map<string, PortableAccount>) {
    && (forall i :: 0 <= i < |accounts| ==> accounts[i].ref in byRef)
    && (forall ref :: ref in byRef ==> LastIs(accounts, ref, byRef[ref]))
  }

  lemma IndexNext(accounts: seq<PortableAccount>, byRef: map<string, PortableAccount>, account: PortableAccount)
    requires IndexesAccounts(accounts, byRef)
    ensures IndexesAccounts(accounts + [account], byRef[account.ref := account])
  {
    var longer, next := accounts + [account], byRef[account.ref := account];
    forall ref | ref in next ensures LastIs(longer, ref, next[ref]) {
      if ref == account.ref {
        assert LastAt(longer, |accounts|, ref);
      } else {
        assert LastIs(accounts, ref, byRef[ref]);
        var i :| 0 <= i < |accounts| && LastAt(accounts, i, ref) && accounts[i] == byRef[ref];
        assert LastAt(longer, i, ref);
      }
    }
  }

  function Tally(items: seq<PlannedItem>, status: Status): nat {
    if items == [] then 0
    else Tally(items[..|items| - 1], status) + if items[|items| - 1].status == status then 1 else 0
  }

  lemma {:induction false} TallyAll(items: seq<PlannedItem>)
    ensures Tally(items, Ready) + Tally(items, Skipped) + Tally(items, Conflicting) + Tally(items, Failed) == |items|
  {
    if items != [] {
      TallyAll(items[..|items| - 1]);
    }
  }

  lemma TallyNext(items: seq<PlannedItem>, item: PlannedItem, status: Status)
    ensures Tally(items + [item], status) == Tally(items, status) + if item.status == status then 1 else 0
  {
  }

  /** The checks `prepareImport` makes before it plans any account. */
  function ImportError(pr: Primitives, req: ImportRequest): Option<Error> {
    if OperatorError(req.operator).Some? then OperatorError(req.operator)
    else if |req.destinations| == 0 then Some(InvalidInput)
    else
      match Open(pr, req.envelope, req.password)
      case Failure(error) => Some(error)
      case Success(content) =>
        if content.accounts == [] || |content.accounts| > MAX_ACCOUNTS then Some(InvalidInput)
        else if !ValidProxies(content.proxies) then Some(Integrity)
        else None
  }

  /** What a bundle that passed the checks is prepared to. */
  ghost predicate IsPrepared(target: Target, content: Content, req: ImportRequest, p: Prepared) {
    && IndexesProxies(content.proxies, p.proxies) && IndexesAccounts(content.accounts, p.accounts)
    && |p.items| == |content.accounts| && Planned(target, content.accounts, p.proxies, req.destinations, p.items)
    && Summed(p) && p.ready + p.skipped + p.conflict + p.failed == |content.accounts|
    && p.bundleHash == target.bundleHash(req.envelope, req.destinations, p.items)
  }

  /** `prepareImport` */
  method PrepareImport(target: Target, pr: Primitives, req: ImportRequest) returns (r: Outcome<Prepared>)
    ensures match ImportError(pr, req)
            case Some(error) => r == Failure(error)
            case None => r.Success? && IsPrepared(target, Open(pr, req.envelope, req.password).value, req, r.value)
  {
    if OperatorError(req.operator).Some? {
      return Failure(OperatorError(req.operator).value);
    }
    if |req.destinations| == 0 {
      return Failure(InvalidInput);
    }
    var recovered := Open(pr, req.envelope, req.password);
    if recovered.Failure? {
      return Failure(recovered.error);
    }
    var content := recovered.value;
    if |content.accounts| == 0 || |content.accounts| > MAX_ACCOUNTS {
      return Failure(InvalidInput);
    }
    var proxies := IndexProxies(content.proxies);
    if proxies.None? {
      return Failure(Integrity);
    }
    var p := PlanAccounts(target, content.accounts, proxies.value, req.destinations);
    TallyAll(p.items);
    r := Success(p.(bundleHash := target.bundleHash(req.envelope, req.destinations, p.items)));
  }

  lemma IndexProxiesNext(proxies: seq<PortableProxy>, byRef: map<string, PortableProxy>, proxy: PortableProxy)
    requires ValidProxies(proxies) && IndexesProxies(proxies, byRef) && Trim(proxy.ref) != ""
    ensures ValidProxies(proxies + [proxy]) <==> proxy.ref !in byRef
    ensures proxy.ref !in byRef ==> IndexesProxies(proxies + [proxy], byRef[proxy.ref := proxy])
  {
    var longer := proxies + [proxy];
    if proxy.ref in byRef {
      var k :| 0 <= k < |proxies| && proxies[k].ref == proxy.ref;
      assert longer[k].ref == longer[|proxies|].ref;
    } else {
      forall k | 0 <= k < |proxies| ensures proxies[k].ref != proxy.ref { assert proxies[k].ref in byRef; }
      forall ref ensures HasProxy(longer, ref) <==> HasProxy(proxies, ref) || ref == proxy.ref {
        HasNext(proxies, proxy, ref);
      }
    }
  }

  lemma ValidPrefix(proxies: seq<PortableProxy>, n: nat)
    requires n <= |proxies| && !ValidProxies(proxies[..n])
    ensures !ValidProxies(proxies)
  {
  }

  /** The loop over the proxies: a blank or repeated ref spoils the bundle. */
  method IndexProxies(proxies: seq<PortableProxy>) returns (r: Option<map<string, PortableProxy>>)
    ensures r.Some? <==> ValidProxies(proxies)
    ensures r.Some? ==> IndexesProxies(proxies, r.value)
  {
    var byRef: map<string, PortableProxy> := map[];
    for i := 0 to |proxies|
      invariant ValidProxies(proxies[..i]) && IndexesProxies(proxies[..i], byRef)
    {
      var proxy := proxies[i];
      if Trim(proxy.ref) == "" {
        return None;
      }
      assert proxies[..i + 1] == proxies[..i] + [proxy];
      IndexProxiesNext(proxies[..i], byRef, proxy);
      if proxy.ref in byRef {
        ValidPrefix(proxies, i + 1);
        return None;
      }
      byRef := byRef[proxy.ref := proxy];
    }
    assert proxies[..|proxies|] == proxies;
    r := Some(byRef);
  }

  predicate Summed(p: Prepared) {
    && p.ready == Tally(p.items, Ready) && p.skipped == Tally(p.items, Skipped)
    && p.conflict == Tally(p.items, Conflicting) && p.failed == Tally(p.items, Failed)
  }

  lemma SummedNext(p: Prepared, item: PlannedItem)
    requires Summed(p)
    ensures Summed(AddItem(p, item))
  {
    TallyNext(p.items, item, Ready);
    TallyNext(p.items, item, Skipped);
    TallyNext(p.items, item, Conflicting);
    TallyNext(p.items, item, Failed);
  }

  /** Each account has the item that is due to it. */
  ghost predicate Planned(target: Target, accounts: seq<PortableAccount>, proxies: map<string, PortableProxy>,
                          destinations: Destinations, items: seq<PlannedItem>) {
    |items| <= |accounts| && forall i: nat :: i < |items| ==>
      items[i] == ItemFor(target, accounts, i, proxies, destinations)
  }

  lemma PlannedNext(target: Target, accounts: seq<PortableAccount>, proxies: map<string, PortableProxy>,
                    destinations: Destinations, items: seq<PlannedItem>, item: PlannedItem)
    requires Planned(target, accounts, proxies, destinations, items) && |items| < |accounts|
    requires item == ItemFor(target, accounts, |items|, proxies, destinations)
    ensures Planned(target, accounts, proxies, destinations, items + [item])
  {
  }

  /** One round of the loop over the accounts. */
  method PlanOne(target: Target, accounts: seq<PortableAccount>, i: nat, exists': bool,
                 proxies: map<string, PortableProxy>, destinations: Destinations) returns (item: PlannedItem)
    requires i < |accounts| && (exists' <==> Repeated(accounts, i))
    ensures item == ItemFor(target, accounts, i, proxies, destinations)
  {
    item := PlanAccount(target, accounts[i], proxies, destinations);
    if exists' || Trim(accounts[i].ref) == "" {
      item := item.(status := Conflicting, code := "duplicate_account_ref");
    }
  }

  /** The loop over the accounts, with the index of accounts by their ref. */
  method PlanAccounts(target: Target, accounts: seq<PortableAccount>, proxies: map<string, PortableProxy>,
                      destinations: Destinations)
    returns (p: Prepared)
    ensures p.proxies == proxies && IndexesAccounts(accounts, p.accounts) && |p.items| == |accounts| && Summed(p)
    ensures Planned(target, accounts, proxies, destinations, p.items)
  {
    p := Prepared([], 0, 0, 0, 0, "", map[], proxies);
    for i := 0 to |accounts|
      invariant p.proxies == proxies && IndexesAccounts(accounts[..i], p.accounts) && |p.items| == i && Summed(p)
      invariant Planned(target, accounts, proxies, destinations, p.items)
    {
      var account := accounts[i];
      RefsSeen(accounts, i, p.accounts);
      var item := PlanOne(target, accounts, i, account.ref in p.accounts, proxies, destinations);
      assert accounts[..i + 1] == accounts[..i] + [account];
      IndexNext(accounts[..i], p.accounts, account);
      SummedNext(p, item);
      PlannedNext(target, accounts, proxies, destinations, p.items, item);
      p := Added(p, item, account);
    }
    assert accounts[..|accounts|] == accounts;
  }

  function Added(p: Prepared, item: PlannedItem, account: PortableAccount): (q: Prepared)
    ensures q.items == p.items + [item] && q.accounts == p.accounts[account.ref := account] && q.proxies == p.proxies
    ensures Summed(AddItem(p, item)) ==> Summed(q)
  {
    AddItem(p, item).(accounts := p.accounts[account.ref := account])
  }

  lemma RefsSeen(accounts: seq<PortableAccount>, i: nat, byRef: map<string, PortableAccount>)
    requires i < |accounts| && IndexesAccounts(accounts[..i], byRef)
    ensures accounts[i].ref in byRef <==> Repeated(accounts, i)
  {
  }

  /** `addImportPlanSummary`, and the item. */
  function AddItem(p: Prepared, item: PlannedItem): Prepared {
    var q := p.(items := p.items + [item]);
    match item.status
    case Ready => q.(ready := p.ready + 1)
    case Skipped => q.(skipped := p.skipped + 1)
    case Conflicting => q.(conflict := p.conflict + 1)
    case Failed => q.(failed := p.failed + 1)
  }

  // ------------------------------------------------------- a bundle of our own comes through

  /** Names with their prefix, one for each account and one for each proxy. */
  ghost predicate CollisionFree(host: Host) {
    && (forall t: int, a: int, t': int, a': int :: host.accountRef(t, a) == host.accountRef(t', a') ==>
          t == t' && a == a')
    && (forall t: int, a: int :: "account-" <= host.accountRef(t, a))
    && (forall p: ProxyRow :: "proxy-" <= host.proxyRef(p))
  }

  lemma {:induction false} NotBlank(s: string)
    requires s != "" && !IsSpace(s[0])
    ensures Trim(s) != ""
  {
    KeepsFirst(s);
  }

  lemma {:induction false} KeepsFirst(s: string)
    requires s != "" && !IsSpace(s[0])
    ensures TrimRight(s) != "" && TrimRight(s)[0] == s[0]
  {
    if IsSpace(s[|s| - 1]) {
      KeepsFirst(s[..|s| - 1]);
    }
  }

  lemma BundledProxiesAreValid(host: Host, snapshots: seq<Snapshot>, proxies: seq<PortableProxy>)
    requires CollisionFree(host) && ProxiesAre(ProxiesAlong(host, snapshots), proxies)
    ensures ValidProxies(proxies)
  {
    var all := ProxiesAlong(host, snapshots);
    forall k | 0 <= k < |proxies| ensures Trim(proxies[k].ref) != "" {
      assert IsFirst(all, proxies[k]);
      var i :| 0 <= i < |all| && FirstNamed(all, i, proxies[k]);
      ProxyIsNamed(host, snapshots[i]);
      NotBlank(proxies[k].ref);
    }
  }

  lemma ProxyIsNamed(host: Host, s: Snapshot)
    requires CollisionFree(host)
    ensures ProxyAlong(host, s).Some? ==> s.proxy.Some? && "proxy-" <= ProxyAlong(host, s).value.ref
  {
  }

  /** The queries answer with the row they were asked for. */
  ghost predicate AnswersFit(host: Host, tenantID: int) {
    && (forall id :: host.account(id).Row? ==>
          host.account(id).account.id == id && host.account(id).account.tenantID == tenantID)
    && (forall id :: host.proxy(id).Some? ==> host.proxy(id).value.id == id)
  }

  lemma SnapshotOfItsAccount(host: Host, tenantID: int, id: int, s: Snapshot)
    requires AnswersFit(host, tenantID) && IsSnapshot(host, tenantID, id, s)
    ensures s.account.id == id && s.account.tenantID == tenantID
    ensures s.proxy.Some? ==> host.proxy(s.proxy.value.id) == s.proxy
  {
    if s.proxy.Some? {
      var proxyID := host.account(id).account.proxyID.value;
      assert host.proxy(proxyID) == s.proxy && s.proxy.value.id == proxyID;
    }
  }

  lemma ExportedName(host: Host, s: Snapshot, account: PortableAccount)
    requires Exported(host, s, account)
    ensures account.ref == host.accountRef(s.account.tenantID, s.account.id)
    ensures account.proxyRef == if s.proxy.Some? then host.proxyRef(s.proxy.value) else ""
    ensures s.proxy.Some? <==> ProxyAlong(host, s).Some?
    ensures s.proxy.Some? ==> ProxyAlong(host, s).value.ref == host.proxyRef(s.proxy.value)
  {
  }

  /** The ref of each account is not blank and is nobody else's. */
  lemma BundledRefsAreUnique(host: Host, pr: Primitives, req: ExportRequest, ids: seq<int>, snapshots: seq<Snapshot>,
                             content: Content, result: ExportResult, i: nat)
    requires CollisionFree(host) && AnswersFit(host, req.operator.tenantID)
    requires IsExport(host, pr, req, ids, snapshots, content, result) && i < |content.accounts|
    ensures !Repeated(content.accounts, i) && Trim(content.accounts[i].ref) != ""
  {
    var tenantID := req.operator.tenantID;
    forall j: nat | j <= i ensures content.accounts[j].ref == host.accountRef(tenantID, ids[j]) {
      assert IsSnapshot(host, tenantID, ids[j], snapshots[j]) && Exported(host, snapshots[j], content.accounts[j]);
      SnapshotOfItsAccount(host, tenantID, ids[j], snapshots[j]);
      ExportedName(host, snapshots[j], content.accounts[j]);
    }
    NotBlank(content.accounts[i].ref);
  }

  /** In the bundle an account finds the very proxy that went along with it. */
  lemma BundledProxyIsOwn(host: Host, pr: Primitives, req: ExportRequest, ids: seq<int>, snapshots: seq<Snapshot>,
                          content: Content, result: ExportResult, i: nat, byRef: map<string, PortableProxy>)
    requires CollisionFree(host) && AnswersFit(host, req.operator.tenantID)
    requires forall p: ProxyRow, q: ProxyRow :: host.proxyRef(p) == host.proxyRef(q) ==> p.id == q.id
    requires IsExport(host, pr, req, ids, snapshots, content, result) && i < |content.accounts|
    requires IndexesProxies(content.proxies, byRef)
    ensures if snapshots[i].proxy.None? then content.accounts[i].proxyRef == ""
            else
              content.accounts[i].proxyRef in byRef
                && Some(byRef[content.accounts[i].proxyRef]) == ProxyAlong(host, snapshots[i])
  {
    var tenantID, all := req.operator.tenantID, ProxiesAlong(host, snapshots);
    assert Exported(host, snapshots[i], content.accounts[i]);
    ExportedName(host, snapshots[i], content.accounts[i]);
    if snapshots[i].proxy.Some? {
      var ref := content.accounts[i].proxyRef;
      assert Kept(content.proxies, all[i]);
      var k :| 0 <= k < |content.proxies| && content.proxies[k].ref == ref;
      assert IsFirst(all, content.proxies[k]);
      var j :| 0 <= j < |all| && FirstNamed(all, j, content.proxies[k]);
      assert IsSnapshot(host, tenantID, ids[i], snapshots[i]) && IsSnapshot(host, tenantID, ids[j], snapshots[j]);
      assert Exported(host, snapshots[j], content.accounts[j]);
      ExportedName(host, snapshots[j], content.accounts[j]);
      SnapshotOfItsAccount(host, tenantID, ids[i], snapshots[i]);
      SnapshotOfItsAccount(host, tenantID, ids[j], snapshots[j]);
      SameProxy(host, snapshots[i], snapshots[j]);
    }
  }

  lemma SameProxy(host: Host, s: Snapshot, s': Snapshot)
    requires s.proxy.Some? && s.proxy == s'.proxy && ProxyAlong(host, s).Some? && ProxyAlong(host, s').Some?
    ensures ProxyAlong(host, s) == ProxyAlong(host, s')
  {
  }

  lemma ExportOpens(host: Host, pr: Primitives, out: ExportRequest, ids: seq<int>, snapshots: seq<Snapshot>,
                    content: Content, result: ExportResult, req: ImportRequest)
    requires Laws(pr) && CollisionFree(host)
    requires (host.salt.Some? ==> |host.salt.value| == 16) && (host.nonce.Some? ==> |host.nonce.value| == 12)
    requires IsExport(host, pr, out, ids, snapshots, content, result)
    requires req.envelope == result.envelope && req.password == out.password
    requires OperatorError(req.operator).None? && |req.destinations| > 0
    ensures ImportError(pr, req).None? && Open(pr, req.envelope, req.password) == Success(content)
  {
    SealedOpens(pr, content, out.password, host.salt, host.nonce);
    BundledProxiesAreValid(host, snapshots, content.proxies);
    SameLength(ids, out.accountIDs);
  }

  /**
   What `ExecuteExport` produced comes through `prepareImport` with the same password: no error
   whatever, no account turned down for its ref, every proxy in its place.
   */
  lemma ExportImports(host: Host, target: Target, pr: Primitives, out: ExportRequest, ids: seq<int>,
                      snapshots: seq<Snapshot>, content: Content, result: ExportResult, req: ImportRequest,
                      proxies: map<string, PortableProxy>)
    requires Laws(pr) && CollisionFree(host) && AnswersFit(host, out.operator.tenantID)
    requires forall p: ProxyRow, q: ProxyRow :: host.proxyRef(p) == host.proxyRef(q) ==> p.id == q.id
    requires (host.salt.Some? ==> |host.salt.value| == 16) && (host.nonce.Some? ==> |host.nonce.value| == 12)
    requires IsExport(host, pr, out, ids, snapshots, content, result)
    requires req.envelope == result.envelope && req.password == out.password
    requires OperatorError(req.operator).None? && |req.destinations| > 0 && IndexesProxies(content.proxies, proxies)
    ensures ImportError(pr, req).None? && Open(pr, req.envelope, req.password) == Success(content)
    ensures forall i: nat :: i < |content.accounts| ==>
      NotTurnedDown(target, content.accounts, i, proxies, req.destinations)
    ensures forall i: nat :: i < |content.accounts| ==> Carries(host, snapshots[i], content.accounts[i], proxies)
  {
    ExportOpens(host, pr, out, ids, snapshots, content, result, req);
    forall i: nat | i < |content.accounts|
      ensures NotTurnedDown(target, content.accounts, i, proxies, req.destinations)
    {
      BundledRefsAreUnique(host, pr, out, ids, snapshots, content, result, i);
    }
    forall i: nat | i < |content.accounts| ensures Carries(host, snapshots[i], content.accounts[i], proxies) {
      BundledProxyIsOwn(host, pr, out, ids, snapshots, content, result, i, proxies);
      assert Exported(host, snapshots[i], content.accounts[i]);
      CarriesItsAccount(host, snapshots[i], content.accounts[i], proxies);
    }
  }

  /** The item of the account is what planning it alone gives. */
  predicate NotTurnedDown(target: Target, accounts: seq<PortableAccount>, i: nat, proxies: map<string, PortableProxy>,
                          destinations: Destinations)
    requires i < |accounts|
  {
    ItemFor(target, accounts, i, proxies, destinations) == PlanAccount(target, accounts[i], proxies, destinations)
  }

  /** The account is the one of the snapshot, with the credential loaded for it and with its own proxy. */
  predicate Carries(host: Host, s: Snapshot, account: PortableAccount, proxies: map<string, PortableProxy>) {
    && account.config == s.account.config
    && account.sourceProviderID == s.account.providerID && account.sourceChannelID == s.account.channelID
    && host.load(s) == Loaded(account.credential)
    && match s.proxy
       case None => account.proxyRef == ""
       case Some(row) =>
         && account.proxyRef in proxies
         && var p := proxies[account.proxyRef];
         p.name == row.name && p.endpoint == row.endpoint
         && (if row.authSecret.None? then p.authSecret == ""
             else host.decodeSecret(row.authSecret.value) == Some(p.authSecret))
  }

  lemma CarriesItsAccount(host: Host, s: Snapshot, account: PortableAccount, proxies: map<string, PortableProxy>)
    requires Exported(host, s, account)
    requires if s.proxy.None? then account.proxyRef == ""
             else account.proxyRef in proxies && Some(proxies[account.proxyRef]) == ProxyAlong(host, s)
    ensures Carries(host, s, account, proxies)
  {
  }

  // ------------------------------------------------------------------------ execution

  datatype Entry = Entry(ref: string, planHash: string, confirmations: seq<string>)

  datatype ItemStatus = Completed | ItemSkipped | ItemConflict | ItemFailed

  datatype ExecutionItem = ExecutionItem(ref: string, status: ItemStatus, code: string)

  /** How the intake service answers an execution. */
  datatype Answer = Changed | Fails | Summary(conflict: nat, failed: nat)

  /** One execution handed to the intake service. */
  datatype Call = Call(entry: nat, candidate: Candidate, planHash: string, confirmations: seq<string>,
                       replacing: Option<int>)

  datatype ExecutionResult = ExecutionResult(items: seq<ExecutionItem>, completed: nat, skipped: nat, conflict: nat,
                                             failed: nat)

  /** The item planned last for a ref. */
  function LastItem(items: seq<PlannedItem>, ref: string): Option<PlannedItem> {
    if items == [] then None
    else if items[|items| - 1].ref == ref then Some(items[|items| - 1])
    else LastItem(items[..|items| - 1], ref)
  }

  predicate Confirmed(provided: seq<string>, value: string) {
    exists i :: 0 <= i < |provided| && Trim(provided[i]) == value
  }

  predicate AllConfirmed(required: seq<string>, provided: seq<string>) {
    forall i :: 0 <= i < |required| ==> Confirmed(provided, required[i])
  }

  /** `missingConfirmations`, up to the order of what is missing. */
  method MissingConfirmations(required: seq<string>, provided: seq<string>) returns (missing: seq<string>)
    ensures missing == [] <==> AllConfirmed(required, provided)
    ensures forall x :: x in missing <==> x in required && !Confirmed(provided, x)
  {
    var given: set<string> := {};
    for i := 0 to |provided|
      invariant forall x :: x in given <==> Confirmed(provided[..i], x)
    {
      ghost var before := given;
      given := given + {Trim(provided[i])};
      forall x ensures x in given <==> Confirmed(provided[..i + 1], x) {
        ConfirmedNext(provided[..i + 1], x);
        assert provided[..i + 1][..i] == provided[..i];
      }
    }
    assert provided[..|provided|] == provided;
    missing := [];
    for i := 0 to |required|
      invariant forall x :: x in missing <==> x in required[..i] && !Confirmed(provided, x)
      invariant missing == [] <==> AllConfirmed(required[..i], provided)
    {
      assert required[..i + 1] == required[..i] + [required[i]];
      if required[i] !in given {
        missing := missing + [required[i]];
      }
    }
    assert required[..|required|] == required;
  }

  lemma ConfirmedNext(provided: seq<string>, x: string)
    requires provided != []
    ensures Confirmed(provided, x) <==> Confirmed(provided[..|provided| - 1], x) || Trim(provided[|provided| - 1]) == x
  {
  }

  function Ref(e: Entry): string {
    Trim(e.ref)
  }

  predicate Mentioned(entries: seq<Entry>, k: nat, ref: string)
    requires k <= |entries|
  {
    exists j :: 0 <= j < k && Ref(entries[j]) == ref
  }

  /** The account may be executed: it is ready, the caller has seen this plan, and confirmed all of it. */
  predicate Permitted(p: Prepared, e: Entry) {
    var planned := LastItem(p.items, Ref(e));
    && planned.Some? && planned.value.status == Ready && Ref(e) in p.accounts
    && SameHash(e.planHash, planned.value.planHash)
    && AllConfirmed(planned.value.confirmations, e.confirmations)
  }

  predicate Executable(p: Prepared, entries: seq<Entry>, k: nat)
    requires k < |entries|
  {
    !Mentioned(entries, k, Ref(entries[k])) && Permitted(p, entries[k])
  }

  function WithoutConfig(values: seq<string>): seq<string> {
    if values == [] then []
    else
      var rest, last := WithoutConfig(values[..|values| - 1]), values[|values| - 1];
      if last == CONFIRM_CONFIG then rest else rest + [last]
  }

  /** What `executeImportAccount` hands to the intake service, if it gets that far. */
  function CandidateFor(target: Target, account: PortableAccount, proxies: map<string, PortableProxy>,
                        destinations: Destinations): Option<Candidate> {
    var destination := DestinationFor(account, destinations);
    if destination.None? || Trim(account.config.name) == "" then None
    else if account.proxyRef != "" && account.proxyRef !in proxies then None
    else if !target.validPayload(account.credential) then None
    else
      var proxy := if account.proxyRef == "" then None else Some(proxies[account.proxyRef]);
      Some(Candidate(account, destination.value, proxy))
  }

  function FromAnswer(ref: string, answer: Answer): ExecutionItem {
    match answer
    case Changed => ExecutionItem(ref, ItemConflict, "account_plan_changed")
    case Fails => ExecutionItem(ref, ItemFailed, "account_import_failed")
    case Summary(conflict, failed) =>
      if conflict > 0 then ExecutionItem(ref, ItemConflict, "account_conflict")
      else if failed > 0 then ExecutionItem(ref, ItemFailed, "account_execution_failed")
      else ExecutionItem(ref, Completed, "account_imported")
  }

  function CallFor(target: Target, p: Prepared, entries: seq<Entry>, k: nat, destinations: Destinations): Option<Call>
    requires k < |entries| && Permitted(p, entries[k])
  {
    var e := entries[k];
    var planned := LastItem(p.items, Ref(e)).value;
    var candidate := CandidateFor(target, p.accounts[Ref(e)], p.proxies, destinations);
    if candidate.None? then None
    else Some(Call(k, candidate.value, e.planHash, WithoutConfig(e.confirmations), planned.existingUpdatedAt))
  }

  /** The result of one entry. */
  function ItemOf(target: Target, p: Prepared, entries: seq<Entry>, k: nat, destinations: Destinations,
                  answers: nat -> Answer): ExecutionItem
    requires k < |entries|
  {
    var e := entries[k];
    var planned := LastItem(p.items, Ref(e));
    if Mentioned(entries, k, Ref(e)) then ExecutionItem(Ref(e), ItemConflict, "duplicate_account_entry")
    else if || planned.None? || planned.value.status != Ready || Ref(e) !in p.accounts
            || !SameHash(e.planHash, planned.value.planHash)
    then ExecutionItem(Ref(e), ItemConflict, "account_plan_changed")
    else if !AllConfirmed(planned.value.confirmations, e.confirmations)
    then ExecutionItem(Ref(e), ItemConflict, "confirmation_required")
    else if CallFor(target, p, entries, k, destinations).None?
    then ExecutionItem(p.accounts[Ref(e)].ref, ItemFailed, "account_import_failed")
    else FromAnswer(p.accounts[Ref(e)].ref, answers(k))
  }

  function Count(items: seq<ExecutionItem>, status: ItemStatus): nat {
    if items == [] then 0
    else Count(items[..|items| - 1], status) + if items[|items| - 1].status == status then 1 else 0
  }

  function CallIf(target: Target, p: Prepared, entries: seq<Entry>, k: nat, destinations: Destinations): Option<Call>
    requires k < |entries|
  {
    if Executable(p, entries, k) then CallFor(target, p, entries, k, destinations) else None
  }

  function Present(steps: seq<Option<Call>>): seq<Call> {
    if steps == [] then []
    else
      var before, last := Present(steps[..|steps| - 1]), steps[|steps| - 1];
      before + if last.Some? then [last.value] else []
  }

  function StepsFor(target: Target, p: Prepared, entries: seq<Entry>, n: nat,
                    destinations: Destinations): (steps: seq<Option<Call>>)
    requires n <= |entries|
  {
    seq(n, k requires 0 <= k < |entries| => CallIf(target, p, entries, k, destinations))
  }

  /** The calls made for the first entries, in their order. */
  function CallsFor(target: Target, p: Prepared, entries: seq<Entry>, n: nat, destinations: Destinations): seq<Call>
    requires n <= |entries|
  {
    Present(StepsFor(target, p, entries, n, destinations))
  }

  predicate Tallied(r: ExecutionResult) {
    && r.completed == Count(r.items, Completed) && r.skipped == Count(r.items, ItemSkipped)
    && r.conflict == Count(r.items, ItemConflict) && r.failed == Count(r.items, ItemFailed)
    && r.completed + r.skipped + r.conflict + r.failed == |r.items|
  }

  function AddResult(r: ExecutionResult, item: ExecutionItem): (q: ExecutionResult)
    ensures q.items == r.items + [item]
  {
    var q := r.(items := r.items + [item]);
    match item.status
    case Completed => q.(completed := r.completed + 1)
    case ItemSkipped => q.(skipped := r.skipped + 1)
    case ItemConflict => q.(conflict := r.conflict + 1)
    case ItemFailed => q.(failed := r.failed + 1)
  }

  lemma TalliedNext(r: ExecutionResult, item: ExecutionItem)
    requires Tallied(r)
    ensures Tallied(AddResult(r, item))
  {
  }

  /** The items by their ref, the last one winning. */
  method IndexItems(items: seq<PlannedItem>) returns (byRef: map<string, PlannedItem>)
    ensures forall ref :: LastItem(items, ref) == if ref in byRef then Some(byRef[ref]) else None
  {
    byRef := map[];
    for i := 0 to |items|
      invariant forall ref :: LastItem(items[..i], ref) == if ref in byRef then Some(byRef[ref]) else None
    {
      assert items[..i + 1][..i] == items[..i];
      byRef := byRef[items[i].ref := items[i]];
    }
    assert items[..|items|] == items;
  }

  /** `ExecuteImport`; `answers` are those of the intake service to the call for each entry. */
  method ExecuteImport(target: Target, pr: Primitives, req: ImportRequest, bundleHash: string, entries: seq<Entry>,
                       answers: nat -> Answer)
    returns (r: Outcome<ExecutionResult>, calls: seq<Call>, p: Prepared)
    ensures ImportError(pr, req).Some? ==> r == Failure(ImportError(pr, req).value)
    ensures ImportError(pr, req).None? ==> IsPrepared(target, Open(pr, req.envelope, req.password).value, req, p)
    ensures ImportError(pr, req).None? && !SameHash(Trim(bundleHash), p.bundleHash) ==> r == Failure(PlanChanged)
    ensures ImportError(pr, req).None? && SameHash(Trim(bundleHash), p.bundleHash) ==>
      (r.Success? <==> 0 < |entries| <= |p.items|)
    ensures r.Success? ==> Trim(bundleHash) == p.bundleHash && |p.bundleHash| == 64
    ensures r.Success? ==> |r.value.items| == |entries| && Tallied(r.value)
    ensures r.Success? ==> ItemsAre(target, p, entries, req.destinations, answers, r.value.items)
    ensures calls == if r.Success? then CallsFor(target, p, entries, |entries|, req.destinations) else []
    ensures r.Success? ==> AllTold(entries, answers, calls, r.value.items)
    ensures r.Success? ==>
      r.value.completed == |set k: nat | k < |entries| && Called(calls, k) && answers(k) == Summary(0, 0)|
  {
    calls := [];
    var prepared := PrepareImport(target, pr, req);
    if prepared.Failure? {
      p := Prepared([], 0, 0, 0, 0, "", map[], map[]);
      return Failure(prepared.error), calls, p;
    }
    p := prepared.value;
    if !SameHash(Trim(bundleHash), p.bundleHash) {
      return Failure(PlanChanged), calls, p;
    }
    if |entries| == 0 || |entries| > |p.items| {
      return Failure(InvalidInput), calls, p;
    }
    r, calls := RunEntries(target, p, entries, req.destinations, answers);
    AllAreTold(target, Open(pr, req.envelope, req.password).value, req, p, entries, answers, r.value.items);
    CompletedAreCounted(entries, answers, calls, r.value.items);
  }

  ghost predicate SeenRefs(entries: seq<Entry>, k: nat, seen: set<string>)
    requires k <= |entries|
  {
    forall ref :: ref in seen <==> Mentioned(entries, k, ref)
  }

  lemma SeenNext(entries: seq<Entry>, k: nat, seen: set<string>)
    requires k < |entries| && SeenRefs(entries, k, seen)
    ensures SeenRefs(entries, k + 1, seen + {Ref(entries[k])})
  {
  }

  /** Each entry has the result that is due to it. */
  ghost predicate ItemsAre(target: Target, p: Prepared, entries: seq<Entry>, destinations: Destinations,
                           answers: nat -> Answer, items: seq<ExecutionItem>) {
    |items| <= |entries| && forall k: nat :: k < |items| ==>
      items[k] == ItemOf(target, p, entries, k, destinations, answers)
  }

  lemma ItemsNext(target: Target, p: Prepared, entries: seq<Entry>, destinations: Destinations, answers: nat -> Answer,
                  items: seq<ExecutionItem>, item: ExecutionItem)
    requires ItemsAre(target, p, entries, destinations, answers, items) && |items| < |entries|
    requires item == ItemOf(target, p, entries, |items|, destinations, answers)
    ensures ItemsAre(target, p, entries, destinations, answers, items + [item])
  {
  }

  lemma CallsNext(target: Target, p: Prepared, entries: seq<Entry>, k: nat, destinations: Destinations)
    requires k < |entries|
    ensures var call := CallIf(target, p, entries, k, destinations);
      CallsFor(target, p, entries, k + 1, destinations)
        == CallsFor(target, p, entries, k, destinations) + if call.Some? then [call.value] else []
  {
    assert StepsFor(target, p, entries, k + 1, destinations)[..k] == StepsFor(target, p, entries, k, destinations);
  }

  /** The loop of `ExecuteImport` over the entries. */
  method RunEntries(target: Target, p: Prepared, entries: seq<Entry>, destinations: Destinations,
                    answers: nat -> Answer)
    returns (r: Outcome<ExecutionResult>, calls: seq<Call>)
    ensures r.Success? && |r.value.items| == |entries| && Tallied(r.value)
    ensures ItemsAre(target, p, entries, destinations, answers, r.value.items)
    ensures calls == CallsFor(target, p, entries, |entries|, destinations)
  {
    calls := [];
    var plannedByRef := IndexItems(p.items);
    var out := ExecutionResult([], 0, 0, 0, 0);
    var seen: set<string> := {};
    for k := 0 to |entries|
      invariant |out.items| == k && Tallied(out)
      invariant ItemsAre(target, p, entries, destinations, answers, out.items)
      invariant SeenRefs(entries, k, seen)
      invariant calls == CallsFor(target, p, entries, k, destinations)
    {
      var ref := Ref(entries[k]);
      var item, call := RunEntry(target, p, plannedByRef, entries, k, ref in seen, destinations, answers);
      CallsNext(target, p, entries, k, destinations);
      if call.Some? {
        calls := calls + [call.value];
      }
      TalliedNext(out, item);
      ItemsNext(target, p, entries, destinations, answers, out.items, item);
      out := AddResult(out, item);
      SeenNext(entries, k, seen);
      seen := seen + {ref};
    }
    r := Success(out);
  }

  /** One round of the loop of `ExecuteImport`. */
  method RunEntry(target: Target, p: Prepared, plannedByRef: map<string, PlannedItem>, entries: seq<Entry>, k: nat,
                  seen: bool, destinations: Destinations, answers: nat -> Answer)
    returns (item: ExecutionItem, call: Option<Call>)
    requires k < |entries| && (seen <==> Mentioned(entries, k, Ref(entries[k])))
    requires forall ref :: LastItem(p.items, ref) == if ref in plannedByRef then Some(plannedByRef[ref]) else None
    ensures item == ItemOf(target, p, entries, k, destinations, answers)
    ensures call == CallIf(target, p, entries, k, destinations)
  {
    var e, ref := entries[k], Ref(entries[k]);
    if seen {
      return ExecutionItem(ref, ItemConflict, "duplicate_account_entry"), None;
    }
    if || ref !in plannedByRef || ref !in p.accounts || plannedByRef[ref].status != Ready
       || !SameHash(e.planHash, plannedByRef[ref].planHash)
    {
      return ExecutionItem(ref, ItemConflict, "account_plan_changed"), None;
    }
    var planned, account := plannedByRef[ref], p.accounts[ref];
    var missing := MissingConfirmations(planned.confirmations, e.confirmations);
    if |missing| > 0 {
      return ExecutionItem(ref, ItemConflict, "confirmation_required"), None;
    }
    var candidate := CandidateFor(target, account, p.proxies, destinations);
    if candidate.None? {
      return ExecutionItem(account.ref, ItemFailed, "account_import_failed"), None;
    }
    call := Some(Call(k, candidate.value, e.planHash, WithoutConfig(e.confirmations), planned.existingUpdatedAt));
    item := FromAnswer(account.ref, answers(k));
  }

  // ------------------------------------------------------------------- at most once

  /** The ref stands at this place of the bundle and nowhere else. */
  predicate OnlyAt(accounts: seq<PortableAccount>, i: nat, ref: string) {
    && i < |accounts| && accounts[i].ref == ref
    && forall j :: 0 <= j < |accounts| && accounts[j].ref == ref ==> j == i
  }

  lemma ItemRef(target: Target, accounts: seq<PortableAccount>, i: nat, proxies: map<string, PortableProxy>,
                destinations: Destinations)
    requires i < |accounts|
    ensures ItemFor(target, accounts, i, proxies, destinations).ref == accounts[i].ref
  {
  }

  lemma ReadyItem(target: Target, accounts: seq<PortableAccount>, i: nat, proxies: map<string, PortableProxy>,
                  destinations: Destinations)
    requires i < |accounts| && ItemFor(target, accounts, i, proxies, destinations).status == Ready
    ensures !Repeated(accounts, i) && CandidateFor(target, accounts[i], proxies, destinations).Some?
  {
  }

  lemma {:induction false} LastItemIs(items: seq<PlannedItem>, ref: string) returns (i: nat)
    requires LastItem(items, ref).Some?
    ensures i < |items| && items[i] == LastItem(items, ref).value && items[i].ref == ref
    ensures forall j :: i < j < |items| ==> items[j].ref != ref
  {
    if items[|items| - 1].ref == ref {
      i := |items| - 1;
    } else {
      i := LastItemIs(items[..|items| - 1], ref);
    }
  }

  lemma StandsAlone(accounts: seq<PortableAccount>, items: seq<PlannedItem>, i: nat)
    requires |items| == |accounts| && forall j: nat :: j < |items| ==> items[j].ref == accounts[j].ref
    requires i < |accounts| && !Repeated(accounts, i)
    requires forall j :: i < j < |items| ==> items[j].ref != items[i].ref
    ensures OnlyAt(accounts, i, items[i].ref)
  {
  }

  lemma IndexedIs(accounts: seq<PortableAccount>, byRef: map<string, PortableAccount>, i: nat, ref: string)
    requires IndexesAccounts(accounts, byRef) && OnlyAt(accounts, i, ref)
    ensures ref in byRef && byRef[ref] == accounts[i]
  {
    assert LastIs(accounts, ref, byRef[ref]);
  }

  /** An item that is ready stands for the only account with its ref, and that is the account executed. */
  lemma ReadyMeansOnly(target: Target, content: Content, req: ImportRequest, p: Prepared, ref: string) returns (i: nat)
    requires IsPrepared(target, content, req, p) && LastItem(p.items, ref).Some?
    requires LastItem(p.items, ref).value.status == Ready
    ensures OnlyAt(content.accounts, i, ref) && ref in p.accounts && p.accounts[ref] == content.accounts[i]
    ensures p.items[i] == LastItem(p.items, ref).value
    ensures CandidateFor(target, content.accounts[i], p.proxies, req.destinations).Some?
  {
    i := LastItemIs(p.items, ref);
    assert p.items[i] == ItemFor(target, content.accounts, i, p.proxies, req.destinations);
    ReadyItem(target, content.accounts, i, p.proxies, req.destinations);
    forall j: nat | j < |p.items| ensures p.items[j].ref == content.accounts[j].ref {
      ItemRef(target, content.accounts, j, p.proxies, req.destinations);
    }
    StandsAlone(content.accounts, p.items, i);
    IndexedIs(content.accounts, p.accounts, i, ref);
  }

  /** Everything an executed entry has to satisfy. */
  ghost predicate Justified(target: Target, content: Content, p: Prepared, entries: seq<Entry>,
                            destinations: Destinations, c: Call) {
    && c.entry < |entries| && Executable(p, entries, c.entry)
    && c.candidate.account.ref == Ref(entries[c.entry])
    && Some(c.candidate) == CandidateFor(target, c.candidate.account, p.proxies, destinations)
    && exists i: nat ::
         OnlyAt(content.accounts, i, c.candidate.account.ref) && content.accounts[i] == c.candidate.account
  }

  lemma CallIsJustified(target: Target, content: Content, req: ImportRequest, p: Prepared, entries: seq<Entry>, k: nat)
    requires IsPrepared(target, content, req, p) && k < |entries| && Executable(p, entries, k)
    ensures var c := CallFor(target, p, entries, k, req.destinations);
      c.Some? && c.value.entry == k && Justified(target, content, p, entries, req.destinations, c.value)
  {
    var i := ReadyMeansOnly(target, content, req, p, Ref(entries[k]));
    var c := CallFor(target, p, entries, k, req.destinations).value;
    assert OnlyAt(content.accounts, i, c.candidate.account.ref);
  }

  /** An entry that may be executed leads to a justified call of its own, any other to none. */
  ghost predicate StepIsRight(target: Target, content: Content, p: Prepared, entries: seq<Entry>,
                              destinations: Destinations, k: nat, call: Option<Call>)
    requires k < |entries|
  {
    if Executable(p, entries, k)
    then call.Some? && call.value.entry == k && Justified(target, content, p, entries, destinations, call.value)
    else call.None?
  }

  lemma EveryStepIsRight(target: Target, content: Content, req: ImportRequest, p: Prepared, entries: seq<Entry>, k: nat)
    requires IsPrepared(target, content, req, p) && k < |entries|
    ensures StepIsRight(target, content, p, entries, req.destinations, k,
      CallIf(target, p, entries, k, req.destinations))
  {
    if Executable(p, entries, k) { CallIsJustified(target, content, req, p, entries, k); }
  }

  ghost predicate CallsInOrder(calls: seq<Call>, n: nat) {
    && (forall i :: 0 <= i < |calls| ==> calls[i].entry < n)
    && (forall i, j :: 0 <= i < j < |calls| ==> calls[i].entry < calls[j].entry)
  }

  ghost predicate Called(calls: seq<Call>, k: nat) {
    exists i :: 0 <= i < |calls| && calls[i].entry == k
  }

  lemma {:induction false} PresentAre(steps: seq<Option<Call>>, c: Call)
    ensures c in Present(steps) <==> Some(c) in steps
  {
    if steps != [] {
      var front, last := steps[..|steps| - 1], steps[|steps| - 1];
      assert steps == front + [last];
      PresentAre(front, c);
    }
  }

  ghost predicate Numbered(steps: seq<Option<Call>>) {
    forall k: nat :: k < |steps| && steps[k].Some? ==> steps[k].value.entry == k
  }

  lemma {:induction false} PresentInOrder(steps: seq<Option<Call>>)
    requires Numbered(steps)
    ensures CallsInOrder(Present(steps), |steps|)
  {
    if steps != [] {
      PresentInOrder(steps[..|steps| - 1]);
    }
  }

  /** The calls present are those of their steps, each under its number. */
  lemma CalledAt(steps: seq<Option<Call>>, k: nat)
    requires Numbered(steps) && k < |steps|
    ensures Called(Present(steps), k) <==> steps[k].Some?
  {
    if steps[k].Some? {
      PresentAre(steps, steps[k].value);
    }
    if Called(Present(steps), k) {
      var i :| 0 <= i < |Present(steps)| && Present(steps)[i].entry == k;
      PresentAre(steps, Present(steps)[i]);
    }
  }

  ghost predicate AllJustified(target: Target, content: Content, p: Prepared, entries: seq<Entry>,
                               destinations: Destinations, calls: seq<Call>) {
    forall i :: 0 <= i < |calls| ==> Justified(target, content, p, entries, destinations, calls[i])
  }

  lemma RightCalls(target: Target, content: Content, p: Prepared, entries: seq<Entry>, destinations: Destinations,
                   steps: seq<Option<Call>>)
    requires |steps| == |entries|
    requires forall k: nat :: k < |steps| ==> StepIsRight(target, content, p, entries, destinations, k, steps[k])
    ensures CallsInOrder(Present(steps), |steps|)
    ensures AllJustified(target, content, p, entries, destinations, Present(steps))
    ensures forall k: nat :: k < |steps| ==> (Called(Present(steps), k) <==> Executable(p, entries, k))
  {
    PresentInOrder(steps);
    forall i | 0 <= i < |Present(steps)|
      ensures Justified(target, content, p, entries, destinations, Present(steps)[i])
    {
      PresentAre(steps, Present(steps)[i]);
      var k: nat :| k < |steps| && steps[k] == Some(Present(steps)[i]);
    }
    forall k: nat | k < |steps| ensures Called(Present(steps), k) <==> Executable(p, entries, k) { CalledAt(steps, k); }
  }

  /**
   The intake service is called for exactly the entries that may be executed, each once and in
   order: ready, under the hash the caller saw, with everything confirmed, for an account that
   occurs once in the bundle and was not named by an earlier entry.
   */
  lemma ExecutesExactlyThePermitted(target: Target, content: Content, req: ImportRequest, p: Prepared,
                                    entries: seq<Entry>)
    requires IsPrepared(target, content, req, p)
    ensures var calls := CallsFor(target, p, entries, |entries|, req.destinations);
      && CallsInOrder(calls, |entries|)
      && AllJustified(target, content, p, entries, req.destinations, calls)
      && forall k: nat :: k < |entries| ==> (Called(calls, k) <==> Executable(p, entries, k))
  {
    var steps := StepsFor(target, p, entries, |entries|, req.destinations);
    forall k: nat | k < |entries| ensures StepIsRight(target, content, p, entries, req.destinations, k, steps[k]) {
      EveryStepIsRight(target, content, req, p, entries, k);
    }
    RightCalls(target, content, p, entries, req.destinations, steps);
  }

  /** No account is executed twice, whatever the entries say. */
  lemma AtMostOnce(target: Target, content: Content, req: ImportRequest, p: Prepared, entries: seq<Entry>, i: nat,
                   j: nat)
    requires IsPrepared(target, content, req, p)
    requires i < j < |CallsFor(target, p, entries, |entries|, req.destinations)|
    ensures var calls := CallsFor(target, p, entries, |entries|, req.destinations);
      calls[i].candidate.account.ref != calls[j].candidate.account.ref
  {
    ExecutesExactlyThePermitted(target, content, req, p, entries);
    var calls := CallsFor(target, p, entries, |entries|, req.destinations);
    assert Justified(target, content, p, entries, req.destinations, calls[i]);
    assert Justified(target, content, p, entries, req.destinations, calls[j]);
  }

  /** An entry for a ref that occurs more than once in the bundle is never executed. */
  lemma DuplicatesAreNeverExecuted(target: Target, content: Content, req: ImportRequest, p: Prepared,
                                   entries: seq<Entry>, a: nat, b: nat, k: nat)
    requires IsPrepared(target, content, req, p) && k < |entries|
    requires a < b < |content.accounts| && content.accounts[a].ref == content.accounts[b].ref == Ref(entries[k])
    ensures !Executable(p, entries, k) && CallIf(target, p, entries, k, req.destinations) == None
  {
    if Executable(p, entries, k) {
      var i := ReadyMeansOnly(target, content, req, p, Ref(entries[k]));
    }
  }

  predicate Destined(account: PortableAccount, destinations: Destinations) {
    var key := (account.sourceProviderID, account.sourceChannelID);
    key in destinations && destinations[key].providerID > 0 && destinations[key].channelID > 0
  }

  /** What an account is handed over with, and when it can be. */
  lemma CandidateIs(target: Target, account: PortableAccount, proxies: map<string, PortableProxy>,
                    destinations: Destinations)
    ensures var c := CandidateFor(target, account, proxies, destinations);
      && (c.Some? <==>
            && Destined(account, destinations) && Trim(account.config.name) != ""
            && (account.proxyRef == "" || account.proxyRef in proxies) && target.validPayload(account.credential))
      && (c.Some? ==>
            && c.value.account == account
            && c.value.destination == destinations[(account.sourceProviderID, account.sourceChannelID)]
            && (account.proxyRef == "" ==> c.value.proxy == None)
            && (account.proxyRef != "" ==> c.value.proxy == Some(proxies[account.proxyRef])))
  {
  }

  /** The code says why an account cannot be handed over. */
  predicate Hindered(account: PortableAccount, proxies: map<string, PortableProxy>, destinations: Destinations,
                     code: string) {
    && (code == "destination_missing" <==> !Destined(account, destinations))
    && (code == "proxy_mapping_missing" <==>
          && Destined(account, destinations) && Trim(account.config.name) != ""
          && account.proxyRef != "" && account.proxyRef !in proxies)
    && (code != "destination_missing" && code != "proxy_mapping_missing" ==> code == "bundle_account_invalid")
  }

  /** How the intake service's plan for one credential shows in the item of the account. */
  ghost predicate ShowsPlan(target: Target, account: PortableAccount, destination: Destination, x: Intake,
                            item: PlannedItem) {
    match x.action
    case Create =>
      && item.existingUpdatedAt == None && item.confirmations == x.confirmations
      && (match target.nameExists(Trim(account.config.name))
          case None => item.status == Failed && item.code == "account_name_check_failed"
          case Some(true) => item.status == Conflicting && item.code == "account_name_conflict"
          case Some(false) => item.status == Ready && item.code == "create_ready")
    case Update =>
      (match target.existing(x.existingAccountID, destination, account.config.accountType)
       case None =>
         && item.status == Conflicting && item.code == "existing_account_destination_conflict"
         && item.existingUpdatedAt == None && item.confirmations == x.confirmations
       case Some(at) =>
         && item.status == Ready && item.code == "update_ready" && item.existingUpdatedAt == Some(at)
         && x.confirmations <= item.confirmations
         && (forall c :: c in item.confirmations <==> c in x.confirmations || c == "confirm_account_config_replace")
         && |item.confirmations|
              == |x.confirmations| + if "confirm_account_config_replace" in x.confirmations then 0 else 1)
    case Skip => item.status == Skipped && item.code == x.code && item.existingUpdatedAt == None
    case Conflict => item.status == Conflicting && item.code == x.code && item.existingUpdatedAt == None
    case OtherAction => item.status == Failed && item.code == x.code && item.existingUpdatedAt == None
  }

  /** Every way the plan of one account can end. */
  lemma PlannedAs(target: Target, account: PortableAccount, proxies: map<string, PortableProxy>,
                  destinations: Destinations)
    ensures var item := PlanAccount(target, account, proxies, destinations);
      var c := CandidateFor(target, account, proxies, destinations);
      && item.ref == account.ref
      && if c.None? then
           item.status == Failed && item.planHash == "" && Hindered(account, proxies, destinations, item.code)
         else if target.plan(c.value).None? then
           item.status == Failed && item.planHash == "" && item.code == "account_plan_failed"
         else
           var plan := target.plan(c.value).value;
           item.planHash == plan.planHash &&
           if |plan.items| != 1 then item.status == Failed && item.code == "credential_count_invalid"
           else ShowsPlan(target, account, c.value.destination, plan.items[0], item)
  {
    var c := CandidateFor(target, account, proxies, destinations);
    CandidateIs(target, account, proxies, destinations);
    if c.Some? && target.plan(c.value).Some? && |target.plan(c.value).value.items| == 1 {
      var plan := target.plan(c.value).value;
      assert PlanAccount(target, account, proxies, destinations)
        == FromIntake(target, account, c.value.destination, plan.planHash, plan.items[0]);
      FromIntakeShows(target, account, c.value.destination, plan.planHash, plan.items[0]);
    }
  }

  lemma FromIntakeShows(target: Target, account: PortableAccount, destination: Destination, planHash: string, x: Intake)
    ensures var item := FromIntake(target, account, destination, planHash, x);
      ShowsPlan(target, account, destination, x, item) && item.planHash == planHash && item.ref == account.ref
  {
  }

  /**
   A ready item could be handed to the intake service, which creates under a free name or updates
   the account it found.
   */
  lemma ReadyIsExecutable(target: Target, account: PortableAccount, proxies: map<string, PortableProxy>,
                          destinations: Destinations)
    ensures var item := PlanAccount(target, account, proxies, destinations);
      var candidate := CandidateFor(target, account, proxies, destinations);
      item.status == Ready <==>
        && candidate.Some? && target.plan(candidate.value).Some? && |target.plan(candidate.value).value.items| == 1
        && var planned := target.plan(candidate.value).value.items[0];
        || (planned.action == Create && target.nameExists(Trim(account.config.name)) == Some(false))
        || (planned.action == Update
            && target.existing(planned.existingAccountID, candidate.value.destination,
              account.config.accountType).Some?)
    ensures var item := PlanAccount(target, account, proxies, destinations);
      item.existingUpdatedAt.Some? ==> item.status == Ready && CONFIRM_CONFIG in item.confirmations
    ensures var item := PlanAccount(target, account, proxies, destinations);
      item.status == Ready ==>
        item.planHash == target.plan(CandidateFor(target, account, proxies, destinations).value).value.planHash
  {
    var candidate := CandidateFor(target, account, proxies, destinations);
    if candidate.Some? && target.plan(candidate.value).Some? {
      var plan := target.plan(candidate.value).value;
      if |plan.items| == 1 {
        assert PlanAccount(target, account, proxies, destinations)
          == FromIntake(target, account, candidate.value.destination, plan.planHash, plan.items[0]);
      }
    }
  }

  lemma {:induction false} WithoutConfigHasNone(values: seq<string>)
    ensures CONFIRM_CONFIG !in WithoutConfig(values)
    ensures forall x :: x in WithoutConfig(values) <==> x in values && x != CONFIRM_CONFIG
  {
    if values != [] {
      WithoutConfigHasNone(values[..|values| - 1]);
      assert values == values[..|values| - 1] + [values[|values| - 1]];
    }
  }

  /**
   The settings of an existing account are replaced only if the caller confirmed that; the
   confirmation, as it is spelt, is for the import alone and not passed on to the intake service.
   */
  lemma ReplacesOnlyConfirmed(target: Target, content: Content, req: ImportRequest, p: Prepared, entries: seq<Entry>,
                              k: nat)
    requires IsPrepared(target, content, req, p) && k < |entries| && Executable(p, entries, k)
    ensures var call := CallFor(target, p, entries, k, req.destinations);
      && call.Some?
      && (call.value.replacing.Some? ==> Confirmed(entries[k].confirmations, CONFIRM_CONFIG))
      && CONFIRM_CONFIG !in call.value.confirmations
  {
    var i := ReadyMeansOnly(target, content, req, p, Ref(entries[k]));
    ReadyIsExecutable(target, content.accounts[i], p.proxies, req.destinations);
    WithoutConfigHasNone(entries[k].confirmations);
    var planned := LastItem(p.items, Ref(entries[k])).value;
    assert planned == ItemFor(target, content.accounts, i, p.proxies, req.destinations);
    if planned.existingUpdatedAt.Some? {
      var n :| 0 <= n < |planned.confirmations| && planned.confirmations[n] == CONFIRM_CONFIG;
      assert Confirmed(entries[k].confirmations, planned.confirmations[n]);
    }
  }

  /** An account is executed as it was planned: the caller's hash is that of the plan for this very candidate. */
  lemma ExecutesWhatWasPlanned(target: Target, content: Content, req: ImportRequest, p: Prepared, entries: seq<Entry>,
                               k: nat)
    requires IsPrepared(target, content, req, p) && k < |entries| && Executable(p, entries, k)
    ensures var call := CallFor(target, p, entries, k, req.destinations);
      && call.Some? && call.value.planHash == entries[k].planHash
      && target.plan(call.value.candidate).Some?
      && target.plan(call.value.candidate).value.planHash == entries[k].planHash
  {
    var i := ReadyMeansOnly(target, content, req, p, Ref(entries[k]));
    ReadyIsExecutable(target, content.accounts[i], p.proxies, req.destinations);
    assert p.items[i] == ItemFor(target, content.accounts, i, p.proxies, req.destinations);
  }

  lemma {:induction false} NothingIsSkipped(target: Target, p: Prepared, entries: seq<Entry>,
                                            destinations: Destinations, answers: nat -> Answer,
                                            items: seq<ExecutionItem>)
    requires ItemsAre(target, p, entries, destinations, answers, items)
    ensures Count(items, ItemSkipped) == 0
  {
    if items != [] {
      NothingIsSkipped(target, p, entries, destinations, answers, items[..|items| - 1]);
    }
  }

  // ------------------------------------------------------------------ what the caller is told

  /**
   The entry is told to be imported exactly when a call was made for it and nothing conflicted or
   failed in it; failed when its call failed or somebody failed in it without a conflict; and a
   conflict when there was no call, the plan had changed, or somebody conflicted.
   */
  predicate Told(e: Entry, called: bool, answer: Answer, item: ExecutionItem) {
    && item.ref == Trim(e.ref)
    && (item.status == Completed <==> called && answer == Summary(0, 0))
    && (item.status == ItemFailed <==>
          called && (answer.Fails? || (answer.Summary? && answer.conflict == 0 && answer.failed > 0)))
    && (item.status == ItemConflict <==> !called || answer.Changed? || (answer.Summary? && answer.conflict > 0))
    && (called ==> item.code == CodeOf(answer))
    && (!called ==> item.code in {"duplicate_account_entry", "account_plan_changed", "confirmation_required"})
  }

  function CodeOf(answer: Answer): string {
    match answer
    case Changed => "account_plan_changed"
    case Fails => "account_import_failed"
    case Summary(0, 0) => "account_imported"
    case Summary(0, _) => "account_execution_failed"
    case Summary(_, _) => "account_conflict"
  }

  ghost predicate AllTold(entries: seq<Entry>, answers: nat -> Answer, calls: seq<Call>, items: seq<ExecutionItem>) {
    |items| == |entries| &&
    forall k: nat :: k < |entries| ==> Told(entries[k], Called(calls, k), answers(k), items[k])
  }

  lemma ItemIsTold(target: Target, content: Content, req: ImportRequest, p: Prepared, entries: seq<Entry>,
                   answers: nat -> Answer, k: nat)
    requires IsPrepared(target, content, req, p) && k < |entries|
    ensures Told(entries[k], Executable(p, entries, k), answers(k),
                 ItemOf(target, p, entries, k, req.destinations, answers))
  {
    if Executable(p, entries, k) { CallIsJustified(target, content, req, p, entries, k); }
  }

  lemma AllAreTold(target: Target, content: Content, req: ImportRequest, p: Prepared, entries: seq<Entry>,
                   answers: nat -> Answer, items: seq<ExecutionItem>)
    requires IsPrepared(target, content, req, p) && |items| == |entries|
    requires ItemsAre(target, p, entries, req.destinations, answers, items)
    ensures AllTold(entries, answers, CallsFor(target, p, entries, |entries|, req.destinations), items)
  {
    ExecutesExactlyThePermitted(target, content, req, p, entries);
    var calls := CallsFor(target, p, entries, |entries|, req.destinations);
    forall k: nat | k < |entries| ensures Told(entries[k], Called(calls, k), answers(k), items[k]) {
      ItemIsTold(target, content, req, p, entries, answers, k);
    }
  }

  function PlacesOf(items: seq<ExecutionItem>, status: ItemStatus): set<nat> {
    set k: nat | k < |items| && items[k].status == status
  }

  lemma PlacesNext(front: seq<ExecutionItem>, item: ExecutionItem, status: ItemStatus)
    ensures PlacesOf(front + [item], status)
      == PlacesOf(front, status) + if item.status == status then {|front|} else {}
  {
  }

  lemma {:induction false} CountIsSize(items: seq<ExecutionItem>, status: ItemStatus)
    ensures Count(items, status) == |PlacesOf(items, status)|
  {
    if items != [] {
      var front, last := items[..|items| - 1], items[|items| - 1];
      CountIsSize(front, status);
      PlacesNext(front, last, status);
      assert items == front + [last];
    }
  }

  lemma CompletedAreCounted(entries: seq<Entry>, answers: nat -> Answer, calls: seq<Call>, items: seq<ExecutionItem>)
    requires AllTold(entries, answers, calls, items)
    ensures Count(items, Completed) == |set k: nat | k < |entries| && Called(calls, k) && answers(k) == Summary(0, 0)|
  {
    CountIsSize(items, Completed);
    forall k: nat | k < |entries|
      ensures items[k].status == Completed <==> Called(calls, k) && answers(k) == Summary(0, 0)
    {
      assert Told(entries[k], Called(calls, k), answers(k), items[k]);
    }
    assert PlacesOf(items, Completed)
      == set k: nat | k < |entries| && Called(calls, k) && answers(k) == Summary(0, 0);
  }
}
