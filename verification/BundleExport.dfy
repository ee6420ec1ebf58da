/**
 Exporting accounts (`accountbundle/export.go` and the reading side of `service.go`): the
 accounts are read, every one of them has to be ready, and the bundle carries each with its
 credential and each proxy once.
 */
module BundleExport {
  import opened Bundle
  import opened BundleEnvelope
  import opened Options
  import opened Sorting
  import opened Text

  datatype AccountRow = AccountRow(id: int, tenantID: int, providerID: int, channelID: int, config: PublicConfig,
                                   proxyID: Option<int>)

  /** `portable` says that the state of the credential is one that may be carried over. */
  datatype CredentialRow = CredentialRow(id: int, version: int, vendor: string, authMode: string, portable: bool)

  datatype ProxyRow = ProxyRow(id: int, name: string, endpoint: string, authSecret: Option<string>)

  datatype Snapshot = Snapshot(account: AccountRow, credential: Option<CredentialRow>, conflict: string,
                               proxy: Option<ProxyRow>)

  datatype AccountAnswer = NoRows | ReadFails | Row(account: AccountRow)

  datatype LoadAnswer = Loaded(credential: PortableCredential) | VersionConflict | LoadFails

  /** The database, the secrets, the names derived from hashes and the random source. */
  datatype Host = Host(
    account: int -> AccountAnswer,
    credentials: int -> Option<seq<CredentialRow>>,
    proxy: int -> Option<ProxyRow>,
    load: Snapshot -> LoadAnswer,
    decodeSecret: string -> Option<string>,
    accountRef: (int, int) -> string,
    proxyRef: ProxyRow -> string,
    hash: seq<Snapshot> -> string,
    salt: Option<bytes>,
    nonce: Option<bytes>,
    eventRecorded: bool,
    now: int)

  datatype Role = PlatformAdmin | TenantOperator | OtherRole

  datatype Operator = Operator(tenantID: int, actorScopeTenantID: int, actorID: string, role: Role)

  datatype ExportRequest = ExportRequest(
    operator: Operator, accountIDs: seq<int>, planHash: string, password: bytes, confirmation: string)

  datatype ExportResult = ExportResult(envelope: Envelope, accountCount: nat, proxyCount: nat)

  const CONFIRMATION := "EXPORT_ENCRYPTED_ACCOUNT_BUNDLE"

  // ------------------------------------------------------------------------ who and what

  function OperatorError(o: Operator): Option<Error> {
    if o.tenantID <= 0 || Trim(o.actorID) == "" || o.role == OtherRole then Some(InvalidInput)
    else if o.actorScopeTenantID <= 0 || o.actorScopeTenantID != o.tenantID then Some(Forbidden)
    else None
  }

  /** Somebody named, of one of the two roles, who acts within the tenant of the request. */
  predicate OwnTenant(o: Operator) {
    && o.tenantID > 0 && o.actorScopeTenantID == o.tenantID && Trim(o.actorID) != ""
    && (o.role == PlatformAdmin || o.role == TenantOperator)
  }

  /** The same person with the scope of another tenant or of none. */
  predicate OutsideTenant(o: Operator) {
    OwnTenant(o.(actorScopeTenantID := o.tenantID)) && o.actorScopeTenantID != o.tenantID
  }

  lemma OperatorsAre(o: Operator)
    ensures OperatorError(o) == None <==> OwnTenant(o)
    ensures OperatorError(o) == Some(Forbidden) <==> OutsideTenant(o)
    ensures OperatorError(o).Some? && OperatorError(o) != Some(Forbidden) ==> OperatorError(o) == Some(InvalidInput)
  {
  }

  predicate ValidIDs(ids: seq<int>) {
    && 0 < |ids| <= MAX_ACCOUNTS
    && (forall i :: 0 <= i < |ids| ==> ids[i] > 0)
    && Distinct(ids)
  }

  predicate Increasing(ids: seq<int>) {
    forall i, j :: 0 <= i < j < |ids| ==> ids[i] < ids[j]
  }

  /** `normalizeAccountIDs`: sorts a copy and rejects what is not positive or not unique. */
  method NormalizeAccountIDs(values: seq<int>) returns (r: Outcome<seq<int>>)
    ensures r.Success? <==> ValidIDs(values)
    ensures r.Success? ==> Increasing(r.value) && multiset(r.value) == multiset(values) && |r.value| == |values|
    ensures r.Success? ==> forall i :: 0 <= i < |r.value| ==> r.value[i] > 0
    ensures r.Failure? ==> r.error == InvalidInput
  {
    if |values| == 0 || |values| > MAX_ACCOUNTS {
      return Failure(InvalidInput);
    }
    var out := Sort(values);
    SameLength(values, out);
    for i := 0 to |out|
      invariant forall j :: 0 <= j < i ==> out[j] > 0
      invariant forall j, k :: 0 <= j < k < i ==> out[j] < out[k]
    {
      if out[i] <= 0 {
        Rejects(values, out, i);
        return Failure(InvalidInput);
      }
      if i > 0 && out[i] == out[i - 1] {
        Repeats(values, out, i);
        return Failure(InvalidInput);
      }
    }
    IncreasingMeansDistinct(values, out);
    r := Success(out);
  }

  lemma Moves(s: seq<int>, t: seq<int>, x: int)
    requires multiset(s) == multiset(t) && x in s
    ensures x in t
  {
    assert x in multiset(s);
  }

  lemma Rejects(values: seq<int>, out: seq<int>, i: nat)
    requires multiset(values) == multiset(out) && i < |out| && out[i] <= 0
    ensures !ValidIDs(values)
  {
    Moves(out, values, out[i]);
  }

  lemma Repeats(values: seq<int>, out: seq<int>, i: nat)
    requires multiset(values) == multiset(out) && 0 < i < |out| && out[i] == out[i - 1]
    ensures !ValidIDs(values)
  {
    var x := out[i];
    assert out == out[..i - 1] + [x] + [x] + out[i + 1..];
    assert multiset(out)[x] >= 2;
    if ValidIDs(values) { CountOfDistinct(values, x); }
  }

  lemma IncreasingMeansDistinct(values: seq<int>, out: seq<int>)
    requires multiset(values) == multiset(out) && Increasing(out) && 0 < |values| <= MAX_ACCOUNTS
    requires forall i :: 0 <= i < |out| ==> out[i] > 0
    ensures ValidIDs(values)
  {
    SameLength(values, out);
    forall i | 0 <= i < |values| ensures values[i] > 0 { Moves(values, out, values[i]); }
    forall i: nat, j: nat | i < j < |values| ensures values[i] != values[j] {
      CountOfDistinct(out, values[i]);
      if values[i] == values[j] { TwiceCounted(values, i, j); }
    }
  }

  // -------------------------------------------------------------------------- snapshots

  function Portable(cs: seq<CredentialRow>): seq<CredentialRow> {
    if cs == [] then []
    else
      var rest, last := Portable(cs[..|cs| - 1]), cs[|cs| - 1];
      if last.portable then rest + [last] else rest
  }

  /** Of the credentials just this one may be carried over. */
  predicate OnlyPortable(cs: seq<CredentialRow>, i: int) {
    0 <= i < |cs| && cs[i].portable && forall j :: 0 <= j < |cs| && j != i ==> !cs[j].portable
  }

  lemma {:induction false} PortableIs(cs: seq<CredentialRow>)
    ensures Portable(cs) == [] <==> forall i :: 0 <= i < |cs| ==> !cs[i].portable
    ensures |Portable(cs)| == 1 <==> exists i :: OnlyPortable(cs, i)
    ensures forall i :: OnlyPortable(cs, i) ==> Portable(cs) == [cs[i]]
  {
    if cs != [] {
      var front, last := cs[..|cs| - 1], |cs| - 1;
      PortableIs(front);
      if cs[last].portable {
        if Portable(front) == [] { assert OnlyPortable(cs, last); }
        forall i | OnlyPortable(cs, i) ensures i == last {}
      } else {
        forall i ensures OnlyPortable(cs, i) <==> OnlyPortable(front, i) {
          if OnlyPortable(front, i) { assert front[i] == cs[i]; }
          if OnlyPortable(cs, i) { assert front[i] == cs[i] && forall j :: 0 <= j < |front| ==> front[j] == cs[j]; }
        }
      }
    }
  }

  lemma {:induction false} PortableGrows(cs: seq<CredentialRow>, n: nat)
    requires n <= |cs|
    ensures |Portable(cs[..n])| <= |Portable(cs)|
  {
    if n < |cs| {
      PortableGrows(cs[..|cs| - 1], n);
      assert cs[..|cs| - 1][..n] == cs[..n];
    } else {
      assert cs[..n] == cs;
    }
  }

  /** An account with exactly one credential to carry over, and with its proxy if it names one. */
  predicate Exportable(host: Host, account: AccountRow, credentials: seq<CredentialRow>) {
    |Portable(credentials)| == 1 && (account.proxyID.Some? ==> host.proxy(account.proxyID.value).Some?)
  }

  function ProxyOf(host: Host, account: AccountRow): Option<ProxyRow> {
    if account.proxyID.None? then None else host.proxy(account.proxyID.value)
  }

  function NoAccount(tenantID: int, id: int): AccountRow {
    AccountRow(id, tenantID, 0, 0, PublicConfig("", "", ""), None)
  }

  /** `readAccountSnapshot`, with a missing account as the snapshot `readSnapshots` makes of it. */
  method ReadSnapshot(host: Host, tenantID: int, id: int) returns (r: Option<Snapshot>)
    ensures r.None? <==> Unreadable(host, id)
    ensures host.account(id).NoRows? ==> r == Some(Snapshot(NoAccount(tenantID, id), None, "account_not_found", None))
    ensures r.Some? && host.account(id).Row? ==>
      var account := host.account(id).account;
      var credentials := host.credentials(id).value;
      && r.value.account == account && r.value.proxy == ProxyOf(host, account)
      && (r.value.conflict == "" <==> Exportable(host, account, credentials))
      && (r.value.conflict == "" ==> r.value.credential == Some(Portable(credentials)[0]))
      && (r.value.conflict == "proxy_not_found" <==>
            account.proxyID.Some? && host.proxy(account.proxyID.value).None?)
      && (r.value.conflict in {
            "", "proxy_not_found", "portable_credential_missing", "multiple_portable_credentials"})
  {
    var answer := host.account(id);
    if answer.NoRows? {
      return Some(Snapshot(NoAccount(tenantID, id), None, "account_not_found", None));
    }
    if answer.ReadFails? || host.credentials(id).None? {
      return None;
    }
    var account, credentials := answer.account, host.credentials(id).value;
    var credential, conflict := PickCredential(credentials);
    var proxy: Option<ProxyRow> := None;
    if account.proxyID.Some? {
      proxy := host.proxy(account.proxyID.value);
      if proxy.None? {
        conflict := "proxy_not_found";
      }
    }
    return Some(Snapshot(account, credential, conflict, proxy));
  }

  /** The loop over the credentials, which stops at a second one that could be carried over. */
  method PickCredential(credentials: seq<CredentialRow>) returns (credential: Option<CredentialRow>, conflict: string)
    ensures conflict == if |Portable(credentials)| == 1 then ""
                        else if |Portable(credentials)| == 0 then "portable_credential_missing"
                        else "multiple_portable_credentials"
    ensures credential == if |Portable(credentials)| == 1 then Some(Portable(credentials)[0]) else None
    ensures credential.Some? <==> exists i :: OnlyPortable(credentials, i)
    ensures forall i :: OnlyPortable(credentials, i) ==> credential == Some(credentials[i])
    ensures conflict == "portable_credential_missing" <==>
      forall i :: 0 <= i < |credentials| ==> !credentials[i].portable
  {
    PortableIs(credentials);
    credential, conflict := None, "";
    for i := 0 to |credentials|
      invariant conflict == "" && |Portable(credentials[..i])| <= 1
      invariant credential == if |Portable(credentials[..i])| == 1 then Some(Portable(credentials[..i])[0]) else None
    {
      assert credentials[..i + 1][..i] == credentials[..i];
      if !credentials[i].portable {
        continue;
      }
      if credential.Some? {
        PortableGrows(credentials, i + 1);
        return None, "multiple_portable_credentials";
      }
      credential := Some(credentials[i]);
    }
    assert credentials[..|credentials|] == credentials;
    if credential.None? {
      conflict := "portable_credential_missing";
    }
  }

  predicate Ready(s: Snapshot) {
    s.conflict == ""
  }

  /** The snapshot is what the database says about the account with this id. */
  predicate IsSnapshot(host: Host, tenantID: int, id: int, s: Snapshot) {
    match host.account(id)
    case NoRows => s == Snapshot(NoAccount(tenantID, id), None, "account_not_found", None)
    case ReadFails => false
    case Row(account) =>
      && host.credentials(id).Some?
      && s.account == account && s.proxy == ProxyOf(host, account)
      && (Ready(s) <==> Exportable(host, account, host.credentials(id).value))
      && (Ready(s) ==> s.credential == Some(Portable(host.credentials(id).value)[0]))
  }

  predicate AreSnapshots(host: Host, tenantID: int, ids: seq<int>, snapshots: seq<Snapshot>) {
    |snapshots| == |ids| && forall i :: 0 <= i < |ids| ==> IsSnapshot(host, tenantID, ids[i], snapshots[i])
  }

  predicate Unreadable(host: Host, id: int) {
    host.account(id).ReadFails? || (host.account(id).Row? && host.credentials(id).None?)
  }

  predicate SomeUnreadable(host: Host, ids: seq<int>) {
    exists id :: id in ids && Unreadable(host, id)
  }

  /** `readSnapshots` */
  method ReadSnapshots(host: Host, tenantID: int, accountIDs: seq<int>)
    returns (r: Outcome<seq<Snapshot>>, ids: seq<int>)
    ensures r.Success? ==> ValidIDs(accountIDs) && Increasing(ids) && multiset(ids) == multiset(accountIDs)
    ensures r.Success? ==> AreSnapshots(host, tenantID, ids, r.value)
    ensures r == Failure(InvalidInput) <==> !ValidIDs(accountIDs)
    ensures r.Failure? ==> r.error == InvalidInput || r.error == Backend
    ensures r == Failure(Backend) ==> SomeUnreadable(host, accountIDs)
  {
    var normal := NormalizeAccountIDs(accountIDs);
    if normal.Failure? {
      return Failure(normal.error), [];
    }
    ids := normal.value;
    var out: seq<Snapshot> := [];
    for i := 0 to |ids|
      invariant |out| == i && forall j :: 0 <= j < i ==> IsSnapshot(host, tenantID, ids[j], out[j])
    {
      var item := ReadSnapshot(host, tenantID, ids[i]);
      if item.None? {
        Moves(ids, accountIDs, ids[i]);
        return Failure(Backend), ids;
      }
      out := out + [item.value];
    }
    r := Success(out);
  }

  // ------------------------------------------------------------------------- the plan

  datatype PlanItem = PlanItem(accountID: int, ready: bool, code: string, includesProxy: bool)

  datatype ExportPlan = ExportPlan(items: seq<PlanItem>, ready: nat, conflict: nat, planHash: string)

  function PlanItemOf(s: Snapshot): PlanItem {
    if s.conflict != "" then PlanItem(s.account.id, false, s.conflict, false)
    else PlanItem(s.account.id, true, "ready", s.proxy.Some?)
  }

  /** `buildExportPlan`: nothing is in conflict exactly when every account is ready. */
  method BuildExportPlan(host: Host, snapshots: seq<Snapshot>) returns (plan: ExportPlan)
    ensures |plan.items| == |snapshots| == plan.ready + plan.conflict
    ensures forall i :: 0 <= i < |snapshots| ==> plan.items[i] == PlanItemOf(snapshots[i])
    ensures forall i :: 0 <= i < |snapshots| ==>
      && plan.items[i].accountID == snapshots[i].account.id && (plan.items[i].ready <==> snapshots[i].conflict == "")
      && plan.items[i].code == (if snapshots[i].conflict == "" then "ready" else snapshots[i].conflict)
      && (plan.items[i].includesProxy <==> snapshots[i].conflict == "" && snapshots[i].proxy.Some?)
    ensures plan.conflict == 0 <==> forall i :: 0 <= i < |snapshots| ==> Ready(snapshots[i])
    ensures plan.planHash == host.hash(snapshots)
  {
    plan := ExportPlan([], 0, 0, "");
    for i := 0 to |snapshots|
      invariant |plan.items| == i == plan.ready + plan.conflict
      invariant forall j :: 0 <= j < i ==> plan.items[j] == PlanItemOf(snapshots[j])
      invariant plan.conflict == 0 <==> forall j :: 0 <= j < i ==> Ready(snapshots[j])
    {
      if snapshots[i].conflict != "" {
        plan := plan.(conflict := plan.conflict + 1);
      } else {
        plan := plan.(ready := plan.ready + 1);
      }
      plan := plan.(items := plan.items + [PlanItemOf(snapshots[i])]);
    }
    plan := plan.(planHash := host.hash(snapshots));
  }

  // ------------------------------------------------------------------------ execution

  function SecretOf(host: Host, proxy: ProxyRow): Option<string> {
    if proxy.authSecret.None? then Some("") else host.decodeSecret(proxy.authSecret.value)
  }

  function PortableProxyOf(host: Host, proxy: ProxyRow, secret: string): PortableProxy {
    PortableProxy(host.proxyRef(proxy), proxy.name, proxy.endpoint, secret)
  }

  /** `exportAccount` */
  function ExportAccount(host: Host, s: Snapshot): Outcome<(PortableAccount, Option<PortableProxy>)> {
    match host.load(s)
    case VersionConflict => Failure(PlanChanged)
    case LoadFails => Failure(Backend)
    case Loaded(credential) =>
      var account := PortableAccount(host.accountRef(s.account.tenantID, s.account.id), s.account.providerID,
                                     s.account.channelID, s.account.config, credential, "");
      if s.proxy.None? then Success((account, None))
      else
        var secret := SecretOf(host, s.proxy.value);
        if secret.None? then Failure(Backend)
        else
          var proxy := PortableProxyOf(host, s.proxy.value, secret.value);
          Success((account.(proxyRef := proxy.ref), Some(proxy)))
  }

  /** The secret of the proxy, if it has one, can be read. */
  predicate SecretReadable(host: Host, s: Snapshot) {
    s.proxy.Some? && s.proxy.value.authSecret.Some? ==> host.decodeSecret(s.proxy.value.authSecret.value).Some?
  }

  /** When an account can be exported, why it cannot, and what goes along with it. */
  lemma ExportsOrWhy(host: Host, s: Snapshot)
    ensures ExportAccount(host, s) == Failure(PlanChanged) <==> host.load(s).VersionConflict?
    ensures ExportAccount(host, s) == Failure(Backend) <==>
      host.load(s).LoadFails? || (host.load(s).Loaded? && !SecretReadable(host, s))
    ensures ExportAccount(host, s).Success? <==> host.load(s).Loaded? && SecretReadable(host, s)
    ensures ExportAccount(host, s).Success? ==>
      var (account, proxy) := ExportAccount(host, s).value;
      && account.ref == host.accountRef(s.account.tenantID, s.account.id) && account.config == s.account.config
      && account.sourceProviderID == s.account.providerID && account.sourceChannelID == s.account.channelID
      && host.load(s) == Loaded(account.credential)
      && (s.proxy.None? ==> proxy == None && account.proxyRef == "")
      && (s.proxy.Some? ==>
            && proxy.Some? && account.proxyRef == proxy.value.ref == host.proxyRef(s.proxy.value)
            && proxy.value.name == s.proxy.value.name && proxy.value.endpoint == s.proxy.value.endpoint
            && (s.proxy.value.authSecret.None? ==> proxy.value.authSecret == "")
            && (s.proxy.value.authSecret.Some? ==>
                  host.decodeSecret(s.proxy.value.authSecret.value) == Some(proxy.value.authSecret)))
  {
  }

  predicate AllExported(host: Host, snapshots: seq<Snapshot>) {
    forall i :: 0 <= i < |snapshots| ==> ExportAccount(host, snapshots[i]).Success?
  }

  predicate AccountsAre(host: Host, snapshots: seq<Snapshot>, accounts: seq<PortableAccount>) {
    |accounts| == |snapshots| && forall i :: 0 <= i < |snapshots| ==> Exported(host, snapshots[i], accounts[i])
  }

  predicate Exported(host: Host, s: Snapshot, account: PortableAccount) {
    ExportAccount(host, s).Success? && account == ExportAccount(host, s).value.0
  }

  /** The proxy that goes along with an account. */
  function ProxyAlong(host: Host, s: Snapshot): Option<PortableProxy> {
    match ExportAccount(host, s)
    case Success(exported) => exported.1
    case Failure(_) => None
  }

  function ProxiesAlong(host: Host, snapshots: seq<Snapshot>): (all: seq<Option<PortableProxy>>)
    ensures |all| == |snapshots| && forall i :: 0 <= i < |all| ==> all[i] == ProxyAlong(host, snapshots[i])
  {
    seq(|snapshots|, i requires 0 <= i < |snapshots| => ProxyAlong(host, snapshots[i]))
  }

  predicate Named(p: Option<PortableProxy>, ref: string) {
    p.Some? && p.value.ref == ref
  }

  predicate FirstNamed(all: seq<Option<PortableProxy>>, i: int, p: PortableProxy) {
    0 <= i < |all| && all[i] == Some(p) && forall j :: 0 <= j < i ==> !Named(all[j], p.ref)
  }

  predicate IsFirst(all: seq<Option<PortableProxy>>, p: PortableProxy) {
    exists i :: 0 <= i < |all| && FirstNamed(all, i, p)
  }

  predicate HasProxy(proxies: seq<PortableProxy>, ref: string) {
    exists k :: 0 <= k < |proxies| && proxies[k].ref == ref
  }

  predicate DistinctRefs(proxies: seq<PortableProxy>) {
    forall i, j :: 0 <= i < j < |proxies| ==> proxies[i].ref != proxies[j].ref
  }

  predicate Kept(proxies: seq<PortableProxy>, p: Option<PortableProxy>) {
    p.Some? ==> HasProxy(proxies, p.value.ref)
  }

  /** Every proxy once, and of those with one name the first. */
  predicate ProxiesAre(all: seq<Option<PortableProxy>>, proxies: seq<PortableProxy>) {
    DistinctRefs(proxies) && AllFirst(all, proxies) && AllKept(all, proxies)
  }

  lemma FirstStays(all: seq<Option<PortableProxy>>, next: Option<PortableProxy>, p: PortableProxy)
    requires IsFirst(all, p)
    ensures IsFirst(all + [next], p)
  {
    var i :| 0 <= i < |all| && FirstNamed(all, i, p);
    assert FirstNamed(all + [next], i, p);
  }

  lemma NewIsFirst(all: seq<Option<PortableProxy>>, proxies: seq<PortableProxy>, p: PortableProxy)
    requires ProxiesAre(all, proxies) && !HasProxy(proxies, p.ref)
    ensures IsFirst(all + [Some(p)], p)
  {
    forall j | 0 <= j < |all| ensures !Named(all[j], p.ref) { assert Kept(proxies, all[j]); }
    assert FirstNamed(all + [Some(p)], |all|, p);
  }

  predicate AllFirst(all: seq<Option<PortableProxy>>, proxies: seq<PortableProxy>) {
    forall k :: 0 <= k < |proxies| ==> IsFirst(all, proxies[k])
  }

  lemma AllFirstNext(all: seq<Option<PortableProxy>>, proxies: seq<PortableProxy>, next: Option<PortableProxy>)
    requires AllFirst(all, proxies)
    ensures AllFirst(all + [next], proxies)
  {
    forall k | 0 <= k < |proxies| ensures IsFirst(all + [next], proxies[k]) { FirstStays(all, next, proxies[k]); }
  }

  predicate AllKept(all: seq<Option<PortableProxy>>, proxies: seq<PortableProxy>) {
    forall i :: 0 <= i < |all| ==> Kept(proxies, all[i])
  }

  lemma AllKeptNext(all: seq<Option<PortableProxy>>, proxies: seq<PortableProxy>, next: Option<PortableProxy>,
                    proxies': seq<PortableProxy>)
    requires AllKept(all, proxies) && proxies <= proxies' && Kept(proxies', next)
    ensures AllKept(all + [next], proxies')
  {
  }

  predicate SeenAre(seen: set<string>, proxies: seq<PortableProxy>) {
    && (forall k :: 0 <= k < |proxies| ==> proxies[k].ref in seen)
    && (forall ref :: ref in seen ==> HasProxy(proxies, ref))
  }

  /** One round of the loop over the snapshots: the proxy is kept unless its name was seen. */
  method KeepProxy(ghost all: seq<Option<PortableProxy>>, proxies: seq<PortableProxy>, seen: set<string>,
                   proxy: Option<PortableProxy>)
    returns (proxies': seq<PortableProxy>, seen': set<string>)
    requires ProxiesAre(all, proxies) && SeenAre(seen, proxies)
    ensures ProxiesAre(all + [proxy], proxies') && SeenAre(seen', proxies')
  {
    proxies', seen' := proxies, seen;
    AllFirstNext(all, proxies, proxy);
    if proxy.Some? && proxy.value.ref !in seen {
      NewIsFirst(all, proxies, proxy.value);
      seen' := seen + {proxy.value.ref};
      proxies' := proxies + [proxy.value];
      forall ref | ref in seen' ensures HasProxy(proxies', ref) { HasNext(proxies, proxy.value, ref); }
    }
    AllKeptNext(all, proxies, proxy, proxies');
  }

  /** The loop of `ExecuteExport` over the snapshots. */
  method CollectContent(host: Host, snapshots: seq<Snapshot>) returns (r: Outcome<Content>)
    ensures r.Success? <==> AllExported(host, snapshots)
    ensures r.Success? ==> AccountsAre(host, snapshots, r.value.accounts) && r.value.createdAt == host.now
    ensures r.Success? ==> ProxiesAre(ProxiesAlong(host, snapshots), r.value.proxies)
    ensures r.Failure? ==> Refuses(host, snapshots, r.error) && r.error in {PlanChanged, Backend}
  {
    var accounts: seq<PortableAccount> := [];
    var proxies: seq<PortableProxy> := [];
    var proxyByRef: set<string> := {};
    ghost var all := [];
    for i := 0 to |snapshots|
      invariant |all| == i && forall j :: 0 <= j < i ==> all[j] == ProxyAlong(host, snapshots[j])
      invariant |accounts| == i && forall j :: 0 <= j < i ==> Exported(host, snapshots[j], accounts[j])
      invariant ProxiesAre(all, proxies) && SeenAre(proxyByRef, proxies)
    {
      var exported := ExportAccount(host, snapshots[i]);
      if exported.Failure? {
        return Failure(exported.error);
      }
      accounts := accounts + [exported.value.0];
      proxies, proxyByRef := KeepProxy(all, proxies, proxyByRef, exported.value.1);
      all := all + [exported.value.1];
    }
    assert all == ProxiesAlong(host, snapshots);
    forall i | 0 <= i < |snapshots| ensures ExportAccount(host, snapshots[i]).Success? {
      assert Exported(host, snapshots[i], accounts[i]);
    }
    r := Success(Content(host.now, accounts, proxies));
  }

  lemma HasNext(proxies: seq<PortableProxy>, p: PortableProxy, ref: string)
    ensures HasProxy(proxies + [p], ref) <==> HasProxy(proxies, ref) || ref == p.ref
  {
    var next := proxies + [p];
    assert next[|proxies|] == p;
    if HasProxy(proxies, ref) {
      var k :| 0 <= k < |proxies| && proxies[k].ref == ref;
      assert next[k] == proxies[k];
    }
  }

  /** The snapshots of the requested accounts, in the order of their ids. */
  predicate AreRead(host: Host, req: ExportRequest, ids: seq<int>, snapshots: seq<Snapshot>) {
    && ValidIDs(req.accountIDs) && Increasing(ids) && multiset(ids) == multiset(req.accountIDs)
    && AreSnapshots(host, req.operator.tenantID, ids, snapshots)
  }

  /** What a successful export has done, and with which content. */
  predicate IsExport(host: Host, pr: Primitives, req: ExportRequest, ids: seq<int>, snapshots: seq<Snapshot>,
                     content: Content, result: ExportResult) {
    && AreRead(host, req, ids, snapshots)
    && (forall i :: 0 <= i < |snapshots| ==> Ready(snapshots[i]))
    && SameHash(Trim(req.planHash), host.hash(snapshots))
    && AllExported(host, snapshots)
    && AccountsAre(host, snapshots, content.accounts) && ProxiesAre(ProxiesAlong(host, snapshots), content.proxies)
    && Seal(pr, content, req.password, host.salt, host.nonce) == Success(result.envelope)
    && result.accountCount == |content.accounts| && result.proxyCount == |content.proxies|
  }

  predicate Refuses(host: Host, snapshots: seq<Snapshot>, error: Error) {
    exists i :: 0 <= i < |snapshots| && ExportAccount(host, snapshots[i]) == Failure(error)
  }

  /** What may stand behind each error of an export. */
  predicate Because(host: Host, pr: Primitives, req: ExportRequest, snapshots: seq<Snapshot>, content: Content,
                    error: Error) {
    match error
    case InvalidInput =>
      || OperatorError(req.operator) == Some(InvalidInput) || !ValidPassword(req.password) || !ValidIDs(req.accountIDs)
      || Seal(pr, content, req.password, host.salt, host.nonce) == Failure(InvalidInput)
    case Forbidden => OperatorError(req.operator) == Some(Forbidden)
    case ConfirmationRequired => Trim(req.confirmation) != CONFIRMATION
    case PlanChanged => !SameHash(Trim(req.planHash), host.hash(snapshots)) || Refuses(host, snapshots, PlanChanged)
    case Conflicts => exists i :: 0 <= i < |snapshots| && !Ready(snapshots[i])
    case Backend =>
      || SomeUnreadable(host, req.accountIDs) || Refuses(host, snapshots, Backend)
      || host.salt.None? || host.nonce.None? || !host.eventRecorded
    case _ => false
  }

  /** The accounts are read again; all of them have to be ready, and under the hash that was sent. */
  method ReadPlanned(host: Host, pr: Primitives, req: ExportRequest, ghost content: Content)
    returns (r: Outcome<seq<Snapshot>>, ghost ids: seq<int>, ghost snapshots: seq<Snapshot>)
    ensures r.Success? ==>
      && r.value == snapshots && AreRead(host, req, ids, snapshots)
      && (forall i :: 0 <= i < |snapshots| ==> Ready(snapshots[i]))
      && SameHash(Trim(req.planHash), host.hash(snapshots))
    ensures r.Failure? ==> Because(host, pr, req, snapshots, content, r.error) && r.error != Forbidden
    ensures snapshots == [] || AreRead(host, req, ids, snapshots)
    ensures !ValidIDs(req.accountIDs) ==> r == Failure(InvalidInput)
    ensures snapshots != [] ==>
      (r == Failure(PlanChanged) <==> !SameHash(Trim(req.planHash), host.hash(snapshots)))
  {
    ids, snapshots := [], [];
    var read, readIDs := ReadSnapshots(host, req.operator.tenantID, req.accountIDs);
    if read.Failure? {
      return Failure(read.error), ids, snapshots;
    }
    ids, snapshots := readIDs, read.value;
    var plan := BuildExportPlan(host, read.value);
    if !SameHash(Trim(req.planHash), plan.planHash) {
      return Failure(PlanChanged), ids, snapshots;
    }
    if plan.conflict > 0 || plan.ready != |plan.items| {
      return Failure(Conflicts), ids, snapshots;
    }
    r := read;
  }

  /** `ExecuteExport`; the ghost results are what it had read and collected when it ended. */
  method ExecuteExport(host: Host, pr: Primitives, req: ExportRequest)
    returns (r: Outcome<ExportResult>, ghost ids: seq<int>, ghost snapshots: seq<Snapshot>, ghost content: Content)
    ensures OperatorError(req.operator).Some? ==> r == Failure(OperatorError(req.operator).value)
    ensures r.Success? ==> OwnTenant(req.operator)
    ensures r.Success? ==> Trim(req.planHash) == host.hash(snapshots) && |Trim(req.planHash)| == 64
    ensures r == Failure(Forbidden) <==> OutsideTenant(req.operator)
    ensures OperatorError(req.operator).None? && Trim(req.confirmation) != CONFIRMATION ==>
      r == Failure(ConfirmationRequired)
    ensures r.Success? ==>
      OperatorError(req.operator).None? && Trim(req.confirmation) == CONFIRMATION && host.eventRecorded
    ensures r.Success? ==> IsExport(host, pr, req, ids, snapshots, content, r.value)
    ensures r.Failure? ==> Because(host, pr, req, snapshots, content, r.error)
    ensures snapshots == [] || AreRead(host, req, ids, snapshots)
    ensures OperatorError(req.operator).None? && Trim(req.confirmation) == CONFIRMATION ==>
      !(12 <= |req.password| <= 1024) || !ValidIDs(req.accountIDs) ==> r == Failure(InvalidInput)
    ensures snapshots != [] && !SameHash(Trim(req.planHash), host.hash(snapshots)) ==> r == Failure(PlanChanged)
  {
    ids, snapshots, content := [], [], Content(0, [], []);
    OperatorsAre(req.operator);
    if OperatorError(req.operator).Some? {
      return Failure(OperatorError(req.operator).value), ids, snapshots, content;
    }
    if Trim(req.confirmation) != CONFIRMATION {
      return Failure(ConfirmationRequired), ids, snapshots, content;
    }
    if !ValidPassword(req.password) {
      return Failure(InvalidInput), ids, snapshots, content;
    }
    var read;
    read, ids, snapshots := ReadPlanned(host, pr, req, content);
    if read.Failure? {
      return Failure(read.error), ids, snapshots, content;
    }
    var collected := CollectContent(host, read.value);
    if collected.Failure? {
      return Failure(collected.error), ids, snapshots, content;
    }
    content := collected.value;
    var sealed := Seal(pr, collected.value, req.password, host.salt, host.nonce);
    if sealed.Failure? {
      return Failure(sealed.error), ids, snapshots, content;
    }
    if !host.eventRecorded {
      return Failure(Backend), ids, snapshots, content;
    }
    r := Success(ExportResult(sealed.value, |collected.value.accounts|, |collected.value.proxies|));
  }
}
