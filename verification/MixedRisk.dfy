/** `mixedchannelrisk`: which accounts may share a channel without a confirmation. */
module MixedRisk {
  import opened Options
  import opened Sorting
  import opened Text

  /** What an account and its credential say of themselves. */
  datatype Nature = Nature(providerID: int, accountType: string, vendor: string, authMode: string)

  datatype Account = Account(id: int, channelID: int, nature: Nature)

  /** What is compared: the provider, if it is known, and the credential's vendor and type. */
  datatype Profile = Profile(source: Option<int>, vendor: string, credentialType: string)

  datatype Dimension = Source | Vendor | CredentialType

  datatype RiskItem = RiskItem(dimension: Dimension, existingID: int, existing: Profile, incoming: Profile)

  function Normalized(value: string): string {
    ToLower(Trim(value))
  }

  /** The authentication mode, or for accounts without one the type of the account. */
  function CredentialTypeOf(n: Nature): string {
    if Normalized(n.authMode) != "" then Normalized(n.authMode) else Normalized(n.accountType)
  }

  function ProfileOf(n: Nature): Profile {
    Profile(if n.providerID <= 0 then None else Some(n.providerID), Normalized(n.vendor), CredentialTypeOf(n))
  }

  /**
   How two accounts differ, by their own fields: providers by their ids, where all that are not
   positive are one unknown provider; vendors and credential types by their text without outer
   white space and case, an account without an authentication mode having its account type.
   */
  predicate Differ(d: Dimension, a: Nature, b: Nature) {
    match d
    case Source => a.providerID != b.providerID && (a.providerID > 0 || b.providerID > 0)
    case Vendor => ToLower(Trim(a.vendor)) != ToLower(Trim(b.vendor))
    case CredentialType =>
      var x := if Trim(a.authMode) == "" then a.accountType else a.authMode;
      var y := if Trim(b.authMode) == "" then b.accountType else b.authMode;
      ToLower(Trim(x)) != ToLower(Trim(y))
  }

  predicate DifferAnyhow(a: Nature, b: Nature) {
    Differ(Source, a, b) || Differ(Vendor, a, b) || Differ(CredentialType, a, b)
  }

  lemma ProfilesDiffer(a: Nature, b: Nature)
    ensures ProfileOf(a) != ProfileOf(b) <==> DifferAnyhow(a, b)
    ensures ProfileOf(a).source != ProfileOf(b).source <==> Differ(Source, a, b)
    ensures ProfileOf(a).vendor != ProfileOf(b).vendor <==> Differ(Vendor, a, b)
    ensures ProfileOf(a).credentialType != ProfileOf(b).credentialType <==> Differ(CredentialType, a, b)
  {
  }

  /** Some peer other than the candidate differs from it in some dimension. */
  ghost predicate Risky(peers: map<int, Profile>, candidate: int, profile: Profile) {
    exists a :: a in peers && a != candidate && peers[a] != profile
  }

  /** The candidate itself and accounts of another channel are passed over. */
  predicate Compared(candidate: Account, peer: Account) {
    && !(peer.id > 0 && peer.id == candidate.id)
    && !(peer.channelID != 0 && candidate.channelID != 0 && peer.channelID != candidate.channelID)
  }

  /** A value with its own dimension only, so that equal items are equal differences. */
  function Only(d: Dimension, p: Profile): Profile {
    match d
    case Source => Profile(p.source, "", "")
    case Vendor => Profile(None, p.vendor, "")
    case CredentialType => Profile(None, "", p.credentialType)
  }

  /** `compareDimension` */
  function Difference(candidate: Account, peer: Account, d: Dimension): seq<RiskItem> {
    var existing, incoming := Only(d, ProfileOf(peer.nature)), Only(d, ProfileOf(candidate.nature));
    if existing == incoming then [] else [RiskItem(d, peer.id, existing, incoming)]
  }

  function Differences(candidate: Account, peer: Account): seq<RiskItem> {
    Difference(candidate, peer, Source) + Difference(candidate, peer, Vendor)
      + Difference(candidate, peer, CredentialType)
  }

  lemma DifferencesTell(candidate: Account, peer: Account)
    ensures Differences(candidate, peer) == [] <==> ProfileOf(peer.nature) == ProfileOf(candidate.nature)
  {
    var p, c := ProfileOf(peer.nature), ProfileOf(candidate.nature);
    assert Difference(candidate, peer, Source) == [] <==> p.source == c.source;
    assert Difference(candidate, peer, Vendor) == [] <==> p.vendor == c.vendor;
    assert Difference(candidate, peer, CredentialType) == [] <==> p.credentialType == c.credentialType;
  }

  /** A difference shows the value of the peer and the one of the candidate, in this order. */
  predicate Shows(x: RiskItem, peer: Nature, candidate: Nature) {
    match x.dimension
    case Source =>
      && x.existing.source == (if peer.providerID > 0 then Some(peer.providerID) else None)
      && x.incoming.source == if candidate.providerID > 0 then Some(candidate.providerID) else None
    case Vendor =>
      x.existing.vendor == ToLower(Trim(peer.vendor)) && x.incoming.vendor == ToLower(Trim(candidate.vendor))
    case CredentialType =>
      && x.existing.credentialType
           == ToLower(Trim(if Trim(peer.authMode) == "" then peer.accountType else peer.authMode))
      && x.incoming.credentialType
           == ToLower(Trim(if Trim(candidate.authMode) == "" then candidate.accountType else candidate.authMode))
  }

  predicate Says(candidate: Account, peer: Account, d: Dimension) {
    exists x :: x in Differences(candidate, peer) && x.dimension == d
  }

  /** For each dimension in which a peer differs there is one difference, and it names the peer. */
  lemma DifferencesAre(candidate: Account, peer: Account)
    ensures forall d :: Says(candidate, peer, d) <==> Differ(d, peer.nature, candidate.nature)
    ensures forall x :: x in Differences(candidate, peer) ==>
      x.existingID == peer.id && Shows(x, peer.nature, candidate.nature)
  {
    DifferenceIs(candidate, peer, Source);
    DifferenceIs(candidate, peer, Vendor);
    DifferenceIs(candidate, peer, CredentialType);
    ProfilesDiffer(peer.nature, candidate.nature);
    forall d ensures Says(candidate, peer, d) <==> Differ(d, peer.nature, candidate.nature) {
      DifferenceIs(candidate, peer, d);
      if Differ(d, peer.nature, candidate.nature) {
        assert Difference(candidate, peer, d)[0] in Differences(candidate, peer);
      }
      DifferencesTell(candidate, peer);
    }
  }

  lemma DifferenceIs(candidate: Account, peer: Account, d: Dimension)
    ensures Difference(candidate, peer, d) == [] <==> !Differ(d, peer.nature, candidate.nature)
    ensures |Difference(candidate, peer, d)| <= 1
    ensures forall x :: x in Difference(candidate, peer, d) ==>
      x.dimension == d && x.existingID == peer.id && Shows(x, peer.nature, candidate.nature)
  {
    ProfilesDiffer(peer.nature, candidate.nature);
  }

  predicate ReportedFor(candidate: Account, peer: Account, x: RiskItem) {
    Compared(candidate, peer) && x in Differences(candidate, peer)
  }

  ghost predicate Reported(candidate: Account, peers: seq<Account>, x: RiskItem) {
    exists peer :: peer in peers && ReportedFor(candidate, peer, x)
  }

  ghost predicate SomeDiffers(candidate: Account, peers: seq<Account>) {
    exists peer :: peer in peers && Compared(candidate, peer) && ProfileOf(peer.nature) != ProfileOf(candidate.nature)
  }

  lemma ReportedNext(candidate: Account, front: seq<Account>, last: Account, x: RiskItem)
    ensures Reported(candidate, front + [last], x) <==> Reported(candidate, front, x) || ReportedFor(candidate, last, x)
  {
    assert forall peer :: peer in front + [last] <==> peer in front || peer == last;
  }

  /** Something is reported exactly when a peer differs. */
  lemma ReportedMeansDiffers(candidate: Account, peers: seq<Account>)
    ensures (exists x :: Reported(candidate, peers, x)) <==> SomeDiffers(candidate, peers)
  {
    if x :| Reported(candidate, peers, x) {
      var peer :| peer in peers && ReportedFor(candidate, peer, x);
      DifferencesTell(candidate, peer);
    }
    if SomeDiffers(candidate, peers) {
      var peer :| peer in peers && Compared(candidate, peer) && ProfileOf(peer.nature) != ProfileOf(candidate.nature);
      DifferencesTell(candidate, peer);
      assert ReportedFor(candidate, peer, Differences(candidate, peer)[0]);
      assert Reported(candidate, peers, Differences(candidate, peer)[0]);
    }
  }

  /** The peer counts: it is not the candidate itself, nor known to be in another channel. */
  predicate Counts(candidate: Account, peer: Account) {
    && (peer.id <= 0 || peer.id != candidate.id)
    && (peer.channelID == 0 || candidate.channelID == 0 || peer.channelID == candidate.channelID)
  }

  predicate Endangers(candidate: Account, peer: Account) {
    Counts(candidate, peer) && DifferAnyhow(peer.nature, candidate.nature)
  }

  /** What is said of one peer: its own id and the dimensions in which it differs, if it counts. */
  predicate SaysOf(candidate: Account, peer: Account, d: Dimension) {
    Counts(candidate, peer) && Differ(d, peer.nature, candidate.nature)
  }

  ghost predicate SaysOfSome(candidate: Account, peers: seq<Account>, id: int, d: Dimension) {
    exists peer :: peer in peers && peer.id == id && SaysOf(candidate, peer, d)
  }

  lemma ReportedIsSaid(candidate: Account, peers: seq<Account>, id: int, d: Dimension)
    ensures SaysOfSome(candidate, peers, id, d) <==>
      exists x :: Reported(candidate, peers, x) && x.existingID == id && x.dimension == d
  {
    if SaysOfSome(candidate, peers, id, d) {
      var peer :| peer in peers && peer.id == id && SaysOf(candidate, peer, d);
      DifferencesAre(candidate, peer);
      var x :| x in Differences(candidate, peer) && x.dimension == d;
      assert ReportedFor(candidate, peer, x);
    }
    if x :| Reported(candidate, peers, x) && x.existingID == id && x.dimension == d {
      var peer :| peer in peers && ReportedFor(candidate, peer, x);
      DifferencesAre(candidate, peer);
    }
  }

  /** The difference is one between the candidate and a peer that counts. */
  ghost predicate ShownOf(candidate: Account, peers: seq<Account>, x: RiskItem) {
    exists peer :: peer in peers && Counts(candidate, peer) && peer.id == x.existingID
      && Shows(x, peer.nature, candidate.nature)
  }

  lemma ReportedIsShown(candidate: Account, peers: seq<Account>, x: RiskItem)
    requires Reported(candidate, peers, x)
    ensures ShownOf(candidate, peers, x)
  {
    var peer :| peer in peers && ReportedFor(candidate, peer, x);
    DifferencesAre(candidate, peer);
  }

  lemma DiffersByFields(candidate: Account, peers: seq<Account>)
    ensures SomeDiffers(candidate, peers) <==> exists peer :: peer in peers && Endangers(candidate, peer)
  {
    forall peer: Account
      ensures ProfileOf(peer.nature) != ProfileOf(candidate.nature) <==> DifferAnyhow(peer.nature, candidate.nature)
    {
      ProfilesDiffer(peer.nature, candidate.nature);
    }
  }

  /** `Evaluate`: high risk exactly when a peer differs, and each difference is reported once. */
  method Evaluate(candidate: Account, peers: seq<Account>) returns (high: bool, items: seq<RiskItem>)
    ensures high <==> SomeDiffers(candidate, peers)
    ensures high <==> exists peer :: peer in peers && Endangers(candidate, peer)
    ensures Distinct(items) && forall x :: x in items <==> Reported(candidate, peers, x)
    ensures forall id, d :: SaysOfSome(candidate, peers, id, d) <==>
      exists x :: x in items && x.existingID == id && x.dimension == d
    ensures forall x :: x in items ==> ShownOf(candidate, peers, x)
  {
    var found: seq<RiskItem> := [];
    for i := 0 to |peers|
      invariant forall x :: x in found <==> Reported(candidate, peers[..i], x)
    {
      assert peers[..i + 1] == peers[..i] + [peers[i]];
      ghost var before := found;
      if Compared(candidate, peers[i]) {
        found := found + Differences(candidate, peers[i]);
      }
      forall x ensures x in found <==> Reported(candidate, peers[..i + 1], x) {
        ReportedNext(candidate, peers[..i], peers[i], x);
        assert x in found <==> x in before || ReportedFor(candidate, peers[i], x);
      }
    }
    assert peers[..|peers|] == peers;
    ReportedMeansDiffers(candidate, peers);
    high := |found| > 0;
    assert high ==> found[0] in found;
    items := Dedupe(found);
    DiffersByFields(candidate, peers);
    forall x | x in items ensures ShownOf(candidate, peers, x) { ReportedIsShown(candidate, peers, x); }
    forall id, d ensures SaysOfSome(candidate, peers, id, d) <==>
      exists x :: x in items && x.existingID == id && x.dimension == d
    {
      ReportedIsSaid(candidate, peers, id, d);
    }
  }

  /** `dedupe` */
  method Dedupe(items: seq<RiskItem>) returns (out: seq<RiskItem>)
    ensures Distinct(out) && forall x :: x in out <==> x in items
  {
    var seen: set<RiskItem> := {};
    out := [];
    for i := 0 to |items|
      invariant Distinct(out) && forall x :: x in out <==> x in items[..i]
      invariant forall x :: x in seen <==> x in out
    {
      assert items[..i + 1] == items[..i] + [items[i]];
      if items[i] in seen {
        continue;
      }
      seen := seen + {items[i]};
      out := out + [items[i]];
    }
    assert items[..|items|] == items;
  }
}
