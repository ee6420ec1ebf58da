/**
 Well-known key documents (`huakai-verify/main.go`). One traversal of the tree of keys finds the
 material a signature is verified with; another flattens the tree into records, one of which
 says whether the key is revoked. Both have to mean the same key, and a key that the document
 lists as revoked should not be accepted.
 */
module KeyDocuments {
  import opened Options
  import opened Text

  datatype Doc = Doc(
    fingerprint: string, pubkeyFingerprint: string, kid: string, current: string,
    publicKey: string, publicKeyEd25519: string, pubkey: string, x: string, status: string,
    keys: seq<Doc>, revoked: seq<Doc>)

  datatype Record = Record(fingerprint: string, material: string, status: string, revoked: bool)

  function FingerprintOf(d: Doc): string {
    if Trim(d.fingerprint) != "" then Trim(d.fingerprint)
    else if Trim(d.pubkeyFingerprint) != "" then Trim(d.pubkeyFingerprint)
    else Trim(d.kid)
  }

  function MaterialOf(d: Doc): string {
    if Trim(d.publicKey) != "" then Trim(d.publicKey)
    else if Trim(d.publicKeyEd25519) != "" then Trim(d.publicKeyEd25519)
    else if Trim(d.pubkey) != "" then Trim(d.pubkey)
    else Trim(d.x)
  }

  function StatusOf(d: Doc): string {
    if Trim(d.status) == "" then "active" else Trim(d.status)
  }

  /** The first of several texts that says something. */
  predicate FirstSaid(texts: seq<string>, value: string) {
    if forall i :: 0 <= i < |texts| ==> texts[i] == "" then value == ""
    else exists i :: 0 <= i < |texts| && value == texts[i] != "" && forall j :: 0 <= j < i ==> texts[j] == ""
  }

  lemma FirstOf(a: string, b: string, c: string, d: string)
    ensures FirstSaid([a, b, c, d], if a != "" then a else if b != "" then b else if c != "" then c else d)
  {
    var texts := [a, b, c, d];
    assert texts[0] == a && texts[1] == b && texts[2] == c && texts[3] == d;
  }

  /** Which field of a document wins, all of them taken without their outer white space. */
  lemma FieldsOf(d: Doc)
    ensures FirstSaid([Trim(d.fingerprint), Trim(d.pubkeyFingerprint), Trim(d.kid), ""], FingerprintOf(d))
    ensures FirstSaid([Trim(d.publicKey), Trim(d.publicKeyEd25519), Trim(d.pubkey), Trim(d.x)], MaterialOf(d))
    ensures FirstSaid([Trim(d.status), "active", "", ""], StatusOf(d))
  {
    FirstOf(Trim(d.fingerprint), Trim(d.pubkeyFingerprint), Trim(d.kid), "");
    FirstOf(Trim(d.publicKey), Trim(d.publicKeyEd25519), Trim(d.pubkey), Trim(d.x));
    FirstOf(Trim(d.status), "active", "", "");
  }

  // ----------------------------------------------------------------- the traversals

  /** The first answer there is. */
  function FirstSome(answers: seq<Option<string>>): Option<string> {
    if answers == [] then None
    else
      var before := FirstSome(answers[..|answers| - 1]);
      if before.Some? then before else answers[|answers| - 1]
  }

  function Flatten(lists: seq<seq<Record>>): seq<Record> {
    if lists == [] then [] else Flatten(lists[..|lists| - 1]) + lists[|lists| - 1]
  }

  /** `pubkeyMaterialFromDoc`: the first key in depth-first order without a fingerprint or with this one. */
  function MaterialFor(d: Doc, want: string): Option<string>
    decreases d
  {
    if MaterialOf(d) != "" && (FingerprintOf(d) == "" || FingerprintOf(d) == want) then Some(MaterialOf(d))
    else FirstSome(seq(|d.keys|, i requires 0 <= i < |d.keys| => MaterialFor(d.keys[i], want)))
  }

  function OwnRecord(d: Doc, revoked: set<string>): seq<Record> {
    if MaterialOf(d) == "" then []
    else [Record(FingerprintOf(d), MaterialOf(d), StatusOf(d), StatusOf(d) == "revoked" || FingerprintOf(d) in revoked)]
  }

  /** The records of a document: its own first, then those of its keys. */
  function Records(d: Doc, revoked: set<string>): seq<Record>
    decreases d, 1
  {
    OwnRecord(d, revoked) + Flatten(KeyRecords(d, revoked))
  }

  function KeyRecords(d: Doc, revoked: set<string>): (lists: seq<seq<Record>>)
    ensures |lists| == |d.keys|
    decreases d, 0
  {
    seq(|d.keys|, i requires 0 <= i < |d.keys| => Records(d.keys[i], revoked))
  }

  lemma FlattenNext(own: seq<Record>, lists: seq<seq<Record>>, i: nat)
    requires i < |lists|
    ensures own + Flatten(lists[..i + 1]) == own + Flatten(lists[..i]) + lists[i]
  {
    assert lists[..i + 1][..i] == lists[..i];
  }

  /** `pubkeyRecordsFromDoc` */
  method CollectRecords(d: Doc, revoked: set<string>) returns (out: seq<Record>)
    ensures out == Records(d, revoked)
    decreases d, 1
  {
    out := CollectKeys(d, revoked, OwnRecord(d, revoked), KeyRecords(d, revoked));
  }

  /** Its loop over the keys, which appends to what is there. */
  method CollectKeys(d: Doc, revoked: set<string>, own: seq<Record>, ghost lists: seq<seq<Record>>)
    returns (out: seq<Record>)
    requires lists == KeyRecords(d, revoked)
    ensures out == own + Flatten(lists)
    decreases d, 0
  {
    out := own;
    for i := 0 to |d.keys|
      invariant out == own + Flatten(lists[..i])
    {
      var more := CollectRecords(d.keys[i], revoked);
      FlattenNext(own, lists, i);
      out := out + more;
    }
    assert lists[..|d.keys|] == lists;
  }

  /** The fingerprints that a document itself lists as revoked; those of nested documents do not count. */
  function RevokedSet(d: Doc): set<string> {
    set i | 0 <= i < |d.revoked| && FingerprintOf(d.revoked[i]) != "" :: FingerprintOf(d.revoked[i])
  }

  /** `revokedFingerprintSet` */
  method RevokedFingerprints(d: Doc) returns (out: set<string>)
    ensures out == RevokedSet(d)
    ensures forall fp :: fp in out <==>
      fp != "" && exists i :: 0 <= i < |d.revoked| && FingerprintOf(d.revoked[i]) == fp
  {
    out := {};
    for i := 0 to |d.revoked|
      invariant forall fp :: fp in out <==> fp != "" && exists j :: 0 <= j < i && FingerprintOf(d.revoked[j]) == fp
    {
      var fp := FingerprintOf(d.revoked[i]);
      if fp != "" {
        out := out + {fp};
      }
    }
  }

  /** All records of a document, with what it says about revocation. */
  function AllRecords(d: Doc): seq<Record> {
    Records(d, RevokedSet(d))
  }

  // ------------------------------------------------------------------- the selection

  /** The first record with a fingerprint. */
  function FirstNamed(records: seq<Record>, fp: string): Option<Record> {
    if records == [] then None
    else if records[0].fingerprint == fp then Some(records[0])
    else FirstNamed(records[1..], fp)
  }

  /** The first record with this fingerprint or with none. */
  function FirstUsable(records: seq<Record>, want: string): Option<Record> {
    if records == [] then None
    else if records[0].fingerprint == "" || records[0].fingerprint == want then Some(records[0])
    else FirstUsable(records[1..], want)
  }

  function Expected(d: Doc, records: seq<Record>, want: string): string {
    if want != "" then want
    else if Trim(d.current) != "" then Trim(d.current)
    else if |records| == 1 then records[0].fingerprint
    else ""
  }

  /** `selectPubkeyRecord` as a function of the document. */
  function Select(d: Doc, want: string): Option<Record> {
    var records := AllRecords(d);
    var expected := Expected(d, records, want);
    if expected == "" then None
    else if FirstNamed(records, expected).Some? then FirstNamed(records, expected)
    else if |records| == 1 then Some(records[0])
    else None
  }

  /** `fingerprintRevokedInBody` */
  predicate ReportedRevoked(d: Doc, want: string) {
    Select(d, want).Some? && Select(d, want).value.revoked
  }

  lemma {:induction false} FirstNamedAt(records: seq<Record>, fp: string, n: nat)
    requires n < |records| && records[n].fingerprint == fp && forall i :: 0 <= i < n ==> records[i].fingerprint != fp
    ensures FirstNamed(records, fp) == Some(records[n])
  {
    if n > 0 {
      FirstNamedAt(records[1..], fp, n - 1);
    }
  }

  lemma {:induction false} NoneNamed(records: seq<Record>, fp: string)
    ensures FirstNamed(records, fp).None? <==> forall i :: 0 <= i < |records| ==> records[i].fingerprint != fp
    ensures FirstNamed(records, fp).Some? ==>
      FirstNamed(records, fp).value.fingerprint == fp && FirstNamed(records, fp).value in records
  {
    if records != [] {
      NoneNamed(records[1..], fp);
      assert records == [records[0]] + records[1..];
    }
  }

  /** `selectPubkeyRecord` */
  method SelectRecord(d: Doc, want: string) returns (r: Option<Record>)
    ensures r == Select(d, want)
  {
    var revoked := RevokedFingerprints(d);
    var records := CollectRecords(d, revoked);
    var expected := want;
    if expected == "" {
      expected := Trim(d.current);
    }
    if expected == "" && |records| == 1 {
      expected := records[0].fingerprint;
    }
    if expected == "" {
      return None;
    }
    for n := 0 to |records|
      invariant forall i :: 0 <= i < n ==> records[i].fingerprint != expected
    {
      if records[n].fingerprint == expected {
        FirstNamedAt(records, expected, n);
        return Some(records[n]);
      }
    }
    NoneNamed(records, expected);
    if |records| == 1 {
      return Some(records[0]);
    }
    r := None;
  }

  /** What is selected: by the fingerprint wanted, else by `current`, else the only record if it has a name. */
  lemma Selects(d: Doc, want: string)
    ensures want != "" ==> Select(d, want) == NamedOrOnly(AllRecords(d), want)
    ensures Trim(d.current) != "" ==> Select(d, "") == Select(d, Trim(d.current))
    ensures Trim(d.current) == "" && |AllRecords(d)| == 1 && AllRecords(d)[0].fingerprint != "" ==>
      Select(d, "") == Some(AllRecords(d)[0])
    ensures Trim(d.current) == "" && (|AllRecords(d)| != 1 || AllRecords(d)[0].fingerprint == "") ==>
      Select(d, "") == None
  {
  }

  /** The first record of this name, and if there is none the only record. */
  function NamedOrOnly(records: seq<Record>, fp: string): (r: Option<Record>)
    ensures r.Some? && r.value.fingerprint != fp ==> records == [r.value]
    ensures (exists i :: 0 <= i < |records| && records[i].fingerprint == fp) ==> r.Some? && r.value.fingerprint == fp
  {
    NoneNamed(records, fp);
    var named := FirstNamed(records, fp);
    if named.None? && |records| == 1 then Some(records[0]) else named
  }

  // --------------------------------------------------------------- what they agree on

  lemma {:induction false} FirstUsableOfSum(a: seq<Record>, b: seq<Record>, want: string)
    ensures FirstUsable(a + b, want) ==
      if FirstUsable(a, want).Some? then FirstUsable(a, want) else FirstUsable(b, want)
  {
    if a == [] {
      assert a + b == b;
    } else {
      assert (a + b)[1..] == a[1..] + b;
      FirstUsableOfSum(a[1..], b, want);
    }
  }

  function MaterialIn(r: Option<Record>): Option<string> {
    if r.None? then None else Some(r.value.material)
  }

  /** To search among answers is to search in the lists behind them. */
  lemma {:induction false} FirstOfAll(answers: seq<Option<string>>, lists: seq<seq<Record>>, want: string)
    requires |answers| == |lists|
    requires forall i :: 0 <= i < |lists| ==> answers[i] == MaterialIn(FirstUsable(lists[i], want))
    ensures FirstSome(answers) == MaterialIn(FirstUsable(Flatten(lists), want))
  {
    if lists != [] {
      var front, last := lists[..|lists| - 1], lists[|lists| - 1];
      FirstOfAll(answers[..|lists| - 1], front, want);
      FirstUsableOfSum(Flatten(front), last, want);
    }
  }

  /** The material found is that of the first usable record of the flattened document. */
  lemma {:induction false} MaterialIsFirstUsable(d: Doc, want: string, revoked: set<string>)
    ensures MaterialFor(d, want) == MaterialIn(FirstUsable(Records(d, revoked), want))
    decreases d
  {
    var answers := seq(|d.keys|, i requires 0 <= i < |d.keys| => MaterialFor(d.keys[i], want));
    var lists := KeyRecords(d, revoked);
    forall i | 0 <= i < |d.keys| ensures answers[i] == MaterialIn(FirstUsable(lists[i], want)) {
      MaterialIsFirstUsable(d.keys[i], want, revoked);
    }
    FirstOfAll(answers, lists, want);
    var own := OwnRecord(d, revoked);
    FirstUsableOfSum(own, Flatten(lists), want);
    assert own != [] ==> own[1..] == [];
  }

  predicate AllNamed(records: seq<Record>) {
    forall i :: 0 <= i < |records| ==> records[i].fingerprint != ""
  }

  lemma {:induction false} UsableIsNamed(records: seq<Record>, want: string)
    requires AllNamed(records)
    ensures FirstUsable(records, want) == FirstNamed(records, want)
  {
    if records != [] {
      UsableIsNamed(records[1..], want);
    }
  }

  /**
   When every key has a fingerprint, the material of a wanted key is found exactly when the
   flattened document has a record for it, and it is the material of the record selected.
   */
  lemma TraversalsAgree(d: Doc, want: string)
    requires want != "" && AllNamed(AllRecords(d))
    ensures MaterialFor(d, want).Some? <==> exists r :: r in AllRecords(d) && r.fingerprint == want
    ensures MaterialFor(d, want).Some? ==>
      var selected := Select(d, want);
      selected.Some? && selected.value.fingerprint == want && MaterialFor(d, want) == Some(selected.value.material)
  {
    MaterialIsFirstUsable(d, want, RevokedSet(d));
    UsableIsNamed(AllRecords(d), want);
    NoneNamed(AllRecords(d), want);
  }

  lemma {:induction false} UsableShape(records: seq<Record>, want: string)
    ensures FirstUsable(records, want).Some? ==>
      FirstUsable(records, want).value.fingerprint == "" || FirstUsable(records, want) == FirstNamed(records, want)
    ensures FirstUsable(records, want).None? ==> FirstNamed(records, want).None?
    ensures FirstUsable(records, want).Some? ==> records != []
  {
    if records != [] {
      UsableShape(records[1..], want);
    }
  }

  /**
   The record selected is the one whose material is found exactly when that one has a
   fingerprint, or is the only one there is.
   */
  lemma SelectedIsFirstUsable(d: Doc, want: string)
    requires want != "" && MaterialFor(d, want).Some?
    ensures var used := FirstUsable(AllRecords(d), want);
      && used.Some? && MaterialFor(d, want) == Some(used.value.material)
      && (Select(d, want) == used <==> used.value.fingerprint != "" || |AllRecords(d)| == 1)
  {
    var records := AllRecords(d);
    MaterialIsFirstUsable(d, want, RevokedSet(d));
    UsableShape(records, want);
    NoneNamed(records, want);
  }

  // ----------------------------------------------------------------------- acceptance

  datatype PublicKey = PublicKey(raw: seq<bv8>)

  /**
   What lies between a document and the verdict: how material is decoded, the fingerprint
   computed from a key, whether signature, chain and requested entry check out under a key, and
   what the gateway says of the key's status.
   */
  datatype Verifier = Verifier(
    decode: string -> Option<PublicKey>, fingerprint: PublicKey -> string,
    proves: PublicKey -> bool, gatewayRevoked: bool)

  /** The computed fingerprint of a decoded key is a digest in hexadecimal. */
  ghost predicate Fingerprints(v: Verifier) {
    forall m :: v.decode(m).Some? ==> v.fingerprint(v.decode(m).value) != ""
  }

  /** The key that passes every check of `runCLI` but those of revocation. */
  function Verified(v: Verifier, d: Doc, want: string): Option<PublicKey> {
    match MaterialFor(d, want)
    case None => None
    case Some(material) =>
      match v.decode(material)
      case None => None
      case Some(key) => if v.fingerprint(key) == want && v.proves(key) then Some(key) else None
  }

  /** "audit verification passed" */
  predicate Accepted(v: Verifier, d: Doc, want: string) {
    Verified(v, d, want).Some? && !ReportedRevoked(d, want) && !v.gatewayRevoked
  }

  /** Record i is the first that has no fingerprint or the wanted one. */
  predicate FirstUsableAt(records: seq<Record>, want: string, i: int) {
    && 0 <= i < |records| && (records[i].fingerprint == "" || records[i].fingerprint == want)
    && forall j :: 0 <= j < i ==> records[j].fingerprint != "" && records[j].fingerprint != want
  }

  /**
   The key accepted is that of the first usable record; its computed fingerprint is the wanted
   one, it proves the entry, and neither the document nor the gateway reports a revocation.
   */
  lemma AcceptedIs(v: Verifier, d: Doc, want: string)
    ensures Verified(v, d, want).Some? <==> exists i ::
      FirstUsableAt(AllRecords(d), want, i) && Proven(v, AllRecords(d)[i].material, want)
    ensures forall i :: FirstUsableAt(AllRecords(d), want, i) && Proven(v, AllRecords(d)[i].material, want) ==>
      Verified(v, d, want) == v.decode(AllRecords(d)[i].material)
    ensures Accepted(v, d, want) <==> !(Verified(v, d, want).None? || ReportedRevoked(d, want) || v.gatewayRevoked)
  {
    MaterialIsFirstUsable(d, want, RevokedSet(d));
    if MaterialFor(d, want).Some? {
      var i := UsableAt(AllRecords(d), want);
      assert FirstUsableAt(AllRecords(d), want, i);
      assert forall j :: FirstUsableAt(AllRecords(d), want, j) ==> i == j;
    } else {
      NoneUsable(AllRecords(d), want);
    }
  }

  predicate Proven(v: Verifier, material: string, want: string) {
    v.decode(material).Some? && v.fingerprint(v.decode(material).value) == want && v.proves(v.decode(material).value)
  }

  lemma {:induction false} NoneUsable(records: seq<Record>, want: string)
    requires FirstUsable(records, want).None?
    ensures forall i :: 0 <= i < |records| ==> records[i].fingerprint != "" && records[i].fingerprint != want
  {
    if records != [] {
      NoneUsable(records[1..], want);
      assert records == [records[0]] + records[1..];
    }
  }

  /** The record is one of this key. */
  predicate IsOf(v: Verifier, r: Record, key: PublicKey) {
    v.decode(r.material) == Some(key)
  }

  /** The record says "revoked", or the document lists its fingerprint. */
  predicate Marked(d: Doc, r: Record) {
    r.status == "revoked" || r.fingerprint in RevokedSet(d)
  }

  predicate SomeMarked(v: Verifier, d: Doc, key: PublicKey) {
    exists i :: 0 <= i < |AllRecords(d)| && IsOf(v, AllRecords(d)[i], key) && Marked(d, AllRecords(d)[i])
  }

  predicate Fingerprinted(v: Verifier, e: Doc, key: PublicKey) {
    FingerprintOf(e) == v.fingerprint(key) != ""
  }

  /** An entry of a list of revoked keys that means this key, by its fingerprint or by its material. */
  predicate Means(v: Verifier, e: Doc, key: PublicKey) {
    Fingerprinted(v, e, key) || (MaterialOf(e) != "" && v.decode(MaterialOf(e)) == Some(key))
  }

  /** Some list of revoked keys, in this document or in one nested in it, means this key. */
  predicate Revokes(v: Verifier, d: Doc, key: PublicKey)
    decreases d
  {
    || (exists i :: 0 <= i < |d.revoked| && Means(v, d.revoked[i], key))
    || (exists i :: 0 <= i < |d.keys| && Revokes(v, d.keys[i], key))
  }

  /** A record that says "revoked", however it is spelt. */
  predicate SaysRevoked(r: Record) {
    ToLower(r.status) == "revoked"
  }

  predicate SomeSaysRevoked(v: Verifier, d: Doc, key: PublicKey) {
    exists i :: 0 <= i < |AllRecords(d)| && IsOf(v, AllRecords(d)[i], key) && SaysRevoked(AllRecords(d)[i])
  }

  /**
   A reader finds the key revoked: a list means it, a record of it says so, or a record of it
   has a fingerprint that is listed.
   */
  predicate ListedRevoked(v: Verifier, d: Doc, key: PublicKey) {
    Revokes(v, d, key) || SomeSaysRevoked(v, d, key) || SomeMarked(v, d, key)
  }

  /**
   What the report does not understand: a list that means the key in a nested document, an entry
   of the top list without the fingerprint of the key, another spelling of "revoked".
   */
  predicate Overlooked(v: Verifier, d: Doc, key: PublicKey) {
    || (exists i :: 0 <= i < |d.keys| && Revokes(v, d.keys[i], key))
    || (exists i :: 0 <= i < |d.revoked| && Means(v, d.revoked[i], key) && !Fingerprinted(v, d.revoked[i], key))
    || (exists i :: 0 <= i < |AllRecords(d)| && IsOf(v, AllRecords(d)[i], key)
          && SaysRevoked(AllRecords(d)[i]) && AllRecords(d)[i].status != "revoked")
  }

  /** What a reader finds revoked is listed under its fingerprint, marked in a record, or overlooked. */
  lemma ListedOrOverlooked(v: Verifier, d: Doc, key: PublicKey)
    ensures ListedRevoked(v, d, key) <==>
      v.fingerprint(key) in RevokedSet(d) || SomeMarked(v, d, key) || Overlooked(v, d, key)
  {
    var fp := v.fingerprint(key);
    if fp in RevokedSet(d) {
      var i :| 0 <= i < |d.revoked| && FingerprintOf(d.revoked[i]) == fp;
      assert Means(v, d.revoked[i], key);
    }
  }

  lemma {:induction false} InSomeList(lists: seq<seq<Record>>, r: Record) returns (i: nat)
    requires r in Flatten(lists)
    ensures i < |lists| && r in lists[i]
  {
    if r in lists[|lists| - 1] {
      i := |lists| - 1;
    } else {
      i := InSomeList(lists[..|lists| - 1], r);
    }
  }

  lemma {:induction false} RecordIsMarked(d: Doc, revoked: set<string>, r: Record)
    requires r in Records(d, revoked)
    ensures r.revoked == (r.status == "revoked" || r.fingerprint in revoked)
    decreases d
  {
    if r !in OwnRecord(d, revoked) {
      var i := InSomeList(KeyRecords(d, revoked), r);
      RecordIsMarked(d.keys[i], revoked, r);
    }
  }

  lemma RecordsAreMarked(d: Doc)
    ensures forall r :: r in AllRecords(d) ==> r.revoked == Marked(d, r)
  {
    forall r | r in AllRecords(d) ensures r.revoked == Marked(d, r) { RecordIsMarked(d, RevokedSet(d), r); }
  }

  /** What the report looks at: the record with the wanted fingerprint, else the only record. */
  lemma ReportIsOfTheNamed(d: Doc, want: string)
    requires want != ""
    ensures var records := AllRecords(d);
      var named := FirstNamed(records, want);
      ReportedRevoked(d, want) <==>
        if named.Some? then named.value.status == "revoked" || want in RevokedSet(d)
        else |records| == 1 && Marked(d, records[0])
  {
    RecordsAreMarked(d);
    NoneNamed(AllRecords(d), want);
  }

  /**
   The revocation of a key escapes the report in these ways. Shadowed: the first record with the
   wanted fingerprint is clean, and another record of the same key is marked. Unnamed: no record
   has the wanted fingerprint, so that the list of revoked fingerprints is never consulted for
   it, nor, among several records, their status. And in either way it may be overlooked.
   */
  predicate Escapes(v: Verifier, d: Doc, want: string, key: PublicKey) {
    var records := AllRecords(d);
    match FirstNamed(records, want)
    case Some(named) =>
      named.status != "revoked" && want !in RevokedSet(d) && (SomeMarked(v, d, key) || Overlooked(v, d, key))
    case None =>
      if |records| == 1 then (want in RevokedSet(d) || Overlooked(v, d, key)) && records[0].status != "revoked"
      else want in RevokedSet(d) || SomeMarked(v, d, key) || Overlooked(v, d, key)
  }

  lemma UsedRecord(v: Verifier, d: Doc, want: string) returns (i: nat)
    requires want != "" && Verified(v, d, want).Some?
    ensures i < |AllRecords(d)| && IsOf(v, AllRecords(d)[i], Verified(v, d, want).value)
    ensures AllRecords(d)[i].fingerprint == "" || AllRecords(d)[i].fingerprint == want
    ensures FirstUsable(AllRecords(d), want) == Some(AllRecords(d)[i])
  {
    MaterialIsFirstUsable(d, want, RevokedSet(d));
    i := UsableAt(AllRecords(d), want);
  }

  lemma {:induction false} UsableAt(records: seq<Record>, want: string) returns (i: nat)
    requires FirstUsable(records, want).Some?
    ensures i < |records| && FirstUsable(records, want) == Some(records[i])
    ensures FirstUsableAt(records, want, i)
  {
    if records[0].fingerprint == "" || records[0].fingerprint == want {
      i := 0;
    } else {
      i := UsableAt(records[1..], want);
      i := i + 1;
    }
  }

  /** A key that the document lists as revoked is accepted exactly when its revocation escapes the report. */
  lemma AcceptedThoughRevoked(v: Verifier, d: Doc, want: string)
    requires Fingerprints(v) && Verified(v, d, want).Some?
    ensures var key := Verified(v, d, want).value;
      Accepted(v, d, want) && ListedRevoked(v, d, key) <==> Escapes(v, d, want, key) && !v.gatewayRevoked
  {
    ListedOrOverlooked(v, d, Verified(v, d, want).value);
    ReportIsOfTheNamed(d, want);
    var i := UsedRecord(v, d, want);
    NoneNamed(AllRecords(d), want);
    assert "" !in RevokedSet(d);
  }

  /**
   All records of the key carry its fingerprint, and they agree on its status; and all that
   revokes it is in the form the report understands.
   */
  ghost predicate WellKept(v: Verifier, d: Doc, key: PublicKey) {
    && (forall r :: r in AllRecords(d) && IsOf(v, r, key) ==> r.fingerprint == v.fingerprint(key))
    && (forall r, r' ::
          r in AllRecords(d) && r' in AllRecords(d) && IsOf(v, r, key) && r'.fingerprint == v.fingerprint(key) ==>
          r.status == r'.status)
    && !Overlooked(v, d, key)
  }

  /** In a document that is well kept nothing escapes: an accepted key is not listed as revoked. */
  lemma WellKeptIsSafe(v: Verifier, d: Doc, want: string)
    requires Fingerprints(v) && Accepted(v, d, want) && WellKept(v, d, Verified(v, d, want).value)
    ensures !ListedRevoked(v, d, Verified(v, d, want).value)
  {
    var key := Verified(v, d, want).value;
    AcceptedThoughRevoked(v, d, want);
    var i := UsedRecord(v, d, want);
    assert AllRecords(d)[i] in AllRecords(d);
    NoneNamed(AllRecords(d), want);
  }

  // ------------------------------------------------------------------ documents it accepts

  function Leaf(fingerprint: string, material: string, status: string): Doc {
    Doc(fingerprint, "", "", "", material, "", "", "", status, [], [])
  }

  /** A key without a fingerprint, with its fingerprint in the list of the revoked. */
  function UnnamedKey(material: string, fingerprint: string): Doc {
    Leaf("", material, "").(revoked := [Leaf(fingerprint, "", "")])
  }

  /** A key listed first without a fingerprint as revoked, and again under its fingerprint as active. */
  function ListedTwice(material: string, fingerprint: string): Doc {
    Leaf("", material, "revoked").(keys := [Leaf(fingerprint, material, "active")])
  }

  ghost predicate GoodKey(v: Verifier, material: string, key: PublicKey) {
    && Trim(material) == material != "" && v.decode(material) == Some(key)
    && Trim(v.fingerprint(key)) == v.fingerprint(key) != "" && v.proves(key) && !v.gatewayRevoked
  }

  lemma UnnamedKeyIsAccepted(v: Verifier, material: string, key: PublicKey)
    requires GoodKey(v, material, key)
    ensures var d := UnnamedKey(material, v.fingerprint(key));
      Accepted(v, d, v.fingerprint(key)) && Verified(v, d, v.fingerprint(key)) == Some(key) && ListedRevoked(v, d, key)
  {
    var fp := v.fingerprint(key);
    var d := UnnamedKey(material, fp);
    Trims();
    assert FingerprintOf(d.revoked[0]) == fp;
    assert AllRecords(d) == [Record("", material, "active", false)];
    ReportIsOfTheNamed(d, fp);
  }

  lemma LeafRecords(fingerprint: string, material: string, status: string, revoked: set<string>)
    requires Trim(material) == material != "" && Trim(fingerprint) == fingerprint && Trim(status) == status != ""
    ensures Records(Leaf(fingerprint, material, status), revoked)
      == [Record(fingerprint, material, status, status == "revoked" || fingerprint in revoked)]
  {
    Trims();
  }

  lemma ListedTwiceRecords(material: string, fingerprint: string)
    requires Trim(material) == material != "" && Trim(fingerprint) == fingerprint
    ensures RevokedSet(ListedTwice(material, fingerprint)) == {}
    ensures AllRecords(ListedTwice(material, fingerprint))
      == [Record("", material, "revoked", true), Record(fingerprint, material, "active", false)]
  {
    var d := ListedTwice(material, fingerprint);
    Trims();
    LeafRecords(fingerprint, material, "active", {});
    assert OwnRecord(d, {}) == [Record("", material, "revoked", true)];
    var lists := [Records(d.keys[0], {})];
    assert lists == KeyRecords(d, {});
    assert Flatten(lists) == Flatten([]) + lists[0] by { assert lists[..0] == []; }
  }

  lemma ListedTwiceIsAccepted(v: Verifier, material: string, key: PublicKey)
    requires GoodKey(v, material, key)
    ensures var d := ListedTwice(material, v.fingerprint(key));
      Accepted(v, d, v.fingerprint(key)) && Verified(v, d, v.fingerprint(key)) == Some(key) && ListedRevoked(v, d, key)
  {
    var fp := v.fingerprint(key);
    var d := ListedTwice(material, fp);
    ListedTwiceRecords(material, fp);
    var records := AllRecords(d);
    assert IsOf(v, records[0], key) && Marked(d, records[0]);
    FirstNamedAt(records, fp, 1);
    ReportIsOfTheNamed(d, fp);
    MaterialIsFirstUsable(d, fp, {});
  }

  /** A key whose record says "Revoked". */
  function Misspelt(material: string, fingerprint: string): Doc {
    Leaf(fingerprint, material, "Revoked")
  }

  /** A key that is listed as revoked by its material. */
  function Unprinted(material: string, fingerprint: string): Doc {
    Leaf(fingerprint, material, "active").(revoked := [Leaf("", material, "")])
  }

  /** A key that is listed as revoked in a nested document. */
  function Nested(material: string, fingerprint: string): Doc {
    Leaf(fingerprint, material, "active").(keys := [Leaf("", "", "").(revoked := [Leaf(fingerprint, "", "")])])
  }

  /** A document with one clean record of the key, whatever its lists say elsewhere. */
  lemma CleanIsAccepted(v: Verifier, d: Doc, material: string, key: PublicKey, status: string)
    requires GoodKey(v, material, key) && status != "revoked"
    requires AllRecords(d) == [Record(v.fingerprint(key), material, status, false)]
    requires v.fingerprint(key) !in RevokedSet(d) && Overlooked(v, d, key)
    ensures Accepted(v, d, v.fingerprint(key)) && Verified(v, d, v.fingerprint(key)) == Some(key)
    ensures ListedRevoked(v, d, key)
  {
    var fp := v.fingerprint(key);
    FirstNamedAt(AllRecords(d), fp, 0);
    ReportIsOfTheNamed(d, fp);
    MaterialIsFirstUsable(d, fp, RevokedSet(d));
    ListedOrOverlooked(v, d, key);
  }

  lemma MisspeltIsAccepted(v: Verifier, material: string, key: PublicKey)
    requires GoodKey(v, material, key)
    ensures var d := Misspelt(material, v.fingerprint(key));
      Accepted(v, d, v.fingerprint(key)) && Verified(v, d, v.fingerprint(key)) == Some(key) && ListedRevoked(v, d, key)
  {
    var fp := v.fingerprint(key);
    var d := Misspelt(material, fp);
    Misspelling();
    assert RevokedSet(d) == {};
    LeafRecords(fp, material, "Revoked", {});
    assert IsOf(v, AllRecords(d)[0], key) && SaysRevoked(AllRecords(d)[0]);
    CleanIsAccepted(v, d, material, key, "Revoked");
  }

  lemma UnprintedIsAccepted(v: Verifier, material: string, key: PublicKey)
    requires GoodKey(v, material, key)
    ensures var d := Unprinted(material, v.fingerprint(key));
      Accepted(v, d, v.fingerprint(key)) && Verified(v, d, v.fingerprint(key)) == Some(key) && ListedRevoked(v, d, key)
  {
    var fp := v.fingerprint(key);
    var d := Unprinted(material, fp);
    Trims();
    assert FingerprintOf(d.revoked[0]) == "" && MaterialOf(d.revoked[0]) == material;
    assert Means(v, d.revoked[0], key);
    assert AllRecords(d) == [Record(fp, material, "active", false)];
    CleanIsAccepted(v, d, material, key, "active");
  }

  lemma NestedIsAccepted(v: Verifier, material: string, key: PublicKey)
    requires GoodKey(v, material, key)
    ensures var d := Nested(material, v.fingerprint(key));
      Accepted(v, d, v.fingerprint(key)) && Verified(v, d, v.fingerprint(key)) == Some(key) && ListedRevoked(v, d, key)
  {
    var fp := v.fingerprint(key);
    var d := Nested(material, fp);
    Trims();
    var inner := d.keys[0];
    assert Means(v, inner.revoked[0], key);
    assert Revokes(v, inner, key);
    assert Records(inner, {}) == [];
    var lists := [Records(inner, {})];
    assert lists == KeyRecords(d, {}) && RevokedSet(d) == {};
    assert Flatten(lists) == Flatten([]) + lists[0] by { assert lists[..0] == []; }
    assert AllRecords(d) == [Record(fp, material, "active", false)];
    CleanIsAccepted(v, d, material, key, "active");
  }

  lemma Misspelling()
    ensures Trim("Revoked") == "Revoked" && ToLower("Revoked") == "revoked" != "Revoked"
  {
    assert "revoked"[0] != "Revoked"[0];
  }

  lemma Trims()
    ensures Trim("") == "" && Trim("active") == "active" && Trim("revoked") == "revoked"
  {
  }

  // ------------------------------------------------------------- the detached signature

  /** The key `runDetachedCLI` verifies with: that of the record selected, under its own fingerprint. */
  function DetachedKey(v: Verifier, d: Doc, given: string): Option<PublicKey> {
    match Select(d, Trim(given))
    case None => None
    case Some(record) =>
      match v.decode(record.material)
      case None => None
      case Some(key) =>
        var fp := v.fingerprint(key);
        if fp == record.fingerprint && (given == "" || fp == Trim(given)) && v.proves(key) then Some(key) else None
  }

  predicate DetachedAccepted(v: Verifier, d: Doc, given: string) {
    DetachedKey(v, d, given).Some? && !ReportedRevoked(d, Trim(given))
  }

  /** That key is one of the document, listed under its own fingerprint, the one asked for if any, and it proves. */
  lemma DetachedKeyIs(v: Verifier, d: Doc, given: string)
    ensures DetachedKey(v, d, given).Some? ==>
      var key := DetachedKey(v, d, given).value;
      && v.proves(key) && (given == "" || v.fingerprint(key) == Trim(given))
      && exists r :: r in AllRecords(d) && r.fingerprint == v.fingerprint(key) && v.decode(r.material) == Some(key)
    ensures DetachedKey(v, d, given).None? && Select(d, Trim(given)).Some? ==>
      var r := Select(d, Trim(given)).value;
      v.decode(r.material).Some? && v.proves(v.decode(r.material).value) ==>
        || v.fingerprint(v.decode(r.material).value) != r.fingerprint
        || (given != "" && v.fingerprint(v.decode(r.material).value) != Trim(given))
    ensures DetachedAccepted(v, d, given) ==> exists key :: DetachedKey(v, d, given) == Some(key) && v.proves(key)
  {
    NoneNamed(AllRecords(d), Expected(d, AllRecords(d), Trim(given)));
  }

  /**
   There the key and the report come from one record, so the mark of another record of the key
   can escape, and what is overlooked.
   */
  lemma DetachedThoughRevoked(v: Verifier, d: Doc, given: string)
    requires DetachedKey(v, d, given).Some?
    ensures var key := DetachedKey(v, d, given).value;
      DetachedAccepted(v, d, given) && ListedRevoked(v, d, key) <==>
        && Select(d, Trim(given)).value.status != "revoked" && v.fingerprint(key) !in RevokedSet(d)
        && (SomeMarked(v, d, key) || Overlooked(v, d, key))
  {
    ListedOrOverlooked(v, d, DetachedKey(v, d, given).value);
    RecordsAreMarked(d);
    NoneNamed(AllRecords(d), Expected(d, AllRecords(d), Trim(given)));
  }
}
