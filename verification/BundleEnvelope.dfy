/**
 Sealing and opening a bundle (`accountbundle/crypto.go`). The primitives are parameters with
 the laws they are relied on for; Argon2id and SHA-256 need none but the length of a digest, and
 that of GCM (NIST SP 800-38D, section 7) says that authenticated decryption gives exactly the
 plaintexts whose encryption the ciphertext is.
 */
module BundleEnvelope {
  import opened Bundle
  import opened Options

  datatype Payload = Payload(format: string, version: int, contentSHA256: string, content: Content)

  datatype KDFSpec = KDFSpec(name: string, salt: bytes, time: int, memoryKiB: int, threads: int)

  datatype CipherSpec = CipherSpec(name: string, nonce: bytes, ciphertext: bytes)

  datatype Envelope = Envelope(format: string, version: int, kdf: KDFSpec, cipher: CipherSpec, ciphertextSHA256: string)

  const FORMAT := "huakai-account-bundle"
  const VERSION := 1
  const KDF_NAME := "argon2id"
  const CIPHER_NAME := "aes-256-gcm"
  const KDF_TIME := 3
  const KDF_MEMORY_KIB := 64 * 1024
  const KDF_THREADS := 2
  const PASSWORD_MIN := 12
  const PASSWORD_MAX := 1024
  const MAX_PLAINTEXT := 8 * 1024 * 1024

  /** JSON texts, digests, the key of a password and a salt, and GCM under the bundle's associated data. */
  datatype Primitives = Primitives(
    marshalContent: Content -> Option<bytes>,
    marshal: Payload -> Option<bytes>,
    unmarshal: bytes -> Option<Payload>,
    sha256: bytes -> bytes,
    argon2id: (bytes, bytes) -> bytes,
    gcmSeal: (bytes, bytes, bytes) -> bytes,
    gcmOpen: (bytes, bytes, bytes) -> Option<bytes>)

  ghost predicate JSONLaws(pr: Primitives) {
    forall x: Payload :: pr.marshal(x).Some? ==>
      pr.marshal(x).value != [] && pr.unmarshal(pr.marshal(x).value) == Some(x)
  }

  ghost predicate DigestLaws(pr: Primitives) {
    forall b: bytes :: |pr.sha256(b)| == 32
  }

  ghost predicate GCMLaws(pr: Primitives) {
    && (forall k: bytes, n: bytes, p: bytes :: |pr.gcmSeal(k, n, p)| == |p| + 16)
    && (forall k: bytes, n: bytes, p: bytes :: pr.gcmOpen(k, n, pr.gcmSeal(k, n, p)) == Some(p))
    && (forall k: bytes, n: bytes, c: bytes :: pr.gcmOpen(k, n, c).Some? ==>
          pr.gcmSeal(k, n, pr.gcmOpen(k, n, c).value) == c)
  }

  ghost predicate Laws(pr: Primitives) {
    JSONLaws(pr) && DigestLaws(pr) && GCMLaws(pr)
  }

  // ---------------------------------------------------------------------- hexadecimal

  function HexDigit(n: int): char
    requires 0 <= n < 16
  {
    if n < 10 then '0' + n as char else 'a' + (n - 10) as char
  }

  function HexValue(c: char): (r: Option<int>)
    ensures r.Some? ==> 0 <= r.value < 16
  {
    if '0' <= c <= '9' then Some(c as int - '0' as int)
    else if 'a' <= c <= 'f' then Some(c as int - 'a' as int + 10)
    else if 'A' <= c <= 'F' then Some(c as int - 'A' as int + 10)
    else None
  }

  function EncodeHex(b: bytes): (s: string)
    ensures |s| == 2 * |b|
  {
    if b == [] then "" else [HexDigit(b[0] as int / 16), HexDigit(b[0] as int % 16)] + EncodeHex(b[1..])
  }

  function DecodeHex(s: string): Option<bytes> {
    if s == "" then Some([])
    else if |s| == 1 then None
    else
      var high, low, rest := HexValue(s[0]), HexValue(s[1]), DecodeHex(s[2..]);
      if high.Some? && low.Some? && rest.Some?
      then Some([(16 * high.value + low.value) as byte] + rest.value)
      else None
  }

  /** Sixteen digits, the letters in either case. */
  lemma HexDigitsAre(k: nat)
    requires k < 16
    ensures HexValue("0123456789abcdef"[k]) == Some(k) && HexValue("0123456789ABCDEF"[k]) == Some(k)
  {
  }

  lemma {:induction false} HexRoundTrip(b: bytes)
    ensures DecodeHex(EncodeHex(b)) == Some(b)
  {
    if b != [] {
      HexRoundTrip(b[1..]);
      var s := EncodeHex(b);
      assert s[2..] == EncodeHex(b[1..]);
      assert HexValue(s[0]) == Some(b[0] as int / 16) && HexValue(s[1]) == Some(b[0] as int % 16);
      assert b == [b[0]] + b[1..];
    }
  }

  // ------------------------------------------------------------------- seal and open

  predicate ValidPassword(password: bytes) {
    PASSWORD_MIN <= |password| <= PASSWORD_MAX
  }

  predicate ValidEnvelope(e: Envelope) {
    && e.format == FORMAT && e.version == VERSION
    && e.kdf.name == KDF_NAME && e.kdf.time == KDF_TIME
    && e.kdf.memoryKiB == KDF_MEMORY_KIB && e.kdf.threads == KDF_THREADS
    && |e.kdf.salt| == 16
    && e.cipher.name == CIPHER_NAME && |e.cipher.nonce| == 12
    && 0 < |e.cipher.ciphertext| <= MAX_PLAINTEXT + 1024
    && |e.ciphertextSHA256| == 64 && DecodeHex(e.ciphertextSHA256).Some?
  }

  function Encrypt(pr: Primitives, plain: bytes, password: bytes, salt: bytes, nonce: bytes): Envelope {
    var ciphertext := pr.gcmSeal(pr.argon2id(password, salt), nonce, plain);
    Envelope(FORMAT, VERSION, KDFSpec(KDF_NAME, salt, KDF_TIME, KDF_MEMORY_KIB, KDF_THREADS),
             CipherSpec(CIPHER_NAME, nonce, ciphertext), EncodeHex(pr.sha256(ciphertext)))
  }

  function PayloadOf(pr: Primitives, content: Content, raw: bytes): Payload {
    Payload(FORMAT, VERSION, EncodeHex(pr.sha256(raw)), content)
  }

  /** `seal`; salt and nonce are what the random source gives, if it gives anything. */
  function Seal(pr: Primitives, content: Content, password: bytes, salt: Option<bytes>,
                nonce: Option<bytes>): Outcome<Envelope> {
    if !ValidPassword(password) then Failure(InvalidInput)
    else
      var raw := pr.marshalContent(content);
      if raw.None? || |raw.value| > MAX_PLAINTEXT then Failure(InvalidInput)
      else
        var plain := pr.marshal(PayloadOf(pr, content, raw.value));
        if plain.None? || |plain.value| > MAX_PLAINTEXT then Failure(InvalidInput)
        else if salt.None? || nonce.None? then Failure(Backend)
        else Success(Encrypt(pr, plain.value, password, salt.value, nonce.value))
  }

  /** `open` */
  function Open(pr: Primitives, e: Envelope, password: bytes): Outcome<Content> {
    if !ValidEnvelope(e) then Failure(Integrity)
    else if !ValidPassword(password) then Failure(InvalidInput)
    else if DecodeHex(e.ciphertextSHA256) != Some(pr.sha256(e.cipher.ciphertext)) then Failure(Integrity)
    else
      var plain := pr.gcmOpen(pr.argon2id(password, e.kdf.salt), e.cipher.nonce, e.cipher.ciphertext);
      if plain.None? then Failure(WrongPassword) else Decode(pr, plain.value)
  }

  function Decode(pr: Primitives, plain: bytes): Outcome<Content> {
    var decoded := pr.unmarshal(plain);
    if decoded.None? || decoded.value.format != FORMAT || decoded.value.version != VERSION then Failure(Integrity)
    else
      var raw := pr.marshalContent(decoded.value.content);
      if raw.None? || DecodeHex(decoded.value.contentSHA256) != Some(pr.sha256(raw.value)) then Failure(Integrity)
      else Success(decoded.value.content)
  }

  // ------------------------------------------------------------------------- the laws

  lemma EncryptedIsValid(pr: Primitives, plain: bytes, password: bytes, salt: bytes, nonce: bytes)
    requires Laws(pr) && |salt| == 16 && |nonce| == 12 && |plain| <= MAX_PLAINTEXT
    ensures ValidEnvelope(Encrypt(pr, plain, password, salt, nonce))
    ensures DecodeHex(Encrypt(pr, plain, password, salt, nonce).ciphertextSHA256)
         == Some(pr.sha256(Encrypt(pr, plain, password, salt, nonce).cipher.ciphertext))
  {
    var ciphertext := pr.gcmSeal(pr.argon2id(password, salt), nonce, plain);
    assert |ciphertext| == |plain| + 16;
    HexRoundTrip(pr.sha256(ciphertext));
    assert |pr.sha256(ciphertext)| == 32;
  }

  /** Whatever is sealed passes validation and opens, with the same password, to what was sealed. */
  lemma SealedOpens(pr: Primitives, content: Content, password: bytes, salt: Option<bytes>, nonce: Option<bytes>)
    requires Laws(pr) && (salt.Some? ==> |salt.value| == 16) && (nonce.Some? ==> |nonce.value| == 12)
    ensures var sealed := Seal(pr, content, password, salt, nonce);
      sealed.Success? ==> ValidEnvelope(sealed.value) && Open(pr, sealed.value, password) == Success(content)
  {
    var sealed := Seal(pr, content, password, salt, nonce);
    if sealed.Success? {
      var raw := pr.marshalContent(content).value;
      var plain := pr.marshal(PayloadOf(pr, content, raw)).value;
      EncryptedIsValid(pr, plain, password, salt.value, nonce.value);
      HexRoundTrip(pr.sha256(raw));
      var key := pr.argon2id(password, salt.value);
      assert pr.gcmOpen(key, nonce.value, pr.gcmSeal(key, nonce.value, plain)) == Some(plain);
      assert pr.unmarshal(plain) == Some(PayloadOf(pr, content, raw));
    }
  }

  /**
   With another password a sealed bundle fails as a wrong password, unless the two keys
   make one ciphertext out of two plaintexts.
   */
  lemma OtherPassword(pr: Primitives, content: Content, password: bytes, salt: bytes, nonce: bytes, other: bytes)
    requires Laws(pr) && |salt| == 16 && |nonce| == 12 && ValidPassword(other)
    requires Seal(pr, content, password, Some(salt), Some(nonce)).Success?
    ensures var e := Seal(pr, content, password, Some(salt), Some(nonce)).value;
      Open(pr, e, other) == Failure(WrongPassword) <==>
      forall plain: bytes :: pr.gcmSeal(pr.argon2id(other, salt), nonce, plain) != e.cipher.ciphertext
  {
    var plain := pr.marshal(PayloadOf(pr, content, pr.marshalContent(content).value)).value;
    EncryptedIsValid(pr, plain, password, salt, nonce);
    var e := Encrypt(pr, plain, password, salt, nonce);
    var recovered := pr.gcmOpen(pr.argon2id(other, salt), nonce, e.cipher.ciphertext);
    if recovered.Some? {
      assert pr.gcmSeal(pr.argon2id(other, salt), nonce, recovered.value) == e.cipher.ciphertext;
    } else {
      forall plain: bytes ensures pr.gcmSeal(pr.argon2id(other, salt), nonce, plain) != e.cipher.ciphertext {
        assert pr.gcmOpen(pr.argon2id(other, salt), nonce, e.cipher.ciphertext) != Some(plain);
      }
    }
  }

  /** Content is only ever handed out if it lies sealed, under this password, in this very ciphertext. */
  lemma OpenedWasSealed(pr: Primitives, e: Envelope, password: bytes)
    requires Laws(pr) && Open(pr, e, password).Success?
    ensures exists plain: bytes ::
      && e.cipher.ciphertext == pr.gcmSeal(pr.argon2id(password, e.kdf.salt), e.cipher.nonce, plain)
      && pr.unmarshal(plain).Some? && pr.unmarshal(plain).value.content == Open(pr, e, password).value
  {
  }

  /**
   A ciphertext that is not the one its digest was taken of is an integrity error; with the
   digest adapted as well it is a wrong password, unless it is an encryption under the same key.
   */
  lemma TamperedCiphertext(pr: Primitives, e: Envelope, password: bytes, ciphertext: bytes)
    requires Laws(pr) && Open(pr, e, password).Success?
    requires 0 < |ciphertext| <= MAX_PLAINTEXT + 1024
    ensures pr.sha256(ciphertext) != pr.sha256(e.cipher.ciphertext) ==>
      Open(pr, e.(cipher := e.cipher.(ciphertext := ciphertext)), password) == Failure(Integrity)
    ensures var key := pr.argon2id(password, e.kdf.salt);
      var forged :=
        e.(cipher := e.cipher.(ciphertext := ciphertext), ciphertextSHA256 := EncodeHex(pr.sha256(ciphertext)));
      (forall plain: bytes :: ciphertext != pr.gcmSeal(key, e.cipher.nonce, plain)) ==>
        Open(pr, forged, password)
        == Failure(WrongPassword)
  {
    HexRoundTrip(pr.sha256(ciphertext));
    assert |pr.sha256(ciphertext)| == 32;
    var recovered := pr.gcmOpen(pr.argon2id(password, e.kdf.salt), e.cipher.nonce, ciphertext);
    if recovered.Some? {
      assert ciphertext == pr.gcmSeal(pr.argon2id(password, e.kdf.salt), e.cipher.nonce, recovered.value);
    }
  }

  /** What is sealed, and why something is not: the password, the size of the content, or the random source. */
  lemma SealsOrWhy(pr: Primitives, content: Content, password: bytes, salt: Option<bytes>, nonce: Option<bytes>)
    ensures var raw := pr.marshalContent(content);
      var plain := if raw.None? then None else
        pr.marshal(Payload("huakai-account-bundle", 1, EncodeHex(pr.sha256(raw.value)), content));
      var fits := && 12 <= |password| <= 1024 && raw.Some? && |raw.value| <= 8388608
                  && plain.Some? && |plain.value| <= 8388608;
      && (Seal(pr, content, password, salt, nonce).Success? <==> fits && salt.Some? && nonce.Some?)
      && (Seal(pr, content, password, salt, nonce) == Failure(InvalidInput) <==> !fits)
      && (Seal(pr, content, password, salt, nonce) == Failure(Backend) <==> fits && (salt.None? || nonce.None?))
  {
  }

  /** The one header there is, with a salt, a nonce and a ciphertext of their sizes and a digest in hexadecimal. */
  predicate HasHeader(e: Envelope) {
    && e.format == "huakai-account-bundle" && e.version == 1
    && e.kdf == KDFSpec("argon2id", e.kdf.salt, 3, 65536, 2) && |e.kdf.salt| == 16
    && e.cipher.name == "aes-256-gcm" && |e.cipher.nonce| == 12
    && 1 <= |e.cipher.ciphertext| <= 8389632
    && |e.ciphertextSHA256| == 64 && AllHex(e.ciphertextSHA256)
  }

  predicate IsHex(c: char) {
    c in {'0', '1', '2', '3', '4', '5', '6', '7', '8', '9', 'a', 'b', 'c', 'd', 'e', 'f', 'A', 'B', 'C', 'D', 'E', 'F'}
  }

  predicate AllHex(s: string) {
    forall i :: 0 <= i < |s| ==> IsHex(s[i])
  }

  lemma {:induction false} HexText(s: string)
    ensures DecodeHex(s).Some? <==> |s| % 2 == 0 && AllHex(s)
    ensures DecodeHex(s).Some? ==> 2 * |DecodeHex(s).value| == |s|
  {
    if |s| > 1 {
      HexText(s[2..]);
      HexChar(s[0]);
      HexChar(s[1]);
      assert s == [s[0], s[1]] + s[2..];
      AllHexOf(s[0], s[1], s[2..]);
    }
  }

  lemma AllHexOf(a: char, b: char, rest: string)
    ensures AllHex([a, b] + rest) <==> IsHex(a) && IsHex(b) && AllHex(rest)
  {
    var s := [a, b] + rest;
    assert s[0] == a && s[1] == b && forall i :: 0 <= i < |rest| ==> s[i + 2] == rest[i];
    if AllHex(s) {
      forall i | 0 <= i < |rest| ensures IsHex(rest[i]) { assert s[i + 2] == rest[i]; }
    }
  }

  lemma HexChar(c: char)
    ensures HexValue(c).Some? <==> IsHex(c)
    ensures HexValue(c).Some? ==> 0 <= HexValue(c).value < 16
  {
  }

  predicate DigestFits(pr: Primitives, e: Envelope) {
    DecodeHex(e.ciphertextSHA256) == Some(pr.sha256(e.cipher.ciphertext))
  }

  /**
   What opening rejects, and as what: another header or another digest is an integrity error, a
   password of another length invalid input, a ciphertext the key does not open a wrong
   password; and content whose digest or format does not fit is an integrity error again.
   */
  lemma RejectedAs(pr: Primitives, e: Envelope, password: bytes)
    ensures !HasHeader(e) ==> Open(pr, e, password) == Failure(Integrity)
    ensures HasHeader(e) ==> (Open(pr, e, password) == Failure(InvalidInput) <==> !(12 <= |password| <= 1024))
    ensures HasHeader(e) && 12 <= |password| <= 1024 && DigestFits(pr, e) ==>
      var plain := pr.gcmOpen(pr.argon2id(password, e.kdf.salt), e.cipher.nonce, e.cipher.ciphertext);
      && (Open(pr, e, password) == Failure(WrongPassword) <==> plain.None?)
      && (plain.Some? && pr.unmarshal(plain.value).Some? ==>
            var p := pr.unmarshal(plain.value).value;
            Open(pr, e, password) == Success(p.content) || Open(pr, e, password) == Failure(Integrity))
    ensures Open(pr, e, password).Success? ==>
      var plain := pr.gcmOpen(pr.argon2id(password, e.kdf.salt), e.cipher.nonce, e.cipher.ciphertext);
      && HasHeader(e) && 12 <= |password| <= 1024
      && DigestFits(pr, e) && plain.Some? && pr.unmarshal(plain.value).Some?
      && var p := pr.unmarshal(plain.value).value;
      && p.format == "huakai-account-bundle" && p.version == 1 && Open(pr, e, password) == Success(p.content)
      && pr.marshalContent(p.content).Some?
      && DecodeHex(p.contentSHA256) == Some(pr.sha256(pr.marshalContent(p.content).value))
  {
    HexText(e.ciphertextSHA256);
  }
}
