/**
 * Sealing and opening one box (crates/piggy-box/src/piv_box.rs). The primitives are
 * functions; `Lawful` is all that is asked of them.
 */
module BoxCrypto {
  import opened Base
  import opened Wire
  import opened BoxFormat

  /**
   * Points are values, whatever bytes encode them. `deal` makes `m` shares of a secret of which
   * `n` are enough; a share is the bytes it is written as.
   */
  datatype Crypto = Crypto(
    parsePoint: (Curve, Bytes) -> Option<Bytes>,
    compress: (Curve, Bytes) -> Bytes,
    publicKey: (Curve, Bytes) -> Bytes,
    agree: (Curve, Bytes, Bytes) -> Bytes,
    sha512: Bytes -> Bytes,
    aeadSeal: (Bytes, Bytes, Bytes) -> Bytes,
    aeadOpen: (Bytes, Bytes, Bytes) -> Option<Bytes>,
    gcmSeal: (Bytes, Bytes, Bytes) -> Bytes,
    gcmOpen: (Bytes, Bytes, Bytes) -> Option<Bytes>,
    isShare: Bytes -> bool,
    deal: (Byte, Bytes, Bytes, Byte) -> seq<Bytes>,
    combine: (Byte, seq<Bytes>) -> Option<Bytes>)

  /** A compressed point is short, starts with 02 or 03, and parses back to the point. */
  ghost predicate LawfulPoints(x: Crypto) {
    && (forall c: Curve, p: Bytes :: 1 <= |x.compress(c, p)| <= 49 && x.compress(c, p)[0] in {2, 3})
    && (forall c: Curve, k: Bytes :: x.parsePoint(c, x.compress(c, x.publicKey(c, k))) == Some(x.publicKey(c, k)))
    && (forall c: Curve, b: Bytes :: x.parsePoint(c, b).Some? ==> x.parsePoint(c, x.compress(c, x.parsePoint(c, b).value)) == x.parsePoint(c, b))
  }

  /** Diffie-Hellman: both sides derive the same secret. */
  ghost predicate LawfulAgreement(x: Crypto) {
    forall c: Curve, a: Bytes, b: Bytes :: x.agree(c, a, x.publicKey(c, b)) == x.agree(c, b, x.publicKey(c, a))
  }

  const CIPHER_KEY_LEN: nat := 32

  /**
   * Decryption undoes encryption (section 2.8 of RFC 8439, and AES-GCM) under 32-byte keys and
   * 12-byte nonces; a tag of 16 bytes is appended.
   */
  ghost predicate LawfulCiphers(x: Crypto) {
    && (forall b: Bytes :: |x.sha512(b)| == 64)
    && (forall k: Bytes, iv: Bytes, m: Bytes {:trigger x.aeadSeal(k, iv, m)} :: |k| == CIPHER_KEY_LEN && |iv| == IV_LEN ==>
          x.aeadOpen(k, iv, x.aeadSeal(k, iv, m)) == Some(m) && |x.aeadSeal(k, iv, m)| == |m| + 16)
    && (forall k: Bytes, iv: Bytes, m: Bytes {:trigger x.gcmSeal(k, iv, m)} :: |k| == CIPHER_KEY_LEN && |iv| == IV_LEN ==>
          x.gcmOpen(k, iv, x.gcmSeal(k, iv, m)) == Some(m) && |x.gcmSeal(k, iv, m)| == |m| + 16)
  }

  /** Indices into `m` shares, each taken once, in order. */
  predicate Picks(picks: seq<nat>, m: nat) {
    && (forall i :: 0 <= i < |picks| ==> picks[i] < m)
    && (forall i, j :: 0 <= i < j < |picks| ==> picks[i] < picks[j])
  }

  function Chosen(shares: seq<Bytes>, picks: seq<nat>): seq<Bytes>
    requires forall i :: 0 <= i < |picks| ==> picks[i] < |shares|
  {
    seq(|picks|, i requires 0 <= i < |picks| => shares[picks[i]])
  }

  /** How long the secrets are that RECOVERY configs share out. */
  const SHARED_SECRET_LEN: nat := 32

  /**
   * Any `n` of the shares dealt of a 32-byte secret, and at least one, give the secret back; a
   * share is at most a byte longer than it.
   */
  ghost predicate LawfulSharing(x: Crypto) {
    && (forall n: Byte, secret: Bytes, seed: Bytes, m: Byte :: |secret| == SHARED_SECRET_LEN ==> |x.deal(n, secret, seed, m)| == m)
    && (forall n: Byte, secret: Bytes, seed: Bytes, m: Byte, i: nat :: |secret| == SHARED_SECRET_LEN && i < m ==>
          x.isShare(x.deal(n, secret, seed, m)[i]) && |x.deal(n, secret, seed, m)[i]| <= |secret| + 1)
    && (forall n: Byte, secret: Bytes, seed: Bytes, m: Byte, picks: seq<nat> ::
          |secret| == SHARED_SECRET_LEN && Picks(picks, m) && |picks| >= n && |picks| >= 1 ==>
          x.combine(n, Chosen(x.deal(n, secret, seed, m), picks)) == Some(secret))
  }

  ghost predicate Lawful(x: Crypto) { LawfulPoints(x) && LawfulAgreement(x) && LawfulCiphers(x) && LawfulSharing(x) }

  /** A toy instance: keys and secrets are all alike, ciphers append zeros, every share is the secret. */
  function Toy(): Crypto {
    Crypto((_, _) => Some([]), (_, _) => [2], (_, _) => [], (_, _, _) => [], _ => Repeat(0, 64),
           (_, _, m) => m + Repeat(0, 16), (_, _, c) => Some(ToyOpen(c)),
           (_, _, m) => m + Repeat(0, 16), (_, _, c) => Some(ToyOpen(c)),
           _ => true, (_, secret, _, m) => ToyDeal(secret, m), (_, shares) => if shares == [] then None else Some(shares[0]))
  }

  function ToyOpen(c: Bytes): Bytes { if |c| < 16 then c else c[..|c| - 16] }
  function ToyDeal(secret: Bytes, m: Byte): seq<Bytes> { seq(m, _ => secret) }

  lemma ToyCiphersAreLawful()
    ensures LawfulCiphers(Toy())
  {
    hide LawfulPoints, LawfulAgreement, LawfulSharing;
    forall m: Bytes ensures ToyOpen(m + Repeat(0, 16)) == m && |m + Repeat(0, 16)| == |m| + 16 {}
  }

  /** The laws do not contradict each other. */
  lemma LawsCanBeMet()
    ensures Lawful(Toy())
  {
    hide LawfulCiphers;
    ToyCiphersAreLawful();
    assert LawfulPoints(Toy()) && LawfulAgreement(Toy()) && LawfulSharing(Toy());
    hide LawfulPoints, LawfulAgreement, LawfulSharing;
  }

  // --- one box ----------------------------------------------------------------------

  const IV_LEN: nat := 12
  const NONCE_LEN: nat := 16

  /** chacha20-poly1305@piggy.amarbel.net */
  function DefaultCipher(): Bytes {
    [0x63, 0x68, 0x61, 0x63, 0x68, 0x61, 0x32, 0x30, 0x2D, 0x70, 0x6F, 0x6C, 0x79, 0x31, 0x33, 0x30, 0x35, 0x40,
     0x70, 0x69, 0x67, 0x67, 0x79, 0x2E, 0x61, 0x6D, 0x61, 0x72, 0x62, 0x65, 0x6C, 0x2E, 0x6E, 0x65, 0x74]
  }

  /** sha512 */
  function DefaultKdf(): Bytes { [0x73, 0x68, 0x61, 0x35, 0x31, 0x32] }

  lemma DefaultsAreText()
    ensures Utf8(DefaultCipher()) && FitsCstring8(DefaultCipher())
    ensures Utf8(DefaultKdf()) && FitsCstring8(DefaultKdf())
  {
    hide Utf8;
    AsciiIsUtf8(DefaultCipher());
    AsciiIsUtf8(DefaultKdf());
  }

  /** The key a shared secret and a nonce give: the first half of their SHA-512. */
  function BoxKey(x: Crypto, secret: Bytes, nonce: Bytes): Bytes {
    var digest := x.sha512(secret + nonce);
    if |digest| < 32 then digest else digest[..32]
  }

  function EmptyBox(curve: Curve): PivBox {
    DefaultsAreText();
    PivBox(BOX_VERSION, None, BoxFields(Suite(DefaultCipher(), DefaultKdf(), [], curve, []), [], []), [], None)
  }

  /** Seal what the box holds to `recipient`, a point, under the ephemeral private key `ephemeral`. */
  function Sealed(
      x: Crypto, box: PivBox, recipient: Bytes, ephemeral: Bytes, nonce: Bytes, iv: Bytes): Outcome<PivBox> {
    if box.plaintext.None? then Failure(NotSealed)
    else
      var curve := box.fields.suite.curve;
      var suite := box.fields.suite.(recipient := x.compress(curve, recipient), nonce := nonce);
      if |iv| != IV_LEN then Failure(CryptoFailure)
      else
        var ciphertext := x.aeadSeal(BoxKey(x, x.agree(curve, ephemeral, recipient), nonce), iv, Pkcs7Pad(box.plaintext.value, 16));
        Success(box.(fields := BoxFields(suite, iv, ciphertext), ephemeral := x.compress(curve, x.publicKey(curve, ephemeral))))
  }

  function Opened(x: Crypto, box: PivBox, secret: Bytes): Outcome<PivBox> {
    if |box.fields.iv| != IV_LEN then Failure(CryptoFailure)
    else if |box.fields.ciphertext| < 16 then Failure(CryptoFailure)
    else match x.aeadOpen(BoxKey(x, secret, box.fields.suite.nonce), box.fields.iv, box.fields.ciphertext)
      case None => Failure(CryptoFailure)
      case Some(padded) =>
        var plain :- Unpadded(padded, 16);
        Success(box.(plaintext := Some(plain)))
  }

  /** What a box was sealed around is what its recipient's secret opens, wherever the box has been. */
  lemma SealedOpens(x: Crypto, box: PivBox, private: Bytes, ephemeral: Bytes, nonce: Bytes, iv: Bytes, arrived: PivBox)
    requires Lawful(x) && box.plaintext.Some? && |iv| == IV_LEN
    requires arrived.fields == Sealed(x, box, x.publicKey(box.fields.suite.curve, private), ephemeral, nonce, iv).value.fields
    ensures var curve := box.fields.suite.curve;
            Opened(x, arrived, x.agree(curve, private, x.publicKey(curve, ephemeral))) == Success(arrived.(plaintext := box.plaintext))
  {
    hide Pkcs7Pad, Unpadded, LawfulPoints, LawfulSharing;
    PaddingRoundTrips(box.plaintext.value, 16);
  }

  // --- what a seal is made of ---------------------------------------------------------

  /**
   * A seal in terms of the primitives alone: the ciphertext is under the first 32 bytes of the
   * SHA-512 of the agreed secret followed by the nonce, and the box names its recipient's point,
   * the ephemeral public key, the nonce and the initialisation vector.
   */
  lemma SealIs(x: Crypto, box: PivBox, recipient: Bytes, ephemeral: Bytes, nonce: Bytes, iv: Bytes, plain: Bytes)
    requires Lawful(x) && box.plaintext == Some(plain) && |iv| == 12
    ensures Sealed(x, box, recipient, ephemeral, nonce, iv).Success?
    ensures var sealed := Sealed(x, box, recipient, ephemeral, nonce, iv).value;
            var curve := box.fields.suite.curve;
            var digest := x.sha512(x.agree(curve, ephemeral, recipient) + nonce);
            && |digest| == 64
            && sealed.fields.ciphertext == x.aeadSeal(digest[..32], iv, Pkcs7Pad(plain, 16))
            && sealed.fields.iv == iv && sealed.fields.suite.nonce == nonce
            && sealed.fields.suite.recipient == x.compress(curve, recipient)
            && sealed.ephemeral == x.compress(curve, x.publicKey(curve, ephemeral))
            && sealed.fields.suite.cipher == box.fields.suite.cipher && sealed.fields.suite.kdf == box.fields.suite.kdf
            && sealed.fields.suite.curve == curve
            && sealed.version == box.version && sealed.guidSlot == box.guidSlot && sealed.plaintext == Some(plain)
  {
    hide LawfulPoints, LawfulAgreement, LawfulSharing, Pkcs7Pad;
  }

  /** Opening in terms of the primitives alone: it succeeds exactly if the AEAD opens to something well padded. */
  lemma OpeningIs(x: Crypto, box: PivBox, secret: Bytes)
    requires Lawful(x) && |box.fields.iv| == 12 && |box.fields.ciphertext| >= 16
    ensures var digest := x.sha512(secret + box.fields.suite.nonce);
            && |digest| == 64
            && match x.aeadOpen(digest[..32], box.fields.iv, box.fields.ciphertext)
               case None => Opened(x, box, secret) == Failure(CryptoFailure)
               case Some(padded) =>
                 if WellPadded(padded, 16)
                 then Opened(x, box, secret) == Success(box.(plaintext := Some(padded[..|padded| - padded[|padded| - 1] as int])))
                 else Opened(x, box, secret) == Failure(BadPadding)
  {
    hide LawfulPoints, LawfulAgreement, LawfulSharing;
  }

  // --- somebody else's secret -----------------------------------------------------------

  /** The keys derived from `s` and `t` differ, and the AEAD refuses under the one what was sealed under the other. */
  ghost predicate KeepsApart(x: Crypto, s: Bytes, t: Bytes, nonce: Bytes, iv: Bytes, m: Bytes) {
    var (d, e) := (x.sha512(s + nonce), x.sha512(t + nonce));
    |d| == |e| == 64 && |iv| == 12 ==> d[..32] != e[..32] && x.aeadOpen(e[..32], iv, x.aeadSeal(d[..32], iv, m)) == None
  }

  /**
   * Among the secrets in play, SHA-512 does not collide in its first half, and the AEAD refuses
   * what was sealed under a key derived from another of them.
   */
  ghost predicate TellsApart(x: Crypto, secrets: iset<Bytes>) {
    forall s, t, nonce, iv, m :: s in secrets && t in secrets && s != t ==> KeepsApart(x, s, t, nonce, iv, m)
  }

  /** A sealed box, wherever it has been, opens with a secret in play exactly if that is its recipient's. */
  lemma OpensOnlyWithItsSecret(
      x: Crypto, box: PivBox, recipient: Bytes, ephemeral: Bytes, nonce: Bytes, iv: Bytes, arrived: PivBox,
      secret: Bytes, secrets: iset<Bytes>)
    requires Lawful(x) && box.plaintext.Some? && |iv| == IV_LEN && TellsApart(x, secrets)
    requires arrived.fields == Sealed(x, box, recipient, ephemeral, nonce, iv).value.fields
    requires secret in secrets && x.agree(box.fields.suite.curve, ephemeral, recipient) in secrets
    ensures var right := x.agree(box.fields.suite.curve, ephemeral, recipient);
            Opened(x, arrived, secret) ==
            if secret == right then Success(arrived.(plaintext := box.plaintext)) else Failure(CryptoFailure)
  {
    hide LawfulPoints, LawfulAgreement, LawfulSharing, Sealed, Opened, TellsApart;
    var plain, right := box.plaintext.value, x.agree(box.fields.suite.curve, ephemeral, recipient);
    SealIs(x, box, recipient, ephemeral, nonce, iv, plain);
    OpeningIs(x, arrived, secret);
    PaddingRoundTrips(plain, 16);
    if secret != right { ForeignKeyFails(x, secrets, right, secret, nonce, iv, Pkcs7Pad(plain, 16)); }
  }

  lemma ForeignKeyFails(x: Crypto, secrets: iset<Bytes>, s: Bytes, t: Bytes, nonce: Bytes, iv: Bytes, m: Bytes)
    requires LawfulCiphers(x) && TellsApart(x, secrets) && s in secrets && t in secrets && s != t && |iv| == 12
    ensures |x.sha512(s + nonce)| == 64 && |x.sha512(t + nonce)| == 64
    ensures x.aeadOpen(x.sha512(t + nonce)[..32], iv, x.aeadSeal(x.sha512(s + nonce)[..32], iv, m)) == None
  {
    assert KeepsApart(x, s, t, nonce, iv, m);
  }

  // --- the box as an object -------------------------------------------------------------

  class SealedBox {
    const crypto: Crypto
    var value: PivBox

    constructor (crypto: Crypto, curve: Curve)
      ensures this.crypto == crypto && value == EmptyBox(curve)
    {
      this.crypto, value := crypto, EmptyBox(curve);
    }

    method SetData(data: Bytes)
      modifies this
      ensures value == old(value).(plaintext := Some(data))
    {
      value := value.(plaintext := Some(data));
    }

    /** The plaintext leaves the box: a second call finds nothing. */
    method TakeData() returns (result: Outcome<Bytes>)
      modifies this
      ensures value == old(value).(plaintext := None)
      ensures result == if old(value).plaintext.Some? then Success(old(value).plaintext.value) else Failure(NotOpened)
    {
      if value.plaintext.None? { return Failure(NotOpened); }
      result := Success(value.plaintext.value);
      value := value.(plaintext := None);
    }

    method SealOfflineWithEphemeral(
        recipient: Bytes, ephemeral: Bytes, nonce: Bytes, iv: Bytes) returns (result: Outcome<()>)
      requires |iv| == IV_LEN
      modifies this
      ensures var expected := Sealed(crypto, old(value), recipient, ephemeral, nonce, iv);
              if expected.Success? then result == Success(()) && value == expected.value
              else result == Failure(expected.error) && value == old(value)
      ensures var curve := old(value).fields.suite.curve;
              var digest := crypto.sha512(crypto.agree(curve, ephemeral, recipient) + nonce);
              old(value).plaintext.Some? && |digest| == 64 ==>
                value.fields.ciphertext == crypto.aeadSeal(digest[..32], iv, Pkcs7Pad(old(value).plaintext.value, 16))
    {
      if value.plaintext.None? { return Failure(NotSealed); }
      var curve := value.fields.suite.curve;
      value := value.(fields := value.fields.(suite := value.fields.suite.(recipient := crypto.compress(curve, recipient))));
      value := value.(ephemeral := crypto.compress(curve, crypto.publicKey(curve, ephemeral)));
      var secret := crypto.agree(curve, ephemeral, recipient);
      value := value.(fields := value.fields.(suite := value.fields.suite.(nonce := nonce), iv := iv));
      var padded := Pkcs7Pad(value.plaintext.value, 16);
      value := value.(fields := value.fields.(ciphertext := crypto.aeadSeal(BoxKey(crypto, secret, nonce), iv, padded)));
      return Success(());
    }

    method OpenWithSecret(secret: Bytes) returns (result: Outcome<()>)
      modifies this
      ensures var expected := Opened(crypto, old(value), secret);
              if expected.Success? then result == Success(()) && value == expected.value
              else result == Failure(expected.error) && value == old(value)
      ensures var digest := crypto.sha512(secret + old(value).fields.suite.nonce);
              |digest| == 64 && crypto.aeadOpen(digest[..32], old(value).fields.iv, old(value).fields.ciphertext).None? ==>
                result == Failure(CryptoFailure) && value == old(value)
    {
      if |value.fields.iv| != IV_LEN { return Failure(CryptoFailure); }
      if |value.fields.ciphertext| < 16 { return Failure(CryptoFailure); }
      var padded := crypto.aeadOpen(BoxKey(crypto, secret, value.fields.suite.nonce), value.fields.iv, value.fields.ciphertext);
      if padded.None? { return Failure(CryptoFailure); }
      var plain :- Pkcs7Unpad(padded.value, 16);
      value := value.(plaintext := Some(plain));
      return Success(());
    }

    /** With the private key at hand: agree with the ephemeral key the box carries. */
    method OpenOffline(private: Bytes) returns (result: Outcome<()>)
      modifies this
      ensures var curve := old(value).fields.suite.curve;
              var point := crypto.parsePoint(curve, old(value).ephemeral);
              var expected := if point.None? then Failure(CryptoFailure) else Opened(crypto, old(value), crypto.agree(curve, private, point.value));
              if expected.Success? then result == Success(()) && value == expected.value
              else result == Failure(expected.error) && value == old(value)
    {
      var curve := value.fields.suite.curve;
      var point := crypto.parsePoint(curve, value.ephemeral);
      if point.None? { return Failure(CryptoFailure); }
      result := OpenWithSecret(crypto.agree(curve, private, point.value));
    }
  }

  /** Seal, write, read, open with the private key: the data that was put in. */
  lemma BoxCarriesItsData(
      x: Crypto, box: PivBox, private: Bytes, ephemeral: Bytes, nonce: Bytes, iv: Bytes, rest: Bytes)
    requires Lawful(x) && box.plaintext.Some? && |iv| == IV_LEN && |nonce| == NONCE_LEN && box.version == BOX_VERSION
    requires FitsCstring8(box.fields.suite.cipher) && FitsCstring8(box.fields.suite.kdf)
    requires |box.plaintext.value| < TWO_32 - 32
    ensures var curve := box.fields.suite.curve;
            var sealed := Sealed(x, box, x.publicKey(curve, private), ephemeral, nonce, iv).value;
            && PutPivBox(sealed).Success?
            && GetPivBox(PutPivBox(sealed).value + rest).Success?
            && var arrived := GetPivBox(PutPivBox(sealed).value + rest).value.0;
            && x.parsePoint(curve, arrived.ephemeral) == Some(x.publicKey(curve, ephemeral))
            && Opened(x, arrived, x.agree(curve, private, x.publicKey(curve, ephemeral))) == Success(arrived.(plaintext := box.plaintext))
  {
    hide PutPivBox, GetPivBox, LawfulSharing;
    var curve := box.fields.suite.curve;
    var sealed := Sealed(x, box, x.publicKey(curve, private), ephemeral, nonce, iv).value;
    PaddingRoundTrips(box.plaintext.value, 16);
    assert |x.compress(curve, x.publicKey(curve, private))| <= 49 && |x.compress(curve, x.publicKey(curve, ephemeral))| <= 49;
    assert BoxFits(sealed);
    BoxRoundTripsIff(sealed, rest);
    SealedOpens(x, box, private, ephemeral, nonce, iv, NormBox(sealed));
  }
}
