/** Curves and sealed boxes, and a box's own wire form (crates/piggy-box/src/piv_box.rs). */
module BoxFormat {
  import opened Base
  import opened Wire

  type Guid = g: Bytes | |g| == 16 witness [0, 0, 0, 0, 0, 0, 0, 0, 0, 0, 0, 0, 0, 0, 0, 0]

  datatype Curve = NistP256 | NistP384

  function NameP256(): Bytes { [0x6E, 0x69, 0x73, 0x74, 0x70, 0x32, 0x35, 0x36] }
  function NameP384(): Bytes { [0x6E, 0x69, 0x73, 0x74, 0x70, 0x33, 0x38, 0x34] }

  lemma NamesAreText()
    ensures Utf8(NameP256()) && Utf8(NameP384())
  {
    hide Utf8;
    AsciiIsUtf8(NameP256());
    AsciiIsUtf8(NameP384());
  }

  function WireName(curve: Curve): (name: Text)
    ensures FitsCstring8(name)
  {
    NamesAreText();
    match curve
    case NistP256 => NameP256()
    case NistP384 => NameP384()
  }

  function CurveNamed(name: Bytes): Outcome<Curve> {
    if name == WireName(NistP256) then Success(NistP256)
    else if name == WireName(NistP384) then Success(NistP384)
    else Failure(UnsupportedCurve)
  }

  lemma CurveNamesRoundTrip(curve: Curve, name: Bytes)
    ensures CurveNamed(name) == Success(curve) <==> name == WireName(curve)
  {
    assert NameP256()[5] != NameP384()[5];
  }

  /** How a box is encrypted and to whom: the fields that come first wherever a box is written. */
  datatype Suite = Suite(cipher: Text, kdf: Text, nonce: Bytes, curve: Curve, recipient: Bytes)

  /** The fields a box carries both on its own and inside an ebox part. */
  datatype BoxFields = BoxFields(suite: Suite, iv: Bytes, ciphertext: Bytes)

  datatype PivBox = PivBox(
    version: Byte, guidSlot: Option<(Guid, Byte)>, fields: BoxFields, ephemeral: Bytes, plaintext: Option<Bytes>)

  const BOX_VERSION: Byte := 2

  // --- the suite and the payload ----------------------------------------------------

  predicate SuiteFits(version: Byte, s: Suite) {
    && FitsCstring8(s.cipher) && FitsCstring8(s.kdf) && FitsString8(s.recipient)
    && (if version >= 2 then FitsString8(s.nonce) else s.nonce == [])
  }

  predicate FieldsFit(version: Byte, f: BoxFields) {
    SuiteFits(version, f.suite) && FitsString8(f.iv) && FitsString32(f.ciphertext)
  }

  /** Version 1 boxes carry no nonce. */
  function PutNonce(version: Byte, nonce: Bytes): Outcome<Bytes> {
    if version >= 2 then String8(nonce) else Success([])
  }

  function GetNonce(version: Byte, b: Bytes): (r: Parsed<Bytes>)
    ensures r.Success? ==> |r.value.1| <= |b|
  {
    if version >= 2 then GetString8(b) else Success(([], b))
  }

  function PutSuite(version: Byte, s: Suite): Outcome<Bytes> {
    var cipher :- Cstring8(s.cipher);
    var kdf :- Cstring8(s.kdf);
    var nonce :- PutNonce(version, s.nonce);
    var curve :- Cstring8(WireName(s.curve));
    var recipient :- String8(s.recipient);
    Success(cipher + kdf + nonce + curve + recipient)
  }

  function GetSuite(version: Byte, b: Bytes): (r: Parsed<Suite>)
    ensures r.Success? ==> |r.value.1| < |b| && SuiteFits(version, r.value.0)
  {
    var cipher :- GetCstring8(b);
    var kdf :- GetCstring8(cipher.1);
    var nonce :- GetNonce(version, kdf.1);
    var name :- GetCstring8(nonce.1);
    var curve :- CurveNamed(name.0);
    var recipient :- GetString8(name.1);
    Success((Suite(cipher.0, kdf.0, nonce.0, curve, recipient.0), recipient.1))
  }

  function PutPayload(iv: Bytes, ciphertext: Bytes): Outcome<Bytes> {
    var head :- String8(iv);
    Success(head + String32(ciphertext))
  }

  /** The initialisation vector and the ciphertext. */
  function GetPayload(b: Bytes): (r: Parsed<(Bytes, Bytes)>)
    ensures r.Success? ==> |r.value.1| < |b| && FitsString8(r.value.0.0) && FitsString32(r.value.0.1)
  {
    var iv :- GetString8(b);
    var ciphertext :- GetString(iv.1);
    Success(((iv.0, ciphertext.0), ciphertext.1))
  }

  lemma Cstring8Reads(text: Text, rest: Bytes, b: Bytes)
    requires FitsCstring8(text) && b == Cstring8(text).value + rest
    ensures GetCstring8(b) == Success((text, rest))
  {
    Cstring8RoundTrips(text, rest);
  }

  lemma String8Reads(data: Bytes, rest: Bytes, b: Bytes)
    requires FitsString8(data) && b == String8(data).value + rest
    ensures GetString8(b) == Success((data, rest))
  {
    String8RoundTrips(data, rest);
  }

  lemma SuiteReads(version: Byte, s: Suite, rest: Bytes, b: Bytes)
    requires SuiteFits(version, s) && PutSuite(version, s).Success? && b == PutSuite(version, s).value + rest
    ensures GetSuite(version, b) == Success((s, rest))
  {
    hide GetCstring8, Cstring8, GetString8, String8, CurveNamed, WireName, Utf8;
    var tail5 := String8(s.recipient).value + rest;
    var tail4 := Cstring8(WireName(s.curve)).value + tail5;
    var tail3 := PutNonce(version, s.nonce).value + tail4;
    var tail2 := Cstring8(s.kdf).value + tail3;
    assert b == Cstring8(s.cipher).value + tail2;
    Cstring8Reads(s.cipher, tail2, b);
    Cstring8Reads(s.kdf, tail3, tail2);
    if version >= 2 { String8Reads(s.nonce, tail4, tail3); } else { assert tail3 == tail4; }
    Cstring8Reads(WireName(s.curve), tail5, tail4);
    CurveNamesRoundTrip(s.curve, WireName(s.curve));
    String8Reads(s.recipient, rest, tail5);
  }

  lemma PayloadReads(iv: Bytes, ciphertext: Bytes, rest: Bytes, b: Bytes)
    requires FitsString8(iv) && FitsString32(ciphertext) && b == PutPayload(iv, ciphertext).value + rest
    ensures GetPayload(b) == Success(((iv, ciphertext), rest))
  {
    hide GetString8, GetString, String32;
    assert b == String8(iv).value + (String32(ciphertext) + rest);
    String8Reads(iv, String32(ciphertext) + rest, b);
    String32RoundTripsIff(ciphertext, rest);
  }

  lemma SuiteWrites(version: Byte, s: Suite)
    requires SuiteFits(version, s)
    ensures PutSuite(version, s).Success?
  {
    hide WireName, Utf8;
  }

  // --- a box on its own -------------------------------------------------------------

  function PutGuidSlot(guidSlot: Option<(Guid, Byte)>): Bytes {
    match guidSlot
    case Some((guid, slot)) => [1, 16] + guid + [slot]
    case None => [0, 0, 0]
  }

  function GetGuidSlot(b: Bytes): Parsed<Option<(Guid, Byte)>> {
    var valid :- GetU8(b);
    var guid :- GetString8(valid.1);
    if valid.0 != 0 && |guid.0| != 16 then Failure(BadGuid)
    else
      var slot :- GetU8(guid.1);
      Success((if valid.0 != 0 then Some((guid.0, slot.0)) else None, slot.1))
  }

  /** Magic and version. */
  function GetBoxHeader(b: Bytes): Parsed<Byte> {
    var hi :- GetU8(b);
    var lo :- GetU8(hi.1);
    if (hi.0, lo.0) != (0xB0, 0xC5) then Failure(BadMagic)
    else
      var version :- GetU8(lo.1);
      if !(1 <= version.0 <= BOX_VERSION) then Failure(UnsupportedVersion(version.0)) else Success(version)
  }

  function PutPivBox(box: PivBox): Outcome<Bytes> {
    var suite :- PutSuite(box.version, box.fields.suite);
    var ephemeral :- String8(box.ephemeral);
    var payload :- PutPayload(box.fields.iv, box.fields.ciphertext);
    Success([0xB0, 0xC5, box.version] + PutGuidSlot(box.guidSlot) + suite + ephemeral + payload)
  }

  function GetPivBox(b: Bytes): Parsed<PivBox> {
    var version :- GetBoxHeader(b);
    var guidSlot :- GetGuidSlot(version.1);
    var suite :- GetSuite(version.0, guidSlot.1);
    var ephemeral :- GetString8(suite.1);
    var payload :- GetPayload(ephemeral.1);
    Success((PivBox(version.0, guidSlot.0, BoxFields(suite.0, payload.0.0, payload.0.1), ephemeral.0, None), payload.1))
  }

  function NormSuite(version: Byte, s: Suite): Suite { s.(nonce := if version >= 2 then s.nonce else []) }

  /** What a box is after the wire: never opened, and without a nonce in version 1. */
  function NormBox(box: PivBox): PivBox {
    box.(plaintext := None, fields := box.fields.(suite := NormSuite(box.version, box.fields.suite)))
  }

  predicate BoxFits(box: PivBox) {
    1 <= box.version <= BOX_VERSION && FieldsFit(box.version, NormBox(box).fields) && FitsString8(box.ephemeral)
  }

  lemma GuidSlotRoundTrips(guidSlot: Option<(Guid, Byte)>, rest: Bytes)
    ensures GetGuidSlot(PutGuidSlot(guidSlot) + rest) == Success((guidSlot, rest))
  {
    var b := PutGuidSlot(guidSlot) + rest;
    match guidSlot
    case Some((guid, slot)) =>
      assert b[1..] == [16] + guid + ([slot] + rest);
      String8RoundTrips(guid, [slot] + rest);
    case None =>
      assert b[1..] == [0] + [] + ([0] + rest);
      String8RoundTrips([], [0] + rest);
  }

  lemma BoxBytesReadBack(box: PivBox, rest: Bytes)
    requires BoxFits(box) && PutPivBox(box).Success?
    ensures GetPivBox(PutPivBox(box).value + rest) == Success((NormBox(box), rest))
  {
    hide GetGuidSlot, PutGuidSlot, GetSuite, PutSuite, GetPayload, PutPayload, GetString8, SuiteFits, FitsString8;
    var suite := NormSuite(box.version, box.fields.suite);
    assert PutSuite(box.version, suite) == PutSuite(box.version, box.fields.suite) by { NormSuiteWritesTheSame(box.version, box.fields.suite); }
    var tail4 := PutPayload(box.fields.iv, box.fields.ciphertext).value + rest;
    var tail3 := String8(box.ephemeral).value + tail4;
    var tail2 := PutSuite(box.version, suite).value + tail3;
    var tail1 := PutGuidSlot(box.guidSlot) + tail2;
    var b := PutPivBox(box).value + rest;
    assert b == [0xB0, 0xC5, box.version] + tail1;
    assert b[1..][1..][1..] == tail1;
    GuidSlotRoundTrips(box.guidSlot, tail2);
    SuiteReads(box.version, suite, tail3, tail2);
    String8Reads(box.ephemeral, tail4, tail3);
    PayloadReads(box.fields.iv, box.fields.ciphertext, rest, tail4);
  }

  lemma NormSuiteWritesTheSame(version: Byte, s: Suite)
    ensures PutSuite(version, NormSuite(version, s)) == PutSuite(version, s)
  {
  }

  lemma ReadBoxesFit(b: Bytes)
    requires GetPivBox(b).Success?
    ensures BoxFits(GetPivBox(b).value.0) && NormBox(GetPivBox(b).value.0) == GetPivBox(b).value.0
  {
    hide GetSuite, GetPayload, GetGuidSlot, GetString8;
  }

  /** A box comes back from the wire, whatever follows it, exactly if everything in it fits its field. */
  lemma BoxRoundTripsIff(box: PivBox, rest: Bytes)
    ensures PutPivBox(box).Success? && GetPivBox(PutPivBox(box).value + rest) == Success((NormBox(box), rest))
            <==> BoxFits(box)
  {
    hide GetPivBox, WireName;
    if BoxFits(box) {
      assert PutPivBox(box).Success?;
      BoxBytesReadBack(box, rest);
    } else if PutPivBox(box).Success? && GetPivBox(PutPivBox(box).value + rest).Success? {
      ReadBoxesFit(PutPivBox(box).value + rest);
    }
  }
}
