/** The command-APDU and BER-TLV parsers of the virtual card (crates/fibby/src/virtual_card.rs). */
module ApduParse {
  import opened Base

  // --- lengths and TLVs -----------------------------------------------------

  /** How many bytes the length takes, and the length. */
  datatype Length = Length(octets: nat, len: nat)

  function BerLen(b: Bytes): (r: Option<Length>)
    ensures r.Some? ==> r.value.octets <= |b| && r.value.octets > 0
  {
    if b == [] then None
    else if b[0] < 0x80 then Some(Length(1, b[0]))
    else if b[0] == 0x81 && |b| > 1 then Some(Length(2, b[1]))
    else None
  }

  datatype Tlv = Tlv(tag: Byte, value: Bytes)

  /** The first TLV of `b` and what follows it. */
  function SplitTlv(b: Bytes): (r: Option<(Tlv, Bytes)>)
    ensures r.Some? ==> |r.value.1| < |b|
  {
    if b == [] then None
    else match BerLen(b[1..])
      case None => None
      case Some(l) =>
        var start := 1 + l.octets;
        if |b| < start + l.len then None
        else Some((Tlv(b[0], b[start..start + l.len]), b[start + l.len..]))
  }

  /** The longest run of well-formed TLVs at the front of `b`. */
  function TlvPrefix(b: Bytes): seq<Tlv>
    decreases |b|
  {
    match SplitTlv(b)
    case None => []
    case Some((tlv, rest)) => [tlv] + TlvPrefix(rest)
  }

  /** What is left of `b` after that run. */
  function TlvTail(b: Bytes): Bytes
    decreases |b|
  {
    match SplitTlv(b)
    case None => b
    case Some((_, rest)) => TlvTail(rest)
  }

  // --- APDU framing (ISO 7816-4 short and extended forms) ---------------------

  function ApduBody(apdu: Bytes): Option<Bytes> {
    if |apdu| < 5 then None
    else if apdu[4] == 0 && |apdu| >= 7 then
      var lc := 256 * (apdu[5] as int) + apdu[6] as int;
      if lc == 0 || |apdu| < 7 + lc then None else Some(apdu[7..7 + lc])
    else
      var lc := apdu[4] as int;
      if lc == 0 || |apdu| < 5 + lc then None else Some(apdu[5..5 + lc])
  }

  datatype Header = Header(cla: Byte, ins: Byte, p1: Byte, p2: Byte)

  function HeaderBytes(h: Header): Bytes { [h.cla, h.ins, h.p1, h.p2] }

  /** A command carrying `data`; `le` is whatever response-length field the client appends. */
  function ShortApdu(h: Header, data: Bytes, le: Bytes): Bytes
    requires 1 <= |data| <= 255
  {
    HeaderBytes(h) + [|data|] + data + le
  }

  function ExtendedApdu(h: Header, data: Bytes, le: Bytes): Bytes
    requires 1 <= |data| <= 0xFFFF
  {
    HeaderBytes(h) + [0, |data| / 256, |data| % 256] + data + le
  }

  /** Both encodings carry every data field of a length they can express. */
  lemma ApduCarriesItsData(h: Header, data: Bytes, le: Bytes)
    requires 1 <= |data| <= 0xFFFF
    ensures |data| <= 255 ==>
              ApduBody(ShortApdu(h, data, le)) == Some(data) && ShortApdu(h, data, le)[..4] == HeaderBytes(h)
    ensures ApduBody(ExtendedApdu(h, data, le)) == Some(data) && ExtendedApdu(h, data, le)[..4] == HeaderBytes(h)
  {
    if |data| <= 255 {
      assert ShortApdu(h, data, le)[5..5 + |data|] == data;
    }
    assert ExtendedApdu(h, data, le)[7..7 + |data|] == data;
  }

  // --- object tags and 53-wrapped objects -------------------------------------

  function Parse5cTag(body: Bytes): Option<(Bytes, Bytes)> {
    if |body| < 2 || body[0] != 0x5C then None
    else
      var n := body[1] as int;
      if n == 0 || |body| < 2 + n then None else Some((body[2..2 + n], body[2 + n..]))
  }

  /** The whole 53 object at the front of `body`, header included, and what follows it. */
  function Split53(body: Bytes): Option<(Bytes, Bytes)> {
    if |body| < 2 || body[0] != 0x53 then None
    else
      var first := body[1] as int;
      if first < 0x80 then Take(body, 2 + first)
      else if first == 0x81 then (if |body| < 3 then None else Take(body, 3 + body[2] as int))
      else if first == 0x82 then (if |body| < 4 then None else Take(body, 4 + 256 * (body[2] as int) + body[3] as int))
      else None
  }

  function Take(body: Bytes, total: nat): Option<(Bytes, Bytes)> {
    if |body| < total then None else Some((body[..total], body[total..]))
  }

  function TagField(tag: Bytes): Bytes
    requires 1 <= |tag| <= 255
  {
    [0x5C, |tag|] + tag
  }

  /** The three length forms a 53 object may use. */
  datatype LengthForm = OneByte | Form81 | Form82

  predicate FitsForm(form: LengthForm, n: nat) {
    match form
    case OneByte => n < 0x80
    case Form81 => n < 0x100
    case Form82 => n < 0x1_0000
  }

  function Object53(form: LengthForm, payload: Bytes): Bytes
    requires FitsForm(form, |payload|)
  {
    var n := |payload|;
    match form
    case OneByte => [0x53, n] + payload
    case Form81 => [0x53, 0x81, n] + payload
    case Form82 => [0x53, 0x82, n / 256, n % 256] + payload
  }

  /** A tag field and a 53 object of any length form split back into what was written. */
  lemma ObjectFieldSplits(tag: Bytes, form: LengthForm, payload: Bytes, trailing: Bytes)
    requires 1 <= |tag| <= 255 && FitsForm(form, |payload|)
    ensures Parse5cTag(TagField(tag) + trailing) == Some((tag, trailing))
    ensures Split53(Object53(form, payload) + trailing) == Some((Object53(form, payload), trailing))
  {
    var field := TagField(tag) + trailing;
    assert field[2..2 + |tag|] == tag && field[2 + |tag|..] == trailing;
    var written := Object53(form, payload) + trailing;
    var total := |Object53(form, payload)|;
    assert written[..total] == Object53(form, payload) && written[total..] == trailing;
  }

  // --- GENERAL AUTHENTICATE -----------------------------------------------------

  /** The contents of the template tagged `tag` that starts `body`. */
  function Template(body: Bytes, tag: Byte): Option<Bytes> {
    if body == [] || body[0] != tag then None
    else match BerLen(body[1..])
      case None => None
      case Some(l) =>
        var start := 1 + l.octets;
        if |body| < start + l.len then None else Some(body[start..start + l.len])
  }

  /** The value of the first TLV tagged `tag`, if only well-formed TLVs precede it. */
  function FirstValue(tlvs: seq<Tlv>, tag: Byte): Option<Bytes> {
    if tlvs == [] then None
    else if tlvs[0].tag == tag then Some(tlvs[0].value)
    else FirstValue(tlvs[1..], tag)
  }

  function GaValue(body: Bytes, tag: Byte): Option<Bytes> {
    match Template(body, 0x7C)
    case None => None
    case Some(inner) => FirstValue(TlvPrefix(inner), tag)
  }

  /** The host-computed prehash of a signing request: any length but zero. */
  function GaSignRequest(body: Bytes): Option<Bytes> {
    match GaValue(body, 0x81)
    case Some(v) => if v == [] then None else Some(v)
    case None => None
  }

  /** The client's uncompressed P-256 point of a key-agreement request. */
  function GaEcdhRequest(body: Bytes): Option<Bytes> {
    match GaValue(body, 0x85)
    case Some(v) => if |v| == 65 && v[0] == 0x04 then Some(v) else None
    case None => None
  }

  /** The cursor loop both requests share. */
  method FindGaValue(body: Bytes, tag: Byte) returns (r: Option<Bytes>)
    ensures r == GaValue(body, tag)
  {
    var template := Template(body, 0x7C);
    if template.None? { return None; }
    var cur := template.value;
    while cur != []
      invariant GaValue(body, tag) == FirstValue(TlvPrefix(cur), tag)
      decreases |cur|
    {
      var split := SplitTlv(cur);
      if split.None? { return None; }
      var (tlv, rest) := split.value;
      assert TlvPrefix(cur) == [tlv] + TlvPrefix(rest);
      if tlv.tag == tag { return Some(tlv.value); }
      cur := rest;
    }
    return None;
  }

  method ParseGaSignRequest(body: Bytes) returns (r: Option<Bytes>)
    ensures r == GaSignRequest(body)
  {
    r := FindGaValue(body, 0x81);
    if r.Some? && r.value == [] { r := None; }
  }

  method ParseGaEcdhRequest(body: Bytes) returns (r: Option<Bytes>)
    ensures r == GaEcdhRequest(body)
  {
    r := FindGaValue(body, 0x85);
    if r.Some? && !(|r.value| == 65 && r.value[0] == 0x04) { r := None; }
  }

  // --- GENERATE and IMPORT --------------------------------------------------------

  const TAG_PIN_POLICY: Byte := 0xAA
  const TAG_TOUCH_POLICY: Byte := 0xAB

  /** A policy tag whose value is not exactly one byte spoils the request. */
  predicate PoliciesWellFormed(tlvs: seq<Tlv>) {
    forall t :: t in tlvs && t.tag in {TAG_PIN_POLICY, TAG_TOUCH_POLICY} ==> |t.value| == 1
  }

  /** The last byte of the last non-empty value tagged `tag`. */
  function LastByte(tlvs: seq<Tlv>, tag: Byte): Option<Byte> {
    if tlvs == [] then None
    else
      var t := tlvs[|tlvs| - 1];
      if t.tag == tag && t.value != [] then Some(t.value[|t.value| - 1])
      else LastByte(tlvs[..|tlvs| - 1], tag)
  }

  lemma LastByteOfOneMore(tlvs: seq<Tlv>, t: Tlv, tag: Byte)
    ensures LastByte(tlvs + [t], tag) ==
            if t.tag == tag && t.value != [] then Some(t.value[|t.value| - 1]) else LastByte(tlvs, tag)
  {
    assert (tlvs + [t])[..|tlvs|] == tlvs;
  }

  /** What a TLV loop has collected once it has seen `tlvs`. */
  ghost predicate Collected(tlvs: seq<Tlv>, pin: Option<Byte>, touch: Option<Byte>) {
    PoliciesWellFormed(tlvs) && pin == LastByte(tlvs, TAG_PIN_POLICY) && touch == LastByte(tlvs, TAG_TOUCH_POLICY)
  }

  lemma CollectedOneMore(tlvs: seq<Tlv>, t: Tlv, pin: Option<Byte>, touch: Option<Byte>)
    requires Collected(tlvs, pin, touch)
    requires t.tag in {TAG_PIN_POLICY, TAG_TOUCH_POLICY} ==> |t.value| == 1
    ensures Collected(tlvs + [t],
                      if t.tag == TAG_PIN_POLICY then Some(t.value[0]) else pin,
                      if t.tag == TAG_TOUCH_POLICY then Some(t.value[0]) else touch)
  {
    LastByteOfOneMore(tlvs, t, TAG_PIN_POLICY);
    LastByteOfOneMore(tlvs, t, TAG_TOUCH_POLICY);
  }

  /** The cursor's TLV joins those already seen. */
  lemma NextTlv(all: seq<Tlv>, seen: seq<Tlv>, cur: Bytes)
    requires all == seen + TlvPrefix(cur) && SplitTlv(cur).Some?
    ensures var (tlv, rest) := SplitTlv(cur).value;
            tlv in all && all == seen + [tlv] + TlvPrefix(rest) && TlvTail(cur) == TlvTail(rest)
  {
    var (tlv, rest) := SplitTlv(cur).value;
    assert all[|seen|] == tlv;
    assert all == seen + [tlv] + TlvPrefix(rest);
  }

  datatype GenerateRequest = GenerateRequest(alg: Byte, pin: Option<Byte>, touch: Option<Byte>)

  const TAG_ALGORITHM: Byte := 0x80

  function GenerateFields(body: Bytes): Option<GenerateRequest> {
    match Template(body, 0xAC)
    case None => None
    case Some(inner) =>
      var tlvs := TlvPrefix(inner);
      var alg := LastByte(tlvs, TAG_ALGORITHM);
      if TlvTail(inner) != [] || !PoliciesWellFormed(tlvs) || Tlv(TAG_ALGORITHM, []) in tlvs || alg.None? then None
      else Some(GenerateRequest(alg.value, LastByte(tlvs, TAG_PIN_POLICY), LastByte(tlvs, TAG_TOUCH_POLICY)))
  }

  method ParseGenerateRequest(body: Bytes) returns (r: Option<GenerateRequest>)
    ensures r == GenerateFields(body)
  {
    var template := Template(body, 0xAC);
    if template.None? { return None; }
    var cur := template.value;
    var alg: Option<Byte>, pin: Option<Byte>, touch: Option<Byte> := None, None, None;
    ghost var all, seen: seq<Tlv> := TlvPrefix(cur), [];
    while cur != []
      invariant all == seen + TlvPrefix(cur) && TlvTail(template.value) == TlvTail(cur)
      invariant Collected(seen, pin, touch)
      invariant alg == LastByte(seen, TAG_ALGORITHM) && Tlv(TAG_ALGORITHM, []) !in seen
      decreases |cur|
    {
      var split := SplitTlv(cur);
      if split.None? { return None; }
      var (tlv, rest) := split.value;
      NextTlv(all, seen, cur);
      LastByteOfOneMore(seen, tlv, TAG_ALGORITHM);
      if tlv.tag == TAG_ALGORITHM {
        if tlv.value == [] { return None; }
        alg := Some(tlv.value[|tlv.value| - 1]);
      } else if tlv.tag == TAG_PIN_POLICY || tlv.tag == TAG_TOUCH_POLICY {
        if |tlv.value| != 1 { return None; }
      }
      CollectedOneMore(seen, tlv, pin, touch);
      if tlv.tag == TAG_PIN_POLICY { pin := Some(tlv.value[0]); }
      if tlv.tag == TAG_TOUCH_POLICY { touch := Some(tlv.value[0]); }
      seen, cur := seen + [tlv], rest;
    }
    assert seen == all;
    if alg.None? { return None; }
    return Some(GenerateRequest(alg.value, pin, touch));
  }

  datatype ImportRequest = ImportRequest(scalar: Bytes, pin: Option<Byte>, touch: Option<Byte>)

  /** The field of `06 <len> <value>` that starts `body`, and what follows it. */
  function ScalarField(body: Bytes): Option<(Bytes, Bytes)> {
    if |body| < 2 || body[0] != 0x06 then None
    else
      var end := 2 + body[1] as int;
      if |body| < end then None else Some((body[2..end], body[end..]))
  }

  /** `IMPORT` in terms of numbers: the 32-byte form of the field's value, if it has one. */
  function ImportFields(body: Bytes): Option<ImportRequest> {
    match ScalarField(body)
    case None => None
    case Some((field, trailing)) =>
      var tlvs := TlvPrefix(trailing);
      if ToNat(field) >= Pow256(32) || !PoliciesWellFormed(tlvs) then None
      else Some(ImportRequest(BigEndian(ToNat(field), 32),
                              LastByte(tlvs, TAG_PIN_POLICY), LastByte(tlvs, TAG_TOUCH_POLICY)))
  }

  function Zeros(n: nat): Bytes { seq(n, _ => 0) }

  lemma {:induction false} PaddingKeepsTheNumber(b: Bytes, n: nat)
    ensures ToNat(Zeros(n) + b) == ToNat(b)
  {
    if n == 0 {
      assert Zeros(0) + b == b;
    } else {
      PaddingKeepsTheNumber(b, n - 1);
      ToNatLeadingZero(Zeros(n - 1) + b);
      assert Zeros(n) + b == [0] + (Zeros(n - 1) + b);
    }
  }

  lemma {:induction false} Pow256Monotone(m: nat, n: nat)
    requires m <= n
    ensures Pow256(m) <= Pow256(n)
  {
    if m < n { Pow256Monotone(m, n - 1); }
  }

  /**
   * Stripping the leading zeros of an over-long field and left-padding a short one
   * keeps the number; a field is refused for its size exactly when its number does
   * not fit 32 bytes.
   */
  method NormalizeScalar(field: Bytes) returns (r: Option<Bytes>)
    ensures r.None? <==> ToNat(field) >= Pow256(32)
    ensures r.Some? ==> |r.value| == 32 && ToNat(r.value) == ToNat(field)
    ensures r.Some? ==> r.value == BigEndian(ToNat(field), 32)
  {
    var val := field;
    while |val| > 32 && val[0] == 0
      invariant ToNat(val) == ToNat(field)
      decreases |val|
    {
      ToNatLeadingZero(val[1..]);
      assert val == [0] + val[1..];
      val := val[1..];
    }
    if |val| > 32 {
      ToNatLowerBound(val);
      Pow256Monotone(32, |val| - 1);
      return None;
    }
    PaddingKeepsTheNumber(val, 32 - |val|);
    ToNatBound(Zeros(32 - |val|) + val);
    ToNatBigEndian(Zeros(32 - |val|) + val);
    return Some(Zeros(32 - |val|) + val);
  }

  method ParseImportRequest(body: Bytes) returns (r: Option<ImportRequest>)
    ensures r == ImportFields(body)
  {
    var split := ScalarField(body);
    if split.None? { return None; }
    var scalar := NormalizeScalar(split.value.0);
    if scalar.None? { return None; }
    var cur := split.value.1;
    var pin: Option<Byte>, touch: Option<Byte> := None, None;
    ghost var all, seen: seq<Tlv> := TlvPrefix(cur), [];
    while true
      invariant all == seen + TlvPrefix(cur)
      invariant Collected(seen, pin, touch)
      decreases |cur|
    {
      var next := SplitTlv(cur);
      if next.None? { break; }
      var (tlv, rest) := next.value;
      NextTlv(all, seen, cur);
      if (tlv.tag == TAG_PIN_POLICY || tlv.tag == TAG_TOUCH_POLICY) && |tlv.value| != 1 { return None; }
      CollectedOneMore(seen, tlv, pin, touch);
      if tlv.tag == TAG_PIN_POLICY { pin := Some(tlv.value[0]); }
      if tlv.tag == TAG_TOUCH_POLICY { touch := Some(tlv.value[0]); }
      seen, cur := seen + [tlv], rest;
    }
    assert seen == all;
    return Some(ImportRequest(scalar.value, pin, touch));
  }
}
