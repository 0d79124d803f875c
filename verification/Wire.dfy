/** The length-prefixed fields every box format is built from (crates/piggy-box/src/wire.rs). */
module Wire {
  import opened Base

  datatype Error =
    | Truncated | InteriorNul | NotUtf8 | TooLong
    | UnknownTag(tag: Byte) | MissingPubkey | MissingBox | PrimaryThreshold(n: Byte)
    | BadMagic | UnsupportedVersion(version: Byte) | UnsupportedCurve | BadGuid
    | BadEboxType(kind: Byte) | BadConfigType(kind: Byte)
    | CryptoFailure | BadPadding | NotSealed | NotOpened | AlreadyUnlocked | NotUnlocked
    | UnlockFailed(reason: Option<Reason>) | ThresholdNotMet(have: nat, need: nat)
    | ChunkTooShort | HmacMismatch(seqnr: nat) | SequenceMismatch(expected: nat, got: nat)
    | InvalidAgentReply | Panicked

  /** Why the last unlocking attempt worth telling about failed. */
  datatype Reason = OracleSaid(text: Bytes) | OpenFailed(cause: Error) | OnlyRecoveryConfigs

  type Outcome<+T> = Result<T, Error>

  /** A value read from the front of a byte string, and what follows it. */
  type Parsed<+T> = Result<(T, Bytes), Error>

  // --- text -------------------------------------------------------------------

  predicate Continues(b: Byte) { 0x80 <= b <= 0xBF }

  /** The length of the well-formed UTF-8 sequence at the front of `b`; 0 if there is none. */
  function Utf8Lead(b: Bytes): (n: nat)
    ensures n <= |b| && n <= 4
  {
    if b == [] then 0
    else if b[0] < 0x80 then 1
    else if 0xC2 <= b[0] <= 0xDF && |b| >= 2 && Continues(b[1]) then 2
    else if |b| >= 3 && Continues(b[1]) && Continues(b[2]) && 0xE0 <= b[0] <= 0xEF
            && (b[0] == 0xE0 ==> b[1] >= 0xA0) && (b[0] == 0xED ==> b[1] < 0xA0) then 3
    else if |b| >= 4 && Continues(b[1]) && Continues(b[2]) && Continues(b[3]) && 0xF0 <= b[0] <= 0xF4
            && (b[0] == 0xF0 ==> b[1] >= 0x90) && (b[0] == 0xF4 ==> b[1] < 0x90) then 4
    else 0
  }

  predicate Utf8(b: Bytes) {
    b == [] || (Utf8Lead(b) > 0 && Utf8(b[Utf8Lead(b)..]))
  }

  /** A Rust `String`: always well-formed UTF-8, though it may hold a NUL. */
  type Text = b: Bytes | Utf8(b)

  lemma {:induction false} AsciiIsUtf8(b: Bytes)
    requires forall i :: 0 <= i < |b| ==> b[i] < 0x80
    ensures Utf8(b)
  {
    if b != [] { AsciiIsUtf8(b[1..]); }
  }

  // --- reading --------------------------------------------------------------------

  function Need(b: Bytes, n: nat): Parsed<Bytes> {
    if |b| < n then Failure(Truncated) else Success((b[..n], b[n..]))
  }

  function GetU8(b: Bytes): Parsed<Byte> {
    if b == [] then Failure(Truncated) else Success((b[0], b[1..]))
  }

  function GetU32(b: Bytes): Parsed<nat> {
    if |b| < 4 then Failure(Truncated) else Success((ToNat(b[..4]), b[4..]))
  }

  function GetU64(b: Bytes): Parsed<nat> {
    if |b| < 8 then Failure(Truncated) else Success((ToNat(b[..8]), b[8..]))
  }

  predicate FitsString8(b: Bytes) { |b| <= 255 }
  predicate FitsCstring8(b: Bytes) { |b| <= 255 && 0 !in b }
  predicate FitsString32(b: Bytes) { |b| < TWO_32 }

  function GetString8(b: Bytes): (r: Parsed<Bytes>)
    ensures r.Success? ==> |r.value.1| < |b| && FitsString8(r.value.0)
  {
    var len :- GetU8(b);
    Need(len.1, len.0)
  }

  function GetCstring8(b: Bytes): (r: Parsed<Text>)
    ensures r.Success? ==> |r.value.1| < |b| && FitsCstring8(r.value.0)
  {
    var raw :- GetString8(b);
    if 0 in raw.0 then Failure(InteriorNul)
    else if !Utf8(raw.0) then Failure(NotUtf8)
    else Success((raw.0, raw.1))
  }

  function GetString(b: Bytes): (r: Parsed<Bytes>)
    ensures r.Success? ==> |r.value.1| < |b| && FitsString32(r.value.0)
  {
    var len :- GetU32(b);
    PowersOf256();
    ToNatBound(b[..4]);
    Need(len.1, len.0)
  }

  // --- writing ----------------------------------------------------------------------

  function U32(v: nat): Bytes { BigEndian(v, 4) }
  function U64(v: nat): Bytes { BigEndian(v, 8) }

  function String8(data: Bytes): Outcome<Bytes> {
    if |data| > 255 then Failure(TooLong) else Success([|data|] + data)
  }

  function Cstring8(text: Bytes): Outcome<Bytes> {
    if 0 in text then Failure(InteriorNul) else String8(text)
  }

  /** The length is cast to a u32, dropping what does not fit. */
  function String32(data: Bytes): Bytes { U32(|data| % TWO_32) + data }

  /** Both byte strings, unless one of them could not be written. */
  function Then(first: Outcome<Bytes>, second: Outcome<Bytes>): Outcome<Bytes> {
    var a :- first;
    var b :- second;
    Success(a + b)
  }

  // --- what is written is what is read ---------------------------------------------------

  lemma U32RoundTrips(v: nat, rest: Bytes)
    requires v < TWO_32
    ensures GetU32(U32(v) + rest) == Success((v, rest))
  {
    PowersOf256();
    BigEndianToNat(v, 4);
    assert (U32(v) + rest)[..4] == U32(v) && (U32(v) + rest)[4..] == rest;
  }

  lemma U64RoundTrips(v: nat, rest: Bytes)
    requires v < TWO_64
    ensures GetU64(U64(v) + rest) == Success((v, rest))
  {
    PowersOf256();
    BigEndianToNat(v, 8);
    assert (U64(v) + rest)[..8] == U64(v) && (U64(v) + rest)[8..] == rest;
  }

  lemma String8RoundTrips(data: Bytes, rest: Bytes)
    requires |data| <= 255
    ensures GetString8([|data|] + data + rest) == Success((data, rest))
  {
    var b := [|data|] + data + rest;
    assert b[1..] == data + rest;
    assert (data + rest)[..|data|] == data && (data + rest)[|data|..] == rest;
  }

  /** Text survives exactly if it fits and holds no NUL: that is when it is written at all. */
  lemma Cstring8RoundTrips(text: Text, rest: Bytes)
    requires Cstring8(text).Success?
    ensures GetCstring8(Cstring8(text).value + rest) == Success((text, rest))
  {
    String8RoundTrips(text, rest);
  }

  /** A 32-bit string survives exactly if its length fits the prefix. */
  lemma String32RoundTripsIff(data: Bytes, rest: Bytes)
    ensures GetString(String32(data) + rest) == Success((data, rest)) <==> |data| < TWO_32
  {
    var b := String32(data) + rest;
    U32RoundTrips(|data| % TWO_32, data + rest);
    assert b == U32(|data| % TWO_32) + (data + rest);
    if |data| < TWO_32 {
      assert (data + rest)[..|data|] == data && (data + rest)[|data|..] == rest;
    }
  }

  /** Reading never makes up bytes: what was read, written again, is what was there. */
  lemma String8ReadsBack(b: Bytes)
    requires GetString8(b).Success?
    ensures var (data, rest) := GetString8(b).value; b == [|data|] + data + rest
  {
    var (data, rest) := GetString8(b).value;
    assert b[1..] == data + rest;
  }

  lemma Cstring8ReadsBack(b: Bytes)
    requires GetCstring8(b).Success?
    ensures var (text, rest) := GetCstring8(b).value; Cstring8(text).Success? && b == Cstring8(text).value + rest
  {
    String8ReadsBack(b);
  }

  lemma String32ReadsBack(b: Bytes)
    requires GetString(b).Success?
    ensures var (data, rest) := GetString(b).value; |data| < TWO_32 && b == String32(data) + rest
  {
    var (data, rest) := GetString(b).value;
    PowersOf256();
    ToNatBound(b[..4]);
    ToNatBigEndian(b[..4]);
    assert b[4..] == data + rest;
    assert b == b[..4] + b[4..];
  }

  // --- the cursor and the buffer -----------------------------------------------------------

  /** What a read method did: the value and the new rest, or the error, that the function says. */
  predicate Agrees<T(==)>(result: Outcome<T>, rest: Bytes, expected: Parsed<T>) {
    if expected.Success? then result == Success(expected.value.0) && rest == expected.value.1
    else result == Failure(expected.error)
  }

  class WireReader {
    const data: Bytes
    var pos: nat

    ghost predicate Valid()
      reads this
    {
      pos <= |data|
    }

    function Rest(): Bytes
      requires Valid()
      reads this
    {
      data[pos..]
    }

    constructor (data: Bytes)
      ensures this.data == data && Valid() && Rest() == data
    {
      this.data, pos := data, 0;
    }

    method Take(n: nat) returns (result: Outcome<Bytes>)
      requires Valid()
      modifies this
      ensures Valid() && Agrees(result, Rest(), Need(old(Rest()), n))
    {
      if |data| - pos < n { return Failure(Truncated); }
      pos := pos + n;
      assert old(Rest())[..n] == data[pos - n..pos];
      return Success(data[pos - n..pos]);
    }

    method ReadU8() returns (result: Outcome<Byte>)
      requires Valid()
      modifies this
      ensures Valid() && Agrees(result, Rest(), GetU8(old(Rest())))
    {
      if |data| - pos < 1 { return Failure(Truncated); }
      pos := pos + 1;
      return Success(data[pos - 1]);
    }

    method ReadU32() returns (result: Outcome<nat>)
      requires Valid()
      modifies this
      ensures Valid() && Agrees(result, Rest(), GetU32(old(Rest())))
    {
      var raw :- Take(4);
      return Success(ToNat(raw));
    }

    method ReadU64() returns (result: Outcome<nat>)
      requires Valid()
      modifies this
      ensures Valid() && Agrees(result, Rest(), GetU64(old(Rest())))
    {
      var raw :- Take(8);
      return Success(ToNat(raw));
    }

    method ReadString8() returns (result: Outcome<Bytes>)
      requires Valid()
      modifies this
      ensures Valid() && Agrees(result, Rest(), GetString8(old(Rest())))
    {
      var len :- ReadU8();
      result := Take(len);
    }

    method ReadCstring8() returns (result: Outcome<Text>)
      requires Valid()
      modifies this
      ensures Valid() && Agrees(result, Rest(), GetCstring8(old(Rest())))
    {
      var raw :- ReadString8();
      if 0 in raw { return Failure(InteriorNul); }
      if !Utf8(raw) { return Failure(NotUtf8); }
      return Success(raw);
    }

    method ReadString() returns (result: Outcome<Bytes>)
      requires Valid()
      modifies this
      ensures Valid() && Agrees(result, Rest(), GetString(old(Rest())))
    {
      var len :- ReadU32();
      result := Take(len);
    }
  }

  /** What a write method did: append what the function says, or report its error. */
  predicate Appends(result: Outcome<()>, before: Bytes, after: Bytes, expected: Outcome<Bytes>) {
    if expected.Success? then result == Success(()) && after == before + expected.value
    else result == Failure(expected.error)
  }

  class WireWriter {
    var buf: Bytes

    constructor ()
      ensures buf == []
    {
      buf := [];
    }

    method PutU8(v: Byte)
      modifies this
      ensures buf == old(buf) + [v]
    {
      buf := buf + [v];
    }

    method PutU32(v: nat)
      modifies this
      ensures buf == old(buf) + U32(v)
    {
      buf := buf + U32(v);
    }

    method PutU64(v: nat)
      modifies this
      ensures buf == old(buf) + U64(v)
    {
      buf := buf + U64(v);
    }

    method PutRaw(data: Bytes)
      modifies this
      ensures buf == old(buf) + data
    {
      buf := buf + data;
    }

    method PutString8(data: Bytes) returns (result: Outcome<()>)
      modifies this
      ensures Appends(result, old(buf), buf, String8(data))
    {
      if |data| > 255 { return Failure(TooLong); }
      buf := buf + [|data|];
      buf := buf + data;
      assert buf == old(buf) + ([|data|] + data);
      return Success(());
    }

    method PutCstring8(text: Bytes) returns (result: Outcome<()>)
      modifies this
      ensures Appends(result, old(buf), buf, Cstring8(text))
    {
      if 0 in text { return Failure(InteriorNul); }
      result := PutString8(text);
    }

    method PutString(data: Bytes)
      modifies this
      ensures buf == old(buf) + String32(data)
    {
      PutU32(|data| % TWO_32);
      PutRaw(data);
      assert buf == old(buf) + (U32(|data| % TWO_32) + data);
    }
  }

  // --- block padding (section 6.3 of RFC 5652) -----------------------------------------------

  lemma {:induction false} DivModUnique(x: int, q: int, r: nat, block: nat)
    requires x == block * q + r && r < block
    ensures x / block == q && x % block == r
  {
    var d := x / block - q;
    assert block * d == block * (x / block) - block * q;
    assert block * d == r - x % block;
    MultiplesAreApart(block, d);
  }

  lemma MultiplesAreApart(block: int, d: int)
    requires 0 <= block
    ensures d >= 1 ==> block * d >= block
    ensures d <= -1 ==> block * d <= -block
  {
    if d <= -1 { assert block * -d >= block; }
  }

  /** How many bytes of padding `n` bytes get: a whole block if they already fill their blocks. */
  function PadLength(n: nat, block: nat): (p: nat)
    requires 0 < block
    ensures 1 <= p <= block && (n + p) % block == 0
  {
    assert n + (block - n % block) == block * (n / block + 1) by {
      assert block * (n / block + 1) == block * (n / block) + block;
    }
    DivModUnique(n + (block - n % block), n / block + 1, 0, block);
    block - n % block
  }

  function Repeat(v: Byte, n: nat): Bytes { seq(n, _ => v) }

  function Pkcs7Pad(data: Bytes, block: nat): Bytes
    requires 0 < block < 256
  {
    data + Repeat(PadLength(|data|, block), PadLength(|data|, block))
  }

  predicate WellPadded(data: Bytes, block: nat) {
    data != [] &&
    var n := data[|data| - 1];
    1 <= n <= block && n <= |data| && data[|data| - n..] == Repeat(n, n)
  }

  method Pkcs7Unpad(data: Bytes, block: nat) returns (result: Outcome<Bytes>)
    requires 0 < block < 256
    ensures result == Unpadded(data, block)
  {
    if data == [] { return Failure(BadPadding); }
    var padByte := data[|data| - 1];
    var padLen := padByte;
    if padLen == 0 || padLen > |data| || padLen > block { return Failure(BadPadding); }
    for i := |data| - padLen to |data|
      invariant forall j :: |data| - padLen <= j < i ==> data[j] == padByte
    {
      if data[i] != padByte {
        assert data[|data| - padLen..][i - (|data| - padLen)] != Repeat(padLen, padLen)[i - (|data| - padLen)];
        return Failure(BadPadding);
      }
    }
    assert data[|data| - padLen..] == Repeat(padLen, padLen);
    return Success(data[..|data| - padLen]);
  }

  function Unpadded(data: Bytes, block: nat): Outcome<Bytes> {
    if WellPadded(data, block) then Success(data[..|data| - data[|data| - 1]]) else Failure(BadPadding)
  }

  /** Padding and unpadding undo each other, on every input and on every padded one. */
  lemma PaddingRoundTrips(data: Bytes, block: nat)
    requires 0 < block < 256
    ensures Unpadded(Pkcs7Pad(data, block), block) == Success(data)
    ensures |Pkcs7Pad(data, block)| % block == 0 && |Pkcs7Pad(data, block)| > |data|
    ensures data != [] && |data| % block == 0 && Unpadded(data, block).Success? ==>
              Pkcs7Pad(Unpadded(data, block).value, block) == data
  {
    var n := PadLength(|data|, block);
    var padded := Pkcs7Pad(data, block);
    assert padded[|data|..] == Repeat(n, n) && padded[..|data|] == data;
    if data != [] && |data| % block == 0 && WellPadded(data, block) {
      var m := data[|data| - 1];
      var plain := data[..|data| - m];
      PadLengthIsUnique(|plain|, m, block);
      assert data == plain + Repeat(m, m);
    }
  }

  lemma PadLengthIsUnique(n: nat, m: nat, block: nat)
    requires 0 < block && 1 <= m <= block && (n + m) % block == 0
    ensures PadLength(n, block) == m
  {
    var k := (n + m) / block;
    assert n == block * (k - 1) + (block - m) by {
      assert block * (k - 1) == block * k - block;
    }
    DivModUnique(n, k - 1, block - m, block);
  }
}
