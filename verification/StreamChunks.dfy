/** Encrypted chunks of an ebox stream (crates/piggy-box/src/stream.rs). */
module StreamChunks {
  import opened Base
  import opened Wire

  const BLOCK: nat := 16
  const HMAC_LEN: nat := 32
  const TWO_96: nat := 0x1_0000_0000_0000_0000_0000_0000
  const TWO_128: nat := 0x1_0000_0000_0000_0000_0000_0000_0000_0000

  /** The block cipher under a key, and the MAC. */
  datatype Ciphers = Ciphers(aes: (Bytes, Bytes) -> Bytes, hmac: (Bytes, Bytes) -> Bytes)

  /** A block goes to a block, and a MAC is 32 bytes. */
  ghost predicate Lawful(x: Ciphers) {
    && (forall k: Bytes, b: Bytes :: |b| == BLOCK ==> |x.aes(k, b)| == BLOCK)
    && (forall k: Bytes, m: Bytes :: |x.hmac(k, m)| == HMAC_LEN)
  }

  // --- counter mode (section 6.5 of NIST SP 800-38A) -----------------------------------

  /** The sequence number in the first four bytes, zeros after. */
  function SeqnrToIv(seqnr: nat): (iv: Bytes)
    ensures |iv| == BLOCK
  {
    U32(seqnr) + Repeat(0, 12)
  }

  /** The counter block of the `i`-th block: the initial one plus `i`, as one 128-bit number. */
  function CounterBlock(iv: Bytes, i: nat): (b: Bytes)
    ensures |b| == BLOCK
  {
    BigEndian((ToNat(iv) + i) % TWO_128, 16)
  }

  lemma {:induction false} ToNatJoins(a: Bytes, n: nat)
    ensures ToNat(a + Repeat(0, n)) == ToNat(a) * Pow256(n)
  {
    if n == 0 {
      assert a + Repeat(0, 0) == a;
    } else {
      ToNatJoins(a, n - 1);
      var all := a + Repeat(0, n);
      assert all[..|all| - 1] == a + Repeat(0, n - 1);
      assert Pow256(n) == 256 * Pow256(n - 1);
      calc {
        ToNat(all);
        256 * ToNat(a + Repeat(0, n - 1));
        256 * (ToNat(a) * Pow256(n - 1));
        ToNat(a) * Pow256(n);
      }
    }
  }

  lemma LongPowers()
    ensures Pow256(12) == TWO_96 && Pow256(16) == TWO_128
  {
    PowersOf256();
    assert Pow256(9) == 256 * TWO_64;
    assert Pow256(10) == 0x1_0000 * TWO_64;
    assert Pow256(11) == 0x100_0000 * TWO_64;
    assert Pow256(13) == 256 * TWO_96;
    assert Pow256(14) == 0x1_0000 * TWO_96;
    assert Pow256(15) == 0x100_0000 * TWO_96;
  }

  /** Chunk number and block index are the two halves of the counter. */
  lemma CounterBlockIsSeqnrAndIndex(seqnr: nat, i: nat)
    requires seqnr < TWO_32 && i < TWO_96
    ensures ToNat(CounterBlock(SeqnrToIv(seqnr), i)) == seqnr * TWO_96 + i
  {
    hide Pow256, ToNat, BigEndian;
    PowersOf256();
    LongPowers();
    BigEndianToNat(seqnr, 4);
    ToNatJoins(U32(seqnr), 12);
    var v := seqnr * TWO_96 + i;
    assert v < TWO_128;
    BigEndianToNat(v, 16);
  }

  /** No counter block is used twice, in one chunk or in different chunks. */
  lemma CounterBlocksAreDistinct(seqnr1: nat, i1: nat, seqnr2: nat, i2: nat)
    requires seqnr1 < TWO_32 && seqnr2 < TWO_32 && i1 < TWO_96 && i2 < TWO_96
    requires (seqnr1, i1) != (seqnr2, i2)
    ensures CounterBlock(SeqnrToIv(seqnr1), i1) != CounterBlock(SeqnrToIv(seqnr2), i2)
  {
    hide CounterBlock, SeqnrToIv, ToNat;
    CounterBlockIsSeqnrAndIndex(seqnr1, i1);
    CounterBlockIsSeqnrAndIndex(seqnr2, i2);
    if seqnr1 < seqnr2 {
      assert seqnr1 * TWO_96 + TWO_96 <= seqnr2 * TWO_96;
    } else if seqnr2 < seqnr1 {
      assert seqnr2 * TWO_96 + TWO_96 <= seqnr1 * TWO_96;
    }
  }

  /** The `k`-th byte of the key stream. */
  function KeyByte(x: Ciphers, key: Bytes, iv: Bytes, k: nat): Byte
    requires |x.aes(key, CounterBlock(iv, k / BLOCK))| == BLOCK
  {
    x.aes(key, CounterBlock(iv, k / BLOCK))[k % BLOCK]
  }

  ghost predicate BlocksToBlocks(x: Ciphers) { forall k: Bytes, b: Bytes :: |b| == BLOCK ==> |x.aes(k, b)| == BLOCK }

  function Ctr(x: Ciphers, key: Bytes, iv: Bytes, data: Bytes): (out: Bytes)
    requires BlocksToBlocks(x)
    ensures |out| == |data|
  {
    seq(|data|, k requires 0 <= k < |data| => XorByte(data[k], KeyByte(x, key, iv, k)))
  }

  lemma CtrTwice(x: Ciphers, key: Bytes, iv: Bytes, data: Bytes)
    requires BlocksToBlocks(x)
    ensures Ctr(x, key, iv, Ctr(x, key, iv, data)) == data
  {
    forall k | 0 <= k < |data| ensures Ctr(x, key, iv, Ctr(x, key, iv, data))[k] == data[k] {
      XorTwice([data[k]], [KeyByte(x, key, iv, k)]);
      assert Xor([data[k]], [KeyByte(x, key, iv, k)])[0] == XorByte(data[k], KeyByte(x, key, iv, k));
      assert Xor(Xor([data[k]], [KeyByte(x, key, iv, k)]), [KeyByte(x, key, iv, k)])[0]
          == XorByte(XorByte(data[k], KeyByte(x, key, iv, k)), KeyByte(x, key, iv, k));
    }
  }

  // --- chunks ------------------------------------------------------------------------------

  function EncryptChunk(x: Ciphers, key: Option<Bytes>, seqnr: nat, plaintext: Bytes): Outcome<Bytes>
    requires Lawful(x)
  {
    if key.None? then Failure(NotUnlocked)
    else
      var ciphertext := Ctr(x, key.value, SeqnrToIv(seqnr), Pkcs7Pad(plaintext, BLOCK));
      Success(U32(seqnr) + String32(ciphertext + x.hmac(key.value, ciphertext)))
  }

  function DecryptChunk(x: Ciphers, key: Option<Bytes>, expected: Option<nat>, chunk: Bytes): Outcome<(nat, Bytes)>
    requires Lawful(x)
  {
    if key.None? then Failure(NotUnlocked)
    else
      var seqnr :- GetU32(chunk);
      var sealed :- GetString(seqnr.1);
      if expected.Some? && seqnr.0 != expected.value then Failure(SequenceMismatch(expected.value, seqnr.0))
      else
        var plain :- Verified(x, key.value, seqnr.0, sealed.0);
        Success((seqnr.0, plain))
  }

  /** Check the MAC at the end, then decrypt what it covers. */
  function Verified(x: Ciphers, key: Bytes, seqnr: nat, sealed: Bytes): Outcome<Bytes>
    requires Lawful(x)
  {
    if |sealed| < HMAC_LEN + BLOCK then Failure(ChunkTooShort)
    else
      var ciphertext := sealed[..|sealed| - HMAC_LEN];
      if x.hmac(key, ciphertext) != sealed[|sealed| - HMAC_LEN..] then Failure(HmacMismatch(seqnr))
      else Unpadded(Ctr(x, key, SeqnrToIv(seqnr), ciphertext), BLOCK)
  }

  /** An unlocked stream's key; the stream object itself never changes. */
  class ChunkCipher {
    const x: Ciphers
    const key: Option<Bytes>

    constructor (x: Ciphers, key: Option<Bytes>)
      ensures this.x == x && this.key == key
    {
      this.x, this.key := x, key;
    }

    method Encrypt(seqnr: nat, plaintext: Bytes) returns (result: Outcome<Bytes>)
      requires Lawful(x)
      ensures result == EncryptChunk(x, key, seqnr, plaintext)
    {
      if key.None? { return Failure(NotUnlocked); }
      var padded := Pkcs7Pad(plaintext, BLOCK);
      var ciphertext := Ctr(x, key.value, SeqnrToIv(seqnr), padded);
      var mac := x.hmac(key.value, ciphertext);
      var w := new WireWriter();
      w.PutU32(seqnr);
      var sealed := ciphertext;
      sealed := sealed + mac;
      w.PutString(sealed);
      assert w.buf == U32(seqnr) + String32(sealed);
      return Success(w.buf);
    }

    method Decrypt(expected: Option<nat>, chunk: Bytes) returns (result: Outcome<(nat, Bytes)>)
      requires Lawful(x)
      ensures result == DecryptChunk(x, key, expected, chunk)
    {
      hide GetU32, GetString, Verified;
      if key.None? { return Failure(NotUnlocked); }
      var r := new WireReader(chunk);
      var seqnr :- r.ReadU32();
      var sealed :- r.ReadString();
      if expected.Some? && seqnr != expected.value { return Failure(SequenceMismatch(expected.value, seqnr)); }
      var plain :- VerifyAndDecrypt(key.value, seqnr, sealed);
      return Success((seqnr, plain));
    }

    method VerifyAndDecrypt(streamKey: Bytes, seqnr: nat, sealed: Bytes) returns (result: Outcome<Bytes>)
      requires Lawful(x)
      ensures result == Verified(x, streamKey, seqnr, sealed)
    {
      hide SeqnrToIv, Ctr, Unpadded;
      if |sealed| < HMAC_LEN + BLOCK { return Failure(ChunkTooShort); }
      var offset := |sealed| - HMAC_LEN;
      var ciphertext, received := sealed[..offset], sealed[offset..];
      if x.hmac(streamKey, ciphertext) != received { return Failure(HmacMismatch(seqnr)); }
      var padded := Ctr(x, streamKey, SeqnrToIv(seqnr), ciphertext);
      result := Pkcs7Unpad(padded, BLOCK);
    }
  }

  // --- a chunk comes back ----------------------------------------------------------------------

  /** Decrypting a well-formed frame. */
  lemma FrameDecrypts(x: Ciphers, key: Bytes, seqnr: nat, padded: Bytes, rest: Bytes)
    requires Lawful(x) && seqnr < TWO_32 && BLOCK <= |padded| && |padded| + HMAC_LEN < TWO_32
    ensures var ciphertext := Ctr(x, key, SeqnrToIv(seqnr), padded);
            var frame := U32(seqnr) + String32(ciphertext + x.hmac(key, ciphertext)) + rest;
            DecryptChunk(x, Some(key), Some(seqnr), frame) == DecryptChunk(x, Some(key), None, frame) ==
            (if Unpadded(padded, BLOCK).Success? then Success((seqnr, Unpadded(padded, BLOCK).value)) else Failure(BadPadding))
  {
    hide GetU32, GetString, String32, U32, SeqnrToIv, WellPadded;
    var ciphertext := Ctr(x, key, SeqnrToIv(seqnr), padded);
    var sealed := ciphertext + x.hmac(key, ciphertext);
    U32RoundTrips(seqnr, String32(sealed) + rest);
    assert U32(seqnr) + String32(sealed) + rest == U32(seqnr) + (String32(sealed) + rest);
    String32RoundTripsIff(sealed, rest);
    assert sealed[..|sealed| - HMAC_LEN] == ciphertext && sealed[|sealed| - HMAC_LEN..] == x.hmac(key, ciphertext);
    CtrTwice(x, key, SeqnrToIv(seqnr), padded);
  }

  /** A frame whose length was cut to 32 bits decrypts, if at all, to less than what is left of it. */
  lemma DecryptedIsShort(x: Ciphers, key: Bytes, expected: Option<nat>, seqnr: nat, sealed: Bytes)
    requires Lawful(x) && seqnr < TWO_32 && DecryptChunk(x, Some(key), expected, U32(seqnr) + String32(sealed)).Success?
    ensures |DecryptChunk(x, Some(key), expected, U32(seqnr) + String32(sealed)).value.1| + HMAC_LEN <= |sealed| % TWO_32
  {
    hide SeqnrToIv, U32, BigEndian, ToNat;
    U32RoundTrips(seqnr, String32(sealed));
    U32RoundTrips(|sealed| % TWO_32, sealed);
    hide GetU32;
  }

  /**
   * Decrypting an encrypted chunk gives back its number and its bytes exactly if the padded
   * plaintext and the MAC together fit the chunk's 32-bit length.
   */
  lemma ChunkRoundTripsIff(x: Ciphers, key: Bytes, seqnr: nat, plaintext: Bytes)
    requires Lawful(x) && seqnr < TWO_32
    ensures var chunk := EncryptChunk(x, Some(key), seqnr, plaintext).value;
            DecryptChunk(x, Some(key), Some(seqnr), chunk) == Success((seqnr, plaintext))
            <==> |Pkcs7Pad(plaintext, BLOCK)| + HMAC_LEN < TWO_32
  {
    hide DecryptChunk, Pkcs7Pad, Unpadded, Ctr, String32, U32, SeqnrToIv;
    var padded := Pkcs7Pad(plaintext, BLOCK);
    var chunk := EncryptChunk(x, Some(key), seqnr, plaintext).value;
    PaddingRoundTrips(plaintext, BLOCK);
    PaddedIsWholeBlocks(plaintext);
    if |padded| + HMAC_LEN < TWO_32 {
      FrameDecrypts(x, key, seqnr, padded, []);
      assert chunk + [] == chunk;
    } else if DecryptChunk(x, Some(key), Some(seqnr), chunk) == Success((seqnr, plaintext)) {
      var ciphertext := Ctr(x, key, SeqnrToIv(seqnr), padded);
      var sealed := ciphertext + x.hmac(key, ciphertext);
      DecryptedIsShort(x, key, Some(seqnr), seqnr, sealed);
      CutByAWholePower(|sealed|);
      PadsByABlock(plaintext);
    }
  }

  lemma PaddedIsWholeBlocks(plaintext: Bytes)
    ensures |Pkcs7Pad(plaintext, BLOCK)| >= BLOCK && |Pkcs7Pad(plaintext, BLOCK)| % BLOCK == 0
  {
    PaddingRoundTrips(plaintext, BLOCK);
  }

  lemma CutByAWholePower(n: nat)
    requires n >= TWO_32
    ensures n % TWO_32 <= n - TWO_32
  {
    assert (n - TWO_32) % TWO_32 == n % TWO_32;
  }

  lemma PadsByABlock(plaintext: Bytes)
    ensures |Pkcs7Pad(plaintext, BLOCK)| <= |plaintext| + BLOCK
  {
  }

  /** A chunk whose MAC does not match is refused, whatever it claims to hold. */
  lemma TamperedChunksAreRefused(x: Ciphers, key: Bytes, seqnr: nat, ciphertext: Bytes, mac: Bytes, rest: Bytes)
    requires Lawful(x) && seqnr < TWO_32 && |mac| == HMAC_LEN && BLOCK <= |ciphertext| && |ciphertext| + HMAC_LEN < TWO_32
    ensures DecryptChunk(x, Some(key), None, U32(seqnr) + String32(ciphertext + mac) + rest) == Failure(HmacMismatch(seqnr))
            <==> mac != x.hmac(key, ciphertext)
  {
    hide GetU32, GetString, String32, U32, SeqnrToIv, Ctr, Unpadded;
    var sealed := ciphertext + mac;
    U32RoundTrips(seqnr, String32(sealed) + rest);
    assert U32(seqnr) + String32(sealed) + rest == U32(seqnr) + (String32(sealed) + rest);
    String32RoundTripsIff(sealed, rest);
    assert sealed[..|sealed| - HMAC_LEN] == ciphertext && sealed[|sealed| - HMAC_LEN..] == mac;
    UnpaddingErrors(Ctr(x, key, SeqnrToIv(seqnr), ciphertext));
  }

  /** A chunk is decrypted only in its turn: expecting another number, it is refused before anything else is looked at. */
  lemma OutOfTurnChunksAreRefused(x: Ciphers, key: Bytes, seqnr: nat, expected: nat, sealed: Bytes, rest: Bytes)
    requires Lawful(x) && seqnr < TWO_32 && |sealed| < TWO_32
    ensures var r := DecryptChunk(x, Some(key), Some(expected), U32(seqnr) + String32(sealed) + rest);
            if seqnr == expected then r == DecryptChunk(x, Some(key), None, U32(seqnr) + String32(sealed) + rest)
            else r == Failure(SequenceMismatch(expected, seqnr))
  {
    hide GetU32, GetString, String32, U32, Verified;
    U32RoundTrips(seqnr, String32(sealed) + rest);
    assert U32(seqnr) + String32(sealed) + rest == U32(seqnr) + (String32(sealed) + rest);
    String32RoundTripsIff(sealed, rest);
  }

  lemma UnpaddingErrors(data: Bytes)
    ensures Unpadded(data, BLOCK).Failure? ==> Unpadded(data, BLOCK).error == BadPadding
  {
  }

  // --- what a chunk is, byte for byte ----------------------------------------------------------

  /** PKCS#7 padding to 16 bytes: each added byte is the number of bytes added. */
  function PaddedByte(plaintext: Bytes, k: nat): Byte {
    if k < |plaintext| then plaintext[k] else 16 - |plaintext| % 16
  }

  lemma PaddedBytes(plaintext: Bytes)
    ensures |Pkcs7Pad(plaintext, BLOCK)| == |plaintext| + 16 - |plaintext| % 16
    ensures forall k :: 0 <= k < |plaintext| + 16 - |plaintext| % 16 ==> Pkcs7Pad(plaintext, BLOCK)[k] == PaddedByte(plaintext, k)
  {
  }

  lemma BlockOfItsNumber(seqnr: nat, i: nat, block: Bytes)
    requires seqnr < TWO_32 && i < TWO_96 && |block| == BLOCK && ToNat(block) == seqnr * TWO_96 + i
    ensures CounterBlock(SeqnrToIv(seqnr), i) == block
  {
    hide CounterBlock, BigEndian, ToNat, SeqnrToIv;
    CounterBlockIsSeqnrAndIndex(seqnr, i);
    ToNatBigEndian(block);
    ToNatBigEndian(CounterBlock(SeqnrToIv(seqnr), i));
  }

  /**
   * A chunk in terms of the primitives alone: the sequence number, the length of what follows, the
   * padded plaintext each byte of which is exclusive-ored with its byte of the AES output for the
   * block numbered seqnr * 2^96 plus its block's index, and the MAC of those bytes.
   */
  lemma ChunkBytes(x: Ciphers, key: Bytes, seqnr: nat, plaintext: Bytes, k: nat, block: Bytes, i: nat)
    requires Lawful(x) && seqnr < TWO_32 && |plaintext| + 16 - |plaintext| % 16 < TWO_96
    requires k < |plaintext| + 16 - |plaintext| % 16 && i < 8
    requires |block| == 16 && ToNat(block) == seqnr * TWO_96 + k / 16
    ensures EncryptChunk(x, Some(key), seqnr, plaintext).Success?
    ensures var chunk := EncryptChunk(x, Some(key), seqnr, plaintext).value;
            var n := |plaintext| + 16 - |plaintext| % 16;
            && |chunk| == 8 + n + 32
            && ToNat(chunk[..4]) == seqnr && ToNat(chunk[4..8]) == (n + 32) % TWO_32
            && chunk[8 + k] == XorByte(PaddedByte(plaintext, k), x.aes(key, block)[k % 16])
            && (Bit(chunk[8 + k], i) <==> (Bit(PaddedByte(plaintext, k), i) != Bit(x.aes(key, block)[k % 16], i)))
            && chunk[8 + n..] == x.hmac(key, chunk[8..8 + n])
  {
    hide CounterBlock, SeqnrToIv, Pkcs7Pad, XorByte, ToNat, BigEndian, Bit;
    var padded := Pkcs7Pad(plaintext, BLOCK);
    var n := |padded|;
    PaddedBytes(plaintext);
    var ciphertext := Ctr(x, key, SeqnrToIv(seqnr), padded);
    var chunk := EncryptChunk(x, Some(key), seqnr, plaintext).value;
    var mac := x.hmac(key, ciphertext);
    assert chunk == U32(seqnr) + (U32((n + 32) % TWO_32) + (ciphertext + mac));
    assert chunk[..4] == U32(seqnr) && chunk[4..8] == U32((n + 32) % TWO_32);
    assert chunk[8..8 + n] == ciphertext && chunk[8 + n..] == mac;
    PowersOf256();
    BigEndianToNat(seqnr, 4);
    BigEndianToNat((n + 32) % TWO_32, 4);
    BlockOfItsNumber(seqnr, k / 16, block);
    assert chunk[8 + k] == chunk[8..8 + n][k];
    XoredByte(padded[k], x.aes(key, block)[k % 16], i);
  }

  lemma XoredByte(a: Byte, b: Byte, i: nat)
    requires i < 8
    ensures Bit(XorByte(a, b), i) <==> (Bit(a, i) != Bit(b, i))
  {
    hide Bit;
    XorBytesBitwise([a], [b], 0, i);
    assert Xor([a], [b])[0] == XorByte(a, b);
  }
}
