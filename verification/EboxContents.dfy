/** What is in a created ebox, in terms of the primitives alone (crates/piggy-box/src/ebox.rs and piv_box.rs). */
module EboxContents {
  import opened Base
  import opened Wire
  import opened BoxFormat
  import opened TemplateFormat
  import opened EboxFormat
  import opened BoxCrypto
  import opened EboxUnlock
  import opened EboxCreate
  import opened EboxTheorems
  import opened EboxRecovery

  /** `m` is `a` exclusive-or `b`, bit for bit. */
  ghost predicate IsMask(m: Bytes, a: Bytes, b: Bytes) {
    |m| == |a| == |b| && forall k, i: nat :: 0 <= k < |m| && i < 8 ==> (Bit(m[k], i) <==> (Bit(a[k], i) != Bit(b[k], i)))
  }

  lemma XorIsMask(a: Bytes, b: Bytes)
    requires |a| == |b|
    ensures IsMask(Xor(a, b), a, b)
  {
    hide Bit, Xor;
    forall k, i: nat | 0 <= k < |a| && i < 8 ensures Bit(Xor(a, b)[k], i) <==> (Bit(a[k], i) != Bit(b[k], i)) {
      XorBytesBitwise(a, b, k, i);
    }
  }

  /** chacha20-poly1305@piggy.amarbel.net */
  function CipherText(): Bytes {
    [0x63, 0x68, 0x61, 0x63, 0x68, 0x61, 0x32, 0x30, 0x2D, 0x70, 0x6F, 0x6C, 0x79, 0x31, 0x33, 0x30, 0x35, 0x40,
     0x70, 0x69, 0x67, 0x67, 0x79, 0x2E, 0x61, 0x6D, 0x61, 0x72, 0x62, 0x65, 0x6C, 0x2E, 0x6E, 0x65, 0x74]
  }

  lemma SuiteNames()
    ensures DefaultCipher() == CipherText() && DefaultKdf() == [0x73, 0x68, 0x61, 0x35, 0x31, 0x32]
  {
  }

  /** Everything a part of a created ebox carries: its template's description, and `payload` sealed to its template's key. */
  ghost predicate Carries(
      x: Crypto, part: TplPart, made: Part, private: Bytes, nonce: Bytes, iv: Bytes, payload: Bytes) {
    && made.guid == part.guid && made.slot == part.slot && made.name == part.name && made.cak == part.cak
    && made.box.version == 2 && made.box.fields.suite.curve == part.curve
    && made.box.fields.suite.cipher == CipherText() && made.box.fields.suite.kdf == [0x73, 0x68, 0x61, 0x35, 0x31, 0x32]
    && x.parsePoint(part.curve, part.pubkey).Some?
    && var point := x.parsePoint(part.curve, part.pubkey).value;
       var digest := x.sha512(x.agree(part.curve, private, point) + nonce);
       && |digest| == 64
       && made.box.fields.ciphertext == x.aeadSeal(digest[..32], iv, Pkcs7Pad(payload, 16))
       && made.box.fields.iv == iv && made.box.fields.suite.nonce == nonce
       && made.box.fields.suite.recipient == x.compress(part.curve, point)
       && made.box.guidSlot == (if part.guid.Some? then Some((part.guid.value, part.slot)) else None)
  }

  lemma MadePartCarries(
      x: Crypto, en: Entropy, ring: seq<RingKey>, part: TplPart, c: nat, i: nat, payload: Outcome<Bytes>, made: Part)
    requires Lawful(x) && Proper(en) && MadeWith(x, en, ring, part, c, i, payload, made)
    ensures payload.Success? && KeyFor(ring, part.curve).Some?
    ensures Carries(x, part, made, KeyFor(ring, part.curve).value, en.boxNonce(c, i), en.boxIv(c, i), payload.value)
  {
    hide Lawful, KeyFor, Sealed, DefaultCipher, DefaultKdf, Pkcs7Pad, CipherText;
    SuiteNames();
    var point, private := x.parsePoint(part.curve, part.pubkey).value, KeyFor(ring, part.curve).value;
    var guidSlot := if part.guid.Some? then Some((part.guid.value, part.slot)) else None;
    var box := EmptyBox(part.curve).(guidSlot := guidSlot, plaintext := Some(payload.value));
    SealIs(x, box, point, private, en.boxNonce(c, i), en.boxIv(c, i), payload.value);
  }

  lemma {:induction false} KeyIsListed(x: Crypto, ring: seq<RingKey>, curve: Curve)
    requires KeyFor(ring, curve).Some?
    ensures Ephemeral(curve, x.compress(curve, x.publicKey(curve, KeyFor(ring, curve).value))) in Hoisted(x, ring)
  {
    if ring[0].curve == curve {
      assert Hoisted(x, ring)[0] == Ephemeral(curve, x.compress(curve, x.publicKey(curve, KeyFor(ring, curve).value)));
    } else {
      KeyIsListed(x, ring[1..], curve);
      assert Hoisted(x, ring)[1..] == Hoisted(x, ring[1..]);
    }
  }

  /** The key tagged 2, with its length. */
  function TaggedKey(key: Bytes): Bytes { if |key| <= 255 then [2, |key|] + key else [] }

  /** The frame of a created ebox: version 3, and the key, tagged 2 and with its length, under a random recovery key. */
  lemma CreatedFrame(x: Crypto, en: Entropy, tpl: Template, key: Bytes, kind: EboxType)
    requires Lawful(x) && Proper(en) && Create(x, en, tpl, key, kind).Success?
    ensures |key| <= 255
    ensures var e := Create(x, en, tpl, key, kind).value;
            && e.version == 3 && e.kind == kind && e.key.None?
            && e.recoveryCipher == [0x61, 0x65, 0x73, 0x32, 0x35, 0x36, 0x2D, 0x67, 0x63, 0x6D]
            && e.recoveryIv == en.gcmIv && e.recoveryEnc == x.gcmSeal(en.recoveryKey, en.gcmIv, TaggedKey(key))
            && |e.configs| == |tpl.configs|
  {
    hide MakeConfigs, Lawful;
    assert String8(key).Success?;
    assert RecoveryPlain(key).value == [2] + ([|key|] + key);
    assert [2] + ([|key|] + key) == [2, |key|] + key;
  }

  /**
   * A PRIMARY part is sealed around the key itself. A RECOVERY part is sealed around its share, of
   * which as many as the config says are enough, of the recovery key masked with the config's
   * nonce. Either way under one ephemeral key, the public half of which the ebox lists.
   */
  lemma CreatedPartsCarry(
      x: Crypto, en: Entropy, tpl: Template, key: Bytes, kind: EboxType, c: nat, i: nat) returns (private: Bytes, mask: Bytes)
    requires Lawful(x) && Proper(en) && Create(x, en, tpl, key, kind).Success?
    requires c < |tpl.configs| && i < |tpl.configs[c].parts|
    ensures IsMask(mask, en.configNonce(c), en.recoveryKey)
    ensures var e := Create(x, en, tpl, key, kind).value;
            var config, part := tpl.configs[c], tpl.configs[c].parts[i];
            && |e.configs| == |tpl.configs| && |e.configs[c].parts| == |config.parts|
            && e.configs[c].kind == config.kind && e.configs[c].n == config.n
            && e.configs[c].nonce == (if config.kind == TemplateFormat.Recovery then en.configNonce(c) else [])
            && Ephemeral(part.curve, x.compress(part.curve, x.publicKey(part.curve, private))) in e.ephemerals
            && var shares := x.deal(config.n, mask, en.shareSeed(c), |config.parts| % 256);
               && (config.kind == TemplateFormat.Recovery ==> i < |shares|)
               && Carries(x, part, e.configs[c].parts[i], private, en.boxNonce(c, i), en.boxIv(c, i),
                          if config.kind == TemplateFormat.Recovery then shares[i] else key)
  {
    hide Lawful, Create, MadeWith, KeyFor, Carries, IsMask;
    mask := Xor(en.configNonce(c), en.recoveryKey);
    XorIsMask(en.configNonce(c), en.recoveryKey);
    var ring := CreatedIsMade(x, en, tpl, key, kind);
    var e := Create(x, en, tpl, key, kind).value;
    var config, part := tpl.configs[c], tpl.configs[c].parts[i];
    assert ConfigMade(x, en, ring, config, c, key, e.configs[c]);
    var payload := Payload(ConfigShares(x, en, config, c), key, i);
    assert MadeWith(x, en, ring, part, c, i, payload, e.configs[c].parts[i]);
    MadePartCarries(x, en, ring, part, c, i, payload, e.configs[c].parts[i]);
    private := KeyFor(ring, part.curve).value;
    KeyIsListed(x, ring, part.curve);
  }

  // --- the other way: what recovery makes of a recovery box ------------------------------------

  /** Tagged strings, none of them a key. */
  function Tagged(fields: seq<(Byte, Bytes)>): Bytes
    requires forall f :: f in fields ==> |f.1| <= 255
  {
    if fields == [] then [] else [fields[0].0, |fields[0].1|] + fields[0].1 + Tagged(fields[1..])
  }

  /** The key is the first string tagged 2, whatever other tags stand before it and whatever follows. */
  lemma {:induction false} KeyIsFoundBehindOthers(fields: seq<(Byte, Bytes)>, key: Bytes, rest: Bytes)
    requires |key| <= 255 && forall f :: f in fields ==> |f.1| <= 255 && f.0 != 2
    ensures RecoveredKey(Tagged(fields) + [2, |key|] + key + rest) == Success(key)
  {
    hide String8, GetString8;
    var b := Tagged(fields) + [2, |key|] + key + rest;
    if fields == [] {
      assert b[1..] == StringBytes(key) + rest;
      StringBytesRead(key, rest);
    } else {
      var tail := Tagged(fields[1..]) + [2, |key|] + key + rest;
      var (tag, data) := fields[0];
      assert fields[0] in fields;
      assert b[1..] == StringBytes(data) + tail;
      StringBytesRead(data, tail);
      KeyIsFoundBehindOthers(fields[1..], key, rest);
    }
  }

  function StringBytes(data: Bytes): Bytes
    requires |data| <= 255
  {
    [|data|] + data
  }

  lemma StringBytesRead(data: Bytes, rest: Bytes)
    requires |data| <= 255
    ensures GetString8(StringBytes(data) + rest) == Success((data, rest))
  {
    String8Reads(data, rest, StringBytes(data) + rest);
  }

  /** A recovery box none of whose tagged strings is a key gives none. */
  lemma {:induction false} NoKeyIsFound(fields: seq<(Byte, Bytes)>)
    requires forall f :: f in fields ==> |f.1| <= 255 && f.0 != 2
    ensures RecoveredKey(Tagged(fields)).Failure?
  {
    hide String8, GetString8;
    if fields != [] {
      var b, tail := Tagged(fields), Tagged(fields[1..]);
      var (tag, data) := fields[0];
      assert fields[0] in fields;
      assert b[1..] == StringBytes(data) + tail;
      StringBytesRead(data, tail);
      NoKeyIsFound(fields[1..]);
    }
  }
}
