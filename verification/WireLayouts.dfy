/**
 * The formats byte for byte, with every tag, count, length and magic number written out
 * (crates/piggy-box/src/piv_box.rs, template.rs, ebox.rs, stream.rs and agent_ext.rs).
 */
module WireLayouts {
  import opened Base
  import opened Wire
  import opened BoxFormat
  import opened PartFields
  import opened Many
  import opened TemplateFormat
  import opened EboxFormat
  import opened AgentExt
  import PartIO

  /** A length byte and the bytes. */
  function Short(b: Bytes): Bytes
    requires |b| <= 255
  {
    [|b|] + b
  }

  /** Four length bytes, most significant first, and the bytes. */
  function Long(b: Bytes): Bytes
    requires |b| < TWO_32
  {
    [|b| / 0x100_0000, |b| / 0x1_0000 % 256, |b| / 0x100 % 256, |b| % 256] + b
  }

  lemma LongIsString32(b: Bytes)
    requires |b| < TWO_32
    ensures String32(b) == Long(b)
  {
    var n := |b|;
    assert n % TWO_32 == n;
    assert BigEndian(n, 4) == BigEndian(n / 256, 3) + [n % 256];
    assert BigEndian(n / 256, 3) == BigEndian(n / 256 / 256, 2) + [n / 256 % 256];
    assert BigEndian(n / 256 / 256, 2) == BigEndian(n / 256 / 256 / 256, 1) + [n / 256 / 256 % 256];
    assert BigEndian(n / 256 / 256 / 256, 1) == [n / 256 / 256 / 256 % 256];
    assert n / 256 / 256 == n / 0x1_0000 && n / 256 / 256 / 256 == n / 0x100_0000 < 256;
  }

  /** nistp256, nistp384 */
  function CurveText(curve: Curve): (r: Bytes)
    ensures |r| == 8
  {
    if curve == NistP256 then [0x6E, 0x69, 0x73, 0x74, 0x70, 0x32, 0x35, 0x36] else [0x6E, 0x69, 0x73, 0x74, 0x70, 0x33, 0x38, 0x34]
  }

  /** The fields a box has wherever it is written, from version 2 on. */
  function SuiteBytes(s: Suite): Bytes
    requires SuiteFits(2, s)
  {
    Short(s.cipher) + Short(s.kdf) + Short(s.nonce) + Short(CurveText(s.curve)) + Short(s.recipient)
  }

  lemma SuiteLayout(s: Suite)
    requires SuiteFits(2, s)
    ensures PutSuite(2, s) == Success(SuiteBytes(s))
  {
  }

  lemma ShortIsString8(b: Bytes)
    ensures |b| <= 255 ==> String8(b) == Success(Short(b))
    ensures FitsCstring8(b) ==> Cstring8(b) == Success(Short(b))
  {
  }

  /** A box on its own: B0 C5, version, GUID and slot or three zeros, the suite, the ephemeral key, IV and ciphertext. */
  lemma BoxLayout(box: PivBox)
    requires box.version == 2 && BoxFits(box)
    ensures PutPivBox(box) == Success(
              [0xB0, 0xC5, 0x02]
              + (if box.guidSlot.Some? then [0x01, 0x10] + box.guidSlot.value.0 + [box.guidSlot.value.1] else [0x00, 0x00, 0x00])
              + SuiteBytes(box.fields.suite) + Short(box.ephemeral) + (Short(box.fields.iv) + Long(box.fields.ciphertext)))
  {
    hide SuiteBytes, PutSuite, String32, Short, Long;
    LongIsString32(box.fields.ciphertext);
    SuiteLayout(box.fields.suite);
    ShortIsString8(box.ephemeral);
    ShortIsString8(box.fields.iv);
  }

  // --- parts ----------------------------------------------------------------------------

  /** What both kinds of part say about themselves: 4 GUID, 2 name, 3 CAK, 6 a slot other than 9D; each only if there is one. */
  function DescriptionBytes(guid: Option<Guid>, name: Option<Text>, cak: Option<Bytes>, slot: Byte): Bytes
    requires (name.Some? ==> |name.value| <= 255) && (cak.Some? ==> |cak.value| < TWO_32)
  {
    (if guid.Some? then [0x04, 0x10] + guid.value else [])
    + (if name.Some? then [0x02] + Short(name.value) else [])
    + (if cak.Some? then [0x03] + Long(cak.value) else [])
    + (if slot != 0x9D then [0x06, slot] else [])
  }

  lemma OneField(f: Field)
    ensures PutFields([]) == Success([]) && PutFields([f]) == PutField(f)
  {
    hide PutField;
    assert [f][..0] == [];
    if PutField(f).Success? { assert [] + PutField(f).value == PutField(f).value; }
  }

  lemma OptionalFields(guid: Option<Guid>, name: Option<Text>, cak: Option<Bytes>, slot: Byte)
    requires (name.Some? ==> FitsCstring8(name.value)) && (cak.Some? ==> FitsString32(cak.value))
    ensures PutFields(GuidFields(guid)) == Success(if guid.Some? then [0x04, 0x10] + guid.value else [])
    ensures PutFields(NameFields(name)) == Success(if name.Some? then [0x02] + Short(name.value) else [])
    ensures PutFields(CakFields(cak)) == Success(if cak.Some? then [0x03] + Long(cak.value) else [])
    ensures PutFields(SlotFields(slot)) == Success(if slot != 0x9D then [0x06, slot] else [])
  {
    hide PutFields, Short, Long, String32;
    OneField(Tagged(SlotOf(slot)));
    assert [0x06] + [slot] == [0x06, slot];
    if guid.Some? {
      OneField(Tagged(GuidOf(guid.value)));
      GuidBytes(guid.value);
    }
    if name.Some? {
      OneField(Tagged(NameOf(name.value)));
      ShortIsString8(name.value);
    }
    if cak.Some? {
      OneField(Tagged(CakOf(cak.value)));
      LongIsString32(cak.value);
    }
  }

  lemma DescriptionLayout(guid: Option<Guid>, name: Option<Text>, cak: Option<Bytes>, slot: Byte)
    requires (name.Some? ==> FitsCstring8(name.value)) && (cak.Some? ==> FitsString32(cak.value))
    ensures PutFields(GuidFields(guid) + NameFields(name) + CakFields(cak) + SlotFields(slot)) ==
            Success(DescriptionBytes(guid, name, cak, slot))
  {
    hide PutFields, Short, Long, GuidFields, NameFields, CakFields, SlotFields;
    var f1, f2, f3, f4 := GuidFields(guid), NameFields(name), CakFields(cak), SlotFields(slot);
    OptionalFields(guid, name, cak, slot);
    PartIO.FieldsJoin(f1, f2);
    PartIO.FieldsJoin(f1 + f2, f3);
    PartIO.FieldsJoin(f1 + f2 + f3, f4);
  }

  lemma GuidBytes(guid: Guid)
    ensures String8(guid) == Success([0x10] + guid) && [0x04] + ([0x10] + guid) == [0x04, 0x10] + guid
  {
  }

  lemma PubkeyField(curve: Curve, pubkey: Bytes)
    requires |pubkey| <= 255
    ensures PutField(Tagged(PubkeyOf(curve, pubkey))) == Success([0x01] + Short(CurveText(curve)) + Short(pubkey))
  {
    hide Short, CurveText;
    CurveBytes(curve);
    ShortIsString8(pubkey);
    var name, key := Short(CurveText(curve)), Short(pubkey);
    assert [0x01] + (name + key) == [0x01] + name + key;
  }

  /** A template part: 1, curve name and key, the description, and the end tag 0. */
  lemma TemplatePartLayout(part: TplPart)
    requires TplPartFits(part)
    ensures PutTplPart(part) == Success(
              [0x01] + Short(CurveText(part.curve)) + Short(part.pubkey)
              + DescriptionBytes(part.guid, part.name, part.cak, part.slot) + [0x00])
  {
    hide PutFields, PutField, DescriptionBytes, Short, CurveText, GuidFields, NameFields, CakFields, SlotFields;
    var pubkey := Tagged(PubkeyOf(part.curve, part.pubkey));
    var described := GuidFields(part.guid) + NameFields(part.name) + CakFields(part.cak) + SlotFields(part.slot);
    DescriptionLayout(part.guid, part.name, part.cak, part.slot);
    assert TplFields(part) == [pubkey] + described;
    PartIO.FieldsJoin([pubkey], described);
    OneField(pubkey);
    PubkeyField(part.curve, part.pubkey);
  }

  lemma CurveBytes(curve: Curve)
    ensures Cstring8(WireName(curve)) == Success(Short(CurveText(curve)))
  {
    ShortIsString8(WireName(curve));
  }

  /** An ebox part from version 2 on: the description, 5, the suite, IV and ciphertext of its box, and the end tag 0. */
  lemma EboxPartLayout(version: Byte, part: Part)
    requires version >= 2 && PartFits(part)
    ensures PutPart(version, part) == Success(
              DescriptionBytes(part.guid, part.name, part.cak, part.slot)
              + ([0x05] + (SuiteBytes(part.box.fields.suite) + (Short(part.box.fields.iv) + Long(part.box.fields.ciphertext)))) + [0x00])
  {
    hide PutFields, DescriptionBytes, SuiteBytes, PutSuite, String32, Short, Long;
    var described := GuidFields(part.guid) + NameFields(part.name) + CakFields(part.cak) + SlotFields(part.slot);
    DescriptionLayout(part.guid, part.name, part.cak, part.slot);
    PartIO.FieldsJoin(described, [BoxField(version, part.box)]);
    OneField(BoxField(version, part.box));
    SuiteLayout(part.box.fields.suite);
    ShortIsString8(part.box.fields.iv);
    LongIsString32(part.box.fields.ciphertext);
  }

  // --- lists and what holds them -----------------------------------------------------------

  /** A list is written in its order, the first record first. */
  lemma {:induction false} ListsInOrder<T>(put: T -> Outcome<Bytes>, first: T, more: seq<T>)
    ensures PutMany(put, []) == Success([])
    ensures PutMany(put, [first] + more) == Then(put(first), PutMany(put, more))
  {
    var all := [first] + more;
    if more == [] {
      assert all == [first] && all[..0] == [];
      if put(first).Success? { assert [] + put(first).value == put(first).value + []; }
    } else {
      var n := |more| - 1;
      assert all[..|all| - 1] == [first] + more[..n] && all[|all| - 1] == more[n];
      ListsInOrder(put, first, more[..n]);
      if put(first).Success? && PutMany(put, more[..n]).Success? && put(more[n]).Success? {
        assert put(first).value + PutMany(put, more[..n]).value + put(more[n]).value
            == put(first).value + (PutMany(put, more[..n]).value + put(more[n]).value);
      }
    }
  }

  /** 1 PRIMARY, 2 RECOVERY. */
  function KindText(kind: ConfigType): Byte { if kind == Primary then 1 else 2 }

  /** A template: EB 0C, version, type 1, the count of configs; each with its kind, threshold and count of parts. */
  lemma TemplateLayout(tpl: Template, config: TplConfig, parts: Bytes, configs: Bytes)
    requires |tpl.configs| < 256 && PutMany(PutTplConfig, tpl.configs) == Success(configs)
    requires |config.parts| < 256 && PutMany(PutTplPart, config.parts) == Success(parts)
    ensures PutTemplate(tpl) == Success([0xEB, 0x0C, tpl.version, 0x01, |tpl.configs|] + configs)
    ensures PutTplConfig(config) == Success([KindText(config.kind), config.n, |config.parts|] + parts)
  {
    hide PutMany;
  }

  /** An ephemeral key: its curve's name and its point. */
  lemma EphemeralLayout(e: Ephemeral)
    requires FitsString8(e.pubkey)
    ensures PutEphemeral(e) == Success(Short(CurveText(e.curve)) + Short(e.pubkey))
  {
    hide Short, CurveText;
    ShortIsString8(e.pubkey);
    CurveBytes(e.curve);
  }

  /** An ebox config: kind, threshold, count of parts and nonce, and the parts. */
  lemma ConfigLayout(version: Byte, config: Config, parts: Bytes)
    requires |config.parts| < 256 && FitsString8(config.nonce) && PutMany(PartWriter(version), config.parts) == Success(parts)
    ensures PutConfig(version, config) == Success([KindText(config.kind), config.n, |config.parts|] + Short(config.nonce) + parts)
  {
    hide PutMany, Short;
    ShortIsString8(config.nonce);
  }

  lemma RecoveryLayout(r: RecoveryBox)
    requires RecoveryFits(r)
    ensures PutRecovery(r) == Success(Short(r.cipher) + Short(r.iv) + Short(r.enc))
  {
    hide Short;
    ShortIsString8(r.cipher);
    ShortIsString8(r.iv);
    ShortIsString8(r.enc);
  }

  /**
   * An ebox from version 2 on: EB 0C, version, type 2 for keys and 3 for streams, the recovery box's
   * cipher, IV and ciphertext, the count of ephemeral keys and the keys, the count of configs and the configs.
   */
  lemma EboxLayout(e: Ebox, keys: Bytes, configs: Bytes)
    requires e.version >= 2 && RecoveryFits(RecoveryOf(e)) && e.kind != TemplateType
    requires |e.ephemerals| < 256 && PutMany(PutEphemeral, e.ephemerals) == Success(keys)
    requires |e.configs| < 256 && PutMany(ConfigWriter(e.version), e.configs) == Success(configs)
    ensures PutEbox(e) == Success(
              [0xEB, 0x0C, e.version, if e.kind == KeyType then 0x02 else 0x03]
              + (Short(e.recoveryCipher) + Short(e.recoveryIv) + Short(e.recoveryEnc))
              + ([|e.ephemerals|] + keys) + ([|e.configs|] + configs))
  {
    hide PutMany, PutRecovery, Short;
    RecoveryLayout(RecoveryOf(e));
  }

  /** A stream header: the ebox, the chunk size as eight bytes, and the two names. */
  lemma HeaderLayout(h: Header, ebox: Bytes)
    requires PutEbox(h.ebox) == Success(ebox) && h.chunkSize < TWO_64 && FitsCstring8(h.cipher) && FitsCstring8(h.mac)
    ensures exists size: Bytes :: |size| == 8 && ToNat(size) == h.chunkSize
              && PutHeader(h) == Success(ebox + size + Short(h.cipher) + Short(h.mac))
  {
    hide PutEbox, Short, ToNat, BigEndian;
    PowersOf256();
    BigEndianToNat(h.chunkSize, 8);
    ShortIsString8(h.cipher);
    ShortIsString8(h.mac);
    var size := U64(h.chunkSize);
    assert |size| == 8 && ToNat(size) == h.chunkSize;
  }

  /** A key blob: `ecdsa-sha2-` with the curve's name, the curve's name and the point, as 32-bit strings. */
  lemma KeyBlobLayout(curve: Curve, point: Bytes)
    requires |point| < TWO_32
    ensures PointBlob(curve, point) ==
            [0x00, 0x00, 0x00, 0x13, 0x65, 0x63, 0x64, 0x73, 0x61, 0x2D, 0x73, 0x68, 0x61, 0x32, 0x2D] + CurveText(curve)
            + ([0x00, 0x00, 0x00, 0x08] + CurveText(curve) + Long(point))
  {
    hide Long, String32, SshKeytype, WireName;
    LongIsString32(point);
    KeytypeBytes(curve);
    CurveNameBytes(curve);
  }

  lemma KeytypeBytes(curve: Curve)
    ensures String32(SshKeytype(curve)) ==
            [0x00, 0x00, 0x00, 0x13, 0x65, 0x63, 0x64, 0x73, 0x61, 0x2D, 0x73, 0x68, 0x61, 0x32, 0x2D] + CurveText(curve)
  {
    hide String32, Long, CurveText, WireName;
    SameName(curve);
    LongIsString32(SshKeytype(curve));
    LongOf19(SshKeytype(curve));
    LengthBefore(CurveText(curve));
  }

  lemma SameName(curve: Curve)
    ensures WireName(curve) == CurveText(curve)
  {
  }

  lemma LengthBefore(name: Bytes)
    ensures [0x00, 0x00, 0x00, 0x13] + ([0x65, 0x63, 0x64, 0x73, 0x61, 0x2D, 0x73, 0x68, 0x61, 0x32, 0x2D] + name) ==
            [0x00, 0x00, 0x00, 0x13, 0x65, 0x63, 0x64, 0x73, 0x61, 0x2D, 0x73, 0x68, 0x61, 0x32, 0x2D] + name
  {
  }

  lemma CurveNameBytes(curve: Curve)
    ensures String32(WireName(curve)) == [0x00, 0x00, 0x00, 0x08] + CurveText(curve)
  {
    hide String32, Long;
    LongIsString32(WireName(curve));
    LongOf8(WireName(curve));
  }

  lemma LongOf19(b: Bytes)
    requires |b| == 19
    ensures Long(b) == [0x00, 0x00, 0x00, 0x13] + b
  {
  }

  lemma LongOf8(b: Bytes)
    requires |b| == 8
    ensures Long(b) == [0x00, 0x00, 0x00, 0x08] + b
  {
  }
}
