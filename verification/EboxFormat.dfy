/** Eboxes and ebox stream headers on the wire (crates/piggy-box/src/ebox.rs and stream.rs). */
module EboxFormat {
  import opened Base
  import opened Wire
  import opened BoxFormat
  import opened PartFields
  import opened Many
  import opened TemplateFormat

  datatype EboxType = TemplateType | KeyType | StreamType

  datatype Ephemeral = Ephemeral(curve: Curve, pubkey: Bytes)

  datatype Part = Part(
    guid: Option<Guid>, slot: Byte, name: Option<Text>, key: Option<(Curve, Bytes)>, cak: Option<Bytes>, box: PivBox)

  datatype Config = Config(kind: ConfigType, n: Byte, nonce: Bytes, parts: seq<Part>)

  datatype Ebox = Ebox(
    version: Byte, kind: EboxType, recoveryCipher: Text, recoveryIv: Bytes, recoveryEnc: Bytes,
    ephemerals: seq<Ephemeral>, configs: seq<Config>, key: Option<Bytes>)

  // --- parts --------------------------------------------------------------------------

  /** Version 2 and later write the box's fields in place, without its ephemeral key. */
  function BoxField(version: Byte, box: PivBox): Field {
    if version >= 2 then Tagged(InlineBox(box.fields)) else Tagged(WholeBox(box))
  }

  function FieldsOf(version: Byte, part: Part): seq<Field> {
    GuidFields(part.guid) + NameFields(part.name) + CakFields(part.cak) + SlotFields(part.slot) + [BoxField(version, part.box)]
  }

  function PutPart(version: Byte, part: Part): Outcome<Bytes> {
    Then(PutFields(FieldsOf(version, part)), Success([PART_END]))
  }

  function GetPart(version: Byte, b: Bytes): Parsed<Part> {
    var c :- GetFields(OfEbox(version), NOTHING, b);
    if c.0.box.None? then Failure(MissingBox)
    else Success((Part(c.0.guid, c.0.slot, c.0.name, c.0.key, c.0.cak, c.0.box.value), c.1))
  }

  function PartReader(version: Byte): Bytes -> Parsed<Part> { b => GetPart(version, b) }
  function PartWriter(version: Byte): Part -> Outcome<Bytes> { part => PutPart(version, part) }

  /**
   * A part after the wire: its box has lost its ephemeral key and its plaintext, and carries the
   * part's own GUID and slot; the recipient key is the box's, not the part's.
   */
  function NormPart(part: Part): Part {
    part.(key := None,
          box := PivBox(BOX_VERSION, if part.guid.Some? then Some((part.guid.value, part.slot)) else None, part.box.fields, [], None))
  }

  function PartNormaliser(): Part -> Part { part => NormPart(part) }

  predicate PartFits(part: Part) {
    && (part.name.Some? ==> FitsCstring8(part.name.value))
    && (part.cak.Some? ==> FitsString32(part.cak.value))
    && FieldsFit(2, part.box.fields)
  }

  lemma FieldsCollect(version: Byte, part: Part)
    requires version >= 2
    ensures CollectAll(NOTHING, FieldsOf(version, part)) ==
            Collected(part.guid, part.slot, part.name, None, part.cak, Some(NormPart(part).box))
  {
    hide CollectAll;
    NothingCollected(NOTHING);
    var f2, f3, f4, f5 := GuidFields(part.guid), NameFields(part.name), CakFields(part.cak), SlotFields(part.slot);
    var f6 := [BoxField(version, part.box)];
    CollectOptional(NOTHING, [], f2);
    assert [] + f2 == f2;
    CollectOptional(NOTHING, f2, f3);
    CollectOptional(NOTHING, f2 + f3, f4);
    CollectOptional(NOTHING, f2 + f3 + f4, f5);
    CollectOptional(NOTHING, f2 + f3 + f4 + f5, f6);
  }

  lemma NothingCollected(c: Collected)
    ensures CollectAll(c, []) == c
  {
  }

  lemma FieldsReadable(version: Byte, part: Part)
    requires version >= 2 && PartFits(part)
    ensures forall f :: f in FieldsOf(version, part) ==> Readable(OfEbox(version), f)
  {
    hide FieldsFit;
  }

  lemma PartRoundTrips(version: Byte, part: Part, rest: Bytes)
    requires version >= 2 && PartFits(part)
    ensures PutPart(version, part).Success?
    ensures GetPart(version, PutPart(version, part).value + rest) == Success((NormPart(part), rest))
  {
    hide PutFields, GetFields, CollectAll, FieldsOf, Readable, PartFits;
    FieldsReadable(version, part);
    FieldsRead(OfEbox(version), NOTHING, FieldsOf(version, part), [PART_END] + rest);
    FieldsCollect(version, part);
    FieldsEnd(OfEbox(version), CollectAll(NOTHING, FieldsOf(version, part)), rest);
    assert PutPart(version, part).value + rest == PutFields(FieldsOf(version, part)).value + ([PART_END] + rest);
  }

  lemma ReadPartsFit(version: Byte, b: Bytes)
    requires version >= 2 && GetPart(version, b).Success?
    ensures PartFits(GetPart(version, b).value.0)
  {
    hide PutFields, GetFields, CollectAll, FieldsFit;
    var fields := ReadPartsAreFields(OfEbox(version), NOTHING, b);
    CollectedAlwaysFits(OfEbox(version), NOTHING, fields);
  }

  // --- configs --------------------------------------------------------------------------

  function PutConfig(version: Byte, config: Config): Outcome<Bytes> {
    var nonce :- String8(config.nonce);
    var parts :- PutMany(PartWriter(version), config.parts);
    Success([KindByte(config.kind), config.n, |config.parts| % 256] + nonce + parts)
  }

  function GetConfig(version: Byte, b: Bytes): Parsed<Config> {
    var kindByte :- GetU8(b);
    var kind :- KindFrom(kindByte.0);
    var n :- GetU8(kindByte.1);
    var m :- GetU8(n.1);
    var nonce :- GetString8(m.1);
    var parts :- GetMany(PartReader(version), m.0, nonce.1);
    Success((Config(kind, n.0, nonce.0, parts.0), parts.1))
  }

  function ConfigReader(version: Byte): Bytes -> Parsed<Config> { b => GetConfig(version, b) }
  function ConfigWriter(version: Byte): Config -> Outcome<Bytes> { config => PutConfig(version, config) }

  function NormConfig(config: Config): Config { config.(parts := Each(PartNormaliser(), config.parts)) }
  function ConfigNormaliser(): Config -> Config { config => NormConfig(config) }

  predicate ConfigFits(config: Config) {
    && FitsString8(config.nonce) && |config.parts| < 256
    && forall i :: 0 <= i < |config.parts| ==> PartFits(config.parts[i])
  }

  lemma ConfigRoundTrips(version: Byte, config: Config, rest: Bytes)
    requires version >= 2 && ConfigFits(config)
    ensures PutConfig(version, config).Success?
    ensures GetConfig(version, PutConfig(version, config).value + rest) == Success((NormConfig(config), rest))
  {
    hide PutPart, GetPart, NormPart, PartFits, GetMany, PutMany, GetString8;
    forall i | 0 <= i < |config.parts| ensures PartWriter(version)(config.parts[i]).Success? {
      PartRoundTrips(version, config.parts[i], []);
    }
    forall i, tail: Bytes | 0 <= i < |config.parts|
      ensures PartReader(version)(PartWriter(version)(config.parts[i]).value + tail) == Success((PartNormaliser()(config.parts[i]), tail))
    {
      PartRoundTrips(version, config.parts[i], tail);
    }
    ManyRoundTrips(PartReader(version), PartWriter(version), PartNormaliser(), config.parts, rest);
    var nonce, parts := String8(config.nonce).value, PutMany(PartWriter(version), config.parts).value;
    var b := PutConfig(version, config).value + rest;
    assert b == [KindByte(config.kind), config.n, |config.parts|] + (nonce + (parts + rest));
    assert b[1..][1..][1..] == nonce + (parts + rest);
    String8Reads(config.nonce, parts + rest, nonce + (parts + rest));
  }

  lemma ReadConfigsFit(version: Byte, b: Bytes)
    requires version >= 2 && GetConfig(version, b).Success?
    ensures ConfigFits(GetConfig(version, b).value.0)
  {
    hide GetPart, PartFits, GetString8, GetMany;
    forall s | PartReader(version)(s).Success? ensures PartFits(PartReader(version)(s).value.0) { ReadPartsFit(version, s); }
    ManyFit(PartReader(version), PartFits, b[1..][1..][0], GetString8(b[1..][1..][1..]).value.1);
  }

  // --- ephemeral keys -------------------------------------------------------------------

  function PutEphemeral(e: Ephemeral): Outcome<Bytes> { Then(Cstring8(WireName(e.curve)), String8(e.pubkey)) }

  function GetEphemeral(b: Bytes): Parsed<Ephemeral> {
    var name :- GetCstring8(b);
    var curve :- CurveNamed(name.0);
    var pubkey :- GetString8(name.1);
    Success((Ephemeral(curve, pubkey.0), pubkey.1))
  }

  predicate EphemeralFits(e: Ephemeral) { FitsString8(e.pubkey) }

  lemma EphemeralRoundTrips(e: Ephemeral, rest: Bytes)
    requires EphemeralFits(e)
    ensures PutEphemeral(e).Success? && GetEphemeral(PutEphemeral(e).value + rest) == Success((e, rest))
  {
    hide CurveNamed, WireName, GetCstring8, GetString8;
    assert PutEphemeral(e).value + rest == Cstring8(WireName(e.curve)).value + (String8(e.pubkey).value + rest);
    Cstring8Reads(WireName(e.curve), String8(e.pubkey).value + rest, PutEphemeral(e).value + rest);
    CurveNamesRoundTrip(e.curve, WireName(e.curve));
    String8Reads(e.pubkey, rest, String8(e.pubkey).value + rest);
  }

  /** Version 1 has none. */
  function PutEphemerals(version: Byte, es: seq<Ephemeral>): Outcome<Bytes> {
    if version < 2 then Success([]) else Then(Success([|es| % 256]), PutMany(PutEphemeral, es))
  }

  function GetEphemerals(version: Byte, b: Bytes): Parsed<seq<Ephemeral>> {
    if version < 2 then Success(([], b))
    else
      var count :- GetU8(b);
      GetMany(GetEphemeral, count.0, count.1)
  }

  predicate EphemeralsFit(es: seq<Ephemeral>) {
    |es| < 256 && forall i :: 0 <= i < |es| ==> EphemeralFits(es[i])
  }

  lemma EphemeralsRoundTrip(version: Byte, es: seq<Ephemeral>, rest: Bytes)
    requires version >= 2 && EphemeralsFit(es)
    ensures PutEphemerals(version, es).Success?
    ensures GetEphemerals(version, PutEphemerals(version, es).value + rest) == Success((es, rest))
  {
    hide PutEphemeral, GetEphemeral, EphemeralFits, GetMany, PutMany;
    forall i | 0 <= i < |es| ensures PutEphemeral(es[i]).Success? { EphemeralRoundTrips(es[i], []); }
    forall i, tail: Bytes | 0 <= i < |es|
      ensures GetEphemeral(PutEphemeral(es[i]).value + tail) == Success((Same()(es[i]), tail))
    {
      EphemeralRoundTrips(es[i], tail);
    }
    ManyRoundTrips(GetEphemeral, PutEphemeral, Same(), es, rest);
    assert Each(Same(), es) == es;
    assert PutEphemerals(version, es).value + rest == [|es|] + (PutMany(PutEphemeral, es).value + rest);
  }

  lemma ReadEphemeralsFit(version: Byte, b: Bytes)
    requires version >= 2 && GetEphemerals(version, b).Success?
    ensures EphemeralsFit(GetEphemerals(version, b).value.0)
  {
    hide GetMany, CurveNamed, GetCstring8, GetString8;
    forall s | GetEphemeral(s).Success? ensures EphemeralFits(GetEphemeral(s).value.0) {}
    ManyFit(GetEphemeral, EphemeralFits, b[0], b[1..]);
  }

  // --- the recovery box -------------------------------------------------------------------

  datatype RecoveryBox = RecoveryBox(cipher: Text, iv: Bytes, enc: Bytes)

  function PutRecovery(r: RecoveryBox): Outcome<Bytes> { Then(Then(Cstring8(r.cipher), String8(r.iv)), String8(r.enc)) }

  function GetRecovery(b: Bytes): (r: Parsed<RecoveryBox>)
    ensures r.Success? ==> RecoveryFits(r.value.0)
  {
    var cipher :- GetCstring8(b);
    var iv :- GetString8(cipher.1);
    var enc :- GetString8(iv.1);
    Success((RecoveryBox(cipher.0, iv.0, enc.0), enc.1))
  }

  predicate RecoveryFits(r: RecoveryBox) { FitsCstring8(r.cipher) && FitsString8(r.iv) && FitsString8(r.enc) }

  lemma RecoveryRoundTrips(r: RecoveryBox, rest: Bytes)
    requires RecoveryFits(r)
    ensures PutRecovery(r).Success? && GetRecovery(PutRecovery(r).value + rest) == Success((r, rest))
  {
    hide GetCstring8, GetString8, Utf8;
    var tail2 := String8(r.enc).value + rest;
    var tail1 := String8(r.iv).value + tail2;
    assert PutRecovery(r).value + rest == Cstring8(r.cipher).value + tail1;
    Cstring8Reads(r.cipher, tail1, PutRecovery(r).value + rest);
    String8Reads(r.iv, tail2, tail1);
    String8Reads(r.enc, rest, tail2);
  }

  function RecoveryOf(e: Ebox): RecoveryBox { RecoveryBox(e.recoveryCipher, e.recoveryIv, e.recoveryEnc) }

  // --- eboxes -----------------------------------------------------------------------------

  function TypeByte(kind: EboxType): Byte { match kind case TemplateType => 1 case KeyType => 2 case StreamType => 3 }

  function TypeFrom(v: Byte): Outcome<EboxType> {
    if v == 2 then Success(KeyType) else if v == 3 then Success(StreamType) else Failure(BadEboxType(v))
  }

  function PutConfigs(version: Byte, configs: seq<Config>): Outcome<Bytes> {
    Then(Success([|configs| % 256]), PutMany(ConfigWriter(version), configs))
  }

  function GetConfigs(version: Byte, b: Bytes): Parsed<seq<Config>> {
    var count :- GetU8(b);
    GetMany(ConfigReader(version), count.0, count.1)
  }

  function PutEbox(e: Ebox): Outcome<Bytes> {
    var recovery :- PutRecovery(RecoveryOf(e));
    var ephemerals :- PutEphemerals(e.version, e.ephemerals);
    var configs :- PutConfigs(e.version, e.configs);
    Success([0xEB, 0x0C, e.version, TypeByte(e.kind)] + recovery + ephemerals + configs)
  }

  function GetEbox(b: Bytes): Parsed<Ebox> {
    var magic :- GetMagic(b);
    var version :- GetU8(magic.1);
    var kindByte :- GetU8(version.1);
    var kind :- TypeFrom(kindByte.0);
    var recovery :- GetRecovery(kindByte.1);
    var ephemerals :- GetEphemerals(version.0, recovery.1);
    var configs :- GetConfigs(version.0, ephemerals.1);
    Success((Ebox(version.0, kind, recovery.0.cipher, recovery.0.iv, recovery.0.enc, ephemerals.0, configs.0, None), configs.1))
  }

  /** An ebox after the wire: locked, and every part as `NormPart` says. */
  function NormEbox(e: Ebox): Ebox { e.(key := None, configs := Each(ConfigNormaliser(), e.configs)) }

  predicate EboxFits(e: Ebox) {
    && e.kind != TemplateType && RecoveryFits(RecoveryOf(e)) && EphemeralsFit(e.ephemerals)
    && ConfigsFit(e.configs)
  }

  predicate ConfigsFit(configs: seq<Config>) {
    |configs| < 256 && forall i :: 0 <= i < |configs| ==> ConfigFits(configs[i])
  }

  lemma ConfigsRoundTrip(version: Byte, configs: seq<Config>, rest: Bytes)
    requires version >= 2 && ConfigsFit(configs)
    ensures PutConfigs(version, configs).Success?
    ensures GetConfigs(version, PutConfigs(version, configs).value + rest) == Success((Each(ConfigNormaliser(), configs), rest))
  {
    hide PutConfig, GetConfig, NormConfig, ConfigFits, GetMany, PutMany;
    forall i | 0 <= i < |configs| ensures ConfigWriter(version)(configs[i]).Success? { ConfigRoundTrips(version, configs[i], []); }
    forall i, tail: Bytes | 0 <= i < |configs|
      ensures ConfigReader(version)(ConfigWriter(version)(configs[i]).value + tail) == Success((ConfigNormaliser()(configs[i]), tail))
    {
      ConfigRoundTrips(version, configs[i], tail);
    }
    ManyRoundTrips(ConfigReader(version), ConfigWriter(version), ConfigNormaliser(), configs, rest);
    assert PutConfigs(version, configs).value + rest == [|configs|] + (PutMany(ConfigWriter(version), configs).value + rest);
  }

  lemma ReadConfigListsFit(version: Byte, b: Bytes)
    requires version >= 2 && GetConfigs(version, b).Success?
    ensures ConfigsFit(GetConfigs(version, b).value.0)
  {
    hide GetConfig, ConfigFits, GetMany;
    forall s | ConfigReader(version)(s).Success? ensures ConfigFits(ConfigReader(version)(s).value.0) { ReadConfigsFit(version, s); }
    ManyFit(ConfigReader(version), ConfigFits, b[0], b[1..]);
  }

  lemma FittingEboxRoundTrips(e: Ebox, rest: Bytes)
    requires e.version >= 2 && EboxFits(e)
    ensures PutEbox(e).Success? && GetEbox(PutEbox(e).value + rest) == Success((NormEbox(e), rest))
  {
    hide PutRecovery, GetRecovery, PutEphemerals, GetEphemerals, PutConfigs, GetConfigs, ConfigFits, RecoveryFits, EphemeralsFit;
    ConfigsRoundTrip(e.version, e.configs, rest);
    var tail2 := PutConfigs(e.version, e.configs).value + rest;
    EphemeralsRoundTrip(e.version, e.ephemerals, tail2);
    var tail1 := PutEphemerals(e.version, e.ephemerals).value + tail2;
    RecoveryRoundTrips(RecoveryOf(e), tail1);
    var b := PutEbox(e).value + rest;
    assert b == [0xEB, 0x0C, e.version, TypeByte(e.kind)] + (PutRecovery(RecoveryOf(e)).value + tail1);
    assert b[1..][1..][1..][1..] == PutRecovery(RecoveryOf(e)).value + tail1;
  }

  lemma ReadEboxesFit(b: Bytes)
    requires GetEbox(b).Success? && GetEbox(b).value.0.version >= 2
    ensures EboxFits(GetEbox(b).value.0)
  {
    hide GetConfigs, ConfigFits, GetRecovery, GetEphemerals, RecoveryFits, EphemeralsFit;
    var version := GetEbox(b).value.0.version;
    var tail := GetRecovery(b[1..][1..][1..][1..]).value.1;
    ReadEphemeralsFit(version, tail);
    ReadConfigListsFit(version, GetEphemerals(version, tail).value.1);
  }

  /**
   * An ebox of version 2 or later comes back from the wire, whatever follows it, with only what
   * `NormEbox` says dropped, exactly if every list and string in it fits its count or length.
   */
  lemma EboxRoundTripsIff(e: Ebox, rest: Bytes)
    requires e.version >= 2
    ensures PutEbox(e).Success? && GetEbox(PutEbox(e).value + rest) == Success((NormEbox(e), rest)) <==> EboxFits(e)
  {
    hide GetEbox, PutEbox, NormConfig;
    if EboxFits(e) {
      FittingEboxRoundTrips(e, rest);
    } else if PutEbox(e).Success? && GetEbox(PutEbox(e).value + rest) == Success((NormEbox(e), rest)) {
      ReadEboxesFit(PutEbox(e).value + rest);
      NormFitsOnlyIfFits(e);
    }
  }

  lemma NormFitsOnlyIfFits(e: Ebox)
    requires EboxFits(NormEbox(e))
    ensures EboxFits(e)
  {
    hide FieldsFit;
    forall i | 0 <= i < |e.configs| ensures ConfigFits(e.configs[i]) {
      assert ConfigFits(NormEbox(e).configs[i]);
      forall j | 0 <= j < |e.configs[i].parts| ensures PartFits(e.configs[i].parts[j]) {
        assert PartFits(NormConfig(e.configs[i]).parts[j]);
      }
    }
  }

  /** Printing forgets nothing but what `NormEbox` drops. */
  lemma EboxesPrintApart(one: Ebox, other: Ebox)
    requires one.version >= 2 && other.version >= 2 && EboxFits(one) && EboxFits(other) && PutEbox(one) == PutEbox(other)
    ensures NormEbox(one) == NormEbox(other)
  {
    hide GetEbox, PutEbox, EboxFits, NormEbox;
    FittingEboxRoundTrips(one, []);
    FittingEboxRoundTrips(other, []);
  }

  // --- stream headers ------------------------------------------------------------------------

  datatype Header = Header(ebox: Ebox, chunkSize: nat, cipher: Text, mac: Text)

  function PutHeader(h: Header): Outcome<Bytes> {
    var ebox :- PutEbox(h.ebox);
    var cipher :- Cstring8(h.cipher);
    var mac :- Cstring8(h.mac);
    Success(ebox + U64(h.chunkSize) + cipher + mac)
  }

  /** The ebox reader is shared: the stream's own fields start where the ebox ends. */
  function GetHeader(b: Bytes): Parsed<Header> {
    var ebox :- GetEbox(b);
    var chunkSize :- GetU64(ebox.1);
    var cipher :- GetCstring8(chunkSize.1);
    var mac :- GetCstring8(cipher.1);
    Success((Header(ebox.0, chunkSize.0, cipher.0, mac.0), mac.1))
  }

  /** The chunk size is a u64. */
  predicate HeaderFits(h: Header) { EboxFits(h.ebox) && FitsCstring8(h.cipher) && FitsCstring8(h.mac) }

  lemma HeaderRoundTripsIff(h: Header, rest: Bytes)
    requires h.ebox.version >= 2 && h.chunkSize < TWO_64
    ensures PutHeader(h).Success? && GetHeader(PutHeader(h).value + rest) == Success((h.(ebox := NormEbox(h.ebox)), rest))
            <==> HeaderFits(h)
  {
    hide GetEbox, PutEbox, EboxFits, NormEbox, GetCstring8, Utf8, GetU64, U64;
    if HeaderFits(h) {
      var tail3 := Cstring8(h.mac).value + rest;
      var tail2 := Cstring8(h.cipher).value + tail3;
      var tail1 := U64(h.chunkSize) + tail2;
      FittingEboxRoundTrips(h.ebox, tail1);
      assert PutHeader(h).value + rest == PutEbox(h.ebox).value + tail1;
      U64RoundTrips(h.chunkSize, tail2);
      Cstring8Reads(h.cipher, tail3, tail2);
      Cstring8Reads(h.mac, rest, tail3);
    } else if PutHeader(h).Success? && GetHeader(PutHeader(h).value + rest) == Success((h.(ebox := NormEbox(h.ebox)), rest)) {
      assert NormEbox(h.ebox).version == h.ebox.version by { NormKeepsVersion(h.ebox); }
      ReadEboxesFit(PutHeader(h).value + rest);
      NormFitsOnlyIfFits(h.ebox);
    }
  }

  lemma NormKeepsVersion(e: Ebox)
    ensures NormEbox(e).version == e.version
  {
  }
}
