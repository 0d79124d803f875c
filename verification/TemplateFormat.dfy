/** Ebox templates: their wire form and its base64 file form (crates/piggy-box/src/template.rs). */
module TemplateFormat {
  import opened Base
  import opened Wire
  import opened BoxFormat
  import opened PartFields
  import opened Many

  datatype ConfigType = Primary | Recovery

  datatype TplPart = TplPart(
    guid: Option<Guid>, slot: Byte, name: Option<Text>, pubkey: Bytes, curve: Curve, cak: Option<Bytes>)

  datatype TplConfig = TplConfig(kind: ConfigType, n: Byte, parts: seq<TplPart>)

  datatype Template = Template(version: Byte, configs: seq<TplConfig>)

  const EBOX_TYPE_TEMPLATE: Byte := 1

  // --- parts ----------------------------------------------------------------------

  /** The optional fields both part writers put down after what is theirs alone, each only if there is one. */
  function GuidFields(guid: Option<Guid>): seq<Field> { if guid.Some? then [Tagged(GuidOf(guid.value))] else [] }
  function NameFields(name: Option<Text>): seq<Field> { if name.Some? then [Tagged(NameOf(name.value))] else [] }
  function CakFields(cak: Option<Bytes>): seq<Field> { if cak.Some? then [Tagged(CakOf(cak.value))] else [] }
  function SlotFields(slot: Byte): seq<Field> { if slot != DEFAULT_SLOT then [Tagged(SlotOf(slot))] else [] }

  function TplFields(part: TplPart): seq<Field> {
    [Tagged(PubkeyOf(part.curve, part.pubkey))] + GuidFields(part.guid) + NameFields(part.name) + CakFields(part.cak)
    + SlotFields(part.slot)
  }

  function PutTplPart(part: TplPart): Outcome<Bytes> { Then(PutFields(TplFields(part)), Success([PART_END])) }

  function GetTplPart(b: Bytes): Parsed<TplPart> {
    var c :- GetFields(OfTemplate, NOTHING, b);
    if c.0.key.None? then Failure(MissingPubkey)
    else
      var (curve, pubkey) := c.0.key.value;
      Success((TplPart(c.0.guid, c.0.slot, c.0.name, pubkey, curve, c.0.cak), c.1))
  }

  /** The name and the CAK fit their fields. */
  predicate DescriptionFits(part: TplPart) {
    && (part.name.Some? ==> FitsCstring8(part.name.value))
    && (part.cak.Some? ==> FitsString32(part.cak.value))
  }

  predicate TplPartFits(part: TplPart) { FitsString8(part.pubkey) && DescriptionFits(part) }

  lemma TplFieldsCollect(part: TplPart)
    ensures CollectAll(NOTHING, TplFields(part)) ==
            Collected(part.guid, part.slot, part.name, Some((part.curve, part.pubkey)), part.cak, None)
  {
    var f1 := [Tagged(PubkeyOf(part.curve, part.pubkey))];
    var f2, f3, f4 := GuidFields(part.guid), NameFields(part.name), CakFields(part.cak);
    assert f1[..0] == [];
    CollectOptional(NOTHING, f1, f2);
    CollectOptional(NOTHING, f1 + f2, f3);
    CollectOptional(NOTHING, f1 + f2 + f3, f4);
    CollectOptional(NOTHING, f1 + f2 + f3 + f4, SlotFields(part.slot));
  }

  lemma CollectOptional(c: Collected, fields: seq<Field>, more: seq<Field>)
    requires |more| <= 1
    ensures CollectAll(c, fields + more) == if more == [] then CollectAll(c, fields) else Collect(CollectAll(c, fields), more[0].value)
  {
    if more == [] {
      assert fields + more == fields;
    } else {
      assert (fields + more)[..|fields|] == fields;
    }
  }

  lemma TplFieldsReadable(part: TplPart)
    requires TplPartFits(part)
    ensures forall f :: f in TplFields(part) ==> Readable(OfTemplate, f)
  {
  }

  lemma TplPartRoundTrips(part: TplPart, rest: Bytes)
    requires TplPartFits(part)
    ensures PutTplPart(part).Success? && GetTplPart(PutTplPart(part).value + rest) == Success((part, rest))
  {
    hide PutFields, GetFields, CollectAll, TplFields, Readable;
    TplFieldsReadable(part);
    FieldsEnd(OfTemplate, CollectAll(NOTHING, TplFields(part)), rest);
    FieldsRead(OfTemplate, NOTHING, TplFields(part), [PART_END] + rest);
    TplFieldsCollect(part);
    assert PutTplPart(part).value + rest == PutFields(TplFields(part)).value + ([PART_END] + rest);
  }

  lemma ReadTplPartsFit(b: Bytes)
    requires GetTplPart(b).Success?
    ensures TplPartFits(GetTplPart(b).value.0)
  {
    hide PutFields, CollectAll;
    var fields := ReadPartsAreFields(OfTemplate, NOTHING, b);
    CollectedAlwaysFits(OfTemplate, NOTHING, fields);
  }

  // --- configs ------------------------------------------------------------------------

  function KindByte(kind: ConfigType): Byte { match kind case Primary => 1 case Recovery => 2 }

  function KindFrom(v: Byte): Outcome<ConfigType> {
    if v == 1 then Success(Primary) else if v == 2 then Success(Recovery) else Failure(BadConfigType(v))
  }

  function PutTplConfig(config: TplConfig): Outcome<Bytes> {
    Then(Success([KindByte(config.kind), config.n, |config.parts| % 256]), PutMany(PutTplPart, config.parts))
  }

  function GetTplConfig(b: Bytes): Parsed<TplConfig> {
    var kindByte :- GetU8(b);
    var kind :- KindFrom(kindByte.0);
    var n :- GetU8(kindByte.1);
    var m :- GetU8(n.1);
    if kind == Primary && n.0 > 1 then Failure(PrimaryThreshold(n.0))
    else
      var parts :- GetMany(GetTplPart, m.0, m.1);
      Success((TplConfig(kind, n.0, parts.0), parts.1))
  }

  predicate TplConfigFits(config: TplConfig) {
    && (config.kind == Primary ==> config.n <= 1) && |config.parts| < 256
    && forall i :: 0 <= i < |config.parts| ==> TplPartFits(config.parts[i])
  }

  function Same<T>(): T -> T { t => t }

  lemma TplConfigRoundTrips(config: TplConfig, rest: Bytes)
    requires TplConfigFits(config)
    ensures PutTplConfig(config).Success? && GetTplConfig(PutTplConfig(config).value + rest) == Success((config, rest))
  {
    hide PutTplPart, GetTplPart, TplPartFits, GetMany, PutMany;
    forall i | 0 <= i < |config.parts| ensures PutTplPart(config.parts[i]).Success? {
      TplPartRoundTrips(config.parts[i], []);
    }
    forall i, tail: Bytes | 0 <= i < |config.parts|
      ensures GetTplPart(PutTplPart(config.parts[i]).value + tail) == Success((Same()(config.parts[i]), tail))
    {
      TplPartRoundTrips(config.parts[i], tail);
    }
    ManyRoundTrips(GetTplPart, PutTplPart, Same(), config.parts, rest);
    assert Each(Same(), config.parts) == config.parts;
    var parts := PutMany(PutTplPart, config.parts).value;
    var b := PutTplConfig(config).value + rest;
    assert b == [KindByte(config.kind), config.n, |config.parts|] + (parts + rest);
    assert b[1..][1..][1..] == parts + rest;
  }

  lemma ReadTplConfigsFit(b: Bytes)
    requires GetTplConfig(b).Success?
    ensures TplConfigFits(GetTplConfig(b).value.0)
  {
    hide GetTplPart, TplPartFits;
    forall s | GetTplPart(s).Success? ensures TplPartFits(GetTplPart(s).value.0) { ReadTplPartsFit(s); }
    ManyFit(GetTplPart, TplPartFits, b[2], b[3..]);
    assert b[1..][1..][1..] == b[3..];
  }

  // --- templates ------------------------------------------------------------------------

  function PutTemplate(tpl: Template): Outcome<Bytes> {
    Then(Success([0xEB, 0x0C, tpl.version, EBOX_TYPE_TEMPLATE, |tpl.configs| % 256]), PutMany(PutTplConfig, tpl.configs))
  }

  function GetMagic(b: Bytes): Parsed<()> {
    var hi :- GetU8(b);
    var lo :- GetU8(hi.1);
    if (hi.0, lo.0) != (0xEB, 0x0C) then Failure(BadMagic) else Success(((), lo.1))
  }

  /** Whatever follows the last config is ignored; it is returned here so that nothing is lost sight of. */
  function GetTemplate(b: Bytes): Parsed<Template> {
    var magic :- GetMagic(b);
    var version :- GetU8(magic.1);
    var kind :- GetU8(version.1);
    if kind.0 != EBOX_TYPE_TEMPLATE then Failure(BadEboxType(kind.0))
    else
      var count :- GetU8(kind.1);
      var configs :- GetMany(GetTplConfig, count.0, count.1);
      Success((Template(version.0, configs.0), configs.1))
  }

  predicate TemplateFits(tpl: Template) {
    |tpl.configs| < 256 && forall i :: 0 <= i < |tpl.configs| ==> TplConfigFits(tpl.configs[i])
  }

  lemma FittingTemplateRoundTrips(tpl: Template, rest: Bytes)
    requires TemplateFits(tpl)
    ensures PutTemplate(tpl).Success? && GetTemplate(PutTemplate(tpl).value + rest) == Success((tpl, rest))
  {
    hide PutTplConfig, GetTplConfig, TplConfigFits, GetMany, PutMany;
    forall i | 0 <= i < |tpl.configs| ensures PutTplConfig(tpl.configs[i]).Success? {
      TplConfigRoundTrips(tpl.configs[i], []);
    }
    forall i, tail: Bytes | 0 <= i < |tpl.configs|
      ensures GetTplConfig(PutTplConfig(tpl.configs[i]).value + tail) == Success((Same()(tpl.configs[i]), tail))
    {
      TplConfigRoundTrips(tpl.configs[i], tail);
    }
    ManyRoundTrips(GetTplConfig, PutTplConfig, Same(), tpl.configs, rest);
    assert Each(Same(), tpl.configs) == tpl.configs;
    var configs := PutMany(PutTplConfig, tpl.configs).value;
    var b := PutTemplate(tpl).value + rest;
    assert b == [0xEB, 0x0C, tpl.version, EBOX_TYPE_TEMPLATE, |tpl.configs|] + (configs + rest);
    assert b[1..][1..][1..][1..][1..] == configs + rest;
  }

  lemma ReadTemplatesFit(b: Bytes)
    requires GetTemplate(b).Success?
    ensures TemplateFits(GetTemplate(b).value.0)
  {
    hide GetTplConfig, TplConfigFits;
    forall s | GetTplConfig(s).Success? ensures TplConfigFits(GetTplConfig(s).value.0) { ReadTplConfigsFit(s); }
    ManyFit(GetTplConfig, TplConfigFits, b[4], b[5..]);
    assert b[1..][1..][1..][1..][1..] == b[5..];
  }

  /**
   * A template comes back from the wire unchanged, whatever follows it, exactly if every list
   * and string in it fits its count or length and no PRIMARY config asks for more than one part.
   */
  lemma TemplateRoundTripsIff(tpl: Template, rest: Bytes)
    ensures PutTemplate(tpl).Success? && GetTemplate(PutTemplate(tpl).value + rest) == Success((tpl, rest))
            <==> TemplateFits(tpl)
  {
    hide GetTemplate, PutTemplate, TemplateFits;
    if TemplateFits(tpl) {
      FittingTemplateRoundTrips(tpl, rest);
    } else if PutTemplate(tpl).Success? && GetTemplate(PutTemplate(tpl).value + rest).Success? {
      ReadTemplatesFit(PutTemplate(tpl).value + rest);
    }
  }

  /** Two templates that fit are written alike only if they are alike. */
  lemma TemplatesPrintApart(one: Template, other: Template)
    requires TemplateFits(one) && TemplateFits(other) && PutTemplate(one) == PutTemplate(other)
    ensures one == other
  {
    hide GetTemplate, PutTemplate, TemplateFits;
    FittingTemplateRoundTrips(one, []);
    FittingTemplateRoundTrips(other, []);
  }
}
