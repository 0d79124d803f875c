/**
 * The template and ebox readers and writers as code that moves a cursor and grows a
 * buffer (crates/piggy-box/src/template.rs, ebox.rs and stream.rs).
 */
module BoxIO {
  import opened Base
  import opened Wire
  import opened BoxFormat
  import opened PartFields
  import opened PartIO
  import opened Many
  import opened TemplateFormat
  import opened EboxFormat

  // --- optional fields ------------------------------------------------------------

  method WriteOptional(w: WireWriter, fields: seq<Field>) returns (result: Outcome<()>)
    requires |fields| <= 1 && forall f :: f in fields ==> !f.value.WholeBox?
    modifies w
    ensures Appends(result, old(w.buf), w.buf, PutFields(fields))
  {
    hide PutField;
    if fields != [] {
      assert fields == [fields[0]];
      OneField(fields[0]);
      var _ :- WriteField(w, fields[0]);
    }
    return Success(());
  }

  /** The end of what a sequence of writes did: together they append what the functions say together. */
  lemma ThenAppends(before: Bytes, first: Outcome<Bytes>, second: Outcome<Bytes>)
    ensures first.Success? && second.Success? ==>
              Then(first, second).Success? && before + first.value + second.value == before + Then(first, second).value
  {
    if first.Success? && second.Success? {
      assert before + first.value + second.value == before + (first.value + second.value);
    }
  }

  /** GUID, NAME, CAK and SLOT, each only if there is one: the middle of both part writers. */
  method WriteDescription(w: WireWriter, guid: Option<Guid>, name: Option<Text>, cak: Option<Bytes>, slot: Byte)
      returns (result: Outcome<()>)
    modifies w
    ensures Appends(result, old(w.buf), w.buf, PutFields(GuidFields(guid) + NameFields(name) + CakFields(cak) + SlotFields(slot)))
  {
    hide PutFields;
    var f1, f2, f3, f4 := GuidFields(guid), NameFields(name), CakFields(cak), SlotFields(slot);
    FieldsJoin(f1, f2);
    FieldsJoin(f1 + f2, f3);
    FieldsJoin(f1 + f2 + f3, f4);
    ThenAppends(w.buf, PutFields(f1), PutFields(f2));
    ThenAppends(w.buf, PutFields(f1 + f2), PutFields(f3));
    ThenAppends(w.buf, PutFields(f1 + f2 + f3), PutFields(f4));
    var _ :- WriteOptional(w, f1);
    var _ :- WriteOptional(w, f2);
    var _ :- WriteOptional(w, f3);
    var _ :- WriteOptional(w, f4);
    return Success(());
  }

  // --- templates --------------------------------------------------------------------

  method WriteTplPart(w: WireWriter, part: TplPart) returns (result: Outcome<()>)
    modifies w
    ensures Appends(result, old(w.buf), w.buf, PutTplPart(part))
  {
    hide PutFields, PutField;
    var pubkey := Tagged(PubkeyOf(part.curve, part.pubkey));
    ghost var described := GuidFields(part.guid) + NameFields(part.name) + CakFields(part.cak) + SlotFields(part.slot);
    assert TplFields(part) == [pubkey] + described;
    OneField(pubkey);
    FieldsJoin([pubkey], described);
    ThenAppends(w.buf, PutFields([pubkey]), PutFields(described));
    ThenAppends(w.buf, PutFields(TplFields(part)), Success([PART_END]));
    var _ :- WriteField(w, pubkey);
    var _ :- WriteDescription(w, part.guid, part.name, part.cak, part.slot);
    w.PutU8(PART_END);
    return Success(());
  }

  method ReadTplPart(r: WireReader) returns (result: Outcome<TplPart>)
    requires r.Valid()
    modifies r
    ensures r.Valid() && Agrees(result, r.Rest(), GetTplPart(old(r.Rest())))
  {
    hide GetFields;
    var c :- ReadFields(r, OfTemplate);
    if c.key.None? { return Failure(MissingPubkey); }
    return Success(TplPart(c.guid, c.slot, c.name, c.key.value.1, c.key.value.0, c.cak));
  }

  method WriteTplConfig(w: WireWriter, config: TplConfig) returns (result: Outcome<()>)
    modifies w
    ensures Appends(result, old(w.buf), w.buf, PutTplConfig(config))
  {
    hide PutTplPart;
    w.PutU8(KindByte(config.kind));
    w.PutU8(config.n);
    w.PutU8(|config.parts| % 256);
    ghost var start := w.buf;
    for i := 0 to |config.parts|
      invariant PutMany(PutTplPart, config.parts[..i]).Success?
      invariant w.buf == start + PutMany(PutTplPart, config.parts[..i]).value
    {
      OneMoreWritten(PutTplPart, config.parts, i);
      if PutTplPart(config.parts[i]).Failure? { WritingStops(PutTplPart, i + 1, config.parts); }
      ThenAppends(start, PutMany(PutTplPart, config.parts[..i]), PutTplPart(config.parts[i]));
      var _ :- WriteTplPart(w, config.parts[i]);
    }
    assert config.parts[..|config.parts|] == config.parts;
    assert start == old(w.buf) + [KindByte(config.kind), config.n, |config.parts| % 256];
    ThenAppends(old(w.buf), Success([KindByte(config.kind), config.n, |config.parts| % 256]), PutMany(PutTplPart, config.parts));
    return Success(());
  }

  method ReadTplConfig(r: WireReader) returns (result: Outcome<TplConfig>)
    requires r.Valid()
    modifies r
    ensures r.Valid() && Agrees(result, r.Rest(), GetTplConfig(old(r.Rest())))
  {
    hide GetTplPart;
    var kindByte: Byte :- r.ReadU8();
    var kind :- KindFrom(kindByte);
    var n: Byte :- r.ReadU8();
    var m: Byte :- r.ReadU8();
    if kind == Primary && n > 1 { return Failure(PrimaryThreshold(n)); }
    ghost var start := r.Rest();
    var parts: seq<TplPart> := [];
    for i := 0 to m
      invariant r.Valid() && GetMany(GetTplPart, i, start) == Success((parts, r.Rest()))
    {
      if GetTplPart(r.Rest()).Failure? { ReadingStops(GetTplPart, i + 1, m, start); }
      var part :- ReadTplPart(r);
      parts := parts + [part];
    }
    return Success(TplConfig(kind, n, parts));
  }

  method TemplateToBytes(tpl: Template) returns (result: Outcome<Bytes>)
    ensures result == PutTemplate(tpl)
  {
    hide PutTplConfig;
    var w := new WireWriter();
    w.PutU8(0xEB);
    w.PutU8(0x0C);
    w.PutU8(tpl.version);
    w.PutU8(EBOX_TYPE_TEMPLATE);
    w.PutU8(|tpl.configs| % 256);
    ghost var start := w.buf;
    for i := 0 to |tpl.configs|
      invariant PutMany(PutTplConfig, tpl.configs[..i]).Success?
      invariant w.buf == start + PutMany(PutTplConfig, tpl.configs[..i]).value
    {
      OneMoreWritten(PutTplConfig, tpl.configs, i);
      if PutTplConfig(tpl.configs[i]).Failure? { WritingStops(PutTplConfig, i + 1, tpl.configs); }
      ThenAppends(start, PutMany(PutTplConfig, tpl.configs[..i]), PutTplConfig(tpl.configs[i]));
      var _ :- WriteTplConfig(w, tpl.configs[i]);
    }
    assert tpl.configs[..|tpl.configs|] == tpl.configs;
    assert start == [0xEB, 0x0C, tpl.version, EBOX_TYPE_TEMPLATE, |tpl.configs| % 256];
    return Success(w.buf);
  }

  method ReadTemplate(r: WireReader) returns (result: Outcome<Template>)
    requires r.Valid()
    modifies r
    ensures r.Valid() && Agrees(result, r.Rest(), GetTemplate(old(r.Rest())))
  {
    hide GetTplConfig;
    var hi: Byte :- r.ReadU8();
    var lo: Byte :- r.ReadU8();
    if hi != 0xEB || lo != 0x0C { return Failure(BadMagic); }
    var version: Byte :- r.ReadU8();
    var kind: Byte :- r.ReadU8();
    if kind != EBOX_TYPE_TEMPLATE { return Failure(BadEboxType(kind)); }
    var count: Byte :- r.ReadU8();
    ghost var start := r.Rest();
    var configs: seq<TplConfig> := [];
    for i := 0 to count
      invariant r.Valid() && GetMany(GetTplConfig, i, start) == Success((configs, r.Rest()))
    {
      if GetTplConfig(r.Rest()).Failure? { ReadingStops(GetTplConfig, i + 1, count, start); }
      var config :- ReadTplConfig(r);
      configs := configs + [config];
    }
    return Success(Template(version, configs));
  }

  method TemplateFromBytes(data: Bytes) returns (result: Outcome<Template>)
    ensures result == if GetTemplate(data).Success? then Success(GetTemplate(data).value.0) else Failure(GetTemplate(data).error)
  {
    hide GetTemplate;
    var r := new WireReader(data);
    result := ReadTemplate(r);
  }

  // --- eboxes -------------------------------------------------------------------------

  method WritePart(w: WireWriter, version: Byte, part: Part) returns (result: Outcome<()>)
    modifies w
    ensures Appends(result, old(w.buf), w.buf, PutPart(version, part))
  {
    hide PutFields, PutField;
    ghost var described := GuidFields(part.guid) + NameFields(part.name) + CakFields(part.cak) + SlotFields(part.slot);
    var box := BoxField(version, part.box);
    assert FieldsOf(version, part) == described + [box];
    OneField(box);
    FieldsJoin(described, [box]);
    ThenAppends(w.buf, PutFields(described), PutFields([box]));
    ThenAppends(w.buf, PutFields(FieldsOf(version, part)), Success([PART_END]));
    var _ :- WriteDescription(w, part.guid, part.name, part.cak, part.slot);
    if version >= 2 {
      var _ :- WriteField(w, box);
    } else {
      var _ :- WriteWholeBox(w, part.box);
    }
    w.PutU8(PART_END);
    return Success(());
  }

  method WriteWholeBox(w: WireWriter, box: PivBox) returns (result: Outcome<()>)
    modifies w
    ensures Appends(result, old(w.buf), w.buf, PutField(Tagged(WholeBox(box))))
  {
    hide PutPivBox;
    w.PutU8(PART_BOX);
    var bytes :- PutPivBox(box);
    w.PutRaw(bytes);
    assert w.buf == old(w.buf) + ([PART_BOX] + bytes);
    return Success(());
  }

  method ReadPart(r: WireReader, version: Byte) returns (result: Outcome<Part>)
    requires r.Valid()
    modifies r
    ensures r.Valid() && Agrees(result, r.Rest(), PartReader(version)(old(r.Rest())))
  {
    hide GetFields;
    var c :- ReadFields(r, OfEbox(version));
    if c.box.None? { return Failure(MissingBox); }
    return Success(Part(c.guid, c.slot, c.name, c.key, c.cak, c.box.value));
  }

  method WriteConfig(w: WireWriter, version: Byte, config: Config) returns (result: Outcome<()>)
    modifies w
    ensures Appends(result, old(w.buf), w.buf, PutConfig(version, config))
  {
    hide PutPart;
    w.PutU8(KindByte(config.kind));
    w.PutU8(config.n);
    w.PutU8(|config.parts| % 256);
    if config.nonce != [] {
      var _ :- w.PutString8(config.nonce);
    } else {
      w.PutU8(0);
    }
    ghost var start := w.buf;
    for i := 0 to |config.parts|
      invariant PutMany(PartWriter(version), config.parts[..i]).Success?
      invariant w.buf == start + PutMany(PartWriter(version), config.parts[..i]).value
    {
      OneMoreWritten(PartWriter(version), config.parts, i);
      if PutPart(version, config.parts[i]).Failure? { WritingStops(PartWriter(version), i + 1, config.parts); }
      ThenAppends(start, PutMany(PartWriter(version), config.parts[..i]), PutPart(version, config.parts[i]));
      var _ :- WritePart(w, version, config.parts[i]);
    }
    assert config.parts[..|config.parts|] == config.parts;
    assert start == old(w.buf) + ([KindByte(config.kind), config.n, |config.parts| % 256] + String8(config.nonce).value);
    assert w.buf == old(w.buf) + PutConfig(version, config).value;
    return Success(());
  }

  method ReadConfig(r: WireReader, version: Byte) returns (result: Outcome<Config>)
    requires r.Valid()
    modifies r
    ensures r.Valid() && Agrees(result, r.Rest(), ConfigReader(version)(old(r.Rest())))
  {
    hide GetPart, GetString8;
    var kindByte: Byte :- r.ReadU8();
    var kind :- KindFrom(kindByte);
    var n: Byte :- r.ReadU8();
    var m: Byte :- r.ReadU8();
    var nonce :- r.ReadString8();
    ghost var start := r.Rest();
    var parts: seq<Part> := [];
    for i := 0 to m
      invariant r.Valid() && GetMany(PartReader(version), i, start) == Success((parts, r.Rest()))
    {
      if PartReader(version)(r.Rest()).Failure? { ReadingStops(PartReader(version), i + 1, m, start); }
      var part :- ReadPart(r, version);
      parts := parts + [part];
    }
    return Success(Config(kind, n, nonce, parts));
  }

  method WriteEphemerals(w: WireWriter, es: seq<Ephemeral>) returns (result: Outcome<()>)
    modifies w
    ensures Appends(result, old(w.buf), w.buf, PutEphemerals(2, es))
  {
    hide WireName, Cstring8, String8;
    w.PutU8(|es| % 256);
    ghost var start := w.buf;
    for i := 0 to |es|
      invariant PutMany(PutEphemeral, es[..i]).Success?
      invariant w.buf == start + PutMany(PutEphemeral, es[..i]).value
    {
      OneMoreWritten(PutEphemeral, es, i);
      if PutEphemeral(es[i]).Failure? { WritingStops(PutEphemeral, i + 1, es); }
      ThenAppends(start, PutMany(PutEphemeral, es[..i]), PutEphemeral(es[i]));
      ThenAppends(w.buf, Cstring8(WireName(es[i].curve)), String8(es[i].pubkey));
      var _ :- w.PutCstring8(WireName(es[i].curve));
      var _ :- w.PutString8(es[i].pubkey);
    }
    assert es[..|es|] == es;
    ThenAppends(old(w.buf), Success([|es| % 256]), PutMany(PutEphemeral, es));
    return Success(());
  }

  method ReadEphemerals(r: WireReader) returns (result: Outcome<seq<Ephemeral>>)
    requires r.Valid()
    modifies r
    ensures r.Valid() && Agrees(result, r.Rest(), GetEphemerals(2, old(r.Rest())))
  {
    hide GetCstring8, GetString8, CurveNamed;
    var count: Byte :- r.ReadU8();
    ghost var start := r.Rest();
    var es: seq<Ephemeral> := [];
    for i := 0 to count
      invariant r.Valid() && GetMany(GetEphemeral, i, start) == Success((es, r.Rest()))
    {
      if GetEphemeral(r.Rest()).Failure? { ReadingStops(GetEphemeral, i + 1, count, start); }
      var name :- r.ReadCstring8();
      var curve :- CurveNamed(name);
      var pubkey :- r.ReadString8();
      es := es + [Ephemeral(curve, pubkey)];
    }
    return Success(es);
  }

  method WriteConfigs(w: WireWriter, version: Byte, configs: seq<Config>) returns (result: Outcome<()>)
    modifies w
    ensures Appends(result, old(w.buf), w.buf, PutConfigs(version, configs))
  {
    hide PutConfig;
    w.PutU8(|configs| % 256);
    ghost var start := w.buf;
    for i := 0 to |configs|
      invariant PutMany(ConfigWriter(version), configs[..i]).Success?
      invariant w.buf == start + PutMany(ConfigWriter(version), configs[..i]).value
    {
      OneMoreWritten(ConfigWriter(version), configs, i);
      if PutConfig(version, configs[i]).Failure? { WritingStops(ConfigWriter(version), i + 1, configs); }
      ThenAppends(start, PutMany(ConfigWriter(version), configs[..i]), PutConfig(version, configs[i]));
      var _ :- WriteConfig(w, version, configs[i]);
    }
    assert configs[..|configs|] == configs;
    ThenAppends(old(w.buf), Success([|configs| % 256]), PutMany(ConfigWriter(version), configs));
    return Success(());
  }

  method EboxToBytes(e: Ebox) returns (result: Outcome<Bytes>)
    ensures result == PutEbox(e)
  {
    hide Cstring8, String8, PutEphemerals, PutConfigs;
    var w := new WireWriter();
    w.PutU8(0xEB);
    w.PutU8(0x0C);
    w.PutU8(e.version);
    w.PutU8(TypeByte(e.kind));
    var _ :- w.PutCstring8(e.recoveryCipher);
    var _ :- w.PutString8(e.recoveryIv);
    var _ :- w.PutString8(e.recoveryEnc);
    assert w.buf == [0xEB, 0x0C, e.version, TypeByte(e.kind)] + PutRecovery(RecoveryOf(e)).value;
    NewerEphemerals(e.version, e.ephemerals);
    if e.version >= 2 {
      var _ :- WriteEphemerals(w, e.ephemerals);
    }
    var _ :- WriteConfigs(w, e.version, e.configs);
    assert w.buf == PutEbox(e).value;
    return Success(w.buf);
  }

  lemma NewerEphemerals(version: Byte, es: seq<Ephemeral>)
    ensures PutEphemerals(version, es) == if version >= 2 then PutEphemerals(2, es) else Success([])
  {
  }

  method ReadConfigs(r: WireReader, version: Byte) returns (result: Outcome<seq<Config>>)
    requires r.Valid()
    modifies r
    ensures r.Valid() && Agrees(result, r.Rest(), GetConfigs(version, old(r.Rest())))
  {
    hide GetConfig;
    var count: Byte :- r.ReadU8();
    ghost var start := r.Rest();
    var configs: seq<Config> := [];
    for i := 0 to count
      invariant r.Valid() && GetMany(ConfigReader(version), i, start) == Success((configs, r.Rest()))
    {
      if ConfigReader(version)(r.Rest()).Failure? { ReadingStops(ConfigReader(version), i + 1, count, start); }
      var config :- ReadConfig(r, version);
      configs := configs + [config];
    }
    return Success(configs);
  }

  method ReadEbox(r: WireReader) returns (result: Outcome<Ebox>)
    requires r.Valid()
    modifies r
    ensures r.Valid() && Agrees(result, r.Rest(), GetEbox(old(r.Rest())))
  {
    hide GetConfigs, GetEphemerals, GetCstring8, GetString8;
    var hi: Byte :- r.ReadU8();
    var lo: Byte :- r.ReadU8();
    if hi != 0xEB || lo != 0x0C { return Failure(BadMagic); }
    var version: Byte :- r.ReadU8();
    var kindByte: Byte :- r.ReadU8();
    var kind :- TypeFrom(kindByte);
    var recoveryCipher :- r.ReadCstring8();
    var recoveryIv :- r.ReadString8();
    var recoveryEnc :- r.ReadString8();
    var ephemerals: seq<Ephemeral> := [];
    OlderEphemerals(version, r.Rest());
    if version >= 2 { ephemerals :- ReadEphemerals(r); }
    var configs :- ReadConfigs(r, version);
    return Success(Ebox(version, kind, recoveryCipher, recoveryIv, recoveryEnc, ephemerals, configs, None));
  }

  lemma OlderEphemerals(version: Byte, b: Bytes)
    ensures GetEphemerals(version, b) == if version >= 2 then GetEphemerals(2, b) else Success(([], b))
  {
  }

  // --- stream headers --------------------------------------------------------------------

  method StreamToBytes(h: Header) returns (result: Outcome<Bytes>)
    ensures result == PutHeader(h)
  {
    hide PutEbox, Cstring8, U64;
    var w := new WireWriter();
    var ebox :- EboxToBytes(h.ebox);
    w.PutRaw(ebox);
    w.PutU64(h.chunkSize);
    var _ :- w.PutCstring8(h.cipher);
    var _ :- w.PutCstring8(h.mac);
    assert w.buf == PutHeader(h).value;
    return Success(w.buf);
  }

  method StreamFromBytes(data: Bytes) returns (result: Outcome<Header>)
    ensures result == if GetHeader(data).Success? then Success(GetHeader(data).value.0) else Failure(GetHeader(data).error)
  {
    hide GetEbox, GetCstring8, GetU64;
    var r := new WireReader(data);
    var ebox :- ReadEbox(r);
    var chunkSize :- r.ReadU64();
    var cipher :- r.ReadCstring8();
    var mac :- r.ReadCstring8();
    return Success(Header(ebox, chunkSize, cipher, mac));
  }
}
