/**
 * The tagged fields of a template part or an ebox part: the tag loop both readers
 * run (crates/piggy-box/src/template.rs and ebox.rs).
 */
module PartFields {
  import opened Base
  import opened Wire
  import opened BoxFormat

  const PART_END: Byte := 0
  const PART_PUBKEY: Byte := 1
  const PART_NAME: Byte := 2
  const PART_CAK: Byte := 3
  const PART_GUID: Byte := 4
  const PART_BOX: Byte := 5
  const PART_SLOT: Byte := 6
  const PART_OPTIONAL_FLAG: Byte := 0x80
  const DEFAULT_SLOT: Byte := 0x9D

  /** Whose parts are read: a template's, which hold no box, or those of an ebox of some version. */
  datatype Kind = OfTemplate | OfEbox(version: Byte)

  /** One field: its value, or the payload of an optional tag nobody knows. */
  datatype Value =
    | PubkeyOf(curve: Curve, point: Bytes) | GuidOf(guid: Guid) | NameOf(name: Text) | CakOf(cak: Bytes) | SlotOf(slot: Byte)
    | InlineBox(fields: BoxFields) | WholeBox(box: PivBox) | Unknown(payload: Bytes)

  datatype Field = Field(tag: Byte, value: Value)

  /** What the loop has collected; a later field replaces an earlier one. */
  datatype Collected = Collected(
    guid: Option<Guid>, slot: Byte, name: Option<Text>, key: Option<(Curve, Bytes)>, cak: Option<Bytes>, box: Option<PivBox>)

  const NOTHING: Collected := Collected(None, DEFAULT_SLOT, None, None, None, None)

  function GuidSlot(c: Collected): Option<(Guid, Byte)> {
    if c.guid.Some? then Some((c.guid.value, c.slot)) else None
  }

  function Collect(c: Collected, v: Value): Collected {
    match v
    case PubkeyOf(curve, point) => c.(key := Some((curve, point)))
    case GuidOf(guid) => c.(guid := Some(guid))
    case NameOf(name) => c.(name := Some(name))
    case CakOf(cak) => c.(cak := Some(cak))
    case SlotOf(slot) => c.(slot := slot)
    case InlineBox(fields) => c.(box := Some(PivBox(BOX_VERSION, GuidSlot(c), fields, [], None)))
    case WholeBox(box) => c.(box := Some(box))
    case Unknown(_) => c
  }

  // --- reading one field ------------------------------------------------------------

  function GetPubkey(b: Bytes): (r: Parsed<Value>)
    ensures r.Success? ==> |r.value.1| <= |b| && r.value.0.PubkeyOf? && FitsString8(r.value.0.point)
  {
    var name :- GetCstring8(b);
    var curve :- CurveNamed(name.0);
    var point :- GetString8(name.1);
    Success((PubkeyOf(curve, point.0), point.1))
  }

  function GetGuid(b: Bytes): (r: Parsed<Value>)
    ensures r.Success? ==> |r.value.1| <= |b| && r.value.0.GuidOf?
  {
    var raw :- GetString8(b);
    if |raw.0| != 16 then Failure(BadGuid) else Success((GuidOf(raw.0), raw.1))
  }

  /** Version 1 boxes are read from the rest of the input without being consumed. */
  function GetBox(version: Byte, b: Bytes): (r: Parsed<Value>)
    ensures r.Success? ==> |r.value.1| <= |b|
    ensures r.Success? && version >= 2 ==> r.value.0.InlineBox? && FieldsFit(2, r.value.0.fields)
  {
    if version >= 2 then
      var suite :- GetSuite(2, b);
      var payload :- GetPayload(suite.1);
      Success((InlineBox(BoxFields(suite.0, payload.0.0, payload.0.1)), payload.1))
    else
      var box :- GetPivBox(b);
      Success((WholeBox(box.0), b))
  }

  /** The field that `tag` announces. The optional flag makes no difference to a known tag. */
  function GetValue(kind: Kind, tag: Byte, b: Bytes): (r: Parsed<Value>)
    ensures r.Success? ==> |r.value.1| <= |b|
  {
    var known := tag % PART_OPTIONAL_FLAG;
    if known == PART_PUBKEY then GetPubkey(b)
    else if known == PART_GUID then GetGuid(b)
    else if known == PART_NAME then var name :- GetCstring8(b); Success((NameOf(name.0), name.1))
    else if known == PART_CAK then var cak :- GetString(b); Success((CakOf(cak.0), cak.1))
    else if known == PART_SLOT then var slot :- GetU8(b); Success((SlotOf(slot.0), slot.1))
    else if known == PART_BOX && kind.OfEbox? then GetBox(kind.version, b)
    else if tag >= PART_OPTIONAL_FLAG then var skipped :- GetString8(b); Success((Unknown(skipped.0), skipped.1))
    else Failure(UnknownTag(tag))
  }

  /** The tag loop. Every round consumes at least the tag. */
  function GetFields(kind: Kind, c: Collected, b: Bytes): (r: Parsed<Collected>)
    ensures r.Success? ==> |r.value.1| < |b|
    decreases |b|
  {
    var tag :- GetU8(b);
    if tag.0 == PART_END then Success((c, tag.1))
    else
      var value :- GetValue(kind, tag.0, tag.1);
      GetFields(kind, Collect(c, value.0), value.1)
  }

  // --- writing fields ---------------------------------------------------------------------

  function TagOf(v: Value): Byte {
    match v
    case PubkeyOf(_, _) => PART_PUBKEY
    case GuidOf(_) => PART_GUID
    case NameOf(_) => PART_NAME
    case CakOf(_) => PART_CAK
    case SlotOf(_) => PART_SLOT
    case InlineBox(_) => PART_BOX
    case WholeBox(_) => PART_BOX
    case Unknown(_) => 0
  }

  function PutValue(v: Value): Outcome<Bytes> {
    match v
    case PubkeyOf(curve, point) => Then(Cstring8(WireName(curve)), String8(point))
    case GuidOf(guid) => String8(guid)
    case NameOf(name) => Cstring8(name)
    case CakOf(cak) => Success(String32(cak))
    case SlotOf(slot) => Success([slot])
    case InlineBox(fields) => Then(PutSuite(2, fields.suite), PutPayload(fields.iv, fields.ciphertext))
    case WholeBox(box) => PutPivBox(box)
    case Unknown(payload) => String8(payload)
  }

  function PutField(f: Field): Outcome<Bytes> { Then(Success([f.tag]), PutValue(f.value)) }

  function PutFields(fields: seq<Field>): Outcome<Bytes> {
    if fields == [] then Success([]) else Then(PutFields(fields[..|fields| - 1]), PutField(fields[|fields| - 1]))
  }

  /** A value as the writers write it. */
  function Tagged(v: Value): Field { Field(TagOf(v), v) }

  function CollectAll(c: Collected, fields: seq<Field>): Collected {
    if fields == [] then c else Collect(CollectAll(c, fields[..|fields| - 1]), fields[|fields| - 1].value)
  }

  predicate ValueFits(v: Value) {
    match v
    case PubkeyOf(_, point) => FitsString8(point)
    case GuidOf(_) => true
    case NameOf(name) => FitsCstring8(name)
    case CakOf(cak) => FitsString32(cak)
    case SlotOf(_) => true
    case InlineBox(fields) => FieldsFit(2, fields)
    case WholeBox(_) => false
    case Unknown(payload) => FitsString8(payload)
  }

  predicate KnownTag(kind: Kind, tag: Byte) {
    var known := tag % PART_OPTIONAL_FLAG;
    known in {PART_PUBKEY, PART_NAME, PART_CAK, PART_GUID, PART_SLOT} || (known == PART_BOX && kind.OfEbox?)
  }

  /** A field the reader of this kind takes as what it is. */
  predicate Readable(kind: Kind, f: Field) {
    && f.tag != PART_END && ValueFits(f.value)
    && (f.value.Unknown? ==> f.tag >= PART_OPTIONAL_FLAG && !KnownTag(kind, f.tag))
    && (!f.value.Unknown? ==> f.tag % PART_OPTIONAL_FLAG == TagOf(f.value))
    && (f.value.InlineBox? ==> kind.OfEbox? && kind.version >= 2)
  }

  // --- every readable field is read as written ------------------------------------------------

  lemma ValueReads(kind: Kind, f: Field, rest: Bytes)
    requires Readable(kind, f)
    ensures PutValue(f.value).Success? && GetValue(kind, f.tag, PutValue(f.value).value + rest) == Success((f.value, rest))
  {
    hide GetSuite, PutSuite, GetPayload, PutPayload, WireName, Utf8, CurveNamed, String32, GetString;
    match f.value
    case PubkeyOf(curve, point) =>
      assert PutValue(f.value).value + rest == Cstring8(WireName(curve)).value + (String8(point).value + rest);
      Cstring8Reads(WireName(curve), String8(point).value + rest, PutValue(f.value).value + rest);
      CurveNamesRoundTrip(curve, WireName(curve));
      String8Reads(point, rest, String8(point).value + rest);
    case GuidOf(guid) => String8Reads(guid, rest, PutValue(f.value).value + rest);
    case NameOf(name) => Cstring8Reads(name, rest, PutValue(f.value).value + rest);
    case CakOf(cak) => String32RoundTripsIff(cak, rest);
    case SlotOf(slot) =>
    case InlineBox(fields) => InlineBoxReads(fields, rest);
    case Unknown(payload) => String8Reads(payload, rest, PutValue(f.value).value + rest);
  }

  lemma InlineBoxReads(fields: BoxFields, rest: Bytes)
    requires FieldsFit(2, fields)
    ensures PutValue(InlineBox(fields)).Success?
    ensures GetBox(2, PutValue(InlineBox(fields)).value + rest) == Success((InlineBox(fields), rest))
  {
    hide GetSuite, PutSuite, GetPayload, SuiteFits;
    SuiteWrites(2, fields.suite);
    var b := PutValue(InlineBox(fields)).value + rest;
    assert b == PutSuite(2, fields.suite).value + (PutPayload(fields.iv, fields.ciphertext).value + rest);
    SuiteReads(2, fields.suite, PutPayload(fields.iv, fields.ciphertext).value + rest, b);
    PayloadReads(fields.iv, fields.ciphertext, rest, PutPayload(fields.iv, fields.ciphertext).value + rest);
  }

  /** Readable fields, however many and whatever follows them, are collected in order. */
  lemma {:induction false} FieldsRead(kind: Kind, c: Collected, fields: seq<Field>, rest: Bytes)
    requires forall f :: f in fields ==> Readable(kind, f)
    ensures PutFields(fields).Success?
    ensures GetFields(kind, c, PutFields(fields).value + rest) == GetFields(kind, CollectAll(c, fields), rest)
  {
    hide Readable, GetValue, PutValue;
    if fields == [] {
      assert PutFields(fields).value + rest == rest;
    } else {
      var n := |fields| - 1;
      var f := fields[n];
      FieldsRead(kind, c, fields[..n], [f.tag] + (PutValue(f.value).value + rest)) by { ValueWrites(kind, f); }
      ValueWrites(kind, f);
      ValueReads(kind, f, rest);
      var tail := [f.tag] + (PutValue(f.value).value + rest);
      assert PutFields(fields).value + rest == PutFields(fields[..n]).value + tail;
      assert tail[1..] == PutValue(f.value).value + rest;
    }
  }

  lemma FieldsEnd(kind: Kind, c: Collected, rest: Bytes)
    ensures GetFields(kind, c, [PART_END] + rest) == Success((c, rest))
  {
  }

  lemma ValueWrites(kind: Kind, f: Field)
    requires Readable(kind, f)
    ensures PutValue(f.value).Success? && f.tag != PART_END
  {
    ValueReads(kind, f, []);
  }

  // --- forward compatibility -------------------------------------------------------------------

  lemma {:induction false} UnknownCollectsNothing(c: Collected, junk: seq<Field>)
    requires forall f :: f in junk ==> f.value.Unknown?
    ensures CollectAll(c, junk) == c
  {
    if junk != [] {
      var n := |junk| - 1;
      assert junk[n] in junk && forall f :: f in junk[..n] ==> f in junk;
      UnknownCollectsNothing(c, junk[..n]);
    }
  }

  /**
   * Optional fields nobody knows, any number of them with any payloads, change nothing about
   * how a part reads, wherever between its fields they stand and whatever comes after.
   */
  lemma UnknownOptionalFieldsAreIgnored(kind: Kind, before: seq<Field>, junk: seq<Field>, rest: Bytes)
    requires forall f :: f in before ==> Readable(kind, f)
    requires forall f :: f in junk ==> Readable(kind, f) && f.value.Unknown?
    ensures PutFields(before).Success? && PutFields(junk).Success?
    ensures GetFields(kind, NOTHING, PutFields(before).value + PutFields(junk).value + rest) ==
            GetFields(kind, NOTHING, PutFields(before).value + rest)
  {
    FieldsRead(kind, NOTHING, before, rest);
    FieldsRead(kind, CollectAll(NOTHING, before), junk, rest);
    FieldsRead(kind, NOTHING, before, PutFields(junk).value + rest);
    UnknownCollectsNothing(CollectAll(NOTHING, before), junk);
    assert PutFields(before).value + PutFields(junk).value + rest == PutFields(before).value + (PutFields(junk).value + rest);
  }

  /** A tag nobody knows that is not optional makes the part unreadable, wherever it stands. */
  lemma UnknownCriticalTagFails(kind: Kind, before: seq<Field>, tag: Byte, rest: Bytes)
    requires forall f :: f in before ==> Readable(kind, f)
    requires 0 < tag < PART_OPTIONAL_FLAG && !KnownTag(kind, tag)
    ensures PutFields(before).Success?
    ensures GetFields(kind, NOTHING, PutFields(before).value + ([tag] + rest)) == Failure(UnknownTag(tag))
  {
    FieldsRead(kind, NOTHING, before, [tag] + rest);
  }

  // --- every part that reads is made of such fields -----------------------------------------------

  predicate ReadsBack(value: Value, rest: Bytes, b: Bytes) {
    ValueFits(value) && PutValue(value).Success? && b == PutValue(value).value + rest
  }

  lemma PubkeyReadsBack(b: Bytes)
    requires GetPubkey(b).Success?
    ensures var (v, rest) := GetPubkey(b).value; ReadsBack(v, rest, b)
  {
    hide WireName, Utf8, CurveNamed;
    Cstring8ReadsBack(b);
    var (name, after) := GetCstring8(b).value;
    CurveNamesRoundTrip(CurveNamed(name).value, name);
    String8ReadsBack(after);
  }

  lemma PayloadReadsBack(b: Bytes)
    requires GetPayload(b).Success?
    ensures var ((iv, ciphertext), rest) := GetPayload(b).value;
            PutPayload(iv, ciphertext).Success? && b == PutPayload(iv, ciphertext).value + rest
  {
    hide String32, GetString, GetString8;
    String8ReadsBack(b);
    String32ReadsBack(GetString8(b).value.1);
  }

  lemma InlineBoxReadsBack(b: Bytes)
    requires GetBox(2, b).Success?
    ensures var (v, rest) := GetBox(2, b).value; ReadsBack(v, rest, b)
  {
    hide GetSuite, PutSuite, GetPayload, PutPayload, SuiteFits;
    SuiteReadsBack(b);
    PayloadReadsBack(GetSuite(2, b).value.1);
  }

  lemma SuiteReadsBack(b: Bytes)
    requires GetSuite(2, b).Success?
    ensures var (s, rest) := GetSuite(2, b).value; PutSuite(2, s).Success? && b == PutSuite(2, s).value + rest
  {
    hide GetCstring8, GetString8, Utf8, WireName;
    Cstring8ReadsBack(b);
    var kdf := GetCstring8(b).value.1;
    Cstring8ReadsBack(kdf);
    var nonce := GetCstring8(kdf).value.1;
    String8ReadsBack(nonce);
    var name := GetString8(nonce).value.1;
    Cstring8ReadsBack(name);
    CurveNamesRoundTrip(GetSuite(2, b).value.0.curve, GetCstring8(name).value.0);
    String8ReadsBack(GetCstring8(name).value.1);
  }

  lemma ValueReadsBack(kind: Kind, tag: Byte, b: Bytes)
    requires GetValue(kind, tag, b).Success? && tag != PART_END && (kind.OfEbox? ==> kind.version >= 2)
    ensures var (v, rest) := GetValue(kind, tag, b).value;
            Readable(kind, Field(tag, v)) && ReadsBack(v, rest, b)
  {
    hide GetPubkey, GetBox, Utf8, String32, GetString, FieldsFit;
    match tag % PART_OPTIONAL_FLAG
    case 1 => PubkeyReadsBack(b);
    case 2 => Cstring8ReadsBack(b);
    case 3 => String32ReadsBack(b);
    case 4 => String8ReadsBack(b);
    case 6 =>
    case _ =>
      if tag % PART_OPTIONAL_FLAG == PART_BOX && kind.OfEbox? {
        assert GetBox(kind.version, b) == GetBox(2, b) by { BoxVersionsReadAlike(kind.version, b); }
        InlineBoxReadsBack(b);
      } else {
        String8ReadsBack(b);
      }
  }

  lemma BoxVersionsReadAlike(version: Byte, b: Bytes)
    requires version >= 2
    ensures GetBox(version, b) == GetBox(2, b)
  {
  }

  /** Whatever reads as a part is a run of readable fields and an end tag, and nothing else was looked at. */
  lemma {:induction false} ReadPartsAreFields(kind: Kind, c: Collected, b: Bytes) returns (fields: seq<Field>)
    requires GetFields(kind, c, b).Success? && (kind.OfEbox? ==> kind.version >= 2)
    ensures forall f :: f in fields ==> Readable(kind, f)
    ensures PutFields(fields).Success?
    ensures b == PutFields(fields).value + ([PART_END] + GetFields(kind, c, b).value.1)
    ensures GetFields(kind, c, b).value.0 == CollectAll(c, fields)
    decreases |b|
  {
    hide Readable, GetValue, PutValue, Collect;
    if b[0] == PART_END {
      fields := [];
      assert b == [PART_END] + b[1..];
    } else {
      var (v, rest) := GetValue(kind, b[0], b[1..]).value;
      ValueReadsBack(kind, b[0], b[1..]);
      var more := ReadPartsAreFields(kind, Collect(c, v), rest);
      fields := [Field(b[0], v)] + more;
      FirstField(Field(b[0], v), more);
      CollectFirst(c, Field(b[0], v), more);
      assert b == [b[0]] + b[1..];
    }
  }

  lemma {:induction false} FirstField(f: Field, more: seq<Field>)
    requires PutFields(more).Success? && PutValue(f.value).Success?
    ensures PutFields([f] + more).Success?
    ensures PutFields([f] + more).value == [f.tag] + PutValue(f.value).value + PutFields(more).value
  {
    hide PutValue;
    if more == [] {
      assert [f] + more == [f] && [f][..0] == [];
      assert PutFields([f]) == Then(PutFields([]), PutField(f));
    } else {
      var n := |more| - 1;
      FirstField(f, more[..n]);
      assert ([f] + more)[..n + 1] == [f] + more[..n];
      assert ([f.tag] + PutValue(f.value).value + PutFields(more[..n]).value) + PutField(more[n]).value
          == [f.tag] + PutValue(f.value).value + PutFields(more).value;
    }
  }

  lemma {:induction false} CollectFirst(c: Collected, f: Field, more: seq<Field>)
    ensures CollectAll(c, [f] + more) == CollectAll(Collect(c, f.value), more)
  {
    if more == [] {
      assert [f] + more == [f] && [f][..0] == [];
      assert CollectAll(c, [f]) == Collect(CollectAll(c, []), f.value);
    } else {
      var n := |more| - 1;
      CollectFirst(c, f, more[..n]);
      assert ([f] + more)[..n + 1] == [f] + more[..n];
    }
  }

  // --- what readable fields collect to ---------------------------------------------------------------

  predicate CollectedFits(c: Collected) {
    && (c.name.Some? ==> FitsCstring8(c.name.value))
    && (c.key.Some? ==> FitsString8(c.key.value.1))
    && (c.cak.Some? ==> FitsString32(c.cak.value))
    && (c.box.Some? ==> FieldsFit(2, c.box.value.fields) && c.box.value.version == BOX_VERSION
                        && c.box.value.ephemeral == [] && c.box.value.plaintext.None?)
  }

  lemma {:induction false} CollectedAlwaysFits(kind: Kind, c: Collected, fields: seq<Field>)
    requires CollectedFits(c) && forall f :: f in fields ==> Readable(kind, f)
    ensures CollectedFits(CollectAll(c, fields))
  {
    hide FieldsFit;
    if fields != [] {
      var n := |fields| - 1;
      assert fields[n] in fields && forall f :: f in fields[..n] ==> f in fields;
      CollectedAlwaysFits(kind, c, fields[..n]);
    }
  }
}
