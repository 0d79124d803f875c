/**
 * The tag loop and the field writers as code that moves a cursor and grows a buffer
 * (crates/piggy-box/src/template.rs and ebox.rs).
 */
module PartIO {
  import opened Base
  import opened Wire
  import opened BoxFormat
  import opened PartFields

  method ReadInlineBox(r: WireReader) returns (result: Outcome<Value>)
    requires r.Valid()
    modifies r
    ensures r.Valid() && Agrees(result, r.Rest(), GetBox(2, old(r.Rest())))
  {
    hide GetCstring8, GetString8, GetString, CurveNamed;
    var cipher :- r.ReadCstring8();
    var kdf :- r.ReadCstring8();
    var nonce :- r.ReadString8();
    var name :- r.ReadCstring8();
    var curve :- CurveNamed(name);
    var recipient :- r.ReadString8();
    var iv :- r.ReadString8();
    var ciphertext :- r.ReadString();
    return Success(InlineBox(BoxFields(Suite(cipher, kdf, nonce, curve, recipient), iv, ciphertext)));
  }

  /** One field of the tag loop: its value replaces what was collected of that kind. */
  method ReadField(r: WireReader, kind: Kind, tag: Byte, c: Collected) returns (result: Outcome<Collected>)
    requires r.Valid()
    modifies r
    ensures r.Valid()
    ensures var expected := GetValue(kind, tag, old(r.Rest()));
            if expected.Failure? then result == Failure(expected.error)
            else result == Success(Collect(c, expected.value.0)) && r.Rest() == expected.value.1
  {
    hide GetCstring8, GetString8, GetString, GetSuite, GetPayload, GetPivBox, GetBox, CurveNamed, WireName, Utf8;
    var known := tag % PART_OPTIONAL_FLAG;
    if known == PART_PUBKEY {
      var name :- r.ReadCstring8();
      var curve :- CurveNamed(name);
      var pubkey :- r.ReadString8();
      return Success(c.(key := Some((curve, pubkey))));
    } else if known == PART_GUID {
      var guid :- r.ReadString8();
      if |guid| != 16 { return Failure(BadGuid); }
      return Success(c.(guid := Some(guid)));
    } else if known == PART_NAME {
      var name :- r.ReadCstring8();
      return Success(c.(name := Some(name)));
    } else if known == PART_CAK {
      var cak :- r.ReadString();
      return Success(c.(cak := Some(cak)));
    } else if known == PART_SLOT {
      var slot: Byte :- r.ReadU8();
      return Success(c.(slot := slot));
    } else if known == PART_BOX && kind.OfEbox? {
      result := ReadBox(r, kind.version, c);
    } else if tag >= PART_OPTIONAL_FLAG {
      var _ :- r.ReadString8();
      return Success(c);
    } else {
      return Failure(UnknownTag(tag));
    }
  }

  method ReadBox(r: WireReader, version: Byte, c: Collected) returns (result: Outcome<Collected>)
    requires r.Valid()
    modifies r
    ensures r.Valid()
    ensures var expected := GetBox(version, old(r.Rest()));
            if expected.Failure? then result == Failure(expected.error)
            else result == Success(Collect(c, expected.value.0)) && r.Rest() == expected.value.1
  {
    hide GetSuite, GetPayload, GetPivBox;
    if version >= 2 {
      BoxVersionsReadAlike(version, r.Rest());
      var inline :- ReadInlineBox(r);
      var guidSlot := if c.guid.Some? then Some((c.guid.value, c.slot)) else None;
      return Success(c.(box := Some(PivBox(BOX_VERSION, guidSlot, inline.fields, [], None))));
    }
    var whole :- GetPivBox(r.Rest());
    return Success(c.(box := Some(whole.0)));
  }

  /** Everything up to the end tag, whatever the order. */
  method ReadFields(r: WireReader, kind: Kind) returns (result: Outcome<Collected>)
    requires r.Valid()
    modifies r
    ensures r.Valid() && Agrees(result, r.Rest(), GetFields(kind, NOTHING, old(r.Rest())))
  {
    hide GetFields, GetValue;
    var c := NOTHING;
    TagFollows(kind, c, r.Rest());
    var tag: Byte :- r.ReadU8();
    while tag != PART_END
      invariant r.Valid()
      invariant GetFields(kind, NOTHING, old(r.Rest())) == GetFields(kind, c, After(tag, r.Rest()))
      decreases |r.Rest()|
    {
      NextField(kind, c, tag, r.Rest());
      c :- ReadField(r, kind, tag, c);
      TagFollows(kind, c, r.Rest());
      tag :- r.ReadU8();
    }
    FieldsEnd(kind, c, r.Rest());
    return Success(c);
  }

  /** The input as it was before `tag` was taken off. */
  function After(tag: Byte, rest: Bytes): Bytes { [tag] + rest }

  lemma NextField(kind: Kind, c: Collected, tag: Byte, rest: Bytes)
    requires tag != PART_END
    ensures GetFields(kind, c, After(tag, rest)) ==
            var value := GetValue(kind, tag, rest);
            if value.Failure? then Failure(value.error) else GetFields(kind, Collect(c, value.value.0), value.value.1)
  {
    assert After(tag, rest)[1..] == rest;
  }

  lemma TagFollows(kind: Kind, c: Collected, rest: Bytes)
    ensures GetU8(rest).Failure? ==> GetFields(kind, c, rest) == Failure(GetU8(rest).error)
    ensures GetU8(rest).Success? ==> rest == After(GetU8(rest).value.0, GetU8(rest).value.1)
  {
  }

  /** One field as the writers put it down. */
  method WriteField(w: WireWriter, f: Field) returns (result: Outcome<()>)
    requires !f.value.WholeBox?
    modifies w
    ensures Appends(result, old(w.buf), w.buf, PutField(f))
  {
    hide Cstring8, String8, String32, WireName, PutSuite, PutPayload;
    w.PutU8(f.tag);
    match f.value {
      case PubkeyOf(curve, point) =>
        var _ :- w.PutCstring8(WireName(curve));
        var _ :- w.PutString8(point);
      case GuidOf(guid) => var _ :- w.PutString8(guid);
      case NameOf(name) => var _ :- w.PutCstring8(name);
      case CakOf(cak) => w.PutString(cak);
      case SlotOf(slot) => w.PutU8(slot);
      case InlineBox(fields) => var _ :- WriteInlineBox(w, fields);
      case Unknown(payload) => var _ :- w.PutString8(payload);
    }
    assert w.buf == old(w.buf) + PutField(f).value;
    return Success(());
  }

  method WriteInlineBox(w: WireWriter, fields: BoxFields) returns (result: Outcome<()>)
    modifies w
    ensures Appends(result, old(w.buf), w.buf, PutValue(InlineBox(fields)))
  {
    hide Cstring8, String8, String32, WireName;
    var _ :- w.PutCstring8(fields.suite.cipher);
    var _ :- w.PutCstring8(fields.suite.kdf);
    var _ :- w.PutString8(fields.suite.nonce);
    var _ :- w.PutCstring8(WireName(fields.suite.curve));
    var _ :- w.PutString8(fields.suite.recipient);
    assert w.buf == old(w.buf) + PutSuite(2, fields.suite).value;
    var _ :- w.PutString8(fields.iv);
    w.PutString(fields.ciphertext);
    assert w.buf == old(w.buf) + PutSuite(2, fields.suite).value + PutPayload(fields.iv, fields.ciphertext).value;
    assert w.buf == old(w.buf) + PutValue(InlineBox(fields)).value;
    return Success(());
  }

  lemma {:induction false} FieldsJoin(a: seq<Field>, b: seq<Field>)
    ensures PutFields(a + b) == Then(PutFields(a), PutFields(b))
  {
    hide PutField;
    if b == [] {
      assert a + b == a;
      if PutFields(a).Success? { assert PutFields(a).value + [] == PutFields(a).value; }
    } else {
      var n := |b| - 1;
      FieldsJoin(a, b[..n]);
      assert (a + b)[..|a| + n] == a + b[..n];
      ThenAssociates(PutFields(a), PutFields(b[..n]), PutField(b[n]));
    }
  }

  lemma ThenAssociates(a: Outcome<Bytes>, b: Outcome<Bytes>, c: Outcome<Bytes>)
    ensures Then(Then(a, b), c) == Then(a, Then(b, c))
  {
    if a.Success? && b.Success? && c.Success? {
      assert (a.value + b.value) + c.value == a.value + (b.value + c.value);
    }
  }

  lemma OneField(f: Field)
    ensures PutFields([f]) == PutField(f) && PutFields([]) == Success([])
  {
    hide PutField;
    assert [f][..0] == [];
    if PutField(f).Success? { assert [] + PutField(f).value == PutField(f).value; }
  }
}
