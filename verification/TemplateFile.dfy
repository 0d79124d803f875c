/** The base64 file form of a template (crates/piggy-box/src/template.rs). */
module TemplateFile {
  import opened Base
  import opened Wire
  import opened TemplateFormat
  import BoxIO

  /** Base64 as the library provides it. */
  datatype Base64 = Base64(encode: Bytes -> Bytes, decode: Bytes -> Option<Bytes>)

  const LINE_LEN: nat := 65
  const NEWLINE: Byte := 0x0A

  predicate Whitespace(b: Byte) { b in {0x20, 0x09, 0x0A, 0x0C, 0x0D} }

  /** Decoding undoes encoding, and the alphabet holds no whitespace (section 4 of RFC 4648). */
  ghost predicate Lawful(base64: Base64) {
    forall b :: base64.decode(base64.encode(b)) == Some(b) && forall i :: 0 <= i < |base64.encode(b)| ==> !Whitespace(base64.encode(b)[i])
  }

  /** Lines of 65 characters, each ended by a newline, the last one too. */
  function Wrapped(raw: Bytes): Bytes {
    if raw == [] then []
    else
      var n := if |raw| < LINE_LEN then |raw| else LINE_LEN;
      raw[..n] + [NEWLINE] + Wrapped(raw[n..])
  }

  function Stripped(text: Bytes): Bytes {
    if text == [] then []
    else Stripped(text[..|text| - 1]) + (if Whitespace(text[|text| - 1]) then [] else [text[|text| - 1]])
  }

  method WrapLines(raw: Bytes) returns (out: Bytes)
    ensures out == Wrapped(raw)
  {
    hide Wrapped;
    out := [];
    var offset := 0;
    while offset < |raw|
      invariant 0 <= offset <= |raw|
      invariant Wrapped(raw) == out + Wrapped(raw[offset..])
    {
      var end := if offset + LINE_LEN < |raw| then offset + LINE_LEN else |raw|;
      NextLine(raw, offset, end);
      assert out + (raw[offset..end] + [NEWLINE] + Wrapped(raw[end..])) == out + raw[offset..end] + [NEWLINE] + Wrapped(raw[end..]);
      out := out + raw[offset..end];
      out := out + [NEWLINE];
      offset := end;
    }
    assert Wrapped(raw[offset..]) == [] by { NoLines(raw[offset..]); }
  }

  lemma NoLines(raw: Bytes)
    requires raw == []
    ensures Wrapped(raw) == []
  {
  }

  lemma NextLine(raw: Bytes, offset: nat, end: nat)
    requires offset < |raw| && end == if offset + LINE_LEN < |raw| then offset + LINE_LEN else |raw|
    ensures Wrapped(raw[offset..]) == raw[offset..end] + [NEWLINE] + Wrapped(raw[end..])
  {
    assert raw[offset..][..end - offset] == raw[offset..end] && raw[offset..][end - offset..] == raw[end..];
  }

  method StripWhitespace(data: Bytes) returns (out: Bytes)
    ensures out == Stripped(data)
  {
    out := [];
    for i := 0 to |data|
      invariant out == Stripped(data[..i])
    {
      assert data[..i + 1][..i] == data[..i];
      if !Whitespace(data[i]) { out := out + [data[i]]; }
    }
    assert data[..|data|] == data;
  }

  lemma {:induction false} StrippedJoins(a: Bytes, b: Bytes)
    ensures Stripped(a + b) == Stripped(a) + Stripped(b)
  {
    if b == [] {
      assert a + b == a;
    } else {
      StrippedJoins(a, b[..|b| - 1]);
      assert (a + b)[..|a + b| - 1] == a + b[..|b| - 1];
    }
  }

  /** Any whitespace, anywhere, is ignored. */
  lemma WhitespaceIsIgnored(a: Bytes, space: Bytes, b: Bytes)
    requires forall i :: 0 <= i < |space| ==> Whitespace(space[i])
    ensures Stripped(a + space + b) == Stripped(a + b)
  {
    hide Stripped;
    StrippedJoins(a + space, b);
    StrippedJoins(a, space);
    StrippedJoins(a, b);
    OnlyWhitespace(space);
    assert Stripped(a) + [] == Stripped(a);
  }

  lemma {:induction false} OnlyWhitespace(space: Bytes)
    requires forall i :: 0 <= i < |space| ==> Whitespace(space[i])
    ensures Stripped(space) == []
  {
    if space != [] { OnlyWhitespace(space[..|space| - 1]); }
  }

  lemma {:induction false} NoWhitespace(raw: Bytes)
    requires forall i :: 0 <= i < |raw| ==> !Whitespace(raw[i])
    ensures Stripped(raw) == raw
  {
    if raw != [] { NoWhitespace(raw[..|raw| - 1]); }
  }

  lemma {:induction false} StripUndoesWrap(raw: Bytes)
    requires forall i :: 0 <= i < |raw| ==> !Whitespace(raw[i])
    ensures Stripped(Wrapped(raw)) == raw
  {
    if raw != [] {
      var n := if |raw| < LINE_LEN then |raw| else LINE_LEN;
      StripUndoesWrap(raw[n..]);
      StrippedJoins(raw[..n] + [NEWLINE], Wrapped(raw[n..]));
      StrippedJoins(raw[..n], [NEWLINE]);
      OnlyWhitespace([NEWLINE]);
      NoWhitespace(raw[..n]);
      assert raw == raw[..n] + raw[n..];
    }
  }

  /** Newlines stand after every 65th character and at the end, and nowhere else. */
  lemma {:induction false} LinesAreFull(raw: Bytes, i: nat)
    requires forall k :: 0 <= k < |raw| ==> raw[k] != 0x0A
    requires i < |Wrapped(raw)|
    ensures Wrapped(raw)[i] == 0x0A <==> i % 66 == 65 || i == |Wrapped(raw)| - 1
    decreases |raw|
  {
    var n := if |raw| < LINE_LEN then |raw| else LINE_LEN;
    var out := Wrapped(raw);
    assert out == raw[..n] + ([NEWLINE] + Wrapped(raw[n..]));
    if i < n {
      assert out[i] == raw[i];
    } else if i > n {
      LinesAreFull(raw[n..], i - n - 1);
      assert out[i] == Wrapped(raw[n..])[i - n - 1];
    } else {
      assert out[n] == NEWLINE;
      if n < LINE_LEN { assert raw[n..] == []; }
    }
  }

  method ToB64Wrapped(base64: Base64, tpl: Template) returns (result: Outcome<Bytes>)
    ensures result == FileOf(base64, tpl)
  {
    var bin :- BoxIO.TemplateToBytes(tpl);
    var text := WrapLines(base64.encode(bin));
    return Success(text);
  }

  function FileOf(base64: Base64, tpl: Template): Outcome<Bytes> {
    var bin :- PutTemplate(tpl);
    Success(Wrapped(base64.encode(bin)))
  }

  method FromB64Bytes(base64: Base64, data: Bytes) returns (result: Outcome<Template>)
    ensures result == FromFile(base64, data)
  {
    var text := StripWhitespace(data);
    var bin := base64.decode(text);
    if bin.None? { return Failure(Truncated); }
    result := BoxIO.TemplateFromBytes(bin.value);
  }

  function FromFile(base64: Base64, data: Bytes): Outcome<Template> {
    var bin := base64.decode(Stripped(data));
    if bin.None? then Failure(Truncated)
    else
      var tpl :- GetTemplate(bin.value);
      Success(tpl.0)
  }

  /** A template file reads back as the template exactly if the template fits its wire form. */
  lemma TemplateFilesRoundTripIff(base64: Base64, tpl: Template)
    requires Lawful(base64)
    ensures FileOf(base64, tpl).Success? && FromFile(base64, FileOf(base64, tpl).value) == Success(tpl) <==> TemplateFits(tpl)
  {
    hide PutTemplate, GetTemplate, TemplateFits, Wrapped, Stripped;
    TemplateRoundTripsIff(tpl, []);
    if PutTemplate(tpl).Success? {
      var bin := PutTemplate(tpl).value;
      assert bin + [] == bin;
      StripUndoesWrap(base64.encode(bin));
      if GetTemplate(bin).Success? && GetTemplate(bin).value.0 == tpl {
        ReadTemplatesFit(bin);
      }
    }
  }
}
