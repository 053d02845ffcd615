/**
 * The fragment of XML 1.0 that the message envelopes use: elements, attributes, character data and
 * references. A reader, a printer, and the proof that the reader inverts the printer.
 */
module Xml {
  import opened Common

  // ---------------------------------------------------------------- characters (XML 1.0, sections 2.2, 2.3, 2.11)

  predicate IsXmlChar(c: char) {
    c == '\t' || c == '\n' || c == '\r' || ' ' <= c <= '\U{D7FF}' || '\U{E000}' <= c <= '\U{FFFD}' || '\U{10000}' <= c
  }

  predicate AllXmlChars(s: string) {
    forall c | c in s :: IsXmlChar(c)
  }

  predicate IsXmlSpace(c: char) {
    c == ' ' || c == '\t' || c == '\n' || c == '\r'
  }

  predicate IsNameStart(c: char) {
    c == ':' || c == '_' || 'A' <= c <= 'Z' || 'a' <= c <= 'z' ||
    '\U{C0}' <= c <= '\U{D6}' || '\U{D8}' <= c <= '\U{F6}' || '\U{F8}' <= c <= '\U{2FF}' ||
    '\U{370}' <= c <= '\U{37D}' || '\U{37F}' <= c <= '\U{1FFF}' || '\U{200C}' <= c <= '\U{200D}' ||
    '\U{2070}' <= c <= '\U{218F}' || '\U{2C00}' <= c <= '\U{2FEF}' || '\U{3001}' <= c <= '\U{D7FF}' ||
    '\U{F900}' <= c <= '\U{FDCF}' || '\U{FDF0}' <= c <= '\U{FFFD}' || '\U{10000}' <= c <= '\U{EFFFF}'
  }

  predicate IsNameChar(c: char) {
    IsNameStart(c) || c == '-' || c == '.' || '0' <= c <= '9' || c == '\U{B7}' ||
    '\U{300}' <= c <= '\U{36F}' || '\U{203F}' <= c <= '\U{2040}'
  }

  predicate IsName(s: string) {
    s != "" && IsNameStart(s[0]) && forall c | c in s :: IsNameChar(c)
  }

  /** End-of-line handling: every `CR LF` and every lone `CR` is read as one `LF`. */
  function NormalizeNewlines(s: string): string {
    if s == "" then ""
    else if s[0] != '\r' then [s[0]] + NormalizeNewlines(s[1..])
    else if |s| > 1 && s[1] == '\n' then NormalizeNewlines(s[1..])
    else "\n" + NormalizeNewlines(s[1..])
  }

  // ---------------------------------------------------------------- reading

  datatype Element = Element(tag: string, attributes: seq<(string, string)>, text: string, children: seq<Element>,
                             tail: string)

  datatype Read<+T> = Malformed | Read(value: T, rest: string)

  function NameLength(s: string): (n: nat)
    ensures n <= |s|
  {
    if s != "" && IsNameChar(s[0]) then 1 + NameLength(s[1..]) else 0
  }

  function ReadName(s: string): (r: Read<string>)
    ensures r.Read? ==> |r.rest| < |s|
  {
    var n := NameLength(s);
    if n == 0 || !IsNameStart(s[0]) then Malformed else Read(s[..n], s[n..])
  }

  function SkipSpace(s: string): (rest: string)
    ensures |rest| <= |s|
  {
    if s != "" && IsXmlSpace(s[0]) then SkipSpace(s[1..]) else s
  }

  function DigitValue(c: char): Option<nat> {
    if '0' <= c <= '9' then Some(c as int - '0' as int)
    else if 'a' <= c <= 'f' then Some(c as int - 'a' as int + 10)
    else if 'A' <= c <= 'F' then Some(c as int - 'A' as int + 10)
    else None
  }

  function Number(digits: string, base: nat): Option<nat> {
    if digits == "" then Some(0) else
    match (Number(digits[..|digits| - 1], base), DigitValue(digits[|digits| - 1]))
    case (Some(high), Some(low)) => if low < base then Some(high * base + low) else None
    case _ => None
  }

  /** The character named between `&` and `;`: one of the five predefined entities or a character reference. */
  function Entity(name: string): Option<char> {
    if name == "amp" then Some('&')
    else if name == "lt" then Some('<')
    else if name == "gt" then Some('>')
    else if name == "quot" then Some('"')
    else if name == "apos" then Some('\'')
    else if |name| > 2 && name[..2] == "#x" then Referenced(Number(name[2..], 16))
    else if |name| > 1 && name[0] == '#' then Referenced(Number(name[1..], 10))
    else None
  }

  function Referenced(code: Option<nat>): Option<char> {
    match code
    case Some(n) => if (n < 0xD800 || 0xE000 <= n < 0x11_0000) && IsXmlChar(n as char) then Some(n as char) else None
    case None => None
  }

  function Decode(s: string): Option<string>
    decreases |s|
  {
    if s == "" then Some("")
    else if s[0] != '&' then Prepend(Some(s[0]), Decode(s[1..]))
    else
      var n := LengthBefore(s, ';');
      if n == |s| then None else Prepend(Entity(s[1..n]), Decode(s[n + 1..]))
  }

  function Prepend(first: Option<char>, rest: Option<string>): Option<string> {
    if first.Some? && rest.Some? then Some([first.value] + rest.value) else None
  }

  /** Attribute-value normalization: literal white space becomes spaces. */
  function SpacesOnly(s: string): string {
    if s == "" then "" else [if IsXmlSpace(s[0]) then ' ' else s[0]] + SpacesOnly(s[1..])
  }

  function ReadQuoted(s: string): (r: Read<string>)
    ensures r.Read? ==> |r.rest| < |s|
  {
    if s == "" || (s[0] != '"' && s[0] != '\'') then Malformed else
    var n := LengthBefore(s[1..], s[0]);
    if n == |s[1..]| || '<' in s[1..n + 1] then Malformed else
    match Decode(SpacesOnly(s[1..n + 1]))
    case Some(value) => Read(value, s[n + 2..])
    case None => Malformed
  }

  function ReadAttribute(s: string): (r: Read<(string, string)>)
    ensures r.Read? ==> |r.rest| < |s|
  {
    match ReadName(s)
    case Malformed => Malformed
    case Read(name, afterName) =>
      var equals := SkipSpace(afterName);
      if equals == "" || equals[0] != '=' then Malformed else
      match ReadQuoted(SkipSpace(equals[1..]))
      case Malformed => Malformed
      case Read(value, rest) => Read((name, value), rest)
  }

  predicate Names(attributes: seq<(string, string)>, name: string) {
    exists i | 0 <= i < |attributes| :: attributes[i].0 == name
  }

  function ReadAttributes(s: string): (r: Read<seq<(string, string)>>)
    ensures r.Read? ==> |r.rest| <= |s|
    decreases |s|
  {
    var start := SkipSpace(s);
    if start == s || (start != "" && (start[0] == '>' || start[0] == '/')) then Read([], start) else
    match ReadAttribute(start)
    case Malformed => Malformed
    case Read(attribute, afterValue) =>
      match ReadAttributes(afterValue)
      case Malformed => Malformed
      case Read(others, rest) =>
        if Names(others, attribute.0) then Malformed else Read([attribute] + others, rest)
  }

  function ReadEndTag(s: string, tag: string): (r: Read<()>)
    ensures r.Read? ==> |r.rest| < |s|
  {
    if !("</" <= s) then Malformed else
    match ReadName(s[2..])
    case Malformed => Malformed
    case Read(name, afterName) =>
      var close := SkipSpace(afterName);
      if name != tag || close == "" || close[0] != '>' then Malformed else Read((), close[1..])
  }

  function ReadElement(s: string): (r: Read<Element>)
    ensures r.Read? ==> |r.rest| < |s|
    decreases |s|, 0
  {
    if s == "" || s[0] != '<' then Malformed else
    match ReadName(s[1..])
    case Malformed => Malformed
    case Read(tag, afterName) =>
      match ReadAttributes(afterName)
      case Malformed => Malformed
      case Read(attributes, close) =>
        if "/>" <= close then Read(Element(tag, attributes, "", [], ""), close[2..])
        else if !(">" <= close) then Malformed
        else
          match ReadContent(close[1..])
          case Malformed => Malformed
          case Read(content, endTag) =>
            match ReadEndTag(endTag, tag)
            case Malformed => Malformed
            case Read(_, rest) => Read(Element(tag, attributes, content.0, content.1, ""), rest)
  }

  /** Character data and child elements, up to the next end tag. */
  function ReadContent(s: string): (r: Read<(string, seq<Element>)>)
    ensures r.Read? ==> |r.rest| <= |s|
    decreases |s|, 1
  {
    var n := LengthBefore(s, '<');
    if Contains(s[..n], "]]>") then Malformed else
    match Decode(s[..n])
    case None => Malformed
    case Some(text) =>
      if "</" <= s[n..] then Read((text, []), s[n..]) else
      match ReadElement(s[n..])
      case Malformed => Malformed
      case Read(child, afterChild) =>
        match ReadContent(afterChild)
        case Malformed => Malformed
        case Read(content, rest) => Read((text, [child.(tail := content.0)] + content.1), rest)
  }

  /** `ElementTree.fromstring`, on documents made of one element. */
  function ReadDocument(s: string): Option<Element> {
    if !AllXmlChars(s) then None else
    match ReadElement(SkipSpace(NormalizeNewlines(s)))
    case Malformed => None
    case Read(root, rest) => if SkipSpace(rest) == "" then Some(root) else None
  }

  // ---------------------------------------------------------------- printing

  /** `html.escape(s, quote=False)`. */
  function EscapeText(s: string): string {
    ReplaceChar(ReplaceChar(ReplaceChar(s, '&', "&amp;"), '<', "&lt;"), '>', "&gt;")
  }

  /** `html.escape(s, quote=True)`. */
  function EscapeAttribute(s: string): string {
    ReplaceChar(ReplaceChar(EscapeText(s), '"', "&quot;"), '\'', "&#x27;")
  }

  function TextCode(c: char): string {
    if c == '&' then "&amp;" else if c == '<' then "&lt;" else if c == '>' then "&gt;" else [c]
  }

  function AttributeCode(c: char): string {
    if c == '"' then "&quot;" else if c == '\'' then "&#x27;" else TextCode(c)
  }

  function EncodeText(s: string): string {
    if s == "" then "" else TextCode(s[0]) + EncodeText(s[1..])
  }

  function EncodeAttribute(s: string): string {
    if s == "" then "" else AttributeCode(s[0]) + EncodeAttribute(s[1..])
  }

  lemma ReplaceCharDistributes(a: string, b: string, c: char, code: string)
    ensures ReplaceChar(a + b, c, code) == ReplaceChar(a, c, code) + ReplaceChar(b, c, code)
  {
    if a == "" {
      assert a + b == b;
    } else {
      assert (a + b)[1..] == a[1..] + b;
    }
  }

  lemma ReplaceAbsent(s: string, c: char, code: string)
    requires c !in s
    ensures ReplaceChar(s, c, code) == s
  {
  }

  lemma ReplaceOne(x: char, c: char, code: string)
    ensures ReplaceChar([x], c, code) == if x == c then code else [x]
  {
  }

  /** What the chain of replacements does to one character: later steps leave earlier codes alone. */
  lemma EscapeOneCharacter(c: char)
    ensures EscapeText([c]) == TextCode(c)
    ensures EscapeAttribute([c]) == AttributeCode(c)
  {
    hide ReplaceChar;
    ReplaceOne(c, '&', "&amp;");
    ReplaceOne(c, '<', "&lt;");
    ReplaceOne(c, '>', "&gt;");
    ReplaceOne(c, '"', "&quot;");
    ReplaceOne(c, '\'', "&#x27;");
    if c == '&' {
      ReplaceAbsent("&amp;", '<', "&lt;");
      ReplaceAbsent("&amp;", '>', "&gt;");
      ReplaceAbsent("&amp;", '"', "&quot;");
      ReplaceAbsent("&amp;", '\'', "&#x27;");
    } else if c == '<' {
      ReplaceAbsent("&lt;", '>', "&gt;");
      ReplaceAbsent("&lt;", '"', "&quot;");
      ReplaceAbsent("&lt;", '\'', "&#x27;");
    } else if c == '>' {
      ReplaceAbsent("&gt;", '"', "&quot;");
      ReplaceAbsent("&gt;", '\'', "&#x27;");
    } else if c == '"' {
      ReplaceAbsent("&quot;", '\'', "&#x27;");
    }
  }

  /** Replacing `&` first makes the chain of replacements act on each character once. */
  lemma {:induction false} EscapeIsCharwise(s: string)
    ensures EscapeText(s) == EncodeText(s)
    ensures EscapeAttribute(s) == EncodeAttribute(s)
  {
    if s != "" {
      EscapeIsCharwise(s[1..]);
      EscapeOneCharacter(s[0]);
      EscapeDistributes([s[0]], s[1..]);
      assert s == [s[0]] + s[1..];
    }
  }

  lemma EscapeDistributes(a: string, b: string)
    ensures EscapeText(a + b) == EscapeText(a) + EscapeText(b)
    ensures EscapeAttribute(a + b) == EscapeAttribute(a) + EscapeAttribute(b)
  {
    hide ReplaceChar;
    var a1, b1 := ReplaceChar(a, '&', "&amp;"), ReplaceChar(b, '&', "&amp;");
    ReplaceCharDistributes(a, b, '&', "&amp;");
    var a2, b2 := ReplaceChar(a1, '<', "&lt;"), ReplaceChar(b1, '<', "&lt;");
    ReplaceCharDistributes(a1, b1, '<', "&lt;");
    var a3, b3 := ReplaceChar(a2, '>', "&gt;"), ReplaceChar(b2, '>', "&gt;");
    ReplaceCharDistributes(a2, b2, '>', "&gt;");
    var a4, b4 := ReplaceChar(a3, '"', "&quot;"), ReplaceChar(b3, '"', "&quot;");
    ReplaceCharDistributes(a3, b3, '"', "&quot;");
    ReplaceCharDistributes(a4, b4, '\'', "&#x27;");
  }

  function PrintAttributes(attributes: seq<(string, string)>): string {
    if attributes == [] then ""
    else " " + attributes[0].0 + "=\"" + EncodeAttribute(attributes[0].1) + "\"" + PrintAttributes(attributes[1..])
  }

  /** The element without its tail, always with an explicit end tag. */
  function Print(e: Element): string {
    "<" + e.tag + PrintAttributes(e.attributes) + ">" + EncodeText(e.text) + PrintAll(e.children) + "</" + e.tag + ">"
  }

  function PrintAll(es: seq<Element>): string {
    if es == [] then "" else Print(es[0]) + EncodeText(es[0].tail) + PrintAll(es[1..])
  }

  // ---------------------------------------------------------------- reading back what was printed

  /** Names that cannot be mistaken for markup, legal or not. */
  predicate IsToken(s: string) {
    s != "" && forall c | c in s :: IsNameChar(c) || (c >= '\U{80}')
  }

  predicate PlainAttributes(attributes: seq<(string, string)>) {
    forall i | 0 <= i < |attributes| ::
      IsName(attributes[i].0) && (forall c | c in attributes[i].1 :: c == ' ' || !IsXmlSpace(c)) &&
      forall j | i < j < |attributes| :: attributes[i].0 != attributes[j].0
  }

  predicate Printable(e: Element) {
    IsToken(e.tag) && PlainAttributes(e.attributes) && AllPrintable(e.children)
  }

  predicate AllPrintable(es: seq<Element>) {
    es == [] || (Printable(es[0]) && AllPrintable(es[1..]))
  }

  /** Every element in the tree has a legal name. */
  predicate WellNamed(e: Element) {
    IsName(e.tag) && AllWellNamed(e.children)
  }

  predicate AllWellNamed(es: seq<Element>) {
    es == [] || (WellNamed(es[0]) && AllWellNamed(es[1..]))
  }

  lemma {:induction false} LengthBeforeAppend(a: string, c: char, b: string)
    requires c !in a
    ensures LengthBefore(a + [c] + b, c) == |a|
  {
    if a != "" {
      LengthBeforeAppend(a[1..], c, b);
      assert (a + [c] + b)[1..] == a[1..] + [c] + b;
    }
  }

  lemma DecodeReference(name: string, rest: string)
    requires ';' !in name
    ensures Decode("&" + name + ";" + rest) == Prepend(Entity(name), Decode(rest))
  {
    var s := "&" + name + ";" + rest;
    assert s == ("&" + name) + [';'] + rest;
    LengthBeforeAppend("&" + name, ';', rest);
    assert s[1..|name| + 1] == name && s[|name| + 2..] == rest;
  }

  lemma DecodePlain(c: char, rest: string)
    requires c != '&'
    ensures Decode([c] + rest) == Prepend(Some(c), Decode(rest))
  {
    assert ([c] + rest)[1..] == rest;
  }

  lemma Entities()
    ensures Entity("amp") == Some('&') && Entity("lt") == Some('<') && Entity("gt") == Some('>')
    ensures Entity("quot") == Some('"') && Entity("#x27") == Some('\'')
  {
    assert "#x27"[2..] == "27" && "27"[..1] == "2";
    assert Number("2", 16) == Some(2);
  }

  lemma DecodeTextCode(c: char, rest: string)
    ensures Decode(TextCode(c) + rest) == Prepend(Some(c), Decode(rest))
  {
    hide Decode, Entity, Prepend;
    Entities();
    if c == '&' {
      DecodeReference("amp", rest);
      assert "&amp;" + rest == "&" + "amp" + ";" + rest;
    } else if c == '<' {
      DecodeReference("lt", rest);
      assert "&lt;" + rest == "&" + "lt" + ";" + rest;
    } else if c == '>' {
      DecodeReference("gt", rest);
      assert "&gt;" + rest == "&" + "gt" + ";" + rest;
    } else {
      DecodePlain(c, rest);
    }
  }

  lemma DecodeAttributeCode(c: char, rest: string)
    ensures Decode(AttributeCode(c) + rest) == Prepend(Some(c), Decode(rest))
  {
    hide Decode, Entity, Prepend, TextCode;
    Entities();
    if c == '"' {
      DecodeReference("quot", rest);
      assert "&quot;" + rest == "&" + "quot" + ";" + rest;
    } else if c == '\'' {
      DecodeReference("#x27", rest);
      assert "&#x27;" + rest == "&" + "#x27" + ";" + rest;
    } else {
      DecodeTextCode(c, rest);
    }
  }

  lemma CodesAreInert(c: char)
    ensures '<' !in TextCode(c) && '>' !in TextCode(c)
    ensures '<' !in AttributeCode(c) && '>' !in AttributeCode(c) && '"' !in AttributeCode(c)
  {
  }

  lemma {:induction false} DecodeEncodedText(s: string)
    ensures Decode(EncodeText(s)) == Some(s)
    ensures '<' !in EncodeText(s) && '>' !in EncodeText(s)
  {
    hide Decode, TextCode;
    if s == "" {
      DecodeNothing();
    } else {
      DecodeEncodedText(s[1..]);
      DecodeTextCode(s[0], EncodeText(s[1..]));
      CodesAreInert(s[0]);
      assert s == [s[0]] + s[1..];
    }
  }

  lemma {:induction false} DecodeEncodedAttribute(s: string)
    ensures Decode(EncodeAttribute(s)) == Some(s)
    ensures '<' !in EncodeAttribute(s) && '>' !in EncodeAttribute(s) && '"' !in EncodeAttribute(s)
  {
    hide Decode, AttributeCode;
    if s == "" {
      DecodeNothing();
    } else {
      DecodeEncodedAttribute(s[1..]);
      DecodeAttributeCode(s[0], EncodeAttribute(s[1..]));
      CodesAreInert(s[0]);
      assert s == [s[0]] + s[1..];
    }
  }

  lemma DecodeNothing()
    ensures Decode("") == Some("")
  {
  }

  lemma {:induction false} NameLengthAppend(a: string, rest: string)
    requires forall c | c in a :: IsNameChar(c)
    requires rest == "" || !IsNameChar(rest[0])
    ensures NameLength(a + rest) == |a|
  {
    if a == "" {
      assert a + rest == rest;
    } else {
      NameLengthAppend(a[1..], rest);
      assert (a + rest)[1..] == a[1..] + rest;
      assert a[0] in a;
    }
  }

  /**
   * A token is read whole when it is a legal name; otherwise reading stops before a character no markup starts with.
   */
  lemma ReadToken(token: string, rest: string)
    requires IsToken(token) && rest != "" && !IsNameChar(rest[0])
    ensures IsName(token) ==> ReadName(token + rest) == Read(token, rest)
    ensures !IsName(token) ==>
              var r := ReadName(token + rest);
              r.Malformed? || (r.rest != "" && r.rest[0] >= '\U{80}')
  {
    hide IsNameStart;
    var n := NameLength(token);
    NamePrefix(token);
    if n == |token| {
      assert token[..n] == token;
      NameLengthAppend(token, rest);
      assert (token + rest)[..n] == token && (token + rest)[n..] == rest;
    } else {
      NameLengthAppend(token[..n], token[n..] + rest);
      assert token[..n] + (token[n..] + rest) == token + rest;
      assert (token + rest)[n..] == token[n..] + rest;
      assert token[n] in token;
    }
  }

  lemma {:induction false} NamePrefix(s: string)
    ensures var n := NameLength(s); (forall c | c in s[..n] :: IsNameChar(c)) && (n < |s| ==> !IsNameChar(s[n]))
  {
    hide IsNameChar;
    if s != "" && IsNameChar(s[0]) {
      NamePrefix(s[1..]);
      var n := NameLength(s[1..]);
      assert s[..n + 1] == [s[0]] + s[1..][..n];
    }
  }

  lemma SpacesOnlyPlain(s: string)
    requires forall c | c in s :: c == ' ' || !IsXmlSpace(c)
    ensures SpacesOnly(s) == s
  {
    if s != "" {
      assert s[0] in s;
      SpacesOnlyPlain(s[1..]);
    }
  }

  lemma EncodedAttributeIsPlain(s: string)
    requires forall c | c in s :: c == ' ' || !IsXmlSpace(c)
    ensures forall c | c in EncodeAttribute(s) :: c == ' ' || !IsXmlSpace(c)
  {
    if s != "" {
      assert s[0] in s;
      EncodedAttributeIsPlain(s[1..]);
      assert forall c | c in AttributeCode(s[0]) :: c == ' ' || !IsXmlSpace(c);
    }
  }

  lemma ReadPrintedValue(value: string, rest: string)
    requires forall c | c in value :: c == ' ' || !IsXmlSpace(c)
    ensures ReadQuoted("\"" + EncodeAttribute(value) + "\"" + rest) == Read(value, rest)
  {
    hide Decode, EncodeAttribute, SpacesOnly;
    var encoded := EncodeAttribute(value);
    var s := "\"" + encoded + "\"" + rest;
    DecodeEncodedAttribute(value);
    assert s[1..] == encoded + ['"'] + rest;
    LengthBeforeAppend(encoded, '"', rest);
    assert s[1..|encoded| + 1] == encoded && s[|encoded| + 2..] == rest;
    EncodedAttributeIsPlain(value);
    SpacesOnlyPlain(encoded);
  }

  lemma ReadPrintedAttribute(name: string, value: string, rest: string)
    requires IsName(name) && forall c | c in value :: c == ' ' || !IsXmlSpace(c)
    ensures ReadAttribute(name + "=\"" + EncodeAttribute(value) + "\"" + rest) == Read((name, value), rest)
  {
    hide ReadQuoted, EncodeAttribute, IsNameStart, ReadName;
    var quoted := "\"" + EncodeAttribute(value) + "\"" + rest;
    assert name + "=\"" + EncodeAttribute(value) + "\"" + rest == name + ("=" + quoted);
    NameCharsAreNotMarkup('=');
    ReadToken(name, "=" + quoted);
    assert ("=" + quoted)[1..] == quoted;
    ReadPrintedValue(value, rest);
  }

  lemma ReadAttributesUnfolds(start: string)
    requires start != "" && !IsXmlSpace(start[0]) && start[0] != '>' && start[0] != '/'
    ensures var first := ReadAttribute(start);
            ReadAttributes(" " + start) ==
            if first.Malformed? then Malformed else
            var others := ReadAttributes(first.rest);
            if others.Malformed? || Names(others.value, first.value.0) then Malformed
            else Read([first.value] + others.value, others.rest)
  {
    hide ReadAttribute, Names;
    assert (" " + start)[1..] == start;
    assert SkipSpace(" " + start) == SkipSpace(start) == start;
  }

  lemma {:induction false} ReadPrintedAttributes(attributes: seq<(string, string)>, rest: string)
    requires PlainAttributes(attributes) && rest != "" && rest[0] == '>'
    ensures ReadAttributes(PrintAttributes(attributes) + rest) == Read(attributes, rest)
  {
    hide ReadAttribute, ReadAttributes, EncodeAttribute, IsName, PlainAttributes, Names;
    if attributes == [] {
      assert PrintAttributes(attributes) + rest == rest;
      NoAttributes(rest);
    } else {
      PlainFirst(attributes);
      var name, value := attributes[0].0, attributes[0].1;
      var more := PrintAttributes(attributes[1..]) + rest;
      ReadPrintedAttributes(attributes[1..], rest);
      var start := name + "=\"" + EncodeAttribute(value) + "\"" + more;
      assert PrintAttributes(attributes) + rest == " " + start;
      assert start[0] == name[0];
      NameCharsAreNotMarkup(name[0]);
      ReadPrintedAttribute(name, value, more);
      ReadAttributesUnfolds(start);
      assert attributes == [(name, value)] + attributes[1..];
    }
  }

  lemma NameCharsAreNotMarkup(c: char)
    ensures IsNameChar(c) ==> !IsXmlSpace(c) && c != '<' && c != '>' && c != '/' && c != '='
  {
  }

  lemma ReadPrintedEndTag(tag: string, rest: string)
    requires IsName(tag)
    ensures ReadEndTag("</" + tag + ">" + rest, tag) == Read((), rest)
  {
    hide IsNameStart;
    var s := "</" + tag + ">" + rest;
    assert s[2..] == tag + (">" + rest);
    NameCharsAreNotMarkup('>');
    ReadToken(tag, ">" + rest);
    assert (">" + rest)[1..] == rest;
  }

  /** Text stops at the markup that follows it. */
  lemma ReadPrintedText(text: string, markup: string)
    requires "<" <= markup
    ensures var s := EncodeText(text) + markup; var n := LengthBefore(s, '<');
            s[..n] == EncodeText(text) && s[n..] == markup && !Contains(s[..n], "]]>") && Decode(s[..n]) == Some(text)
  {
    hide Decode, EncodeText;
    var encoded := EncodeText(text);
    DecodeEncodedText(text);
    assert encoded + markup == encoded + ['<'] + markup[1..];
    LengthBeforeAppend(encoded, '<', markup[1..]);
    assert (encoded + markup)[..|encoded|] == encoded && (encoded + markup)[|encoded|..] == markup;
    if Contains(encoded, "]]>") {
      ContainedCharacter(encoded, "]]>", 2);
    }
  }

  lemma ContainedCharacter(s: string, pattern: string, k: int)
    requires Contains(s, pattern) && 0 <= k < |pattern|
    ensures pattern[k] in s
  {
    var i := Find(s, pattern);
    assert s[i..i + |pattern|][k] == s[i + k];
  }

  lemma ReadElementUnfolds(afterBracket: string)
    ensures var name := ReadName(afterBracket);
            ReadElement("<" + afterBracket) ==
            if name.Malformed? then Malformed else
            var attributes := ReadAttributes(name.rest);
            if attributes.Malformed? then Malformed
            else if "/>" <= attributes.rest then
                Read(Element(name.value, attributes.value, "", [], ""), attributes.rest[2..])
            else if !(">" <= attributes.rest) then Malformed else
            var content := ReadContent(attributes.rest[1..]);
            if content.Malformed? then Malformed else
            var end := ReadEndTag(content.rest, name.value);
            if end.Malformed? then Malformed
            else Read(Element(name.value, attributes.value, content.value.0, content.value.1, ""), end.rest)
  {
    hide ReadName, ReadAttributes, ReadContent, ReadEndTag;
    assert ("<" + afterBracket)[1..] == afterBracket;
  }

  /**
   * Reading inverts printing for every tree whose names are legal, whatever its text, and fails for
   * every other tree.
   */
  lemma {:induction false} ReadPrinted(e: Element, rest: string)
    requires Printable(e)
    ensures ReadElement(Print(e) + rest) == if WellNamed(e) then Read(e.(tail := ""), rest) else Malformed
    decreases e, 1
  {
    hide EncodeText, IsNameStart, IsNameChar, ReadEndTag, PrintAttributes, ReadElement, ReadContent, ReadName,
         ReadAttributes;
    var closing := e.tag + ">" + rest;
    var content := EncodeText(e.text) + PrintAll(e.children) + ("</" + closing);
    var afterName := PrintAttributes(e.attributes) + (">" + content);
    assert Print(e) + rest == "<" + (e.tag + afterName);
    AttributesStart(e.attributes, ">" + content);
    ReadToken(e.tag, afterName);
    ReadElementUnfolds(e.tag + afterName);
    if IsName(e.tag) {
      ReadPrintedAttributes(e.attributes, ">" + content);
      assert (">" + content)[1..] == content;
      ReadPrintedContent(e.text, e.children, closing);
      ReadPrintedEndTag(e.tag, rest);
      assert "</" + closing == "</" + e.tag + ">" + rest;
    } else if ReadName(e.tag + afterName).Read? {
      NoAttributes(ReadName(e.tag + afterName).rest);
    }
  }

  lemma NoAttributes(s: string)
    requires s != "" && (s[0] >= '\U{80}' || s[0] == '>')
    ensures ReadAttributes(s) == Read([], s)
  {
  }

  lemma PlainFirst(attributes: seq<(string, string)>)
    requires PlainAttributes(attributes) && attributes != []
    ensures var (name, value) := attributes[0];
            IsName(name) && name != "" && IsNameChar(name[0]) &&
            (forall c | c in value :: c == ' ' || !IsXmlSpace(c)) &&
            !Names(attributes[1..], name)
    ensures PlainAttributes(attributes[1..])
  {
    hide IsNameChar, IsNameStart;
    assert attributes[0].0[0] in attributes[0].0;
  }

  lemma AttributesStart(attributes: seq<(string, string)>, rest: string)
    requires ">" <= rest
    ensures var s := PrintAttributes(attributes) + rest; s != "" && !IsNameChar(s[0])
  {
  }

  lemma {:induction false} ReadPrintedContent(text: string, children: seq<Element>, closing: string)
    requires AllPrintable(children)
    ensures ReadContent(EncodeText(text) + PrintAll(children) + ("</" + closing)) ==
            if AllWellNamed(children) then Read((text, children), "</" + closing) else Malformed
    decreases children, 0
  {
    hide EncodeText, Decode, Contains, Print, IsToken, ReadElement, Printable, WellNamed;
    var endTag := "</" + closing;
    var s := EncodeText(text) + PrintAll(children) + endTag;
    if children == [] {
      assert s == EncodeText(text) + endTag;
      ReadPrintedText(text, endTag);
    } else {
      var e, others := children[0], children[1..];
      var after := EncodeText(e.tail) + PrintAll(others) + endTag;
      var markup := Print(e) + after;
      assert s == EncodeText(text) + markup;
      PrintedStart(e, after);
      ReadPrintedText(text, markup);
      ReadPrinted(e, after);
      ReadPrintedContent(e.tail, others, closing);
      assert e.(tail := "").(tail := e.tail) == e;
      assert children == [e] + others;
    }
  }

  lemma PrintedStart(e: Element, rest: string)
    requires Printable(e)
    ensures "<" <= Print(e) + rest && !("</" <= Print(e) + rest)
  {
    hide IsNameStart, PrintAttributes, EncodeText, PrintAll;
    assert (Print(e) + rest)[1] == e.tag[0] && e.tag[0] in e.tag;
    NameCharsAreNotMarkup(e.tag[0]);
  }

  // ---------------------------------------------------------------- whole documents

  function NormalizeElement(e: Element): Element {
    Element(e.tag, e.attributes, NormalizeNewlines(e.text), NormalizeAll(e.children), NormalizeNewlines(e.tail))
  }

  function NormalizeAll(es: seq<Element>): seq<Element> {
    if es == [] then [] else [NormalizeElement(es[0])] + NormalizeAll(es[1..])
  }

  /** Every character of text and attribute values in the tree is one XML allows. */
  predicate LegalText(e: Element) {
    AllXmlChars(e.text) && (forall i | 0 <= i < |e.attributes| :: AllXmlChars(e.attributes[i].1)) &&
    AllLegalText(e.children)
  }

  predicate AllLegalText(es: seq<Element>) {
    es == [] || (LegalText(es[0]) && AllXmlChars(es[0].tail) && AllLegalText(es[1..]))
  }

  lemma {:induction false} NormalizeMarkup(markup: string, rest: string)
    requires '\r' !in markup
    ensures NormalizeNewlines(markup + rest) == markup + NormalizeNewlines(rest)
  {
    if markup == "" {
      assert markup + rest == rest;
    } else {
      hide NormalizeNewlines;
      assert markup[0] in markup && forall c | c in markup[1..] :: c in markup;
      NormalizeMarkup(markup[1..], rest);
      NormalizeFirst(markup[0], markup[1..] + rest);
      assert markup + rest == [markup[0]] + (markup[1..] + rest);
    }
  }

  lemma NormalizeFirst(c: char, rest: string)
    requires c != '\r'
    ensures NormalizeNewlines([c] + rest) == [c] + NormalizeNewlines(rest)
  {
    assert ([c] + rest)[1..] == rest;
  }

  lemma EmptyStrings()
    ensures NormalizeNewlines("") == "" == EncodeText("")
  {
  }

  lemma CodeOfReturn(c: char)
    ensures if c == '\r' then TextCode(c) == "\r" else '\r' !in TextCode(c)
    ensures TextCode('\n') == "\n"
  {
  }

  lemma NormalizeReturn(after: string)
    ensures NormalizeNewlines("\r" + after) ==
            if after != "" && after[0] == '\n' then NormalizeNewlines(after) else "\n" + NormalizeNewlines(after)
  {
    assert ("\r" + after)[1..] == after;
  }

  lemma EncodeFirst(c: char, rest: string)
    ensures EncodeText([c] + rest) == TextCode(c) + EncodeText(rest)
  {
    assert ([c] + rest)[1..] == rest;
  }

  /** Escaping commutes with end-of-line handling, as long as markup follows. */
  lemma {:induction false} NormalizeEncoded(text: string, markup: string)
    requires markup != "" && markup[0] == '<'
    ensures NormalizeNewlines(EncodeText(text) + markup) == EncodeText(NormalizeNewlines(text)) +
            NormalizeNewlines(markup)
  {
    hide EncodeText, NormalizeNewlines, TextCode;
    if text == "" {
      EmptyStrings();
      assert "" + markup == markup;
    } else {
      CodeOfReturn(text[0]);
      var rest := text[1..];
      assert text == [text[0]] + rest;
      NormalizeEncoded(rest, markup);
      EncodeFirst(text[0], rest);
      var after := EncodeText(rest) + markup;
      assert EncodeText(text) + markup == TextCode(text[0]) + after;
      if text[0] == '\r' {
        FirstEncoded(rest, markup);
        NormalizeReturn(after);
        NormalizeReturn(rest);
        EncodeFirst('\n', NormalizeNewlines(rest));
      } else {
        NormalizeMarkup(TextCode(text[0]), after);
        NormalizeMarkup([text[0]], rest);
        EncodeFirst(text[0], NormalizeNewlines(rest));
      }
    }
  }

  lemma FirstEncoded(text: string, markup: string)
    requires markup != "" && markup[0] == '<'
    ensures var s := EncodeText(text) + markup; s != "" && (s[0] == '\n' <==> text != "" && text[0] == '\n')
  {
  }

  lemma PrintableNormalized(e: Element)
    requires Printable(e)
    ensures Printable(NormalizeElement(e)) && (WellNamed(NormalizeElement(e)) <==> WellNamed(e))
    decreases e, 1
  {
    hide IsToken, PlainAttributes, IsName;
    AllPrintableNormalized(e.children);
  }

  lemma AllPrintableNormalized(es: seq<Element>)
    requires AllPrintable(es)
    ensures AllPrintable(NormalizeAll(es)) && (AllWellNamed(NormalizeAll(es)) <==> AllWellNamed(es))
    decreases es, 0
  {
    hide Printable, WellNamed;
    if es != [] {
      PrintableNormalized(es[0]);
      AllPrintableNormalized(es[1..]);
      assert NormalizeAll(es)[1..] == NormalizeAll(es[1..]);
    }
  }

  lemma {:induction false} AttributesHaveNoNewline(attributes: seq<(string, string)>)
    requires PlainAttributes(attributes)
    ensures '\r' !in PrintAttributes(attributes)
  {
    hide IsName;
    if attributes != [] {
      hide PlainAttributes;
      NameHasNoNewline(attributes);
      PlainFirst(attributes);
      EncodedAttributeIsPlain(attributes[0].1);
      AttributesHaveNoNewline(attributes[1..]);
    }
  }

  lemma NameHasNoNewline(attributes: seq<(string, string)>)
    requires PlainAttributes(attributes) && attributes != []
    ensures '\r' !in attributes[0].0
  {
    NameCharsAreNotMarkup('\r');
  }

  /** A printed element, up to its text and from there on. */
  lemma PrintedParts(e: Element, rest: string)
    ensures var open, close := "<" + e.tag + PrintAttributes(e.attributes) + ">", "</" + e.tag + ">";
            Print(e) + rest == open + (EncodeText(e.text) + (PrintAll(e.children) + (close + rest)))
  {
    hide PrintAttributes, EncodeText, PrintAll;
    var open, close := "<" + e.tag + PrintAttributes(e.attributes) + ">", "</" + e.tag + ">";
    var text, children := EncodeText(e.text), PrintAll(e.children);
    assert Print(e) == open + text + children + "</" + e.tag + ">";
    hide *;
    assert open + text + children + "</" + e.tag + ">" == open + text + children + close;
    Regroup(open + text + children, close, rest);
    Regroup(open + text, children, close + rest);
    Regroup(open, text, children + (close + rest));
  }

  lemma {:induction false} NormalizePrinted(e: Element, rest: string)
    requires Printable(e)
    ensures NormalizeNewlines(Print(e) + rest) == Print(NormalizeElement(e)) + NormalizeNewlines(rest)
    decreases e, 1
  {
    var open, close, n := "<" + e.tag + PrintAttributes(e.attributes) + ">", "</" + e.tag + ">", NormalizeElement(e);
    assert '\r' !in open && '\r' !in close by {
      hide PlainAttributes, PrintAttributes, IsNameStart;
      AttributesHaveNoNewline(e.attributes);
      NameCharsAreNotMarkup('\r');
    }
    hide NormalizeNewlines, EncodeText, PlainAttributes, PrintAttributes, Print, PrintAll, IsToken;
    var children := PrintAll(e.children) + (close + rest);
    PrintedParts(e, rest);
    PrintedParts(n, NormalizeNewlines(rest));
    NormalizeMarkup(open, EncodeText(e.text) + children);
    PrintedAllStart(e.children, close + rest);
    NormalizeEncoded(e.text, children);
    NormalizePrintedAll(e.children, close + rest);
    NormalizeMarkup(close, rest);
  }

  lemma PrintAllUnfolds(es: seq<Element>, markup: string, tail: string)
    requires es != [] ==> tail == EncodeText(es[0].tail)
    ensures es == [] ==> PrintAll(es) == ""
    ensures es != [] ==> PrintAll(es) + markup == Print(es[0]) + (tail + (PrintAll(es[1..]) + markup))
  {
    hide EncodeText, Print;
  }

  lemma PrintedAllStart(es: seq<Element>, markup: string)
    requires markup != "" && markup[0] == '<'
    ensures var s := PrintAll(es) + markup; s != "" && s[0] == '<'
  {
    hide EncodeText, PrintAttributes;
  }

  lemma {:induction false} NormalizePrintedAll(es: seq<Element>, markup: string)
    requires AllPrintable(es) && markup != "" && markup[0] == '<'
    ensures NormalizeNewlines(PrintAll(es) + markup) == PrintAll(NormalizeAll(es)) + NormalizeNewlines(markup)
    decreases es, 0
  {
    hide NormalizeNewlines, EncodeText, Print, Printable, PrintAll;
    if es == [] {
      PrintAllUnfolds([], "", "");
      assert "" + markup == markup && "" + NormalizeNewlines(markup) == NormalizeNewlines(markup);
    } else {
      var tail, others := EncodeText(es[0].tail), PrintAll(es[1..]) + markup;
      PrintAllUnfolds(es, markup, tail);
      NormalizePrinted(es[0], tail + others);
      PrintedAllStart(es[1..], markup);
      NormalizeEncoded(es[0].tail, others);
      NormalizePrintedAll(es[1..], markup);
      var n := NormalizeAll(es);
      assert n[0] == NormalizeElement(es[0]) && n[1..] == NormalizeAll(es[1..]);
      PrintAllUnfolds(n, NormalizeNewlines(markup), EncodeText(n[0].tail));
    }
  }

  lemma EncodedChars(s: string)
    ensures AllXmlChars(EncodeText(s)) <==> AllXmlChars(s)
    ensures AllXmlChars(EncodeAttribute(s)) <==> AllXmlChars(s)
  {
    if s != "" {
      EncodedChars(s[1..]);
      assert s == [s[0]] + s[1..];
      AppendedChars([s[0]], s[1..]);
      AppendedChars(TextCode(s[0]), EncodeText(s[1..]));
      AppendedChars(AttributeCode(s[0]), EncodeAttribute(s[1..]));
      CodeChars(s[0]);
    }
  }

  lemma CodeChars(c: char)
    ensures AllXmlChars(TextCode(c)) <==> IsXmlChar(c)
    ensures AllXmlChars(AttributeCode(c)) <==> IsXmlChar(c)
    ensures AllXmlChars([c]) <==> IsXmlChar(c)
  {
    assert c in [c];
  }

  lemma AppendedChars(a: string, b: string)
    ensures AllXmlChars(a + b) <==> AllXmlChars(a) && AllXmlChars(b)
  {
    hide IsXmlChar;
    assert forall c :: c in a + b <==> c in a || c in b;
  }

  lemma NameChars(name: string)
    requires IsName(name)
    ensures AllXmlChars(name)
  {
  }

  lemma {:induction false} AttributeChars(attributes: seq<(string, string)>)
    requires PlainAttributes(attributes)
    ensures AllXmlChars(PrintAttributes(attributes)) <==>
            forall i | 0 <= i < |attributes| :: AllXmlChars(attributes[i].1)
  {
    if attributes != [] {
      hide AllXmlChars, PlainAttributes, EncodeAttribute;
      var (name, value) := attributes[0];
      PlainFirst(attributes);
      NameChars(name);
      EncodedChars(value);
      AttributeChars(attributes[1..]);
      MarkupChars();
      AppendedChars(" ", name);
      AppendedChars(" " + name, "=\"");
      AppendedChars(" " + name + "=\"", EncodeAttribute(value));
      AppendedChars(" " + name + "=\"" + EncodeAttribute(value), "\"");
      AppendedChars(" " + name + "=\"" + EncodeAttribute(value) + "\"", PrintAttributes(attributes[1..]));
    }
  }

  lemma MarkupChars()
    ensures AllXmlChars("") && AllXmlChars(" ") && AllXmlChars("=\"") && AllXmlChars("\"") && AllXmlChars("<") &&
            AllXmlChars(">") && AllXmlChars("</")
  {
  }

  /** Escaping neither hides nor introduces a character XML forbids. */
  lemma {:induction false} PrintedChars(e: Element)
    requires Printable(e) && WellNamed(e)
    ensures AllXmlChars(Print(e)) <==> LegalText(e)
    decreases e, 1
  {
    hide AllXmlChars, PlainAttributes, EncodeText, PrintAttributes, IsName, PrintAll;
    AttributeChars(e.attributes);
    EncodedChars(e.text);
    PrintedAllChars(e.children);
    NameChars(e.tag);
    MarkupChars();
    var s1 := "<" + e.tag;
    var s2 := s1 + PrintAttributes(e.attributes);
    var s3 := s2 + ">";
    var s4 := s3 + EncodeText(e.text);
    var s5 := s4 + PrintAll(e.children);
    AppendedChars("<", e.tag);
    AppendedChars(s1, PrintAttributes(e.attributes));
    AppendedChars(s2, ">");
    AppendedChars(s3, EncodeText(e.text));
    AppendedChars(s4, PrintAll(e.children));
    AppendedChars(s5, "</");
    AppendedChars(s5 + "</", e.tag);
    AppendedChars(s5 + "</" + e.tag, ">");
  }

  lemma {:induction false} PrintedAllChars(es: seq<Element>)
    requires AllPrintable(es) && AllWellNamed(es)
    ensures AllXmlChars(PrintAll(es)) <==> AllLegalText(es)
    decreases es, 0
  {
    if es != [] {
      hide AllXmlChars, EncodeText, Print, Printable, WellNamed, LegalText;
      PrintedChars(es[0]);
      EncodedChars(es[0].tail);
      PrintedAllChars(es[1..]);
      AppendedChars(Print(es[0]), EncodeText(es[0].tail));
      AppendedChars(Print(es[0]) + EncodeText(es[0].tail), PrintAll(es[1..]));
    }
  }

  /**
   * Reading a printed tree as a document succeeds exactly when all its names and characters are legal,
   * and gives the tree back with its line ends normalized.
   */
  lemma ReadPrintedDocument(e: Element)
    requires Printable(e)
    ensures ReadDocument(Print(e)) ==
            if WellNamed(e) && LegalText(e) then Some(NormalizeElement(e).(tail := "")) else None
  {
    hide Print, Printable, WellNamed, LegalText, AllXmlChars, ReadElement, NormalizeNewlines;
    if WellNamed(e) {
      PrintedChars(e);
    }
    NormalizePrinted(e, "");
    EmptyStrings();
    PrintableNormalized(e);
    var s := Print(NormalizeElement(e));
    assert Print(e) + "" == Print(e) && s + "" == s;
    PrintedNotEmpty(NormalizeElement(e));
    ReadPrinted(NormalizeElement(e), "");
  }

  lemma PrintedNotEmpty(e: Element)
    ensures Print(e) != "" && Print(e)[0] == '<'
  {
    hide EncodeText, PrintAttributes, PrintAll;
  }
}
