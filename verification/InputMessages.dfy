/** Message envelopes: serialization, splicing of data into a serialized envelope, and reading back. */
module InputMessages {
  import opened Common
  import opened Xml

  // ---------------------------------------------------------------- structured data

  /** A data value: anything printed through `str`, or named fields; a list is fields that are all named `item`. */
  datatype Value = Scalar(text: string) | Nested(fields: seq<Field>)

  datatype Field = Field(name: string, value: Value)

  /** `str.isalnum` for one character; of the characters beyond ASCII it admits all. */
  predicate IsAlnum(c: char) {
    'a' <= c <= 'z' || 'A' <= c <= 'Z' || '0' <= c <= '9' || c >= '\U{80}'
  }

  predicate ValidFieldName(name: string) {
    (exists c | c in name :: c != '_' && c != '-') && forall c | c in name :: c == '_' || c == '-' || IsAlnum(c)
  }

  /** A field name is valid exactly if letters and digits are all that is left without underscores and hyphens. */
  lemma FieldNamesAre(name: string)
    ensures ValidFieldName(name) <==>
            var rest := ReplaceChar(ReplaceChar(name, '_', ""), '-', "");
            rest != "" &&
            forall c | c in rest :: 'a' <= c <= 'z' || 'A' <= c <= 'Z' || '0' <= c <= '9' || c >= '\U{80}'
  {
    RemovedIs(name, '_');
    RemovedIs(ReplaceChar(name, '_', ""), '-');
    var rest := ReplaceChar(ReplaceChar(name, '_', ""), '-', "");
    if rest != "" {
      assert rest[0] in rest;
    }
  }

  lemma {:induction false} RemovedIs(s: string, c: char)
    ensures forall x :: x in ReplaceChar(s, c, "") <==> x in s && x != c
  {
    if s != "" {
      RemovedIs(s[1..], c);
      assert s == [s[0]] + s[1..];
    }
  }

  /** One data field as XML, or `None` for the `ValueError` an invalid field name raises. */
  function DataElement(name: string, value: Value): Option<string>
    decreases value, 1
  {
    if !ValidFieldName(name) then None else
    match value
    case Scalar(text) => Some("<" + name + ">" + EscapeText(text) + "</" + name + ">")
    case Nested(fields) =>
      match DataElements(fields)
      case Some(children) => Some("<" + name + ">\n" + Join("\n", children) + "\n</" + name + ">")
      case None => None
  }

  function DataElements(fields: seq<Field>): Option<seq<string>>
    decreases fields, 0
  {
    if fields == [] then Some([]) else
    match (DataElement(fields[0].name, fields[0].value), DataElements(fields[1..]))
    case (Some(first), Some(others)) => Some([first] + others)
    case _ => None
  }

  predicate ValidNames(name: string, value: Value)
    decreases value, 1
  {
    ValidFieldName(name) && (value.Nested? ==> AllValidNames(value.fields))
  }

  predicate AllValidNames(fields: seq<Field>)
    decreases fields, 0
  {
    fields == [] || (ValidNames(fields[0].name, fields[0].value) && AllValidNames(fields[1..]))
  }

  /** The field is one XML can carry: every name legal, every character allowed. */
  predicate Readable(name: string, value: Value)
    decreases value, 1
  {
    IsName(name) &&
    match value
    case Scalar(text) => AllXmlChars(text)
    case Nested(fields) => AllReadable(fields)
  }

  predicate AllReadable(fields: seq<Field>)
    decreases fields, 0
  {
    fields == [] || (Readable(fields[0].name, fields[0].value) && AllReadable(fields[1..]))
  }

  /** The element a data field denotes. */
  function DataTree(name: string, value: Value): Element
    decreases value, 1
  {
    match value
    case Scalar(text) => Element(name, [], text, [], "\n")
    case Nested(fields) => Element(name, [], if fields == [] then "\n\n" else "\n", FieldTrees(fields), "\n")
  }

  function FieldTrees(fields: seq<Field>): (trees: seq<Element>)
    ensures |trees| == |fields|
    decreases fields, 0
  {
    if fields == [] then [] else [DataTree(fields[0].name, fields[0].value)] + FieldTrees(fields[1..])
  }

  function Lines(lines: seq<string>): string {
    if lines == [] then "" else lines[0] + "\n" + Lines(lines[1..])
  }

  lemma {:induction false} JoinedLines(lines: seq<string>)
    ensures Join("\n", lines) + "\n" == if lines == [] then "\n" else Lines(lines)
  {
    if |lines| > 1 {
      JoinedLines(lines[1..]);
      assert Join("\n", lines) + "\n" == lines[0] + "\n" + (Join("\n", lines[1..]) + "\n");
    } else if |lines| == 1 {
      assert Lines(lines[1..]) == "";
    }
  }

  lemma {:induction false} PrintAllAppend(a: seq<Element>, b: seq<Element>)
    ensures PrintAll(a + b) == PrintAll(a) + PrintAll(b)
  {
    hide PrintAll, Print, EncodeText;
    if a == [] {
      assert a + b == b;
      PrintAllUnfolds([], "", "");
    } else {
      var tail := EncodeText(a[0].tail);
      PrintAllAppend(a[1..], b);
      PrintAllUnfolds(a, PrintAll(b), tail);
      assert (a + b)[0] == a[0] && (a + b)[1..] == a[1..] + b;
      PrintAllUnfolds(a + b, "", tail);
      var rest := PrintAll(a[1..]) + PrintAll(b);
      assert PrintAll(a + b) + "" == PrintAll(a + b) && rest + "" == rest;
    }
  }

  lemma NewlineEncodes()
    ensures EncodeText("\n") == "\n" && EncodeText("\n\n") == "\n\n" && EncodeText("") == ""
  {
    assert "\n\n"[1..] == "\n";
  }

  lemma PrintLeaf(tag: string, text: string, tail: string)
    ensures Print(Element(tag, [], text, [], tail)) == "<" + tag + ">" + EscapeText(text) + "</" + tag + ">"
  {
    hide EncodeText, EscapeText;
    EscapeIsCharwise(text);
  }

  /** String building and tree printing agree, and the only failure is an invalid name somewhere in the value. */
  lemma {:induction false} DataElementPrints(name: string, value: Value)
    ensures DataElement(name, value) == if ValidNames(name, value) then Some(Print(DataTree(name, value))) else None
    decreases value, 1
  {
    hide EscapeText, ValidFieldName, EncodeText;
    match value {
      case Scalar(text) =>
        PrintLeaf(name, text, "\n");
      case Nested(fields) =>
        DataElementsPrint(fields);
        if DataElements(fields).Some? {
          PrintNode(name, DataElements(fields).value, FieldTrees(fields));
        }
    }
  }

  lemma PrintNode(name: string, lines: seq<string>, trees: seq<Element>)
    requires |lines| == |trees| && Lines(lines) == PrintAll(trees)
    ensures "<" + name + ">\n" + Join("\n", lines) + "\n</" + name + ">" ==
            Print(Element(name, [], if trees == [] then "\n\n" else "\n", trees, "\n"))
  {
    hide *;
    NewlineEncodes();
    JoinedLines(lines);
    NodePrints(name, if trees == [] then "\n\n" else "\n", trees);
    var joined := Join("\n", lines);
    NodeText(name, joined);
    if trees == [] {
      NoTreesPrint();
      EmptyNodeText(name);
    }
  }

  lemma NoTreesPrint()
    ensures PrintAll([]) == "" && Join("\n", []) == ""
  {
  }

  lemma EmptyNodeText(name: string)
    ensures "<" + name + ">\n" + "" + "\n</" + name + ">" == "<" + name + ">" + "\n\n" + "" + "</" + name + ">"
  {
  }

  lemma NodePrints(name: string, text: string, trees: seq<Element>)
    ensures Print(Element(name, [], text, trees, "\n")) ==
            "<" + name + ">" + EncodeText(text) + PrintAll(trees) + "</" + name + ">"
  {
    hide EncodeText, PrintAll;
  }

  lemma NodeText(name: string, joined: string)
    ensures "<" + name + ">\n" + joined + "\n</" + name + ">" ==
            "<" + name + ">" + "\n" + (joined + "\n") + "</" + name + ">"
  {
  }

  lemma {:induction false} DataElementsPrint(fields: seq<Field>)
    ensures DataElements(fields).Some? <==> AllValidNames(fields)
    ensures AllValidNames(fields) ==>
              |DataElements(fields).value| == |fields| && Lines(DataElements(fields).value) ==
                PrintAll(FieldTrees(fields))
    decreases fields, 0
  {
    if fields != [] {
      hide Print, DataElement, DataTree, ValidNames, EncodeText;
      var Field(name, value) := fields[0];
      DataElementPrints(name, value);
      DataElementsPrint(fields[1..]);
      NewlineEncodes();
      DataTail(name, value);
      if AllValidNames(fields) {
        var lines, trees := DataElements(fields).value, FieldTrees(fields);
        assert lines[1..] == DataElements(fields[1..]).value && trees[1..] == FieldTrees(fields[1..]);
      }
    }
  }

  lemma DataTail(name: string, value: Value)
    ensures DataTree(name, value).tail == "\n" && DataTree(name, value).tag == name
  {
  }

  lemma ValidNameIsToken(name: string)
    requires ValidFieldName(name)
    ensures IsToken(name)
  {
    hide IsNameStart;
    forall c | c in name ensures IsNameChar(c) || c >= '\U{80}' {
      assert IsAlnum(c) || c == '_' || c == '-';
      AlnumIsNameChar(c);
    }
  }

  lemma AlnumIsNameChar(c: char)
    ensures IsAlnum(c) || c == '_' || c == '-' ==> IsNameChar(c) || c >= '\U{80}'
  {
  }

  lemma {:induction false} DataTreeIsPrintable(name: string, value: Value)
    requires ValidNames(name, value)
    ensures Printable(DataTree(name, value))
    ensures WellNamed(DataTree(name, value)) && LegalText(DataTree(name, value)) <==> Readable(name, value)
    decreases value, 1
  {
    hide IsName, IsToken, AllXmlChars, ValidFieldName;
    ValidNameIsToken(name);
    LayoutIsLegal();
    match value {
      case Scalar(text) =>
      case Nested(fields) => FieldTreesArePrintable(fields);
    }
  }

  lemma LayoutIsLegal()
    ensures AllXmlChars("") && AllXmlChars("\n") && AllXmlChars("\n\n")
  {
  }

  lemma {:induction false} FieldTreesArePrintable(fields: seq<Field>)
    requires AllValidNames(fields)
    ensures AllPrintable(FieldTrees(fields))
    ensures AllWellNamed(FieldTrees(fields)) && AllLegalText(FieldTrees(fields)) <==> AllReadable(fields)
    decreases fields, 0
  {
    if fields != [] {
      hide IsName, IsToken, AllXmlChars, Printable, WellNamed, LegalText, DataTree, Readable;
      var Field(name, value) := fields[0];
      DataTreeIsPrintable(name, value);
      FieldTreesArePrintable(fields[1..]);
      LayoutIsLegal();
      DataTail(name, value);
      assert FieldTrees(fields)[1..] == FieldTrees(fields[1..]);
    }
  }

  // ---------------------------------------------------------------- the envelope

  datatype Surface = Slack | Linear | Github | Web | Desktop | Automation | Eval {
    function Name(): string {
      match this
      case Slack => "slack"
      case Linear => "linear"
      case Github => "github"
      case Web => "web"
      case Desktop => "desktop"
      case Automation => "automation"
      case Eval => "eval"
    }
  }

  datatype MessageKind = Human | System {
    function Name(): string {
      if Human? then "human" else "system"
    }
  }

  datatype Context = Context(sender: string, channel: Option<string>, surface: Surface, kind: MessageKind,
                             data: seq<Field>)

  predicate ValidEntityId(id: string) {
    Strip(id) != "" && ':' in id && forall c | c in id :: !IsSpace(c) && c !in "<>\"'"
  }

  /** The valid ids: a colon, and neither white space nor a bracket or quote. */
  lemma IdsAre(id: string)
    ensures ValidEntityId(id) <==>
            ':' in id && forall c | c in id :: !IsSpace(c) && c != '<' && c != '>' && c != '"' && c != '\''
  {
    if ':' in id && forall c | c in id :: !IsSpace(c) {
      hide IsSpace;
      var left, right := StripMeans(id);
      assert forall c | c in left || c in right :: c in id;
      assert forall i | 0 <= i < |left| :: left[i] in left;
      assert forall i | 0 <= i < |right| :: right[i] in right;
    }
  }

  /** An empty channel id counts as no channel. */
  predicate ValidIds(context: Context) {
    ValidEntityId(context.sender) &&
    (context.channel.Some? && context.channel.value != "" ==> ValidEntityId(context.channel.value))
  }

  function Attributes(context: Context): seq<(string, string)> {
    [("sender", context.sender)] +
    (if context.channel.Some? && context.channel.value != "" then [("channel", context.channel.value)] else []) +
    [("surface", context.surface.Name()), ("kind", context.kind.Name())]
  }

  function AttributeTexts(attributes: seq<(string, string)>): seq<string> {
    if attributes == [] then []
    else [attributes[0].0 + "=\"" + EscapeAttribute(attributes[0].1) + "\""] + AttributeTexts(attributes[1..])
  }

  /** The serialized envelope, or `None` where the source raises `ValueError`. */
  function SerializeMessage(text: string, context: Context): Option<string> {
    if !ValidIds(context) then None else
    match DataElements(context.data)
    case None => None
    case Some(data) =>
      var children := data + ["<content>" + EscapeText(text) + "</content>"];
      Some("<input-message " + Join(" ", AttributeTexts(Attributes(context))) + ">\n" + Join("\n", children) +
        "\n</input-message>")
  }

  const ENVELOPE_OPEN := "<input-message "
  const ENVELOPE_CLOSE := "</input-message>"

  function SpliceEnvelopeData(text: string, element: string): Option<string> {
    if !Contains(text, ENVELOPE_OPEN) then None else
    var close := FindLast(text, ENVELOPE_CLOSE);
    if close == -1 then None else Some(text[..close] + element + "\n" + text[close..])
  }

  /** Splice the fields one after the other, each into the result of the one before. */
  function AppendAll(text: string, fields: seq<Field>): Option<string>
    decreases |fields|
  {
    if fields == [] then Some(text) else
    match DataElement(fields[0].name, fields[0].value)
    case None => None
    case Some(element) =>
      match SpliceEnvelopeData(text, element)
      case None => None
      case Some(spliced) => AppendAll(spliced, fields[1..])
  }

  /** The tree an envelope denotes after `spliced` has been appended to it. */
  function EnvelopeTree(text: string, context: Context, spliced: seq<Field>): Element {
    Element("input-message", Attributes(context), "\n",
            FieldTrees(context.data) + [Element("content", [], text, [], "\n")] + FieldTrees(spliced), "")
  }

  lemma {:induction false} AttributesPrint(attributes: seq<(string, string)>)
    ensures attributes != [] ==> " " + Join(" ", AttributeTexts(attributes)) == PrintAttributes(attributes)
    ensures |AttributeTexts(attributes)| == |attributes|
  {
    hide EscapeAttribute, EncodeAttribute, Join;
    if attributes != [] {
      AttributesPrint(attributes[1..]);
      EscapeIsCharwise(attributes[0].1);
      var texts := AttributeTexts(attributes);
      assert texts[1..] == AttributeTexts(attributes[1..]);
      JoinUnfolds(" ", texts);
      if |attributes| == 1 {
        assert PrintAttributes(attributes[1..]) == "";
      }
    }
  }

  lemma JoinUnfolds(separator: string, parts: seq<string>)
    requires parts != []
    ensures Join(separator, parts) == if |parts| == 1 then parts[0]
            else parts[0] + separator + Join(separator, parts[1..])
  {
  }

  lemma {:induction false} LinesAppend(lines: seq<string>, last: string)
    ensures Lines(lines + [last]) == Lines(lines) + last + "\n"
  {
    if lines == [] {
      assert [last][1..] == [];
    } else {
      LinesAppend(lines[1..], last);
      assert (lines + [last])[1..] == lines[1..] + [last];
    }
  }

  lemma PrintOne(e: Element)
    requires e.tail == "\n"
    ensures PrintAll([e]) == Print(e) + "\n"
  {
    hide Print;
    NewlineEncodes();
    assert PrintAll([e][1..]) == "";
  }

  /** What the serializer writes is the print of the envelope's tree. */
  lemma SerializePrints(text: string, context: Context)
    ensures SerializeMessage(text, context).Some? <==> ValidIds(context) && AllValidNames(context.data)
    ensures ValidIds(context) && AllValidNames(context.data) ==>
              SerializeMessage(text, context).value == Print(EnvelopeTree(text, context, []))
  {
    hide Print, PrintAll, PrintAttributes, EscapeText, EncodeText, ValidIds, Join, AttributeTexts, Attributes,
         DataElements, FieldTrees, Lines;
    DataElementsPrint(context.data);
    if ValidIds(context) && AllValidNames(context.data) {
      var data, leaf := DataElements(context.data).value, Element("content", [], text, [], "\n");
      var content := "<content>" + EscapeText(text) + "</content>";
      PrintLeaf("content", text, "\n");
      assert content == Print(leaf);
      LinesAppend(data, content);
      JoinedLines(data + [content]);
      AttributesPrint(Attributes(context));
      AttributesPresent(context);
      var trees := FieldTrees(context.data);
      PrintOne(leaf);
      PrintAllAppend(trees, [leaf]);
      assert Lines(data + [content]) == PrintAll(trees + [leaf]);
      assert FieldTrees([]) == [] by {
        NoFields();
      }
      assert trees + [leaf] + [] == trees + [leaf];
      EnvelopePrints(Attributes(context), trees + [leaf]);
      EnvelopeText(Join(" ", AttributeTexts(Attributes(context))), Join("\n", data + [content]));
    }
  }

  lemma EnvelopeText(attributes: string, body: string)
    ensures "<input-message " + attributes + ">\n" + body + "\n</input-message>" ==
            "<input-message" + (" " + attributes) + ">\n" + (body + "\n") + "</input-message>"
  {
  }

  lemma NoFields()
    ensures FieldTrees([]) == []
  {
  }

  lemma AttributesPresent(context: Context)
    ensures Attributes(context) != []
  {
  }

  lemma EnvelopePrints(attributes: seq<(string, string)>, children: seq<Element>)
    ensures Print(Element("input-message", attributes, "\n", children, "")) ==
            "<input-message" + PrintAttributes(attributes) + ">\n" + PrintAll(children) + "</input-message>"
  {
    hide PrintAll, PrintAttributes, EncodeText;
    NewlineEncodes();
    var before, inside := "<input-message" + PrintAttributes(attributes), PrintAll(children);
    assert Print(Element("input-message", attributes, "\n", children, "")) ==
           before + ">" + "\n" + inside + "</" + "input-message" + ">";
    hide *;
    assert before + ">" + "\n" == before + ">\n";
    EndTag(before + ">\n" + inside);
  }

  lemma EndTag(s: string)
    ensures s + "</" + "input-message" + ">" == s + "</input-message>"
  {
    Regroup(s, "</", "input-message");
    Regroup(s, "</" + "input-message", ">");
    assert "</" + "input-message" + ">" == "</input-message>";
  }

  /** A splice always lands just inside the envelope's own end tag, whatever the text and data contain. */
  lemma SpliceExtends(text: string, context: Context, spliced: seq<Field>, field: Field)
    requires ValidNames(field.name, field.value)
    ensures SpliceEnvelopeData(Print(EnvelopeTree(text, context, spliced)), Print(DataTree(field.name, field.value))) ==
            Some(Print(EnvelopeTree(text, context, spliced + [field])))
  {
    hide Print, PrintAll, PrintAttributes, Attributes, FieldTrees, DataTree;
    var before := FieldTrees(context.data) + [Element("content", [], text, [], "\n")] + FieldTrees(spliced);
    var tree := DataTree(field.name, field.value);
    var s := Print(EnvelopeTree(text, context, spliced));
    var attributes := PrintAttributes(Attributes(context));
    EnvelopePrints(Attributes(context), before);
    FieldTreesAppend(spliced, field);
    assert before + [tree] == FieldTrees(context.data) + [Element("content", [], text, [], "\n")] +
           FieldTrees(spliced + [field]);
    EnvelopePrints(Attributes(context), before + [tree]);
    PrintAllAppend(before, [tree]);
    DataTail(field.name, field.value);
    PrintOne(tree);
    var head := "<input-message" + attributes + ">\n" + PrintAll(before);
    assert s == head + ENVELOPE_CLOSE;
    assert s[|head|..|head| + |ENVELOPE_CLOSE|] == ENVELOPE_CLOSE;
    assert OccursAt(s, ENVELOPE_CLOSE, |head|);
    assert FindLast(s, ENVELOPE_CLOSE) == |head|;
    AttributesStartWithSpace(context);
    assert s[0..|ENVELOPE_OPEN|] == ENVELOPE_OPEN;
    OccurrenceIsContained(s, ENVELOPE_OPEN, 0);
    assert s[..|head|] == head && s[|head|..] == ENVELOPE_CLOSE;
    assert head + Print(tree) + "\n" + ENVELOPE_CLOSE ==
           "<input-message" + attributes + ">\n" + (PrintAll(before) + (Print(tree) + "\n")) + ENVELOPE_CLOSE;
  }

  lemma AttributesStartWithSpace(context: Context)
    ensures " " <= PrintAttributes(Attributes(context))
  {
    hide EncodeAttribute;
  }

  lemma {:induction false} FieldTreesAppend(fields: seq<Field>, field: Field)
    ensures FieldTrees(fields + [field]) == FieldTrees(fields) + [DataTree(field.name, field.value)]
  {
    hide DataTree;
    if fields == [] {
      assert [field][1..] == [];
    } else {
      FieldTreesAppend(fields[1..], field);
      assert (fields + [field])[1..] == fields[1..] + [field];
    }
  }

  /** Any number of splices is the serialization of the envelope with those fields added. */
  lemma {:induction false} AppendAllExtends(text: string, context: Context, before: seq<Field>, fields: seq<Field>)
    ensures AppendAll(Print(EnvelopeTree(text, context, before)), fields) ==
            if AllValidNames(fields) then Some(Print(EnvelopeTree(text, context, before + fields))) else None
    decreases |fields|
  {
    hide Print, EnvelopeTree, DataElement, SpliceEnvelopeData, ValidNames, DataTree;
    if fields == [] {
      assert before + fields == before;
    } else {
      DataElementPrints(fields[0].name, fields[0].value);
      if ValidNames(fields[0].name, fields[0].value) {
        SpliceExtends(text, context, before, fields[0]);
        AppendAllExtends(text, context, before + [fields[0]], fields[1..]);
        assert before + [fields[0]] + fields[1..] == before + fields;
      }
    }
  }

  // ---------------------------------------------------------------- reading an envelope

  /** The proper descendants with the tag, in document order. */
  function Descendants(e: Element, tag: string): seq<Element>
    decreases e, 1
  {
    DescendantsOf(e.children, tag)
  }

  function DescendantsOf(es: seq<Element>, tag: string): seq<Element>
    decreases es, 0
  {
    if es == [] then []
    else (if es[0].tag == tag then [es[0]] else []) + Descendants(es[0], tag) + DescendantsOf(es[1..], tag)
  }

  /** The envelopes in one text block; a block that is not XML, or does not mention one, has none. */
  function EnvelopesIn(text: string): seq<Element> {
    if !Contains(text, "<input-message") then [] else
    match ReadDocument(text)
    case None => []
    case Some(root) => if root.tag == "input-message" then [root] else Descendants(root, "input-message")
  }

  function AllEnvelopes(texts: seq<string>): seq<Element> {
    if texts == [] then [] else EnvelopesIn(texts[0]) + AllEnvelopes(texts[1..])
  }

  function Attribute(attributes: seq<(string, string)>, name: string): Option<string> {
    if attributes == [] then None
    else if attributes[0].0 == name then Some(attributes[0].1)
    else Attribute(attributes[1..], name)
  }

  function FirstSender(envelopes: seq<Element>): Option<string> {
    if envelopes == [] then None else
    match Attribute(envelopes[0].attributes, "sender")
    case Some(sender) => if sender != "" then Some(sender) else FirstSender(envelopes[1..])
    case None => FirstSender(envelopes[1..])
  }

  /** `findtext("content")`: the leading text of the first such child. */
  function ContentText(children: seq<Element>): Option<string> {
    if children == [] then None
    else if children[0].tag == "content" then Some(children[0].text)
    else ContentText(children[1..])
  }

  function Bodies(envelopes: seq<Element>): seq<string> {
    if envelopes == [] then [] else
    match ContentText(envelopes[0].children)
    case Some(body) => (if Strip(body) != "" then [Strip(body)] else []) + Bodies(envelopes[1..])
    case None => Bodies(envelopes[1..])
  }

  function MessageSenderId(texts: seq<string>): Option<string> {
    FirstSender(AllEnvelopes(texts))
  }

  function InputMessageText(texts: seq<string>): Option<string> {
    var bodies := Bodies(AllEnvelopes(texts));
    if bodies == [] then None else Some(Join("\n\n", bodies))
  }

  lemma {:induction false} EnvelopesOfBoth(a: seq<string>, b: seq<string>)
    ensures AllEnvelopes(a + b) == AllEnvelopes(a) + AllEnvelopes(b)
  {
    hide EnvelopesIn;
    if a == [] {
      assert a + b == b;
    } else {
      EnvelopesOfBoth(a[1..], b);
      assert (a + b)[0] == a[0] && (a + b)[1..] == a[1..] + b;
    }
  }

  lemma {:induction false} BodiesOfBoth(a: seq<Element>, b: seq<Element>)
    ensures Bodies(a + b) == Bodies(a) + Bodies(b)
    ensures FirstSender(a + b) == if FirstSender(a).Some? then FirstSender(a) else FirstSender(b)
  {
    hide ContentText, Attribute, Strip;
    if a == [] {
      assert a + b == b;
    } else {
      BodiesOfBoth(a[1..], b);
      assert (a + b)[0] == a[0] && (a + b)[1..] == a[1..] + b;
    }
  }

  lemma {:induction false} JoinOfBoth(separator: string, a: seq<string>, b: seq<string>)
    requires a != [] && b != []
    ensures Join(separator, a + b) == Join(separator, a) + separator + Join(separator, b)
  {
    hide Join;
    JoinUnfolds(separator, a);
    JoinUnfolds(separator, a + b);
    if |a| == 1 {
      assert (a + b)[1..] == b;
    } else {
      JoinOfBoth(separator, a[1..], b);
      assert (a + b)[0] == a[0] && (a + b)[1..] == a[1..] + b;
    }
  }

  /** Blocks are read in order: their texts are two lines apart, and the first sender counts. */
  lemma BlocksAreReadInOrder(a: seq<string>, b: seq<string>)
    ensures InputMessageText(a + b) ==
            match (InputMessageText(a), InputMessageText(b))
            case (Some(x), Some(y)) => Some(x + "\n\n" + y)
            case (Some(x), None) => Some(x)
            case (None, y) => y
    ensures MessageSenderId(a + b) == if MessageSenderId(a).Some? then MessageSenderId(a) else MessageSenderId(b)
    ensures InputMessageText([]) == None == MessageSenderId([])
  {
    hide AllEnvelopes, Bodies, FirstSender, Join;
    EnvelopesOfBoth(a, b);
    BodiesOfBoth(AllEnvelopes(a), AllEnvelopes(b));
    var x, y := Bodies(AllEnvelopes(a)), Bodies(AllEnvelopes(b));
    if x == [] {
      assert x + y == y;
    } else if y == [] {
      assert x + y == x;
    } else {
      JoinOfBoth("\n\n", x, y);
    }
    NoBlocks();
  }

  lemma NoBlocks()
    ensures AllEnvelopes([]) == [] && Bodies([]) == [] && FirstSender([]) == None
  {
  }

  /** The text `findtext` reaches: a data field named `content` hides the message's own. */
  function VisibleText(data: seq<Field>, text: string): string {
    if data == [] then text
    else if data[0].name == "content" then DataTree(data[0].name, data[0].value).text
    else VisibleText(data[1..], text)
  }

  /** The envelope is one XML can carry. */
  predicate ReadableEnvelope(text: string, context: Context, spliced: seq<Field>) {
    AllXmlChars(text) && AllXmlChars(context.sender) && (context.channel.Some? ==>
      AllXmlChars(context.channel.value)) &&
    AllReadable(context.data) && AllReadable(spliced)
  }

  lemma IdIsPlain(id: string)
    requires ValidEntityId(id)
    ensures (forall c | c in id :: c == ' ' || !IsXmlSpace(c)) && '\r' !in id && '\'' !in id && id != ""
  {
    assert ':' in id;
  }

  lemma AttributesArePlain(context: Context)
    requires ValidIds(context)
    ensures PlainAttributes(Attributes(context))
    ensures Attribute(Attributes(context), "sender") == Some(context.sender)
    ensures (forall i | 0 <= i < |Attributes(context)| :: AllXmlChars(Attributes(context)[i].1)) <==>
              AllXmlChars(context.sender) && (context.channel.Some? ==> AllXmlChars(context.channel.value))
  {
    var attributes := Attributes(context);
    LiteralNames();
    IdIsPlain(context.sender);
    hide AllXmlChars, ValidEntityId, IsName, IsXmlSpace;
    LiteralValues(context.surface, context.kind);
    assert attributes[0] == ("sender", context.sender);
    if context.channel.Some? && context.channel.value != "" {
      IdIsPlain(context.channel.value);
      assert attributes == [("sender", context.sender), ("channel", context.channel.value),
                            ("surface", context.surface.Name()), ("kind", context.kind.Name())];
      assert attributes[1].1 == context.channel.value;
    } else {
      LayoutIsLegal();
      assert attributes == [("sender", context.sender), ("surface", context.surface.Name()),
               ("kind", context.kind.Name())];
    }
  }

  lemma LiteralNames()
    ensures IsName("sender") && IsName("channel") && IsName("surface") && IsName("kind") && IsName("input-message") &&
            IsName("content")
  {
    hide IsNameStart;
    LowerCaseIsName();
    forall c | c in "sender" + "channel" + "surface" + "kind" + "input" + "-" + "message" + "content"
      ensures IsNameChar(c)
    {
      assert 'a' <= c <= 'z' || c == '-';
    }
    assert "input-message" == "input" + "-" + "message";
  }

  lemma LowerCaseIsName()
    ensures forall c :: 'a' <= c <= 'z' ==> IsNameStart(c)
  {
  }

  lemma LiteralValues(surface: Surface, kind: MessageKind)
    ensures AllXmlChars(surface.Name()) && AllXmlChars(kind.Name())
    ensures forall c | c in surface.Name() + kind.Name() :: !IsXmlSpace(c)
  {
    assert forall c | c in surface.Name() :: 'a' <= c <= 'z';
    assert forall c | c in kind.Name() :: 'a' <= c <= 'z';
    hide *;
    LowerCaseIsPlain();
  }

  lemma LowerCaseIsPlain()
    ensures forall c | 'a' <= c <= 'z' :: IsXmlChar(c) && !IsXmlSpace(c)
  {
  }

  lemma AllPrintableAppend(a: seq<Element>, b: seq<Element>)
    ensures AllPrintable(a + b) <==> AllPrintable(a) && AllPrintable(b)
    ensures AllWellNamed(a + b) <==> AllWellNamed(a) && AllWellNamed(b)
    ensures AllLegalText(a + b) <==> AllLegalText(a) && AllLegalText(b)
  {
    hide Printable, WellNamed, LegalText, AllXmlChars;
    if a == [] {
      assert a + b == b;
    } else {
      assert (a + b)[1..] == a[1..] + b;
      AllPrintableAppend(a[1..], b);
    }
  }

  lemma LeafIsPrintable(tag: string, text: string)
    requires IsName(tag)
    ensures AllPrintable([Element(tag, [], text, [], "\n")])
    ensures AllWellNamed([Element(tag, [], text, [], "\n")])
    ensures AllLegalText([Element(tag, [], text, [], "\n")]) <==> AllXmlChars(text)
  {
    hide IsNameStart, IsNameChar, AllXmlChars;
    LayoutIsLegal();
    var leaf := Element(tag, [], text, [], "\n");
    NameIsToken(tag);
    assert leaf.children == [] && AllPrintable([]) && AllWellNamed([]) && AllLegalText([]);
    assert [leaf][1..] == [] && [leaf][0] == leaf;
    assert Printable(leaf) && WellNamed(leaf) && (LegalText(leaf) <==> AllXmlChars(text));
  }

  lemma EnvelopeIsPrintable(text: string, context: Context, spliced: seq<Field>)
    requires ValidIds(context) && AllValidNames(context.data) && AllValidNames(spliced)
    ensures Printable(EnvelopeTree(text, context, spliced))
    ensures WellNamed(EnvelopeTree(text, context, spliced)) && LegalText(EnvelopeTree(text, context, spliced)) <==>
              ReadableEnvelope(text, context, spliced)
  {
    hide IsName, AllXmlChars, PlainAttributes, FieldTrees, AllReadable, AllValidNames, Attributes, AllPrintable,
         AllWellNamed, AllLegalText, ValidIds;
    LiteralNames();
    LayoutIsLegal();
    NameIsToken("input-message");
    AttributesArePlain(context);
    FieldTreesArePrintable(context.data);
    FieldTreesArePrintable(spliced);
    LeafIsPrintable("content", text);
    var data, content := FieldTrees(context.data), [Element("content", [], text, [], "\n")];
    AllPrintableAppend(data, content);
    AllPrintableAppend(data + content, FieldTrees(spliced));
  }

  lemma NameIsToken(name: string)
    requires IsName(name)
    ensures IsToken(name)
  {
    hide IsNameStart, IsNameChar;
  }

  lemma {:induction false} VisibleContent(data: seq<Field>, text: string, spliced: seq<Element>)
    ensures ContentText(NormalizeAll(FieldTrees(data) + [Element("content", [], text, [], "\n")] + spliced)) ==
            Some(NormalizeNewlines(VisibleText(data, text)))
  {
    hide NormalizeNewlines;
    var leaf := Element("content", [], text, [], "\n");
    var all := FieldTrees(data) + [leaf] + spliced;
    if data == [] {
      assert all[0] == leaf;
    } else {
      hide DataTree;
      VisibleContent(data[1..], text, spliced);
      assert all[0] == DataTree(data[0].name, data[0].value);
      assert all[1..] == FieldTrees(data[1..]) + [leaf] + spliced;
      DataTail(data[0].name, data[0].value);
    }
  }

  /** The root a serialized envelope is read as. */
  lemma ReadEnvelope(text: string, context: Context, spliced: seq<Field>)
    requires ValidIds(context) && AllValidNames(context.data) && AllValidNames(spliced)
    ensures var tree := EnvelopeTree(text, context, spliced);
            EnvelopesIn(Print(tree)) == if ReadableEnvelope(text, context, spliced) then [NormalizeElement(tree)]
              else []
  {
    hide Print, ReadDocument, ReadableEnvelope, FieldTrees, Attributes, Descendants, ValidIds, AllValidNames,
         NormalizeNewlines, NormalizeAll, WellNamed, LegalText, Printable;
    var tree := EnvelopeTree(text, context, spliced);
    EnvelopeIsPrintable(text, context, spliced);
    ReadPrintedDocument(tree);
    EmptyStrings();
    EnvelopeMentioned(tree);
  }

  lemma EnvelopeMentioned(tree: Element)
    requires tree.tag == "input-message"
    ensures Contains(Print(tree), "<input-message")
  {
    hide PrintAttributes, PrintAll, EncodeText;
    assert Print(tree)[0..14] == "<input-message";
    OccurrenceIsContained(Print(tree), "<input-message", 0);
  }

  /**
   * The round trip, for every text, every valid context and every sequence of splices. If every name and
   * character is one XML allows, the sender comes back unchanged and the text comes back stripped with its
   * line ends normalized, unless a data field named `content` hides it; otherwise neither comes back.
   */
  lemma EnvelopeRoundTrip(text: string, context: Context, spliced: seq<Field>)
    requires ValidIds(context) && AllValidNames(context.data) && AllValidNames(spliced)
    ensures SerializeMessage(text, context).Some?
    ensures AppendAll(SerializeMessage(text, context).value, spliced).Some?
    ensures var sent := AppendAll(SerializeMessage(text, context).value, spliced).value;
            if ReadableEnvelope(text, context, spliced) then
              MessageSenderId([sent]) == Some(context.sender) &&
              InputMessageText([sent]) == NonEmpty(Strip(NormalizeNewlines(VisibleText(context.data, text))))
            else
              MessageSenderId([sent]) == None && InputMessageText([sent]) == None
  {
    hide ReadableEnvelope, Print, EnvelopesIn, FieldTrees, Attributes, AllValidNames, NormalizeNewlines, NormalizeAll,
         Strip, ContentText, VisibleText, AppendAll, SerializeMessage, Attribute, ValidEntityId;
    SerializePrints(text, context);
    AppendAllExtends(text, context, [], spliced);
    assert [] + spliced == spliced;
    ReadEnvelope(text, context, spliced);
    AttributesArePlain(context);
    IdIsPlain(context.sender);
    VisibleContent(context.data, text, FieldTrees(spliced));
    var sent := Print(EnvelopeTree(text, context, spliced));
    assert [sent][1..] == [];
    assert AllEnvelopes([sent]) == EnvelopesIn(sent) + [];
    if ReadableEnvelope(text, context, spliced) {
      var root := NormalizeElement(EnvelopeTree(text, context, spliced));
      assert AllEnvelopes([sent]) == [root] && [root][1..] == [];
      var body := Strip(NormalizeNewlines(VisibleText(context.data, text)));
      assert Bodies([root]) == if body != "" then [body] else [];
    }
  }

  // ---------------------------------------------------------------- the whole envelope, read back

  /** The element carries the field: its name, and its text with normalized line ends or its own fields. */
  predicate Carries(e: Element, field: Field)
    decreases field, 1
  {
    e.tag == field.name && e.attributes == [] &&
    match field.value
    case Scalar(text) => e.text == NormalizeNewlines(text) && e.children == []
    case Nested(fields) => AllCarry(e.children, fields)
  }

  predicate AllCarry(es: seq<Element>, fields: seq<Field>)
    decreases fields, 0
  {
    |es| == |fields| && forall i | 0 <= i < |fields| :: Carries(es[i], fields[i])
  }

  function KindWord(kind: MessageKind): string {
    match kind
    case Human => "human"
    case System => "system"
  }

  function SurfaceWord(surface: Surface): string {
    match surface
    case Slack => "slack"
    case Linear => "linear"
    case Github => "github"
    case Web => "web"
    case Desktop => "desktop"
    case Automation => "automation"
    case Eval => "eval"
  }

  lemma {:induction false} FieldIsCarried(field: Field)
    ensures Carries(NormalizeElement(DataTree(field.name, field.value)), field)
    decreases field, 1
  {
    hide NormalizeNewlines;
    match field.value
    case Scalar(text) =>
    case Nested(fields) => FieldsAreCarried(fields);
  }

  lemma {:induction false} FieldsAreCarried(fields: seq<Field>)
    ensures AllCarry(NormalizeAll(FieldTrees(fields)), fields)
    decreases fields, 0
  {
    if fields != [] {
      var trees := FieldTrees(fields);
      FieldIsCarried(fields[0]);
      FieldsAreCarried(fields[1..]);
      assert trees[0] == DataTree(fields[0].name, fields[0].value) && trees[1..] == FieldTrees(fields[1..]);
      var read, others := NormalizeAll(trees), NormalizeAll(trees[1..]);
      assert read == [NormalizeElement(trees[0])] + others;
      hide Carries;
      forall i | 0 <= i < |fields| ensures Carries(read[i], fields[i]) {
        if i > 0 {
          assert read[i] == others[i - 1] && fields[i] == fields[1..][i - 1];
        }
      }
    }
  }

  lemma AttributesAre(context: Context)
    ensures Attributes(context) ==
            [("sender", context.sender)] +
            (if context.channel.Some? && context.channel.value != "" then [("channel", context.channel.value)]
              else []) +
            [("surface", SurfaceWord(context.surface)), ("kind", KindWord(context.kind))]
  {
  }

  /**
   * The envelope that is read back, after any splices: sender, the channel if there is one, surface and kind by name;
   * then each data field, the text as `content`, and each spliced field, in order.
   */
  lemma EnvelopeReadsBack(text: string, context: Context, spliced: seq<Field>)
    requires ValidIds(context) && AllValidNames(context.data) && AllValidNames(spliced)
    requires ReadableEnvelope(text, context, spliced)
    ensures SerializeMessage(text, context).Some?
    ensures AppendAll(SerializeMessage(text, context).value, spliced).Some?
    ensures var read := ReadDocument(AppendAll(SerializeMessage(text, context).value, spliced).value);
            read.Some? && read.value.tag == "input-message" &&
            read.value.attributes ==
            [("sender", context.sender)] +
            (if context.channel.Some? && context.channel.value != "" then [("channel", context.channel.value)]
              else []) +
            [("surface", SurfaceWord(context.surface)), ("kind", KindWord(context.kind))] &&
            AllCarry(read.value.children, context.data + [Field("content", Scalar(text))] + spliced)
  {
    hide *;
    SerializePrints(text, context);
    AppendAllExtends(text, context, [], spliced);
    assert [] + spliced == spliced;
    EnvelopeIsPrintable(text, context, spliced);
    ReadPrintedDocument(EnvelopeTree(text, context, spliced));
    AttributesAre(context);
    TreeIsRead(text, context, spliced);
  }

  lemma TreeIsRead(text: string, context: Context, spliced: seq<Field>)
    ensures var read := NormalizeElement(EnvelopeTree(text, context, spliced)).(tail := "");
            read.tag == "input-message" && read.attributes == Attributes(context) &&
            AllCarry(read.children, context.data + [Field("content", Scalar(text))] + spliced)
  {
    hide Attributes, NormalizeNewlines, Carries;
    var content := [Element("content", [], text, [], "\n")];
    var all := context.data + [Field("content", Scalar(text))] + spliced;
    FieldsOfBoth(context.data, [Field("content", Scalar(text))]);
    FieldsOfBoth(context.data + [Field("content", Scalar(text))], spliced);
    ContentTree(text);
    FieldsAreCarried(all);
  }

  lemma ContentTree(text: string)
    ensures FieldTrees([Field("content", Scalar(text))]) == [Element("content", [], text, [], "\n")]
  {
    assert [Field("content", Scalar(text))][1..] == [];
  }

  lemma {:induction false} FieldsOfBoth(a: seq<Field>, b: seq<Field>)
    ensures FieldTrees(a + b) == FieldTrees(a) + FieldTrees(b)
  {
    hide DataTree;
    if a == [] {
      assert a + b == b;
    } else {
      assert (a + b)[1..] == a[1..] + b;
      FieldsOfBoth(a[1..], b);
    }
  }

  // ---------------------------------------------------------------- the text that comes back

  lemma {:induction false} StripLeftNormalizes(s: string)
    ensures StripLeft(NormalizeNewlines(s)) == NormalizeNewlines(StripLeft(s))
  {
    if s != "" && IsSpace(s[0]) {
      StripLeftNormalizes(s[1..]);
      if s[0] == '\r' {
        assert s == "\r" + s[1..];
        NormalizeReturn(s[1..]);
        SkipFirstSpace('\n', NormalizeNewlines(s[1..]));
      } else {
        assert s == [s[0]] + s[1..];
        NormalizeMarkup([s[0]], s[1..]);
        SkipFirstSpace(s[0], NormalizeNewlines(s[1..]));
      }
    } else if s != "" {
      assert s == [s[0]] + s[1..];
      NormalizeMarkup([s[0]], s[1..]);
    }
  }

  lemma SkipFirstSpace(c: char, rest: string)
    requires IsSpace(c)
    ensures StripLeft([c] + rest) == StripLeft(rest)
  {
    assert ([c] + rest)[1..] == rest;
  }

  /** Reading a string whose last character is dropped: only a final `CR LF` pair spans the cut. */
  lemma {:induction false} NormalizeLast(s: string, c: char)
    ensures NormalizeNewlines(s + [c]) ==
            if c == '\n' && s != "" && s[|s| - 1] == '\r' then NormalizeNewlines(s)
            else NormalizeNewlines(s) + [if c == '\r' then '\n' else c]
  {
    if s == "" {
      assert s + [c] == [c];
    } else {
      var rest := s[1..];
      NormalizeLast(rest, c);
      assert s == [s[0]] + rest && s + [c] == [s[0]] + (rest + [c]);
      if s[0] == '\r' {
        NormalizeReturn(rest);
        NormalizeReturn(rest + [c]);
        if rest == "" {
          assert rest + [c] == [c];
        }
      } else {
        NormalizeMarkup([s[0]], rest);
        NormalizeMarkup([s[0]], rest + [c]);
      }
    }
  }

  lemma {:induction false} StripRightNormalizes(s: string)
    ensures StripRight(NormalizeNewlines(s)) == NormalizeNewlines(StripRight(s))
  {
    if s != "" {
      var front, c := s[..|s| - 1], s[|s| - 1];
      assert s == front + [c];
      NormalizeLast(front, c);
      StripRightNormalizes(front);
      DropLastSpace(NormalizeNewlines(front), if c == '\r' then '\n' else c);
    }
  }

  lemma DropLastSpace(s: string, c: char)
    ensures StripRight(s + [c]) == if IsSpace(c) then StripRight(s) else s + [c]
  {
    assert (s + [c])[..|s|] == s;
  }

  lemma {:induction false} NormalizedHasNoReturn(s: string)
    ensures '\r' !in NormalizeNewlines(s)
    ensures '\r' !in s ==> NormalizeNewlines(s) == s
  {
    if s != "" {
      NormalizedHasNoReturn(s[1..]);
    }
  }

  /** The text comes back exactly as a caller would strip it, if and only if no carriage return is left inside. */
  lemma TextComesBackUnchanged(text: string, context: Context, spliced: seq<Field>)
    requires ValidIds(context) && AllValidNames(context.data) && AllValidNames(spliced)
    requires ReadableEnvelope(text, context, spliced)
    requires forall i | 0 <= i < |context.data| :: context.data[i].name != "content"
    ensures SerializeMessage(text, context).Some? && AppendAll(SerializeMessage(text, context).value, spliced).Some?
    ensures InputMessageText([AppendAll(SerializeMessage(text, context).value, spliced).value]) == NonEmpty(Strip(text))
            <==> '\r' !in Strip(text)
  {
    hide SerializeMessage, AppendAll, InputMessageText, ReadableEnvelope, NormalizeNewlines, AllValidNames, ValidIds;
    EnvelopeRoundTrip(text, context, spliced);
    NothingHidesTheText(context.data, text);
    StripLeftNormalizes(text);
    StripRightNormalizes(StripLeft(text));
    NormalizedHasNoReturn(Strip(text));
    EmptyStrings();
  }

  lemma NothingHidesTheText(data: seq<Field>, text: string)
    requires forall i | 0 <= i < |data| :: data[i].name != "content"
    ensures VisibleText(data, text) == text
  {
    if data != [] {
      assert data[0].name != "content";
      assert forall i | 0 <= i < |data[1..]| :: data[1..][i] == data[i + 1];
      NothingHidesTheText(data[1..], text);
    }
  }

  // ---------------------------------------------------------------- texts that do not come back

  const FROM_ANN := Context("u:ann", None, Web, Human, [])

  lemma AnnIsValid()
    ensures ValidIds(FROM_ANN) && ValidEntityId("u:ann") && AllXmlChars("u:ann")
  {
    assert StripLeft("u:ann") == "u:ann" && StripRight("u:ann") == "u:ann";
    assert "u:ann"[1] == ':';
  }

  lemma OneLetter(c: char)
    requires 'a' <= c <= 'z'
    ensures Strip([c]) == [c] && NormalizeNewlines([c]) == [c] && AllXmlChars([c])
  {
    assert StripLeft([c]) == [c] && StripRight([c]) == [c];
    assert [c][1..] == "";
  }

  /** A data field named `content` is read in place of the text. */
  lemma ContentFieldHidesTheText()
    ensures var message := SerializeMessage("a", FROM_ANN.(data := [Field("content", Scalar("b"))]));
            message.Some? && InputMessageText([message.value]) == Some("b")
  {
    var data := [Field("content", Scalar("b"))];
    var context := FROM_ANN.(data := data);
    AnnIsValid();
    OneLetter('a');
    OneLetter('b');
    LiteralNames();
    assert data[1..] == [] && ValidFieldName("content") by {
      assert "content"[0] == 'c' && 'c' in "content";
    }
    assert AllValidNames(data) && AllReadable(data) && VisibleText(data, "a") == "b";
    hide SerializeMessage, InputMessageText, AppendAll, ValidIds;
    EnvelopeRoundTrip("a", context, []);
    NothingAppended(SerializeMessage("a", context).value);
  }

  lemma NothingAppended(message: string)
    ensures AppendAll(message, []) == Some(message)
  {
  }

  /** A carriage return inside the text comes back as a line feed. */
  lemma CarriageReturnIsRewritten()
    ensures var message := SerializeMessage("a\rb", FROM_ANN);
            message.Some? && InputMessageText([message.value]) == Some("a\nb") && Strip("a\rb") == "a\rb"
  {
    AnnIsValid();
    ReturnBetweenLetters();
    assert VisibleText([], "a\rb") == "a\rb" && AllReadable([]) && AllValidNames([]);
    hide SerializeMessage, InputMessageText, AppendAll, ValidIds, Strip, NormalizeNewlines;
    EnvelopeRoundTrip("a\rb", FROM_ANN, []);
    NothingAppended(SerializeMessage("a\rb", FROM_ANN).value);
  }

  lemma ReturnBetweenLetters()
    ensures NormalizeNewlines("a\rb") == "a\nb" && Strip("a\nb") == "a\nb" && Strip("a\rb") == "a\rb" &&
            AllXmlChars("a\rb")
  {
    assert "a\rb"[1..] == "\rb" && "\rb"[1..] == "b" && "b"[1..] == "";
    assert NormalizeNewlines("\rb") == "\n" + NormalizeNewlines("b");
    assert StripLeft("a\nb") == "a\nb" && StripRight("a\nb") == "a\nb";
    assert StripLeft("a\rb") == "a\rb" && StripRight("a\rb") == "a\rb";
  }
}
