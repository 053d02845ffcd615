/** Dynamic context messages: introductions of people, channels and systems that carry the hash of their own content. */
module DynamicContext {
  import opened Common
  import opened Xml
  import opened InputMessages

  datatype EntityKind = Person | Channel | SystemEntity {
    function Name(): string {
      match this
      case Person => "person"
      case Channel => "channel"
      case SystemEntity => "system"
    }

    function FieldNames(): seq<string> {
      match this
      case Person => ["display_name", "handle", "platform", "github_login", "email", "timezone", "open_swe_account"]
      case Channel => ["platform", "name", "thread_id", "topic", "purpose"]
      case SystemEntity => ["display_name", "platform", "sender_type"]
    }
  }

  /** An identity's id and the fields it has, printed through `str`. */
  datatype Identity = Identity(id: string, fields: map<string, string>)

  /** SHA-256 in hexadecimal. */
  type Digest = string -> string

  ghost predicate IsDigest(sha: Digest) {
    forall s :: |sha(s)| == 64 && forall c | c in sha(s) :: '0' <= c <= '9' || 'a' <= c <= 'f'
  }

  // ---------------------------------------------------------------- writing

  /** The fields that are present and not empty, in the order of `names`. */
  function Filled(names: seq<string>, fields: map<string, string>): seq<(string, string)> {
    if names == [] then []
    else (if names[0] in fields && fields[names[0]] != "" then [(names[0], fields[names[0]])]
      else []) + Filled(names[1..], fields)
  }

  function Trust(name: string): seq<(string, string)> {
    if name == "topic" || name == "purpose" then [("trust", "untrusted")] else []
  }

  function FieldLine(name: string, value: string): string {
    "<" + name + (if Trust(name) == [] then "" else " trust=\"untrusted\"") + ">" + EscapeText(value) + "</" + name +
      ">"
  }

  function FieldLines(filled: seq<(string, string)>): seq<string> {
    if filled == [] then [] else [FieldLine(filled[0].0, filled[0].1)] + FieldLines(filled[1..])
  }

  function Canonical(kind: EntityKind, identity: Identity): string {
    var body := Join("\n", FieldLines(Filled(kind.FieldNames(), identity.fields)));
    "<dynamic-context kind=\"" + kind.Name() + "\" id=\"" + EscapeAttribute(identity.id) + "\">" +
    (if body == "" then "" else "\n" + body + "\n") + "</dynamic-context>"
  }

  /** `s.replace(">", by, 1)`. */
  function ReplaceFirstBracket(s: string, replacement: string): string {
    var i := Find(s, ">");
    if i < 0 then s else s[..i] + replacement + s[i + 1..]
  }

  /** The introduction, or `None` for the `ValueError` an invalid id raises. */
  function EntityMessage(kind: EntityKind, identity: Identity, sha: Digest): Option<string> {
    if !ValidEntityId(identity.id) then None else
    var canonical := Canonical(kind, identity);
    Some(ReplaceFirstBracket(canonical, " hash=\"" + sha(canonical) + "\">"))
  }

  // ---------------------------------------------------------------- reading

  /** How ElementTree writes one attribute character. */
  function TreeAttributeCode(c: char): string {
    if c == '"' then "&quot;"
    else if c == '\r' then "&#13;"
    else if c == '\n' then "&#10;"
    else if c == '\t' then "&#09;"
    else TextCode(c)
  }

  function TreeAttribute(s: string): string {
    if s == "" then "" else TreeAttributeCode(s[0]) + TreeAttribute(s[1..])
  }

  function TreeAttributes(attributes: seq<(string, string)>): string {
    if attributes == [] then ""
    else " " + attributes[0].0 + "=\"" + TreeAttribute(attributes[0].1) + "\"" + TreeAttributes(attributes[1..])
  }

  /** `ElementTree.tostring`: like `Print`, but an element without text and children closes itself. */
  function ToString(e: Element): string {
    "<" + e.tag + TreeAttributes(e.attributes) +
    (if e.text == "" && e.children == [] then " />"
     else ">" + EncodeText(e.text) + AllToString(e.children) + "</" + e.tag + ">")
  }

  function AllToString(es: seq<Element>): string {
    if es == [] then "" else ToString(es[0]) + EncodeText(es[0].tail) + AllToString(es[1..])
  }

  /** The attributes after `attrib.pop(name)`. */
  function WithoutAttribute(attributes: seq<(string, string)>, name: string): seq<(string, string)> {
    if attributes == [] then []
    else if attributes[0].0 == name then attributes[1..]
    else [attributes[0]] + WithoutAttribute(attributes[1..], name)
  }

  function ContextHashOf(text: string, sha: Digest): Option<string> {
    if !Contains(text, "<dynamic-context") then None else
    match ReadDocument(text)
    case None => None
    case Some(root) =>
      if root.tag != "dynamic-context" then None else
      var claimed := Attribute(root.attributes, "hash");
      var hash := sha(ToString(root.(attributes := WithoutAttribute(root.attributes, "hash"))));
      if claimed.None? || claimed.value == hash then Some(hash) else None
  }

  function DynamicContextHash(texts: seq<string>, sha: Digest): Option<string> {
    if texts == [] then None
    else if ContextHashOf(texts[0], sha).Some? then ContextHashOf(texts[0], sha)
    else DynamicContextHash(texts[1..], sha)
  }

  // ---------------------------------------------------------------- the context as a tree

  function FilledTrees(filled: seq<(string, string)>): seq<Element> {
    if filled == [] then []
    else [Element(filled[0].0, Trust(filled[0].0), filled[0].1, [], "\n")] + FilledTrees(filled[1..])
  }

  function ContextAttributes(kind: EntityKind, id: string): seq<(string, string)> {
    [("kind", kind.Name()), ("id", id)]
  }

  function ContextTree(kind: EntityKind, identity: Identity, extra: seq<(string, string)>): Element {
    var filled := Filled(kind.FieldNames(), identity.fields);
    Element("dynamic-context", ContextAttributes(kind, identity.id) + extra, if filled == [] then ""
      else "\n", FilledTrees(filled), "")
  }

  lemma FieldLinePrints(name: string, value: string)
    ensures FieldLine(name, value) == Print(Element(name, Trust(name), value, [], "\n"))
  {
    var trust := if Trust(name) == [] then "" else " trust=\"untrusted\"";
    assert PrintAttributes(Trust(name)) == trust by {
      UntrustedPrints();
      assert PrintAttributes([]) == "";
    }
    hide EscapeText, EncodeText, PrintAttributes, Trust;
    EscapeIsCharwise(value);
    assert PrintAll([]) == "";
    assert Print(Element(name, Trust(name), value, [], "\n")) ==
           "<" + name + trust + ">" + EncodeText(value) + "" + "</" + name + ">";
    hide *;
    assert "<" + name + trust + ">" + EncodeText(value) + "" == "<" + name + trust + ">" + EncodeText(value);
  }

  lemma UntrustedPrints()
    ensures PrintAttributes([("trust", "untrusted")]) == " trust=\"untrusted\""
  {
    hide EncodeAttribute;
    PlainEncodes("untrusted");
    PrintOneAttribute("trust", "untrusted");
  }

  lemma PrintOneAttribute(name: string, value: string)
    ensures PrintAttributes([(name, value)]) == " " + name + "=\"" + EncodeAttribute(value) + "\""
  {
    hide EncodeAttribute;
    assert PrintAttributes([(name, value)][1..]) == "";
  }

  lemma PlainEncodes(s: string)
    requires forall c | c in s :: c !in "&<>\"'"
    ensures EncodeAttribute(s) == s
  {
    if s != "" {
      assert s[0] in s;
      PlainEncodes(s[1..]);
      assert s == [s[0]] + s[1..];
    }
  }

  lemma {:induction false} FieldLinesPrint(filled: seq<(string, string)>)
    ensures |FieldLines(filled)| == |filled| && Lines(FieldLines(filled)) == PrintAll(FilledTrees(filled))
  {
    if filled != [] {
      hide Print, FieldLine, EncodeText;
      FieldLinePrints(filled[0].0, filled[0].1);
      FieldLinesPrint(filled[1..]);
      NewlineEncodes();
      var lines, trees := FieldLines(filled), FilledTrees(filled);
      assert lines[1..] == FieldLines(filled[1..]) && trees[1..] == FilledTrees(filled[1..]);
    }
  }

  lemma ContextAttributesPrint(kind: EntityKind, id: string, extra: seq<(string, string)>)
    ensures PrintAttributes(ContextAttributes(kind, id) + extra) ==
            " kind=\"" + kind.Name() + "\" id=\"" + EscapeAttribute(id) + "\"" + PrintAttributes(extra)
  {
    hide EncodeAttribute, EscapeAttribute;
    EscapeIsCharwise(id);
    KindEncodes(kind);
    var attributes := ContextAttributes(kind, id) + extra;
    assert attributes[0] == ("kind", kind.Name()) && attributes[1..] == [("id", id)] + extra;
    assert ([("id", id)] + extra)[1..] == extra;
  }

  lemma KindEncodes(kind: EntityKind)
    ensures EncodeAttribute(kind.Name()) == kind.Name()
  {
    PlainEncodes(kind.Name());
  }

  /** The canonical text is the print of the context's tree. */
  lemma CanonicalPrints(kind: EntityKind, identity: Identity)
    ensures Canonical(kind, identity) == Print(ContextTree(kind, identity, []))
  {
    hide Print, EscapeAttribute, PrintAttributes, PrintAll, EncodeText, Join, FieldLines, FilledTrees, Lines, Filled,
         ContextAttributes;
    var filled := Filled(kind.FieldNames(), identity.fields);
    var lines := FieldLines(filled);
    FieldLinesPrint(filled);
    JoinedLines(lines);
    NewlineEncodes();
    NoAttributesPrint();
    ContextAttributesPrint(kind, identity.id, []);
    var attributes := ContextAttributes(kind, identity.id);
    assert attributes + [] == attributes;
    ContextPrints(attributes, if filled == [] then "" else "\n", FilledTrees(filled));
    if filled == [] {
      NothingFilled();
    } else {
      LinesNotEmpty(filled);
    }
    CanonicalText(kind.Name(), EscapeAttribute(identity.id), Join("\n", lines));
  }

  lemma ContextPrints(attributes: seq<(string, string)>, text: string, children: seq<Element>)
    ensures Print(Element("dynamic-context", attributes, text, children, "")) ==
            "<dynamic-context" + PrintAttributes(attributes) + ">" + EncodeText(text) + PrintAll(children) +
              "</dynamic-context>"
  {
    hide PrintAttributes, EncodeText, PrintAll;
    assert "<" + "dynamic-context" == "<dynamic-context";
    var body := "<dynamic-context" + PrintAttributes(attributes) + ">" + EncodeText(text) + PrintAll(children);
    assert body + "</" + "dynamic-context" + ">" == body + "</dynamic-context>";
  }

  lemma CanonicalText(kind: string, id: string, body: string)
    ensures var open := "<dynamic-context kind=\"" + kind + "\" id=\"" + id + "\">";
            var open' := "<dynamic-context" + (" kind=\"" + kind + "\" id=\"" + id + "\"" + "") + ">";
            && open + "" + "</dynamic-context>" == open' + "" + "" + "</dynamic-context>"
            && open + ("\n" + body + "\n") + "</dynamic-context>" == open' + "\n" + (body + "\n") + "</dynamic-context>"
  {
    assert "<dynamic-context kind=\"" + kind + "\" id=\"" + id + "\">" ==
           "<dynamic-context" + (" kind=\"" + kind + "\" id=\"" + id + "\"" + "") + ">";
  }

  lemma NoAttributesPrint()
    ensures PrintAttributes([]) == ""
  {
  }

  lemma NothingFilled()
    ensures FieldLines([]) == [] && FilledTrees([]) == [] && Join("\n", []) == "" && PrintAll([]) == ""
  {
  }

  lemma LinesNotEmpty(filled: seq<(string, string)>)
    requires filled != []
    ensures Join("\n", FieldLines(filled)) != "" && FieldLines(filled) != []
  {
    hide EscapeText;
    JoinUnfolds("\n", FieldLines(filled));
  }

  lemma FindFirst(a: string, c: char, b: string)
    requires c !in a
    ensures Find(a + [c] + b, [c]) == |a|
  {
    var s := a + [c] + b;
    assert s[|a|..|a| + 1] == [c];
    assert OccursAt(s, [c], |a|);
    var i := Find(s, [c]);
    assert s[i..i + 1][0] == s[i];
  }

  lemma {:induction false} PrintAttributesAppend(attributes: seq<(string, string)>, name: string, value: string)
    ensures PrintAttributes(attributes + [(name, value)]) ==
            PrintAttributes(attributes) + " " + name + "=\"" + EncodeAttribute(value) + "\""
  {
    hide EncodeAttribute, PrintAttributes;
    NoAttributesPrint();
    if attributes == [] {
      PrintOneAttribute(name, value);
      assert attributes + [(name, value)] == [(name, value)];
    } else {
      var more := attributes + [(name, value)];
      PrintAttributesAppend(attributes[1..], name, value);
      assert more[1..] == attributes[1..] + [(name, value)] && more[0] == attributes[0];
      FirstAttributePrints(attributes);
      FirstAttributePrints(more);
    }
  }

  lemma FirstAttributePrints(attributes: seq<(string, string)>)
    requires attributes != []
    ensures PrintAttributes(attributes) ==
            " " + attributes[0].0 + "=\"" + EncodeAttribute(attributes[0].1) + "\"" + PrintAttributes(attributes[1..])
  {
    hide EncodeAttribute;
  }

  lemma {:induction false} AttributesHaveNoBracket(attributes: seq<(string, string)>)
    requires forall i | 0 <= i < |attributes| :: '>' !in attributes[i].0
    ensures '>' !in PrintAttributes(attributes)
  {
    hide EncodeAttribute;
    if attributes != [] {
      DecodeEncodedAttribute(attributes[0].1);
      AttributesHaveNoBracket(attributes[1..]);
    }
  }

  /** The hash lands in the opening tag: the message is the print of the tree with one more attribute. */
  lemma MessagePrints(kind: EntityKind, identity: Identity, sha: Digest)
    requires ValidEntityId(identity.id) && IsDigest(sha)
    ensures EntityMessage(kind, identity, sha) ==
            Some(Print(ContextTree(kind, identity, [("hash", sha(Canonical(kind, identity)))])))
  {
    hide Print, Canonical, PrintAttributes, EncodeAttribute, EncodeText, PrintAll, Filled, FilledTrees, ValidEntityId,
         ReplaceFirstBracket, IsDigest, ContextAttributes;
    var canonical := Canonical(kind, identity);
    var hash := sha(canonical);
    CanonicalPrints(kind, identity);
    var t := ContextTree(kind, identity, []);
    var attributes := ContextAttributes(kind, identity.id);
    assert attributes + [] == attributes;
    ContextPrints(attributes, t.text, t.children);
    ContextPrints(attributes + [("hash", hash)], t.text, t.children);
    PrintAttributesAppend(attributes, "hash", hash);
    DigestIsPlain(sha, canonical);
    PlainEncodes(hash);
    NoBracketBefore(kind, identity.id);
    InsertHash(PrintAttributes(attributes), hash, EncodeText(t.text), PrintAll(t.children));
  }

  lemma NoBracketBefore(kind: EntityKind, id: string)
    ensures '>' !in PrintAttributes(ContextAttributes(kind, id))
  {
    hide PrintAttributes;
    var attributes := ContextAttributes(kind, id);
    assert attributes[0].0 == "kind" && attributes[1].0 == "id";
    AttributesHaveNoBracket(attributes);
  }

  lemma InsertHash(attributes: string, hash: string, text: string, children: string)
    requires '>' !in attributes
    ensures ReplaceFirstBracket("<dynamic-context" + attributes + ">" + text + children + "</dynamic-context>",
              " hash=\"" + hash + "\">") ==
            "<dynamic-context" + (attributes + " " + "hash" + "=\"" + hash + "\"") + ">" + text + children +
              "</dynamic-context>"
  {
    hide ReplaceFirstBracket;
    var head, rest := "<dynamic-context" + attributes, text + children + "</dynamic-context>";
    assert head + ">" + rest == "<dynamic-context" + attributes + ">" + text + children + "</dynamic-context>";
    ReplaceFirst(head, rest, " hash=\"" + hash + "\">");
    HashText(attributes, hash, text, children);
  }

  lemma ReplaceFirst(head: string, rest: string, replacement: string)
    requires '>' !in head
    ensures ReplaceFirstBracket(head + ">" + rest, replacement) == head + replacement + rest
  {
    hide Find;
    FindFirst(head, '>', rest);
    var s := head + ">" + rest;
    assert s[..|head|] == head && s[|head| + 1..] == rest;
  }

  lemma HashText(attributes: string, hash: string, text: string, children: string)
    ensures "<dynamic-context" + attributes + (" hash=\"" + hash + "\">") + (text + children + "</dynamic-context>") ==
            "<dynamic-context" + (attributes + " " + "hash" + "=\"" + hash + "\"") + ">" + text + children +
              "</dynamic-context>"
  {
    assert " hash=\"" == " " + "hash" + "=\"";
  }

  lemma DigestIsPlain(sha: Digest, s: string)
    requires IsDigest(sha)
    ensures sha(s) != "" && forall c | c in sha(s) :: c !in "&<>\"'" && !IsXmlSpace(c) && IsXmlChar(c)
  {
  }

  // ---------------------------------------------------------------- the tree can be read back

  lemma SnakeCaseIsName(name: string)
    requires name != "" && 'a' <= name[0] <= 'z' && forall c | c in name :: 'a' <= c <= 'z' || c == '_' || c == '-'
    ensures IsName(name)
  {
    hide IsNameStart;
    LowerCaseIsName();
    UnderscoreIsName();
  }

  lemma UnderscoreIsName()
    ensures IsNameChar('_')
  {
  }

  lemma PersonNamesAreLegal()
    ensures forall i | 0 <= i < 7 :: IsName(Person.FieldNames()[i])
  {
    hide IsName;
    SnakeCaseIsName("display_name");
    SnakeCaseIsName("handle");
    SnakeCaseIsName("platform");
    SnakeCaseIsName("github_login");
    SnakeCaseIsName("email");
    SnakeCaseIsName("timezone");
    SnakeCaseIsName("open_swe_account");
  }

  lemma ChannelNamesAreLegal()
    ensures forall i | 0 <= i < 5 :: IsName(Channel.FieldNames()[i])
  {
    hide IsName;
    SnakeCaseIsName("platform");
    SnakeCaseIsName("name");
    SnakeCaseIsName("thread_id");
    SnakeCaseIsName("topic");
    SnakeCaseIsName("purpose");
  }

  lemma SystemNamesAreLegal()
    ensures forall i | 0 <= i < 3 :: IsName(SystemEntity.FieldNames()[i])
    ensures IsName("dynamic-context") && IsName("kind") && IsName("id") && IsName("hash") && IsName("trust")
  {
    hide IsName;
    SnakeCaseIsName("display_name");
    SnakeCaseIsName("platform");
    SnakeCaseIsName("sender_type");
    SnakeCaseIsName("dynamic-context");
    SnakeCaseIsName("kind");
    SnakeCaseIsName("id");
    SnakeCaseIsName("hash");
    SnakeCaseIsName("trust");
  }

  lemma FieldNamesAreLegal(kind: EntityKind)
    ensures forall i | 0 <= i < |kind.FieldNames()| :: IsName(kind.FieldNames()[i])
    ensures IsName("dynamic-context") && IsName("kind") && IsName("id") && IsName("hash") && IsName("trust")
  {
    hide IsName;
    PersonNamesAreLegal();
    ChannelNamesAreLegal();
    SystemNamesAreLegal();
  }

  lemma {:induction false} FilledNames(names: seq<string>, fields: map<string, string>)
    ensures forall i | 0 <= i < |Filled(names, fields)| ::
              Filled(names, fields)[i].0 in names && Filled(names, fields)[i].1 != ""
  {
    if names != [] {
      FilledNames(names[1..], fields);
      forall i | 0 <= i < |Filled(names, fields)| ensures Filled(names, fields)[i].0 in names {
        var first := |Filled(names, fields)| - |Filled(names[1..], fields)|;
        if i >= first {
          assert Filled(names, fields)[i] == Filled(names[1..], fields)[i - first];
        }
      }
    }
  }

  lemma TrustIsPlain(name: string)
    ensures PlainAttributes(Trust(name))
    ensures forall i | 0 <= i < |Trust(name)| :: AllXmlChars(Trust(name)[i].1)
  {
    hide IsName;
    FieldNamesAreLegal(Person);
  }

  lemma {:induction false} FilledTreesArePrintable(filled: seq<(string, string)>)
    requires forall i | 0 <= i < |filled| :: IsName(filled[i].0)
    ensures AllPrintable(FilledTrees(filled)) && AllWellNamed(FilledTrees(filled))
    ensures AllLegalText(FilledTrees(filled)) <==> forall i | 0 <= i < |filled| :: AllXmlChars(filled[i].1)
  {
    if filled != [] {
      hide IsName, IsToken, AllXmlChars, PlainAttributes;
      var (name, value) := filled[0];
      assert IsName(name);
      NameIsToken(name);
      TrustIsPlain(name);
      LayoutIsLegal();
      assert forall i | 0 <= i < |filled[1..]| :: filled[1..][i] == filled[i + 1];
      FilledTreesArePrintable(filled[1..]);
      var trees := FilledTrees(filled);
      assert trees[1..] == FilledTrees(filled[1..]);
      var first := trees[0];
      assert first.children == [] && AllPrintable([]) && AllWellNamed([]) && AllLegalText([]);
      assert Printable(first) && WellNamed(first) && (LegalText(first) <==> AllXmlChars(value));
    }
  }

  lemma KindIsPlain(kind: EntityKind)
    ensures AllXmlChars(kind.Name()) && (forall c | c in kind.Name() :: !IsXmlSpace(c))
  {
  }

  /** What the source demands of an identity before XML can carry it. */
  predicate Legal(kind: EntityKind, identity: Identity) {
    var filled := Filled(kind.FieldNames(), identity.fields);
    AllXmlChars(identity.id) && forall i | 0 <= i < |filled| :: AllXmlChars(filled[i].1)
  }

  lemma ContextAttributesArePlain(kind: EntityKind, id: string, hash: string)
    requires ValidEntityId(id) && forall c | c in hash :: !IsXmlSpace(c) && IsXmlChar(c)
    ensures var attributes := ContextAttributes(kind, id) + [("hash", hash)];
            && PlainAttributes(attributes)
            && Attribute(attributes, "hash") == Some(hash)
            && WithoutAttribute(attributes, "hash") == ContextAttributes(kind, id)
            && ((forall i | 0 <= i < |attributes| :: AllXmlChars(attributes[i].1)) <==> AllXmlChars(id))
  {
    hide IsXmlSpace, IsXmlChar, IsName, ValidEntityId;
    FieldNamesAreLegal(kind);
    IdIsPlain(id);
    KindIsPlain(kind);
    var attributes := ContextAttributes(kind, id) + [("hash", hash)];
    assert attributes == [("kind", kind.Name()), ("id", id), ("hash", hash)];
    assert attributes[1..] == [("id", id), ("hash", hash)] && attributes[1..][1..] == [("hash", hash)];
    assert "kind"[0] != "hash"[0] && |"id"| != |"hash"|;
    assert Attribute([("hash", hash)], "hash") == Some(hash) && WithoutAttribute([("hash", hash)], "hash") == [];
    assert Attribute([("id", id), ("hash", hash)], "hash") == Some(hash) &&
           WithoutAttribute([("id", id), ("hash", hash)], "hash") == [("id", id)];
    assert AllXmlChars(hash);
    assert attributes[1].1 == id;
  }

  lemma ContextTreeIsPrintable(kind: EntityKind, identity: Identity, hash: string)
    requires ValidEntityId(identity.id) && forall c | c in hash :: !IsXmlSpace(c) && IsXmlChar(c)
    ensures var t := ContextTree(kind, identity, [("hash", hash)]);
            Printable(t) && WellNamed(t) && (LegalText(t) <==> Legal(kind, identity))
  {
    hide IsName, IsToken, AllXmlChars, PlainAttributes, ContextAttributes, FilledTrees, Filled, AllPrintable,
         AllWellNamed, AllLegalText, ValidEntityId, IsXmlSpace, IsXmlChar;
    FieldNamesAreLegal(kind);
    NameIsToken("dynamic-context");
    LayoutIsLegal();
    ContextAttributesArePlain(kind, identity.id, hash);
    FilledNames(kind.FieldNames(), identity.fields);
    FilledTreesArePrintable(Filled(kind.FieldNames(), identity.fields));
  }

  // ---------------------------------------------------------------- re-rendering

  lemma {:induction false} TreeAttributeIsEncoding(s: string)
    requires forall c | c in s :: c != '\'' && c != '\t' && c != '\n' && c != '\r'
    ensures TreeAttribute(s) == EncodeAttribute(s)
  {
    if s != "" {
      assert s[0] in s && forall c | c in s[1..] :: c in s;
      TreeAttributeIsEncoding(s[1..]);
    }
  }

  lemma {:induction false} TreeAttributesPrint(attributes: seq<(string, string)>)
    requires forall i, c | 0 <= i < |attributes| && c in attributes[i].1 ::
               c != '\'' && c != '\t' && c != '\n' && c != '\r'
    ensures TreeAttributes(attributes) == PrintAttributes(attributes)
  {
    if attributes != [] {
      hide EncodeAttribute, TreeAttribute;
      TreeAttributeIsEncoding(attributes[0].1);
      assert forall i | 0 <= i < |attributes[1..]| :: attributes[1..][i] == attributes[i + 1];
      TreeAttributesPrint(attributes[1..]);
    }
  }

  /** With no empty element and only plain attributes, ElementTree writes what the serializer wrote. */
  lemma {:induction false} FilledToString(filled: seq<(string, string)>)
    requires forall i | 0 <= i < |filled| :: filled[i].1 != ""
    ensures AllToString(NormalizeAll(FilledTrees(filled))) == PrintAll(NormalizeAll(FilledTrees(filled)))
  {
    if filled != [] {
      hide EncodeText, TreeAttributes, PrintAttributes, NormalizeNewlines, ToString, Print, NormalizeElement;
      var (name, value) := filled[0];
      assert forall i | 0 <= i < |filled[1..]| :: filled[1..][i] == filled[i + 1];
      FilledToString(filled[1..]);
      LeafToString(name, value);
      var trees := FilledTrees(filled);
      assert trees[1..] == FilledTrees(filled[1..]);
      assert NormalizeAll(trees)[1..] == NormalizeAll(trees[1..]);
    }
  }

  lemma LeafToString(name: string, value: string)
    requires value != ""
    ensures var leaf := NormalizeElement(Element(name, Trust(name), value, [], "\n"));
            ToString(leaf) == Print(leaf)
  {
    hide EncodeText, TreeAttributes, PrintAttributes, NormalizeNewlines, Trust;
    TrustHasNoSpecials(name);
    TreeAttributesPrint(Trust(name));
    NormalizedNotEmpty(value);
    NoTrees();
  }

  lemma TrustHasNoSpecials(name: string)
    ensures forall i, c | 0 <= i < |Trust(name)| && c in Trust(name)[i].1 ::
              c != '\'' && c != '\t' && c != '\n' && c != '\r'
  {
  }

  lemma NormalizedNotEmpty(s: string)
    requires s != ""
    ensures NormalizeNewlines(s) != ""
  {
  }

  lemma ContextAttributesRewrite(kind: EntityKind, id: string)
    requires ValidEntityId(id)
    ensures TreeAttributes(ContextAttributes(kind, id)) == PrintAttributes(ContextAttributes(kind, id))
  {
    hide ValidEntityId, TreeAttributes, PrintAttributes;
    IdHasNoSpecials(id);
    KindHasNoSpecials(kind);
    TreeAttributesPrint(ContextAttributes(kind, id));
  }

  lemma IdHasNoSpecials(id: string)
    requires ValidEntityId(id)
    ensures forall c | c in id :: c != '\'' && c != '\t' && c != '\n' && c != '\r'
  {
  }

  lemma KindHasNoSpecials(kind: EntityKind)
    ensures forall c | c in kind.Name() :: c != '\'' && c != '\t' && c != '\n' && c != '\r'
  {
  }

  lemma ToStringOfContext(attributes: seq<(string, string)>, text: string, children: seq<Element>)
    requires TreeAttributes(attributes) == PrintAttributes(attributes) && AllToString(children) == PrintAll(children)
    ensures var e := Element("dynamic-context", attributes, text, children, "");
            if text == "" && children == [] then ToString(e) != Print(e) else ToString(e) == Print(e)
  {
    hide TreeAttributes, PrintAttributes, EncodeText, AllToString, PrintAll;
    var e := Element("dynamic-context", attributes, text, children, "");
    ContextPrints(attributes, text, children);
    if text == "" && children == [] {
      assert |ToString(e)| < |Print(e)|;
    }
  }

  /** What the reader hashes: the parsed context without its hash, as ElementTree writes it. */
  function Rerendered(kind: EntityKind, identity: Identity, hash: string): string {
    var root := NormalizeElement(ContextTree(kind, identity, [("hash", hash)]));
    ToString(root.(attributes := ContextAttributes(kind, identity.id)))
  }

  /** What the reader hashes: the canonical text with its line ends normalized, unless there are no fields. */
  lemma RerenderedText(kind: EntityKind, identity: Identity, hash: string)
    requires ValidEntityId(identity.id)
    ensures var again := Rerendered(kind, identity, hash);
            if Filled(kind.FieldNames(), identity.fields) == [] then again != Canonical(kind, identity)
            else again == NormalizeNewlines(Canonical(kind, identity))
  {
    hide ValidEntityId, TreeAttributes, PrintAttributes, Filled, FilledTrees, AllToString, PrintAll,
         NormalizeNewlines, NormalizeAll, Canonical, ContextAttributes, Print, ToString, Printable;
    var filled := Filled(kind.FieldNames(), identity.fields);
    var attributes := ContextAttributes(kind, identity.id);
    var t := ContextTree(kind, identity, []);
    CanonicalPrints(kind, identity);
    ContextAttributesRewrite(kind, identity.id);
    EmptyStrings();
    assert attributes + [] == attributes;
    var n := NormalizeElement(t);
    if filled == [] {
      NoTrees();
    } else {
      NewlineNormalizes();
      FilledNames(kind.FieldNames(), identity.fields);
      FilledToString(filled);
      TreesNotEmpty(filled);
      ContextTreeIsPrintable(kind, identity, "0");
      PrintableWithout(kind, identity);
      NormalizePrinted(t, "");
      assert Print(t) + "" == Print(t) && Print(n) + "" == Print(n);
    }
    ToStringOfContext(attributes, n.text, n.children);
  }

  lemma NoTrees()
    ensures FilledTrees([]) == [] && NormalizeAll([]) == [] && PrintAll([]) == "" == AllToString([])
  {
  }

  lemma NewlineNormalizes()
    ensures NormalizeNewlines("\n") == "\n"
  {
  }

  lemma TreesNotEmpty(filled: seq<(string, string)>)
    requires filled != []
    ensures NormalizeAll(FilledTrees(filled)) != []
  {
  }

  lemma PrintableWithout(kind: EntityKind, identity: Identity)
    requires Printable(ContextTree(kind, identity, [("hash", "0")]))
    ensures Printable(ContextTree(kind, identity, []))
  {
    hide IsName, IsToken, FilledTrees, Filled;
    var attributes := ContextAttributes(kind, identity.id);
    var more := attributes + [("hash", "0")];
    assert attributes + [] == attributes;
    forall i | 0 <= i < |attributes| ensures attributes[i] == more[i] {
    }
  }

  /** A carriage return in the canonical text is one in a field. */
  predicate HasReturn(kind: EntityKind, identity: Identity) {
    var filled := Filled(kind.FieldNames(), identity.fields);
    exists i | 0 <= i < |filled| :: '\r' in filled[i].1
  }

  lemma EncodedReturn(s: string)
    ensures '\r' in EncodeText(s) <==> '\r' in s
  {
    if s != "" {
      EncodedReturn(s[1..]);
      assert s == [s[0]] + s[1..];
    }
  }

  lemma {:induction false} FilledReturn(filled: seq<(string, string)>)
    requires forall i | 0 <= i < |filled| :: IsName(filled[i].0)
    ensures '\r' in PrintAll(FilledTrees(filled)) <==> exists i | 0 <= i < |filled| :: '\r' in filled[i].1
  {
    if filled != [] {
      hide EncodeText, PrintAttributes, IsName, Print;
      var (name, value) := filled[0];
      assert IsName(name);
      assert forall i | 0 <= i < |filled[1..]| :: filled[1..][i] == filled[i + 1];
      FilledReturn(filled[1..]);
      NewlineEncodes();
      LeafReturn(name, value);
      var trees := FilledTrees(filled);
      assert trees[1..] == FilledTrees(filled[1..]);
      var p := Print(trees[0]);
      assert PrintAll(trees) == p + "\n" + PrintAll(trees[1..]);
      if '\r' in PrintAll(trees[1..]) {
        var i :| 0 <= i < |filled[1..]| && '\r' in filled[1..][i].1;
        assert '\r' in filled[i + 1].1;
      }
      if i :| 0 <= i < |filled| && '\r' in filled[i].1 {
        if i > 0 {
          assert '\r' in filled[1..][i - 1].1;
        }
      }
    }
  }

  lemma LeafReturn(name: string, value: string)
    requires IsName(name)
    ensures '\r' in Print(Element(name, Trust(name), value, [], "\n")) <==> '\r' in value
  {
    hide EncodeText, PrintAttributes, IsNameStart;
    TrustIsPlain(name);
    AttributesHaveNoNewline(Trust(name));
    EncodedReturn(value);
    NameCharsAreNotMarkup('\r');
    assert PrintAll([]) == "";
  }

  lemma CanonicalReturn(kind: EntityKind, identity: Identity)
    requires ValidEntityId(identity.id)
    ensures '\r' in Canonical(kind, identity) <==> HasReturn(kind, identity)
  {
    hide ValidEntityId, PrintAttributes, EncodeText, Filled, FilledTrees, PrintAll, Canonical, Print, IsName,
         ContextAttributes, PlainAttributes;
    CanonicalPrints(kind, identity);
    var filled := Filled(kind.FieldNames(), identity.fields);
    var attributes := ContextAttributes(kind, identity.id);
    assert attributes + [] == attributes;
    ContextPrints(attributes, if filled == [] then "" else "\n", FilledTrees(filled));
    NewlineEncodes();
    FilledNames(kind.FieldNames(), identity.fields);
    FieldNamesAreLegal(kind);
    FilledReturn(filled);
    PlainWithoutHash(kind, identity.id);
    AttributesHaveNoNewline(attributes);
    ReturnIn(PrintAttributes(attributes), EncodeText(if filled == [] then "" else "\n"), PrintAll(FilledTrees(filled)));
  }

  lemma ReturnIn(attributes: string, text: string, children: string)
    requires '\r' !in attributes && '\r' !in text
    ensures '\r' in "<dynamic-context" + attributes + ">" + text + children + "</dynamic-context>" <==> '\r' in children
  {
  }

  lemma PlainWithoutHash(kind: EntityKind, id: string)
    requires ValidEntityId(id)
    ensures PlainAttributes(ContextAttributes(kind, id))
  {
    hide ValidEntityId, ContextAttributes;
    ContextAttributesArePlain(kind, id, "");
    var attributes := ContextAttributes(kind, id);
    var more := attributes + [("hash", "")];
    forall i | 0 <= i < |attributes| ensures attributes[i] == more[i] {
    }
  }

  // ---------------------------------------------------------------- what an introduction says

  function EntityWord(kind: EntityKind): string {
    match kind
    case Person => "person"
    case Channel => "channel"
    case SystemEntity => "system"
  }

  /** The fields that are made known of an entity, in order. */
  function KnownFields(kind: EntityKind): seq<string> {
    match kind
    case Person => ["display_name", "handle", "platform", "github_login", "email", "timezone", "open_swe_account"]
    case Channel => ["platform", "name", "thread_id", "topic", "purpose"]
    case SystemEntity => ["display_name", "platform", "sender_type"]
  }

  /** The identity has something to say in that field. */
  predicate Has(fields: map<string, string>, name: string) {
    name in fields && fields[name] != ""
  }

  /** Where the filled fields stand among those from `start` on: in order, each once, and none left out. */
  ghost predicate AreFilled(filled: seq<(string, string)>, at: seq<nat>, names: seq<string>,
                            fields: map<string, string>, start: nat) {
    |at| == |filled| &&
    (forall k | 0 <= k < |at| :: start <= at[k] < |names| && Has(fields, names[at[k]]) &&
                                 filled[k] == (names[at[k]], fields[names[at[k]]])) &&
    (forall k, l | 0 <= k < l < |at| :: at[k] < at[l]) &&
    forall p: nat | start <= p < |names| && Has(fields, names[p]) :: p in at
  }

  lemma {:induction false} FilledMeans(names: seq<string>, fields: map<string, string>, start: nat)
    returns (at: seq<nat>)
    requires start <= |names|
    ensures AreFilled(Filled(names[start..], fields), at, names, fields, start)
    decreases |names| - start
  {
    hide AreFilled, Has;
    if start == |names| {
      at := [];
      NoneFilled(names, fields);
    } else {
      var later := FilledMeans(names, fields, start + 1);
      var rest := Filled(names[start + 1..], fields);
      FilledFirst(names, fields, start);
      if Has(fields, names[start]) {
        at := [start] + later;
        OneMoreFilled(rest, later, names, fields, start);
      } else {
        at := later;
        OneLessFilled(rest, later, names, fields, start);
      }
    }
  }

  lemma NoneFilled(names: seq<string>, fields: map<string, string>)
    ensures AreFilled(Filled(names[|names|..], fields), [], names, fields, |names|)
  {
  }

  lemma FilledFirst(names: seq<string>, fields: map<string, string>, start: nat)
    requires start < |names|
    ensures Has(fields, names[start]) ==> names[start] in fields
    ensures Has(fields, names[start]) ==>
              Filled(names[start..], fields) ==
              [(names[start], fields[names[start]])] + Filled(names[start + 1..], fields)
    ensures !Has(fields, names[start]) ==> Filled(names[start..], fields) == Filled(names[start + 1..], fields)
  {
    assert names[start..][1..] == names[start + 1..];
  }

  lemma OneLessFilled(rest: seq<(string, string)>, later: seq<nat>, names: seq<string>, fields: map<string, string>,
                      start: nat)
    requires start < |names| && AreFilled(rest, later, names, fields, start + 1) && !Has(fields, names[start])
    ensures AreFilled(rest, later, names, fields, start)
  {
  }

  lemma OneMoreFilled(rest: seq<(string, string)>, later: seq<nat>, names: seq<string>, fields: map<string, string>,
                      start: nat)
    requires start < |names| && AreFilled(rest, later, names, fields, start + 1) && Has(fields, names[start])
    ensures names[start] in fields &&
            AreFilled([(names[start], fields[names[start]])] + rest, [start] + later, names, fields, start)
  {
    var at, filled := [start] + later, [(names[start], fields[names[start]])] + rest;
    assert forall k | 0 < k < |at| :: at[k] == later[k - 1] && filled[k] == rest[k - 1];
  }

  lemma {:induction false} FilledAreRead(filled: seq<(string, string)>)
    ensures var read := NormalizeAll(FilledTrees(filled));
            |read| == |filled| && forall k | 0 <= k < |read| ::
              read[k] == Element(filled[k].0, Trust(filled[k].0), NormalizeNewlines(filled[k].1), [], "\n")
  {
    if filled != [] {
      hide NormalizeNewlines, Trust;
      FilledAreRead(filled[1..]);
      FirstFilledIsRead(filled);
      var read, others := NormalizeAll(FilledTrees(filled)), NormalizeAll(FilledTrees(filled[1..]));
      assert forall k | 0 < k < |read| :: read[k] == others[k - 1] && filled[k] == filled[1..][k - 1];
    }
  }

  lemma FirstFilledIsRead(filled: seq<(string, string)>)
    requires filled != []
    ensures NormalizeAll(FilledTrees(filled)) ==
            [Element(filled[0].0, Trust(filled[0].0), NormalizeNewlines(filled[0].1), [], "\n")] +
            NormalizeAll(FilledTrees(filled[1..]))
  {
    NoTrees();
    NewlineNormalizes();
    var trees := FilledTrees(filled);
    assert trees[1..] == FilledTrees(filled[1..]);
  }

  lemma KindsAre(kind: EntityKind)
    ensures kind.Name() == EntityWord(kind) && kind.FieldNames() == KnownFields(kind)
  {
  }

  /**
   * An introduction that is read back: the kind of entity by name, its id and the hash of the text without it; then
   * each of the kind's known fields that the identity has, in order, with its line-normalized value. A channel's topic
   * and purpose are marked as untrusted, and nothing else is.
   */
  lemma IntroductionReadsBack(kind: EntityKind, identity: Identity, sha: Digest) returns (at: seq<nat>)
    requires ValidEntityId(identity.id) && IsDigest(sha) && Legal(kind, identity)
    ensures EntityMessage(kind, identity, sha).Some?
    ensures var read := ReadDocument(EntityMessage(kind, identity, sha).value);
            read.Some? && read.value.tag == "dynamic-context" &&
            read.value.attributes ==
            [("kind", EntityWord(kind)), ("id", identity.id), ("hash", sha(Canonical(kind, identity)))] &&
            |at| == |read.value.children| &&
            (forall k | 0 <= k < |at| ::
              at[k] < |KnownFields(kind)| && Has(identity.fields, KnownFields(kind)[at[k]]) &&
              var name := KnownFields(kind)[at[k]];
              read.value.children[k] ==
              Element(name, if name == "topic" || name == "purpose" then [("trust", "untrusted")] else [],
                      NormalizeNewlines(identity.fields[name]), [], "\n")) &&
            (forall k, l | 0 <= k < l < |at| :: at[k] < at[l]) &&
            forall p: nat | p < |KnownFields(kind)| && Has(identity.fields, KnownFields(kind)[p]) :: p in at
  {
    hide Filled, FilledTrees, NormalizeAll, NormalizeNewlines, Canonical, Print, PrintAll, ReadDocument, Printable,
         WellNamed,
         LegalText, Legal, ValidEntityId, KnownFields, EntityWord, Has, EntityMessage, IsDigest, ContextTree,
           IsXmlSpace, IsXmlChar,
         NormalizeElement;
    var hash := sha(Canonical(kind, identity));
    var filled := Filled(kind.FieldNames(), identity.fields);
    KindsAre(kind);
    MessagePrints(kind, identity, sha);
    DigestIsPlain(sha, Canonical(kind, identity));
    ContextTreeIsPrintable(kind, identity, hash);
    ReadPrintedDocument(ContextTree(kind, identity, [("hash", hash)]));
    ContextIsRead(kind, identity, hash);
    FilledAreRead(filled);
    at := FilledMeans(kind.FieldNames(), identity.fields, 0);
    assert kind.FieldNames()[0..] == kind.FieldNames();
  }

  lemma ContextIsRead(kind: EntityKind, identity: Identity, hash: string)
    ensures var read := NormalizeElement(ContextTree(kind, identity, [("hash", hash)])).(tail := "");
            read.tag == "dynamic-context" &&
            read.attributes == [("kind", kind.Name()), ("id", identity.id), ("hash", hash)] &&
            read.children == NormalizeAll(FilledTrees(Filled(kind.FieldNames(), identity.fields)))
  {
    hide NormalizeNewlines, Filled, FilledTrees, NormalizeAll;
  }

  // ---------------------------------------------------------------- the hash verifies itself

  /** The digest does not take the text that was hashed and a different text that is read back for one another. */
  predicate TellsApart(kind: EntityKind, identity: Identity, sha: Digest) {
    var canonical := Canonical(kind, identity);
    var again := Rerendered(kind, identity, sha(canonical));
    sha(again) == sha(canonical) ==> again == canonical
  }

  /**
   * An introduction's embedded hash is confirmed by reading it back exactly when the identity has at least
   * one non-empty field, no field contains a carriage return, and every character is one XML allows.
   * Otherwise the message has no hash at all, so it is never introduced.
   */
  lemma SelfVerifying(kind: EntityKind, identity: Identity, sha: Digest)
    requires ValidEntityId(identity.id) && IsDigest(sha) && TellsApart(kind, identity, sha)
    ensures EntityMessage(kind, identity, sha).Some?
    ensures ContextHashOf(EntityMessage(kind, identity, sha).value, sha) ==
            if Legal(kind, identity) && Filled(kind.FieldNames(), identity.fields) != [] && !HasReturn(kind, identity)
            then Some(sha(Canonical(kind, identity))) else None
  {
    hide ValidEntityId, Canonical, Print, ReadDocument, HasReturn, Legal, Filled, ToString, NormalizeNewlines,
         LegalText, Printable, WellNamed, EntityMessage, Attribute, WithoutAttribute, ContextAttributes, FilledTrees,
         NormalizeAll;
    var canonical := Canonical(kind, identity);
    var hash := sha(canonical);
    MessagePrints(kind, identity, sha);
    DigestIsPlain(sha, canonical);
    ContextTreeIsPrintable(kind, identity, hash);
    var t := ContextTree(kind, identity, [("hash", hash)]);
    ContextMentioned(t);
    ReadPrintedDocument(t);
    if Legal(kind, identity) {
      EmptyStrings();
      ContextAttributesArePlain(kind, identity.id, hash);
      RerenderedText(kind, identity, hash);
      CanonicalReturn(kind, identity);
      NormalizedHasNoReturn(canonical);
    }
  }

  lemma ContextMentioned(t: Element)
    requires t.tag == "dynamic-context"
    ensures Contains(Print(t), "<dynamic-context")
  {
    hide PrintAttributes, PrintAll, EncodeText;
    assert Print(t)[0..16] == "<dynamic-context";
    OccurrenceIsContained(Print(t), "<dynamic-context", 0);
  }

  /** The filled fields are the known ones that the identity has, with their values. */
  lemma FilledIs(kind: EntityKind, identity: Identity, filled: seq<(string, string)>)
    requires filled == Filled(kind.FieldNames(), identity.fields)
    ensures (forall k | 0 <= k < |filled| ::
              filled[k].0 in KnownFields(kind) && Has(identity.fields, filled[k].0) &&
              filled[k].1 == identity.fields[filled[k].0]) &&
            forall name | name in KnownFields(kind) && Has(identity.fields, name) ::
              (name, identity.fields[name]) in filled
  {
    hide KnownFields, Filled;
    KindsAre(kind);
    var names := KnownFields(kind);
    var at := FilledMeans(names, identity.fields, 0);
    assert names[0..] == names;
    forall name | name in names && Has(identity.fields, name) ensures (name, identity.fields[name]) in filled {
      var p :| 0 <= p < |names| && names[p] == name;
      var k :| 0 <= k < |at| && at[k] == p;
      assert filled[k] == (name, identity.fields[name]);
    }
  }

  /** The condition under which a hash is confirmed, by the identity's fields. */
  lemma ConditionsMean(kind: EntityKind, identity: Identity)
    ensures Filled(kind.FieldNames(), identity.fields) != [] <==>
            exists name :: name in KnownFields(kind) && Has(identity.fields, name)
    ensures HasReturn(kind, identity) <==>
            exists name :: name in KnownFields(kind) && Has(identity.fields, name) && '\r' in identity.fields[name]
    ensures Legal(kind, identity) <==>
            AllXmlChars(identity.id) &&
            forall name | name in KnownFields(kind) && Has(identity.fields, name) :: AllXmlChars(identity.fields[name])
  {
    hide KnownFields, Filled, AllXmlChars;
    var filled := Filled(kind.FieldNames(), identity.fields);
    FilledIs(kind, identity, filled);
    if filled != [] {
      assert Has(identity.fields, filled[0].0);
    }
    if k :| 0 <= k < |filled| && '\r' in filled[k].1 {
      assert Has(identity.fields, filled[k].0);
    }
  }

  // ---------------------------------------------------------------- identities whose hash is not confirmed

  lemma {:induction false} EmptyFieldsDoNotCount(names: seq<string>, fields: map<string, string>)
    requires forall name | name in names :: name !in fields || fields[name] == ""
    ensures Filled(names, fields) == []
  {
    if names != [] {
      assert names[0] in names && forall name | name in names[1..] :: name in names;
      EmptyFieldsDoNotCount(names[1..], fields);
    }
  }

  /** An introduction without any field has a hash that its reader does not confirm. */
  lemma NoFieldsNoHash(sha: Digest)
    requires IsDigest(sha) && TellsApart(Person, Identity("u:ann", map[]), sha)
    ensures var message := EntityMessage(Person, Identity("u:ann", map[]), sha);
            message.Some? && ContextHashOf(message.value, sha) == None
  {
    hide *;
    AnnIsValid();
    EmptyFieldsDoNotCount(Person.FieldNames(), map[]);
    SelfVerifying(Person, Identity("u:ann", map[]), sha);
  }

  lemma ReturnInTheFirstField(kind: EntityKind, identity: Identity, name: string, value: string)
    requires kind.FieldNames()[0] == name && name in identity.fields && identity.fields[name] == value && '\r' in value
    ensures HasReturn(kind, identity)
  {
    var filled := Filled(kind.FieldNames(), identity.fields);
    assert filled[0] == (name, value);
  }

  const RETURNING := Identity("u:ann", map["display_name" := "a\rb"])

  lemma ReturningReturns()
    ensures HasReturn(Person, RETURNING) && RETURNING.id == "u:ann"
  {
    assert "a\rb"[1] == '\r';
    hide HasReturn, Filled;
    ReturnInTheFirstField(Person, RETURNING, "display_name", "a\rb");
  }

  /** Neither has one with a carriage return in a field. */
  lemma ReturnInAFieldNoHash(sha: Digest)
    requires IsDigest(sha) && TellsApart(Person, RETURNING, sha)
    ensures var message := EntityMessage(Person, RETURNING, sha);
            message.Some? && ContextHashOf(message.value, sha) == None
  {
    hide *;
    AnnIsValid();
    ReturningReturns();
    SelfVerifying(Person, RETURNING, sha);
  }
}
