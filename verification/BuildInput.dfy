/**
 * Assembling the messages of a run: which introductions are sent, data appended later, and the system prompt's wrapper.
 */
module BuildInput {
  import opened Common
  import opened Xml
  import opened InputMessages
  import opened DynamicContext

  // ---------------------------------------------------------------- content blocks

  /** A block of a message; `kind` is its `type` and `rest` its other keys. */
  datatype Block = Block(kind: string, text: Option<string>, rest: map<string, string>) {
    predicate IsText() {
      kind == "text" && text.Some?
    }
  }

  datatype Content = Text(text: string) | Blocks(blocks: seq<Block>)

  datatype Message = Introduction(text: string) | Input(content: Content)

  function StructuredBlocks(blocks: seq<Block>, context: Context): Option<seq<Block>> {
    if blocks == [] then Some([]) else
    match StructuredBlocks(blocks[1..], context)
    case None => None
    case Some(others) =>
      if !blocks[0].IsText() then Some([blocks[0]] + others) else
      match SerializeMessage(blocks[0].text.value, context)
      case None => None
      case Some(serialized) => Some([blocks[0].(text := Some(serialized))] + others)
  }

  function StructuredContent(content: Content, context: Context): Option<Content> {
    match content
    case Text(text) =>
      (match SerializeMessage(text, context)
       case Some(serialized) => Some(Text(serialized))
       case None => None)
    case Blocks(blocks) =>
      match StructuredBlocks(blocks, context)
      case Some(structured) => Some(Blocks(structured))
      case None => None
  }

  /**
   * A text becomes an envelope around it; of blocks, every text block does and every other one stays as it is. It fails
   * exactly when there is a text and the context has an invalid id or name.
   */
  lemma {:induction false} BlocksAreStructured(blocks: seq<Block>, context: Context)
    ensures StructuredContent(Blocks(blocks), context).None? <==>
            (exists i | 0 <= i < |blocks| :: blocks[i].kind == "text" && blocks[i].text.Some?) &&
            !IsValidContext(context)
    ensures StructuredContent(Blocks(blocks), context).Some? ==>
              var structured := StructuredContent(Blocks(blocks), context).value;
              structured.Blocks? && |structured.blocks| == |blocks| && forall i | 0 <= i < |blocks| ::
                structured.blocks[i] == if blocks[i].kind == "text" && blocks[i].text.Some?
                                        then blocks[i].(text := SerializeMessage(blocks[i].text.value, context))
                                        else blocks[i]
  {
    hide SerializeMessage, IsValidContext;
    if blocks != [] {
      BlocksAreStructured(blocks[1..], context);
      assert forall i | 0 <= i < |blocks[1..]| :: blocks[1..][i] == blocks[i + 1];
      if blocks[0].IsText() {
        ContextsSerialize(blocks[0].text.value, context);
      }
      var structured, others := StructuredContent(Blocks(blocks), context),
        StructuredContent(Blocks(blocks[1..]), context);
      if structured.Some? {
        assert forall i | 0 < i < |blocks| :: structured.value.blocks[i] == others.value.blocks[i - 1];
      }
    }
  }

  predicate IsValidContext(context: Context) {
    ValidIds(context) && AllValidNames(context.data)
  }

  lemma ContextsSerialize(text: string, context: Context)
    ensures SerializeMessage(text, context).Some? <==> IsValidContext(context)
    ensures StructuredContent(Text(text), context) ==
            if IsValidContext(context) then Some(Text(SerializeMessage(text, context).value)) else None
  {
    hide SerializeMessage, ValidIds, AllValidNames;
    SerializePrints(text, context);
  }

  /** The block can take the element: it is text and holds an envelope. */
  predicate Spliceable(block: Block, element: string) {
    block.IsText() && SpliceEnvelopeData(block.text.value, element).Some?
  }

  /**
   * Append one data field to the last envelope of the content; `None` for a `ValueError`, `Some(None)` when there is no
   * envelope.
   */
  method AppendMessageData(content: Content, name: string, value: Value) returns (r: Option<Option<Content>>)
    ensures r.None? <==> !ValidNames(name, value)
    ensures r.Some? && content.Text? ==>
              var spliced := SpliceEnvelopeData(content.text, Print(DataTree(name, value)));
              r.value == if spliced.Some? then Some(Text(spliced.value)) else None
    ensures r.Some? && content.Blocks? && r.value.None? ==>
              forall i | 0 <= i < |content.blocks| :: !Spliceable(content.blocks[i], Print(DataTree(name, value)))
    ensures r.Some? && content.Blocks? && r.value.Some? ==>
              exists i | 0 <= i < |content.blocks| ::
                var element := Print(DataTree(name, value));
                && Spliceable(content.blocks[i], element)
                && (forall j | i < j < |content.blocks| :: !Spliceable(content.blocks[j], element))
                && var spliced := SpliceEnvelopeData(content.blocks[i].text.value, element);
                   r.value == Some(Blocks(content.blocks[i := content.blocks[i].(text := spliced)]))
  {
    hide DataElement, SpliceEnvelopeData, Print, DataTree, ValidNames;
    DataElementPrints(name, value);
    var element := DataElement(name, value);
    if element.None? {
      return None;
    }
    if content.Text? {
      var spliced := SpliceEnvelopeData(content.text, element.value);
      return Some(if spliced.Some? then Some(Text(spliced.value)) else None);
    }
    var index := |content.blocks| - 1;
    while index >= 0
      invariant -1 <= index < |content.blocks|
      invariant forall j | index < j < |content.blocks| :: !Spliceable(content.blocks[j], element.value)
    {
      var block := content.blocks[index];
      if block.IsText() {
        var spliced := SpliceEnvelopeData(block.text.value, element.value);
        if spliced.Some? {
          return Some(Some(Blocks(content.blocks[index := block.(text := spliced)])));
        }
      }
      index := index - 1;
    }
    return Some(None);
  }

  // ---------------------------------------------------------------- introductions

  datatype Introductions = Introductions(raised: bool, messages: seq<string>, injected: set<string>)

  /** Introduce the identities in order, skipping those without a verified hash or whose hash is already injected. */
  function Introduce(identities: seq<(EntityKind, Identity)>, injected: set<string>, sha: Digest): Introductions {
    if identities == [] then Introductions(false, [], injected) else
    match EntityMessage(identities[0].0, identities[0].1, sha)
    case None => Introductions(true, [], injected)
    case Some(message) =>
      match DynamicContextHash([message], sha)
      case None => Introduce(identities[1..], injected, sha)
      case Some(hash) =>
        if hash in injected then Introduce(identities[1..], injected, sha) else
        var others := Introduce(identities[1..], injected + {hash}, sha);
        others.(messages := [message] + others.messages)
  }

  /** The hash the reader finds in an introduction. */
  function HashOf(message: string, sha: Digest): Option<string> {
    DynamicContextHash([message], sha)
  }

  /**
   * Nothing is introduced twice, nothing already injected is introduced, and exactly what is introduced is recorded.
   */
  lemma {:induction false} EachContextIsIntroducedOnce(identities: seq<(EntityKind, Identity)>, injected: set<string>,
                                                       sha: Digest)
    ensures var r := Introduce(identities, injected, sha);
            && (forall i | 0 <= i < |r.messages| ::
                  HashOf(r.messages[i], sha).Some? && HashOf(r.messages[i], sha).value !in injected)
            && (forall i, j | 0 <= i < j < |r.messages| :: HashOf(r.messages[i], sha) != HashOf(r.messages[j], sha))
            && (forall h :: h in r.injected <==>
                  h in injected || exists i | 0 <= i < |r.messages| :: HashOf(r.messages[i], sha) == Some(h))
  {
    hide EntityMessage, DynamicContextHash;
    if identities != [] && EntityMessage(identities[0].0, identities[0].1, sha).Some? {
      var message := EntityMessage(identities[0].0, identities[0].1, sha).value;
      var hash := DynamicContextHash([message], sha);
      if hash.None? || hash.value in injected {
        EachContextIsIntroducedOnce(identities[1..], injected, sha);
      } else {
        EachContextIsIntroducedOnce(identities[1..], injected + {hash.value}, sha);
        var others := Introduce(identities[1..], injected + {hash.value}, sha);
        var all := [message] + others.messages;
        assert HashOf(all[0], sha) == hash;
        assert forall i | 0 < i < |all| :: all[i] == others.messages[i - 1];
        forall h ensures h in others.injected <==>
            h in injected || exists i | 0 <= i < |all| :: HashOf(all[i], sha) == Some(h) {
          if i :| 0 <= i < |others.messages| && HashOf(others.messages[i], sha) == Some(h) {
            assert HashOf(all[i + 1], sha) == Some(h);
          }
        }
      }
    }
  }

  predicate AllIdsValid(identities: seq<(EntityKind, Identity)>) {
    forall i | 0 <= i < |identities| :: ValidEntityId(identities[i].1.id)
  }

  lemma MessagesNeedIds(kind: EntityKind, identity: Identity, sha: Digest)
    ensures EntityMessage(kind, identity, sha).Some? <==> ValidEntityId(identity.id)
  {
    hide Canonical, ValidEntityId;
  }

  /** Introducing raises exactly when some identity's id is invalid. */
  lemma {:induction false} InvalidIdsRaise(identities: seq<(EntityKind, Identity)>, injected: set<string>, sha: Digest)
    ensures Introduce(identities, injected, sha).raised <==> !AllIdsValid(identities)
  {
    hide EntityMessage, DynamicContextHash, ValidEntityId;
    if identities != [] {
      MessagesNeedIds(identities[0].0, identities[0].1, sha);
      assert forall i | 0 <= i < |identities[1..]| :: identities[1..][i] == identities[i + 1];
      if ValidEntityId(identities[0].1.id) {
        var hash := DynamicContextHash([EntityMessage(identities[0].0, identities[0].1, sha).value], sha);
        InvalidIdsRaise(identities[1..], if hash.None? || hash.value in injected then injected
          else injected + {hash.value}, sha);
      }
    }
  }

  /** Every identity that could be verified is known afterwards. */
  lemma {:induction false} VerifiedContextsAreRecorded(identities: seq<(EntityKind, Identity)>, injected: set<string>,
                                                       sha: Digest, k: int)
    requires 0 <= k < |identities| && AllIdsValid(identities)
    ensures EntityMessage(identities[k].0, identities[k].1, sha).Some?
    ensures var hash := HashOf(EntityMessage(identities[k].0, identities[k].1, sha).value, sha);
            hash.Some? ==> hash.value in Introduce(identities, injected, sha).injected
    ensures injected <= Introduce(identities, injected, sha).injected
  {
    hide EntityMessage, DynamicContextHash, ValidEntityId;
    MessagesNeedIds(identities[0].0, identities[0].1, sha);
    EachContextIsIntroducedOnce(identities, injected, sha);
    var message := EntityMessage(identities[0].0, identities[0].1, sha).value;
    var hash := DynamicContextHash([message], sha);
    var next := if hash.None? || hash.value in injected then injected else injected + {hash.value};
    if k == 0 {
      EachContextIsIntroducedOnce(identities[1..], next, sha);
    } else {
      VerifiedContextsAreRecorded(identities[1..], next, sha, k - 1);
    }
  }

  /** A second call with the set the first one left introduces nothing and changes nothing. */
  lemma SecondCallIntroducesNothing(identities: seq<(EntityKind, Identity)>, injected: set<string>, sha: Digest)
    requires AllIdsValid(identities)
    ensures var known := Introduce(identities, injected, sha).injected;
            Introduce(identities, known, sha) == Introductions(false, [], known)
  {
    hide EntityMessage, DynamicContextHash, Introduce, ValidEntityId;
    var known := Introduce(identities, injected, sha).injected;
    forall k | 0 <= k < |identities|
      ensures EntityMessage(identities[k].0, identities[k].1, sha).Some?
      ensures var hash := HashOf(EntityMessage(identities[k].0, identities[k].1, sha).value, sha);
              hash.Some? ==> hash.value in known
    {
      VerifiedContextsAreRecorded(identities, injected, sha, k);
    }
    AllKnown(identities, known, sha);
  }

  lemma {:induction false} AllKnown(identities: seq<(EntityKind, Identity)>, known: set<string>, sha: Digest)
    requires forall k | 0 <= k < |identities| ::
               EntityMessage(identities[k].0, identities[k].1, sha).Some? &&
               var hash := HashOf(EntityMessage(identities[k].0, identities[k].1, sha).value, sha);
               hash.Some? ==> hash.value in known
    ensures Introduce(identities, known, sha) == Introductions(false, [], known)
  {
    hide EntityMessage, DynamicContextHash;
    if identities != [] {
      assert forall k | 0 <= k < |identities[1..]| :: identities[1..][k] == identities[k + 1];
      AllKnown(identities[1..], known, sha);
    }
  }

  /** The caller's set of hashes, which building messages adds to. */
  class InjectedHashes {
    var hashes: set<string>

    constructor (hashes: set<string>)
      ensures this.hashes == hashes
    {
      this.hashes := hashes;
    }
  }

  function AsMessages(texts: seq<string>): (messages: seq<Message>)
    ensures |messages| == |texts| && forall i | 0 <= i < |texts| :: messages[i] == Introduction(texts[i])
  {
    seq(|texts|, i requires 0 <= i < |texts| => Introduction(texts[i]))
  }

  /** What the identities from `i` on add to the messages before them, one identity further. */
  lemma IntroduceNext(identities: seq<(EntityKind, Identity)>, i: nat, injected: set<string>, texts: seq<string>,
                      sha: Digest)
    requires i < |identities|
    ensures var later := Introduce(identities[i..], injected, sha);
            var message := EntityMessage(identities[i].0, identities[i].1, sha);
            if message.None? then later == Introductions(true, [], injected)
            else
              var hash := DynamicContextHash([message.value], sha);
              if hash.None? || hash.value in injected then later == Introduce(identities[i + 1..], injected, sha)
              else
                var rest := Introduce(identities[i + 1..], injected + {hash.value}, sha);
                later.raised == rest.raised && later.injected == rest.injected &&
                texts + later.messages == texts + [message.value] + rest.messages
  {
    hide EntityMessage, DynamicContextHash;
    assert identities[i..][0] == identities[i] && identities[i..][1..] == identities[i + 1..];
  }

  lemma NothingToIntroduce(identities: seq<(EntityKind, Identity)>, injected: set<string>, texts: seq<string>,
                           sha: Digest)
    ensures Introduce(identities[|identities|..], injected, sha) == Introductions(false, [], injected) &&
            texts + [] == texts
  {
  }

  /** The messages of a run, or `None` for a `ValueError`; the introductions made before one stay recorded. */
  method BuildInputMessages(content: Content, context: Context, identities: seq<(EntityKind, Identity)>,
                            injected: InjectedHashes, sha: Digest) returns (r: Option<seq<Message>>)
    modifies injected
    ensures injected.hashes == Introduce(identities, old(injected.hashes), sha).injected
    ensures var introductions := Introduce(identities, old(injected.hashes), sha);
            var input := StructuredContent(content, context);
            if introductions.raised || input.None? then r.None?
            else r == Some(AsMessages(introductions.messages) + [Input(input.value)])
  {
    hide EntityMessage, DynamicContextHash, StructuredContent, Introduce;
    var messages: seq<Message> := [];
    ghost var texts: seq<string> := [];
    ghost var all := Introduce(identities, injected.hashes, sha);
    assert identities[0..] == identities && [] + all.messages == all.messages;
    for i := 0 to |identities|
      invariant messages == AsMessages(texts)
      invariant var later := Introduce(identities[i..], injected.hashes, sha);
                all == Introductions(later.raised, texts + later.messages, later.injected)
    {
      IntroduceNext(identities, i, injected.hashes, texts, sha);
      var message := EntityMessage(identities[i].0, identities[i].1, sha);
      if message.None? {
        return None;
      }
      var hash := DynamicContextHash([message.value], sha);
      if hash.Some? && hash.value !in injected.hashes {
        messages := messages + [Introduction(message.value)];
        injected.hashes := injected.hashes + {hash.value};
        texts := texts + [message.value];
      }
    }
    NothingToIntroduce(identities, injected.hashes, texts, sha);
    var input := StructuredContent(content, context);
    if input.None? {
      return None;
    }
    return Some(messages + [Input(input.value)]);
  }

  // ---------------------------------------------------------------- filtering a batch

  /** The hash that decides whether the message is a repeat; other messages have none. */
  function ContextHash(message: Content, sha: Digest): Option<string> {
    if message.Text? && Contains(message.text, "<dynamic-context") then DynamicContextHash([message.text], sha)
    else None
  }

  predicate IsRepeat(message: Content, injected: set<string>, sha: Digest) {
    ContextHash(message, sha).Some? && ContextHash(message, sha).value in injected
  }

  function WithoutRepeats(messages: seq<Content>, injected: set<string>, sha: Digest): seq<Content> {
    if messages == [] then [] else
    var front := WithoutRepeats(messages[..|messages| - 1], injected, sha);
    if IsRepeat(messages[|messages| - 1], injected, sha) then front else front + [messages[|messages| - 1]]
  }

  /** The message is a context whose verified hash was injected before. */
  predicate WasInjected(message: Content, injected: set<string>, sha: Digest) {
    message.Text? && Contains(message.text, "<dynamic-context") && DynamicContextHash([message.text], sha).Some? &&
    DynamicContextHash([message.text], sha).value in injected
  }

  lemma RepeatsWereInjected(message: Content, injected: set<string>, sha: Digest)
    ensures IsRepeat(message, injected, sha) <==> WasInjected(message, injected, sha)
  {
    hide DynamicContextHash, Contains;
  }

  /** What is kept, and where it stood: every message but the contexts whose verified hash was injected before. */
  lemma {:induction false} FilteredAre(messages: seq<Content>, injected: set<string>, sha: Digest)
    returns (at: seq<nat>)
    ensures |at| == |WithoutRepeats(messages, injected, sha)|
    ensures forall k | 0 <= k < |at| ::
              at[k] < |messages| && WithoutRepeats(messages, injected, sha)[k] == messages[at[k]]
    ensures forall k, l | 0 <= k < l < |at| :: at[k] < at[l]
    ensures forall p: nat | p < |messages| :: p in at <==> !WasInjected(messages[p], injected, sha)
  {
    hide IsRepeat, WasInjected;
    at := [];
    if messages != [] {
      var n := |messages| - 1;
      at := FilteredAre(messages[..n], injected, sha);
      RepeatsWereInjected(messages[n], injected, sha);
      assert forall p: nat | p < n :: messages[..n][p] == messages[p];
      if !IsRepeat(messages[n], injected, sha) {
        OneMoreKept(at, n);
        at := at + [n];
      } else {
        OneMoreKept(at, n);
      }
    }
  }

  lemma OneMoreKept(at: seq<nat>, n: nat)
    requires forall k | 0 <= k < |at| :: at[k] < n
    ensures n !in at && forall p: nat | p < n :: p in at + [n] <==> p in at
  {
  }

  method FilterNewDynamicContexts(messages: seq<Content>, injected: set<string>, sha: Digest)
    returns (filtered: seq<Content>, newlyInjected: set<string>)
    ensures filtered == WithoutRepeats(messages, injected, sha)
    ensures forall h :: h in newlyInjected <==>
            exists i | 0 <= i < |filtered| :: ContextHash(filtered[i], sha) == Some(h)
  {
    hide DynamicContextHash;
    filtered, newlyInjected := [], {};
    for i := 0 to |messages|
      invariant filtered == WithoutRepeats(messages[..i], injected, sha)
      invariant forall h :: h in newlyInjected <==>
                exists k | 0 <= k < |filtered| :: ContextHash(filtered[k], sha) == Some(h)
    {
      assert messages[..i + 1][..i] == messages[..i];
      var hash := ContextHash(messages[i], sha);
      ghost var before := filtered;
      if hash.None? {
        filtered := filtered + [messages[i]];
      } else if hash.value !in injected {
        filtered := filtered + [messages[i]];
        newlyInjected := newlyInjected + {hash.value};
      }
      forall h ensures h in newlyInjected <==>
          exists k | 0 <= k < |filtered| :: ContextHash(filtered[k], sha) == Some(h) {
        if k :| 0 <= k < |before| && ContextHash(before[k], sha) == Some(h) {
          assert ContextHash(filtered[k], sha) == Some(h);
        }
        if |filtered| > |before| && hash == Some(h) {
          assert ContextHash(filtered[|before|], sha) == Some(h);
        }
      }
    }
    assert messages[..|messages|] == messages;
  }

  // ---------------------------------------------------------------- the system prompt's wrapper

  const WRAPPER_OPEN := "<system-instructions format=\"open-swe-v1\">"
  const WRAPPER_CLOSE := "</system-instructions>"
  const AUTOMATION := Context("system:open-swe", None, Automation, MessageKind.System, [])
  const OPEN_SWE := Identity("system:open-swe", map["display_name" := "Open SWE", "platform" := "open-swe"])

  function Serialized(additions: seq<string>): seq<string> {
    if additions == [] then [] else [SerializeMessage(additions[0], AUTOMATION).GetOr("")] + Serialized(additions[1..])
  }

  function Missing(items: seq<string>, text: string): seq<string> {
    if items == [] then []
    else (if Contains(text, items[0]) then [] else [items[0]]) + Missing(items[1..], text)
  }

  predicate IsWrapped(text: string) {
    WRAPPER_OPEN <= text && |WRAPPER_CLOSE| <= |text| && text[|text| - |WRAPPER_CLOSE|..] == WRAPPER_CLOSE
  }

  function WrapSystemPrompt(text: string, additions: seq<string>, sha: Digest): string {
    if IsWrapped(text) then
      if additions == [] then text else
      var extra := Join("\n", Missing(Serialized(additions), text));
      if extra == "" then text else text[..|text| - |WRAPPER_CLOSE|] + extra + "\n" + WRAPPER_CLOSE
    else
      Join("\n", [WRAPPER_OPEN, EntityMessage(SystemEntity, OPEN_SWE, sha).GetOr(""),
        SerializeMessage(text, AUTOMATION).GetOr("")] +
                 Serialized(additions) + [WRAPPER_CLOSE])
  }

  lemma ContainsInside(before: string, item: string, after: string)
    ensures Contains(before + item + after, item)
  {
    var s := before + item + after;
    assert s[|before|..|before| + |item|] == item;
    OccurrenceIsContained(s, item, |before|);
  }

  lemma ContainsMore(s: string, item: string, before: string, after: string)
    requires Contains(s, item)
    ensures Contains(before + s + after, item)
  {
    hide Find;
    var i := Find(s, item);
    var front, back := s[..i], s[i + |item|..];
    assert s == front + item + back;
    assert before + s + after == before + front + item + (back + after);
    hide Contains;
    ContainsInside(before + front, item, back + after);
  }

  /** Every joined part occurs in the result. */
  lemma {:induction false} JoinContains(separator: string, parts: seq<string>, k: int)
    requires 0 <= k < |parts|
    ensures Contains(Join(separator, parts), parts[k])
  {
    hide Join, Contains;
    JoinUnfolds(separator, parts);
    var tail := if |parts| == 1 then "" else separator + Join(separator, parts[1..]);
    if k == 0 {
      ContainsInside("", parts[0], tail);
      assert "" + parts[0] + tail == Join(separator, parts);
    } else {
      JoinContains(separator, parts[1..], k - 1);
      ContainsMore(Join(separator, parts[1..]), parts[k], parts[0] + separator, "");
      assert parts[0] + separator + Join(separator, parts[1..]) + "" == Join(separator, parts);
    }
  }

  lemma {:induction false} JoinStarts(separator: string, parts: seq<string>)
    requires |parts| > 1
    ensures parts[0] <= Join(separator, parts) && |Join(separator, parts)| >= |parts[|parts| - 1]|
    ensures var s := Join(separator, parts); s[|s| - |parts[|parts| - 1]|..] == parts[|parts| - 1]
  {
    hide Join;
    JoinUnfolds(separator, parts);
    if |parts| == 2 {
      JoinUnfolds(separator, parts[1..]);
    } else {
      JoinStarts(separator, parts[1..]);
    }
  }

  lemma {:induction false} NothingMissing(items: seq<string>, text: string)
    requires forall k | 0 <= k < |items| :: Contains(text, items[k])
    ensures Missing(items, text) == []
  {
    hide Contains;
    if items != [] {
      assert Contains(text, items[0]);
      assert forall k | 0 <= k < |items[1..]| :: items[1..][k] == items[k + 1];
      NothingMissing(items[1..], text);
    }
  }

  lemma {:induction false} MissingCovers(items: seq<string>, text: string, k: int)
    requires 0 <= k < |items|
    ensures Contains(text, items[k]) || items[k] in Missing(items, text)
  {
    hide Contains;
    if k > 0 {
      MissingCovers(items[1..], text, k - 1);
    }
  }

  /** A serialized message ends its envelope, so no occurrence of one can reach into the wrapper's end tag. */
  lemma SerializedEnds(text: string)
    ensures SerializeMessage(text, AUTOMATION).Some?
    ensures var s := SerializeMessage(text, AUTOMATION).value; |s| > 1 && s[|s| - 2..] == "e>"
  {
    hide EscapeText, Join, AttributeTexts, IsSpace;
    AutomationIsValid();
    var s := SerializeMessage(text, AUTOMATION).value;
    assert "\n</input-message>"[15..] == "e>";
    assert s[|s| - 17..] == "\n</input-message>";
    assert s[|s| - 2..] == s[|s| - 17..][15..];
  }

  lemma AutomationIsValid()
    ensures ValidIds(AUTOMATION)
  {
    hide IsSpace, Strip;
    var id := "system:open-swe";
    assert id[6] == ':' && id[0] == 's' && id[|id| - 1] == 'e';
    LettersAndMarks(id);
    IdentifierCharacters();
    StripNothing(id);
  }

  /** The characters of the automation's id. */
  lemma LettersAndMarks(id: string)
    requires id == "system:open-swe"
    ensures forall c | c in id :: 'a' <= c <= 'z' || c == ':' || c == '-'
  {
  }

  lemma StripNothing(s: string)
    requires s != "" && !IsSpace(s[0]) && !IsSpace(s[|s| - 1])
    ensures Strip(s) == s
  {
  }

  lemma IdentifierCharacters()
    ensures forall c | 'a' <= c <= 'z' || c == ':' || c == '-' :: !IsSpace(c) && c !in "<>\"'"
  {
  }

  lemma {:induction false} SerializedAt(additions: seq<string>, k: int)
    requires 0 <= k < |additions|
    ensures |Serialized(additions)| == |additions|
    ensures Serialized(additions)[k] == SerializeMessage(additions[k], AUTOMATION).GetOr("")
  {
    hide SerializeMessage;
    if k > 0 {
      SerializedAt(additions[1..], k - 1);
    } else if |additions| > 1 {
      SerializedAt(additions[1..], 0);
    }
  }

  /** Before an end tag whose last two characters are not an envelope's, an envelope occurs whole. */
  lemma OccursBefore(inside: string, close: string, item: string)
    requires |close| > 1 && close[|close| - 2] != 'e' && forall k | 0 <= k < |close| - 1 :: close[k] != '>'
    requires Contains(inside + close, item) && |item| > 1 && item[|item| - 2..] == "e>"
    ensures Contains(inside, item)
  {
    hide Find;
    var text := inside + close;
    var i := Find(text, item);
    var end := i + |item|;
    assert item[|item| - 2] == item[|item| - 2..][0] == 'e' && item[|item| - 1] == item[|item| - 2..][1] == '>';
    assert text[i..end][|item| - 1] == text[end - 1] && text[i..end][|item| - 2] == text[end - 2];
    assert inside[i..end] == text[i..end];
    OccurrenceIsContained(inside, item, i);
  }

  lemma CloseShape()
    ensures |WRAPPER_CLOSE| > 1 && WRAPPER_CLOSE[|WRAPPER_CLOSE| - 2] != 'e'
    ensures forall k | 0 <= k < |WRAPPER_CLOSE| - 1 :: WRAPPER_CLOSE[k] != '>'
  {
  }

  predicate Holds(wrapped: string, items: seq<string>) {
    forall k | 0 <= k < |items| :: Contains(wrapped, items[k])
  }

  /** Adding before the end tag keeps the envelopes there were and gains the missing ones. */
  lemma WrappedGains(inside: string, close: string, additions: seq<string>)
    requires |close| > 1 && close[|close| - 2] != 'e' && forall k | 0 <= k < |close| - 1 :: close[k] != '>'
    requires |Serialized(additions)| == |additions|
    ensures var items := Serialized(additions);
            var extra := Join("\n", Missing(items, inside + close));
            Holds(if extra == "" then inside + close else inside + extra + "\n" + close, items)
  {
    hide SerializeMessage, Contains, Join, Serialized, Missing;
    var text := inside + close;
    var items := Serialized(additions);
    var missing := Missing(items, text);
    var extra := Join("\n", missing);
    var wrapped := inside + extra + "\n" + close;
    forall k | 0 <= k < |items|
      ensures Contains(wrapped, items[k])
      ensures extra == "" ==> Contains(text, items[k])
    {
      MissingCovers(items, text, k);
      SerializedAt(additions, k);
      SerializedEnds(additions[k]);
      if Contains(text, items[k]) {
        OccursBefore(inside, close, items[k]);
        ContainsMore(inside, items[k], "", extra + "\n" + close);
        assert "" + inside + (extra + "\n" + close) == wrapped;
      } else {
        var j :| 0 <= j < |missing| && missing[j] == items[k];
        JoinContains("\n", missing, j);
        ContainedIsShorter(extra, items[k]);
        ContainsMore(extra, items[k], inside, "\n" + close);
        assert inside + extra + ("\n" + close) == wrapped;
      }
    }
  }

  lemma ContainedIsShorter(s: string, item: string)
    requires Contains(s, item)
    ensures |item| <= |s|
  {
  }

  /** The result of wrapping is wrapped and holds every addition. */
  lemma WrappedHoldsAdditions(text: string, additions: seq<string>, sha: Digest)
    ensures var wrapped := WrapSystemPrompt(text, additions, sha);
            IsWrapped(wrapped) && Holds(wrapped, Serialized(additions))
  {
    hide SerializeMessage, EntityMessage, Contains, Join, Missing, IsWrapped;
    var wrapped := WrapSystemPrompt(text, additions, sha);
    var items := Serialized(additions);
    SerializedLength(additions);
    hide Serialized;
    if IsWrapped(text) {
      if additions != [] {
        WrappedParts(text);
        CloseShape();
        var inside := text[..|text| - |WRAPPER_CLOSE|];
        WrappedGains(inside, WRAPPER_CLOSE, additions);
        WrapAround(text, inside, Join("\n", Missing(items, text)));
      }
    } else {
      var head := [WRAPPER_OPEN, EntityMessage(SystemEntity, OPEN_SWE, sha).GetOr(""),
        SerializeMessage(text, AUTOMATION).GetOr("")];
      var parts := head + items + [WRAPPER_CLOSE];
      JoinStarts("\n", parts);
      WrappedFrom(wrapped);
      forall k | 0 <= k < |items| ensures Contains(wrapped, items[k]) {
        assert parts[3 + k] == items[k];
        JoinContains("\n", parts, 3 + k);
      }
    }
  }

  lemma SerializedLength(additions: seq<string>)
    ensures |Serialized(additions)| == |additions|
  {
    if additions != [] {
      SerializedAt(additions, 0);
    }
  }

  lemma WrappedParts(text: string)
    requires IsWrapped(text)
    ensures |WRAPPER_CLOSE| <= |text| && text == text[..|text| - |WRAPPER_CLOSE|] + WRAPPER_CLOSE
  {
  }

  lemma WrappedFrom(s: string)
    requires WRAPPER_OPEN <= s && |WRAPPER_CLOSE| <= |s| && s[|s| - |WRAPPER_CLOSE|..] == WRAPPER_CLOSE
    ensures IsWrapped(s)
  {
  }

  lemma WrapAround(text: string, inside: string, extra: string)
    requires IsWrapped(text) && inside == text[..|text| - |WRAPPER_CLOSE|]
    ensures IsWrapped(inside + extra + "\n" + WRAPPER_CLOSE)
  {
    var wrapped := inside + extra + "\n" + WRAPPER_CLOSE;
    assert text == inside + WRAPPER_CLOSE;
    if |inside| < |WRAPPER_OPEN| {
      assert text[|inside|] == WRAPPER_CLOSE[0] == '<' && WRAPPER_OPEN[|inside|] == text[|inside|];
      OpenHasOneBracket(|inside|);
      assert false;
    }
    assert WRAPPER_OPEN <= inside;
    assert wrapped[|wrapped| - |WRAPPER_CLOSE|..] == WRAPPER_CLOSE;
  }

  lemma OpenHasOneBracket(k: int)
    requires 0 <= k < |WRAPPER_OPEN| && WRAPPER_OPEN[k] == '<'
    ensures k == 0 && |WRAPPER_CLOSE| < |WRAPPER_OPEN|
  {
  }

  // ---------------------------------------------------------------- what a wrapped prompt says

  /** A message from the system itself, with the text as its content. */
  ghost predicate IsAutomations(message: string, text: string) {
    var read := ReadDocument(message);
    AllXmlChars(text) ==>
      read.Some? && read.value.tag == "input-message" &&
      read.value.attributes == [("sender", "system:open-swe"), ("surface", "automation"), ("kind", "system")] &&
      AllCarry(read.value.children, [Field("content", Scalar(text))])
  }

  /** The introduction of the system itself. */
  ghost predicate IntroducesOpenSwe(message: string) {
    var read := ReadDocument(message);
    read.Some? && read.value.tag == "dynamic-context" && |read.value.attributes| == 3 &&
    read.value.attributes[..2] == [("kind", "system"), ("id", "system:open-swe")] &&
    read.value.children ==
    [Element("display_name", [], "Open SWE", [], "\n"), Element("platform", [], "open-swe", [], "\n")]
  }

  lemma SerializedIsAutomations(text: string)
    ensures SerializeMessage(text, AUTOMATION).Some? && IsAutomations(SerializeMessage(text, AUTOMATION).value, text)
  {
    hide *;
    SerializedEnds(text);
    if AllXmlChars(text) {
      AutomationIsValid();
      AutomationIsReadable(text);
      EnvelopeReadsBack(text, AUTOMATION, []);
      NothingIsSpliced(SerializeMessage(text, AUTOMATION).value);
    }
    AutomationMeans(SerializeMessage(text, AUTOMATION).value, text);
  }

  lemma AutomationIsReadable(text: string)
    requires AllXmlChars(text)
    ensures ReadableEnvelope(text, AUTOMATION, []) && AllValidNames(AUTOMATION.data) && AllValidNames([])
  {
    assert forall c | c in "system:open-swe" :: IsXmlChar(c);
  }

  lemma NothingIsSpliced(message: string)
    ensures AppendAll(message, []) == Some(message)
  {
  }

  lemma AutomationMeans(message: string, text: string)
    requires AllXmlChars(text) ==>
               var read := ReadDocument(message);
               read.Some? && read.value.tag == "input-message" &&
               read.value.attributes ==
               [("sender", AUTOMATION.sender)] +
               (if AUTOMATION.channel.Some? && AUTOMATION.channel.value != ""
                then [("channel", AUTOMATION.channel.value)] else []) +
               [("surface", SurfaceWord(AUTOMATION.surface)), ("kind", KindWord(AUTOMATION.kind))] &&
               AllCarry(read.value.children, AUTOMATION.data + [Field("content", Scalar(text))] + [])
    ensures IsAutomations(message, text)
  {
    hide ReadDocument, AllCarry, AllXmlChars;
    assert AUTOMATION.data + [Field("content", Scalar(text))] + [] == [Field("content", Scalar(text))];
  }

  lemma OpenSweIsOneLine()
    ensures NormalizeNewlines("Open SWE") == "Open SWE" && NormalizeNewlines("open-swe") == "open-swe"
  {
    hide NormalizeNewlines;
    NormalizedHasNoReturn("Open SWE");
    NormalizedHasNoReturn("open-swe");
  }

  lemma OpenSweIsLegal()
    ensures ValidEntityId(OPEN_SWE.id) && Legal(SystemEntity, OPEN_SWE)
  {
    hide *;
    AutomationIsValid();
    ConditionsMean(SystemEntity, OPEN_SWE);
    OpenSweCharacters();
    AutomationsId();
  }

  lemma AutomationsId()
    ensures ValidIds(AUTOMATION) ==> ValidEntityId(OPEN_SWE.id)
  {
    hide ValidEntityId;
  }

  lemma OpenSweCharacters()
    ensures AllXmlChars(OPEN_SWE.id)
    ensures forall name | name in KnownFields(SystemEntity) && Has(OPEN_SWE.fields, name) ::
              AllXmlChars(OPEN_SWE.fields[name])
  {
    assert forall c | c in "system:open-swe" || c in "Open SWE" || c in "open-swe" :: IsXmlChar(c);
  }

  lemma {:induction false} GrowsAtLeast(at: seq<nat>, k: nat)
    requires k < |at| && forall i, j | 0 <= i < j < |at| :: at[i] < at[j]
    ensures at[k] >= k
  {
    if k > 0 {
      GrowsAtLeast(at, k - 1);
    }
  }

  lemma FirstTwo(at: seq<nat>)
    requires forall k | 0 <= k < |at| :: at[k] < 2
    requires forall k, l | 0 <= k < l < |at| :: at[k] < at[l]
    requires 0 in at && 1 in at
    ensures at == [0, 1]
  {
    GrowsAtLeast(at, |at| - 1);
    var i :| 0 <= i < |at| && at[i] == 0;
    var j :| 0 <= j < |at| && at[j] == 1;
    assert i < j;
  }

  lemma OpenSweIsIntroduced(sha: Digest)
    requires IsDigest(sha)
    ensures EntityMessage(SystemEntity, OPEN_SWE, sha).Some?
    ensures IntroducesOpenSwe(EntityMessage(SystemEntity, OPEN_SWE, sha).value)
  {
    hide EntityMessage, ReadDocument, Legal, IsDigest, ValidEntityId, NormalizeNewlines, Canonical;
    OpenSweIsLegal();
    var at := IntroductionReadsBack(SystemEntity, OPEN_SWE, sha);
    OpenSweIsOneLine();
    var known := KnownFields(SystemEntity);
    assert known == ["display_name", "platform", "sender_type"];
    assert Has(OPEN_SWE.fields, known[0]) && Has(OPEN_SWE.fields, known[1]) && !Has(OPEN_SWE.fields, known[2]);
    assert forall k | 0 <= k < |at| :: at[k] != 2;
    FirstTwo(at);
  }

  lemma {:induction false} SerializedAreAutomations(additions: seq<string>)
    ensures |Serialized(additions)| == |additions|
    ensures forall k | 0 <= k < |additions| :: IsAutomations(Serialized(additions)[k], additions[k])
  {
    hide IsAutomations, SerializeMessage;
    if additions != [] {
      SerializedAreAutomations(additions[1..]);
      SerializedIsAutomations(additions[0]);
      var items, others := Serialized(additions), Serialized(additions[1..]);
      forall k | 0 < k < |additions| ensures items[k] == others[k - 1] && additions[k] == additions[1..][k - 1] {
      }
    }
  }

  /**
   * A prompt that is not wrapped yet becomes, between the wrapper's tags, the introduction of the system, the prompt as
   * the system's message, and each addition as one, a line each, in order.
   */
  lemma FreshPromptIsWrapped(text: string, additions: seq<string>, sha: Digest)
    returns (introduction: string, prompt: string, items: seq<string>)
    requires IsDigest(sha)
    requires !("<system-instructions format=\"open-swe-v1\">" <= text && 22 <= |text| &&
               text[|text| - 22..] == "</system-instructions>")
    ensures WrapSystemPrompt(text, additions, sha) ==
            Join("\n", ["<system-instructions format=\"open-swe-v1\">", introduction, prompt] + items +
                       ["</system-instructions>"])
    ensures IntroducesOpenSwe(introduction) && IsAutomations(prompt, text)
    ensures |items| == |additions| && forall k | 0 <= k < |items| :: IsAutomations(items[k], additions[k])
  {
    hide EntityMessage, SerializeMessage, Serialized, IsAutomations, IntroducesOpenSwe, Join, Missing, IsDigest;
    OpenSweIsIntroduced(sha);
    SerializedIsAutomations(text);
    SerializedAreAutomations(additions);
    introduction := EntityMessage(SystemEntity, OPEN_SWE, sha).value;
    prompt := SerializeMessage(text, AUTOMATION).value;
    items := Serialized(additions);
  }

  // ---------------------------------------------------------------- a wrapped prompt, read back

  /** The messages of some texts as elements, a line each. */
  function MessageTrees(texts: seq<string>): seq<Element> {
    if texts == [] then []
    else [EnvelopeTree(texts[0], AUTOMATION, []).(tail := "\n")] + MessageTrees(texts[1..])
  }

  function WrapperTree(introduction: Element, texts: seq<string>): Element {
    Element("system-instructions", [("format", "open-swe-v1")], "\n",
            [introduction.(tail := "\n")] + MessageTrees(texts), "")
  }

  lemma TailIsNotPrinted(e: Element, tail: string)
    ensures Print(e.(tail := tail)) == Print(e)
  {
    hide PrintAttributes, EncodeText, PrintAll;
  }

  lemma {:induction false} MessageTreesPrint(texts: seq<string>)
    ensures PrintAll(MessageTrees(texts)) == Lines(Serialized(texts))
  {
    if texts != [] {
      hide SerializeMessage, Print, EncodeText, EnvelopeTree, ValidIds;
      MessageTreesPrint(texts[1..]);
      AutomationIsValid();
      NoData();
      SerializePrints(texts[0], AUTOMATION);
      TailIsNotPrinted(EnvelopeTree(texts[0], AUTOMATION, []), "\n");
      NewlineEncodes();
      var trees, items := MessageTrees(texts), Serialized(texts);
      assert trees[1..] == MessageTrees(texts[1..]) && items[1..] == Serialized(texts[1..]);
    }
  }

  lemma NoData()
    ensures AllValidNames(AUTOMATION.data) && AllValidNames([])
  {
  }

  lemma WrapperPrints(introduction: Element, texts: seq<string>)
    ensures Print(WrapperTree(introduction, texts)) ==
            "<system-instructions format=\"open-swe-v1\">" + "\n" +
              (Print(introduction) + "\n" + Lines(Serialized(texts))) +
              "</system-instructions>"
  {
    hide Print, PrintAttributes, EncodeText, Lines, Serialized, MessageTrees, PrintAll;
    MessageTreesPrint(texts);
    TailIsNotPrinted(introduction, "\n");
    NewlineEncodes();
    FormatPrints();
    var children := [introduction.(tail := "\n")] + MessageTrees(texts);
    FirstPrints(children);
    assert children[1..] == MessageTrees(texts);
    ElementPrints(WrapperTree(introduction, texts));
    WrapperText(PrintAll(children));
  }

  lemma FirstPrints(es: seq<Element>)
    requires es != []
    ensures PrintAll(es) == Print(es[0]) + EncodeText(es[0].tail) + PrintAll(es[1..])
  {
    hide Print, EncodeText;
  }

  lemma ElementPrints(e: Element)
    ensures Print(e) == "<" + e.tag + PrintAttributes(e.attributes) + ">" + EncodeText(e.text) + PrintAll(e.children) +
            "</" +
              e.tag + ">"
  {
    hide PrintAttributes, EncodeText, PrintAll;
  }

  lemma FormatPrints()
    ensures PrintAttributes([("format", "open-swe-v1")]) == " format=\"open-swe-v1\""
  {
    hide EncodeAttribute, PrintAttributes;
    PlainEncodes("open-swe-v1");
    PrintOneAttribute("format", "open-swe-v1");
  }

  lemma WrapperText(children: string)
    ensures "<" + "system-instructions" + " format=\"open-swe-v1\"" + ">" + "\n" + children + "</" +
            "system-instructions" +
              ">" ==
            "<system-instructions format=\"open-swe-v1\">" + "\n" + children + "</system-instructions>"
  {
    var open := WrapperOpens();
    var close := WrapperCloses();
    RegroupClose(open + "\n" + children, "</", "system-instructions", ">");
  }

  lemma WrapperOpens() returns (open: string)
    ensures open == "<system-instructions format=\"open-swe-v1\">"
    ensures open == "<" + "system-instructions" + " format=\"open-swe-v1\"" + ">"
  {
    open := "<system-instructions format=\"open-swe-v1\">";
    var rest := OpenSplits();
    FormatSplits();
    TagSplits();
    RegroupClose("", "<" + "system-instructions", " format=\"open-swe-v1\"", ">");
    assert open == "<system-instructions" + (" format=\"open-swe-v1\"" + ">");
  }

  lemma OpenSplits() returns (rest: string)
    ensures rest == " format=\"open-swe-v1\">"
    ensures "<system-instructions format=\"open-swe-v1\">" == "<system-instructions" + rest
  {
    rest := " format=\"open-swe-v1\">";
  }

  lemma FormatSplits()
    ensures " format=\"open-swe-v1\">" == " format=\"open-swe-v1\"" + ">"
  {
  }

  lemma TagSplits()
    ensures "<system-instructions" == "<" + "system-instructions"
  {
  }

  lemma WrapperCloses() returns (close: string)
    ensures close == "</system-instructions>" && close == "</" + ("system-instructions" + ">")
  {
    close := "</system-instructions>";
    assert close[..2] == "</" && close[2..] == "system-instructions" + ">";
    assert close == close[..2] + close[2..];
  }

  lemma RegroupClose(head: string, a: string, b: string, c: string)
    ensures head + a + b + c == head + (a + (b + c))
  {
  }

  /** Lines between two others, joined. */
  lemma JoinBetween(first: string, lines: seq<string>, last: string)
    ensures Join("\n", [first] + lines + [last]) == first + "\n" + Lines(lines) + last
  {
    hide Join, Lines;
    var all := [first] + lines + [last];
    JoinUnfolds("\n", all);
    assert all[1..] == lines + [last];
    LinesThenLast(lines, last);
  }

  lemma {:induction false} LinesThenLast(lines: seq<string>, last: string)
    ensures Join("\n", lines + [last]) == Lines(lines) + last
  {
    hide Join;
    JoinUnfolds("\n", lines + [last]);
    if lines == [] {
      assert lines + [last] == [last];
    } else {
      LinesThenLast(lines[1..], last);
      assert (lines + [last])[0] == lines[0] && (lines + [last])[1..] == lines[1..] + [last];
    }
  }

  predicate AllLegal(texts: seq<string>) {
    forall text | text in texts :: AllXmlChars(text)
  }

  lemma TailDoesNotCount(e: Element, tail: string)
    ensures Printable(e.(tail := tail)) == Printable(e) && WellNamed(e.(tail := tail)) == WellNamed(e) &&
            LegalText(e.(tail := tail)) == LegalText(e)
  {
    hide IsToken, IsName, PlainAttributes, AllPrintable, AllWellNamed, AllLegalText, AllXmlChars;
  }

  lemma {:induction false} MessageTreesAreLegal(texts: seq<string>)
    ensures AllPrintable(MessageTrees(texts))
    ensures AllWellNamed(MessageTrees(texts)) && AllLegalText(MessageTrees(texts)) <==> AllLegal(texts)
  {
    if texts != [] {
      hide EnvelopeTree, Printable, WellNamed, LegalText, AllXmlChars, AllPrintable, AllWellNamed, AllLegalText,
           AllLegal;
      MessageTreesAreLegal(texts[1..]);
      MessageIsLegal(texts[0]);
      TailDoesNotCount(EnvelopeTree(texts[0], AUTOMATION, []), "\n");
      OneMoreLegal(EnvelopeTree(texts[0], AUTOMATION, []).(tail := "\n"), MessageTrees(texts[1..]));
      FirstIsLegal(texts);
    } else {
      NoneIsLegal();
    }
  }

  lemma FirstIsLegal(texts: seq<string>)
    requires texts != []
    ensures AllLegal(texts) <==> AllXmlChars(texts[0]) && AllLegal(texts[1..])
  {
    hide AllXmlChars;
    assert texts == [texts[0]] + texts[1..];
  }

  lemma NoneIsLegal()
    ensures AllLegal([]) && AllPrintable([]) && AllWellNamed([]) && AllLegalText([]) && MessageTrees([]) == []
  {
  }

  lemma MessageIsLegal(text: string)
    ensures Printable(EnvelopeTree(text, AUTOMATION, []))
    ensures WellNamed(EnvelopeTree(text, AUTOMATION, [])) && LegalText(EnvelopeTree(text, AUTOMATION, [])) <==>
            AllXmlChars(text)
  {
    hide *;
    AutomationIsValid();
    NoData();
    EnvelopeIsPrintable(text, AUTOMATION, []);
    AutomationReads(text);
  }

  lemma AutomationReads(text: string)
    ensures ReadableEnvelope(text, AUTOMATION, []) <==> AllXmlChars(text)
  {
    if AllXmlChars(text) {
      AutomationIsReadable(text);
    }
  }

  lemma WrapperIsLegal(introduction: Element, texts: seq<string>)
    requires Printable(introduction) && WellNamed(introduction) && LegalText(introduction)
    ensures Printable(WrapperTree(introduction, texts))
    ensures WellNamed(WrapperTree(introduction, texts)) && LegalText(WrapperTree(introduction, texts)) <==>
            AllLegal(texts)
  {
    hide IsName, IsToken, IsXmlChar, IsXmlSpace, MessageTrees, AllLegal, WellNamed, LegalText, Printable, AllXmlChars,
         PlainAttributes, AllPrintable, AllWellNamed, AllLegalText;
    MessageTreesAreLegal(texts);
    TailDoesNotCount(introduction, "\n");
    WrapperLayout();
    OneMoreLegal(introduction.(tail := "\n"), MessageTrees(texts));
    WrapperParts(WrapperTree(introduction, texts));
  }

  lemma WrapperLayout()
    ensures IsToken("system-instructions") && IsName("system-instructions") && AllXmlChars("\n")
    ensures PlainAttributes([("format", "open-swe-v1")]) && AllXmlChars("open-swe-v1")
  {
    hide IsName, IsToken, IsNameStart, IsNameChar;
    LayoutIsLegal();
    SnakeCaseIsName("system-instructions");
    SnakeCaseIsName("format");
    NameIsToken("system-instructions");
    assert forall c | c in "open-swe-v1" :: IsXmlChar(c) && !IsXmlSpace(c);
  }

  lemma OneMoreLegal(e: Element, es: seq<Element>)
    requires e.tail == "\n"
    ensures AllPrintable([e] + es) == (Printable(e) && AllPrintable(es))
    ensures AllWellNamed([e] + es) == (WellNamed(e) && AllWellNamed(es))
    ensures AllLegalText([e] + es) == (LegalText(e) && AllLegalText(es))
  {
    hide Printable, WellNamed, LegalText;
    LayoutIsLegal();
    assert ([e] + es)[1..] == es;
  }

  lemma WrapperParts(e: Element)
    requires IsToken(e.tag) && IsName(e.tag) && PlainAttributes(e.attributes) && AllXmlChars(e.text)
    requires |e.attributes| == 1 && AllXmlChars(e.attributes[0].1)
    ensures Printable(e) == AllPrintable(e.children) && WellNamed(e) == AllWellNamed(e.children) &&
            LegalText(e) == AllLegalText(e.children)
  {
    hide IsName, IsToken, PlainAttributes, AllPrintable, AllWellNamed, AllLegalText, AllXmlChars;
  }

  lemma {:induction false} NormalizedTrees(texts: seq<string>)
    ensures |NormalizeAll(MessageTrees(texts))| == |texts|
    ensures forall k | 0 <= k < |texts| ::
              NormalizeAll(MessageTrees(texts))[k] ==
              NormalizeElement(EnvelopeTree(texts[k], AUTOMATION, []).(tail := "\n"))
  {
    if texts != [] {
      hide NormalizeElement, EnvelopeTree;
      NormalizedTrees(texts[1..]);
      var trees := MessageTrees(texts);
      assert trees[1..] == MessageTrees(texts[1..]);
      assert NormalizeAll(trees) == [NormalizeElement(trees[0])] + NormalizeAll(trees[1..]);
    }
  }

  lemma MessageIsRead(text: string)
    ensures var message := NormalizeElement(EnvelopeTree(text, AUTOMATION, []).(tail := "\n"));
            message.tag == "input-message" && Descendants(message, "input-message") == [] &&
            ContentText(message.children) == Some(NormalizeNewlines(text)) &&
            Attribute(message.attributes, "sender") == Some("system:open-swe")
  {
    hide NormalizeNewlines;
    VisibleContent([], text, []);
    var leaf := Element("content", [], text, [], "\n");
    assert FieldTrees([]) + [leaf] + [] == [leaf] && FieldTrees([]) + [leaf] + FieldTrees([]) == [leaf];
    var read := NormalizeElement(leaf);
    assert NormalizeAll([leaf]) == [read] && [read][1..] == [] && read.children == [];
    assert Descendants(read, "input-message") == [];
  }

  /** The texts that messages are read as: stripped, with normalized line ends, and without the empty ones. */
  function Spoken(texts: seq<string>): seq<string> {
    if texts == [] then [] else
    var text := Strip(NormalizeNewlines(texts[0]));
    (if text == "" then [] else [text]) + Spoken(texts[1..])
  }

  lemma {:induction false} MessagesAreFound(texts: seq<string>, read: seq<Element>)
    requires |read| == |texts|
    requires forall k | 0 <= k < |texts| ::
               read[k] == NormalizeElement(EnvelopeTree(texts[k], AUTOMATION, []).(tail := "\n"))
    ensures DescendantsOf(read, "input-message") == read
    ensures Bodies(read) == Spoken(texts)
    ensures texts != [] ==> FirstSender(read) == Some("system:open-swe")
  {
    if texts != [] {
      hide NormalizeElement, EnvelopeTree, ContentText, Strip, NormalizeNewlines, Attribute, Descendants;
      MessageIsRead(texts[0]);
      MessagesAreFound(texts[1..], read[1..]);
      assert read == [read[0]] + read[1..];
    }
  }

  lemma WrapperIsRead(introduction: Element, texts: seq<string>)
    ensures var read := NormalizeElement(WrapperTree(introduction, texts)).(tail := "");
            read.tag == "system-instructions" &&
            read.children == [NormalizeElement(introduction.(tail := "\n"))] + NormalizeAll(MessageTrees(texts))
  {
    hide NormalizeElement, NormalizeNewlines, MessageTrees;
    var kids := [introduction.(tail := "\n")] + MessageTrees(texts);
    NormalizedFirst(WrapperTree(introduction, texts), kids);
    assert kids[1..] == MessageTrees(texts);
  }

  lemma NormalizedFirst(e: Element, kids: seq<Element>)
    requires e.children == kids && kids != []
    ensures NormalizeElement(e).tag == e.tag
    ensures NormalizeElement(e).children == [NormalizeElement(kids[0])] + NormalizeAll(kids[1..])
  {
    hide NormalizeNewlines;
  }

  /** The system's introduction holds no message. */
  lemma IntroductionHoldsNone(introduction: Element)
    requires ReadDocument(Print(introduction)) == Some(NormalizeElement(introduction).(tail := ""))
    requires IntroducesOpenSwe(Print(introduction))
    ensures NormalizeElement(introduction.(tail := "\n")).tag == "dynamic-context"
    ensures Descendants(NormalizeElement(introduction.(tail := "\n")), "input-message") == []
  {
    hide Print, ReadDocument, NormalizeNewlines;
    var name, platform := Element("display_name", [], "Open SWE", [], "\n"),
      Element("platform", [], "open-swe", [], "\n");
    var read := NormalizeElement(introduction.(tail := "\n"));
    assert read.children == [name, platform];
    assert name.tag[0] == 'd' && platform.tag[0] == 'p';
    LeavesHoldNone(name, platform);
  }

  lemma LeavesHoldNone(a: Element, b: Element)
    requires a.children == [] == b.children && a.tag != "" && b.tag != "" && a.tag[0] != 'i' && b.tag[0] != 'i'
    ensures DescendantsOf([a, b], "input-message") == []
  {
    assert "input-message"[0] == 'i';
    assert [a, b][1..] == [b] && [b][1..] == [];
    assert DescendantsOf([b], "input-message") == [];
  }

  lemma WrapperFinds(introduction: Element, texts: seq<string>)
    requires Printable(introduction) && WellNamed(introduction) && LegalText(introduction)
    requires IntroducesOpenSwe(Print(introduction))
    requires texts != [] && Contains(Print(WrapperTree(introduction, texts)), "<input-message")
    ensures var found := EnvelopesIn(Print(WrapperTree(introduction, texts)));
            if AllLegal(texts)
            then Bodies(found) == Spoken(texts) && FirstSender(found) == Some("system:open-swe") else found == []
  {
    hide Print, ReadDocument, Printable, WellNamed, LegalText, NormalizeElement, WrapperTree, MessageTrees, AllLegal,
         IntroducesOpenSwe, NormalizeAll, Bodies, FirstSender, Spoken, Contains, EnvelopeTree, NormalizeNewlines;
    WrapperIsLegal(introduction, texts);
    ReadPrintedDocument(WrapperTree(introduction, texts));
    ReadPrintedDocument(introduction);
    IntroductionHoldsNone(introduction);
    WrapperIsRead(introduction, texts);
    NormalizedTrees(texts);
    var read := NormalizeAll(MessageTrees(texts));
    MessagesAreFound(texts, read);
    FoundBehind(NormalizeElement(introduction.(tail := "\n")), read);
    assert "system-instructions"[0] != "input-message"[0];
  }

  lemma FoundBehind(first: Element, read: seq<Element>)
    requires first.tag == "dynamic-context" && Descendants(first, "input-message") == []
    ensures DescendantsOf([first] + read, "input-message") == DescendantsOf(read, "input-message")
  {
    hide Descendants;
    assert first.tag[0] == 'd' && "input-message"[0] == 'i';
    assert ([first] + read)[1..] == read;
    assert [] + [] + DescendantsOf(read, "input-message") == DescendantsOf(read, "input-message");
  }

  lemma ContainsThrough(s: string, item: string, part: string)
    requires Contains(s, item) && Contains(item, part)
    ensures Contains(s, part)
  {
    hide Find;
    var i := Find(s, item);
    assert s == s[..i] + item + s[i + |item|..];
    hide Contains;
    ContainsMore(item, part, s[..i], s[i + |item|..]);
  }

  lemma FreshPromptPrints(text: string, additions: seq<string>, sha: Digest, introduction: Element)
    requires EntityMessage(SystemEntity, OPEN_SWE, sha) == Some(Print(introduction)) && !IsWrapped(text)
    ensures WrapSystemPrompt(text, additions, sha) == Print(WrapperTree(introduction, [text] + additions))
    ensures Contains(WrapSystemPrompt(text, additions, sha), "<input-message")
  {
    hide EntityMessage, SerializeMessage, IsWrapped, Contains, Join, Lines, Print, Serialized, WrapperTree;
    SerializedIsAutomations(text);
    var prompt, items := SerializeMessage(text, AUTOMATION).value, Serialized(additions);
    SerializedFirst(text, additions);
    var lines := [Print(introduction)] + Serialized([text] + additions);
    var parts := [WRAPPER_OPEN] + lines + [WRAPPER_CLOSE];
    assert parts == [WRAPPER_OPEN, Print(introduction), prompt] + items + [WRAPPER_CLOSE];
    JoinBetween(WRAPPER_OPEN, lines, WRAPPER_CLOSE);
    FirstLineOf(Print(introduction), Serialized([text] + additions));
    WrapperPrints(introduction, [text] + additions);
    assert parts[2] == prompt;
    JoinContains("\n", parts, 2);
    PromptMentions(text);
    ContainsThrough(Join("\n", parts), prompt, "<input-message");
  }

  lemma FirstLineOf(first: string, rest: seq<string>)
    ensures Lines([first] + rest) == first + "\n" + Lines(rest)
  {
    assert ([first] + rest)[1..] == rest;
  }

  lemma SerializedFirst(text: string, additions: seq<string>)
    ensures Serialized([text] + additions) == [SerializeMessage(text, AUTOMATION).GetOr("")] + Serialized(additions)
  {
    hide SerializeMessage;
    assert ([text] + additions)[1..] == additions;
  }

  lemma PromptMentions(text: string)
    ensures SerializeMessage(text, AUTOMATION).Some?
    ensures Contains(SerializeMessage(text, AUTOMATION).value, "<input-message")
  {
    hide SerializeMessage, Print, Contains, EnvelopeTree, ValidIds;
    AutomationIsValid();
    NoData();
    SerializePrints(text, AUTOMATION);
    EnvelopeTag(text);
    EnvelopeMentioned(EnvelopeTree(text, AUTOMATION, []));
  }

  lemma EnvelopeTag(text: string)
    ensures EnvelopeTree(text, AUTOMATION, []).tag == "input-message"
  {
  }

  /**
   * A prompt that is wrapped is read back: its sender is the system, and its text is the prompt and the additions,
   * stripped, in order, without the empty ones. Nothing is read of it if some character is none that XML allows.
   */
  lemma WrappedPromptReadsBack(text: string, additions: seq<string>, sha: Digest)
    requires IsDigest(sha)
    requires !("<system-instructions format=\"open-swe-v1\">" <= text && 22 <= |text| &&
               text[|text| - 22..] == "</system-instructions>")
    ensures var wrapped, texts := WrapSystemPrompt(text, additions, sha), [text] + additions;
            if AllLegal(texts)
            then MessageSenderId([wrapped]) == Some("system:open-swe") &&
                 InputMessageText([wrapped]) == if Spoken(texts) == [] then None else Some(Join("\n\n", Spoken(texts)))
            else MessageSenderId([wrapped]) == None && InputMessageText([wrapped]) == None
  {
    hide EntityMessage, WrapSystemPrompt, Print, WrapperTree, Spoken, Join, EnvelopesIn, Contains, Canonical, IsDigest,
         ContextTree, Printable, WellNamed, LegalText, Legal, ValidEntityId, IntroducesOpenSwe, AllXmlChars, IsXmlSpace,
         IsXmlChar, Bodies, FirstSender;
    var canonical := Canonical(SystemEntity, OPEN_SWE);
    var introduction := ContextTree(SystemEntity, OPEN_SWE, [("hash", sha(canonical))]);
    OpenSweIsLegal();
    OpenSweIsIntroduced(sha);
    MessagePrints(SystemEntity, OPEN_SWE, sha);
    DigestIsPlain(sha, canonical);
    ContextTreeIsPrintable(SystemEntity, OPEN_SWE, sha(canonical));
    NotWrapped(text);
    FreshPromptPrints(text, additions, sha, introduction);
    var wrapped, texts := WrapSystemPrompt(text, additions, sha), [text] + additions;
    WrapperFinds(introduction, texts);
    OneBlock(wrapped);
    NoBlocks();
  }

  lemma OneBlock(text: string)
    ensures AllEnvelopes([text]) == EnvelopesIn(text)
  {
    hide EnvelopesIn;
    assert [text][1..] == [] && AllEnvelopes([text]) == EnvelopesIn(text) + [];
  }

  lemma NotWrapped(text: string)
    requires !("<system-instructions format=\"open-swe-v1\">" <= text && 22 <= |text| &&
               text[|text| - 22..] == "</system-instructions>")
    ensures !IsWrapped(text)
  {
  }

  lemma {:induction false} MissingAre(items: seq<string>, text: string, item: string)
    ensures item in Missing(items, text) <==> item in items && !Contains(text, item)
  {
    hide Contains;
    if items != [] {
      MissingAre(items[1..], text, item);
    }
  }

  /**
   * A wrapped prompt gains, right before its end tag, the system's messages of the additions it does not hold yet; it
   * is left alone when it holds them all.
   */
  lemma WrappedPromptGains(text: string, additions: seq<string>, sha: Digest)
    returns (items: seq<string>, gained: seq<string>)
    requires "<system-instructions format=\"open-swe-v1\">" <= text && 22 <= |text|
    requires text[|text| - 22..] == "</system-instructions>"
    ensures |items| == |additions| && forall k | 0 <= k < |items| :: IsAutomations(items[k], additions[k])
    ensures forall item :: item in gained <==> item in items && !Contains(text, item)
    ensures WrapSystemPrompt(text, additions, sha) ==
            if gained == [] then text else text[..|text| - 22] + Join("\n", gained) + "\n" + "</system-instructions>"
  {
    hide EntityMessage, SerializeMessage, Serialized, IsAutomations, Join, Missing, Contains;
    SerializedAreAutomations(additions);
    items := Serialized(additions);
    gained := Missing(items, text);
    forall item ensures item in gained <==> item in items && !Contains(text, item) {
      MissingAre(items, text, item);
    }
    if gained == [] {
      NothingJoined();
    } else {
      SomethingJoined(additions, gained);
    }
    WrappedText(text);
    hide IsWrapped;
    assert text[..|text| - 22] == text[..|text| - |WRAPPER_CLOSE|];
  }

  lemma WrappedText(text: string)
    requires "<system-instructions format=\"open-swe-v1\">" <= text && 22 <= |text|
    requires text[|text| - 22..] == "</system-instructions>"
    ensures IsWrapped(text) && |WRAPPER_CLOSE| == 22 && WRAPPER_CLOSE == "</system-instructions>"
  {
  }

  lemma NothingJoined()
    ensures Join("\n", []) == ""
  {
  }

  lemma SomethingJoined(additions: seq<string>, gained: seq<string>)
    requires gained != [] && gained[0] in Serialized(additions)
    ensures Join("\n", gained) != "" && additions != []
  {
    hide SerializeMessage, Serialized, Join, Contains;
    SerializedLength(additions);
    var k :| 0 <= k < |Serialized(additions)| && Serialized(additions)[k] == gained[0];
    SerializedAt(additions, k);
    SerializedEnds(additions[k]);
    JoinContains("\n", gained, 0);
    ContainedIsShorter(Join("\n", gained), gained[0]);
  }

  /** Wrapping again with the same additions changes nothing, whether or not the text was already wrapped. */
  lemma WrapIsIdempotent(text: string, additions: seq<string>, sha: Digest)
    ensures var wrapped := WrapSystemPrompt(text, additions, sha);
            WrapSystemPrompt(wrapped, additions, sha) == wrapped
  {
    hide SerializeMessage, EntityMessage, Contains, Serialized, Missing, IsWrapped;
    WrappedHoldsAdditions(text, additions, sha);
    NothingMissing(Serialized(additions), WrapSystemPrompt(text, additions, sha));
  }
}
