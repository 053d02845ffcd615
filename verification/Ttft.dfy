/** Incremental framing of a server-sent event stream, and detection of each message's first text delta. */
module Ttft {
  import opened Common
  import opened Json

  newtype byte = x: int | 0 <= x < 256

  const CR: byte := 13
  const LF: byte := 10
  const CRLF_SEPARATOR := [CR, LF, CR, LF]
  const LF_SEPARATOR := [LF, LF]

  // ---------------------------------------------------------------- framing

  datatype Cut = Cut(index: nat, length: nat)

  /** Where the buffer is cut: the least `(index, length)` over both separators. */
  function FirstCut(buffer: seq<byte>): (cut: Option<Cut>)
    ensures cut.Some? ==> cut.value.index + cut.value.length <= |buffer| && cut.value.length >= 2
  {
    var crlf, lf := Find(buffer, CRLF_SEPARATOR), Find(buffer, LF_SEPARATOR);
    if crlf >= 0 && (lf < 0 || crlf <= lf) then Some(Cut(crlf, 4))
    else if lf >= 0 then Some(Cut(lf, 2))
    else None
  }

  /** A separator is complete at `end`: the first `end` bytes finish with one. */
  predicate SeparatorEndsAt(s: seq<byte>, end: int) {
    OccursAt(s, CRLF_SEPARATOR, end - 4) || OccursAt(s, LF_SEPARATOR, end - 2)
  }

  /**
   * The cut is made at the separator that is complete first in the stream, whichever spelling it has.
   * Choosing by lowest start is therefore choosing by lowest end: an earlier `CR LF CR LF` never
   * completes after a later `LF LF`.
   */
  lemma CutAtFirstCompleteSeparator(s: seq<byte>)
    ensures FirstCut(s).None? <==> forall end :: !SeparatorEndsAt(s, end)
    ensures FirstCut(s).Some? ==>
              var end := FirstCut(s).value.index + FirstCut(s).value.length;
              SeparatorEndsAt(s, end) && forall e | SeparatorEndsAt(s, e) :: end <= e
  {
    var crlf, lf := Find(s, CRLF_SEPARATOR), Find(s, LF_SEPARATOR);
    if crlf >= 0 {
      assert SeparatorEndsAt(s, crlf + 4);
    }
    if lf >= 0 {
      assert SeparatorEndsAt(s, lf + 2);
    }
    if crlf >= 0 && lf >= 0 {
      SeparatorsDoNotOverlap(s, crlf, lf);
    }
  }

  lemma SeparatorsDoNotOverlap(s: seq<byte>, i: int, j: int)
    requires OccursAt(s, CRLF_SEPARATOR, i) && OccursAt(s, LF_SEPARATOR, j)
    ensures i + 3 <= j || j + 2 <= i
  {
    var four, two := s[i..i + 4], s[j..j + 2];
    assert s[i] == four[0] && s[i + 1] == four[1] && s[i + 2] == four[2] && s[i + 3] == four[3];
    assert s[j] == two[0] && s[j + 1] == two[1];
  }

  /** Bytes that arrive later never move a cut that is already possible. */
  lemma CutAfterAppend(s: seq<byte>, more: seq<byte>)
    requires FirstCut(s).Some?
    ensures FirstCut(s + more) == FirstCut(s)
  {
    FindAfterAppend(s, more, CRLF_SEPARATOR);
    FindAfterAppend(s, more, LF_SEPARATOR);
    var crlf, lf := Find(s + more, CRLF_SEPARATOR), Find(s + more, LF_SEPARATOR);
    if crlf >= 0 && lf >= 0 {
      SeparatorsDoNotOverlap(s + more, crlf, lf);
    }
  }

  // ---------------------------------------------------------------- one frame

  datatype Decoded = NotJson | Parsed(value: Json) | DecodeRaises

  type Decoder = seq<byte> -> Decoded

  predicate IsAsciiSpace(b: byte) { b == 32 || 9 <= b <= 13 }

  function LeftStrip(s: seq<byte>): seq<byte> {
    if s != [] && IsAsciiSpace(s[0]) then LeftStrip(s[1..]) else s
  }

  function LineLength(s: seq<byte>): (n: nat)
    ensures n <= |s|
  {
    if s == [] || s[0] == CR || s[0] == LF then 0 else 1 + LineLength(s[1..])
  }

  function SplitLines(s: seq<byte>): seq<seq<byte>>
    decreases |s|
  {
    if s == [] then [] else
    var n := LineLength(s);
    var skip := if CRLF_SEPARATOR[..2] <= s[n..] then n + 2 else if n < |s| then n + 1 else n;
    assert skip > 0;
    [s[..n]] + SplitLines(s[skip..])
  }

  const DATA_PREFIX: seq<byte> := [100, 97, 116, 97, 58]

  function DataLines(lines: seq<seq<byte>>): seq<seq<byte>> {
    if lines == [] then []
    else if DATA_PREFIX <= lines[0] then [LeftStrip(lines[0][5..])] + DataLines(lines[1..])
    else DataLines(lines[1..])
  }

  datatype Payload = NoPayload | Payload(value: Json) | PayloadRaises

  function PayloadOf(frame: seq<byte>, decode: Decoder): Payload {
    var lines := DataLines(SplitLines(frame));
    if lines == [] then NoPayload
    else
      match decode(Join([LF], lines))
      case NotJson => NoPayload
      case DecodeRaises => PayloadRaises
      case Parsed(value) => if value.Obj? then Payload(value) else NoPayload
  }

  // ---------------------------------------------------------------- what of a frame reaches the decoder

  /** A line as a sender writes it: `data:` with its text after any white space, or anything else. */
  datatype Line = Data(space: seq<byte>, text: seq<byte>) | Other(bytes: seq<byte>)

  predicate IsOneLine(s: seq<byte>) {
    forall b | b in s :: b != 10 && b != 13
  }

  predicate IsWritable(line: Line) {
    match line
    case Data(space, text) =>
      (forall b | b in space :: b == 9 || b == 11 || b == 12 || b == 32) && IsOneLine(text) &&
      (text != [] ==> text[0] != 9 && text[0] != 11 && text[0] != 12 && text[0] != 32)
    case Other(bytes) => IsOneLine(bytes) && !([100, 97, 116, 97, 58] <= bytes)
  }

  function Bytes(line: Line): seq<byte> {
    match line
    case Data(space, text) => [100, 97, 116, 97, 58] + (space + text)
    case Other(bytes) => bytes
  }

  /** Each line has its own end, LF, CR or CR LF; the last may have none. */
  predicate AreEnds(ends: seq<seq<byte>>) {
    forall i | 0 <= i < |ends| ::
      ends[i] == [10] || ends[i] == [13] || ends[i] == [13, 10] || (ends[i] == [] && i == |ends| - 1)
  }

  function Written(lines: seq<Line>, ends: seq<seq<byte>>): seq<byte>
    requires |lines| == |ends|
  {
    if lines == [] then [] else Bytes(lines[0]) + (ends[0] + Written(lines[1..], ends[1..]))
  }

  /** The texts of the data lines, in order. */
  function Texts(lines: seq<Line>): seq<seq<byte>> {
    if lines == [] then []
    else if lines[0].Data? then [lines[0].text] + Texts(lines[1..])
    else Texts(lines[1..])
  }

  /** The texts with a line feed between each two. */
  function OnePerLine(texts: seq<seq<byte>>): seq<byte>
    requires texts != []
  {
    if |texts| == 1 then texts[0] else texts[0] + [10] + OnePerLine(texts[1..])
  }

  predicate IsFrame(lines: seq<Line>, ends: seq<seq<byte>>) {
    |lines| == |ends| && AreEnds(ends) && forall line | line in lines :: IsWritable(line)
  }

  lemma {:induction false} LineEndsAt(line: seq<byte>, rest: seq<byte>)
    requires IsOneLine(line) && (rest != [] ==> rest[0] == 10 || rest[0] == 13)
    ensures LineLength(line + rest) == |line|
  {
    if line == [] {
      assert line + rest == rest;
    } else {
      assert line[0] in line && forall b | b in line[1..] :: b in line;
      LineEndsAt(line[1..], rest);
      assert (line + rest)[1..] == line[1..] + rest;
    }
  }

  lemma {:induction false} SpaceIsStripped(space: seq<byte>, text: seq<byte>)
    requires forall b | b in space :: IsAsciiSpace(b)
    requires text != [] ==> !IsAsciiSpace(text[0])
    ensures LeftStrip(space + text) == text
  {
    if space == [] {
      assert space + text == text;
    } else {
      assert space[0] in space && forall b | b in space[1..] :: b in space;
      SpaceIsStripped(space[1..], text);
      assert (space + text)[1..] == space[1..] + text;
    }
  }

  /** What one line adds to the data lines of a frame. */
  lemma DataOfLine(line: Line, lines: seq<seq<byte>>)
    requires IsWritable(line)
    ensures IsOneLine(Bytes(line))
    ensures DataLines([Bytes(line)] + lines) == (if line.Data? then [line.text] else []) + DataLines(lines)
  {
    var s := Bytes(line);
    assert ([s] + lines)[1..] == lines;
    if line.Data? {
      assert s[..5] == DATA_PREFIX && s[5..] == line.space + line.text;
      forall b | b in line.text ensures b != 10 && b != 13 {
      }
      if line.text != [] {
        assert line.text[0] in line.text;
      }
      SpaceIsStripped(line.space, line.text);
    }
  }

  /** The first line of a text and what is split after it; a CR takes a following LF with it. */
  lemma FirstLine(line: seq<byte>, end: seq<byte>, rest: seq<byte>)
    requires IsOneLine(line) && (end == [10] || end == [13] || end == [13, 10] ||
               (end == [] && rest == [] && line != []))
    ensures SplitLines(line + (end + rest)) ==
            [line] + SplitLines(if end == [13] && rest != [] && rest[0] == 10 then rest[1..] else rest)
  {
    hide SplitLines, LineLength;
    var s, n := line + (end + rest), |line|;
    LineEndsAt(line, end + rest);
    SplitLinesUnfolds(s, n);
    assert s[..n] == line && s[n..] == end + rest;
    if end == [13] && rest != [] && rest[0] == 10 {
      AfterEnd(line, [13, 10], rest[1..], s);
    } else {
      AfterEnd(line, end, rest, s);
    }
  }

  lemma SplitLinesUnfolds(s: seq<byte>, n: nat)
    requires s != [] && n == LineLength(s) && n <= |s|
    ensures var skip := if CRLF_SEPARATOR[..2] <= s[n..] then n + 2 else if n < |s| then n + 1 else n;
            SplitLines(s) == [s[..n]] + SplitLines(s[skip..])
  {
    hide LineLength;
  }

  /** How many bytes end the line: both of a CR LF, and otherwise the one there is. */
  lemma AfterEnd(line: seq<byte>, end: seq<byte>, rest: seq<byte>, s: seq<byte>)
    requires s == line + end + rest && (end == [10] || end == [13] || end == [13, 10] || (end == [] && rest == []))
    requires end == [13] && rest != [] ==> rest[0] != 10
    ensures var n := |line|;
            s[if CRLF_SEPARATOR[..2] <= s[n..] then n + 2 else if n < |s| then n + 1 else n..] == rest
  {
    var n := |line|;
    assert CRLF_SEPARATOR[..2] == [13, 10];
    assert s[n..] == end + rest && s[n + |end|..] == rest;
    assert end != [] ==> s[n..][0] == end[0];
    assert |end| == 1 && rest != [] ==> s[n..][1] == rest[0];
    if end == [13, 10] {
      assert s[n..][..2] == [13, 10];
    }
  }

  lemma {:induction false} WrittenDataLines(lines: seq<Line>, ends: seq<seq<byte>>)
    requires IsFrame(lines, ends)
    ensures DataLines(SplitLines(Written(lines, ends))) == Texts(lines)
    decreases |lines|
  {
    hide SplitLines, DataLines;
    if lines == [] {
      NoLines();
    } else {
      var line, end, rest := lines[0], ends[0], Written(lines[1..], ends[1..]);
      RestIsFrame(lines, ends);
      assert line in lines;
      DataOfLine(line, SplitLines(rest));
      if end == [] && Bytes(line) == [] {
        assert Written(lines, ends) == [];
        NoLines();
        WrittenDataLines(lines[1..], ends[1..]);
      } else if end == [13] && rest != [] && rest[0] == 10 {
        FirstLine(Bytes(line), end, rest);
        LoneLineFeed(lines[1..], ends[1..]);
        RestIsFrame(lines[1..], ends[1..]);
        var more := Written(lines[2..], ends[2..]);
        assert lines[1..][1..] == lines[2..] && ends[1..][1..] == ends[2..];
        assert rest[1..] == more;
        DataOfLine(line, SplitLines(more));
        WrittenDataLines(lines[2..], ends[2..]);
      } else {
        FirstLine(Bytes(line), end, rest);
        WrittenDataLines(lines[1..], ends[1..]);
      }
    }
  }

  lemma NoLines()
    ensures SplitLines([]) == [] && DataLines([]) == []
  {
  }

  lemma RestIsFrame(lines: seq<Line>, ends: seq<seq<byte>>)
    requires IsFrame(lines, ends) && lines != []
    ensures IsFrame(lines[1..], ends[1..]) && (ends[0] == [] ==> lines[1..] == [])
  {
    assert forall line | line in lines[1..] :: line in lines;
  }

  /** A frame that begins with a line feed begins with an empty line. */
  lemma LoneLineFeed(lines: seq<Line>, ends: seq<seq<byte>>)
    requires IsFrame(lines, ends) && Written(lines, ends) != [] && Written(lines, ends)[0] == 10
    ensures lines != [] && lines[0] == Other([]) && Written(lines, ends)[1..] == Written(lines[1..], ends[1..])
  {
    assert lines[0] in lines;
    var rest := ends[0] + Written(lines[1..], ends[1..]);
    FirstByte(lines[0], rest);
    assert Bytes(lines[0]) + rest == rest;
  }

  lemma FirstByte(line: Line, rest: seq<byte>)
    requires IsWritable(line)
    ensures Bytes(line) != [] ==> (Bytes(line) + rest)[0] != 10
    ensures Bytes(line) == [] ==> line == Other([])
  {
    if Bytes(line) != [] {
      assert Bytes(line)[0] in Bytes(line);
    }
  }

  lemma {:induction false} JoinedByLineFeeds(texts: seq<seq<byte>>)
    requires texts != []
    ensures Join([LF], texts) == OnePerLine(texts)
  {
    if |texts| > 1 {
      JoinedByLineFeeds(texts[1..]);
    }
  }

  /** What the decoder's answer makes of a frame's data. */
  function Verdict(answer: Decoded): Payload {
    match answer
    case NotJson => NoPayload
    case DecodeRaises => PayloadRaises
    case Parsed(value) => if value.Obj? then Payload(value) else NoPayload
  }

  /**
   * A frame means what the decoder makes of the texts of its data lines, one per line, without `data:` and the white
   * space after it; lines of any other kind do not count, and without a data line there is no payload.
   */
  lemma FrameReachesTheDecoder(lines: seq<Line>, ends: seq<seq<byte>>, decode: Decoder)
    requires IsFrame(lines, ends)
    ensures PayloadOf(Written(lines, ends), decode) ==
            if Texts(lines) == [] then NoPayload else Verdict(decode(OnePerLine(Texts(lines))))
  {
    hide SplitLines, DataLines;
    WrittenDataLines(lines, ends);
    if Texts(lines) != [] {
      JoinedByLineFeeds(Texts(lines));
    }
  }

  lemma {:induction false} SpaceFirst(s: seq<byte>) returns (space: seq<byte>, text: seq<byte>)
    requires IsOneLine(s)
    ensures space + text == s && IsWritable(Data(space, text))
  {
    if s != [] && (s[0] == 9 || s[0] == 11 || s[0] == 12 || s[0] == 32) {
      assert forall b | b in s[1..] :: b in s;
      var more;
      more, text := SpaceFirst(s[1..]);
      space := [s[0]] + more;
      assert s == [s[0]] + s[1..];
    } else {
      space, text := [], s;
    }
  }

  lemma LineOf(s: seq<byte>) returns (line: Line)
    requires IsOneLine(s)
    ensures IsWritable(line) && Bytes(line) == s
  {
    if [100, 97, 116, 97, 58] <= s {
      assert forall b | b in s[5..] :: b in s;
      var space, text := SpaceFirst(s[5..]);
      line := Data(space, text);
      assert s == [100, 97, 116, 97, 58] + s[5..];
    } else {
      line := Other(s);
    }
  }

  /** Any text is one line, its end, and the rest. */
  lemma {:induction false} LineFirst(s: seq<byte>) returns (line: seq<byte>, end: seq<byte>, rest: seq<byte>)
    requires s != []
    ensures IsOneLine(line) && line + (end + rest) == s && |rest| < |s|
    ensures end == [10] || end == [13] || (end == [] && rest == [])
  {
    if s[0] == 10 || s[0] == 13 {
      line, end, rest := [], s[..1], s[1..];
    } else if |s| == 1 {
      line, end, rest := s, [], [];
    } else {
      line, end, rest := LineFirst(s[1..]);
      line := [s[0]] + line;
      assert s == [s[0]] + s[1..];
    }
  }

  /** Every frame is such a text, so nothing else can reach the decoder. */
  lemma {:induction false} EveryFrameIsWritten(frame: seq<byte>) returns (lines: seq<Line>, ends: seq<seq<byte>>)
    ensures IsFrame(lines, ends) && Written(lines, ends) == frame
    decreases |frame|
  {
    lines, ends := [], [];
    if frame != [] {
      hide IsWritable, Bytes, IsOneLine;
      var s, end, rest := LineFirst(frame);
      var line := LineOf(s);
      var others, otherEnds := EveryFrameIsWritten(rest);
      if rest == [] {
        others, otherEnds := [], [];
      }
      lines, ends := [line] + others, [end] + otherEnds;
      assert lines[1..] == others && ends[1..] == otherEnds;
    }
  }

  // ---------------------------------------------------------------- one payload

  type Namespace = seq<string>

  datatype Observation = Observation(runId: string, timestampMs: int)

  /** What one payload did: nothing, one observation, or an exception that escapes `feed`. */
  datatype Effect = Nothing | Observed(observation: Observation) | Raises

  datatype Core = Core(runId: Option<string>, ai: set<Namespace>, observed: set<Namespace>)

  function NamespaceParts(items: seq<Json>): Option<Namespace> {
    if items == [] then Some([])
    else if !items[0].Str? then None
    else
      match NamespaceParts(items[1..])
      case None => None
      case Some(rest) => Some([items[0].text] + rest)
  }

  /** `int(timestamp)`: truncation toward zero. */
  function Truncate(r: real): int {
    if r >= 0.0 then r.Floor else -(-r).Floor
  }

  /** The run id of a `synth:<run>:...` event id: the middle part of a three-way split at the first two colons. */
  function SynthRunId(eventId: string): Option<string> {
    var first := Find(eventId, ":");
    if first < 0 || eventId[..first] != "synth" then None else
    var rest := eventId[first + 1..];
    var second := Find(rest, ":");
    if second <= 0 then None else Some(rest[..second])
  }

  function LifecycleResult(core: Core, payload: Json, data: Json): Core {
    match payload.Get("event_id")
    case Some(Str(eventId)) =>
      var run := SynthRunId(eventId);
      if run.Some? && data.Has("event", "running") then Core(run, {}, {}) else core
    case _ => core
  }

  /** The text of a non-empty text delta. */
  predicate IsTextDelta(data: Json) {
    match data.Get("delta")
    case Some(delta) =>
      delta.Obj? && delta.Has("type", "text-delta") && delta.Get("text").Some? &&
      delta.Get("text").value.Str? && delta.Get("text").value.text != ""
    case None => false
  }

  function ObserveResult(core: Core, payload: Json): (Core, Effect) {
    match payload.Get("params")
    case Some(params) =>
      if !params.Obj? || params.Get("namespace").None? || !params.Get("namespace").value.Arr? then (core, Nothing) else
      var parts := NamespaceParts(params.Get("namespace").value.items);
      if parts.None? || params.Get("data").None? || !params.Get("data").value.Obj? then (core, Nothing) else
      var namespace, data := parts.value, params.Get("data").value;
      if payload.Has("method", "lifecycle") && namespace == [] then (LifecycleResult(core, payload, data), Nothing)
      else if !payload.Has("method", "messages") then (core, Nothing)
      else if data.Has("event", "message-start") then
        if data.Has("role", "ai") then
          (core.(ai := core.ai + {namespace}, observed := core.observed - {namespace}), Nothing)
        else (core, Nothing)
      else if data.Has("event", "message-finish") then
        (core.(ai := core.ai - {namespace}, observed := core.observed - {namespace}), Nothing)
      else if !data.Has("event", "content-block-delta") || namespace !in core.ai then (core, Nothing)
      else if !IsTextDelta(data) || namespace in core.observed || core.runId.None? then (core, Nothing)
      else ObserveText(core, namespace, params.Get("timestamp"))
    case None => (core, Nothing)
  }

  /** The namespace is recorded before the timestamp is converted, so a non-finite one raises with it recorded. */
  function ObserveText(core: Core, namespace: Namespace, timestamp: Option<Json>): (Core, Effect)
    requires core.runId.Some?
  {
    var recorded := core.(observed := core.observed + {namespace});
    match timestamp
    case Some(Int(n)) => (recorded, Observed(Observation(core.runId.value, n)))
    case Some(Float(r)) => (recorded, Observed(Observation(core.runId.value, Truncate(r))))
    case Some(NonFinite) => (recorded, Raises)
    case _ => (core, Nothing)
  }

  // ---------------------------------------------------------------- feed

  datatype State = State(buffer: seq<byte>, core: Core)

  datatype Outcome = Returned(observations: seq<Observation>) | Raised

  function Step(core: Core, frame: seq<byte>, decode: Decoder): (Core, Effect) {
    match PayloadOf(frame, decode)
    case NoPayload => (core, Nothing)
    case PayloadRaises => (core, Raises)
    case Payload(value) => ObserveResult(core, value)
  }

  /** What is done with one frame; the detector's is `Step` with its JSON decoder. */
  type Handler = (Core, seq<byte>) -> (Core, Effect)

  function After(effect: Effect, later: Outcome): Outcome {
    match effect
    case Raises => Raised
    case Nothing => later
    case Observed(o) => if later.Raised? then Raised else Returned([o] + later.observations)
  }

  /** Consume every complete frame of the buffer, stopping at the first exception. */
  function Drain(state: State, handle: Handler): (State, Outcome)
    decreases |state.buffer|
  {
    var cut := FirstCut(state.buffer);
    if cut.None? then (state, Returned([])) else
    var (core, effect) := handle(state.core, state.buffer[..cut.value.index]);
    var rest := State(state.buffer[cut.value.index + cut.value.length..], core);
    if effect.Raises? then (rest, Raised) else
    var (final, later) := Drain(rest, handle);
    (final, After(effect, later))
  }

  function FeedResult(state: State, chunk: seq<byte>, handle: Handler): (State, Outcome) {
    Drain(Append(state, chunk), handle)
  }

  /** Feed the chunks in order; like the caller's loop, stop when one raises. */
  function FeedAll(state: State, chunks: seq<seq<byte>>, handle: Handler): (State, Outcome)
    decreases |chunks|
  {
    if chunks == [] then (state, Returned([])) else
    var (next, outcome) := FeedResult(state, chunks[0], handle);
    if outcome.Raised? then (next, Raised) else
    var (final, later) := FeedAll(next, chunks[1..], handle);
    (final, Then(outcome, later))
  }

  /** Both outcomes in order; an exception in either hides what the other returned. */
  function Then(first: Outcome, second: Outcome): Outcome {
    if first.Raised? || second.Raised? then Raised else Returned(first.observations + second.observations)
  }

  lemma AfterThen(effect: Effect, first: Outcome, second: Outcome)
    ensures After(effect, Then(first, second)) == Then(After(effect, first), second)
  {
    if effect.Observed? && first.Returned? && second.Returned? {
      assert [effect.observation] + (first.observations + second.observations) ==
             [effect.observation] + first.observations + second.observations;
    }
  }

  lemma ThenNothing(outcome: Outcome)
    ensures Then(outcome, Returned([])) == outcome == Then(Returned([]), outcome)
  {
    if outcome.Returned? {
      assert outcome.observations + [] == outcome.observations == [] + outcome.observations;
    }
  }

  /** One turn of the loop, with `seen` returned by the turns before it. */
  lemma DrainUnfolds(state: State, handle: Handler, seen: seq<Observation>)
    ensures var cut := FirstCut(state.buffer);
            var (whole, outcome) := Drain(state, handle);
            if cut.None? then (whole, Then(Returned(seen), outcome)) == (state, Returned(seen)) else
            var (core, effect) := handle(state.core, state.buffer[..cut.value.index]);
            var rest := State(state.buffer[cut.value.index + cut.value.length..], core);
            match effect
            case Raises => (whole, Then(Returned(seen), outcome)) == (rest, Raised)
            case Nothing => (whole, outcome) == Drain(rest, handle)
            case Observed(o) =>
              whole == Drain(rest, handle).0 &&
              Then(Returned(seen), outcome) == Then(Returned(seen + [o]), Drain(rest, handle).1)
  {
    hide FirstCut;
    var cut := FirstCut(state.buffer);
    if cut.None? {
      ThenNothing(Returned(seen));
    } else {
      var (core, effect) := handle(state.core, state.buffer[..cut.value.index]);
      var later := Drain(State(state.buffer[cut.value.index + cut.value.length..], core), handle).1;
      if effect.Observed? && later.Returned? {
        assert seen + ([effect.observation] + later.observations) == seen + [effect.observation] + later.observations;
      }
    }
  }

  function Append(state: State, more: seq<byte>): State {
    state.(buffer := state.buffer + more)
  }

  /** Feed `more` after an earlier result; nothing is fed after an exception. */
  function Resume(earlier: (State, Outcome), more: seq<byte>, handle: Handler): (State, Outcome) {
    if earlier.1.Raised? then (Append(earlier.0, more), Raised) else
    var (final, second) := Drain(Append(earlier.0, more), handle);
    (final, Then(earlier.1, second))
  }

  /** Draining, appending and draining again is draining once, from any state and past exceptions. */
  lemma {:induction false} DrainAfterAppend(state: State, more: seq<byte>, handle: Handler)
    ensures Drain(Append(state, more), handle) == Resume(Drain(state, handle), more, handle)
    decreases |state.buffer|
  {
    hide FirstCut;
    var cut := FirstCut(state.buffer);
    if cut.None? {
      var (final, second) := Drain(Append(state, more), handle);
      assert second.Returned? ==> [] + second.observations == second.observations;
    } else {
      CutAfterAppend(state.buffer, more);
      var end := cut.value.index + cut.value.length;
      assert (state.buffer + more)[..cut.value.index] == state.buffer[..cut.value.index];
      assert (state.buffer + more)[end..] == state.buffer[end..] + more;
      var (core, effect) := handle(state.core, state.buffer[..cut.value.index]);
      var rest := State(state.buffer[end..], core);
      var earlier := Drain(rest, handle);
      assert !effect.Raises? ==> Drain(state, handle) == (earlier.0, After(effect, earlier.1));
      hide Drain;
      DrainAfterAppend(rest, more, handle);
      var (_, second) := Drain(Append(earlier.0, more), handle);
      AfterThen(effect, earlier.1, second);
    }
  }

  /** Splitting one chunk in two changes neither the observations nor the final state. */
  lemma ChunkInvariance(state: State, a: seq<byte>, b: seq<byte>, handle: Handler)
    ensures FeedResult(state, a + b, handle) == Resume(FeedResult(state, a, handle), b, handle)
  {
    hide Drain, Resume;
    DrainAfterAppend(Append(state, a), b, handle);
    assert state.buffer + (a + b) == state.buffer + a + b;
  }

  /** No `feed` that returns leaves a complete frame behind. */
  lemma {:induction false} DrainLeavesNoSeparator(state: State, handle: Handler)
    ensures var (final, outcome) := Drain(state, handle);
            outcome.Returned? ==> forall end :: !SeparatorEndsAt(final.buffer, end)
    decreases |state.buffer|
  {
    hide FirstCut;
    var cut := FirstCut(state.buffer);
    CutAtFirstCompleteSeparator(state.buffer);
    if cut.Some? {
      var (core, effect) := handle(state.core, state.buffer[..cut.value.index]);
      DrainLeavesNoSeparator(State(state.buffer[cut.value.index + cut.value.length..], core), handle);
    }
  }

  /**
   * However the stream was chunked, the outcome is that of feeding it whole, and without an exception
   * so is the state. With one, the states differ only in the bytes that were never fed.
   */
  lemma {:induction false} EveryChunkingAgrees(state: State, chunks: seq<seq<byte>>, handle: Handler)
    requires FirstCut(state.buffer).None?
    ensures var (whole, outcome) := FeedResult(state, Concat(chunks), handle);
            var (final, pieces) := FeedAll(state, chunks, handle);
            pieces == outcome && final.core == whole.core && final.buffer <= whole.buffer &&
            (pieces.Returned? ==> final == whole)
    decreases |chunks|
  {
    if chunks == [] {
      assert state.buffer + [] == state.buffer;
    } else {
      ChunkInvariance(state, chunks[0], Concat(chunks[1..]), handle);
      var (mid, first) := FeedResult(state, chunks[0], handle);
      if first.Returned? {
        DrainLeavesNoSeparator(Append(state, chunks[0]), handle);
        CutAtFirstCompleteSeparator(mid.buffer);
        EveryChunkingAgrees(mid, chunks[1..], handle);
      }
    }
  }

  // ---------------------------------------------------------------- observations over a history

  datatype Stamp = Finite(ms: int) | NotFinite

  /** What a payload means to the detector, whatever state the detector is in. */
  datatype Event =
    | RunStart(runId: string)
    | AiStart(namespace: Namespace)
    | Finish(namespace: Namespace)
    | Text(namespace: Namespace, stamp: Stamp)
    | Irrelevant

  function StampOf(timestamp: Option<Json>): Option<Stamp> {
    match timestamp
    case Some(Int(n)) => Some(Finite(n))
    case Some(Float(r)) => Some(Finite(Truncate(r)))
    case Some(NonFinite) => Some(NotFinite)
    case _ => None
  }

  function Classify(payload: Json): Event {
    var params := payload.Get("params").GetOr(Null);
    var namespace := params.Get("namespace").GetOr(Null);
    var data := params.Get("data").GetOr(Null);
    var parts := if namespace.Arr? then NamespaceParts(namespace.items) else None;
    if parts.None? || !data.Obj? then Irrelevant
    else if payload.Has("method", "lifecycle") && parts.value == [] then
      match payload.Get("event_id")
      case Some(Str(eventId)) =>
        if SynthRunId(eventId).Some? && data.Has("event", "running") then RunStart(SynthRunId(eventId).value)
        else Irrelevant
      case _ => Irrelevant
    else if !payload.Has("method", "messages") then Irrelevant
    else if data.Has("event", "message-start") then if data.Has("role", "ai") then AiStart(parts.value) else Irrelevant
    else if data.Has("event", "message-finish") then Finish(parts.value)
    else if data.Has("event", "content-block-delta") && IsTextDelta(data) && StampOf(params.Get("timestamp")).Some? then
      Text(parts.value, StampOf(params.Get("timestamp")).value)
    else Irrelevant
  }

  function Apply(core: Core, event: Event): (Core, Effect) {
    match event
    case RunStart(runId) => (Core(Some(runId), {}, {}), Nothing)
    case AiStart(n) => (core.(ai := core.ai + {n}, observed := core.observed - {n}), Nothing)
    case Finish(n) => (core.(ai := core.ai - {n}, observed := core.observed - {n}), Nothing)
    case Text(n, stamp) =>
      if n !in core.ai || n in core.observed || core.runId.None? then (core, Nothing)
      else (core.(observed := core.observed + {n}),
            if stamp.Finite? then Observed(Observation(core.runId.value, stamp.ms)) else Raises)
    case Irrelevant => (core, Nothing)
  }

  /** The nest of type checks reads every payload as one of five events. */
  lemma ObserveClassifies(core: Core, payload: Json)
    ensures ObserveResult(core, payload) == Apply(core, Classify(payload))
  {
  }

  // ---------------------------------------------------------------- payloads by their fields

  predicate Says(j: Json, key: string, value: Json) {
    j.Obj? && key in j.fields && j.fields[key] == value
  }

  function Strings(names: seq<string>): Json {
    Arr(seq(|names|, i requires 0 <= i < |names| => Str(names[i])))
  }

  /** A payload of this method, for this namespace, whose data is of this event. */
  predicate Sends(payload: Json, kind: string, namespace: Namespace, event: string) {
    payload.Obj? && Says(payload, "method", Str(kind)) && "params" in payload.fields &&
    var params := payload.fields["params"];
    Says(params, "namespace", Strings(namespace)) && "data" in params.fields &&
    Says(params.fields["data"], "event", Str(event))
  }

  /** A finite number, without its fraction. */
  predicate IsWhole(number: Json, ms: int) {
    match number
    case Int(n) => ms == n
    case Float(r) => if r >= 0.0 then ms as real <= r < ms as real + 1.0 else ms as real - 1.0 < r <= ms as real
    case _ => false
  }

  predicate SendsText(payload: Json, namespace: Namespace) {
    Sends(payload, "messages", namespace, "content-block-delta") &&
    var data := payload.fields["params"].fields["data"];
    "delta" in data.fields && Says(data.fields["delta"], "type", Str("text-delta")) &&
    "text" in data.fields["delta"].fields &&
    data.fields["delta"].fields["text"].Str? && data.fields["delta"].fields["text"] != Str("")
  }

  lemma {:induction false} PartsAreStrings(items: seq<Json>, namespace: Namespace)
    ensures NamespaceParts(items) == Some(namespace) <==> Arr(items) == Strings(namespace)
  {
    if items == [] {
      assert namespace == [] <==> Strings(namespace).items == [];
    } else if namespace != [] {
      PartsAreStrings(items[1..], namespace[1..]);
      var names := Strings(namespace).items;
      assert names[1..] == Strings(namespace[1..]).items && names[0] == Str(namespace[0]);
      assert items == [items[0]] + items[1..] && names == [names[0]] + names[1..];
      assert namespace == [namespace[0]] + namespace[1..];
    }
  }

  lemma FirstColon(s: string)
    ensures var i := Find(s, ":");
            (i == -1 <==> ':' !in s) && (i >= 0 ==> i < |s| && s[i] == ':' && ':' !in s[..i])
  {
    hide Find;
    forall i ensures OccursAt(s, ":", i) <==> 0 <= i < |s| && s[i] == ':' {
      ColonAt(s, i);
    }
  }

  lemma ColonAt(s: string, i: int)
    ensures OccursAt(s, ":", i) <==> 0 <= i < |s| && s[i] == ':'
  {
    if 0 <= i < |s| {
      assert s[i..i + 1] == [s[i]];
    }
  }

  /** The run of `synth:<run>:...`: not empty, and up to the next colon. */
  lemma SynthRunIs(eventId: string, run: string)
    ensures SynthRunId(eventId) == Some(run) <==> run != "" && ':' !in run && "synth:" + run + ":" <= eventId
  {
    hide Find;
    FirstColon(eventId);
    var first := Find(eventId, ":");
    if "synth:" + run + ":" <= eventId {
      SynthStarts(eventId, run);
    }
    if first == 5 && eventId[..5] == "synth" {
      var rest := eventId[6..];
      FirstColon(rest);
      UntilColon(rest, Find(rest, ":"), run);
      SynthSplits(eventId, rest, run);
    }
  }

  lemma SynthStarts(eventId: string, run: string)
    requires "synth:" + run + ":" <= eventId
    ensures |eventId| > 5 && eventId[5] == ':' && ':' !in eventId[..5] && eventId[..5] == "synth"
  {
    var whole := "synth:" + run + ":";
    assert eventId[..|whole|] == whole && whole[..5] == "synth";
    assert forall i | 0 <= i < 5 :: eventId[i] == "synth"[i];
    assert eventId[..5] == "synth";
  }

  lemma SynthSplits(eventId: string, rest: string, run: string)
    requires |eventId| > 5 && eventId[..5] == "synth" && eventId[5] == ':' && rest == eventId[6..]
    ensures "synth:" + run + ":" <= eventId <==> run + ":" <= rest
  {
    assert eventId == "synth:" + rest;
    assert "synth:" + run + ":" == "synth:" + (run + ":");
  }

  lemma UntilColon(rest: string, n: int, run: string)
    requires (n == -1 && ':' !in rest) || (0 <= n < |rest| && rest[n] == ':' && ':' !in rest[..n])
    ensures ':' !in run && run + ":" <= rest <==> n >= 0 && rest[..n] == run
  {
    if n >= 0 && rest[..n] == run {
      assert rest[..n + 1] == run + ":";
    }
    if ':' !in run && run + ":" <= rest {
      assert forall k | 0 <= k < |run| :: run[k] == rest[k] && run[k] in run;
      assert rest[|run|] == ':' && rest[|run|] in rest;
      assert forall k | 0 <= k < n :: rest[..n][k] == rest[k] && rest[k] in rest[..n];
      assert n == |run|;
    }
  }

  /** The namespace and data of a payload, where it has them. */
  lemma SendsIsRead(payload: Json, kind: string, namespace: Namespace, event: string)
    ensures var params := payload.Get("params").GetOr(Null);
            var names := params.Get("namespace").GetOr(Null);
            var data := params.Get("data").GetOr(Null);
            Sends(payload, kind, namespace, event) <==>
            payload.Has("method", kind) && names.Arr? && NamespaceParts(names.items) == Some(namespace) &&
            data.Has("event", event)
    ensures Sends(payload, kind, namespace, event) ==>
              payload.Get("params") == Some(payload.fields["params"]) &&
              payload.fields["params"].Get("data") == Some(payload.fields["params"].fields["data"]) &&
              payload.fields["params"].fields["data"].Obj?
  {
    hide NamespaceParts;
    var names := payload.Get("params").GetOr(Null).Get("namespace").GetOr(Null);
    if names.Arr? {
      PartsAreStrings(names.items, namespace);
    }
  }

  /**
   * A run starts exactly when the root's lifecycle says that one is running, under an id of the form `synth:<run>:...`.
   */
  lemma RunStartMeans(payload: Json, run: string)
    ensures Classify(payload) == RunStart(run) <==>
            Sends(payload, "lifecycle", [], "running") && run != "" && ':' !in run && "event_id" in payload.fields &&
            payload.fields["event_id"].Str? && "synth:" + run + ":" <= payload.fields["event_id"].text
  {
    hide SynthRunId, NamespaceParts, Strings, Sends, IsTextDelta;
    SendsIsRead(payload, "lifecycle", [], "running");
    if payload.Obj? && "event_id" in payload.fields && payload.fields["event_id"].Str? {
      SynthRunIs(payload.fields["event_id"].text, run);
    }
  }

  /** A message starts or finishes exactly when the payload says so, and only the start of an AI message counts. */
  lemma StartAndFinishMean(payload: Json, namespace: Namespace)
    ensures Classify(payload) == AiStart(namespace) <==>
            Sends(payload, "messages", namespace, "message-start") &&
            Says(payload.fields["params"].fields["data"], "role", Str("ai"))
    ensures Classify(payload) == Finish(namespace) <==> Sends(payload, "messages", namespace, "message-finish")
  {
    hide SynthRunId, NamespaceParts, Strings, Sends, IsTextDelta, StampOf;
    SendsIsRead(payload, "messages", namespace, "message-start");
    SendsIsRead(payload, "messages", namespace, "message-finish");
  }

  /** A text arrives exactly with a non-empty text delta and a number as its time, which loses its fraction. */
  lemma TextMeans(payload: Json, namespace: Namespace, ms: int)
    ensures Classify(payload) == Text(namespace, Finite(ms)) <==>
            SendsText(payload, namespace) && "timestamp" in payload.fields["params"].fields &&
            IsWhole(payload.fields["params"].fields["timestamp"], ms)
    ensures Classify(payload) == Text(namespace, NotFinite) <==>
            SendsText(payload, namespace) && Says(payload.fields["params"], "timestamp", NonFinite)
  {
    hide SynthRunId, NamespaceParts, Strings, Sends;
    SendsIsRead(payload, "messages", namespace, "content-block-delta");
  }

  function Replay(start: Option<string>, events: seq<Event>): Core {
    if events == [] then Core(start, {}, {})
    else Apply(Replay(start, events[..|events| - 1]), events[|events| - 1]).0
  }

  /** The event makes the detector forget what it knew about the namespace. */
  predicate Resets(event: Event, n: Namespace) {
    event.RunStart? || event == AiStart(n) || event == Finish(n)
  }

  predicate IsText(event: Event, n: Namespace) {
    event.Text? && event.namespace == n
  }

  /** The message open in the namespace started at event `j`. */
  predicate OpenedAt(events: seq<Event>, n: Namespace, j: int) {
    0 <= j < |events| && events[j] == AiStart(n) && forall i | j < i < |events| :: !Resets(events[i], n)
  }

  predicate TextSince(events: seq<Event>, n: Namespace, j: int) {
    exists i :: 0 <= j < i < |events| && IsText(events[i], n)
  }

  /** The id of the latest run start, or the one the detector was built with. */
  function LatestRun(start: Option<string>, events: seq<Event>): Option<string> {
    if events == [] then start
    else if events[|events| - 1].RunStart? then Some(events[|events| - 1].runId)
    else LatestRun(start, events[..|events| - 1])
  }

  /** The two sets, read off the history: the open AI namespaces, and those whose open message has had its text. */
  lemma {:induction false} ReplayedSets(start: Option<string>, events: seq<Event>, n: Namespace)
    ensures Replay(start, events).runId == LatestRun(start, events)
    ensures n in Replay(start, events).ai <==> exists j :: OpenedAt(events, n, j)
    ensures n in Replay(start, events).observed <==>
              LatestRun(start, events).Some? && exists j :: OpenedAt(events, n, j) && TextSince(events, n, j)
  {
    if events != [] {
      var before, last := events[..|events| - 1], events[|events| - 1];
      ReplayedSets(start, before, n);
      forall j | OpenedAt(before, n, j) && !Resets(last, n)
        ensures OpenedAt(events, n, j)
        ensures TextSince(events, n, j) <==> TextSince(before, n, j) || IsText(last, n)
      {
        if TextSince(before, n, j) {
          var i :| 0 <= j < i < |before| && IsText(before[i], n);
          assert IsText(events[i], n);
        }
        if IsText(last, n) {
          assert IsText(events[|events| - 1], n);
        }
        if TextSince(events, n, j) && !IsText(last, n) {
          var i :| 0 <= j < i < |events| && IsText(events[i], n);
          assert IsText(before[i], n);
        }
      }
      forall j | OpenedAt(events, n, j)
        ensures j == |before| || (OpenedAt(before, n, j) && !Resets(last, n))
      {
        if j < |before| {
          assert !Resets(events[|before|], n);
          forall i | j < i < |before| ensures !Resets(before[i], n) {
            assert before[i] == events[i];
          }
        }
      }
      if last == AiStart(n) {
        assert OpenedAt(events, n, |before|);
        assert forall j | OpenedAt(events, n, j) :: j == |before| && !TextSince(events, n, j);
      }
    }
  }

  /**
   * An observation is made exactly when a usable text delta arrives in a namespace whose message is still
   * open, none came before it in that message, and a run is known; it carries the latest run's id.
   * A non-finite timestamp uses up the message in the same way but raises.
   */
  lemma ObservedExactlyOncePerMessage(start: Option<string>, events: seq<Event>, k: int)
    requires 0 <= k < |events|
    ensures var effect := Apply(Replay(start, events[..k]), events[k]).1;
            && (effect.Observed? || effect.Raises? <==>
                  events[k].Text? && LatestRun(start, events[..k]).Some? &&
                  exists j :: OpenedAt(events[..k], events[k].namespace, j) &&
                      !TextSince(events[..k], events[k].namespace, j))
            && (effect.Observed? ==>
                  effect.observation.runId == LatestRun(start, events[..k]).value &&
                  events[k].stamp == Finite(effect.observation.timestampMs))
            && (effect.Raises? ==> events[k].stamp == NotFinite)
  {
    if events[k].Text? {
      var n := events[k].namespace;
      ReplayedSets(start, events[..k], n);
      OpenMessageIsUnique(events[..k], n);
    }
  }

  const LATE_TEXT: Event := Text([], Finite(7))

  /** A first text with a non-finite timestamp raises, and the message's later texts are no longer observed. */
  lemma NonFiniteTimestampRaises()
    ensures var started := [RunStart("r"), AiStart([])];
            var lost := started + [Text([], NotFinite)];
            Apply(Replay(None, started), LATE_TEXT).1 == Observed(Observation("r", 7)) &&
            Apply(Replay(None, started), Text([], NotFinite)).1 == Raises &&
            Apply(Replay(None, lost), LATE_TEXT).1 == Nothing
  {
    var started: seq<Event> := [RunStart("r"), AiStart([])];
    assert started[..1] == [RunStart("r")] && started[..1][..0] == [];
    assert Replay(None, started) == Core(Some("r"), {[]}, {});
    assert (started + [Text([], NotFinite)])[..2] == started;
  }

  lemma OpenMessageIsUnique(events: seq<Event>, n: Namespace)
    ensures forall j, j' :: OpenedAt(events, n, j) && OpenedAt(events, n, j') ==> j == j'
  {
    forall j, j' | OpenedAt(events, n, j) && OpenedAt(events, n, j') ensures j == j' {
      if j < j' {
        assert Resets(events[j'], n);
      } else if j' < j {
        assert Resets(events[j], n);
      }
    }
  }

  predicate ObservesAt(start: Option<string>, events: seq<Event>, k: int) {
    0 <= k < |events| && Apply(Replay(start, events[..k]), events[k]).1.Observed?
  }

  /** Two observations in one namespace always have that namespace's AI message-start between them. */
  lemma ObservationsAreSeparated(start: Option<string>, events: seq<Event>, k: int, k': int)
    requires k < k' && ObservesAt(start, events, k) && ObservesAt(start, events, k')
    requires events[k].Text? && events[k'].Text? && events[k].namespace == events[k'].namespace
    ensures exists j :: k < j < k' && events[j] == AiStart(events[k].namespace)
  {
    var n := events[k].namespace;
    ObservedExactlyOncePerMessage(start, events, k');
    var j :| OpenedAt(events[..k'], n, j) && !TextSince(events[..k'], n, j);
    assert events[j] == AiStart(n);
    if j < k {
      assert IsText(events[..k'][k], n);
    }
  }

  /** Namespaces with an observation stay among the open AI namespaces. */
  lemma {:induction false} ObservedStaysWithinOpen(start: Option<string>, events: seq<Event>)
    ensures Replay(start, events).observed <= Replay(start, events).ai
  {
    forall n | n in Replay(start, events).observed ensures n in Replay(start, events).ai {
      ReplayedSets(start, events, n);
    }
  }

  // ---------------------------------------------------------------- what a stream's frames mean

  /** The complete frames of a buffer, in order. */
  function Frames(buffer: seq<byte>): seq<seq<byte>>
    decreases |buffer|
  {
    match FirstCut(buffer)
    case None => []
    case Some(cut) => [buffer[..cut.index]] + Frames(buffer[cut.index + cut.length..])
  }

  function FrameEvent(frame: seq<byte>, decode: Decoder): Event {
    match PayloadOf(frame, decode)
    case Payload(value) => Classify(value)
    case _ => Irrelevant
  }

  function Events(frames: seq<seq<byte>>, decode: Decoder): seq<Event> {
    seq(|frames|, i requires 0 <= i < |frames| => FrameEvent(frames[i], decode))
  }

  /** What the events make the detector observe, in order. */
  function Observations(start: Option<string>, events: seq<Event>): seq<Observation> {
    if events == [] then [] else
    var front, last := events[..|events| - 1], events[|events| - 1];
    var effect := Apply(Replay(start, front), last).1;
    Observations(start, front) + if effect.Observed? then [effect.observation] else []
  }

  /** The detector raises at this frame: its data cannot be decoded, or its timestamp is not finite. */
  predicate RaisesAt(start: Option<string>, frames: seq<seq<byte>>, decode: Decoder, k: int) {
    0 <= k < |frames| &&
    (PayloadOf(frames[k], decode).PayloadRaises? ||
     Apply(Replay(start, Events(frames[..k], decode)), FrameEvent(frames[k], decode)).1.Raises?)
  }

  ghost predicate Handles(handle: Handler, decode: Decoder) {
    forall core, frame :: handle(core, frame) == Step(core, frame, decode)
  }

  lemma StepIsApplied(core: Core, frame: seq<byte>, decode: Decoder)
    ensures Step(core, frame, decode) ==
            if PayloadOf(frame, decode).PayloadRaises? then (core, Raises) else Apply(core, FrameEvent(frame, decode))
  {
    hide ObserveResult, Classify, Apply, PayloadOf;
    match PayloadOf(frame, decode)
    case Payload(value) => ObserveClassifies(core, value);
    case NoPayload => NothingApplied(core);
    case PayloadRaises =>
  }

  lemma NothingApplied(core: Core)
    ensures Apply(core, Irrelevant) == (core, Nothing)
  {
  }

  lemma OneMoreFrame(start: Option<string>, seen: seq<seq<byte>>, frame: seq<byte>, decode: Decoder)
    ensures var events, more := Events(seen, decode), Events(seen + [frame], decode);
            var (core, effect) := Apply(Replay(start, events), FrameEvent(frame, decode));
            Replay(start, more) == core &&
            Observations(start, more) == Observations(start, events) + if effect.Observed? then [effect.observation]
              else []
  {
    var events, more := Events(seen, decode), Events(seen + [frame], decode);
    assert more == events + [FrameEvent(frame, decode)];
    assert more[..|events|] == events;
  }

  /** Where a frame raises does not depend on the frames after it. */
  lemma RaisesAtLast(start: Option<string>, seen: seq<seq<byte>>, frame: seq<byte>, after: seq<seq<byte>>,
                     decode: Decoder)
    ensures RaisesAt(start, seen + [frame], decode, |seen|) <==>
            PayloadOf(frame, decode).PayloadRaises? ||
            Apply(Replay(start, Events(seen, decode)), FrameEvent(frame, decode)).1.Raises?
    ensures RaisesAt(start, seen + [frame], decode, |seen|) ==> RaisesAt(start, seen + [frame] + after, decode, |seen|)
    ensures forall k | k != |seen| :: RaisesAt(start, seen + [frame], decode, k) ==> RaisesAt(start, seen, decode, k)
  {
    hide Replay, Apply, PayloadOf, FrameEvent, Events;
    var more := seen + [frame];
    assert more[..|seen|] == seen == (more + after)[..|seen|];
    assert more[|seen|] == frame == (more + after)[|seen|];
    forall k | k != |seen| && RaisesAt(start, more, decode, k) ensures RaisesAt(start, seen, decode, k) {
      assert more[..k] == seen[..k] && more[k] == seen[k];
    }
  }

  /** What the detector returns for a stream of these frames: everything observed, unless a frame makes it raise. */
  ghost function OutcomeOf(start: Option<string>, frames: seq<seq<byte>>, decode: Decoder): Outcome {
    if exists k :: RaisesAt(start, frames, decode, k) then Raised
    else Returned(Observations(start, Events(frames, decode)))
  }

  lemma FramesUnfold(seen: seq<seq<byte>>, buffer: seq<byte>)
    ensures match FirstCut(buffer)
            case None => seen + Frames(buffer) == seen
            case Some(cut) =>
              seen + Frames(buffer) == seen + [buffer[..cut.index]] + Frames(buffer[cut.index + cut.length..])
  {
    hide FirstCut;
  }

  /** Draining from the state some frames left is replaying those frames and the buffer's. */
  lemma {:induction false} DrainReplays(start: Option<string>, seen: seq<seq<byte>>, buffer: seq<byte>, handle: Handler,
                                        decode: Decoder)
    requires Handles(handle, decode) && forall k :: !RaisesAt(start, seen, decode, k)
    ensures var (final, outcome) := Drain(State(buffer, Replay(start, Events(seen, decode))), handle);
            var all := seen + Frames(buffer);
            Then(Returned(Observations(start, Events(seen, decode))), outcome) == OutcomeOf(start, all, decode) &&
            (outcome.Returned? ==> final.core == Replay(start, Events(all, decode)))
    decreases |buffer|
  {
    hide FirstCut, Step, Replay, Apply, PayloadOf, FrameEvent, Observations, Drain, Frames, Events, RaisesAt;
    var core, observed := Replay(start, Events(seen, decode)), Observations(start, Events(seen, decode));
    var cut := FirstCut(buffer);
    FramesUnfold(seen, buffer);
    DrainUnfolds(State(buffer, core), handle, observed);
    if cut.Some? {
      var frame, rest := buffer[..cut.value.index], buffer[cut.value.index + cut.value.length..];
      StepIsApplied(core, frame, decode);
      assert handle(core, frame) == Step(core, frame, decode);
      RaisesAtLast(start, seen, frame, Frames(rest), decode);
      if !RaisesAt(start, seen + [frame], decode, |seen|) {
        OneMoreFrame(start, seen, frame, decode);
        assert observed + [] == observed;
        DrainReplays(start, seen + [frame], rest, handle, decode);
      }
    }
  }

  /** The frame's separator is the first one in the two together. */
  ghost predicate EndsFirst(frame: seq<byte>, separator: seq<byte>) {
    (separator == [10, 10] || separator == [13, 10, 13, 10]) &&
    forall end | SeparatorEndsAt(frame + separator, end) :: end >= |frame| + |separator|
  }

  lemma CutAfterFrame(frame: seq<byte>, separator: seq<byte>)
    requires EndsFirst(frame, separator)
    ensures FirstCut(frame + separator) == Some(Cut(|frame|, |separator|))
  {
    hide FirstCut, OccursAt;
    var s := frame + separator;
    EndsWithOne(frame, separator);
    CutAtFirstCompleteSeparator(s);
    CutIsOne(s);
    assert SeparatorEndsAt(s, |s|);
    var cut := FirstCut(s).value;
    assert cut.index + cut.length == |s|;
    assert cut.index == |s| - 4 || cut.index == |s| - 2;
  }

  /** A text that ends with one separator does not end with the other. */
  lemma EndsWithOne(frame: seq<byte>, separator: seq<byte>)
    requires separator == [10, 10] || separator == [13, 10, 13, 10]
    ensures var s := frame + separator;
            (|separator| == 2 ==> OccursAt(s, LF_SEPARATOR, |s| - 2) && !OccursAt(s, CRLF_SEPARATOR, |s| - 4)) &&
            (|separator| == 4 ==> OccursAt(s, CRLF_SEPARATOR, |s| - 4) && !OccursAt(s, LF_SEPARATOR, |s| - 2))
  {
    var s := frame + separator;
    assert s[|frame|..] == separator && s[|s| - 2] == separator[|separator| - 2];
    if |separator| == 2 && |s| >= 4 {
      assert s[|s| - 4..|s|][2] == s[|s| - 2];
    } else if |separator| == 4 {
      assert s[|s| - 2..|s|][0] == s[|s| - 2];
    }
  }

  lemma CutIsOne(s: seq<byte>)
    ensures FirstCut(s).Some? ==>
              var cut := FirstCut(s).value;
              (cut.length == 4 && OccursAt(s, CRLF_SEPARATOR, cut.index)) ||
              (cut.length == 2 && OccursAt(s, LF_SEPARATOR, cut.index))
  {
    hide Find;
  }

  /**
   * Feeding one frame and its separator does what the object in its data lines says, to the state and to the caller;
   * without such an object it does nothing, unless decoding raises.
   */
  lemma FrameIsFed(core: Core, lines: seq<Line>, ends: seq<seq<byte>>, separator: seq<byte>, handle: Handler,
                   decode: Decoder)
    requires Handles(handle, decode) && IsFrame(lines, ends) && EndsFirst(Written(lines, ends), separator)
    ensures var (final, outcome) := FeedResult(State([], core), Written(lines, ends) + separator, handle);
            var answer := if Texts(lines) == [] then NotJson else decode(OnePerLine(Texts(lines)));
            final.buffer == [] &&
            if answer.DecodeRaises? then outcome == Raised && final.core == core
            else if answer.NotJson? || !answer.value.Obj? then outcome == Returned([]) && final.core == core
            else
              var (after, effect) := Apply(core, Classify(answer.value));
              final.core == after &&
              outcome == if effect.Raises? then Raised
                         else Returned(if effect.Observed? then [effect.observation] else [])
  {
    hide FirstCut, Step, Drain, Classify, Apply, PayloadOf, FrameEvent, After;
    var frame := Written(lines, ends);
    FrameIsJudged(core, lines, ends, decode);
    assert handle(core, frame) == Step(core, frame, decode);
    DrainsOne(core, frame, separator, handle);
    assert [] + (frame + separator) == frame + separator;
    EffectAlone(handle(core, frame).1);
  }

  lemma EffectAlone(effect: Effect)
    ensures After(effect, Returned([])) ==
            if effect.Raises? then Raised else Returned(if effect.Observed? then [effect.observation] else [])
  {
    if effect.Observed? {
      assert [effect.observation] + [] == [effect.observation];
    }
  }

  lemma FrameIsJudged(core: Core, lines: seq<Line>, ends: seq<seq<byte>>, decode: Decoder)
    requires IsFrame(lines, ends)
    ensures var answer := if Texts(lines) == [] then NotJson else decode(OnePerLine(Texts(lines)));
            Step(core, Written(lines, ends), decode) ==
            if answer.DecodeRaises? then (core, Raises)
            else if answer.NotJson? || !answer.value.Obj? then (core, Nothing)
            else Apply(core, Classify(answer.value))
  {
    hide PayloadOf, Classify, Apply, ObserveResult;
    var answer := if Texts(lines) == [] then NotJson else decode(OnePerLine(Texts(lines)));
    FrameReachesTheDecoder(lines, ends, decode);
    if answer.Parsed? {
      ObserveClassifies(core, answer.value);
    }
  }

  lemma DrainsOne(core: Core, frame: seq<byte>, separator: seq<byte>, handle: Handler)
    requires EndsFirst(frame, separator)
    ensures var (after, effect) := handle(core, frame);
            Drain(State(frame + separator, core), handle) == (State([], after), After(effect, Returned([])))
  {
    hide FirstCut, EndsFirst, After;
    var s := frame + separator;
    CutAfterFrame(frame, separator);
    assert s[..|frame|] == frame && s[|frame| + |separator|..] == [];
    var (after, effect) := handle(core, frame);
    NothingLeft();
    assert Drain(State([], after), handle) == (State([], after), Returned([]));
    RaisesAlone(effect);
  }

  lemma RaisesAlone(effect: Effect)
    ensures effect.Raises? ==> After(effect, Returned([])) == Raised
  {
  }

  lemma NothingLeft()
    ensures FirstCut([]).None?
  {
  }

  /**
   * End to end: however a stream is chunked, a new detector raises exactly when one of the stream's frames makes it
   * raise, and otherwise returns exactly the observations that the events in the stream's frames give rise to.
   */
  lemma StreamIsObserved(start: Option<string>, chunks: seq<seq<byte>>, handle: Handler, decode: Decoder)
    requires Handles(handle, decode)
    ensures var (final, outcome) := FeedAll(State([], Replay(start, [])), chunks, handle);
            var frames := Frames(Concat(chunks));
            outcome == OutcomeOf(start, frames, decode) &&
            (outcome.Returned? ==> final.core == Replay(start, Events(frames, decode)))
  {
    var unfed := State([], Replay(start, []));
    EveryChunkingAgrees(unfed, chunks, handle);
    assert Append(unfed, Concat(chunks)).buffer == Concat(chunks);
    DrainReplays(start, [], Concat(chunks), handle, decode);
    assert [] + Frames(Concat(chunks)) == Frames(Concat(chunks));
    assert Events([], decode) == [];
    ThenNothing(Drain(Append(unfed, Concat(chunks)), handle).1);
    hide Drain, Frames, FirstCut, Step, FeedAll;
  }

  // ---------------------------------------------------------------- the detector

  class AssistantTextEventDetector {
    const decode: Decoder
    var buffer: seq<byte>
    var runId: Option<string>
    var aiNamespaces: set<Namespace>
    var observedNamespaces: set<Namespace>

    ghost function CoreState(): Core
      reads this
    {
      Core(runId, aiNamespaces, observedNamespaces)
    }

    ghost function Abstract(): State
      reads this
    {
      State(buffer, CoreState())
    }

    ghost function FrameHandler(): Handler {
      (core, frame) => Step(core, frame, decode)
    }

    constructor (runId: Option<string>, decode: Decoder)
      ensures Abstract() == State([], Replay(runId, [])) && this.decode == decode
    {
      this.decode := decode;
      this.buffer, this.runId, this.aiNamespaces, this.observedNamespaces := [], runId, {}, {};
    }

    method PopFrame() returns (frame: Option<seq<byte>>)
      modifies this`buffer
      ensures var cut := FirstCut(old(buffer));
              if cut.None? then frame.None? && buffer == old(buffer)
              else frame == Some(old(buffer)[..cut.value.index]) &&
                   buffer == old(buffer)[cut.value.index + cut.value.length..]
    {
      var cut := FirstCut(buffer);
      if cut.None? {
        return None;
      }
      frame := Some(buffer[..cut.value.index]);
      buffer := buffer[cut.value.index + cut.value.length..];
    }

    method ObserveLifecycle(payload: Json, data: Json)
      modifies this`runId, this`aiNamespaces, this`observedNamespaces
      ensures CoreState() == LifecycleResult(old(CoreState()), payload, data)
    {
      var eventId := payload.Get("event_id");
      if eventId.None? || !eventId.value.Str? {
        return;
      }
      var run := SynthRunId(eventId.value.text);
      if run.None? {
        return;
      }
      if data.Has("event", "running") {
        runId := run;
        aiNamespaces := {};
        observedNamespaces := {};
      }
    }

    method Observe(payload: Json) returns (effect: Effect)
      modifies this`runId, this`aiNamespaces, this`observedNamespaces
      ensures (CoreState(), effect) == ObserveResult(old(CoreState()), payload)
    {
      effect := Nothing;
      var params := payload.Get("params").GetOr(Null);
      var namespaceValue := params.Get("namespace").GetOr(Null);
      if !params.Obj? || !namespaceValue.Arr? {
        return;
      }
      var parts, data := NamespaceParts(namespaceValue.items), params.Get("data").GetOr(Null);
      if parts.None? || !data.Obj? {
        return;
      }
      var namespace := parts.value;
      if payload.Has("method", "lifecycle") && namespace == [] {
        ObserveLifecycle(payload, data);
        return;
      }
      if !payload.Has("method", "messages") {
        return;
      }
      if data.Has("event", "message-start") {
        if data.Has("role", "ai") {
          aiNamespaces := aiNamespaces + {namespace};
          observedNamespaces := observedNamespaces - {namespace};
        }
        return;
      }
      if data.Has("event", "message-finish") {
        aiNamespaces := aiNamespaces - {namespace};
        observedNamespaces := observedNamespaces - {namespace};
        return;
      }
      if !data.Has("event", "content-block-delta") || namespace !in aiNamespaces || !IsTextDelta(data) {
        return;
      }
      if namespace in observedNamespaces || runId.None? {
        return;
      }
      var stamp := StampOf(params.Get("timestamp"));
      if stamp.None? {
        return;
      }
      observedNamespaces := observedNamespaces + {namespace};
      effect := if stamp.value.Finite? then Observed(Observation(runId.value, stamp.value.ms)) else Raises;
    }

    method ObserveFrame(frame: seq<byte>) returns (effect: Effect)
      modifies this`runId, this`aiNamespaces, this`observedNamespaces
      ensures (CoreState(), effect) == FrameHandler()(old(CoreState()), frame)
    {
      effect := Nothing;
      match PayloadOf(frame, decode) {
        case NoPayload =>
        case PayloadRaises => return Raises;
        case Payload(value) => effect := Observe(value);
      }
    }

    /** Every run of the loop computes `FeedResult`, of which the chunking and stream theorems speak. */
    method Feed(chunk: seq<byte>) returns (outcome: Outcome)
      modifies this
      ensures (Abstract(), outcome) == FeedResult(old(Abstract()), chunk, FrameHandler())
    {
      hide FirstCut, Step, Drain, After, Then, FrameHandler;
      buffer := buffer + chunk;
      var observations: seq<Observation> := [];
      ghost var start, handle := Abstract(), FrameHandler();
      ThenNothing(Drain(start, handle).1);
      while true
        invariant handle == FrameHandler() && start == Append(old(Abstract()), chunk)
        invariant Drain(start, handle) == (Drain(Abstract(), handle).0,
                    Then(Returned(observations), Drain(Abstract(), handle).1))
        decreases |buffer|
      {
        ghost var here := Abstract();
        DrainUnfolds(here, handle, observations);
        var frame := PopFrame();
        if frame.None? {
          return Returned(observations);
        }
        var effect := ObserveFrame(frame.value);
        match effect {
          case Raises => return Raised;
          case Nothing =>
          case Observed(observation) => observations := observations + [observation];
        }
      }
    }
  }
}
