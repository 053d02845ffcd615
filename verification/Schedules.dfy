/** Scheduled agent runs: cron expressions, and keeping one live cron for each enabled schedule. */
module Schedules {
  import opened Common

  // ---------------------------------------------------------------- cron expressions

  /** The length of `s` before its first white space. */
  function WordLength(s: string): (n: nat)
    ensures n <= |s|
  {
    if s == "" || IsSpace(s[0]) then 0 else 1 + WordLength(s[1..])
  }

  /** `s.split()`. */
  function Words(s: string): seq<string>
    decreases |s|
  {
    if s == "" then []
    else if IsSpace(s[0]) then Words(s[1..])
    else [s[..1 + WordLength(s[1..])]] + Words(s[1 + WordLength(s[1..])..])
  }

  /** `s.split(c)`. */
  function Split(s: string, c: char): (parts: seq<string>)
    ensures parts != []
    decreases |s|
  {
    var n := LengthBefore(s, c);
    if n == |s| then [s] else [s[..n]] + Split(s[n + 1..], c)
  }

  function DigitsValue(s: string): Option<int> {
    if s == "" then None
    else if !('0' <= s[|s| - 1] <= '9') then None
    else
      var digit := s[|s| - 1] as int - '0' as int;
      var front := s[..|s| - 1];
      if front == "" then Some(digit) else
      var rest := DigitsValue(if front[|front| - 1] == '_' then front[..|front| - 1] else front);
      if rest.None? then None else Some(10 * rest.value + digit)
  }

  /** `int(s)` for a text without white space: a sign, and digits with single underscores between them. */
  function ParseInt(s: string): Option<int> {
    if s != "" && s[0] == '-' then
      var n := DigitsValue(s[1..]);
      if n.None? then None else Some(-n.value)
    else DigitsValue(if s != "" && s[0] == '+' then s[1..] else s)
  }

  predicate ValidValue(value: string, low: int, high: int) {
    ParseInt(value).Some? && low <= ParseInt(value).value <= high
  }

  /** One element of a field's list: `*`, a value or an ascending range, perhaps with a step. */
  predicate ValidSegment(segment: string, low: int, high: int) {
    var n := LengthBefore(segment, '/');
    var start := segment[..n];
    var m := LengthBefore(start, '-');
    segment != "" && (n < |segment| ==> ValidValue(segment[n + 1..], 1, high)) &&
    (start == "*" ||
     if m < |start| then
       ValidValue(start[..m], low, high) && ValidValue(start[m + 1..], low, high) &&
       ParseInt(start[..m]).value <= ParseInt(start[m + 1..]).value
     else ValidValue(start, low, high))
  }

  predicate ValidField(field: string, low: int, high: int) {
    forall segment | segment in Split(field, ',') :: ValidSegment(segment, low, high)
  }

  predicate ValidFields(parts: seq<string>) {
    |parts| == 5 && ValidField(parts[0], 0, 59) && ValidField(parts[1], 0, 23) && ValidField(parts[2], 1, 31) &&
    ValidField(parts[3], 1, 12) && ValidField(parts[4], 0, 7)
  }

  /** `normalize_cron_schedule`. */
  function NormalizeCronSchedule(raw: string): Option<string> {
    var value := Join(" ", Words(Strip(raw)));
    if ValidFields(Split(value, ' ')) then Some(value) else None
  }

  predicate IsWord(s: string) {
    s != "" && forall c | c in s :: !IsSpace(c)
  }

  lemma WordEnds(s: string)
    ensures var n := WordLength(s); (forall c | c in s[..n] :: !IsSpace(c)) && (n < |s| ==> IsSpace(s[n]))
  {
    hide IsSpace;
    if s != "" && !IsSpace(s[0]) {
      WordEnds(s[1..]);
      var n := WordLength(s[1..]);
      assert s[..n + 1] == [s[0]] + s[1..][..n];
    }
  }

  lemma {:induction false} WordsAreWords(s: string)
    ensures forall w | w in Words(s) :: IsWord(w)
    decreases |s|
  {
    hide IsSpace;
    if s != "" {
      if IsSpace(s[0]) {
        WordsAreWords(s[1..]);
      } else {
        var n := WordLength(s[1..]);
        WordEnds(s[1..]);
        WordsAreWords(s[1 + n..]);
        assert s[..1 + n] == [s[0]] + s[1..][..n];
      }
    }
  }

  lemma TailOfJoined(s: string, rest: string)
    requires s != ""
    ensures (s + rest)[0] == s[0] && (s + rest)[1..] == s[1..] + rest
    ensures s[0] in s && forall c | c in s[1..] :: c in s
  {
  }

  lemma {:induction false} WordLengthIs(word: string, rest: string)
    requires (forall c | c in word :: !IsSpace(c)) && (rest == "" || IsSpace(rest[0]))
    ensures WordLength(word + rest) == |word|
  {
    hide IsSpace;
    if word == "" {
      assert word + rest == rest;
    } else {
      TailOfJoined(word, rest);
      WordLengthIs(word[1..], rest);
    }
  }

  lemma FirstWord(word: string, rest: string)
    requires IsWord(word) && (rest == "" || IsSpace(rest[0]))
    ensures Words(word + rest) == [word] + Words(rest)
  {
    hide IsSpace;
    var s := word + rest;
    assert word[0] in word && s[1..] == word[1..] + rest;
    assert forall c | c in word[1..] :: c in word;
    WordLengthIs(word[1..], rest);
    assert s[..|word|] == word && s[|word|..] == rest;
  }

  lemma SpaceIsSpace()
    ensures IsSpace(' ')
  {
  }

  /** Joining words and splitting again gives the words. */
  lemma {:induction false} WordsOfJoined(words: seq<string>)
    requires forall w | w in words :: IsWord(w)
    ensures Words(Join(" ", words)) == words
  {
    SpaceIsSpace();
    hide IsSpace, IsWord;
    if words == [] {
    } else if |words| == 1 {
      assert words[0] in words && words[0] + "" == words[0] && words == [words[0]];
      FirstWord(words[0], "");
    } else {
      assert words[0] in words && forall w | w in words[1..] :: w in words;
      WordsOfJoined(words[1..]);
      var rest := " " + Join(" ", words[1..]);
      assert Join(" ", words) == words[0] + rest;
      FirstWord(words[0], rest);
      assert rest[1..] == Join(" ", words[1..]);
      assert words == [words[0]] + words[1..];
    }
  }

  lemma {:induction false} StripOfWords(s: string)
    requires s == "" || (!IsSpace(s[0]) && !IsSpace(s[|s| - 1]))
    ensures Strip(s) == s
  {
    hide IsSpace;
    assert StripLeft(s) == s && StripRight(s) == s;
  }

  lemma {:induction false} JoinedEnds(words: seq<string>)
    requires (forall w | w in words :: IsWord(w)) && words != []
    ensures var s := Join(" ", words); s != "" && !IsSpace(s[0]) && !IsSpace(s[|s| - 1])
  {
    hide IsSpace;
    assert words[0] in words && words[0][0] in words[0] && words[0][|words[0]| - 1] in words[0];
    if |words| > 1 {
      assert forall w | w in words[1..] :: w in words;
      JoinedEnds(words[1..]);
    }
  }

  /** A normalized schedule is its own normal form. */
  lemma NormalizingIsIdempotent(raw: string)
    ensures var value := NormalizeCronSchedule(raw); value.Some? ==> NormalizeCronSchedule(value.value) == value
  {
    hide ValidFields, IsWord, IsSpace, Strip;
    var words := Words(Strip(raw));
    WordsAreWords(Strip(raw));
    if words != [] {
      JoinedEnds(words);
      StripOfWords(Join(" ", words));
    } else {
      StripOfWords("");
    }
    WordsOfJoined(words);
  }

  lemma SplitStep(s: string, n: nat, c: char)
    requires n <= |s| && LengthBefore(s, c) == n
    ensures Split(s, c) == if n == |s| then [s] else [s[..n]] + Split(s[n + 1..], c)
  {
    hide LengthBefore;
  }

  lemma SplitFirst(first: string, rest: string, c: char)
    requires c !in first
    ensures Split(first, c) == [first]
    ensures Split(first + ([c] + rest), c) == [first] + Split(rest, c)
  {
    hide Split, LengthBefore;
    var s, n := first + ([c] + rest), |first|;
    assert first + "" == first && s[..n] == first && s[n + 1..] == rest;
    BeforeNothing(first, "", c);
    SplitStep(first, n, c);
    BeforeNothing(first, [c] + rest, c);
    SplitStep(s, n, c);
  }

  lemma JoinStep(parts: seq<string>, c: char)
    requires |parts| > 1
    ensures Join([c], parts) == parts[0] + ([c] + Join([c], parts[1..]))
  {
    var rest := Join([c], parts[1..]);
    assert Join([c], parts) == parts[0] + [c] + rest;
    hide Join;
    assert parts[0] + [c] + rest == parts[0] + ([c] + rest);
  }

  lemma JoinOne(part: string, c: char)
    ensures Join([c], [part]) == part
  {
  }

  lemma FirstAndRest(parts: seq<string>)
    requires parts != []
    ensures parts == [parts[0]] + parts[1..] && parts[0] in parts && (|parts| == 1 ==> parts == [parts[0]])
    ensures forall p | p in parts[1..] :: p in parts
  {
  }

  lemma {:induction false} SplitOfJoined(parts: seq<string>, c: char)
    requires parts != [] && forall p | p in parts :: c !in p
    ensures Split(Join([c], parts), c) == parts
  {
    hide *;
    FirstAndRest(parts);
    if |parts| == 1 {
      JoinOne(parts[0], c);
      SplitFirst(parts[0], "", c);
    } else {
      JoinStep(parts, c);
      SplitOfJoined(parts[1..], c);
      SplitFirst(parts[0], Join([c], parts[1..]), c);
    }
  }

  lemma BeforeNothing(s: string, rest: string, c: char)
    requires c !in s && (rest == "" || rest[0] == c)
    ensures LengthBefore(s + rest, c) == |s|
  {
    if s == "" {
      assert s + rest == rest;
    } else {
      assert s[0] in s && (s + rest)[1..] == s[1..] + rest;
      BeforeNothing(s[1..], rest, c);
    }
  }

  /**
   * What is accepted: exactly the texts of five words that are the five fields, whatever white space separates them.
   */
  lemma AcceptedAreFiveFields(raw: string)
    ensures NormalizeCronSchedule(raw).Some? <==> ValidFields(Words(Strip(raw)))
  {
    hide ValidField, IsSpace, Strip, IsWord;
    var words := Words(Strip(raw));
    WordsAreWords(Strip(raw));
    if words == [] {
      assert Split("", ' ') == [""];
    } else {
      forall p | p in words ensures ' ' !in p {
        WordHasNoBlank(p);
      }
      SplitOfJoined(words, ' ');
    }
  }

  lemma WordHasNoBlank(word: string)
    requires IsWord(word)
    ensures ' ' !in word
  {
    SpaceIsSpace();
    hide IsSpace;
  }

  // ---------------------------------------------------------------- what the fields mean

  predicate IsDigit(c: char) {
    '0' <= c <= '9'
  }

  /** Digits, with single underscores between them. */
  predicate IsNumeral(s: string) {
    s != "" && (forall c | c in s :: IsDigit(c) || c == '_') && s[0] != '_' && s[|s| - 1] != '_' &&
    forall i | 0 < i < |s| :: s[i - 1] != '_' || s[i] != '_'
  }

  lemma {:induction false} NumeralsAre(s: string)
    ensures DigitsValue(s).Some? <==> IsNumeral(s)
  {
    if s != "" && IsDigit(s[|s| - 1]) {
      var front := s[..|s| - 1];
      if front != "" {
        var rest := if front[|front| - 1] == '_' then front[..|front| - 1] else front;
        NumeralsAre(rest);
        assert forall i | 0 <= i < |rest| :: rest[i] == s[i];
        if IsNumeral(s) {
          forall c | c in rest ensures IsDigit(c) || c == '_' {
            assert c in s;
          }
        }
        if IsNumeral(rest) {
          forall c | c in s ensures IsDigit(c) || c == '_' {
            var i :| 0 <= i < |s| && s[i] == c;
            assert i < |rest| ==> rest[i] in rest;
          }
        }
      }
    } else if s != "" {
      assert s[|s| - 1] in s;
    }
  }

  lemma {:induction false} DigitsOfDecimal(n: nat)
    ensures DigitsValue(Decimal(n)) == Some(n) && Decimal(n) != "" && forall c | c in Decimal(n) :: IsDigit(c)
  {
    hide Decimal, DigitsValue, IsDigit;
    if n < 10 {
      OneDigit(n);
    } else {
      DigitsOfDecimal(n / 10);
      var front, last := Decimal(n / 10), "0123456789"[n % 10];
      DecimalUnfolds(n);
      OneMoreDigit(front, last, n / 10);
      DigitIs(n % 10);
    }
  }

  lemma OneDigit(n: nat)
    requires n < 10
    ensures DigitsValue(Decimal(n)) == Some(n) && Decimal(n) != "" && forall c | c in Decimal(n) :: IsDigit(c)
  {
  }

  lemma DecimalUnfolds(n: nat)
    requires n >= 10
    ensures Decimal(n) == Decimal(n / 10) + ["0123456789"[n % 10]]
  {
  }

  lemma DigitIs(n: nat)
    requires n < 10
    ensures var c := "0123456789"[n]; IsDigit(c) && c as int == '0' as int + n
  {
  }

  lemma OneMoreDigit(front: string, last: char, n: nat)
    requires front != "" && DigitsValue(front) == Some(n) && (forall c | c in front :: IsDigit(c)) && IsDigit(last)
    ensures DigitsValue(front + [last]) == Some(10 * n + (last as int - '0' as int))
  {
    var s := front + [last];
    assert s[..|s| - 1] == front && front[|front| - 1] in front;
  }

  /** A number's own text reads as the number. */
  lemma NumbersRead(n: nat)
    ensures ParseInt(Decimal(n)) == Some(n) && ParseInt("+" + Decimal(n)) == Some(n)
    ensures ParseInt("-" + Decimal(n)).Some? && ParseInt("-" + Decimal(n)).value + n == 0
  {
    hide DigitsValue, Decimal;
    DigitsOfDecimal(n);
    var s := Decimal(n);
    assert s[0] in s && ("+" + s)[1..] == s && ("-" + s)[1..] == s;
  }

  predicate InRange(text: string, low: int, high: int) {
    ParseInt(text).Some? && low <= ParseInt(text).value <= high
  }

  /** A segment is a star, a number or an ascending range, each in range, and perhaps a step of at least one. */
  lemma SegmentsMean(a: string, b: string, low: int, high: int)
    requires '/' !in a && '-' !in a
    ensures ValidSegment(a, low, high) <==> a == "*" || InRange(a, low, high)
    ensures '/' !in b ==>
              (ValidSegment(a + "-" + b, low, high) <==>
               InRange(a, low, high) && InRange(b, low, high) && ParseInt(a).value <= ParseInt(b).value)
  {
    hide ParseInt;
    CutAt(a, "", '/');
    CutAt(a, "", '-');
    assert a + "" == a && a[..|a|] == a;
    NothingIsNoNumber();
    if '/' !in b {
      var s := a + "-" + b;
      assert s == a + ("-" + b);
      assert '/' !in s;
      CutAt(s, "", '/');
      assert s + "" == s && s[..|s|] == s;
      CutAt(a, "-" + b, '-');
      assert s[..|a|] == a && s[|a| + 1..] == b && s[|a|] == '-' && s != "*";
    }
  }

  lemma StepsMean(base: string, step: string, low: int, high: int)
    requires '/' !in base
    ensures ValidSegment(base + "/" + step, low, high) <==> ValidSegment(base, low, high) && InRange(step, 1, high)
  {
    hide ParseInt, LengthBefore;
    var s := base + "/" + step;
    assert s == base + ("/" + step);
    CutAt(base, "/" + step, '/');
    CutAt(base, "", '/');
    assert base + "" == base && base[..|base|] == base;
    assert s[..|base|] == base && s[|base| + 1..] == step;
    CutAt("", "", '-');
    assert "" + "" == "";
    NothingIsNoNumber();
  }

  lemma NothingIsNoNumber()
    ensures ParseInt("") == None
  {
  }

  lemma CutAt(s: string, rest: string, c: char)
    requires c !in s && (rest == "" || rest[0] == c)
    ensures LengthBefore(s + rest, c) == |s|
  {
    BeforeNothing(s, rest, c);
  }

  /** A field is valid if and only if each element of its list is. */
  lemma ListsMean(first: string, rest: string, low: int, high: int)
    requires ',' !in first
    ensures ValidField(first, low, high) <==> ValidSegment(first, low, high)
    ensures ValidField(first + "," + rest, low, high) <==> ValidSegment(first, low, high) && ValidField(rest, low, high)
  {
    hide ValidSegment;
    SplitFirst(first, rest, ',');
    assert first + "," + rest == first + ([','] + rest);
    assert Split(first, ',') == [first];
    var parts := Split(rest, ',');
    assert forall p :: p in [first] + parts <==> p == first || p in parts;
  }

  /** Five numbers are a schedule exactly in the ranges of minutes, hours, days, months and weekdays. */
  lemma {:induction false} FiveNumbers(minute: nat, hour: nat, day: nat, month: nat, weekday: nat)
    ensures var raw := Join(" ", [Decimal(minute), Decimal(hour), Decimal(day), Decimal(month), Decimal(weekday)]);
            NormalizeCronSchedule(raw) ==
            if minute <= 59 && hour <= 23 && 1 <= day <= 31 && 1 <= month <= 12 && weekday <= 7 then Some(raw) else None
  {
    hide *;
    var words := [Decimal(minute), Decimal(hour), Decimal(day), Decimal(month), Decimal(weekday)];
    NumberIsField(minute, 0, 59);
    NumberIsField(hour, 0, 23);
    NumberIsField(day, 1, 31);
    NumberIsField(month, 1, 12);
    NumberIsField(weekday, 0, 7);
    FiveAre(Decimal(minute), Decimal(hour), Decimal(day), Decimal(month), Decimal(weekday));
  }

  lemma FiveAre(a: string, b: string, c: string, d: string, e: string)
    requires IsWord(a) && IsWord(b) && IsWord(c) && IsWord(d) && IsWord(e)
    ensures var raw := Join(" ", [a, b, c, d, e]);
            NormalizeCronSchedule(raw) ==
            if ValidField(a, 0, 59) && ValidField(b, 0, 23) && ValidField(c, 1, 31) && ValidField(d, 1, 12) &&
               ValidField(e, 0, 7) then Some(raw) else None
  {
    hide *;
    var words := [a, b, c, d, e];
    NormalizesTo(words);
    FieldsAre(words);
  }

  lemma FieldsAre(words: seq<string>)
    ensures ValidFields(words) <==>
            |words| == 5 && ValidField(words[0], 0, 59) && ValidField(words[1], 0, 23) && ValidField(words[2], 1, 31) &&
            ValidField(words[3], 1, 12) && ValidField(words[4], 0, 7)
  {
    hide ValidField;
  }

  lemma NormalizesTo(words: seq<string>)
    requires words != [] && forall w | w in words :: IsWord(w)
    ensures NormalizeCronSchedule(Join(" ", words)) == if ValidFields(words) then Some(Join(" ", words)) else None
  {
    hide ValidFields, IsWord, IsSpace, Strip, Words, Join, Split;
    JoinedEnds(words);
    StripOfWords(Join(" ", words));
    WordsOfJoined(words);
    AcceptedAreFiveFields(Join(" ", words));
  }

  lemma NumberIsField(n: nat, low: int, high: int)
    ensures ValidField(Decimal(n), low, high) <==> low <= n <= high
    ensures IsWord(Decimal(n))
  {
    hide Decimal, ValidSegment, ParseInt, Split;
    var s := Decimal(n);
    NumbersRead(n);
    DigitsOfDecimal(n);
    DigitsAreNoMarks(s);
    ListsMean(s, "", low, high);
    SegmentsMean(s, "", low, high);
  }

  lemma DigitsAreNoMarks(s: string)
    requires s != "" && forall c | c in s :: IsDigit(c)
    ensures '/' !in s && '-' !in s && ',' !in s && s != "*" && IsWord(s)
  {
    assert s[0] in s;
  }

  // ---------------------------------------------------------------- schedules and their crons

  /** The parts of a schedule's record that decide its cron. */
  datatype Record = Record(schedule: string, enabled: bool, cronId: Option<string>)

  /** One schedule's record, and the crons the server runs for it, by id, with their expressions. */
  datatype State = State(record: Option<Record>, crons: map<string, string>)

  /** What the server answers to the creation of a cron: one with an id, one whose id is lost, or none. */
  datatype Creation = Created(id: string) | CreatedWithoutId(id: string) | NotCreated

  /** An enabled schedule has exactly one live cron, with its expression, recorded as its cron; any other has none. */
  predicate Agrees(s: State) {
    if s.record.None? then s.crons == map[]
    else if s.record.value.enabled then
      s.record.value.cronId.Some? && s.crons == map[s.record.value.cronId.value := s.record.value.schedule]
    else s.crons == map[]  && s.record.value.cronId == None
  }

  function CronsAfterCreation(crons: map<string, string>, schedule: string, answer: Creation): map<string, string> {
    if answer.NotCreated? then crons else crons[answer.id := schedule]
  }

  /** `_delete_cron`, which lets a failure pass. */
  function CronsAfterDeletion(crons: map<string, string>, cronId: Option<string>, ok: bool): map<string, string> {
    if ok && cronId.Some? then crons - {cronId.value} else crons
  }

  /** `create_agent_schedule`; the booleans say whether its first put, its clean-up and its last put succeed. */
  function AfterCreate(s: State, schedule: string, putOk: bool, answer: Creation, cleanupOk: bool,
                       reputOk: bool): State
  {
    var record := Record(schedule, true, None);
    if !putOk then s
    else if !answer.Created? then
        State(if cleanupOk then None else Some(record), CronsAfterCreation(s.crons, schedule, answer))
    else State(Some(if reputOk then record.(cronId := Some(answer.id)) else record),
      CronsAfterCreation(s.crons, schedule, answer))
  }

  /** What `update_agent_schedule` does to the cron. */
  predicate NeedsNewCron(existing: Record, updated: Record) {
    updated.enabled && (updated.schedule != existing.schedule || updated.enabled != existing.enabled)
  }

  predicate DropsItsCron(existing: Record, updated: Record) {
    !updated.enabled && existing.cronId.Some?
  }

  /** `update_agent_schedule` on an existing record, with the new schedule and the new switch, if given. */
  function AfterUpdate(s: State, schedule: Option<string>, enabled: Option<bool>, answer: Creation, deleteOk: bool,
                       putOk: bool): State
    requires s.record.Some?
  {
    var existing := s.record.value;
    var updated := Record(schedule.GetOr(existing.schedule), enabled.GetOr(existing.enabled), existing.cronId);
    if NeedsNewCron(existing, updated) then
      var created := CronsAfterCreation(s.crons, updated.schedule, answer);
      if !answer.Created? then s.(crons := created)
      else State(Some(if putOk then updated.(cronId := Some(answer.id)) else existing),
        CronsAfterDeletion(created, existing.cronId, deleteOk))
    else if DropsItsCron(existing, updated) then
      State(Some(if putOk then updated.(cronId := None) else existing),
            CronsAfterDeletion(s.crons, existing.cronId, deleteOk))
    else s.(record := Some(if putOk then updated else existing))
  }

  /**
   * What an update leaves on record: the values given, and the old ones for the rest, unless its cron or its put
   * failed.
   */
  lemma UpdateLeaves(s: State, schedule: Option<string>, enabled: Option<bool>, answer: Creation, deleteOk: bool,
                     putOk: bool)
    requires s.record.Some?
    ensures var was, now := s.record.value, AfterUpdate(s, schedule, enabled, answer, deleteOk, putOk).record;
            var text := if schedule.Some? then schedule.value else was.schedule;
            var on := if enabled.Some? then enabled.value else was.enabled;
            var starts := on && (text != was.schedule || !was.enabled);
            now.Some? &&
            if !putOk || (starts && !answer.Created?) then now.value == was
            else now.value.schedule == text && now.value.enabled == on &&
                 now.value.cronId == if starts then Some(answer.id) else if on then was.cronId else None
  {
  }

  /** `delete_agent_schedule`. */
  function AfterDelete(s: State, deleteOk: bool, removeOk: bool): State
    requires s.record.Some?
  {
    State(if removeOk then None else s.record, CronsAfterDeletion(s.crons, s.record.value.cronId, deleteOk))
  }

  predicate IsFresh(s: State, answer: Creation) {
    answer.NotCreated? || answer.id !in s.crons
  }

  /**
   * Creating keeps the agreement exactly when nothing was stored, or all was, or a missing cron's record was cleaned
   * up.
   */
  lemma CreateAgrees(s: State, schedule: string, putOk: bool, answer: Creation, cleanupOk: bool, reputOk: bool)
    requires s.record == None && Agrees(s) && IsFresh(s, answer)
    ensures Agrees(AfterCreate(s, schedule, putOk, answer, cleanupOk, reputOk)) <==>
            !putOk || (answer.Created? && reputOk) || (answer.NotCreated? && cleanupOk)
  {
    var after := AfterCreate(s, schedule, putOk, answer, cleanupOk, reputOk);
    if putOk && !answer.NotCreated? {
      assert answer.id in after.crons;
    }
  }

  /**
   * Updating keeps the agreement exactly when: a new cron came with its id, the old one was deleted and the record was
   * stored, or no cron came at all; a cron to be dropped was deleted and the record stored, or neither; any other
   * update does.
   */
  lemma UpdateAgrees(s: State, schedule: Option<string>, enabled: Option<bool>, answer: Creation, deleteOk: bool,
                     putOk: bool)
    requires s.record.Some? && Agrees(s) && IsFresh(s, answer)
    ensures var existing := s.record.value;
            var updated := Record(schedule.GetOr(existing.schedule), enabled.GetOr(existing.enabled), existing.cronId);
            Agrees(AfterUpdate(s, schedule, enabled, answer, deleteOk, putOk)) <==>
            if NeedsNewCron(existing, updated) then answer.NotCreated? ||
                (answer.Created? && putOk && (deleteOk || !existing.enabled))
            else DropsItsCron(existing, updated) ==> deleteOk == putOk
  {
    var existing := s.record.value;
    var updated := Record(schedule.GetOr(existing.schedule), enabled.GetOr(existing.enabled), existing.cronId);
    var after := AfterUpdate(s, schedule, enabled, answer, deleteOk, putOk);
    if NeedsNewCron(existing, updated) {
      if !answer.NotCreated? {
        assert answer.id in after.crons;
        if existing.enabled {
          var old' := existing.cronId.value;
          assert old' != answer.id && (old' in after.crons <==> !(answer.Created? && deleteOk));
          if answer.Created? && deleteOk {
            assert after.crons == map[answer.id := updated.schedule];
          }
        } else {
          assert after.crons == map[answer.id := updated.schedule];
        }
      }
    } else if DropsItsCron(existing, updated) {
      assert s.crons - {existing.cronId.value} == map[];
      assert existing.cronId.value in s.crons;
    }
  }

  /** Deleting keeps the agreement exactly when a live cron and its record go together or stay together. */
  lemma DeleteAgrees(s: State, deleteOk: bool, removeOk: bool)
    requires s.record.Some? && Agrees(s)
    ensures Agrees(AfterDelete(s, deleteOk, removeOk)) <==> (s.record.value.enabled ==> deleteOk == removeOk)
  {
    if s.record.value.enabled {
      var id := s.record.value.cronId.value;
      assert id in s.crons && s.crons - {id} == map[];
    }
  }

  // ---------------------------------------------------------------- runs

  datatype Operation =
    | Creating(schedule: string, putOk: bool, answer: Creation, cleanupOk: bool, reputOk: bool)
    | Updating(newSchedule: Option<string>, enabled: Option<bool>, newCron: Creation, deleteOk: bool, storeOk: bool)
    | Deleting(cronDeleteOk: bool, removeOk: bool)

  function Perform(s: State, op: Operation): State {
    match op
    case Creating(schedule, putOk, answer, cleanupOk, reputOk) =>
      if s.record.None? then AfterCreate(s, schedule, putOk, answer, cleanupOk, reputOk) else s
    case Updating(schedule, enabled, answer, deleteOk, putOk) =>
      if s.record.Some? then AfterUpdate(s, schedule, enabled, answer, deleteOk, putOk) else s
    case Deleting(deleteOk, removeOk) => if s.record.Some? then AfterDelete(s, deleteOk, removeOk) else s
  }

  /** The operation completes, or reports that it could not create a cron, and its deletions of crons succeed. */
  predicate Completes(s: State, op: Operation) {
    match op
    case Creating(_, putOk, answer, cleanupOk, reputOk) =>
      putOk && IsFresh(s, answer) && ((answer.Created? && reputOk) || (answer.NotCreated? && cleanupOk))
    case Updating(_, _, answer, deleteOk, putOk) => IsFresh(s, answer) && !answer.CreatedWithoutId? && deleteOk && putOk
    case Deleting(deleteOk, removeOk) => deleteOk && removeOk
  }

  function Run(s: State, ops: seq<Operation>): State {
    if ops == [] then s else Perform(Run(s, ops[..|ops| - 1]), ops[|ops| - 1])
  }

  predicate AllComplete(s: State, ops: seq<Operation>) {
    ops == [] || (AllComplete(s, ops[..|ops| - 1]) && Completes(Run(s, ops[..|ops| - 1]), ops[|ops| - 1]))
  }

  /** After any sequence of completed operations the schedule and its crons agree. */
  lemma {:induction false} SchedulesAndCronsAgree(s: State, ops: seq<Operation>)
    requires Agrees(s) && AllComplete(s, ops)
    ensures Agrees(Run(s, ops))
  {
    if ops != [] {
      var before, op := Run(s, ops[..|ops| - 1]), ops[|ops| - 1];
      SchedulesAndCronsAgree(s, ops[..|ops| - 1]);
      hide Agrees, Run, AfterCreate, AfterUpdate, AfterDelete, NeedsNewCron, DropsItsCron;
      if op.Creating? && before.record.None? {
        CreateAgrees(before, op.schedule, op.putOk, op.answer, op.cleanupOk, op.reputOk);
      } else if op.Updating? && before.record.Some? {
        UpdateAgrees(before, op.newSchedule, op.enabled, op.newCron, op.deleteOk, op.storeOk);
      } else if op.Deleting? && before.record.Some? {
        DeleteAgrees(before, op.cronDeleteOk, op.removeOk);
      }
    }
  }

  /** A deletion that fails unnoticed leaves a cron running for a schedule that is gone. */
  lemma FailedDeletionLeavesACron()
    ensures var s := State(Some(Record("0 9 * * 1", true, Some("c1"))), map["c1" := "0 9 * * 1"]);
            Agrees(s) && var after := AfterDelete(s, false, true);
              after.record == None && "c1" in after.crons && !Agrees(after)
  {
    var s := State(Some(Record("0 9 * * 1", true, Some("c1"))), map["c1" := "0 9 * * 1"]);
    DeleteAgrees(s, false, true);
  }

  /** One schedule as the dashboard's routes see it. */
  class AgentSchedule {
    var record: Option<Record>
    var crons: map<string, string>

    constructor ()
      ensures record == None && crons == map[]
    {
      record := None;
      crons := map[];
    }

    ghost function Now(): State
      reads this
    {
      State(record, crons)
    }

    method CreateCron(schedule: string, answer: Creation) returns (cronId: Option<string>)
      modifies this`crons
      ensures crons == CronsAfterCreation(old(crons), schedule, answer)
      ensures cronId == if answer.Created? then Some(answer.id) else None
    {
      if answer.NotCreated? {
        return None;
      }
      crons := crons[answer.id := schedule];
      cronId := if answer.Created? then Some(answer.id) else None;
    }

    method DeleteCron(cronId: Option<string>, ok: bool)
      modifies this`crons
      ensures crons == CronsAfterDeletion(old(crons), cronId, ok)
    {
      if cronId.None? {
        return;
      }
      if ok {
        crons := crons - {cronId.value};
      }
    }

    /** `create_agent_schedule`. */
    method Create(schedule: string, putOk: bool, answer: Creation, cleanupOk: bool, reputOk: bool) returns (ok: bool)
      requires record == None
      modifies this
      ensures Now() == AfterCreate(old(Now()), schedule, putOk, answer, cleanupOk, reputOk)
      ensures ok == (putOk && answer.Created? && reputOk)
    {
      var value := Record(schedule, true, None);
      if !putOk {
        return false;
      }
      record := Some(value);
      var cronId := CreateCron(schedule, answer);
      if cronId.None? {
        if cleanupOk {
          record := None;
        }
        return false;
      }
      if !reputOk {
        return false;
      }
      record := Some(value.(cronId := cronId));
      ok := true;
    }

    /** `update_agent_schedule`. */
    method Update(schedule: Option<string>, enabled: Option<bool>, answer: Creation, deleteOk: bool, putOk: bool)
      returns (ok: bool)
      requires record.Some?
      modifies this
      ensures Now() == AfterUpdate(old(Now()), schedule, enabled, answer, deleteOk, putOk)
    {
      var existing := record.value;
      var updated := existing;
      if schedule.Some? {
        updated := updated.(schedule := schedule.value);
      }
      if enabled.Some? {
        updated := updated.(enabled := enabled.value);
      }
      var scheduleChanged := updated.schedule != existing.schedule;
      var enabledChanged := updated.enabled != existing.enabled;
      if updated.enabled && (scheduleChanged || enabledChanged) {
        var cronId := CreateCron(updated.schedule, answer);
        if cronId.None? {
          return false;
        }
        DeleteCron(existing.cronId, deleteOk);
        updated := updated.(cronId := cronId);
      } else if !updated.enabled && existing.cronId.Some? {
        DeleteCron(existing.cronId, deleteOk);
        updated := updated.(cronId := None);
      }
      if putOk {
        record := Some(updated);
      }
      ok := putOk;
    }

    /** `delete_agent_schedule`. */
    method Delete(deleteOk: bool, removeOk: bool)
      requires record.Some?
      modifies this
      ensures Now() == AfterDelete(old(Now()), deleteOk, removeOk)
    {
      DeleteCron(record.value.cronId, deleteOk);
      if removeOk {
        record := None;
      }
    }
  }
}
