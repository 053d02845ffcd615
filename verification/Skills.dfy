/** Organization skills: the store that keeps them, and the cursor-paged list. */
module Skills {
  import opened Common
  import opened Sorting
  import Base64

  const MAX_SKILL_NAME_CHARS := 64
  const MAX_ORGANIZATION_SKILLS := 1000

  datatype Skill = Skill(name: string, description: string, instructions: string)

  /** HTTP errors carry their status code; `Invalid` is the error of a model that refuses its fields. */
  datatype Result<+T> = Ok(value: T) | HttpError(status: int) | Invalid

  datatype Page = Page(items: seq<Skill>, next: Option<string>)

  /** What `json.loads` makes of a cursor's bytes. */
  datatype Payload = NotJson | NotAnObject | Object(fields: map<string, Option<string>>)

  type Loads = seq<Base64.Byte> -> Payload

  predicate IsNameCharacter(c: char) {
    'a' <= c <= 'z' || '0' <= c <= '9'
  }

  /** Lower-case words of letters and digits joined by single hyphens. */
  predicate MatchesName(name: string) {
    name != "" && IsNameCharacter(name[0]) &&
    forall i | 0 <= i < |name| :: IsNameCharacter(name[i]) ||
        (name[i] == '-' && i + 1 < |name| && IsNameCharacter(name[i + 1]))
  }

  predicate ValidName(name: string) {
    1 <= |name| <= MAX_SKILL_NAME_CHARS && MatchesName(name)
  }

  // ---------------------------------------------------------------- cursors

  function HexDigit(n: int): (c: char)
    requires 0 <= n < 16
    ensures c as int < 128
  {
    "0123456789abcdef"[n]
  }

  function UnicodeEscape(unit: int): (s: string)
    requires 0 <= unit < 0x1_0000
    ensures forall x | x in s :: x as int < 128
  {
    "\\u" + [HexDigit(unit / 4096), HexDigit(unit / 256 % 16), HexDigit(unit / 16 % 16), HexDigit(unit % 16)]
  }

  function ShortEscape(c: char): string {
    if c == '"' then "\\\"" else if c == '\\' then "\\\\" else if c == '\n' then "\\n" else if c == '\r' then "\\r"
    else if c == '\t' then "\\t" else if c as int == 8 then "\\b" else if c as int == 12 then "\\f" else ""
  }

  lemma ShortEscapeIsAscii(c: char)
    ensures forall x | x in ShortEscape(c) :: x as int < 128
  {
  }

  /** One character of a JSON string, as `json.dumps` writes it. */
  function JsonCharacter(c: char): (s: string)
    ensures forall x | x in s :: x as int < 128
  {
    ShortEscapeIsAscii(c);
    if ShortEscape(c) != "" then ShortEscape(c)
    else if ' ' <= c && c as int < 127 then [c]
    else if c as int < 0x1_0000 then UnicodeEscape(c as int)
    else UnicodeEscape(0xD800 + (c as int - 0x1_0000) / 0x400) + UnicodeEscape(0xDC00 + (c as int - 0x1_0000) % 0x400)
  }

  function JsonCharacters(s: string): (r: string)
    ensures forall x | x in r :: x as int < 128
  {
    if s == "" then "" else JsonCharacter(s[0]) + JsonCharacters(s[1..])
  }

  /** `json.dumps({"name": name})`. */
  function DumpedName(name: string): (s: string)
    ensures forall x | x in s :: x as int < 128
  {
    "{\"name\": \"" + JsonCharacters(name) + "\"}"
  }

  // ---------------------------------------------------------------- reading JSON strings

  function HexValue(c: char): (v: Option<int>)
    ensures v.Some? ==> 0 <= v.value < 16
  {
    if '0' <= c <= '9' then Some(c as int - '0' as int)
    else if 'a' <= c <= 'f' then Some(c as int - 'a' as int + 10)
    else if 'A' <= c <= 'F' then Some(c as int - 'A' as int + 10)
    else None
  }

  /** The unit of an escape `\uXXXX` at the start of `s`. */
  function EscapedUnit(s: string): (unit: Option<int>)
    ensures unit.Some? ==> |s| >= 6 && 0 <= unit.value < 0x1_0000
  {
    if |s| < 6 || s[0] != '\\' || s[1] != 'u' then None else
    var a, b, c, d := HexValue(s[2]), HexValue(s[3]), HexValue(s[4]), HexValue(s[5]);
    if a.None? || b.None? || c.None? || d.None? then None
    else Some(4096 * a.value + 256 * b.value + 16 * c.value + d.value)
  }

  /** The character after the backslash of a short escape. */
  function Unescaped(c: char): Option<char> {
    if c == '"' || c == '\\' || c == '/' then Some(c)
    else if c == 'n' then Some('\n')
    else if c == 'r' then Some('\r')
    else if c == 't' then Some('\t')
    else if c == 'b' then Some(8 as char)
    else if c == 'f' then Some(12 as char)
    else None
  }

  /** The first character of a JSON string's inside, and how much of it that takes (section 7 of RFC 8259). */
  function FirstCharacter(s: string): (r: Option<(char, nat)>)
    ensures r.Some? ==> 1 <= r.value.1 <= |s|
  {
    if s == "" || s[0] < ' ' || s[0] == '"' then None
    else if s[0] != '\\' then Some((s[0], 1))
    else if |s| < 2 then None
    else if s[1] != 'u' then
      match Unescaped(s[1])
      case Some(c) => Some((c, 2))
      case None => None
    else
      match EscapedUnit(s)
      case None => None
      case Some(high) =>
        if !(0xD800 <= high < 0xE000) then Some((high as char, 6)) else
        match EscapedUnit(s[6..])
        case Some(low) =>
          if high < 0xDC00 <= low < 0xE000 then
            Some(((0x1_0000 + (high - 0xD800) * 0x400 + (low - 0xDC00)) as char, 12))
          else None
        case None => None
  }

  function ReadCharacters(s: string): Option<string>
    decreases |s|
  {
    if s == "" then Some("") else
    match FirstCharacter(s)
    case None => None
    case Some((c, n)) =>
      match ReadCharacters(s[n..])
      case None => None
      case Some(rest) => Some([c] + rest)
  }

  lemma HexDigitReads(n: int)
    requires 0 <= n < 16
    ensures HexValue(HexDigit(n)) == Some(n)
  {
  }

  lemma HexDigitsOf(unit: int)
    requires 0 <= unit < 0x1_0000
    ensures 4096 * (unit / 4096) + 256 * (unit / 256 % 16) + 16 * (unit / 16 % 16) + unit % 16 == unit
    ensures 0 <= unit / 4096 < 16
  {
  }

  lemma UnicodeEscapeReads(unit: int, rest: string)
    requires 0 <= unit < 0x1_0000
    ensures |UnicodeEscape(unit)| == 6 && EscapedUnit(UnicodeEscape(unit) + rest) == Some(unit)
  {
    hide HexDigit, HexValue;
    HexDigitsOf(unit);
    HexDigitReads(unit / 4096);
    HexDigitReads(unit / 256 % 16);
    HexDigitReads(unit / 16 % 16);
    HexDigitReads(unit % 16);
    var s := UnicodeEscape(unit);
    assert forall i | 0 <= i < 6 :: (s + rest)[i] == s[i];
  }

  /** A written character is read back, whatever follows it. */
  lemma CharacterReads(c: char, rest: string)
    ensures var s := JsonCharacter(c); FirstCharacter(s + rest) == Some((c, |s|))
  {
    hide UnicodeEscape, EscapedUnit;
    var s, n := JsonCharacter(c), c as int;
    if ShortEscape(c) != "" {
      assert (s + rest)[0] == '\\' && (s + rest)[1] == s[1];
    } else if ' ' <= c && n < 127 {
      assert (s + rest)[0] == c;
    } else if n < 0x1_0000 {
      UnicodeEscapeReads(n, rest);
      EscapeStarts(n, rest);
    } else {
      var high, low := 0xD800 + (n - 0x1_0000) / 0x400, 0xDC00 + (n - 0x1_0000) % 0x400;
      SupplementaryIsBelow(c);
      UnicodeEscapeReads(high, UnicodeEscape(low) + rest);
      UnicodeEscapeReads(low, rest);
      EscapeStarts(high, UnicodeEscape(low) + rest);
      assert s + rest == UnicodeEscape(high) + (UnicodeEscape(low) + rest);
      assert (s + rest)[6..] == UnicodeEscape(low) + rest;
    }
  }

  lemma SupplementaryIsBelow(c: char)
    ensures c as int < 0x11_0000
  {
  }

  lemma EscapeStarts(unit: int, rest: string)
    requires 0 <= unit < 0x1_0000
    ensures var s := UnicodeEscape(unit) + rest; |s| >= 6 && s[0] == '\\' && s[1] == 'u'
  {
  }

  /** Every text that is written as a JSON string is read back from it. */
  lemma {:induction false} JsonRoundTrip(text: string)
    ensures ReadCharacters(JsonCharacters(text)) == Some(text)
  {
    if text != "" {
      hide JsonCharacter, FirstCharacter;
      var first, rest := JsonCharacter(text[0]), JsonCharacters(text[1..]);
      CharacterReads(text[0], rest);
      JsonRoundTrip(text[1..]);
      assert (first + rest)[|first|..] == rest;
      assert text == [text[0]] + text[1..];
    }
  }

  /** What a cursor holds: an object with one member, the name as a JSON string. */
  lemma DumpedNameReads(name: string)
    ensures DumpedName(name) == "{\"name\": \"" + JsonCharacters(name) + "\"}"
    ensures ReadCharacters(JsonCharacters(name)) == Some(name)
    ensures ValidName(name) ==> DumpedName(name) == "{\"name\": \"" + name + "\"}"
  {
    hide JsonCharacters, ReadCharacters;
    JsonRoundTrip(name);
    if ValidName(name) {
      NamesNeedNoEscape(name);
    }
  }

  /** The valid names: up to 64 lower-case letters, digits and single inner hyphens. */
  lemma ValidNamesAre(name: string)
    ensures ValidName(name) <==>
            1 <= |name| <= 64 && (forall c | c in name :: 'a' <= c <= 'z' || '0' <= c <= '9' || c == '-') &&
            name[0] != '-' && name[|name| - 1] != '-' &&
            forall i | 0 < i < |name| :: name[i - 1] != '-' || name[i] != '-'
  {
    if ValidName(name) {
      assert forall i | 0 <= i < |name| :: IsNameCharacter(name[i]) || name[i] == '-';
    } else if |name| > 0 && forall c | c in name :: 'a' <= c <= 'z' || '0' <= c <= '9' || c == '-' {
      assert forall i | 0 <= i < |name| :: name[i] in name;
    }
  }

  /** The bytes of a text that is all ASCII. */
  function Ascii(s: string): (bytes: seq<Base64.Byte>)
    requires forall c | c in s :: c as int < 128
    ensures |bytes| == |s|
  {
    if s == "" then [] else
    assert s[0] in s && forall c | c in s[1..] :: c in s;
    var first: Base64.Byte := s[0] as int;
    [first] + Ascii(s[1..])
  }

  function EncodeCursor(name: string): string {
    Base64.StripPadding(Base64.Encode(Ascii(DumpedName(name))))
  }

  function DecodeCursor(cursor: Option<string>, loads: Loads): Result<string> {
    if cursor.None? then Ok("") else
    if cursor.value == "" then HttpError(400) else
    var bytes := Base64.Decode(Base64.Pad(cursor.value));
    if bytes.None? then HttpError(400) else
    var payload := loads(bytes.value);
    if !payload.Object? || payload.fields.Keys != {"name"} then HttpError(400) else
    var name := payload.fields["name"];
    if name.None? || !(1 <= |name.value| <= MAX_SKILL_NAME_CHARS) || !MatchesName(name.value) then HttpError(400)
    else Ok(name.value)
  }

  /** The JSON reader reads back the objects the JSON writer makes of names. */
  ghost predicate ReadsBack(loads: Loads) {
    forall name | ValidName(name) :: loads(Ascii(DumpedName(name))) == Object(map["name" := Some(name)])
  }

  /** A name's cursor decodes to the name. */
  lemma CursorRoundTrip(name: string, loads: Loads)
    requires ReadsBack(loads) && ValidName(name)
    ensures DecodeCursor(Some(EncodeCursor(name)), loads) == Ok(name)
  {
    hide MatchesName, DumpedName, Base64.Decode, Base64.Pad, Base64.Encode, Base64.StripPadding;
    Base64.UnpaddedRoundTrip(Ascii(DumpedName(name)));
    DumpedIsNotEmpty(name);
  }

  /**
   * No cursor is the start of the list. A cursor decodes to a name exactly when it is Base64 for an object whose only
   * member is that name, a valid one; every other cursor is a 400.
   */
  lemma CursorsDecodeTo(cursor: Option<string>, name: string, loads: Loads)
    ensures DecodeCursor(cursor, loads) == Ok("") <==> cursor == None
    ensures cursor.Some? ==> (DecodeCursor(cursor, loads) == Ok(name) <==>
              cursor.value != "" && ValidName(name) &&
              exists bytes :: Base64.Decode(Base64.Pad(cursor.value)) == Some(bytes) &&
                              loads(bytes) == Object(map["name" := Some(name)]))
    ensures !DecodeCursor(cursor, loads).Ok? ==> DecodeCursor(cursor, loads) == HttpError(400)
  {
    hide MatchesName, Base64.Decode, Base64.Pad;
    if DecodeCursor(cursor, loads) == Ok(name) && cursor.Some? {
      var bytes := Base64.Decode(Base64.Pad(cursor.value)).value;
      assert loads(bytes).fields == map["name" := Some(name)];
    }
  }

  lemma DumpedIsNotEmpty(name: string)
    ensures DumpedName(name) != ""
  {
  }

  lemma NameCharacterPrints(c: char)
    requires IsNameCharacter(c) || c == '-'
    ensures JsonCharacter(c) == [c]
  {
  }

  lemma {:induction false} NamesNeedNoEscape(name: string)
    requires forall c | c in name :: IsNameCharacter(c) || c == '-'
    ensures JsonCharacters(name) == name
  {
    if name != "" {
      hide JsonCharacter, IsNameCharacter;
      assert name[0] in name && forall c | c in name[1..] :: c in name;
      NameCharacterPrints(name[0]);
      NamesNeedNoEscape(name[1..]);
      assert name == [name[0]] + name[1..];
    }
  }

  /** A cursor the list hands out is one its route accepts: at most 256 characters. */
  lemma CursorFits(name: string)
    requires ValidName(name)
    ensures |EncodeCursor(name)| <= 256
  {
    hide Base64.Encode, Base64.StripPadding;
    NamesNeedNoEscape(name);
    Base64.UnpaddedRoundTrip(Ascii(DumpedName(name)));
  }

  // ---------------------------------------------------------------- the list

  function NameOf(skill: Skill): string {
    skill.name
  }

  function ByName(): (Skill, Skill) -> bool {
    (a: Skill, b: Skill) => AtMost(a.name, b.name)
  }

  /** The stored skills with a name after `after`; an entry without a record is skipped. */
  function NamedAfter(stored: seq<Option<Skill>>, after: string): seq<Skill> {
    if stored == [] then [] else
    var rest := NamedAfter(stored[..|stored| - 1], after);
    var last := stored[|stored| - 1];
    if last.Some? && !AtMost(last.value.name, after) then rest + [last.value] else rest
  }

  function Remaining(stored: seq<Option<Skill>>, after: string): seq<Skill> {
    Sort(NamedAfter(stored, after), ByName())
  }

  /** `list_organization_skills`; the store returns at most one item more than the limit of skills. */
  function ListOrganizationSkills(stored: seq<Option<Skill>>, limit: nat, cursor: Option<string>,
                                  loads: Loads): Result<Page>
    requires limit >= 1
  {
    match DecodeCursor(cursor, loads)
    case HttpError(status) => HttpError(status)
    case Invalid => Invalid
    case Ok(after) =>
      var items := FirstN(stored, MAX_ORGANIZATION_SKILLS + 1);
      if |items| > MAX_ORGANIZATION_SKILLS then HttpError(409) else
      var skills := Remaining(items, after);
      var page := FirstN(skills, limit);
      Ok(Page(page, if |skills| > limit then Some(EncodeCursor(page[|page| - 1].name)) else None))
  }

  /** A store as its writers keep it. */
  ghost predicate Listable(stored: seq<Option<Skill>>) {
    |stored| <= MAX_ORGANIZATION_SKILLS &&
    (forall i | 0 <= i < |stored| && stored[i].Some? :: ValidName(stored[i].value.name)) &&
    NamesDiffer(stored)
  }

  ghost predicate NamesDiffer(stored: seq<Option<Skill>>) {
    forall i, j | 0 <= i < j < |stored| && stored[i].Some? &&
        stored[j].Some? :: stored[i].value.name != stored[j].value.name
  }

  predicate Before(a: Skill, b: Skill) {
    AtMost(a.name, b.name) && a.name != b.name
  }

  ghost predicate StrictlySorted(s: seq<Skill>) {
    forall i, j | 0 <= i < j < |s| :: Before(s[i], s[j])
  }

  lemma {:induction false} NamedAfterAre(stored: seq<Option<Skill>>, after: string)
    ensures forall skill :: skill in NamedAfter(stored, after) <==> Some(skill) in stored && !AtMost(skill.name, after)
  {
    if stored != [] {
      var front, last := stored[..|stored| - 1], stored[|stored| - 1];
      NamedAfterAre(front, after);
      assert stored == front + [last];
    }
  }

  lemma LastDiffers(stored: seq<Option<Skill>>, skill: Skill)
    requires NamesDiffer(stored) && stored != [] && stored[|stored| - 1].Some? && Some(skill) in stored[..|stored| - 1]
    ensures skill.name != stored[|stored| - 1].value.name
  {
    var k :| 0 <= k < |stored| - 1 && stored[..|stored| - 1][k] == Some(skill);
    assert stored[k] == Some(skill);
  }

  lemma FrontDiffers(stored: seq<Option<Skill>>)
    requires NamesDiffer(stored) && stored != []
    ensures NamesDiffer(stored[..|stored| - 1])
  {
  }

  lemma {:induction false} NamedAfterAreDistinct(stored: seq<Option<Skill>>, after: string)
    requires NamesDiffer(stored)
    ensures DistinctKeys(NameOf, NamedAfter(stored, after))
  {
    hide AtMost, NamesDiffer;
    if stored != [] {
      var front, last := stored[..|stored| - 1], stored[|stored| - 1];
      FrontDiffers(stored);
      NamedAfterAreDistinct(front, after);
      NamedAfterAre(front, after);
      var rest := NamedAfter(front, after);
      if last.Some? {
        forall skill | skill in rest ensures NameOf(skill) != NameOf(last.value) {
          LastDiffers(stored, skill);
        }
        DistinctKeysAppend(NameOf, rest, last.value);
      }
    }
  }

  lemma RemainingIs(stored: seq<Option<Skill>>, after: string)
    requires Listable(stored)
    ensures StrictlySorted(Remaining(stored, after))
    ensures forall skill :: skill in Remaining(stored, after) <==> Some(skill) in stored && !AtMost(skill.name, after)
  {
    var s := NamedAfter(stored, after);
    NamedAfterAre(stored, after);
    NamedAfterAreDistinct(stored, after);
    hide NamedAfter, Listable;
    SortPermutes(s, ByName());
    SameElements(s, ByName());
    forall a, b, c
      ensures (AtMost(a, b) || AtMost(b, a)) && (AtMost(a, b) && AtMost(b, c) ==> AtMost(a, c))
    {
      AtMostIsTotal(a, b);
      if AtMost(a, b) && AtMost(b, c) {
        AtMostIsTransitive(a, b, c);
      }
    }
    hide AtMost;
    SortSorts(s, ByName());
    DistinctKeysPermute(NameOf, s, Sort(s, ByName()));
  }

  /** Two strictly sorted lists of the same skills are the same list. */
  lemma {:induction false} StrictlySortedIsUnique(a: seq<Skill>, b: seq<Skill>)
    requires StrictlySorted(a) && StrictlySorted(b) && forall skill :: skill in a <==> skill in b
    ensures a == b
  {
    hide AtMost;
    assert |b| > 0 ==> b[0] in a;
    if a != [] {
      assert a[0] in b && b[0] in a;
      LeastIsFirst(a, b);
      var skill := a[0];
      forall x ensures x in a[1..] <==> x in b[1..] {
        RestOfStrict(a, x);
        RestOfStrict(b, x);
      }
      StrictlySortedIsUnique(a[1..], b[1..]);
      assert a == [skill] + a[1..] && b == [skill] + b[1..];
    }
  }

  lemma LeastIsFirst(a: seq<Skill>, b: seq<Skill>)
    requires StrictlySorted(a) && StrictlySorted(b) && a != [] && b != [] && a[0] in b && b[0] in a
    ensures a[0] == b[0]
  {
    hide AtMost;
    AtMostIsTotal(a[0].name, b[0].name);
    var i :| 0 <= i < |a| && a[i] == b[0];
    var j :| 0 <= j < |b| && b[j] == a[0];
  }

  lemma RestOfStrict(s: seq<Skill>, x: Skill)
    requires StrictlySorted(s) && s != []
    ensures x in s[1..] <==> x in s && x != s[0]
  {
    hide AtMost;
    if x in s && x != s[0] {
      var i :| 0 <= i < |s| && s[i] == x;
      assert s[1..][i - 1] == x;
    }
    if x in s[1..] {
      var i :| 0 <= i < |s[1..]| && s[1..][i] == x;
      assert s[i + 1] == x;
    }
  }

  /** Past the last name of a page, what remains is exactly what the page left over. */
  lemma RemainingAfterPage(stored: seq<Option<Skill>>, after: string, limit: nat)
    requires Listable(stored) && 1 <= limit < |Remaining(stored, after)|
    ensures Remaining(stored, Remaining(stored, after)[limit - 1].name) == Remaining(stored, after)[limit..]
  {
    var s := Remaining(stored, after);
    var last := s[limit - 1].name;
    RemainingIs(stored, after);
    RemainingIs(stored, last);
    hide Remaining, AtMost, Listable;
    var rest := s[limit..];
    forall skill ensures skill in Remaining(stored, last) <==> skill in rest {
      SplitAt(s, limit, skill);
      assert s[limit - 1] in s;
      StillAfter(skill.name, last, after);
    }
    StrictlySortedIsUnique(Remaining(stored, last), rest);
  }

  lemma StillAfter(name: string, last: string, after: string)
    requires !AtMost(last, after)
    ensures !AtMost(name, last) ==> !AtMost(name, after)
  {
    hide AtMost;
    AtMostIsTotal(name, last);
    AtMostIsTotal(last, after);
    if AtMost(name, after) {
      AtMostIsTransitive(name, after, last);
    }
  }

  lemma SplitAt(s: seq<Skill>, limit: nat, skill: Skill)
    requires StrictlySorted(s) && 1 <= limit < |s|
    ensures skill in s[limit..] <==> skill in s && !AtMost(skill.name, s[limit - 1].name)
  {
    hide AtMost;
    if skill in s[limit..] {
      var i :| 0 <= i < |s[limit..]| && s[limit..][i] == skill;
      assert s[limit + i] == skill && Before(s[limit - 1], s[limit + i]);
      AtMostIsTotal(skill.name, s[limit - 1].name);
    }
    if skill in s && !AtMost(skill.name, s[limit - 1].name) {
      var i :| 0 <= i < |s| && s[i] == skill;
      if i < limit {
        AtMostIsTotal(skill.name, s[limit - 1].name);
      } else {
        assert s[limit..][i - limit] == skill;
      }
    }
  }

  lemma PageOf(stored: seq<Option<Skill>>, limit: nat, cursor: Option<string>, loads: Loads)
    requires Listable(stored) && limit >= 1 && ReadsBack(loads) && DecodeCursor(cursor, loads).Ok?
    ensures var s := Remaining(stored, DecodeCursor(cursor, loads).value);
            var page := ListOrganizationSkills(stored, limit, cursor, loads);
            page.Ok? && page.value.items == FirstN(s, limit) &&
            if |s| <= limit then page.value.next == None
            else page.value.next.Some? && DecodeCursor(page.value.next, loads) == Ok(s[limit - 1].name)
  {
    hide DecodeCursor, Remaining, EncodeCursor, AtMost, ReadsBack, ValidName;
    var after := DecodeCursor(cursor, loads).value;
    var s := Remaining(stored, after);
    if |s| > limit {
      RemainingIs(stored, after);
      assert s[limit - 1] in s;
      CursorRoundTrip(s[limit - 1].name, loads);
    }
  }

  /** Every page from `cursor` on, following `next_cursor` until there is none. */
  ghost function FollowPages(stored: seq<Option<Skill>>, limit: nat, cursor: Option<string>, loads: Loads): seq<Skill>
    requires Listable(stored) && limit >= 1 && ReadsBack(loads) && DecodeCursor(cursor, loads).Ok?
    decreases |Remaining(stored, DecodeCursor(cursor, loads).value)|
  {
    PageOf(stored, limit, cursor, loads);
    var page := ListOrganizationSkills(stored, limit, cursor, loads).value;
    if page.next.None? then page.items
    else
      RemainingAfterPage(stored, DecodeCursor(cursor, loads).value, limit);
      page.items + FollowPages(stored, limit, page.next, loads)
  }

  /** Following the cursors ends, and shows every remaining skill once, in the order of names. */
  lemma {:induction false} PagesAreTheWholeList(stored: seq<Option<Skill>>, limit: nat, cursor: Option<string>,
                                                loads: Loads)
    requires Listable(stored) && limit >= 1 && ReadsBack(loads) && DecodeCursor(cursor, loads).Ok?
    ensures FollowPages(stored, limit, cursor, loads) == Remaining(stored, DecodeCursor(cursor, loads).value)
    decreases |Remaining(stored, DecodeCursor(cursor, loads).value)|
  {
    hide Remaining, DecodeCursor, ListOrganizationSkills, Listable, ReadsBack;
    PageOf(stored, limit, cursor, loads);
    var page := ListOrganizationSkills(stored, limit, cursor, loads).value;
    var s := Remaining(stored, DecodeCursor(cursor, loads).value);
    if page.next.Some? {
      RemainingAfterPage(stored, DecodeCursor(cursor, loads).value, limit);
      PagesAreTheWholeList(stored, limit, page.next, loads);
      assert s == s[..limit] + s[limit..];
    }
  }

  /** From the start, for any page size: exactly the stored skills, sorted by name, nothing skipped or repeated. */
  lemma EverySkillIsListedOnce(stored: seq<Option<Skill>>, limit: nat, loads: Loads)
    requires Listable(stored) && limit >= 1 && ReadsBack(loads)
    ensures var all := FollowPages(stored, limit, None, loads);
            StrictlySorted(all) && forall skill :: skill in all <==> Some(skill) in stored
  {
    PagesAreTheWholeList(stored, limit, None, loads);
    RemainingIs(stored, "");
    forall skill | Some(skill) in stored ensures !AtMost(skill.name, "") {
      var i :| 0 <= i < |stored| && stored[i] == Some(skill);
      assert ValidName(stored[i].value.name);
    }
  }

  /** One skill too many, and every page is refused. */
  lemma TooManySkills(stored: seq<Option<Skill>>, limit: nat, cursor: Option<string>, loads: Loads)
    requires limit >= 1 && DecodeCursor(cursor, loads).Ok?
    ensures ListOrganizationSkills(stored, limit, cursor, loads) == HttpError(409) <==>
            |stored| > 1000
  {
    hide DecodeCursor, Remaining, EncodeCursor;
  }

  // ---------------------------------------------------------------- the writers of the store

  /** The checks of `SkillCreate` and `SkillUpdate`: the skill as stored. */
  function Checked(name: string, description: string, instructions: string): (r: Result<Skill>)
    ensures r.Ok? ==> ValidName(r.value.name)
  {
    if 1 <= |name| <= MAX_SKILL_NAME_CHARS && MatchesName(Strip(name)) && 1 <= |description| <= 1024 &&
        Strip(description) != "" &&
       |instructions| <= 20_000
    then
      StripShortens(name);
      Ok(Skill(Strip(name), Strip(description), instructions))
    else Invalid
  }

  /**
   * What is accepted: names and descriptions within their limits before they are stripped, a stripped name of
   * lower-case words joined by single hyphens, a description that is not all space, and up to 20000 characters of
   * instructions.
   */
  lemma CheckedMeans(name: string, description: string, instructions: string)
    ensures var r := Checked(name, description, instructions);
            if 1 <= |name| <= 64 && MatchesName(Strip(name)) && 1 <= |description| <= 1024 &&
               (exists c | c in description :: !IsSpace(c)) && |instructions| <= 20_000
            then r == Ok(Skill(Strip(name), Strip(description), instructions))
            else r == Invalid
  {
    hide MatchesName, IsSpace, Strip;
    var left, right := StripMeans(description);
    assert description == left + Strip(description) + right;
    if Strip(description) != "" {
      assert Strip(description)[0] in description;
    }
  }

  lemma StripShortens(s: string)
    ensures |Strip(s)| <= |s|
  {
    hide IsSpace;
    StripLeftShortens(s);
    StripRightShortens(StripLeft(s));
  }

  lemma StripLeftShortens(s: string)
    ensures |StripLeft(s)| <= |s|
  {
    hide IsSpace;
  }

  lemma StripRightShortens(s: string)
    ensures |StripRight(s)| <= |s|
  {
    hide IsSpace;
  }

  function AsStored(skills: seq<Skill>): seq<Option<Skill>> {
    seq(|skills|, i requires 0 <= i < |skills| => Some(skills[i]))
  }

  function Named(skills: seq<Skill>, name: string): (i: nat)
    ensures i <= |skills| && (i < |skills| ==> skills[i].name == name) &&
            forall j | 0 <= j < i :: skills[j].name != name
  {
    if skills == [] || skills[0].name == name then 0 else 1 + Named(skills[1..], name)
  }

  lemma AdditionKeepsListable(skills: seq<Skill>, skill: Skill)
    requires Listable(AsStored(skills)) && |skills| < MAX_ORGANIZATION_SKILLS && ValidName(skill.name)
    requires Named(skills, skill.name) == |skills|
    ensures Listable(AsStored(skills + [skill]))
  {
    hide ValidName, Named;
    var before, after := AsStored(skills), AsStored(skills + [skill]);
    forall j | 0 <= j < |after|
      ensures after[j] == (if j < |skills| then before[j] else Some(skill)) && ValidName(after[j].value.name)
    {
    }
  }

  lemma RemovalKeepsListable(skills: seq<Skill>, i: nat)
    requires Listable(AsStored(skills)) && i < |skills|
    ensures Listable(AsStored(skills[..i] + skills[i + 1..]))
  {
    hide ValidName;
    var before, after := AsStored(skills), AsStored(skills[..i] + skills[i + 1..]);
    forall j | 0 <= j < |after|
      ensures after[j] == before[if j < i then j else j + 1] && ValidName(after[j].value.name)
    {
    }
    forall j, k | 0 <= j < k < |after| ensures after[j].value.name != after[k].value.name {
      assert before[if j < i then j else j + 1].value.name != before[if k < i then k else k + 1].value.name;
    }
  }

  /** The organization's skills, in the order the store returns them. */
  class OrganizationSkills {
    var skills: seq<Skill>

    ghost predicate Valid()
      reads this
    {
      Listable(AsStored(skills))
    }

    constructor ()
      ensures Valid() && skills == []
    {
      skills := [];
    }

    /** `create_organization_skill`. */
    method Create(name: string, description: string, instructions: string) returns (r: Result<Skill>)
      requires Valid()
      modifies this
      ensures Valid()
      ensures var checked := Checked(name, description, instructions);
              if !checked.Ok? then r == checked && skills == old(skills)
              else if |old(skills)| >= 1000 || Named(old(skills), checked.value.name) < |old(skills)|
              then r == HttpError(409) && skills == old(skills)
              else r == checked && skills == old(skills) + [checked.value]
    {
      hide Checked, ValidName, Named;
      r := Checked(name, description, instructions);
      if !r.Ok? {
        return;
      }
      if |skills| >= MAX_ORGANIZATION_SKILLS {
        return HttpError(409);
      }
      if Named(skills, r.value.name) < |skills| {
        return HttpError(409);
      }
      AdditionKeepsListable(skills, r.value);
      skills := skills + [r.value];
    }

    /** `update_organization_skill`. */
    method Update(name: string, description: string, instructions: string) returns (r: Result<Skill>)
      requires Valid()
      modifies this
      ensures Valid()
      ensures var checked := Checked(name, description, instructions);
              var i := Named(old(skills), name);
              if !checked.Ok? then r == checked && skills == old(skills)
              else if i == |old(skills)| then r == HttpError(404) && skills == old(skills)
              else r == Ok(checked.value.(name := name)) && skills == old(skills)[i := r.value]
    {
      hide Checked, ValidName, Named;
      r := Checked(name, description, instructions);
      if !r.Ok? {
        return;
      }
      var i := Named(skills, name);
      if i == |skills| {
        return HttpError(404);
      }
      r := Ok(r.value.(name := name));
      assert AsStored(skills)[i].value.name == name;
      skills := skills[i := r.value];
      assert forall j | 0 <= j < |skills| :: AsStored(skills)[j].value.name == old(AsStored(skills))[j].value.name;
    }

    /** `delete_organization_skill`. */
    method Delete(name: string) returns (r: Result<()>)
      requires Valid()
      modifies this
      ensures Valid()
      ensures var i := Named(old(skills), name);
              if !(1 <= |name| <= 64 && MatchesName(Strip(name)))
              then r == Invalid && skills == old(skills)
              else if i == |old(skills)| then r == HttpError(404) && skills == old(skills)
              else r == Ok(()) && skills == old(skills)[..i] + old(skills)[i + 1..]
    {
      hide ValidName, Named, MatchesName;
      if !(1 <= |name| <= MAX_SKILL_NAME_CHARS && MatchesName(Strip(name))) {
        return Invalid;
      }
      var i := Named(skills, name);
      if i == |skills| {
        return HttpError(404);
      }
      RemovalKeepsListable(skills, i);
      skills := skills[..i] + skills[i + 1..];
      r := Ok(());
    }
  }
}
