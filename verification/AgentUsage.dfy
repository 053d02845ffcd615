/** Usage telemetry: the records kept about pull requests and findings, and the leaderboard folded from them. */
module AgentUsage {
  import opened Common
  import opened Sorting

  /** `str.lower`. */
  type Lower = string -> string

  /** A login or an email that is missing or not a string is `None`. */
  datatype Record =
    | Run(login: Option<string>, email: Option<string>, createdAt: int)
    | Pr(login: Option<string>, email: Option<string>, createdAt: int, additions: int, deletions: int, merged: bool)

  datatype Tally = Tally(runs: int, prs: int, merged: int, loc: int, additions: int, deletions: int) {
    function Plus(other: Tally): Tally {
      Tally(runs + other.runs, prs + other.prs, merged + other.merged,
            loc + other.loc, additions + other.additions, deletions + other.deletions)
    }
  }

  const ZERO := Tally(0, 0, 0, 0, 0, 0)

  datatype User = User(key: string, login: string, email: string, name: string, tally: Tally)

  datatype Row = Row(rank: int, name: string, login: Option<string>, email: Option<string>, tally: Tally)

  function Normalized(value: Option<string>, lower: Lower): string {
    if value.Some? then lower(Strip(value.value)) else ""
  }

  /** Numeric timestamps may be in seconds. */
  function TimestampMs(raw: int): int {
    if raw > 10_000_000_000 then raw else raw * 1000
  }

  predicate InPeriod(r: Record, cutoff: int) {
    TimestampMs(r.createdAt) > 0 && TimestampMs(r.createdAt) >= cutoff
  }

  /** The login each email belongs to: the latest record that names both decides. */
  function Aliases(records: seq<Record>, lower: Lower): map<string, string> {
    if records == [] then map[] else
    var rest, r := Aliases(records[..|records| - 1], lower), records[|records| - 1];
    var email, login := Normalized(r.email, lower), Normalized(r.login, lower);
    if email != "" && login != "" then rest[email := login] else rest
  }

  function LoginOf(r: Record, aliases: map<string, string>, lower: Lower): string {
    var login, email := Normalized(r.login, lower), Normalized(r.email, lower);
    if login != "" then login else if email in aliases then aliases[email] else ""
  }

  function UserKey(r: Record, aliases: map<string, string>, lower: Lower): Option<string> {
    var login, email := LoginOf(r, aliases, lower), Normalized(r.email, lower);
    if login != "" then Some("github:" + login) else if email != "" then Some("email:" + email) else None
  }

  function NewUser(key: string, r: Record, aliases: map<string, string>, lower: Lower): User {
    var login, email := LoginOf(r, aliases, lower), Normalized(r.email, lower);
    User(key, login, email, if login != "" then login else email[..LengthBefore(email, '@')], ZERO)
  }

  /** What one record contributes to its user. */
  function Weight(r: Record): Tally {
    match r
    case Run(_, _, _) => Tally(1, 0, 0, 0, 0, 0)
    case Pr(_, _, _, additions, deletions, merged) =>
      Tally(0, 1, if merged then 1 else 0, additions + deletions, additions, deletions)
  }

  /** The user a record counts for: none when it is out of the period or names nobody. */
  function CountsFor(r: Record, aliases: map<string, string>, lower: Lower, cutoff: int): Option<string> {
    if InPeriod(r, cutoff) then UserKey(r, aliases, lower) else None
  }

  function IndexOf(users: seq<User>, key: string): (i: nat)
    ensures i <= |users| && (i < |users| ==> users[i].key == key)
    ensures forall j | 0 <= j < i :: users[j].key != key
  {
    if users == [] || users[0].key == key then 0 else 1 + IndexOf(users[1..], key)
  }

  /** `users.setdefault(key, fresh)`. */
  function SetDefault(users: seq<User>, fresh': User): seq<User> {
    if IndexOf(users, fresh'.key) < |users| then users else users + [fresh']
  }

  /** The users after counting the records in order, in the order of their first record. */
  function Users(records: seq<Record>, aliases: map<string, string>, lower: Lower, cutoff: int): seq<User> {
    if records == [] then [] else
    var rest, r := Users(records[..|records| - 1], aliases, lower, cutoff), records[|records| - 1];
    var key := CountsFor(r, aliases, lower, cutoff);
    if key.None? then rest else
    var users := SetDefault(rest, NewUser(key.value, r, aliases, lower));
    var i := IndexOf(users, key.value);
    assert i < |users| by {
      assert users[|users| - 1].key == key.value || IndexOf(rest, key.value) < |rest|;
    }
    users[i := users[i].(tally := users[i].tally.Plus(Weight(r)))]
  }

  // ---------------------------------------------------------------- exact tallies and conservation

  /** The sum over the records that count for `key`. */
  function TallyFor(records: seq<Record>, key: string, aliases: map<string, string>, lower: Lower, cutoff: int): Tally {
    if records == [] then ZERO else
    var rest, r := TallyFor(records[..|records| - 1], key, aliases, lower, cutoff), records[|records| - 1];
    if CountsFor(r, aliases, lower, cutoff) == Some(key) then rest.Plus(Weight(r)) else rest
  }

  /** The sum over the records that count for anybody. */
  function TotalTally(records: seq<Record>, aliases: map<string, string>, lower: Lower, cutoff: int): Tally {
    if records == [] then ZERO else
    var rest, r := TotalTally(records[..|records| - 1], aliases, lower, cutoff), records[|records| - 1];
    if CountsFor(r, aliases, lower, cutoff).Some? then rest.Plus(Weight(r)) else rest
  }

  function SumOf(users: seq<User>): Tally {
    if users == [] then ZERO else SumOf(users[..|users| - 1]).Plus(users[|users| - 1].tally)
  }

  function KeyOf(user: User): string {
    user.key
  }

  predicate DistinctUsers(users: seq<User>) {
    DistinctKeys(KeyOf, users)
  }

  lemma {:induction false} SumOfUpdate(users: seq<User>, i: int, w: Tally)
    requires 0 <= i < |users|
    ensures SumOf(users[i := users[i].(tally := users[i].tally.Plus(w))]) == SumOf(users).Plus(w)
  {
    var updated := users[i := users[i].(tally := users[i].tally.Plus(w))];
    if i == |users| - 1 {
      assert updated[..i] == users[..i];
    } else {
      SumOfUpdate(users[..|users| - 1], i, w);
      assert updated[..|users| - 1] == users[..|users| - 1][i := updated[i]];
    }
  }

  lemma SumOfFresh(users: seq<User>, user: User)
    requires user.tally == ZERO
    ensures SumOf(users + [user]) == SumOf(users)
  {
    assert (users + [user])[..|users|] == users;
  }

  ghost predicate TalliesFit(users: seq<User>, records: seq<Record>, aliases: map<string, string>, lower: Lower,
                             cutoff: int)
  {
    forall u | u in users :: u.tally == TallyFor(records, u.key, aliases, lower, cutoff) &&
                             u.tally.loc == u.tally.additions + u.tally.deletions
  }

  ghost predicate NobodyMissing(users: seq<User>, records: seq<Record>, aliases: map<string, string>, lower: Lower,
                                cutoff: int)
  {
    forall r | r in records && CountsFor(r, aliases, lower, cutoff).Some? ::
      exists u | u in users :: u.key == CountsFor(r, aliases, lower, cutoff).value
  }

  ghost predicate NobodyInvented(users: seq<User>, records: seq<Record>, aliases: map<string, string>, lower: Lower,
                                 cutoff: int)
  {
    forall u | u in users :: exists r | r in records :: CountsFor(r, aliases, lower, cutoff) == Some(u.key)
  }

  /**
   * Each user some record counts for is listed once, with the sum over exactly the records that count for that user.
   */
  ghost predicate Exact(users: seq<User>, records: seq<Record>, aliases: map<string, string>, lower: Lower,
                        cutoff: int)
  {
    DistinctUsers(users) && TalliesFit(users, records, aliases, lower, cutoff) &&
    NobodyMissing(users, records, aliases, lower, cutoff) && NobodyInvented(users, records, aliases, lower, cutoff)
  }

  lemma WeightAddsLines(r: Record)
    ensures Weight(r).loc == Weight(r).additions + Weight(r).deletions
  {
  }

  lemma FreshUser(key: string, r: Record, aliases: map<string, string>, lower: Lower)
    ensures NewUser(key, r, aliases, lower).key == key && NewUser(key, r, aliases, lower).tally == ZERO
  {
  }

  lemma {:induction false} NothingFor(records: seq<Record>, key: string, aliases: map<string, string>, lower: Lower,
                                      cutoff: int)
    requires forall r | r in records :: CountsFor(r, aliases, lower, cutoff) != Some(key)
    ensures TallyFor(records, key, aliases, lower, cutoff) == ZERO
  {
    hide CountsFor, Weight;
    if records != [] {
      NothingFor(records[..|records| - 1], key, aliases, lower, cutoff);
    }
  }

  lemma TallyStep(front: seq<Record>, r: Record, key: string, aliases: map<string, string>, lower: Lower, cutoff: int)
    ensures TallyFor(front + [r], key, aliases, lower, cutoff) ==
            if CountsFor(r, aliases, lower, cutoff) == Some(key) then
                TallyFor(front, key, aliases, lower, cutoff).Plus(Weight(r))
            else TallyFor(front, key, aliases, lower, cutoff)
  {
    hide CountsFor, Weight;
    assert (front + [r])[..|front|] == front;
  }

  lemma UsersStep(front: seq<Record>, r: Record, aliases: map<string, string>, lower: Lower, cutoff: int)
    returns (users: seq<User>, i: nat)
    requires CountsFor(r, aliases, lower, cutoff).Some?
    ensures var key := CountsFor(r, aliases, lower, cutoff).value;
            users == SetDefault(Users(front, aliases, lower, cutoff), NewUser(key, r, aliases, lower)) &&
            i == IndexOf(users, key) && i < |users| && users[i].key == key &&
            Users(front + [r], aliases, lower, cutoff) == users[i := users[i].(tally := users[i].tally.Plus(Weight(r)))]
  {
    hide CountsFor, Weight, NewUser;
    var key := CountsFor(r, aliases, lower, cutoff).value;
    FreshUser(key, r, aliases, lower);
    users := SetDefault(Users(front, aliases, lower, cutoff), NewUser(key, r, aliases, lower));
    i := IndexOf(users, key);
    var listed := Users(front, aliases, lower, cutoff);
    assert users[|users| - 1].key == key || IndexOf(listed, key) < |listed|;
    assert (front + [r])[..|front|] == front;
  }

  /** Listing the record's user, if new, with nothing counted yet. */
  lemma SetDefaultFits(before: seq<User>, front: seq<Record>, fresh': User, aliases: map<string, string>, lower: Lower,
                       cutoff: int)
    requires Exact(before, front, aliases, lower, cutoff) && fresh'.tally == ZERO
    ensures var users := SetDefault(before, fresh');
            before <= users && (forall u | u in users :: u in before || u.key == fresh'.key) &&
            DistinctUsers(users) && TalliesFit(users, front, aliases, lower, cutoff)
  {
    hide CountsFor, TallyFor, NobodyMissing, NobodyInvented, IndexOf, DistinctKeys;
    if IndexOf(before, fresh'.key) == |before| {
      forall r | r in front ensures CountsFor(r, aliases, lower, cutoff) != Some(fresh'.key) {
        NewKeyIsUnused(before, front, fresh'.key, r, aliases, lower, cutoff);
      }
      NothingFor(front, fresh'.key, aliases, lower, cutoff);
      DistinctKeysAppend(KeyOf, before, fresh');
    }
  }

  lemma NewKeyIsUnused(before: seq<User>, front: seq<Record>, key: string, r: Record, aliases: map<string, string>,
                       lower: Lower, cutoff: int)
    requires NobodyMissing(before, front, aliases, lower, cutoff) && IndexOf(before, key) == |before| && r in front
    ensures CountsFor(r, aliases, lower, cutoff) != Some(key)
  {
    hide CountsFor;
  }

  lemma CountingFits(users: seq<User>, i: nat, front: seq<Record>, r: Record, aliases: map<string, string>,
                     lower: Lower, cutoff: int)
    requires i < |users| && DistinctUsers(users) && TalliesFit(users, front, aliases, lower, cutoff)
    requires CountsFor(r, aliases, lower, cutoff) == Some(users[i].key)
    ensures var after := users[i := users[i].(tally := users[i].tally.Plus(Weight(r)))];
            DistinctUsers(after) && TalliesFit(after, front + [r], aliases, lower, cutoff)
  {
    hide CountsFor, Weight, TallyFor;
    var after := users[i := users[i].(tally := users[i].tally.Plus(Weight(r)))];
    WeightAddsLines(r);
    forall u | u in after
      ensures u.tally == TallyFor(front + [r], u.key, aliases, lower, cutoff) &&
              u.tally.loc == u.tally.additions + u.tally.deletions
    {
      var j :| 0 <= j < |after| && after[j] == u;
      assert users[j] in users && users[i] in users;
      TallyStep(front, r, u.key, aliases, lower, cutoff);
    }
  }

  lemma CountingCovers(before: seq<User>, users: seq<User>, after: seq<User>, i: nat, front: seq<Record>, r: Record,
                       aliases: map<string, string>, lower: Lower, cutoff: int)
    requires before <= users && i < |users| == |after| && forall j | 0 <= j < |users| :: after[j].key == users[j].key
    requires CountsFor(r, aliases, lower, cutoff) == Some(users[i].key)
    requires forall u | u in users :: u in before || u.key == users[i].key
    requires NobodyMissing(before, front, aliases, lower, cutoff) &&
             NobodyInvented(before, front, aliases, lower, cutoff)
    ensures NobodyMissing(after, front + [r], aliases, lower, cutoff) &&
            NobodyInvented(after, front + [r], aliases, lower, cutoff)
  {
    hide CountsFor;
    var records := front + [r];
    assert records[|front|] == r && forall x | x in front :: x in records;
    forall x | x in records && CountsFor(x, aliases, lower, cutoff).Some?
      ensures exists u | u in after :: u.key == CountsFor(x, aliases, lower, cutoff).value
    {
      if x in front {
        var u :| u in before && u.key == CountsFor(x, aliases, lower, cutoff).value;
        var j :| 0 <= j < |before| && before[j] == u;
        assert after[j] in after;
      } else {
        assert after[i] in after;
      }
    }
    forall u | u in after ensures exists x | x in records :: CountsFor(x, aliases, lower, cutoff) == Some(u.key) {
      var j :| 0 <= j < |after| && after[j] == u;
      assert users[j] in users;
    }
  }

  lemma StepIsExact(front: seq<Record>, r: Record, aliases: map<string, string>, lower: Lower, cutoff: int)
    requires Exact(Users(front, aliases, lower, cutoff), front, aliases, lower, cutoff)
    ensures Exact(Users(front + [r], aliases, lower, cutoff), front + [r], aliases, lower, cutoff)
  {
    hide CountsFor, Weight, NewUser, TallyFor, Users, IndexOf, NobodyMissing, NobodyInvented, TalliesFit, DistinctUsers,
         SetDefault;
    var before := Users(front, aliases, lower, cutoff);
    var count := CountsFor(r, aliases, lower, cutoff);
    if count.None? {
      NobodyCounted(front, r, aliases, lower, cutoff);
      ExactWithout(before, front, r, aliases, lower, cutoff);
    } else {
      var users, i := UsersStep(front, r, aliases, lower, cutoff);
      FreshUser(count.value, r, aliases, lower);
      SetDefaultFits(before, front, NewUser(count.value, r, aliases, lower), aliases, lower, cutoff);
      CountingFits(users, i, front, r, aliases, lower, cutoff);
      CountingCovers(before, users, users[i := users[i].(tally := users[i].tally.Plus(Weight(r)))], i, front, r,
        aliases, lower, cutoff);
    }
  }

  lemma ExactWithout(users: seq<User>, front: seq<Record>, r: Record, aliases: map<string, string>, lower: Lower,
                     cutoff: int)
    requires Exact(users, front, aliases, lower, cutoff) && CountsFor(r, aliases, lower, cutoff).None?
    ensures Exact(users, front + [r], aliases, lower, cutoff)
  {
    hide CountsFor, TallyFor;
    var records := front + [r];
    assert records[|front|] == r && forall x | x in front :: x in records;
    forall u | u in users
      ensures TallyFor(records, u.key, aliases, lower, cutoff) == TallyFor(front, u.key, aliases, lower, cutoff)
    {
      TallyStep(front, r, u.key, aliases, lower, cutoff);
    }
  }

  lemma NobodyCounted(front: seq<Record>, r: Record, aliases: map<string, string>, lower: Lower, cutoff: int)
    requires CountsFor(r, aliases, lower, cutoff).None?
    ensures Users(front + [r], aliases, lower, cutoff) == Users(front, aliases, lower, cutoff)
  {
    hide CountsFor;
    assert (front + [r])[..|front|] == front;
  }

  lemma NobodyIsExact(aliases: map<string, string>, lower: Lower, cutoff: int)
    ensures Exact(Users([], aliases, lower, cutoff), [], aliases, lower, cutoff)
  {
  }

  /** Every user's tally is the sum over exactly the records that count for that user. */
  lemma {:induction false} TalliesAreExact(records: seq<Record>, aliases: map<string, string>, lower: Lower,
                                           cutoff: int)
    ensures Exact(Users(records, aliases, lower, cutoff), records, aliases, lower, cutoff)
  {
    hide *;
    if records == [] {
      NobodyIsExact(aliases, lower, cutoff);
    } else {
      var front, r := records[..|records| - 1], records[|records| - 1];
      TalliesAreExact(front, aliases, lower, cutoff);
      StepIsExact(front, r, aliases, lower, cutoff);
      assert records == front + [r];
    }
  }

  lemma TotalStep(front: seq<Record>, r: Record, aliases: map<string, string>, lower: Lower, cutoff: int)
    ensures TotalTally(front + [r], aliases, lower, cutoff) ==
            if CountsFor(r, aliases, lower, cutoff).Some? then TotalTally(front, aliases, lower, cutoff).Plus(Weight(r))
            else TotalTally(front, aliases, lower, cutoff)
  {
    hide CountsFor, Weight;
    assert (front + [r])[..|front|] == front;
  }

  lemma SumOfSetDefault(users: seq<User>, user: User)
    requires user.tally == ZERO
    ensures SumOf(SetDefault(users, user)) == SumOf(users)
  {
    hide SumOf;
    SumOfFresh(users, user);
  }

  /** Nothing is lost and nothing counted twice: the users' sums are the totals over the records that name somebody. */
  lemma {:induction false} TotalsAreConserved(records: seq<Record>, aliases: map<string, string>, lower: Lower,
                                              cutoff: int)
    ensures SumOf(Users(records, aliases, lower, cutoff)) == TotalTally(records, aliases, lower, cutoff)
  {
    if records != [] {
      hide CountsFor, Weight, NewUser, Users, SumOf, TotalTally, SetDefault, IndexOf;
      var front, r := records[..|records| - 1], records[|records| - 1];
      assert records == front + [r];
      TotalsAreConserved(front, aliases, lower, cutoff);
      TotalStep(front, r, aliases, lower, cutoff);
      var count := CountsFor(r, aliases, lower, cutoff);
      if count.None? {
        NobodyCounted(front, r, aliases, lower, cutoff);
      } else {
        var users, i := UsersStep(front, r, aliases, lower, cutoff);
        FreshUser(count.value, r, aliases, lower);
        SumOfSetDefault(Users(front, aliases, lower, cutoff), NewUser(count.value, r, aliases, lower));
        SumOfUpdate(users, i, Weight(r));
      }
    }
  }

  // ---------------------------------------------------------------- what the numbers count

  function Chosen(records: seq<Record>, p: Record -> bool): seq<Record> {
    if records == [] then [] else
    var front, last := Chosen(records[..|records| - 1], p), records[|records| - 1];
    if p(last) then front + [last] else front
  }

  function Number(records: seq<Record>, p: Record -> bool): nat {
    |Chosen(records, p)|
  }

  function Total(records: seq<Record>, f: Record -> int): int {
    if records == [] then 0 else Total(records[..|records| - 1], f) + f(records[|records| - 1])
  }

  /** The tally says how many runs and pull requests there are, how many were merged, and their lines. */
  ghost predicate IsTallyOf(t: Tally, records: seq<Record>) {
    && t.runs == Number(records, (r: Record) => r.Run?)
    && t.prs == Number(records, (r: Record) => r.Pr?)
    && t.merged == Number(records, (r: Record) => r.Pr? && r.merged)
    && t.additions == Total(records, (r: Record) => if r.Pr? then r.additions else 0)
    && t.deletions == Total(records, (r: Record) => if r.Pr? then r.deletions else 0)
    && t.loc == t.additions + t.deletions
  }

  lemma OneMoreChosen(records: seq<Record>, r: Record, p: Record -> bool)
    ensures Chosen(records + [r], p) == Chosen(records, p) + if p(r) then [r] else []
    ensures Number(records + [r], p) == Number(records, p) + if p(r) then 1 else 0
  {
    assert (records + [r])[..|records|] == records;
  }

  lemma OneMoreTotal(records: seq<Record>, r: Record, f: Record -> int)
    ensures Total(records + [r], f) == Total(records, f) + f(r)
  {
    assert (records + [r])[..|records|] == records;
  }

  lemma OneMoreTally(t: Tally, records: seq<Record>, r: Record)
    requires IsTallyOf(t, records)
    ensures IsTallyOf(t.Plus(Weight(r)), records + [r])
  {
    hide Chosen, Number, Total;
    OneMoreChosen(records, r, (r: Record) => r.Run?);
    OneMoreChosen(records, r, (r: Record) => r.Pr?);
    OneMoreChosen(records, r, (r: Record) => r.Pr? && r.merged);
    OneMoreTotal(records, r, (r: Record) => if r.Pr? then r.additions else 0);
    OneMoreTotal(records, r, (r: Record) => if r.Pr? then r.deletions else 0);
  }

  /** The records that count for a user, and those that count for anybody. */
  function CountedFor(records: seq<Record>, key: string, aliases: map<string, string>, lower: Lower, cutoff: int):
    seq<Record>
  {
    Chosen(records, r => CountsFor(r, aliases, lower, cutoff) == Some(key))
  }

  function CountedAtAll(records: seq<Record>, aliases: map<string, string>, lower: Lower, cutoff: int): seq<Record> {
    Chosen(records, r => CountsFor(r, aliases, lower, cutoff).Some?)
  }

  lemma {:induction false} TallyForMeans(records: seq<Record>, key: string, aliases: map<string, string>,
                                         lower: Lower, cutoff: int)
    ensures IsTallyOf(TallyFor(records, key, aliases, lower, cutoff), CountedFor(records, key, aliases, lower, cutoff))
  {
    hide CountsFor, Weight;
    if records != [] {
      var front, r := records[..|records| - 1], records[|records| - 1];
      TallyForMeans(front, key, aliases, lower, cutoff);
      OneMoreTally(TallyFor(front, key, aliases, lower, cutoff), CountedFor(front, key, aliases, lower, cutoff), r);
    }
  }

  lemma {:induction false} TotalTallyMeans(records: seq<Record>, aliases: map<string, string>, lower: Lower,
                                           cutoff: int)
    ensures IsTallyOf(TotalTally(records, aliases, lower, cutoff), CountedAtAll(records, aliases, lower, cutoff))
  {
    hide CountsFor, Weight;
    if records != [] {
      var front, r := records[..|records| - 1], records[|records| - 1];
      TotalTallyMeans(front, aliases, lower, cutoff);
      OneMoreTally(TotalTally(front, aliases, lower, cutoff), CountedAtAll(front, aliases, lower, cutoff), r);
    }
  }

  /** Every user's numbers are those of exactly the records that count for the user, and the sums are those of all. */
  lemma NumbersAreCounted(records: seq<Record>, aliases: map<string, string>, lower: Lower, cutoff: int)
    ensures forall u | u in Users(records, aliases, lower, cutoff) ::
              IsTallyOf(u.tally, CountedFor(records, u.key, aliases, lower, cutoff))
    ensures IsTallyOf(SumOf(Users(records, aliases, lower, cutoff)), CountedAtAll(records, aliases, lower, cutoff))
  {
    hide IsTallyOf, Users, CountedFor, CountedAtAll, TallyFor, TotalTally, SumOf, CountsFor;
    TalliesAreExact(records, aliases, lower, cutoff);
    TotalsAreConserved(records, aliases, lower, cutoff);
    TotalTallyMeans(records, aliases, lower, cutoff);
    forall u | u in Users(records, aliases, lower, cutoff)
      ensures IsTallyOf(u.tally, CountedFor(records, u.key, aliases, lower, cutoff))
    {
      TallyForMeans(records, u.key, aliases, lower, cutoff);
    }
  }

  /**
   * Whose record it is: that of its login, else of the login its email is an alias of, else of its email; provided its
   * time is a positive number of milliseconds, or of seconds up to ten billion, and not before the cutoff.
   */
  lemma WhoseRecord(r: Record, aliases: map<string, string>, lower: Lower, cutoff: int)
    ensures var login := if r.login.Some? then lower(Strip(r.login.value)) else "";
            var email := if r.email.Some? then lower(Strip(r.email.value)) else "";
            var recent := if r.createdAt > 10_000_000_000 then r.createdAt >= cutoff
                          else 0 < r.createdAt && cutoff <= 1000 * r.createdAt;
            CountsFor(r, aliases, lower, cutoff) ==
            if !recent then None
            else if login != "" then Some("github:" + login)
            else if email in aliases && aliases[email] != "" then Some("github:" + aliases[email])
            else if email != "" then Some("email:" + email)
            else None
  {
    hide Strip;
  }

  // ---------------------------------------------------------------- one person, two keys

  predicate Pairs(r: Record, email: string, lower: Lower) {
    Normalized(r.email, lower) == email && Normalized(r.login, lower) != ""
  }

  /** An email is an alias exactly when some record pairs it with a login, and the latest such record decides. */
  lemma {:induction false} AliasIsLatestPairing(records: seq<Record>, email: string, lower: Lower)
    requires email != ""
    ensures email in Aliases(records, lower) <==> exists r | r in records :: Pairs(r, email, lower)
    ensures forall i | 0 <= i < |records| && Pairs(records[i], email, lower) &&
                       (forall j | i < j < |records| :: !Pairs(records[j], email, lower)) ::
              Aliases(records, lower)[email] == Normalized(records[i].login, lower)
  {
    hide Normalized;
    if records != [] {
      var front, last := records[..|records| - 1], records[|records| - 1];
      AliasIsLatestPairing(front, email, lower);
      assert last in records && (forall r | r in front :: r in records) &&
             forall r | r in records :: r in front || r == last;
      forall i | 0 <= i < |records| && Pairs(records[i], email, lower) &&
          forall j | i < j < |records| :: !Pairs(records[j], email, lower)
        ensures Aliases(records, lower)[email] == Normalized(records[i].login, lower)
      {
        if i < |front| {
          assert front[i] == records[i] && forall j | i < j < |front| :: front[j] == records[j];
          assert !Pairs(records[|front|], email, lower);
        }
      }
    }
  }

  /** Once any record pairs an email with a login, nothing is counted under the bare email. */
  lemma PairedEmailIsNoUser(r: Record, email: string, aliases: map<string, string>, lower: Lower)
    requires email in aliases && aliases[email] != ""
    ensures UserKey(r, aliases, lower) != Some("email:" + email)
  {
    hide Normalized;
    if Normalized(r.email, lower) == email {
      var login := LoginOf(r, aliases, lower);
      assert ("github:" + login)[0] != ("email:" + email)[0];
    } else {
      var key := UserKey(r, aliases, lower);
      if key == Some("email:" + email) {
        KeyOfOther(r, email, aliases, lower);
      }
    }
  }

  lemma KeyOfOther(r: Record, email: string, aliases: map<string, string>, lower: Lower)
    requires UserKey(r, aliases, lower) == Some("email:" + email)
    ensures Normalized(r.email, lower) == email
  {
    hide Normalized;
    var key := UserKey(r, aliases, lower).value;
    var login, own := LoginOf(r, aliases, lower), Normalized(r.email, lower);
    assert key[0] == 'e';
    assert ("github:" + login)[0] == 'g';
    assert key == "email:" + own;
    assert key[6..] == own && key[6..] == email;
  }

  lemma {:induction false} AliasesNameSomebody(records: seq<Record>, lower: Lower)
    ensures forall email | email in Aliases(records, lower) :: email != "" && Aliases(records, lower)[email] != ""
  {
    hide Normalized;
    if records != [] {
      AliasesNameSomebody(records[..|records| - 1], lower);
    }
  }

  // ---------------------------------------------------------------- ranking

  /** More merged, then more lines, then more pull requests, then more runs, then by name. */
  predicate RanksBefore(a: User, b: User) {
    if a.tally.merged != b.tally.merged then a.tally.merged > b.tally.merged
    else if a.tally.loc != b.tally.loc then a.tally.loc > b.tally.loc
    else if a.tally.prs != b.tally.prs then a.tally.prs > b.tally.prs
    else if a.tally.runs != b.tally.runs then a.tally.runs > b.tally.runs
    else AtMost(a.name, b.name)
  }

  function UserOrder(): (User, User) -> bool {
    (a, b) => RanksBefore(a, b)
  }

  function CurrentKeys(login: Option<string>, email: Option<string>, lower: Lower): set<string> {
    {if Normalized(login, lower) != "" then "github:" + Normalized(login, lower) else "",
     if Normalized(email, lower) != "" then "email:" + Normalized(email, lower) else ""}
  }

  function RowOf(user: User, rank: int, current: set<string>): Row {
    Row(rank, if user.key in current || user.login != "" then user.name else "Open SWE user",
        NonEmpty(user.login), if user.key in current then NonEmpty(user.email) else None, user.tally)
  }

  function Ranked(ordered: seq<User>, current: set<string>): (rows: seq<Row>)
    ensures |rows| == |ordered|
  {
    seq(|ordered|, i requires 0 <= i < |ordered| => RowOf(ordered[i], i + 1, current))
  }

  /** The row of the last user that the caller's keys name. */
  function CurrentRow(ordered: seq<User>, current: set<string>): Option<Row> {
    if ordered == [] then None
    else if ordered[|ordered| - 1].key in current then Some(RowOf(ordered[|ordered| - 1], |ordered|, current))
    else CurrentRow(ordered[..|ordered| - 1], current)
  }

  function Cut(limit: int): nat {
    if limit < 1 then 1 else if limit > 100 then 100 else limit
  }

  function LimitedRows(rows: seq<Row>, current: Option<Row>, limit: int): seq<Row> {
    var limited := FirstN(rows, Cut(limit));
    if current.Some? && forall row | row in limited :: row.rank != current.value.rank then limited + [current.value]
    else limited
  }

  function Ordered(runs: seq<Record>, prs: seq<Record>, lower: Lower, cutoff: int): seq<User> {
    Sort(Users(runs + prs, Aliases(runs + prs, lower), lower, cutoff), UserOrder())
  }

  function Leaderboard(runs: seq<Record>, prs: seq<Record>, lower: Lower, cutoff: int, current: set<string>,
                       limit: int): seq<Row>
  {
    var ordered := Ordered(runs, prs, lower, cutoff);
    LimitedRows(FirstN(Ranked(ordered, current), 100), CurrentRow(ordered, current), limit)
  }

  lemma RankingIsOrder(a: User, b: User, c: User)
    ensures RanksBefore(a, b) || RanksBefore(b, a)
    ensures RanksBefore(a, b) && RanksBefore(b, c) ==> RanksBefore(a, c)
  {
    AtMostIsTotal(a.name, b.name);
    if AtMost(a.name, b.name) && AtMost(b.name, c.name) {
      AtMostIsTransitive(a.name, b.name, c.name);
    }
  }

  lemma OrderedIsSorted(runs: seq<Record>, prs: seq<Record>, lower: Lower, cutoff: int)
    ensures Sorted(Ordered(runs, prs, lower, cutoff), UserOrder())
  {
    hide Users, Aliases;
    forall a, b, c
      ensures RanksBefore(a, b) || RanksBefore(b, a)
      ensures RanksBefore(a, b) && RanksBefore(b, c) ==> RanksBefore(a, c)
    {
      RankingIsOrder(a, b, c);
    }
    SortSorts(Users(runs + prs, Aliases(runs + prs, lower), lower, cutoff), UserOrder());
  }

  lemma OrderedIsExact(runs: seq<Record>, prs: seq<Record>, lower: Lower, cutoff: int)
    ensures var aliases := Aliases(runs + prs, lower);
            var ordered := Ordered(runs, prs, lower, cutoff);
            Exact(ordered, runs + prs, aliases, lower, cutoff) &&
            SumOf(ordered) == TotalTally(runs + prs, aliases, lower, cutoff)
  {
    hide Users, Aliases, RanksBefore, SumOf, TotalTally, Exact, Sort, UserOrder;
    var aliases := Aliases(runs + prs, lower);
    var users := Users(runs + prs, aliases, lower, cutoff);
    SortPermutes(users, UserOrder());
    SameElements(users, UserOrder());
    TalliesAreExact(runs + prs, aliases, lower, cutoff);
    TotalsAreConserved(runs + prs, aliases, lower, cutoff);
    RearrangedIsExact(users, Sort(users, UserOrder()), runs + prs, aliases, lower, cutoff);
    SumOfRearranged(users, Sort(users, UserOrder()));
  }

  /** Ranks are positions in the five-key order of exactly the counted users; a row shows its user's exact numbers. */
  lemma RanksFollowTheOrder(runs: seq<Record>, prs: seq<Record>, lower: Lower, cutoff: int, current: set<string>)
    ensures var aliases := Aliases(runs + prs, lower);
            var ordered := Ordered(runs, prs, lower, cutoff);
            var rows := Ranked(ordered, current);
            Sorted(ordered, UserOrder()) && Exact(ordered, runs + prs, aliases, lower, cutoff) &&
            SumOf(ordered) == TotalTally(runs + prs, aliases, lower, cutoff) &&
            forall i | 0 <= i < |rows| ::
              rows[i].rank == i + 1 && rows[i].tally == TallyFor(runs + prs, ordered[i].key, aliases, lower, cutoff) &&
              rows[i].tally.loc == rows[i].tally.additions + rows[i].tally.deletions
  {
    hide Users, Aliases, RanksBefore, SumOf, TotalTally, TallyFor, Ordered, Sorted, CountsFor;
    OrderedIsSorted(runs, prs, lower, cutoff);
    OrderedIsExact(runs, prs, lower, cutoff);
    var ordered := Ordered(runs, prs, lower, cutoff);
    assert forall i | 0 <= i < |ordered| :: ordered[i] in ordered;
  }

  /**
   * Of two users the one placed first has more merged pull requests, or as many and more lines, or as many and more
   * pull requests, or as many and more runs, or as many and a name that is not greater.
   */
  lemma PlacesFollowTheNumbers(runs: seq<Record>, prs: seq<Record>, lower: Lower, cutoff: int, i: int, j: int)
    requires 0 <= i < j < |Ordered(runs, prs, lower, cutoff)|
    ensures var a, b := Ordered(runs, prs, lower, cutoff)[i].tally, Ordered(runs, prs, lower, cutoff)[j].tally;
            a.merged >= b.merged && (a.merged == b.merged ==>
              a.loc >= b.loc && (a.loc == b.loc ==>
                a.prs >= b.prs && (a.prs == b.prs ==>
                  a.runs >= b.runs && (a.runs == b.runs ==>
                    AtMost(Ordered(runs, prs, lower, cutoff)[i].name, Ordered(runs, prs, lower, cutoff)[j].name)))))
  {
    hide Ordered, AtMost;
    OrderedIsSorted(runs, prs, lower, cutoff);
    assert UserOrder()(Ordered(runs, prs, lower, cutoff)[i], Ordered(runs, prs, lower, cutoff)[j]);
  }

  // ---------------------------------------------------------------- who a row is about

  /** The part of an email before its first `@`. */
  predicate IsLocalPart(name: string, email: string) {
    '@' !in name && (name == email || name + "@" <= email)
  }

  /** A user with a login goes by it; another one has an email, and goes by the part before its `@`. */
  predicate IsNamed(u: User, counted: seq<Record>, lower: Lower) {
    counted != [] && u.email == Normalized(counted[0].email, lower) &&
    if u.login != "" then u.key == "github:" + u.login && u.name == u.login
    else u.email != "" && u.key == "email:" + u.email && IsLocalPart(u.name, u.email)
  }

  lemma {:induction false} LocalPartIs(email: string)
    ensures IsLocalPart(email[..LengthBefore(email, '@')], email)
  {
    if email != "" && email[0] != '@' {
      LocalPartIs(email[1..]);
      var n := LengthBefore(email[1..], '@');
      assert email[..n + 1] == [email[0]] + email[1..][..n];
      assert n < |email[1..]| ==> email[1..][n] == '@';
    }
  }

  lemma NewUserIsNamed(key: string, r: Record, aliases: map<string, string>, lower: Lower, cutoff: int)
    requires CountsFor(r, aliases, lower, cutoff) == Some(key)
    ensures IsNamed(NewUser(key, r, aliases, lower), [r], lower)
  {
    hide LengthBefore, InPeriod, Normalized, IsLocalPart;
    LocalPartIs(Normalized(r.email, lower));
  }

  lemma NobodyCountedYet(records: seq<Record>, key: string, aliases: map<string, string>, lower: Lower, cutoff: int)
    requires IndexOf(Users(records, aliases, lower, cutoff), key) == |Users(records, aliases, lower, cutoff)|
    ensures CountedFor(records, key, aliases, lower, cutoff) == []
  {
    hide Users, IndexOf, CountsFor, TallyFor;
    TalliesAreExact(records, aliases, lower, cutoff);
    NoneChosen(records, r => CountsFor(r, aliases, lower, cutoff) == Some(key));
  }

  lemma {:induction false} NoneChosen(records: seq<Record>, p: Record -> bool)
    requires forall r | r in records :: !p(r)
    ensures Chosen(records, p) == []
  {
    if records != [] {
      NoneChosen(records[..|records| - 1], p);
    }
  }

  lemma StillNamed(u: User, t: Tally, counted: seq<Record>, more: seq<Record>, lower: Lower)
    requires IsNamed(u, counted, lower)
    ensures IsNamed(u.(tally := t), counted + more, lower)
  {
    hide Normalized, IsLocalPart;
  }

  lemma UsersUnfold(records: seq<Record>, r: Record, key: Option<string>, aliases: map<string, string>, lower: Lower,
                    cutoff: int)
    requires key == CountsFor(r, aliases, lower, cutoff)
    ensures var users, all := Users(records, aliases, lower, cutoff), Users(records + [r], aliases, lower, cutoff);
            if key.None? then all == users else
            var seated := SetDefault(users, NewUser(key.value, r, aliases, lower));
            var i := IndexOf(seated, key.value);
            i < |seated| && all == seated[i := seated[i].(tally := seated[i].tally.Plus(Weight(r)))]
  {
    hide CountsFor, NewUser, Weight, IndexOf;
    assert (records + [r])[..|records|] == records;
    if key.Some? {
      NewUserKey(key.value, r, aliases, lower);
      var users, user := Users(records, aliases, lower, cutoff), NewUser(key.value, r, aliases, lower);
      assert IndexOf(users, key.value) < |users| || (users + [user])[|users|].key == key.value;
    }
  }

  /** Counting one record changes the numbers of its user, who may be new. */
  lemma OneMoreUser(records: seq<Record>, r: Record, u: User, aliases: map<string, string>, lower: Lower, cutoff: int)
    requires u in Users(records + [r], aliases, lower, cutoff)
    ensures var users, key := Users(records, aliases, lower, cutoff), CountsFor(r, aliases, lower, cutoff);
            (exists was | was in users :: u == was.(tally := u.tally)) ||
            (key == Some(u.key) && u == NewUser(u.key, r, aliases, lower).(tally := u.tally) &&
             IndexOf(users, u.key) == |users|)
  {
    hide CountsFor, NewUser, Weight, IndexOf, Users;
    var users, key := Users(records, aliases, lower, cutoff), CountsFor(r, aliases, lower, cutoff);
    UsersUnfold(records, r, key, aliases, lower, cutoff);
    if key.None? {
      assert u == u.(tally := u.tally);
    } else {
      NewUserKey(key.value, r, aliases, lower);
      SeatedUser(users, NewUser(key.value, r, aliases, lower), Weight(r), u);
    }
  }

  lemma SeatedUser(users: seq<User>, fresh': User, w: Tally, u: User)
    requires var seated := SetDefault(users, fresh');
             var i := IndexOf(seated, fresh'.key);
             i < |seated| && u in seated[i := seated[i].(tally := seated[i].tally.Plus(w))]
    ensures (exists was | was in users :: u == was.(tally := u.tally)) ||
            (u == fresh'.(tally := u.tally) && IndexOf(users, fresh'.key) == |users|)
  {
    hide IndexOf;
    var seated := SetDefault(users, fresh');
    var i := IndexOf(seated, fresh'.key);
    var all := seated[i := seated[i].(tally := seated[i].tally.Plus(w))];
    var k :| 0 <= k < |all| && all[k] == u;
    assert u == seated[k].(tally := u.tally);
    if k < |users| {
      assert seated[k] == users[k] && users[k] in users;
    }
  }

  lemma NewUserKey(key: string, r: Record, aliases: map<string, string>, lower: Lower)
    ensures NewUser(key, r, aliases, lower).key == key
  {
  }

  /** Every user is named after the first record that counts for the user. */
  lemma {:induction false} UsersAreNamed(records: seq<Record>, aliases: map<string, string>, lower: Lower, cutoff: int)
    ensures forall u | u in Users(records, aliases, lower, cutoff) ::
              IsNamed(u, CountedFor(records, u.key, aliases, lower, cutoff), lower)
  {
    if records != [] {
      hide CountsFor, NewUser, IsNamed, Users, Chosen;
      var front, r := records[..|records| - 1], records[|records| - 1];
      assert records == front + [r];
      UsersAreNamed(front, aliases, lower, cutoff);
      var users, key := Users(front, aliases, lower, cutoff), CountsFor(r, aliases, lower, cutoff);
      forall u | u in Users(records, aliases, lower, cutoff)
        ensures IsNamed(u, CountedFor(records, u.key, aliases, lower, cutoff), lower)
      {
        OneMoreUser(front, r, u, aliases, lower, cutoff);
        OneMoreChosen(front, r, r => CountsFor(r, aliases, lower, cutoff) == Some(u.key));
        var more := if key == Some(u.key) then [r] else [];
        var counted := CountedFor(front, u.key, aliases, lower, cutoff);
        assert CountedFor(records, u.key, aliases, lower, cutoff) == counted + more;
        if was :| was in users && u == was.(tally := u.tally) {
          StillNamed(was, u.tally, counted, more, lower);
        } else {
          NobodyCountedYet(front, u.key, aliases, lower, cutoff);
          NewUserIsNamed(u.key, r, aliases, lower, cutoff);
          StillNamed(NewUser(u.key, r, aliases, lower), u.tally, [r], [], lower);
          assert counted + more == [r] + [];
        }
      }
    }
  }

  /**
   * A row, by the records that count for its user: its place, its numbers, the login if there is one, and an email, or
   * a name made from one, for nobody but the caller.
   */
  lemma RowsSay(runs: seq<Record>, prs: seq<Record>, lower: Lower, cutoff: int, current: set<string>, i: int)
    requires 0 <= i < |Ordered(runs, prs, lower, cutoff)|
    ensures var key := Ordered(runs, prs, lower, cutoff)[i].key;
            var row := Ranked(Ordered(runs, prs, lower, cutoff), current)[i];
            var counted := CountedFor(runs + prs, key, Aliases(runs + prs, lower), lower, cutoff);
            && row.rank == i + 1 && counted != [] && IsTallyOf(row.tally, counted)
            && row.email == (if key in current then NonEmpty(Normalized(counted[0].email, lower)) else None)
            && if row.login.Some? then key == "github:" + row.login.value && row.name == row.login.value
               else key == "email:" + Normalized(counted[0].email, lower) &&
                    if key in current then IsLocalPart(row.name, Normalized(counted[0].email, lower))
                    else row.name == "Open SWE user"
  {
    hide Users, Aliases, CountedFor, IsTallyOf, Normalized, IsLocalPart, CountsFor, Sort, UserOrder;
    var aliases := Aliases(runs + prs, lower);
    UsersAreNamed(runs + prs, aliases, lower, cutoff);
    NumbersAreCounted(runs + prs, aliases, lower, cutoff);
    SameElements(Users(runs + prs, aliases, lower, cutoff), UserOrder());
    assert Ordered(runs, prs, lower, cutoff)[i] in Ordered(runs, prs, lower, cutoff);
  }

  lemma RearrangedIsExact(a: seq<User>, b: seq<User>, records: seq<Record>, aliases: map<string, string>, lower: Lower,
                          cutoff: int)
    requires multiset(a) == multiset(b) && (forall u :: u in b <==> u in a) && Exact(a, records, aliases, lower, cutoff)
    ensures Exact(b, records, aliases, lower, cutoff)
  {
    hide CountsFor, TallyFor;
    DistinctKeysPermute(KeyOf, a, b);
    forall r | r in records && CountsFor(r, aliases, lower, cutoff).Some?
      ensures exists u | u in b :: u.key == CountsFor(r, aliases, lower, cutoff).value
    {
      var u :| u in a && u.key == CountsFor(r, aliases, lower, cutoff).value;
      assert u in b;
    }
  }

  lemma {:induction false} SumOfRearranged(a: seq<User>, b: seq<User>)
    requires multiset(a) == multiset(b)
    ensures SumOf(a) == SumOf(b)
    decreases |a|
  {
    assert |a| == |multiset(a)| && |b| == |multiset(b)|;
    if a != [] {
      var last := a[|a| - 1];
      assert last in multiset(b);
      var k :| 0 <= k < |b| && b[k] == last;
      WithoutAt(a, |a| - 1);
      WithoutAt(b, k);
      assert a[..|a| - 1] + a[|a| - 1 + 1..] == a[..|a| - 1];
      SumOfRearranged(a[..|a| - 1], b[..k] + b[k + 1..]);
      SumOfWithout(b, k);
    }
  }

  lemma {:induction false} SumOfWithout(b: seq<User>, k: int)
    requires 0 <= k < |b|
    ensures SumOf(b) == SumOf(b[..k] + b[k + 1..]).Plus(b[k].tally)
  {
    hide *;
    var front, last := b[..|b| - 1], b[|b| - 1];
    assert b == front + [last];
    SumOfMore(front, last);
    if k == |b| - 1 {
      assert b[..k] + b[k + 1..] == front;
    } else {
      SumOfWithout(front, k);
      var less := front[..k] + front[k + 1..];
      assert b[..k] + b[k + 1..] == less + [last];
      SumOfMore(less, last);
      PlusSwaps(SumOf(less), front[k].tally, last.tally);
    }
  }

  lemma PlusSwaps(a: Tally, b: Tally, c: Tally)
    ensures a.Plus(b).Plus(c) == a.Plus(c).Plus(b)
  {
  }

  lemma SumOfMore(users: seq<User>, user: User)
    ensures SumOf(users + [user]) == SumOf(users).Plus(user.tally)
  {
    assert (users + [user])[..|users|] == users;
  }

  // ---------------------------------------------------------------- the current user

  lemma {:induction false} CurrentRowIsLast(ordered: seq<User>, current: set<string>, p: nat)
    requires p < |ordered| && ordered[p].key in current
    ensures var row := CurrentRow(ordered, current);
            row.Some? && p < row.value.rank <= |ordered| &&
            ordered[row.value.rank - 1].key in current &&
            row.value == RowOf(ordered[row.value.rank - 1], row.value.rank, current) &&
            forall q | row.value.rank <= q < |ordered| :: ordered[q].key !in current
  {
    if ordered[|ordered| - 1].key !in current {
      CurrentRowIsLast(ordered[..|ordered| - 1], current, p);
    }
  }

  lemma FirstRows(ordered: seq<User>, current: set<string>, limit: int)
    ensures var limited := FirstN(FirstN(Ranked(ordered, current), 100), Cut(limit));
            |limited| == (if |ordered| < Cut(limit) then |ordered| else Cut(limit)) &&
            forall i | 0 <= i < |limited| :: limited[i] == RowOf(ordered[i], i + 1, current)
  {
    hide RowOf;
  }

  lemma RankOf(user: User, rank: int, current: set<string>)
    ensures RowOf(user, rank, current).rank == rank
  {
  }

  /**
   * A row of the caller's is shown exactly when it is among the first rows or is the caller's last:
   * when login and email name two users past the limit, the better placed of the two is not shown.
   */
  lemma WhoIsShown(ordered: seq<User>, current: set<string>, limit: int, p: nat)
    requires p < |ordered| && ordered[p].key in current
    ensures var rows := LimitedRows(FirstN(Ranked(ordered, current), 100), CurrentRow(ordered, current), limit);
            RowOf(ordered[p], p + 1, current) in rows <==>
            p < Cut(limit) || forall q | p < q < |ordered| :: ordered[q].key !in current
  {
    hide CurrentRow, RowOf, FirstN, Ranked, Cut;
    CurrentRowIsLast(ordered, current, p);
    FirstRows(ordered, current, limit);
    var limited := FirstN(FirstN(Ranked(ordered, current), 100), Cut(limit));
    var row := CurrentRow(ordered, current).value;
    var mine := RowOf(ordered[p], p + 1, current);
    forall i | 0 <= i < |limited| ensures limited[i].rank == i + 1 {
      RankOf(ordered[i], i + 1, current);
    }
    RankOf(ordered[p], p + 1, current);
    if p < Cut(limit) {
      assert limited[p] == mine;
    } else {
      assert mine !in limited;
      if row.rank - 1 > p {
        assert row.rank != mine.rank;
      } else {
        assert row == mine;
      }
    }
  }

  lemma {:induction false} CurrentRowIsSomebodys(ordered: seq<User>, current: set<string>)
    ensures var row := CurrentRow(ordered, current);
            row.Some? ==>
              1 <= row.value.rank <= |ordered| &&
              row.value == RowOf(ordered[row.value.rank - 1], row.value.rank, current)
  {
    hide RowOf;
    if ordered != [] {
      RankOf(ordered[|ordered| - 1], |ordered|, current);
      if ordered[|ordered| - 1].key !in current {
        CurrentRowIsSomebodys(ordered[..|ordered| - 1], current);
      }
    }
  }

  predicate Anonymous(row: Row, user: User, current: set<string>) {
    user.key !in current ==> row.email == None && (user.login == "" ==> row.name == "Open SWE user")
  }

  /** Every row shown is a user's own, with the true rank; nobody else's email is shown, nor a name made from one. */
  lemma ShownRowsAreTrue(ordered: seq<User>, current: set<string>, limit: int, row: Row)
    requires row in LimitedRows(FirstN(Ranked(ordered, current), 100), CurrentRow(ordered, current), limit)
    ensures 1 <= row.rank <= |ordered| && row == RowOf(ordered[row.rank - 1], row.rank, current) &&
            Anonymous(row, ordered[row.rank - 1], current)
  {
    hide *;
    FirstRows(ordered, current, limit);
    CurrentRowIsSomebodys(ordered, current);
    var rows := FirstN(Ranked(ordered, current), 100);
    RowsAdded(rows, CurrentRow(ordered, current), limit, row);
    var limited := FirstN(rows, Cut(limit));
    if row in limited {
      var i :| 0 <= i < |limited| && limited[i] == row;
      RankOf(ordered[i], i + 1, current);
      RowIsAnonymous(ordered[i], i + 1, current);
    } else {
      RowIsAnonymous(ordered[row.rank - 1], row.rank, current);
    }
  }

  lemma RowsAdded(rows: seq<Row>, current: Option<Row>, limit: int, row: Row)
    ensures row in LimitedRows(rows, current, limit) ==> row in FirstN(rows, Cut(limit)) || current == Some(row)
  {
    hide FirstN, Cut;
  }

  lemma RowIsAnonymous(user: User, rank: int, current: set<string>)
    ensures Anonymous(RowOf(user, rank, current), user, current)
  {
  }

  /** Unless login and email name two users, the caller's row is always shown, with its true rank. */
  lemma CurrentUserIsShown(runs: seq<Record>, prs: seq<Record>, lower: Lower, cutoff: int,
                           login: Option<string>, email: Option<string>, limit: int, p: nat)
    requires Normalized(login, lower) == "" || Normalized(email, lower) == "" ||
             Normalized(email, lower) in Aliases(runs + prs, lower)
    requires p < |Ordered(runs, prs, lower, cutoff)|
    requires Ordered(runs, prs, lower, cutoff)[p].key in CurrentKeys(login, email, lower)
    ensures var current := CurrentKeys(login, email, lower);
            RowOf(Ordered(runs, prs, lower, cutoff)[p], p + 1, current) in
            Leaderboard(runs, prs, lower, cutoff, current, limit)
  {
    var current := CurrentKeys(login, email, lower);
    var ordered := Ordered(runs, prs, lower, cutoff);
    hide *;
    OrderedIsExact(runs, prs, lower, cutoff);
    ExactIsDistinct(ordered, runs + prs, Aliases(runs + prs, lower), lower, cutoff);
    forall q | p < q < |ordered| ensures ordered[q].key !in current {
      UserKeysAreProper(ordered, runs + prs, lower, cutoff, Normalized(email, lower), p);
      UserKeysAreProper(ordered, runs + prs, lower, cutoff, Normalized(email, lower), q);
      DistinctAt(ordered, p, q);
      OneKeyAtMost(login, email, lower, ordered[p].key, ordered[q].key,
                   Normalized(email, lower) in Aliases(runs + prs, lower));
    }
    WhoIsShown(ordered, current, limit, p);
    BoardIs(runs, prs, lower, cutoff, current, limit);
  }

  lemma BoardIs(runs: seq<Record>, prs: seq<Record>, lower: Lower, cutoff: int, current: set<string>, limit: int)
    ensures var ordered := Ordered(runs, prs, lower, cutoff);
            Leaderboard(runs, prs, lower, cutoff, current, limit) ==
            LimitedRows(FirstN(Ranked(ordered, current), 100), CurrentRow(ordered, current), limit)
  {
  }

  lemma ExactIsDistinct(users: seq<User>, records: seq<Record>, aliases: map<string, string>, lower: Lower, cutoff: int)
    requires Exact(users, records, aliases, lower, cutoff)
    ensures DistinctUsers(users)
  {
  }

  lemma DistinctAt(users: seq<User>, p: nat, q: nat)
    requires DistinctUsers(users) && p < q < |users|
    ensures users[p].key != users[q].key
  {
    assert KeyOf(users[p]) != KeyOf(users[q]);
  }

  lemma OneKeyAtMost(login: Option<string>, email: Option<string>, lower: Lower, a: string, b: string, aliased: bool)
    requires Normalized(login, lower) == "" || Normalized(email, lower) == "" || aliased
    requires a != "" && b != "" && a != b && a in CurrentKeys(login, email, lower)
    requires aliased ==> a != "email:" + Normalized(email, lower) && b != "email:" + Normalized(email, lower)
    ensures b !in CurrentKeys(login, email, lower)
  {
    hide Normalized;
  }

  lemma UserKeysAreProper(ordered: seq<User>, records: seq<Record>, lower: Lower, cutoff: int, email: string, p: nat)
    requires Exact(ordered, records, Aliases(records, lower), lower, cutoff) && p < |ordered|
    ensures ordered[p].key != ""
    ensures email in Aliases(records, lower) ==> ordered[p].key != "email:" + email
  {
    hide *;
    var aliases := Aliases(records, lower);
    var r := WhoCountsFor(ordered, records, aliases, lower, cutoff, p);
    KeyIsNotEmpty(r, aliases, lower, cutoff);
    AliasesNameSomebody(records, lower);
    if email in aliases {
      PairedEmailIsNoUser(r, email, aliases, lower);
    }
  }

  lemma WhoCountsFor(users: seq<User>, records: seq<Record>, aliases: map<string, string>, lower: Lower, cutoff: int,
                     p: nat)
    returns (r: Record)
    requires Exact(users, records, aliases, lower, cutoff) && p < |users|
    ensures r in records && CountsFor(r, aliases, lower, cutoff) == Some(users[p].key) == UserKey(r, aliases, lower)
  {
    hide UserKey, TallyFor;
    assert users[p] in users;
    r :| r in records && CountsFor(r, aliases, lower, cutoff) == Some(users[p].key);
  }

  lemma KeyIsNotEmpty(r: Record, aliases: map<string, string>, lower: Lower, cutoff: int)
    ensures CountsFor(r, aliases, lower, cutoff) != Some("")
  {
    hide Normalized, InPeriod;
  }

  /** A name that normalizing leaves as it is. */
  predicate IsPlain(name: string, lower: Lower) {
    name != "" && Normalized(Some(name), lower) == name
  }

  function RunBy(login: string): Record {
    Run(Some(login), None, 1)
  }

  function RunFrom(email: string): Record {
    Run(None, Some(email), 1)
  }

  function LoginUser(login: string, runs: int): User {
    User("github:" + login, login, "", login, Tally(runs, 0, 0, 0, 0, 0))
  }

  function EmailUser(email: string, runs: int): User {
    User("email:" + email, "", email, email[..LengthBefore(email, '@')], Tally(runs, 0, 0, 0, 0, 0))
  }

  lemma RunsOf(name: string, lower: Lower)
    requires IsPlain(name, lower)
    ensures CountsFor(RunBy(name), map[], lower, 0) == Some(LoginUser(name, 0).key)
    ensures NewUser(LoginUser(name, 0).key, RunBy(name), map[], lower) == LoginUser(name, 0)
    ensures CountsFor(RunFrom(name), map[], lower, 0) == Some(EmailUser(name, 0).key)
    ensures NewUser(EmailUser(name, 0).key, RunFrom(name), map[], lower) == EmailUser(name, 0)
  {
    hide Strip;
  }

  lemma KeysDiffer(a: string, b: string)
    ensures LoginUser(a, 0).key != EmailUser(b, 0).key
    ensures a != b ==> LoginUser(a, 0).key != LoginUser(b, 0).key
  {
    assert LoginUser(a, 0).key[0] == 'g' && EmailUser(b, 0).key[0] == 'e';
    assert LoginUser(a, 0).key[7..] == a && LoginUser(b, 0).key[7..] == b;
  }

  lemma IndexIs(users: seq<User>, key: string, i: nat)
    requires i <= |users| && (i < |users| ==> users[i].key == key) && forall j | 0 <= j < i :: users[j].key != key
    ensures IndexOf(users, key) == i
  {
    hide IndexOf;
  }

  lemma CountOne(front: seq<Record>, r: Record, lower: Lower, fresh': User, before: seq<User>)
    requires CountsFor(r, map[], lower, 0) == Some(fresh'.key) && NewUser(fresh'.key, r, map[], lower) == fresh' &&
             fresh'.tally == ZERO
    requires before == Users(front, map[], lower, 0) && forall u | u in before :: u.key != fresh'.key
    ensures Users(front + [r], map[], lower, 0) == before + [fresh'.(tally := ZERO.Plus(Weight(r)))]
  {
    hide CountsFor, NewUser, Users, Weight, IndexOf, Tally.Plus;
    var users, i := UsersStep(front, r, map[], lower, 0);
    IndexIs(before, fresh'.key, |before|);
    IndexIs(before + [fresh'], fresh'.key, |before|);
  }

  lemma {:induction false} NoAliases(records: seq<Record>, lower: Lower)
    requires forall r | r in records :: r.login.None? || r.email.None?
    ensures Aliases(records, lower) == map[]
  {
    hide Strip;
    if records != [] {
      NoAliases(records[..|records| - 1], lower);
    }
  }

  lemma NobodyYet(lower: Lower)
    ensures Users([], map[], lower, 0) == []
  {
  }

  lemma OneMoreRun(name: string, runs: int)
    ensures LoginUser(name, runs).(tally := LoginUser(name, runs).tally.Plus(Weight(RunBy(name)))) ==
            LoginUser(name, runs + 1)
    ensures EmailUser(name, runs).(tally := EmailUser(name, runs).tally.Plus(Weight(RunFrom(name)))) ==
            EmailUser(name, runs + 1)
    ensures LoginUser(name, 0).tally == ZERO == EmailUser(name, 0).tally
  {
  }

  lemma CountLogin(front: seq<Record>, name: string, lower: Lower, before: seq<User>)
    requires IsPlain(name, lower) && before == Users(front, map[], lower, 0) &&
             forall u | u in before :: u.key != LoginUser(name, 0).key
    ensures Users(front + [RunBy(name)], map[], lower, 0) == before + [LoginUser(name, 1)]
  {
    hide *;
    RunsOf(name, lower);
    OneMoreRun(name, 0);
    CountOne(front, RunBy(name), lower, LoginUser(name, 0), before);
  }

  lemma CountEmail(front: seq<Record>, email: string, lower: Lower, before: seq<User>)
    requires IsPlain(email, lower) && before == Users(front, map[], lower, 0) &&
             forall u | u in before :: u.key != EmailUser(email, 0).key
    ensures Users(front + [RunFrom(email)], map[], lower, 0) == before + [EmailUser(email, 1)]
  {
    hide *;
    RunsOf(email, lower);
    OneMoreRun(email, 0);
    CountOne(front, RunFrom(email), lower, EmailUser(email, 0), before);
  }

  lemma DefaultOfListed(users: seq<User>, i: nat, fresh': User)
    requires i < |users| && users[i].key == fresh'.key && forall j | 0 <= j < i :: users[j].key != fresh'.key
    ensures SetDefault(users, fresh') == users && IndexOf(users, fresh'.key) == i
  {
    hide IndexOf;
    IndexIs(users, fresh'.key, i);
  }

  lemma CountTwice(name: string, lower: Lower)
    requires IsPlain(name, lower)
    ensures Users([RunBy(name), RunBy(name)], map[], lower, 0) == [LoginUser(name, 2)]
  {
    hide *;
    RunsOf(name, lower);
    NobodyYet(lower);
    var a := RunBy(name);
    CountLogin([], name, lower, []);
    assert [] + [a] == [a] && [a] + [a] == [a, a] && [] + [LoginUser(name, 1)] == [LoginUser(name, 1)];
    var users, i := UsersStep([a], a, map[], lower, 0);
    SameKey(name, 1);
    DefaultOfListed([LoginUser(name, 1)], 0, LoginUser(name, 0));
    OneMoreRun(name, 1);
  }

  lemma SameKey(name: string, runs: int)
    ensures LoginUser(name, runs).key == LoginUser(name, 0).key && EmailUser(name, runs).key == EmailUser(name, 0).key
  {
  }

  lemma CountedUsers(other: string, login: string, email: string, lower: Lower)
    requires IsPlain(other, lower) && IsPlain(login, lower) && IsPlain(email, lower) && other != login
    ensures Users([RunBy(other), RunBy(other), RunBy(login), RunFrom(email)], map[], lower, 0) ==
            [LoginUser(other, 2), LoginUser(login, 1), EmailUser(email, 1)]
  {
    hide *;
    KeysDiffer(other, login);
    KeysDiffer(other, email);
    KeysDiffer(login, email);
    SameKey(other, 2);
    SameKey(login, 1);
    CountTwice(other, lower);
    var a, b, c := RunBy(other), RunBy(login), RunFrom(email);
    assert [a, a] + [b] == [a, a, b] && [a, a, b] + [c] == [a, a, b, c];
    CountLogin([a, a], login, lower, [LoginUser(other, 2)]);
    CountEmail([a, a, b], email, lower, [LoginUser(other, 2), LoginUser(login, 1)]);
  }

  lemma ThreeInOrder(a: User, b: User, c: User)
    requires !RanksBefore(b, c) && RanksBefore(a, c) && RanksBefore(a, b)
    ensures Sort([a, b, c], UserOrder()) == [a, c, b]
  {
    hide RanksBefore;
    assert [a, b, c][1..] == [b, c] && [b, c][1..] == [c] && [c][1..] == [];
    assert Sort([c], UserOrder()) == [c];
    assert Sort([b, c], UserOrder()) == Insert(b, [c], UserOrder()) == [c] + Insert(b, [], UserOrder());
    assert Sort([b, c], UserOrder()) == [c, b];
  }

  lemma KeysOf(login: string, email: string, lower: Lower)
    requires IsPlain(login, lower) && IsPlain(email, lower)
    ensures LoginUser(login, 1).key in CurrentKeys(Some(login), Some(email), lower)
    ensures EmailUser(email, 1).key in CurrentKeys(Some(login), Some(email), lower)
  {
    hide Strip;
  }

  lemma TwoPlacesInOrder(other: string, login: string, email: string, lower: Lower)
    requires IsPlain(other, lower) && IsPlain(login, lower) && IsPlain(email, lower) && other != login
    requires !AtMost(login, email[..LengthBefore(email, '@')])
    ensures Ordered([RunBy(other), RunBy(other), RunBy(login), RunFrom(email)], [], lower, 0) ==
            [LoginUser(other, 2), EmailUser(email, 1), LoginUser(login, 1)]
  {
    var runs := [RunBy(other), RunBy(other), RunBy(login), RunFrom(email)];
    var a, b, c := LoginUser(other, 2), LoginUser(login, 1), EmailUser(email, 1);
    ThreeInOrder(a, b, c);
    hide Users, Aliases, IsPlain, Sort;
    NoAliases(runs, lower);
    CountedUsers(other, login, email, lower);
    assert runs + [] == runs;
  }

  /**
   * A caller known by login in one record and by email in another takes two places, and with limit 1 only the worse one
   * is shown.
   */
  lemma TwoPlacesOneShown(other: string, login: string, email: string, lower: Lower)
    requires IsPlain(other, lower) && IsPlain(login, lower) && IsPlain(email, lower) && other != login
    requires !AtMost(login, email[..LengthBefore(email, '@')])
    ensures var runs := [RunBy(other), RunBy(other), RunBy(login), RunFrom(email)];
            var current := CurrentKeys(Some(login), Some(email), lower);
            var ordered := Ordered(runs, [], lower, 0);
            |ordered| == 3 && ordered[1].key in current && ordered[2].key in current &&
            RowOf(ordered[1], 2, current) !in Leaderboard(runs, [], lower, 0, current, 1) &&
            RowOf(ordered[2], 3, current) in Leaderboard(runs, [], lower, 0, current, 1)
  {
    hide Ordered, CurrentKeys, RowOf, LimitedRows, IsPlain, Ranked, CurrentRow, FirstN, LoginUser, EmailUser, AtMost;
    TwoPlacesInOrder(other, login, email, lower);
    KeysOf(login, email, lower);
    var current := CurrentKeys(Some(login), Some(email), lower);
    var ordered := [LoginUser(other, 2), EmailUser(email, 1), LoginUser(login, 1)];
    WhoIsShown(ordered, current, 1, 1);
    WhoIsShown(ordered, current, 1, 2);
  }

  // ---------------------------------------------------------------- the aggregation loops

  lemma NextRecord(records: seq<Record>, before: seq<Record>, i: nat)
    requires i < |records|
    ensures before + records[..i + 1] == before + records[..i] + [records[i]]
  {
  }

  lemma CurrentRowStep(ordered: seq<User>, i: nat, current: set<string>)
    requires i < |ordered|
    ensures CurrentRow(ordered[..i + 1], current) ==
            if ordered[i].key in current then Some(RowOf(ordered[i], i + 1, current))
            else CurrentRow(ordered[..i], current)
  {
    assert ordered[..i + 1][..i] == ordered[..i];
  }

  lemma RankedStep(ordered: seq<User>, i: nat, current: set<string>)
    requires i < |ordered|
    ensures FirstN(Ranked(ordered[..i + 1], current), 100) ==
            if i < 100 then FirstN(Ranked(ordered[..i], current), 100) + [RowOf(ordered[i], i + 1, current)]
            else FirstN(Ranked(ordered[..i], current), 100)
    ensures |FirstN(Ranked(ordered[..i], current), 100)| < 100 <==> i < 100
  {
    hide RowOf;
    assert Ranked(ordered[..i + 1], current) == Ranked(ordered[..i], current) + [RowOf(ordered[i], i + 1, current)];
  }

  /** One pass over the records of one kind, counting each for its user. */
  method CountRecords(users: seq<User>, before: seq<Record>, records: seq<Record>, aliases: map<string, string>,
                      lower: Lower, cutoff: int)
    returns (counted: seq<User>)
    requires users == Users(before, aliases, lower, cutoff)
    ensures counted == Users(before + records, aliases, lower, cutoff)
  {
    hide Users, InPeriod, UserKey, NewUser, IndexOf, SetDefault;
    counted := users;
    assert before + records[..0] == before;
    for i := 0 to |records|
      invariant counted == Users(before + records[..i], aliases, lower, cutoff)
    {
      NextRecord(records, before, i);
      var r := records[i];
      if !InPeriod(r, cutoff) {
        NobodyCounted(before + records[..i], r, aliases, lower, cutoff);
        continue;
      }
      var key := UserKey(r, aliases, lower);
      if key.None? {
        NobodyCounted(before + records[..i], r, aliases, lower, cutoff);
        continue;
      }
      ghost var listed, at := UsersStep(before + records[..i], r, aliases, lower, cutoff);
      counted := SetDefault(counted, NewUser(key.value, r, aliases, lower));
      var k := IndexOf(counted, key.value);
      var tally := counted[k].tally;
      if r.Run? {
        tally := tally.(runs := tally.runs + 1);
      } else {
        tally := tally.(prs := tally.prs + 1);
        tally := tally.(merged := tally.merged + if r.merged then 1 else 0);
        tally := tally.(additions := tally.additions + r.additions);
        tally := tally.(deletions := tally.deletions + r.deletions);
        tally := tally.(loc := tally.loc + r.additions + r.deletions);
      }
      counted := counted[k := counted[k].(tally := tally)];
    }
    assert records[..|records|] == records;
  }

  /**
   * `list_agent_usage_leaderboard` past its cache and backfill: the rows shown, the member count and the caller's rank.
   */
  method ListAgentUsageLeaderboard(runs: seq<Record>, prs: seq<Record>, lower: Lower, cutoff: int,
                                   login: Option<string>, email: Option<string>, limit: int)
    returns (shown: seq<Row>, members: nat, rank: Option<int>)
    requires (forall r | r in runs :: r.Run?) && forall r | r in prs :: r.Pr?
    ensures var current := CurrentKeys(login, email, lower);
            var ordered := Ordered(runs, prs, lower, cutoff);
            shown == Leaderboard(runs, prs, lower, cutoff, current, limit) && members == |ordered| &&
            rank == match CurrentRow(ordered, current) { case None => None case Some(row) => Some(row.rank) }
  {
    hide Users, Aliases, Sort, RowOf, CurrentKeys, FirstN, Ranked, CurrentRow;
    var aliases := Aliases(runs + prs, lower);
    NobodyListed(aliases, lower, cutoff);
    var users := CountRecords([], [], runs, aliases, lower, cutoff);
    assert [] + runs == runs;
    users := CountRecords(users, runs, prs, aliases, lower, cutoff);
    var ordered := Sort(users, UserOrder());
    var current := CurrentKeys(login, email, lower);
    var rows: seq<Row> := [];
    var currentRow: Option<Row> := None;
    NoRows(current);
    assert ordered[..0] == [];
    for i := 0 to |ordered|
      invariant rows == FirstN(Ranked(ordered[..i], current), 100)
      invariant currentRow == CurrentRow(ordered[..i], current)
    {
      CurrentRowStep(ordered, i, current);
      RankedStep(ordered, i, current);
      var row := RowOf(ordered[i], i + 1, current);
      if ordered[i].key in current {
        currentRow := Some(row);
      }
      if |rows| < 100 {
        rows := rows + [row];
      }
    }
    assert ordered[..|ordered|] == ordered;
    shown := LimitedRows(rows, currentRow, limit);
    members := |ordered|;
    rank := match currentRow { case None => None case Some(row) => Some(row.rank) };
  }

  lemma NobodyListed(aliases: map<string, string>, lower: Lower, cutoff: int)
    ensures Users([], aliases, lower, cutoff) == []
  {
  }

  lemma NoRows(current: set<string>)
    ensures FirstN(Ranked([], current), 100) == [] && CurrentRow([], current) == None
  {
  }

  // ---------------------------------------------------------------- the record of a pull request

  /** Times are milliseconds since 1970. */
  type Instant = n: int | n > 0 witness 1

  datatype PrUsage = PrUsage(
    threadId: string, login: string, email: string, createdAt: int, url: string, head: string, base: string,
    additions: int, deletions: int, changedFiles: int, state: string, merged: bool, mergedAt: int, updatedAt: int)

  datatype PrReport = PrReport(
    threadId: Option<string>, login: Option<string>, email: Option<string>, createdAt: int, url: Option<string>,
    head: string, base: string,
    additions: int, deletions: int, changedFiles: int, state: Option<string>, merged: bool, mergedAt: int, now: Instant)

  function AtLeastZero(n: int): int {
    if n < 0 then 0 else n
  }

  function OrElse(n: int, fallback: int): int {
    if n != 0 then n else fallback
  }

  function OrText(text: Option<string>, fallback: string): string {
    if text.GetOr("") != "" then text.value else fallback
  }

  /** The `update` of `record_agent_pr_usage`. */
  function UpdatePr(existing: Option<PrUsage>, r: PrReport, lower: Lower): PrUsage {
    var wasMerged := existing.Some? && existing.value.merged;
    var value := PrUsage(
      OrText(r.threadId, ""), Normalized(r.login, lower), Normalized(r.email, lower),
        OrElse(TimestampMs(r.createdAt), r.now),
      OrText(r.url, if existing.Some? then existing.value.url else ""), r.head, r.base,
      AtLeastZero(r.additions), AtLeastZero(r.deletions), AtLeastZero(r.changedFiles),
      if wasMerged then "closed" else OrText(r.state, "open"), wasMerged || r.merged,
      OrElse(TimestampMs(r.mergedAt), if existing.Some? then existing.value.mergedAt else 0), r.now);
    match existing
    case None => value
    case Some(old') =>
      value.(threadId := old'.threadId, login := old'.login, email := old'.email, createdAt := old'.createdAt)
  }

  /** The stored record after the reports in order. */
  function PrHistory(reports: seq<PrReport>, lower: Lower): Option<PrUsage> {
    if reports == [] then None
    else Some(UpdatePr(PrHistory(reports[..|reports| - 1], lower), reports[|reports| - 1], lower))
  }

  /** The last nonzero merge time reported. */
  function LastMergedAt(reports: seq<PrReport>): int {
    if reports == [] then 0
    else OrElse(TimestampMs(reports[|reports| - 1].mergedAt), LastMergedAt(reports[..|reports| - 1]))
  }

  /** The last address that was reported, or none. */
  predicate IsLastUrl(url: string, reports: seq<PrReport>) {
    (url == "" && forall i | 0 <= i < |reports| :: reports[i].url.GetOr("") == "") ||
    exists i | 0 <= i < |reports| :: url != "" && reports[i].url == Some(url) &&
                                     forall j | i < j < |reports| :: reports[j].url.GetOr("") == ""
  }

  lemma NoUrl()
    ensures IsLastUrl("", [])
  {
  }

  lemma OneMoreUrl(url: string, reports: seq<PrReport>, r: PrReport)
    requires IsLastUrl(url, reports)
    ensures IsLastUrl(OrText(r.url, url), reports + [r])
  {
    var more := reports + [r];
    if r.url.GetOr("") != "" {
      assert more[|reports|].url == Some(r.url.value);
    } else if url != "" {
      var i :| 0 <= i < |reports| && reports[i].url == Some(url) &&
               forall j | i < j < |reports| :: reports[j].url.GetOr("") == "";
      assert more[i].url == Some(url);
    }
  }

  /**
   * However often a pull request is reported again, its attribution stays the first report's, a merge is never undone,
   * and once merged it stays closed; the counts are the latest report's.
   */
  lemma {:induction false} AttributionIsKept(reports: seq<PrReport>, lower: Lower)
    requires reports != []
    ensures var first, last := reports[0], reports[|reports| - 1];
            var pr := PrHistory(reports, lower).value;
            pr.threadId == OrText(first.threadId, "") && pr.login == Normalized(first.login, lower) &&
            pr.email == Normalized(first.email, lower) &&
            pr.createdAt == OrElse(TimestampMs(first.createdAt), first.now) &&
            (pr.merged <==> exists i :: 0 <= i < |reports| && reports[i].merged) &&
            (pr.state == if exists i :: 0 <= i < |reports| - 1 && reports[i].merged then "closed"
                         else if last.state.GetOr("") != "" then last.state.value else "open") &&
            pr.mergedAt == LastMergedAt(reports) && pr.updatedAt == last.now && pr.head == last.head &&
            pr.base == last.base &&
            (pr.additions == if last.additions >= 0 then last.additions else 0) &&
            (pr.deletions == if last.deletions >= 0 then last.deletions else 0) &&
            (pr.changedFiles == if last.changedFiles >= 0 then last.changedFiles else 0) &&
            IsLastUrl(pr.url, reports)
  {
    hide Normalized, TimestampMs, IsLastUrl;
    var front, last := reports[..|reports| - 1], reports[|reports| - 1];
    assert reports == front + [last];
    if front == [] {
      NoUrl();
      OneMoreUrl("", front, last);
      assert reports == [last] && PrHistory(front, lower) == None && LastMergedAt(front) == 0;
    } else {
      AttributionIsKept(front, lower);
      OneMoreUrl(PrHistory(front, lower).value.url, front, last);
      assert forall i | 0 <= i < |front| :: front[i] == reports[i];
    }
  }

  // ---------------------------------------------------------------- the record of a finding

  datatype FindingUsage = FindingUsage(
    severity: string, category: string, status: string, firstSeen: string, lastConfirmed: string, surfacedAt: int,
    humanReplies: nat,
    recordedAt: int, resolvedAt: int, resolvedSha: string, updatedAt: int)

  datatype Finding = Finding(
    severity: Option<string>, category: Option<string>, status: Option<string>, firstSeen: Option<string>,
    lastConfirmed: Option<string>,
    surfaced: bool, humanReplies: nat)

  /** A finding arrives with a published review, or alone when its state changes. */
  datatype FindingEvent = Published(finding: Finding, now: Instant) | StateChanged(finding: Finding, now: Instant)

  function Resolve(value: FindingUsage, now: Instant): FindingUsage {
    if value.status == "resolved" && value.resolvedAt == 0 then
        value.(resolvedAt := now, resolvedSha := value.lastConfirmed) else value
  }

  /** The `update` closures of `record_reviewer_publication` and `record_reviewer_finding_state`. */
  function UpdateFinding(existing: Option<FindingUsage>, event: FindingEvent): Option<FindingUsage> {
    var f, now := event.finding, event.now;
    match existing
    case None =>
      if event.StateChanged? then None
      else
        Some(Resolve(FindingUsage(
          OrText(f.severity, ""), OrText(f.category, ""), OrText(f.status, "open"), OrText(f.firstSeen, ""),
            OrText(f.lastConfirmed, ""),
          if f.surfaced then now else 0, f.humanReplies, now, 0, "", now), now))
    case Some(old') =>
      Some(Resolve(old'.(
        severity := OrText(f.severity, if event.Published? then "" else old'.severity),
        category := OrText(f.category, if event.Published? then "" else old'.category),
        status := OrText(f.status, "open"),
        firstSeen := if event.Published? then OrText(f.firstSeen, "") else old'.firstSeen,
        lastConfirmed := OrText(f.lastConfirmed, ""),
        surfacedAt := OrElse(old'.surfacedAt, if f.surfaced then now else 0),
        humanReplies := f.humanReplies, updatedAt := now), now))
  }

  function FindingHistory(events: seq<FindingEvent>): Option<FindingUsage> {
    if events == [] then None else UpdateFinding(FindingHistory(events[..|events| - 1]), events[|events| - 1])
  }

  predicate SaysResolved(event: FindingEvent) {
    event.finding.status == Some("resolved")
  }

  /** The time of the first event that surfaces the finding, or 0. */
  function FirstSurfaced(events: seq<FindingEvent>): int {
    if events == [] then 0 else if events[0].finding.surfaced then events[0].now else FirstSurfaced(events[1..])
  }

  /** The first event that says the finding is resolved. */
  function FirstResolved(events: seq<FindingEvent>): Option<FindingEvent> {
    if events == [] then None else if SaysResolved(events[0]) then Some(events[0]) else FirstResolved(events[1..])
  }

  lemma {:induction false} FirstOfMore(events: seq<FindingEvent>, event: FindingEvent)
    ensures FirstSurfaced(events + [event]) ==
            OrElse(FirstSurfaced(events), if event.finding.surfaced then event.now else 0)
    ensures FirstResolved(events + [event]) ==
            if FirstResolved(events).Some? then FirstResolved(events) else if SaysResolved(event) then Some(event)
            else None
  {
    hide SaysResolved;
    if events == [] {
      assert events + [event] == [event];
    } else {
      assert (events + [event])[1..] == events[1..] + [event];
      FirstOfMore(events[1..], event);
    }
  }

  /**
   * From its first publication on, a finding keeps the time it was recorded, the time it first surfaced, and the time
   * and commit of its first resolution, whatever is reported later.
   */
  lemma {:induction false} FirstTimesAreKept(events: seq<FindingEvent>)
    requires events != [] && events[0].Published?
    ensures var finding := FindingHistory(events);
            finding.Some? && finding.value.recordedAt == events[0].now &&
            finding.value.surfacedAt == FirstSurfaced(events) &&
            (match FirstResolved(events)
             case None => finding.value.resolvedAt == 0
             case Some(event) =>
               finding.value.resolvedAt == event.now &&
               finding.value.resolvedSha == OrText(event.finding.lastConfirmed, "")) &&
            finding.value.status == OrText(events[|events| - 1].finding.status, "open")
  {
    var front, last := events[..|events| - 1], events[|events| - 1];
    FirstOfMore(front, last);
    assert events == front + [last];
    assert FirstSurfaced([]) == 0 && FirstResolved([]) == None && FindingHistory([]) == None;
    StatusSays(last);
    if front == [] {
    } else {
      FirstTimesAreKept(front);
    }
  }

  /** The latest event decides the rest; a change of state keeps what it does not mention. */
  lemma LatestEventDecides(events: seq<FindingEvent>, event: FindingEvent)
    requires FindingHistory(events + [event]).Some?
    ensures var (value, f) := (FindingHistory(events + [event]).value, event.finding);
            value.updatedAt == event.now && value.humanReplies == f.humanReplies &&
            (value.status == if f.status.GetOr("") != "" then f.status.value else "open") &&
            value.lastConfirmed == f.lastConfirmed.GetOr("") &&
            (event.Published? || f.severity.GetOr("") != "" ==> value.severity == f.severity.GetOr("")) &&
            (event.Published? || f.category.GetOr("") != "" ==> value.category == f.category.GetOr("")) &&
            (event.Published? ==> value.firstSeen == f.firstSeen.GetOr(""))
    ensures event.StateChanged? ==>
              var (was, value, f) := (FindingHistory(events), FindingHistory(events + [event]).value, event.finding);
              was.Some? && value.firstSeen == was.value.firstSeen && value.recordedAt == was.value.recordedAt &&
              (f.severity.GetOr("") == "" ==> value.severity == was.value.severity) &&
              (f.category.GetOr("") == "" ==> value.category == was.value.category)
  {
    assert (events + [event])[..|events|] == events;
  }

  lemma StatusSays(event: FindingEvent)
    ensures OrText(event.finding.status, "open") == "resolved" <==> SaysResolved(event)
  {
    assert "open"[0] != "resolved"[0];
  }

  /** Without a publication, state changes record nothing. */
  lemma {:induction false} OnlyPublicationsRecord(events: seq<FindingEvent>)
    ensures FindingHistory(events).Some? <==> exists event | event in events :: event.Published?
  {
    if events != [] {
      var front, last := events[..|events| - 1], events[|events| - 1];
      OnlyPublicationsRecord(front);
      assert last in events && (forall e | e in front :: e in events) &&
             forall e | e in events :: e in front || e == last;
    }
  }
}
