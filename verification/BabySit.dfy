/** The CI watch of one pull request: evaluations, webhooks, retry recordings, starting and stopping. */
module BabySit {
  import opened Common
  import opened Sorting

  const MAX_RETRIES_PER_HEAD := 3
  const MAX_DISPATCH_KEYS := 30
  const MAX_DELIVERY_IDS := 50
  const MAX_ALERT_KEYS := 30
  const MAX_EVALUATION_ERRORS := 3
  // Ten minutes, in microseconds.
  const SETTLE := 600_000_000

  type Sha = string -> string

  // ---------------------------------------------------------------- check lists

  /** A missing field prints as `None`. */
  datatype CheckRun = CheckRun(id: string, name: string, status: Option<string>, conclusion: Option<string>)

  datatype Status = Status(id: string, context: string, state: Option<string>)

  datatype State = Failing | Pending | Blocked | Success

  predicate FailingRun(run: CheckRun) {
    run.status == Some("completed") && run.conclusion.Some? &&
    run.conclusion.value in ["failure", "timed_out", "action_required"]
  }

  predicate FailingStatus(status: Status) {
    status.state == Some("failure") || status.state == Some("error")
  }

  predicate PassingRun(run: CheckRun) {
    run.conclusion.Some? && run.conclusion.value in ["success", "neutral", "skipped"]
  }

  function AggregateState(runs: seq<CheckRun>, statuses: seq<Status>): State {
    if (exists run | run in runs :: FailingRun(run)) ||
        (exists status | status in statuses :: FailingStatus(status)) then Failing
    else if (exists run | run in runs :: run.status != Some("completed")) ||
            (exists status | status in statuses :: status.state == Some("pending")) then Pending
    else if runs == [] && statuses == [] then Pending
    else if (exists run | run in runs :: !PassingRun(run)) ||
            (exists status | status in statuses :: status.state != Some("success")) then Blocked
    else Success
  }

  function RunLine(run: CheckRun): string {
    "check:" + run.id + ":" + run.name + ":" + run.status.GetOr("None") + ":" + run.conclusion.GetOr("None")
  }

  function StatusLine(status: Status): string {
    "status:" + status.id + ":" + status.context + ":" + status.state.GetOr("None")
  }

  function CheckSetText(runs: seq<CheckRun>, statuses: seq<Status>): string {
    Join("|", Sort(Map(RunLine, runs), StringOrder()) + Sort(Map(StatusLine, statuses), StringOrder()))
  }

  function CheckSetKey(runs: seq<CheckRun>, statuses: seq<Status>, sha: Sha): string {
    sha(CheckSetText(runs, statuses))
  }

  // ---------------------------------------------------------------- what the state of a check set means

  predicate HasFailure(runs: seq<CheckRun>, statuses: seq<Status>) {
    (exists run | run in runs :: run.status == Some("completed") &&
                                 (run.conclusion == Some("failure") || run.conclusion == Some("timed_out") ||
                                  run.conclusion == Some("action_required"))) ||
    exists status | status in statuses :: status.state == Some("failure") || status.state == Some("error")
  }

  predicate AreDone(runs: seq<CheckRun>, statuses: seq<Status>) {
    (runs != [] || statuses != []) && (forall run | run in runs :: run.status == Some("completed")) &&
    forall status | status in statuses :: status.state != Some("pending")
  }

  predicate AllPass(runs: seq<CheckRun>, statuses: seq<Status>) {
    (runs != [] || statuses != []) &&
    (forall run | run in runs :: run.status == Some("completed") &&
                                 (run.conclusion == Some("success") || run.conclusion == Some("neutral") ||
                                  run.conclusion == Some("skipped"))) &&
    forall status | status in statuses :: status.state == Some("success")
  }

  /**
   * A check set fails as soon as one check has; it is pending until there is a check and all are done; it succeeds
   * exactly when all have passed, and is blocked when all are done without failure but not all have passed.
   */
  lemma StatesMean(runs: seq<CheckRun>, statuses: seq<Status>)
    ensures AggregateState(runs, statuses) == Failing <==> HasFailure(runs, statuses)
    ensures AggregateState(runs, statuses) == Pending <==> !HasFailure(runs, statuses) && !AreDone(runs, statuses)
    ensures AggregateState(runs, statuses) == Blocked <==>
            !HasFailure(runs, statuses) && AreDone(runs, statuses) && !AllPass(runs, statuses)
    ensures AggregateState(runs, statuses) == Success <==> AllPass(runs, statuses)
  {
    FailuresMean(runs, statuses);
    hide HasFailure, FailingRun, FailingStatus;
    if AllPass(runs, statuses) {
      PassingHasNoFailure(runs, statuses);
    }
  }

  lemma FailuresMean(runs: seq<CheckRun>, statuses: seq<Status>)
    ensures HasFailure(runs, statuses) <==>
            (exists run | run in runs :: FailingRun(run)) || exists status | status in statuses :: FailingStatus(status)
  {
    assert forall run | run in runs :: FailingRun(run) <==>
             run.status == Some("completed") && (run.conclusion == Some("failure") ||
             run.conclusion == Some("timed_out") || run.conclusion == Some("action_required"));
    assert forall status | status in statuses ::
             FailingStatus(status) <==> status.state == Some("failure") || status.state == Some("error");
  }

  lemma PassingHasNoFailure(runs: seq<CheckRun>, statuses: seq<Status>)
    requires AllPass(runs, statuses)
    ensures !HasFailure(runs, statuses)
  {
  }

  lemma SameMembers<T>(a: seq<T>, b: seq<T>)
    requires multiset(a) == multiset(b)
    ensures (forall x :: x in a <==> x in b) && (a == [] <==> b == [])
  {
    assert forall x :: x in a <==> x in multiset(a);
    assert forall x :: x in b <==> x in multiset(b);
    assert |a| == |multiset(a)| == |b|;
  }

  /** Neither the state nor the key of a check set depends on the order GitHub lists it in. */
  lemma CheckListOrderIsIrrelevant(runs: seq<CheckRun>, runs': seq<CheckRun>, statuses: seq<Status>,
                                   statuses': seq<Status>, sha: Sha)
    requires multiset(runs) == multiset(runs') && multiset(statuses) == multiset(statuses')
    ensures AggregateState(runs, statuses) == AggregateState(runs', statuses')
    ensures CheckSetKey(runs, statuses, sha) == CheckSetKey(runs', statuses', sha)
  {
    StateOfMembers(runs, runs', statuses, statuses');
    LinesOfMembers(RunLine, runs, runs');
    LinesOfMembers(StatusLine, statuses, statuses');
  }

  lemma StateOfMembers(runs: seq<CheckRun>, runs': seq<CheckRun>, statuses: seq<Status>, statuses': seq<Status>)
    requires multiset(runs) == multiset(runs') && multiset(statuses) == multiset(statuses')
    ensures AggregateState(runs, statuses) == AggregateState(runs', statuses')
  {
    hide FailingRun, PassingRun, FailingStatus;
    SameMembers(runs, runs');
    SameMembers(statuses, statuses');
  }

  lemma LinesOfMembers<T>(line: T -> string, a: seq<T>, b: seq<T>)
    requires multiset(a) == multiset(b)
    ensures Sort(Map(line, a), StringOrder()) == Sort(Map(line, b), StringOrder())
  {
    hide Sort, Map, TotalOrder;
    StringOrderIsTotal();
    MapPermutes(line, a, b);
    SortIgnoresOrder(Map(line, a), Map(line, b), StringOrder());
  }

  // ---------------------------------------------------------------- what a key tells apart

  predicate IsWord(field: Option<string>) {
    field.Some? ==> ':' !in field.value && '|' !in field.value && field.value != "None"
  }

  /** Ids are numbers, and states and conclusions words; a name may be any text without a bar. */
  predicate IsPlainRun(run: CheckRun) {
    ':' !in run.id && '|' !in run.id && '|' !in run.name && IsWord(run.status) && IsWord(run.conclusion)
  }

  predicate IsPlainStatus(status: Status) {
    ':' !in status.id && '|' !in status.id && '|' !in status.context && IsWord(status.state)
  }

  predicate ArePlain(runs: seq<CheckRun>, statuses: seq<Status>) {
    (forall run | run in runs :: IsPlainRun(run)) && forall status | status in statuses :: IsPlainStatus(status)
  }

  lemma SplitAtFirst(a: string, b: string, a': string, b': string, c: char)
    requires a + [c] + b == a' + [c] + b' && c !in a && c !in a'
    ensures a == a' && b == b'
  {
    var s, s' := a + [c] + b, a' + [c] + b';
    assert s[|a|] == c && s'[|a'|] == c;
    assert forall i | 0 <= i < |a| :: s[i] == a[i];
    assert forall i | 0 <= i < |a'| :: s'[i] == a'[i];
    assert |a| == |a'|;
    assert a == s[..|a|] && a' == s'[..|a|];
    assert b == s[|a| + 1..] && b' == s'[|a| + 1..];
  }

  lemma SplitAtLast(a: string, b: string, a': string, b': string, c: char)
    requires a + [c] + b == a' + [c] + b' && c !in b && c !in b'
    ensures a == a' && b == b'
  {
    var s, s' := a + [c] + b, a' + [c] + b';
    assert s[|a|] == c && s'[|a'|] == c;
    assert forall i | |a| < i < |s| :: s[i] == b[i - |a| - 1];
    assert forall i | |a'| < i < |s'| :: s'[i] == b'[i - |a'| - 1];
    assert |a| == |a'|;
    assert a == s[..|a|] && a' == s'[..|a|];
    assert b == s[|a| + 1..] && b' == s'[|a| + 1..];
  }

  lemma RunLinesTellApart(run: CheckRun, other: CheckRun)
    requires IsPlainRun(run) && IsPlainRun(other) && RunLine(run) == RunLine(other)
    ensures run == other
  {
    var rest := run.name + ":" + run.status.GetOr("None") + ":" + run.conclusion.GetOr("None");
    var others := other.name + ":" + other.status.GetOr("None") + ":" + other.conclusion.GetOr("None");
    RunLineIs(run);
    RunLineIs(other);
    assert run.id + ":" + rest == RunLine(run)[6..] && other.id + ":" + others == RunLine(other)[6..];
    NoneIsAWord();
    SplitAtFirst(run.id, rest, other.id, others, ':');
    SplitAtLast(run.name + ":" + run.status.GetOr("None"), run.conclusion.GetOr("None"),
      other.name + ":" + other.status.GetOr("None"), other.conclusion.GetOr("None"), ':');
    SplitAtLast(run.name, run.status.GetOr("None"), other.name, other.status.GetOr("None"), ':');
  }

  lemma NoneIsAWord()
    ensures ':' !in "None" && '|' !in "None"
  {
  }

  lemma RunLineIs(run: CheckRun)
    ensures RunLine(run) == "check:" +
              (run.id + ":" + (run.name + ":" + run.status.GetOr("None") + ":" + run.conclusion.GetOr("None")))
  {
  }

  lemma StatusLineIs(status: Status)
    ensures StatusLine(status) == "status:" + (status.id + ":" + (status.context + ":" + status.state.GetOr("None")))
  {
  }

  lemma StatusLinesTellApart(status: Status, other: Status)
    requires IsPlainStatus(status) && IsPlainStatus(other) && StatusLine(status) == StatusLine(other)
    ensures status == other
  {
    var rest := status.context + ":" + status.state.GetOr("None");
    var others := other.context + ":" + other.state.GetOr("None");
    StatusLineIs(status);
    StatusLineIs(other);
    assert status.id + ":" + rest == StatusLine(status)[7..] && other.id + ":" + others == StatusLine(other)[7..];
    NoneIsAWord();
    SplitAtFirst(status.id, rest, other.id, others, ':');
    SplitAtLast(status.context, status.state.GetOr("None"), other.context, other.state.GetOr("None"), ':');
  }

  predicate AreParts(parts: seq<string>) {
    forall part | part in parts :: part != "" && '|' !in part
  }

  lemma JoinStarts(parts: seq<string>)
    requires parts != [] && AreParts(parts)
    ensures var text := Join("|", parts);
            text != "" && '|' !in parts[0] &&
            if |parts| == 1 then text == parts[0] else text == parts[0] + ['|'] + Join("|", parts[1..]) && '|' in text
  {
    assert parts[0] in parts;
    if |parts| > 1 {
      assert Join("|", parts)[|parts[0]|] == '|';
    }
  }

  lemma RestAreParts(parts: seq<string>)
    requires AreParts(parts) && parts != []
    ensures AreParts(parts[1..])
  {
    forall part | part in parts[1..] ensures part != "" && '|' !in part {
      assert part in parts;
    }
  }

  lemma {:induction false} JoinTellsApart(a: seq<string>, b: seq<string>)
    requires AreParts(a) && AreParts(b) && Join("|", a) == Join("|", b)
    ensures a == b
  {
    hide Join, AreParts;
    NothingJoins();
    if a != [] && b != [] {
      JoinStarts(a);
      JoinStarts(b);
      if |a| > 1 {
        SplitAtFirst(a[0], Join("|", a[1..]), b[0], Join("|", b[1..]), '|');
        RestAreParts(a);
        RestAreParts(b);
        JoinTellsApart(a[1..], b[1..]);
        assert a == [a[0]] + a[1..] && b == [b[0]] + b[1..];
      }
    } else if a != [] {
      JoinStarts(a);
    } else if b != [] {
      JoinStarts(b);
    }
  }

  lemma NothingJoins()
    ensures Join("|", []) == ""
  {
  }

  lemma RunLineIsPart(run: CheckRun)
    requires IsPlainRun(run)
    ensures var line := RunLine(run); line != "" && line[0] == 'c' && '|' !in line
  {
    NoneIsAWord();
    var status, conclusion := run.status.GetOr("None"), run.conclusion.GetOr("None");
    assert '|' !in status && '|' !in conclusion;
  }

  lemma StatusLineIsPart(status: Status)
    requires IsPlainStatus(status)
    ensures var line := StatusLine(status); line != "" && line[0] == 's' && '|' !in line
  {
    NoneIsAWord();
    var state := status.state.GetOr("None");
    assert '|' !in state;
  }

  lemma LinesAreParts(runs: seq<CheckRun>, statuses: seq<Status>, checks: seq<string>, states: seq<string>)
    requires ArePlain(runs, statuses)
    requires checks == Sort(Map(RunLine, runs), StringOrder()) &&
             states == Sort(Map(StatusLine, statuses), StringOrder())
    ensures AreParts(checks + states)
    ensures (forall line | line in checks :: line != "" && line[0] == 'c')
    ensures (forall line | line in states :: line != "" && line[0] == 's')
  {
    hide Sort, RunLine, StatusLine;
    SameElements(Map(RunLine, runs), StringOrder());
    SameElements(Map(StatusLine, statuses), StringOrder());
    forall line | line in checks ensures line != "" && line[0] == 'c' && '|' !in line {
      var i :| 0 <= i < |runs| && RunLine(runs[i]) == line;
      RunLineIsPart(runs[i]);
    }
    forall line | line in states ensures line != "" && line[0] == 's' && '|' !in line {
      var i :| 0 <= i < |statuses| && StatusLine(statuses[i]) == line;
      StatusLineIsPart(statuses[i]);
    }
  }

  lemma SplitByKind(checks: seq<string>, states: seq<string>, checks': seq<string>, states': seq<string>)
    requires checks + states == checks' + states'
    requires forall line | line in checks || line in checks' :: line != "" && line[0] == 'c'
    requires forall line | line in states || line in states' :: line != "" && line[0] == 's'
    ensures checks == checks' && states == states'
  {
    var all := checks + states;
    var n, n' := |checks|, |checks'|;
    assert forall i | 0 <= i < n :: all[i] == checks[i] && checks[i] in checks;
    assert forall i | n <= i < |all| :: all[i] == states[i - n] && states[i - n] in states;
    assert forall i | 0 <= i < n' :: all[i] == checks'[i] && checks'[i] in checks';
    assert forall i | n' <= i < |all| :: all[i] == states'[i - n'] && states'[i - n'] in states';
    var line, line' := if n < |all| then all[n] else "", if n' < |all| then all[n'] else "";
    assert line == "" || line in states;
    assert line' == "" || line' in states';
    assert n == n';
    assert checks == all[..n] && checks' == all[..n];
    assert states == all[n..] && states' == all[n..];
  }

  /**
   * The text that is hashed is the same for two check sets exactly when they hold the same checks, each with the same
   * id, name, status and conclusion: so a key that settles stands for one check set.
   */
  lemma KeysTellCheckSetsApart(runs: seq<CheckRun>, statuses: seq<Status>, runs': seq<CheckRun>, statuses': seq<Status>)
    requires ArePlain(runs, statuses) && ArePlain(runs', statuses')
    ensures CheckSetText(runs, statuses) == CheckSetText(runs', statuses') <==>
            multiset(runs) == multiset(runs') && multiset(statuses) == multiset(statuses')
  {
    hide Sort, Join, RunLine, StatusLine, IsPlainRun, IsPlainStatus, AreParts;
    if multiset(runs) == multiset(runs') && multiset(statuses) == multiset(statuses') {
      LinesOfMembers(RunLine, runs, runs');
      LinesOfMembers(StatusLine, statuses, statuses');
    }
    if CheckSetText(runs, statuses) == CheckSetText(runs', statuses') {
      var checks, states := Sort(Map(RunLine, runs), StringOrder()), Sort(Map(StatusLine, statuses), StringOrder());
      var checks', states' := Sort(Map(RunLine, runs'), StringOrder()), Sort(Map(StatusLine, statuses'), StringOrder());
      LinesAreParts(runs, statuses, checks, states);
      LinesAreParts(runs', statuses', checks', states');
      JoinTellsApart(checks + states, checks' + states');
      SplitByKind(checks, states, checks', states');
      SortPermutes(Map(RunLine, runs), StringOrder());
      SortPermutes(Map(RunLine, runs'), StringOrder());
      SortPermutes(Map(StatusLine, statuses), StringOrder());
      SortPermutes(Map(StatusLine, statuses'), StringOrder());
      forall run, other | run in runs && other in runs' && RunLine(run) == RunLine(other) ensures run == other {
        RunLinesTellApart(run, other);
      }
      forall status, other | status in statuses && other in statuses' && StatusLine(status) == StatusLine(other)
        ensures status == other
      {
        StatusLinesTellApart(status, other);
      }
      MapReflects(RunLine, runs, runs');
      MapReflects(StatusLine, statuses, statuses');
    }
  }

  /** With a bar in its name, one check can look like two. */
  lemma BarLooksLikeTwoChecks(run: CheckRun, id: string, context: string)
    requires run.status.Some? && run.conclusion.Some?
    ensures var (status, conclusion) := (run.status.value, run.conclusion.value);
            CheckSetText([run], [Status(id, context + ":" + status, Some(conclusion))]) ==
            CheckSetText([run.(name := run.name + ":" + status + ":" + conclusion + "|status:" + id + ":" + context)],
              [])
  {
    hide Sort, Map, RunLine, StatusLine;
    var (status, conclusion) := (run.status.value, run.conclusion.value);
    var two := Status(id, context + ":" + status, Some(conclusion));
    var one := run.(name := run.name + ":" + status + ":" + conclusion + "|status:" + id + ":" + context);
    OneLine(RunLine, run);
    OneLine(RunLine, one);
    OneLine(StatusLine, two);
    NoLine(StatusLine);
    LinesMeet(run, id, context);
    assert Join("|", [RunLine(run), StatusLine(two)]) == RunLine(run) + "|" + StatusLine(two);
    assert [RunLine(run)] + [StatusLine(two)] == [RunLine(run), StatusLine(two)];
    assert [RunLine(one)] + [] == [RunLine(one)];
  }

  lemma LinesMeet(run: CheckRun, id: string, context: string)
    requires run.status.Some? && run.conclusion.Some?
    ensures var (status, conclusion) := (run.status.value, run.conclusion.value);
            RunLine(run.(name := run.name + ":" + status + ":" + conclusion + "|status:" + id + ":" + context)) ==
            RunLine(run) + "|" + StatusLine(Status(id, context + ":" + status, Some(conclusion)))
  {
    var (status, conclusion) := (run.status.value, run.conclusion.value);
    assert "|status:" == "|" + "status:";
  }

  lemma NoLine<T>(line: T -> string)
    ensures Sort(Map(line, []), StringOrder()) == []
  {
  }

  lemma OneLine<T>(line: T -> string, x: T)
    ensures Sort(Map(line, [x]), StringOrder()) == [line(x)]
  {
    assert Map(line, [x]) == [line(x)];
    assert Sort([line(x)][1..], StringOrder()) == [];
  }

  // ---------------------------------------------------------------- the stored record

  datatype Watch = Watch(
    active: bool, thread: string, head: string, headRef: string, installation: Option<int>,
    retryCount: nat, settledKey: string, settledAt: Option<int>, dispatchKeys: seq<string>,
    deliveryIds: seq<string>, alertKeys: seq<string>, errors: nat, cron: Option<string>)

  /** The record, and how many times it has been created or given another head. */
  datatype World = World(watch: Option<Watch>, epoch: nat)

  /** What an observer of the protocol can see happen. */
  datatype Event =
    | SawHead(head: string)
    | SawChecks(head: string, state: State, key: string, now: int)
    | Dispatched(epoch: nat, retry: nat)
    | Completed(head: string, key: string, now: int)
    | Created

  datatype Answer = Missing | Stopped | Failed | StillPending | Settling | Duplicate | Ran | Raised

  datatype Result = Result(world: World, events: seq<Event>, answer: Answer)

  function FailureText(head: string, retry: nat): string {
    head + "|retry:" + Decimal(retry)
  }

  function FailureKey(head: string, retry: nat, sha: Sha): string {
    sha(FailureText(head, retry))
  }

  function Save(world: World, watch: Watch, ok: bool): World {
    if !ok then world
    else World(Some(watch), if world.watch.Some? && world.watch.value.head == watch.head then world.epoch
      else world.epoch + 1)
  }

  /** Stopping keeps the record, inactive, when its cron cannot be deleted. */
  function Stop(world: World, cronDeleted: bool, storeOk: bool): World {
    if world.watch.None? then world else
    var watch := world.watch.value;
    if watch.cron.Some? && watch.cron.value != "" && !cronDeleted then Save(world, watch.(active := false), storeOk)
    else if storeOk then World(None, world.epoch) else world
  }

  // ---------------------------------------------------------------- one evaluation

  datatype PullRequest = Unavailable | NotOpen | Open(head: Option<string>, headRef: Option<string>)

  /**
   * What the world answers during one evaluation. `checks` is `None` when either list is unavailable;
   * `saved`, `undone` and `stopStored` say whether each store write succeeded, and a failed one raises.
   */
  datatype Answers = Answers(
    token: bool, pr: PullRequest, checks: Option<(seq<CheckRun>, seq<Status>)>, now: int,
    saved: bool, dispatched: bool, undone: bool, cronDeleted: bool, stopStored: bool)

  function Finish(world: World, events: seq<Event>, a: Answers): Result {
    Result(Stop(world, a.cronDeleted, a.stopStored), events, if a.stopStored then Stopped else Raised)
  }

  function RecordError(world: World, watch: Watch, events: seq<Event>, a: Answers): Result {
    var failed := watch.(errors := watch.errors + 1);
    if !a.saved then Result(world, events, Raised)
    else if failed.errors < MAX_EVALUATION_ERRORS then Result(Save(world, failed, true), events, Failed)
    else Finish(Save(world, failed, true), events, a)
  }

  function SaveAndAnswer(world: World, watch: Watch, events: seq<Event>, a: Answers, answer: Answer): Result {
    Result(Save(world, watch, a.saved), events, if a.saved then answer else Raised)
  }

  function AtHead(watch: Watch, head: string, headRef: Option<string>): Watch {
    var named := if headRef.Some? && headRef.value != "" then watch.(headRef := headRef.value) else watch;
    if head == watch.head then named
    else named.(head := head, retryCount := 0, settledKey := "", settledAt := None, dispatchKeys := [], alertKeys := [])
  }

  /** Remember the key of a passing check set; it has settled once it has been the same for ten minutes. */
  function Settle(watch: Watch, key: string, now: int): (Watch, bool) {
    if watch.settledKey != key then (watch.(settledKey := key, settledAt := Some(now)), false)
    else if watch.settledAt.None? then (watch.(settledAt := Some(now)), false)
    else (watch, now - watch.settledAt.value >= SETTLE)
  }

  function Dispatch(world: World, watch: Watch, events: seq<Event>, a: Answers, sha: Sha): Result {
    if watch.retryCount >= MAX_RETRIES_PER_HEAD then Finish(world, events, a) else
    var key := FailureKey(watch.head, watch.retryCount, sha);
    if key in watch.dispatchKeys then SaveAndAnswer(world, watch, events, a, Duplicate) else
    var noted := watch.(dispatchKeys := LastN(watch.dispatchKeys + [key], MAX_DISPATCH_KEYS));
    var world' := Save(world, noted, a.saved);
    if !a.saved then Result(world', events, Raised)
    else if a.dispatched then Result(world', events + [Dispatched(world'.epoch, watch.retryCount)], Ran)
    else
      var undone := noted.(dispatchKeys := Without(noted.dispatchKeys, key));
      SaveAndAnswer(world', undone, events, a.(saved := a.undone), Failed)
  }

  function Judge(world: World, watch: Watch, events: seq<Event>, state: State, key: string, a: Answers,
                 sha: Sha): Result
  {
    match state
    case Pending => SaveAndAnswer(world, watch.(settledKey := "", settledAt := None), events, a, StillPending)
    case Success =>
      var (settled, done) := Settle(watch, key, a.now);
      if !done then SaveAndAnswer(world, settled, events, a, Settling)
      else Finish(world, events + [Completed(watch.head, key, a.now)], a)
    case Blocked => Finish(world, events, a)
    case Failing => Dispatch(world, watch, events, a, sha)
  }

  function Evaluated(world: World, a: Answers, sha: Sha): Result {
    if world.watch.None? then Result(world, [], Missing) else
    var watch := world.watch.value;
    if !watch.active then Finish(world, [], a)
    else if !a.token then RecordError(world, watch, [], a)
    else if a.pr.Unavailable? then RecordError(world, watch, [], a)
    else if a.pr.NotOpen? then Finish(world, [], a)
    else if a.pr.head.None? || a.pr.head.value == "" then RecordError(world, watch, [], a) else
    var current := AtHead(watch, a.pr.head.value, a.pr.headRef);
    var seen := [SawHead(current.head)];
    if a.checks.None? then RecordError(world, current, seen, a) else
    var (runs, statuses) := a.checks.value;
    var state, key := AggregateState(runs, statuses), CheckSetKey(runs, statuses, sha);
    Judge(world, current.(errors := 0), seen + [SawChecks(current.head, state, key, a.now)], state, key, a, sha)
  }

  // ---------------------------------------------------------------- the other operations

  /** A failing-CI webhook, once its watch is matched and locked. */
  datatype Webhook = Webhook(installation: Option<int>, delivery: Option<string>, stored: bool, evaluation: Answers)

  function Delivered(world: World, w: Webhook, sha: Sha): Result {
    if world.watch.None? || !world.watch.value.active then Result(world, [], Missing) else
    var watch := world.watch.value;
    var installed := if w.installation.Some? then watch.(installation := w.installation) else watch;
    if w.delivery.Some? && w.delivery.value != "" && w.delivery.value in watch.deliveryIds then
        Result(world, [], Duplicate) else
    var noted := if w.delivery.Some? && w.delivery.value != "" then
                   installed.(deliveryIds := LastN(watch.deliveryIds + [w.delivery.value], MAX_DELIVERY_IDS))
                 else installed;
    if !w.stored then Result(world, [], Raised) else Evaluated(Save(world, noted, true), w.evaluation, sha)
  }

  datatype Retry = Retry(thread: string, head: string, check: string, url: string, stored: bool)

  const GITHUB := "https://github.com/"

  function CleanCheck(check: string): string {
    var clean := Strip(check);
    var short := if |clean| > 200 then clean[..200] else clean;
    if short == "" then "CI check" else short
  }

  /** A reported check by name: stripped, at most 200 characters, and never empty. */
  lemma CheckIsNamed(check: string)
    ensures var name := CleanCheck(check);
            1 <= |name| <= 200 && (Strip(check) == "" ==> name == "CI check") &&
            (Strip(check) != "" ==> name <= Strip(check) && (|name| < 200 ==> name == Strip(check)))
  {
    hide Strip;
  }

  function SafeLink(url: string): string {
    if GITHUB <= Strip(url) then Strip(url) else ""
  }

  function AlertText(head: string, r: Retry): string {
    head + "|" + CleanCheck(r.check) + "|" + SafeLink(r.url)
  }

  function AlertKey(watch: Watch, r: Retry, sha: Sha): string {
    sha(AlertText(watch.head, r))
  }

  /** Two retries at a head, of checks without a bar, are one alert exactly when they show the same name and link. */
  lemma AlertsTellApart(head: string, r: Retry, other: Retry)
    requires '|' !in CleanCheck(r.check) && '|' !in CleanCheck(other.check)
    ensures AlertText(head, r) == AlertText(head, other) <==>
            CleanCheck(r.check) == CleanCheck(other.check) && SafeLink(r.url) == SafeLink(other.url)
    ensures SafeLink(r.url) == "" || (SafeLink(r.url) == Strip(r.url) && "https://github.com/" <= Strip(r.url))
    ensures "https://github.com/" <= Strip(r.url) ==> SafeLink(r.url) == Strip(r.url)
  {
    hide CleanCheck, Strip;
    var name, link := CleanCheck(r.check), SafeLink(r.url);
    var name', link' := CleanCheck(other.check), SafeLink(other.url);
    var n := |head + "|"|;
    assert AlertText(head, r)[n..] == name + "|" + link && AlertText(head, other)[n..] == name' + "|" + link';
    if AlertText(head, r) == AlertText(head, other) {
      SplitAtFirst(name, link, name', link', '|');
    }
  }

  /** Count one flaky rerun; the answer is `Failed` for the refusals. */
  function Recorded(world: World, r: Retry, sha: Sha): Result {
    if world.watch.None? || !world.watch.value.active then Result(world, [], Failed) else
    var watch := world.watch.value;
    if watch.thread != r.thread || watch.head != r.head || watch.retryCount >= MAX_RETRIES_PER_HEAD then
        Result(world, [], Failed) else
    var key := AlertKey(watch, r, sha);
    var alerted := if key in watch.alertKeys then watch
      else watch.(alertKeys := LastN(watch.alertKeys + [key], MAX_ALERT_KEYS));
    Result(Save(world, alerted.(retryCount := watch.retryCount + 1), r.stored), [], if r.stored then Ran else Raised)
  }

  /** A request to watch; `cron` is `None` when ensuring the cron raises. */
  datatype Request = Request(thread: string, head: string, headRef: string, installation: Option<int>,
                             stored: bool, cron: Option<string>, storedAgain: bool, rolledBack: bool)

  function FreshWatch(existing: Option<Watch>, q: Request): Watch {
    var cron := if existing.Some? then existing.value.cron else None;
    if existing.Some? && existing.value.head == q.head then
      existing.value.(active := true, thread := q.thread, headRef := q.headRef, installation := q.installation,
        errors := 0)
    else Watch(true, q.thread, q.head, q.headRef, q.installation, 0, "", None, [], [], [], 0, cron)
  }

  function Started(world: World, q: Request): Result {
    var existing := world.watch;
    if existing.Some? && existing.value.active && existing.value.thread != q.thread then Result(world, [], Failed) else
    var watch := FreshWatch(existing, q);
    var created := if !q.stored || (existing.Some? && existing.value.head == q.head) then [] else [Created];
    var world' := Save(world, watch, q.stored);
    if !q.stored then Result(world', [], Raised)
    else if q.cron.Some? && q.storedAgain then Result(Save(world', watch.(cron := q.cron), true), created, Ran)
    else if existing.None? && q.rolledBack then Result(World(None, world'.epoch), created, Raised)
    else Result(world', created, Raised)
  }

  datatype Operation =
    | Evaluate(a: Answers)
    | Deliver(w: Webhook)
    | RecordRetry(r: Retry)
    | Start(q: Request)
    | StopWatch(cronDeleted: bool, storeOk: bool)

  function Perform(world: World, op: Operation, sha: Sha): Result {
    match op
    case Evaluate(a) => Evaluated(world, a, sha)
    case Deliver(w) => Delivered(world, w, sha)
    case RecordRetry(r) => Recorded(world, r, sha)
    case Start(q) => Started(world, q)
    case StopWatch(cronDeleted, storeOk) => Result(Stop(world, cronDeleted, storeOk), [], if storeOk then Stopped
        else Raised)
  }

  /** The lock serializes operations, so a run is a sequence of them; this is the state and history it leaves. */
  function Run(ops: seq<Operation>, sha: Sha): (World, seq<Event>) {
    if ops == [] then (World(None, 0), []) else
    var (world, events) := Run(ops[..|ops| - 1], sha);
    var r := Perform(world, ops[|ops| - 1], sha);
    (r.world, events + r.events)
  }

  // ---------------------------------------------------------------- what the operations do

  /** The watched pull request is open at `head`, and its check lists were read. */
  predicate IsAnswered(world: World, watch: Watch, a: Answers, head: string, runs: seq<CheckRun>,
                       statuses: seq<Status>) {
    world.watch == Some(watch) && watch.active && a.token && a.pr.Open? && a.pr.head == Some(head) && head != "" &&
    a.checks == Some((runs, statuses))
  }

  /** The retries used up at that head: the count starts again at a new one. */
  function RetriesAt(watch: Watch, head: string): nat {
    if watch.head == head then watch.retryCount else 0
  }

  /** A run was started, or is being started, for this head and number of retries. */
  predicate WasDispatched(watch: Watch, head: string, sha: Sha) {
    watch.head == head && FailureKey(head, watch.retryCount, sha) in watch.dispatchKeys
  }

  /** The same check set was first seen at this head at least ten minutes ago. */
  predicate HasSettled(watch: Watch, head: string, key: string, now: int) {
    watch.head == head && watch.settledKey == key && watch.settledAt.Some? &&
    now - watch.settledAt.value >= 10 * 60 * 1_000_000
  }

  /** The record as the evaluation judges it. */
  function AtSeenHead(watch: Watch, head: string, headRef: Option<string>): Watch {
    AtHead(watch, head, headRef).(errors := 0)
  }

  function Seen(head: string, state: State, key: string, now: int): seq<Event> {
    [SawHead(head)] + [SawChecks(head, state, key, now)]
  }

  lemma EvaluationJudges(world: World, watch: Watch, a: Answers, head: string, runs: seq<CheckRun>,
                         statuses: seq<Status>, sha: Sha)
    requires IsAnswered(world, watch, a, head, runs, statuses)
    ensures a.pr.Open?
    ensures var state, key := AggregateState(runs, statuses), CheckSetKey(runs, statuses, sha);
            Evaluated(world, a, sha) ==
            Judge(world, AtSeenHead(watch, head, a.pr.headRef), Seen(head, state, key, a.now), state, key, a, sha)
  {
    hide Judge, AggregateState, CheckSetKey;
  }

  lemma SeenHeadIs(watch: Watch, head: string, headRef: Option<string>, key: string, now: int, sha: Sha)
    ensures var seen := AtSeenHead(watch, head, headRef);
            seen.head == head && seen.retryCount == RetriesAt(watch, head) &&
            (FailureKey(head, seen.retryCount, sha) in seen.dispatchKeys <==> WasDispatched(watch, head, sha)) &&
            (Settle(seen, key, now).1 <==> HasSettled(watch, head, key, now))
  {
    hide FailureKey;
  }

  lemma JudgeAnswers(world: World, watch: Watch, events: seq<Event>, state: State, key: string, a: Answers, sha: Sha)
    ensures var r := Judge(world, watch, events, state, key, a, sha);
            var known := FailureKey(watch.head, watch.retryCount, sha) in watch.dispatchKeys;
            var starts := state == Failing && watch.retryCount < 3 && !known;
            && (r.answer == Ran <==> starts && a.saved && a.dispatched)
            && (r.answer == Failed <==> starts && a.saved && !a.dispatched && a.undone)
            && (r.answer == Duplicate <==> state == Failing && watch.retryCount < 3 && known && a.saved)
            && (r.answer == StillPending <==> state == Pending && a.saved)
            && (r.answer == Settling <==> state == Success && !Settle(watch, key, a.now).1 && a.saved)
            && (r.answer == Stopped <==>
                  a.stopStored && (state == Blocked || (state == Failing && watch.retryCount >= 3) ||
                                   (state == Success && Settle(watch, key, a.now).1)))
            && r.answer != Missing
    ensures var r := Judge(world, watch, events, state, key, a, sha);
            r.events == events + if r.answer == Ran then [Dispatched(r.world.epoch, watch.retryCount)]
                                 else if state == Success && Settle(watch, key, a.now).1
                                 then [Completed(watch.head, key, a.now)] else []
  {
    hide FailureKey, Settle, Stop, Save, LastN, Without;
    assert events + [] == events;
  }

  /**
   * What an evaluation that sees the checks answers and does. In particular a run is started exactly when a check has
   * failed, fewer than three retries are used up and no run was started for as many; and the watch completes exactly
   * when all checks have passed for ten minutes.
   */
  lemma EvaluationAnswersWith(world: World, watch: Watch, a: Answers, head: string, runs: seq<CheckRun>,
                              statuses: seq<Status>, sha: Sha)
    requires IsAnswered(world, watch, a, head, runs, statuses)
    ensures var r, failing := Evaluated(world, a, sha), HasFailure(runs, statuses);
            var done, passing := AreDone(runs, statuses), AllPass(runs, statuses);
            var settled := HasSettled(watch, head, CheckSetKey(runs, statuses, sha), a.now);
            var retries, known := RetriesAt(watch, head), WasDispatched(watch, head, sha);
            && (r.answer == Ran <==> failing && retries < 3 && !known && a.saved && a.dispatched)
            && (r.answer == Failed <==> failing && retries < 3 && !known && a.saved && !a.dispatched && a.undone)
            && (r.answer == Duplicate <==> failing && retries < 3 && known && a.saved)
            && (r.answer == StillPending <==> !failing && !done && a.saved)
            && (r.answer == Settling <==> passing && !settled && a.saved)
            && (r.answer == Stopped <==>
                  a.stopStored && if failing then retries >= 3 else done && (passing ==> settled))
            && r.answer != Missing
            && r.events ==
               [SawHead(head)] + [SawChecks(head, AggregateState(runs, statuses), CheckSetKey(runs, statuses, sha),
                 a.now)] +
               if r.answer == Ran then [Dispatched(r.world.epoch, retries)]
               else if passing && settled then [Completed(head, CheckSetKey(runs, statuses, sha), a.now)] else []
  {
    hide HasFailure, AreDone, AllPass, AggregateState, CheckSetKey, FailureKey, Judge, Evaluated, AtHead, IsAnswered,
         HasSettled, WasDispatched, RetriesAt, AtSeenHead, Settle;
    StatesMean(runs, statuses);
    PassingIsDone(runs, statuses);
    var state, key := AggregateState(runs, statuses), CheckSetKey(runs, statuses, sha);
    EvaluationJudges(world, watch, a, head, runs, statuses, sha);
    SeenHeadIs(watch, head, a.pr.headRef, key, a.now, sha);
    JudgeAnswers(world, AtSeenHead(watch, head, a.pr.headRef), Seen(head, state, key, a.now), state, key, a, sha);
  }

  /** The record at the head that was seen: what was counted and noted for another head is forgotten. */
  function SameHead(watch: Watch, head: string, headRef: Option<string>): Watch {
    if watch.head == head then watch.(headRef := NonEmpty(headRef.GetOr("")).GetOr(watch.headRef), errors := 0)
    else Watch(watch.active, watch.thread, head, NonEmpty(headRef.GetOr("")).GetOr(watch.headRef), watch.installation,
      0,
      "", None, [], watch.deliveryIds, [], 0, watch.cron)
  }

  /** The record that an evaluation leaves of one at the head that was seen, by its answer. */
  function Kept(seen: Watch, answer: Answer, key: string, failure: string, now: int): Watch {
    match answer
    case StillPending => seen.(settledKey := "", settledAt := None)
    case Settling =>
      if seen.settledKey == key && seen.settledAt.Some? then seen
      else seen.(settledKey := key, settledAt := Some(now))
    case Ran => seen.(dispatchKeys := LastN(seen.dispatchKeys + [failure], 30))
    case Failed => seen.(dispatchKeys := Without(LastN(seen.dispatchKeys + [failure], 30), failure))
    case _ => seen
  }

  predicate KeepsRecord(answer: Answer) {
    answer == StillPending || answer == Settling || answer == Ran || answer == Duplicate || answer == Failed
  }

  lemma JudgeLeaves(world: World, before: Watch, seen: Watch, events: seq<Event>, state: State, key: string, a: Answers,
                    sha: Sha)
    requires world.watch == Some(before)
    ensures var r := Judge(world, seen, events, state, key, a, sha);
            KeepsRecord(r.answer) ==>
              r.world == World(Some(Kept(seen, r.answer, key, FailureKey(seen.head, seen.retryCount, sha), a.now)),
                               world.epoch + if before.head == seen.head then 0 else 1)
  {
    hide FailureKey, LastN, Without;
  }

  lemma SameHeadIs(watch: Watch, head: string, headRef: Option<string>)
    ensures AtSeenHead(watch, head, headRef) == SameHead(watch, head, headRef)
  {
  }

  /**
   * The record an evaluation leaves that sees the checks and neither raises nor stops: a sighting is forgotten over a
   * pending check and remembered, with the time of the first, over passing ones; a run that was started is noted.
   */
  lemma EvaluationLeaves(world: World, watch: Watch, a: Answers, head: string, runs: seq<CheckRun>,
                         statuses: seq<Status>, sha: Sha)
    requires IsAnswered(world, watch, a, head, runs, statuses)
    ensures var r, key := Evaluated(world, a, sha), CheckSetKey(runs, statuses, sha);
            var failure := FailureKey(head, RetriesAt(watch, head), sha);
            KeepsRecord(r.answer) ==>
              r.world == World(Some(Kept(SameHead(watch, head, a.pr.headRef), r.answer, key, failure, a.now)),
                               world.epoch + if watch.head == head then 0 else 1)
  {
    hide Judge, AggregateState, CheckSetKey, FailureKey, LastN, Without, Evaluated, Kept, AtSeenHead, KeepsRecord;
    var state, key := AggregateState(runs, statuses), CheckSetKey(runs, statuses, sha);
    EvaluationJudges(world, watch, a, head, runs, statuses, sha);
    SameHeadIs(watch, head, a.pr.headRef);
    var seen := SameHead(watch, head, a.pr.headRef);
    JudgeLeaves(world, watch, seen, Seen(head, state, key, a.now), state, key, a, sha);
  }

  /** A stopped watch has no record, or an inactive one while its cron stays; a write that fails changes nothing. */
  lemma StopMeans(world: World, cronDeleted: bool, storeOk: bool)
    ensures var stopped := Stop(world, cronDeleted, storeOk);
            stopped.epoch == world.epoch &&
            stopped.watch ==
            if !storeOk || world.watch == None then world.watch
            else if world.watch.value.cron.GetOr("") == "" || cronDeleted then None
            else Some(world.watch.value.(active := false))
  {
  }

  /** GitHub or its token did not answer, or the answer had no head, or a check list was missing. */
  predicate IsUnanswered(a: Answers) {
    !a.token || a.pr.Unavailable? || (a.pr.Open? && (a.pr.head.GetOr("") == "" || a.checks == None))
  }

  /** Two evaluations in a row may go unanswered; the third stops the watch, and so does a pull request that closed. */
  lemma ThirdErrorStops(world: World, watch: Watch, a: Answers, sha: Sha)
    requires world.watch == Some(watch) && (!watch.active || IsUnanswered(a) || a.pr.NotOpen?)
    ensures var r := Evaluated(world, a, sha);
            if watch.active && IsUnanswered(a) && !a.saved then r.answer == Raised && r.world == world
            else if watch.active && IsUnanswered(a) && watch.errors < 2
            then r.answer == Failed && r.world.watch.Some? && r.world.watch.value.errors == watch.errors + 1 &&
                 r.world.watch.value.active && r.world.watch.value.cron == watch.cron
            else r.answer == (if a.stopStored then Stopped else Raised) &&
                 (a.stopStored ==> r.world.watch == None || !r.world.watch.value.active)
  {
    hide AggregateState, CheckSetKey, FailureKey;
  }

  /** Without a record, and for a webhook without an active one, there is nothing to do. */
  lemma NothingToWatch(world: World, a: Answers, w: Webhook, sha: Sha)
    requires world.watch == None || !world.watch.value.active
    ensures world.watch == None ==> Evaluated(world, a, sha) == Result(world, [], Missing)
    ensures Delivered(world, w, sha) == Result(world, [], Missing)
  {
    hide AggregateState, CheckSetKey, FailureKey;
  }

  /** A delivery that was seen among the last fifty changes nothing; any other is noted, and the watch evaluated. */
  lemma WebhookIsNotedOnce(world: World, watch: Watch, w: Webhook, sha: Sha)
    requires world.watch == Some(watch) && watch.active
    ensures var id := w.delivery.GetOr("");
            var noted := watch.(installation := if w.installation == None then watch.installation else w.installation,
                                deliveryIds := if id == "" then watch.deliveryIds
                                               else LastN(watch.deliveryIds + [id], 50));
            Delivered(world, w, sha) ==
            if id != "" && id in watch.deliveryIds then Result(world, [], Duplicate)
            else if !w.stored then Result(world, [], Raised)
            else Evaluated(World(Some(noted), world.epoch), w.evaluation, sha)
  {
    hide Evaluated, LastN;
  }

  /** A retry is counted for the watched thread and head, up to three, and its alert noted; nothing else changes. */
  lemma RetryIsCounted(world: World, r: Retry, sha: Sha)
    ensures var o := Recorded(world, r, sha);
            o.events == [] &&
            (o.answer == Ran <==>
              r.stored && world.watch.Some? && world.watch.value.active && world.watch.value.thread == r.thread &&
              world.watch.value.head == r.head && world.watch.value.retryCount < 3) &&
            if o.answer == Ran
            then o.world.epoch == world.epoch && o.world.watch.Some? &&
                 o.world.watch.value.(alertKeys := []) ==
                 world.watch.value.(alertKeys := [], retryCount := world.watch.value.retryCount + 1) &&
                 var (key, alerts) := (AlertKey(world.watch.value, r, sha), world.watch.value.alertKeys);
                 o.world.watch.value.alertKeys == if key in alerts then alerts else LastN(alerts + [key], 30)
            else o.world == world && (o.answer == Failed || o.answer == Raised)
  {
    hide AlertKey, LastN;
  }

  /** The record a start makes: what was counted and noted for the same head is kept, the rest begins anew. */
  function Renewed(existing: Option<Watch>, q: Request, cron: Option<string>): Watch {
    if existing.Some? && existing.value.head == q.head
    then existing.value.(active := true, thread := q.thread, headRef := q.headRef, installation := q.installation,
                         errors := 0, cron := cron)
    else Watch(true, q.thread, q.head, q.headRef, q.installation, 0, "", None, [], [], [], 0, cron)
  }

  /**
   * A start is refused while another thread's watch is active. It leaves the renewed record with its cron; without a
   * cron it raises, and leaves the one with the old cron, or none if there was none and that could be undone.
   */
  lemma StartMeans(world: World, q: Request)
    ensures var r, was := Started(world, q), world.watch;
            var same := was.Some? && was.value.head == q.head;
            var epoch := world.epoch + if same then 0 else 1;
            (r.answer == Failed <==> was.Some? && was.value.active && was.value.thread != q.thread) &&
            (r.answer == Ran <==> r.answer != Failed && q.stored && q.cron.Some? && q.storedAgain) &&
            (r.answer != Failed && r.answer != Ran ==> r.answer == Raised) &&
            (r.events == if r.answer != Failed && q.stored && !same then [Created] else []) &&
            r.world ==
            if r.answer == Failed || !q.stored then world
            else if r.answer == Ran then World(Some(Renewed(was, q, q.cron)), epoch)
            else if was == None && q.rolledBack then World(None, epoch)
            else World(Some(Renewed(was, q, if was.Some? then was.value.cron else None)), epoch)
  {
  }

  lemma PassingIsDone(runs: seq<CheckRun>, statuses: seq<Status>)
    ensures AllPass(runs, statuses) ==> AreDone(runs, statuses) && !HasFailure(runs, statuses)
  {
  }

  // ---------------------------------------------------------------- settling

  /** One passing check set, by key and time. */
  datatype Sighting = Sighting(key: string, now: int)

  /** The record after passing check sets were seen, one after another. */
  function SettleAll(watch: Watch, sightings: seq<Sighting>): Watch {
    if sightings == [] then watch else
    var last := sightings[|sightings| - 1];
    Settle(SettleAll(watch, sightings[..|sightings| - 1]), last.key, last.now).0
  }

  predicate SameSince(sightings: seq<Sighting>, i: int, key: string) {
    0 <= i < |sightings| && forall k | i <= k < |sightings| :: sightings[k].key == key
  }

  /** The last sightings that agree in their key begin at `i`. */
  predicate AgreeFrom(sightings: seq<Sighting>, i: int) {
    0 <= i < |sightings| && SameSince(sightings, i, sightings[i].key) &&
    (i > 0 ==> sightings[i - 1].key != sightings[i].key)
  }

  /** The record remembers the last key seen, and when the sightings that agree on it began. */
  lemma {:induction false} SettlingRemembersTheFirst(watch: Watch, sightings: seq<Sighting>) returns (i: int)
    requires watch.settledAt.None? && sightings != []
    ensures AgreeFrom(sightings, i)
    ensures SettleAll(watch, sightings).settledKey == sightings[i].key
    ensures SettleAll(watch, sightings).settledAt == Some(sightings[i].now)
  {
    var front, n := sightings[..|sightings| - 1], |sightings| - 1;
    if front == [] {
      assert SettleAll(watch, front) == watch;
      i := 0;
    } else {
      i := SettlingRemembersTheFirst(watch, front);
      if sightings[n].key == front[i].key {
        forall k | i <= k < |sightings| ensures sightings[k].key == sightings[i].key {
          assert k < n ==> sightings[k] == front[k];
        }
      } else {
        assert sightings[n - 1] == front[n - 1];
        i := n;
      }
    }
  }

  /**
   * A check set has settled exactly when every passing check set since some sighting at least ten minutes ago was the
   * same: with any other in between, the ten minutes start again.
   */
  lemma SettledMeansTenMinutes(watch: Watch, sightings: seq<Sighting>, key: string, now: int)
    requires watch.settledAt.None? && forall i, j | 0 <= i < j < |sightings| :: sightings[i].now <= sightings[j].now
    ensures Settle(SettleAll(watch, sightings), key, now).1 <==>
            exists i | SameSince(sightings, i, key) :: now - sightings[i].now >= 10 * 60 * 1_000_000
  {
    if sightings != [] {
      var first := SettlingRemembersTheFirst(watch, sightings);
      var last := sightings[|sightings| - 1];
      assert last.key == sightings[first].key;
      forall i | SameSince(sightings, i, key) ensures first <= i && SameSince(sightings, first, key) {
        assert sightings[|sightings| - 1].key == key;
      }
      assert forall i | first < i < |sightings| :: sightings[first].now <= sightings[i].now;
    }
  }

  // ---------------------------------------------------------------- dispatch safety

  /** The key is that of a failure state the current head can still be in. */
  predicate LiveKey(watch: Watch, key: string, sha: Sha) {
    exists r: nat | r < MAX_RETRIES_PER_HEAD && r <= watch.retryCount :: key == FailureKey(watch.head, r, sha)
  }

  predicate WatchOk(watch: Watch, sha: Sha) {
    watch.retryCount <= MAX_RETRIES_PER_HEAD && Distinct(watch.dispatchKeys) &&
    forall key | key in watch.dispatchKeys :: LiveKey(watch, key, sha)
  }

  /** Every dispatch of the current epoch is still remembered by its key. */
  predicate Remembered(world: World, events: seq<Event>, sha: Sha) {
    forall i | 0 <= i < |events| && events[i].Dispatched? ::
      && events[i].epoch <= world.epoch && events[i].retry < MAX_RETRIES_PER_HEAD
      && (events[i].epoch == world.epoch && world.watch.Some? ==>
            events[i].retry <= world.watch.value.retryCount &&
            FailureKey(world.watch.value.head, events[i].retry, sha) in world.watch.value.dispatchKeys)
  }

  predicate DispatchedOnce(events: seq<Event>) {
    forall i, j | 0 <= i < j < |events| && events[i].Dispatched? && events[j].Dispatched? ::
      events[i].epoch != events[j].epoch || events[i].retry != events[j].retry
  }

  predicate Safe(world: World, events: seq<Event>, sha: Sha) {
    (world.watch.Some? ==> WatchOk(world.watch.value, sha)) && Remembered(world, events, sha) && DispatchedOnce(events)
  }

  /** The new record carries on from the old one: within one head, retries do not fall and no key is lost. */
  predicate CarriesOn(was: Option<Watch>, watch: Watch) {
    was.Some? && was.value.head == watch.head ==>
      was.value.retryCount <= watch.retryCount &&
      forall key | key in was.value.dispatchKeys :: key in watch.dispatchKeys
  }

  lemma SaveKeepsSafe(world: World, events: seq<Event>, watch: Watch, ok: bool, sha: Sha)
    requires Safe(world, events, sha) && WatchOk(watch, sha) && CarriesOn(world.watch, watch)
    ensures Safe(Save(world, watch, ok), events, sha)
  {
    hide FailureKey, WatchOk;
  }

  lemma StopKeepsSafe(world: World, events: seq<Event>, cronDeleted: bool, storeOk: bool, sha: Sha)
    requires Safe(world, events, sha)
    ensures Safe(Stop(world, cronDeleted, storeOk), events, sha)
  {
    if world.watch.Some? {
      var stopped := world.watch.value.(active := false);
      SameCountersAreOk(world.watch.value, stopped, sha);
      SaveKeepsSafe(world, events, stopped, storeOk, sha);
    }
  }

  /** Seeing things changes nothing that safety speaks of. */
  lemma ObservingKeepsSafe(world: World, events: seq<Event>, more: seq<Event>, sha: Sha)
    requires Safe(world, events, sha) && forall i | 0 <= i < |more| :: !more[i].Dispatched?
    ensures Safe(world, events + more, sha)
  {
    hide FailureKey, WatchOk;
  }

  lemma SameCountersAreOk(watch: Watch, other: Watch, sha: Sha)
    requires WatchOk(watch, sha)
    requires other.head == watch.head && other.dispatchKeys == watch.dispatchKeys &&
             watch.retryCount <= other.retryCount <= MAX_RETRIES_PER_HEAD
    ensures WatchOk(other, sha) && CarriesOn(Some(watch), other)
  {
    forall key | key in other.dispatchKeys ensures LiveKey(other, key, sha) {
      assert LiveKey(watch, key, sha);
      var r: nat :| r < MAX_RETRIES_PER_HEAD && r <= watch.retryCount && key == FailureKey(watch.head, r, sha);
      assert r <= other.retryCount;
    }
  }

  lemma EmptyIsOk(watch: Watch, sha: Sha)
    requires watch.retryCount == 0 && watch.dispatchKeys == []
    ensures WatchOk(watch, sha)
  {
  }

  lemma {:induction false} DistinctSize<T>(s: seq<T>, bound: set<T>)
    requires Distinct(s) && forall x | x in s :: x in bound
    ensures |s| <= |bound|
  {
    if s != [] {
      var front, last := s[..|s| - 1], s[|s| - 1];
      forall x | x in front ensures x in bound - {last} {
        var i :| 0 <= i < |front| && front[i] == x;
        assert s[i] == x && x in s;
      }
      DistinctSize(front, bound - {last});
      assert last in s;
      assert |bound - {last}| == |bound| - 1;
    }
  }

  /** A head has at most three live keys, so keeping the last thirty never forgets one. */
  lemma LiveKeysAreFew(watch: Watch, sha: Sha)
    requires WatchOk(watch, sha)
    ensures |watch.dispatchKeys| <= 3
    ensures forall key :: LastN(watch.dispatchKeys + [key], 30) == watch.dispatchKeys + [key]
  {
    var a, b, c := FailureKey(watch.head, 0, sha), FailureKey(watch.head, 1, sha), FailureKey(watch.head, 2, sha);
    var bound := {a, b, c};
    forall key | key in watch.dispatchKeys ensures key in bound {
      assert LiveKey(watch, key, sha);
      var r: nat :| r < MAX_RETRIES_PER_HEAD && r <= watch.retryCount && key == FailureKey(watch.head, r, sha);
      assert r == 0 || r == 1 || r == 2;
    }
    DistinctSize(watch.dispatchKeys, bound);
    assert bound == {a} + {b} + {c};
  }

  lemma DispatchKeepsSafe(world: World, watch: Watch, before: seq<Event>, events: seq<Event>, a: Answers, sha: Sha)
    requires Safe(world, before + events, sha) && WatchOk(watch, sha) && CarriesOn(world.watch, watch)
    ensures var r := Dispatch(world, watch, events, a, sha); Safe(r.world, before + r.events, sha)
  {
    hide FailureKey;
    var key := FailureKey(watch.head, watch.retryCount, sha);
    if watch.retryCount >= MAX_RETRIES_PER_HEAD {
      StopKeepsSafe(world, before + events, a.cronDeleted, a.stopStored, sha);
    } else if key in watch.dispatchKeys {
      SaveKeepsSafe(world, before + events, watch, a.saved, sha);
    } else {
      LiveKeysAreFew(watch, sha);
      var noted := watch.(dispatchKeys := watch.dispatchKeys + [key]);
      assert WatchOk(noted, sha) by {
        assert LiveKey(noted, key, sha);
        forall k | k in watch.dispatchKeys ensures LiveKey(noted, k, sha) {
          assert LiveKey(watch, k, sha);
        }
      }
      SaveKeepsSafe(world, before + events, noted, a.saved, sha);
      if a.saved {
        var world' := Save(world, noted, true);
        if a.dispatched {
          NotDispatchedBefore(world, watch, before + events, sha);
          DispatchIsRemembered(world', before + events, sha);
          assert before + (events + [Dispatched(world'.epoch, watch.retryCount)]) ==
                 before + events + [Dispatched(world'.epoch, watch.retryCount)];
        } else {
          WithoutLast(watch.dispatchKeys, key);
          assert noted.(dispatchKeys := watch.dispatchKeys) == watch;
          SaveKeepsSafe(world, before + events, watch, true, sha);
          assert Save(world', watch, true).epoch == Save(world, watch, true).epoch;
        }
      }
    }
  }

  /** A key that is not remembered has not been dispatched in the epoch the save leads to. */
  lemma NotDispatchedBefore(world: World, watch: Watch, events: seq<Event>, sha: Sha)
    requires Safe(world, events, sha) && CarriesOn(world.watch, watch)
    requires FailureKey(watch.head, watch.retryCount, sha) !in watch.dispatchKeys
    ensures forall i | 0 <= i < |events| && events[i].Dispatched? ::
              events[i].epoch != Save(world, watch, true).epoch || events[i].retry != watch.retryCount
  {
    hide FailureKey;
  }

  lemma DispatchIsRemembered(world: World, events: seq<Event>, sha: Sha)
    requires Safe(world, events, sha) && world.watch.Some? && world.watch.value.retryCount < MAX_RETRIES_PER_HEAD
    requires FailureKey(world.watch.value.head, world.watch.value.retryCount, sha) in world.watch.value.dispatchKeys
    requires forall i | 0 <= i < |events| && events[i].Dispatched? ::
               events[i].epoch != world.epoch || events[i].retry != world.watch.value.retryCount
    ensures Safe(world, events + [Dispatched(world.epoch, world.watch.value.retryCount)], sha)
  {
    hide FailureKey, WatchOk;
  }

  lemma AtHeadIsOk(watch: Watch, head: string, headRef: Option<string>, sha: Sha)
    requires WatchOk(watch, sha)
    ensures WatchOk(AtHead(watch, head, headRef), sha) && CarriesOn(Some(watch), AtHead(watch, head, headRef))
  {
    if head == watch.head {
      SameCountersAreOk(watch, AtHead(watch, head, headRef), sha);
    }
  }

  lemma ErrorKeepsSafe(world: World, watch: Watch, before: seq<Event>, events: seq<Event>, a: Answers, sha: Sha)
    requires Safe(world, before + events, sha) && WatchOk(watch, sha) && CarriesOn(world.watch, watch)
    ensures var r := RecordError(world, watch, events, a); Safe(r.world, before + r.events, sha)
  {
    var failed := watch.(errors := watch.errors + 1);
    SameCountersAreOk(watch, failed, sha);
    hide Safe, WatchOk;
    SaveKeepsSafe(world, before + events, failed, true, sha);
    StopKeepsSafe(Save(world, failed, true), before + events, a.cronDeleted, a.stopStored, sha);
  }

  lemma JudgeKeepsSafe(world: World, watch: Watch, before: seq<Event>, events: seq<Event>, state: State, key: string,
                       a: Answers, sha: Sha)
    requires Safe(world, before + events, sha) && WatchOk(watch, sha) && CarriesOn(world.watch, watch)
    ensures var r := Judge(world, watch, events, state, key, a, sha); Safe(r.world, before + r.events, sha)
  {
    var pending, settled := watch.(settledKey := "", settledAt := None), Settle(watch, key, a.now).0;
    SameCountersAreOk(watch, pending, sha);
    SameCountersAreOk(watch, settled, sha);
    hide Safe, WatchOk, Dispatch, Save, Stop;
    SaveKeepsSafe(world, before + events, pending, a.saved, sha);
    SaveKeepsSafe(world, before + events, settled, a.saved, sha);
    DispatchKeepsSafe(world, watch, before, events, a, sha);
    StopKeepsSafe(world, before + events, a.cronDeleted, a.stopStored, sha);
    var done := Completed(watch.head, key, a.now);
    ObservingKeepsSafe(Stop(world, a.cronDeleted, a.stopStored), before + events, [done], sha);
    assert before + (events + [done]) == before + events + [done];
  }

  lemma EvaluationKeepsSafe(world: World, before: seq<Event>, a: Answers, sha: Sha)
    requires Safe(world, before, sha)
    ensures var r := Evaluated(world, a, sha); Safe(r.world, before + r.events, sha)
  {
    assert before + [] == before;
    if world.watch.Some? {
      var watch := world.watch.value;
      assert WatchOk(watch, sha);
      SameCountersAreOk(watch, watch, sha);
      StopKeepsSafe(world, before, a.cronDeleted, a.stopStored, sha);
      hide Safe, WatchOk, RecordError, Judge, AggregateState, CheckSetKey, Stop, AtHead;
      ErrorKeepsSafe(world, watch, before, [], a, sha);
      if a.pr.Open? && a.pr.head.Some? {
        var current := AtHead(watch, a.pr.head.value, a.pr.headRef);
        AtHeadIsOk(watch, a.pr.head.value, a.pr.headRef, sha);
        var seen := [SawHead(current.head)];
        ObservingKeepsSafe(world, before, seen, sha);
        ErrorKeepsSafe(world, current, before, seen, a, sha);
        if a.checks.Some? {
          var (runs, statuses) := a.checks.value;
          var state, key := AggregateState(runs, statuses), CheckSetKey(runs, statuses, sha);
          var all := seen + [SawChecks(current.head, state, key, a.now)];
          ObservingKeepsSafe(world, before, all, sha);
          ForgetErrors(world, current, sha);
          JudgeKeepsSafe(world, current.(errors := 0), before, all, state, key, a, sha);
        }
      }
    }
  }

  lemma ForgetErrors(world: World, watch: Watch, sha: Sha)
    requires WatchOk(watch, sha) && CarriesOn(world.watch, watch)
    ensures WatchOk(watch.(errors := 0), sha) && CarriesOn(world.watch, watch.(errors := 0))
  {
    SameCountersAreOk(watch, watch.(errors := 0), sha);
  }

  lemma DeliveryKeepsSafe(world: World, before: seq<Event>, w: Webhook, sha: Sha)
    requires Safe(world, before, sha)
    ensures var r := Delivered(world, w, sha); Safe(r.world, before + r.events, sha)
  {
    hide Evaluated;
    assert before + [] == before;
    if world.watch.Some? {
      var watch := world.watch.value;
      var installed := if w.installation.Some? then watch.(installation := w.installation) else watch;
      var noted := if w.delivery.Some? && w.delivery.value != "" then
                     installed.(deliveryIds := LastN(watch.deliveryIds + [w.delivery.value], MAX_DELIVERY_IDS))
                   else installed;
      SameCountersAreOk(watch, noted, sha);
      hide WatchOk, Safe;
      SaveKeepsSafe(world, before, noted, true, sha);
      EvaluationKeepsSafe(Save(world, noted, true), before, w.evaluation, sha);
    }
  }

  lemma RetryKeepsSafe(world: World, before: seq<Event>, r: Retry, sha: Sha)
    requires Safe(world, before, sha)
    ensures Safe(Recorded(world, r, sha).world, before, sha) && Recorded(world, r, sha).events == []
  {
    hide AlertKey;
    if world.watch.Some? {
      var watch := world.watch.value;
      if watch.retryCount < MAX_RETRIES_PER_HEAD {
        var key := AlertKey(watch, r, sha);
        var alerted := if key in watch.alertKeys then watch
          else watch.(alertKeys := LastN(watch.alertKeys + [key], MAX_ALERT_KEYS));
        var counted := alerted.(retryCount := watch.retryCount + 1);
        SameCountersAreOk(watch, counted, sha);
        SaveKeepsSafe(world, before, counted, r.stored, sha);
      }
    }
  }

  lemma StartKeepsSafe(world: World, before: seq<Event>, q: Request, sha: Sha)
    requires Safe(world, before, sha)
    ensures var r := Started(world, q); Safe(r.world, before + r.events, sha)
  {
    assert before + [] == before;
    var watch := FreshWatch(world.watch, q);
    var again := watch.(cron := q.cron);
    if world.watch.Some? && world.watch.value.head == q.head {
      SameCountersAreOk(world.watch.value, watch, sha);
      SameCountersAreOk(watch, again, sha);
    } else {
      EmptyIsOk(watch, sha);
      EmptyIsOk(again, sha);
    }
    SaveKeepsSafe(world, before, watch, q.stored, sha);
    ObservingKeepsSafe(Save(world, watch, q.stored), before, [Created], sha);
    var events := Started(world, q).events;
    if q.stored {
      SaveKeepsSafe(Save(world, watch, true), before + events, again, true, sha);
    }
  }

  /** Every operation keeps the record and the history safe, whatever the outside world answers. */
  lemma OperationKeepsSafe(world: World, before: seq<Event>, op: Operation, sha: Sha)
    requires Safe(world, before, sha)
    ensures var r := Perform(world, op, sha); Safe(r.world, before + r.events, sha)
  {
    hide Safe, Evaluated, Delivered, Recorded, Started, Stop;
    assert before + [] == before;
    match op {
      case Evaluate(a) => EvaluationKeepsSafe(world, before, a, sha);
      case Deliver(w) => DeliveryKeepsSafe(world, before, w, sha);
      case RecordRetry(r) => RetryKeepsSafe(world, before, r, sha);
      case Start(q) => StartKeepsSafe(world, before, q, sha);
      case StopWatch(cronDeleted, storeOk) => StopKeepsSafe(world, before, cronDeleted, storeOk, sha);
    }
  }

  /** Over every run: retries stay within the limit, and each failure state of each epoch is dispatched at most once. */
  lemma {:induction false} EveryRunIsSafe(ops: seq<Operation>, sha: Sha)
    ensures var (world, events) := Run(ops, sha); Safe(world, events, sha)
  {
    hide Perform;
    if ops != [] {
      EveryRunIsSafe(ops[..|ops| - 1], sha);
      var (world, events) := Run(ops[..|ops| - 1], sha);
      OperationKeepsSafe(world, events, ops[|ops| - 1], sha);
    }
  }

  function DispatchesIn(events: seq<Event>, epoch: nat): seq<nat> {
    if events == [] then [] else
    var front := DispatchesIn(events[..|events| - 1], epoch);
    var last := events[|events| - 1];
    if last.Dispatched? && last.epoch == epoch then front + [last.retry] else front
  }

  lemma {:induction false} DispatchesAreDistinct(events: seq<Event>, epoch: nat)
    requires DispatchedOnce(events) && forall i | 0 <= i < |events| &&
             events[i].Dispatched? :: events[i].retry < MAX_RETRIES_PER_HEAD
    ensures Distinct(DispatchesIn(events, epoch))
    ensures forall r | r in DispatchesIn(events, epoch) ::
              r < MAX_RETRIES_PER_HEAD && exists i | 0 <= i < |events| :: events[i] == Dispatched(epoch, r)
  {
    if events != [] {
      var before, last := events[..|events| - 1], events[|events| - 1];
      DispatchesAreDistinct(before, epoch);
      forall r | r in DispatchesIn(events, epoch)
        ensures r < MAX_RETRIES_PER_HEAD && exists i | 0 <= i < |events| :: events[i] == Dispatched(epoch, r)
      {
        if r in DispatchesIn(before, epoch) {
          var i :| 0 <= i < |before| && before[i] == Dispatched(epoch, r);
          assert events[i] == Dispatched(epoch, r);
        } else {
          assert last == Dispatched(epoch, r);
        }
      }
    }
  }

  lemma SafeDispatches(world: World, events: seq<Event>, sha: Sha)
    requires Safe(world, events, sha)
    ensures DispatchedOnce(events) && forall i | 0 <= i < |events| &&
            events[i].Dispatched? :: events[i].retry < MAX_RETRIES_PER_HEAD
  {
    hide FailureKey, WatchOk;
  }

  /** However long it runs, a watch dispatches at most three failure runs for one epoch. */
  lemma AtMostThreeDispatchesPerEpoch(ops: seq<Operation>, epoch: nat, sha: Sha)
    ensures |DispatchesIn(Run(ops, sha).1, epoch)| <= 3
  {
    hide Run, Safe, DispatchesIn;
    EveryRunIsSafe(ops, sha);
    var events := Run(ops, sha).1;
    SafeDispatches(Run(ops, sha).0, events, sha);
    DispatchesAreDistinct(events, epoch);
    var all: set<nat> := {0, 1, 2};
    forall r | r in DispatchesIn(events, epoch) ensures r in all {
    }
    DistinctSize(DispatchesIn(events, epoch), all);
  }

  /** The digest does not take one failure's text for another one's. */
  predicate TellsRetriesApart(head: string, sha: Sha) {
    forall r: nat, other: nat | r < 3 && other < 3 :: FailureKey(head, r, sha) == FailureKey(head, other, sha) ==>
      FailureText(head, r) == FailureText(head, other)
  }

  lemma FailureTextsDiffer(head: string, r: nat, other: nat)
    requires r < 3 && other < 3 && FailureText(head, r) == FailureText(head, other)
    ensures r == other
  {
    var n := |head + "|retry:"|;
    assert FailureText(head, r)[n..] == Decimal(r) && FailureText(head, other)[n..] == Decimal(other);
  }

  /**
   * After any run: once a retry is counted, the next evaluation that sees a failure at that head starts a run again,
   * unless the retries are used up or a write or the dispatch fails.
   */
  lemma RetryReopensDispatch(ops: seq<Operation>, retry: Retry, watch: Watch, a: Answers, runs: seq<CheckRun>,
                             statuses: seq<Status>, sha: Sha)
    requires Recorded(Run(ops, sha).0, retry, sha).answer == Ran && TellsRetriesApart(watch.head, sha)
    requires IsAnswered(Recorded(Run(ops, sha).0, retry, sha).world, watch, a, watch.head, runs, statuses)
    requires HasFailure(runs, statuses) && watch.retryCount < 3
    ensures var world := Recorded(Run(ops, sha).0, retry, sha).world;
            Evaluated(world, a, sha).answer == Ran <==> a.saved && a.dispatched
  {
    hide Evaluated, HasFailure, FailureText, LastN, AlertKey;
    EveryRunIsSafe(ops, sha);
    var before := Run(ops, sha).0;
    var world := Recorded(before, retry, sha).world;
    EvaluationAnswersWith(world, watch, a, watch.head, runs, statuses, sha);
    SafeIsOk(before, Run(ops, sha).1, sha);
    RetryIsCounted(before, retry, sha);
    assert watch.dispatchKeys == before.watch.value.dispatchKeys;
    if WasDispatched(watch, watch.head, sha) {
      var key := FailureKey(watch.head, watch.retryCount, sha);
      assert LiveKey(before.watch.value, key, sha);
      var r: nat :| r < MAX_RETRIES_PER_HEAD && r <= before.watch.value.retryCount &&
      key == FailureKey(watch.head, r, sha);
      FailureTextsDiffer(watch.head, r, watch.retryCount);
      assert false;
    }
  }

  // ---------------------------------------------------------------- retries within an epoch

  /** Within one epoch the head stays and retries do not fall; a record that appears starts a new epoch. */
  predicate Advances(before: World, after: World) {
    before.epoch <= after.epoch &&
    (before.epoch == after.epoch && after.watch.Some? ==>
       before.watch.Some? && before.watch.value.head == after.watch.value.head &&
       before.watch.value.retryCount <= after.watch.value.retryCount)
  }

  lemma StopAdvances(world: World, start: World, cronDeleted: bool, storeOk: bool)
    requires Advances(start, world)
    ensures Advances(start, Stop(world, cronDeleted, storeOk))
  {
  }

  lemma ErrorAdvances(world: World, watch: Watch, events: seq<Event>, a: Answers)
    requires CarriesOn(world.watch, watch)
    ensures Advances(world, RecordError(world, watch, events, a).world)
  {
    hide Stop;
    StopAdvances(Save(world, watch.(errors := watch.errors + 1), true), world, a.cronDeleted, a.stopStored);
  }

  lemma JudgeAdvances(world: World, watch: Watch, events: seq<Event>, state: State, key: string, a: Answers, sha: Sha)
    requires CarriesOn(world.watch, watch)
    ensures Advances(world, Judge(world, watch, events, state, key, a, sha).world)
  {
    hide Stop, FailureKey;
    StopAdvances(world, world, a.cronDeleted, a.stopStored);
  }

  lemma EvaluationAdvances(world: World, a: Answers, sha: Sha)
    requires world.watch.Some? ==> WatchOk(world.watch.value, sha)
    ensures Advances(world, Evaluated(world, a, sha).world)
  {
    hide AggregateState, CheckSetKey, WatchOk, Judge, RecordError, Stop, AtHead;
    StopAdvances(world, world, a.cronDeleted, a.stopStored);
    if world.watch.Some? {
      var watch := world.watch.value;
      ErrorAdvances(world, watch, [], a);
      if a.pr.Open? && a.pr.head.Some? {
        var current := AtHead(watch, a.pr.head.value, a.pr.headRef);
        AtHeadIsOk(watch, a.pr.head.value, a.pr.headRef, sha);
        var seen := [SawHead(current.head)];
        ErrorAdvances(world, current, seen, a);
        if a.checks.Some? {
          var (runs, statuses) := a.checks.value;
          var state, key := AggregateState(runs, statuses), CheckSetKey(runs, statuses, sha);
          ForgetErrors(world, current, sha);
          JudgeAdvances(world, current.(errors := 0), seen + [SawChecks(current.head, state, key, a.now)], state, key,
            a, sha);
        }
      }
    }
  }

  /** A step never lowers the retry count of the head it is counted for. */
  lemma RetriesNeverFall(world: World, op: Operation, sha: Sha)
    requires world.watch.Some? ==> WatchOk(world.watch.value, sha)
    ensures Advances(world, Perform(world, op, sha).world)
  {
    hide Evaluated, WatchOk, AlertKey;
    match op {
      case Evaluate(a) => EvaluationAdvances(world, a, sha);
      case Deliver(w) =>
        if world.watch.Some? {
          DeliverySavesOk(world, w, sha);
          var noted := Noted(world.watch.value, w);
          EvaluationAdvances(Save(world, noted, true), w.evaluation, sha);
        }
      case _ =>
    }
  }

  function Noted(watch: Watch, w: Webhook): Watch {
    var installed := if w.installation.Some? then watch.(installation := w.installation) else watch;
    if w.delivery.Some? && w.delivery.value != "" then
      installed.(deliveryIds := LastN(watch.deliveryIds + [w.delivery.value], MAX_DELIVERY_IDS))
    else installed
  }

  lemma DeliverySavesOk(world: World, w: Webhook, sha: Sha)
    requires world.watch.Some? && WatchOk(world.watch.value, sha)
    ensures var noted := Noted(world.watch.value, w); WatchOk(noted, sha) && CarriesOn(world.watch, noted)
  {
    SameCountersAreOk(world.watch.value, Noted(world.watch.value, w), sha);
  }

  /** From any point of a run to any later one, an epoch keeps its head and its retries only grow. */
  lemma {:induction false} RetriesGrowWithinAnEpoch(ops: seq<Operation>, more: seq<Operation>, sha: Sha)
    ensures Advances(Run(ops, sha).0, Run(ops + more, sha).0)
    ensures Run(ops, sha).0.watch.Some? ==> Run(ops, sha).0.watch.value.retryCount <= 3
    decreases |more|
  {
    hide Perform, WatchOk;
    EveryRunIsSafe(ops, sha);
    SafeIsOk(Run(ops, sha).0, Run(ops, sha).1, sha);
    if more == [] {
      assert ops + more == ops;
    } else {
      var front := more[..|more| - 1];
      RetriesGrowWithinAnEpoch(ops, front, sha);
      var whole := ops + more;
      assert whole[..|whole| - 1] == ops + front && whole[|whole| - 1] == more[|more| - 1];
      EveryRunIsSafe(ops + front, sha);
      SafeIsOk(Run(ops + front, sha).0, Run(ops + front, sha).1, sha);
      RetriesNeverFall(Run(ops + front, sha).0, more[|more| - 1], sha);
    }
  }

  lemma SafeIsOk(world: World, events: seq<Event>, sha: Sha)
    requires Safe(world, events, sha)
    ensures world.watch.Some? ==>
              WatchOk(world.watch.value, sha) && world.watch.value.retryCount <= MAX_RETRIES_PER_HEAD
  {
  }

  // ---------------------------------------------------------------- completion

  /** The event ends a period in which `head` was seen passing with the key. */
  predicate Breaks(event: Event, head: string, key: string) {
    match event
    case SawHead(other) => other != head
    case SawChecks(other, state, k, _) => other != head || state == Pending || (state == Success && k != key)
    case Created => true
    case _ => false
  }

  predicate PassingSince(events: seq<Event>, j: int, head: string, key: string, start: int) {
    0 <= j < |events| && events[j] == SawChecks(head, Success, key, start) &&
    forall i | j < i < |events| :: !Breaks(events[i], head, key)
  }

  /** What the record remembers about settling really was observed, and nothing since has broken it. */
  ghost predicate SettleWitnessed(watch: Watch, events: seq<Event>) {
    watch.settledAt.Some? ==> exists j :: PassingSince(events, j, watch.head, watch.settledKey, watch.settledAt.value)
  }

  ghost predicate Witnessed(world: World, events: seq<Event>) {
    world.watch.Some? ==> SettleWitnessed(world.watch.value, events)
  }

  predicate StopDeletes(watch: Watch, a: Answers) {
    (watch.cron.GetOr("") == "" || a.cronDeleted) && a.stopStored
  }

  /**
   * The evaluation sees something that ends the sighting its record holds, and its record does not learn of it: a new
   * head, a pending check or another passing check set that is not written, or a new, blocked head whose stop fails.
   */
  predicate LosesSighting(world: World, a: Answers, sha: Sha) {
    world.watch.Some? && world.watch.value.active && world.watch.value.settledAt.Some? &&
    a.token && a.pr.Open? && a.pr.head.GetOr("") != "" &&
    var watch := world.watch.value;
    var newHead := a.pr.head.value != watch.head;
    match a.checks
    case None => newHead && !a.saved
    case Some((runs, statuses)) =>
      var state := AggregateState(runs, statuses);
      if newHead then (if state == Blocked then !StopDeletes(watch, a) else !a.saved)
      else (state == Pending || (state == Success && CheckSetKey(runs, statuses, sha) != watch.settledKey)) && !a.saved
  }

  /** The webhook reaches its evaluation, with the delivery noted. */
  predicate Evaluates(world: World, w: Webhook) {
    world.watch.Some? && world.watch.value.active && w.stored &&
    !(w.delivery.GetOr("") != "" && w.delivery.value in world.watch.value.deliveryIds)
  }

  predicate OperationLoses(world: World, op: Operation, sha: Sha) {
    match op
    case Evaluate(a) => LosesSighting(world, a, sha)
    case Deliver(w) =>
      Evaluates(world, w) && LosesSighting(Save(world, Noted(world.watch.value, w), true), w.evaluation, sha)
    case _ => false
  }

  /** No operation of the run loses the sighting its record holds. */
  predicate KeepsSightings(ops: seq<Operation>, sha: Sha) {
    ops == [] ||
    (KeepsSightings(ops[..|ops| - 1], sha) && !OperationLoses(Run(ops[..|ops| - 1], sha).0, ops[|ops| - 1], sha))
  }

  lemma StillPassing(watch: Watch, events: seq<Event>, more: seq<Event>)
    requires SettleWitnessed(watch, events) &&
             forall i | 0 <= i < |more| :: !Breaks(more[i], watch.head, watch.settledKey)
    ensures SettleWitnessed(watch, events + more)
  {
    if watch.settledAt.Some? {
      var j :| PassingSince(events, j, watch.head, watch.settledKey, watch.settledAt.value);
      assert PassingSince(events + more, j, watch.head, watch.settledKey, watch.settledAt.value);
    }
  }

  lemma JustPassed(events: seq<Event>, head: string, key: string, now: int)
    ensures PassingSince(events + [SawChecks(head, Success, key, now)], |events|, head, key, now)
  {
  }

  /** Every completion in the history came after ten minutes of the same head passing with the same key. */
  ghost predicate CompletionsEarned(events: seq<Event>) {
    forall k | 0 <= k < |events| && events[k].Completed? ::
      exists j, start :: PassingSince(events[..k], j, events[k].head, events[k].key, start) &&
          events[k].now - start >= 10 * 60 * 1_000_000
  }

  lemma NoNewCompletions(events: seq<Event>, more: seq<Event>)
    requires CompletionsEarned(events) && forall i | 0 <= i < |more| :: !more[i].Completed?
    ensures CompletionsEarned(events + more)
  {
    var all := events + more;
    forall k | 0 <= k < |all| && all[k].Completed?
      ensures exists j, start ::
                PassingSince(all[..k], j, all[k].head, all[k].key, start) && all[k].now - start >= SETTLE
    {
      assert k < |events| && all[..k] == events[..k];
    }
  }

  lemma OneMoreCompletion(events: seq<Event>, head: string, key: string, now: int, j: int, start: int)
    requires CompletionsEarned(events) && PassingSince(events, j, head, key, start) && now - start >= SETTLE
    ensures CompletionsEarned(events + [Completed(head, key, now)])
  {
    var all := events + [Completed(head, key, now)];
    forall k | 0 <= k < |all| && all[k].Completed?
      ensures exists j, start ::
                PassingSince(all[..k], j, all[k].head, all[k].key, start) && all[k].now - start >= SETTLE
    {
      if k == |events| {
        assert all[..k] == events;
      } else {
        assert all[..k] == events[..k];
      }
    }
  }

  ghost predicate Earned(world: World, events: seq<Event>) {
    Witnessed(world, events) && CompletionsEarned(events)
  }

  /** A record whose sighting has just been broken has none: nothing later in the history can stand for it. */
  lemma BrokenSighting(watch: Watch, before: seq<Event>, more: seq<Event>)
    requires watch.settledAt.Some? && exists i | 0 <= i < |more| :: Breaks(more[i], watch.head, watch.settledKey)
    requires forall i | 0 <= i < |more| ::
               more[i] != SawChecks(watch.head, Success, watch.settledKey, watch.settledAt.value)
    ensures !SettleWitnessed(watch, before + more)
  {
    var all := before + more;
    var i :| 0 <= i < |more| && Breaks(more[i], watch.head, watch.settledKey);
    forall j ensures !PassingSince(all, j, watch.head, watch.settledKey, watch.settledAt.value) {
      assert all[|before| + i] == more[i];
      if |before| <= j < |all| {
        assert all[j] == more[j - |before|];
      }
    }
  }

  /** A completion of the evaluation is always earned by the sighting its record held. */
  lemma CompletingIsEarned(watch: Watch, seen: seq<Event>, key: string, now: int)
    requires CompletionsEarned(seen) && SettleWitnessed(watch, seen) && Settle(watch, key, now).1
    ensures var check := SawChecks(watch.head, Success, key, now);
            CompletionsEarned(seen + [check] + [Completed(watch.head, key, now)])
  {
    var check := SawChecks(watch.head, Success, key, now);
    NoNewCompletions(seen, [check]);
    StillPassing(watch, seen, [check]);
    var j :| PassingSince(seen + [check], j, watch.head, key, watch.settledAt.value);
    OneMoreCompletion(seen + [check], watch.head, key, now, j, watch.settledAt.value);
  }

  /** Judging passes on the history it is given, and adds at most a dispatch or a completion. */
  lemma JudgeAdds(world: World, watch: Watch, events: seq<Event>, state: State, key: string, a: Answers, sha: Sha)
    ensures var r := Judge(world, watch, events, state, key, a, sha);
            r.events == events ||
            (state == Success && Settle(watch, key, a.now).1 &&
              r.events == events + [Completed(watch.head, key, a.now)]) ||
            (state == Failing && exists epoch: nat, retry: nat :: r.events == events + [Dispatched(epoch, retry)])
  {
    hide FailureKey, Settle;
    if state == Failing {
      var r := Dispatch(world, watch, events, a, sha);
      if r.events != events {
        assert r.events == events + [Dispatched(r.events[|events|].epoch, r.events[|events|].retry)];
      }
    }
  }

  lemma JudgeEarns(world: World, watch: Watch, before: seq<Event>, events: seq<Event>, state: State, key: string,
                   a: Answers, sha: Sha)
    requires CompletionsEarned(before + events) && SettleWitnessed(watch, before + events)
    ensures var seen := [SawChecks(watch.head, state, key, a.now)];
            CompletionsEarned(before + Judge(world, watch, events + seen, state, key, a, sha).events)
  {
    hide Judge, Settle, CompletionsEarned, SettleWitnessed;
    var check := SawChecks(watch.head, state, key, a.now);
    var r := Judge(world, watch, events + [check], state, key, a, sha);
    JudgeAdds(world, watch, events + [check], state, key, a, sha);
    NoNewCompletions(before + events, [check]);
    assert before + (events + [check]) == before + events + [check];
    if r.events != events + [check] {
      if r.events == events + [check] + [Completed(watch.head, key, a.now)] && state == Success &&
          Settle(watch, key, a.now).1 {
        CompletingIsEarned(watch, before + events, key, a.now);
        assert before + (events + [check] + [Completed(watch.head, key, a.now)]) ==
               before + events + [check] + [Completed(watch.head, key, a.now)];
      } else {
        var epoch: nat, retry: nat :| r.events == events + [check] + [Dispatched(epoch, retry)];
        NoNewCompletions(before + events + [check], [Dispatched(epoch, retry)]);
        assert before + (events + [check] + [Dispatched(epoch, retry)]) ==
               before + events + [check] + [Dispatched(epoch, retry)];
      }
    }
  }

  /** What the record remembers about settling, if it has a sighting at all. */
  predicate SameSighting(a: Watch, b: Watch) {
    a.head == b.head && a.settledKey == b.settledKey && a.settledAt == b.settledAt
  }

  lemma SameSightingWitnessed(watch: Watch, other: Watch, events: seq<Event>)
    requires SameSighting(watch, other)
    ensures SettleWitnessed(watch, events) <==> SettleWitnessed(other, events)
  {
  }

  /** What dispatching leaves of the sighting: the record it was given, or what was stored. */
  lemma DispatchRecord(world: World, watch: Watch, events: seq<Event>, a: Answers, sha: Sha)
    requires world.watch.Some?
    ensures var after := Dispatch(world, watch, events, a, sha).world.watch;
            after.Some? ==> SameSighting(after.value, watch) || SameSighting(after.value, world.watch.value)
    ensures watch.retryCount == 0 && watch.dispatchKeys == [] ==>
              var after := Dispatch(world, watch, events, a, sha).world.watch;
              after.Some? && SameSighting(after.value, if a.saved then watch else world.watch.value)
  {
    hide FailureKey, LastN, Without;
  }

  lemma StopRecord(world: World, a: Answers)
    requires world.watch.Some?
    ensures var after := Stop(world, a.cronDeleted, a.stopStored).watch;
            (after.None? <==> StopDeletes(world.watch.value, a)) &&
            (after.Some? ==> SameSighting(after.value, world.watch.value))
  {
  }

  lemma ErrorRecord(world: World, watch: Watch, events: seq<Event>, a: Answers)
    requires world.watch.Some?
    ensures var after := RecordError(world, watch, events, a).world.watch;
            if a.saved then after.Some? ==> SameSighting(after.value, watch) else after == world.watch
  {
  }

  /** Seeing the head the record is for: the sighting is lost exactly if it was broken and the record not written. */
  lemma SameHeadWitnesses(world: World, watch: Watch, before: seq<Event>, state: State, key: string, a: Answers,
                          sha: Sha)
    requires world.watch.Some? && SameSighting(watch, world.watch.value) && SettleWitnessed(watch, before)
    ensures var seen := [SawHead(watch.head)] + [SawChecks(watch.head, state, key, a.now)];
            var r := Judge(world, watch, seen, state, key, a, sha);
            Witnessed(r.world, before + r.events) <==>
            !(watch.settledAt.Some? && (state == Pending || (state == Success && key != watch.settledKey)) && !a.saved)
  {
    hide Dispatch, SettleWitnessed;
    var old' := world.watch.value;
    var seen := [SawHead(watch.head)] + [SawChecks(watch.head, state, key, a.now)];
    var r := Judge(world, watch, seen, state, key, a, sha);
    var breaks := state == Pending || (state == Success && key != watch.settledKey);
    JudgeAdds(world, watch, seen, state, key, a, sha);
    if !breaks {
      assert forall i | 0 <= i < |r.events| :: !Breaks(r.events[i], watch.head, watch.settledKey);
      StillPassing(watch, before, r.events);
      SameSightingWitnessed(watch, old', before + r.events);
      match state {
        case Success =>
          if watch.settledAt.None? {
            FirstSighting(watch, before, key, a.now);
          } else {
            StopRecord(world, a);
            if r.world.watch.Some? {
              SameSightingWitnessed(watch, r.world.watch.value, before + r.events);
            }
          }
        case Blocked =>
          StopRecord(world, a);
          if r.world.watch.Some? {
            SameSightingWitnessed(watch, r.world.watch.value, before + r.events);
          }
        case Pending =>
        case Failing =>
          DispatchRecord(world, watch, seen, a, sha);
          if r.world.watch.Some? {
            SameSightingWitnessed(watch, r.world.watch.value, before + r.events);
          }
      }
    } else if a.saved {
      if state == Success {
        FirstSighting(watch, before, key, a.now);
      } else {
        NoSighting(r.world.watch.value, before + r.events);
      }
    } else if watch.settledAt.Some? {
      assert Breaks(seen[1], watch.head, watch.settledKey) && r.events == seen;
      BrokenSighting(old', before, seen);
    } else {
      NoSighting(old', before + r.events);
    }
  }

  lemma NoSighting(watch: Watch, events: seq<Event>)
    requires watch.settledAt.None?
    ensures SettleWitnessed(watch, events)
  {
  }

  /** A passing check set that is new to the record is its own sighting. */
  lemma FirstSighting(watch: Watch, before: seq<Event>, key: string, now: int)
    requires watch.settledKey != key || watch.settledAt.None?
    ensures !Settle(watch, key, now).1
    ensures SettleWitnessed(Settle(watch, key, now).0,
              before + ([SawHead(watch.head)] + [SawChecks(watch.head, Success, key, now)]))
  {
    JustPassed(before + [SawHead(watch.head)], watch.head, key, now);
    assert before + ([SawHead(watch.head)] + [SawChecks(watch.head, Success, key, now)]) ==
           before + [SawHead(watch.head)] + [SawChecks(watch.head, Success, key, now)];
  }

  /** Seeing another head: the sighting is lost exactly if the old record survives. */
  lemma NewHeadWitnesses(world: World, watch: Watch, before: seq<Event>, state: State, key: string, a: Answers,
                         sha: Sha)
    requires world.watch.Some? && watch.head != world.watch.value.head
    requires watch.retryCount == 0 && watch.settledAt.None? && watch.dispatchKeys == []
    ensures var seen := [SawHead(watch.head)] + [SawChecks(watch.head, state, key, a.now)];
            var r := Judge(world, watch, seen, state, key, a, sha);
            Witnessed(r.world, before + r.events) <==>
            !(world.watch.value.settledAt.Some? && if state == Blocked then !StopDeletes(world.watch.value, a)
              else !a.saved)
  {
    hide Dispatch, SettleWitnessed;
    var old' := world.watch.value;
    var seen := [SawHead(watch.head)] + [SawChecks(watch.head, state, key, a.now)];
    var r := Judge(world, watch, seen, state, key, a, sha);
    JudgeAdds(world, watch, seen, state, key, a, sha);
    StopRecord(world, a);
    DispatchRecord(world, watch, seen, a, sha);
    FirstSighting(watch, before, key, a.now);
    if old'.settledAt.Some? {
      assert Breaks(r.events[0], old'.head, old'.settledKey);
      BrokenSighting(old', before, r.events);
    } else {
      NoSighting(old', before + r.events);
    }
    if r.world.watch.Some? && SameSighting(r.world.watch.value, old') {
      SameSightingWitnessed(old', r.world.watch.value, before + r.events);
    } else if r.world.watch.Some? && r.world.watch.value.settledAt.None? {
      NoSighting(r.world.watch.value, before + r.events);
    }
  }

  /** The head alone was seen, because the checks were not available. */
  lemma HeadWitnesses(world: World, watch: Watch, before: seq<Event>, a: Answers)
    requires world.watch.Some? && SettleWitnessed(world.watch.value, before)
    requires SameSighting(watch, world.watch.value) || (watch.head != world.watch.value.head && watch.settledAt.None?)
    ensures var r := RecordError(world, watch, [SawHead(watch.head)], a);
            Witnessed(r.world, before + r.events) <==>
            !(world.watch.value.settledAt.Some? && watch.head != world.watch.value.head && !a.saved)
  {
    hide SettleWitnessed;
    var old' := world.watch.value;
    var r := RecordError(world, watch, [SawHead(watch.head)], a);
    ErrorRecord(world, watch, [SawHead(watch.head)], a);
    assert r.events == [SawHead(watch.head)];
    if watch.head == old'.head {
      StillPassing(old', before, r.events);
      if r.world.watch.Some? {
        SameSightingWitnessed(old', r.world.watch.value, before + r.events);
      }
    } else {
      if old'.settledAt.Some? {
        assert Breaks(r.events[0], old'.head, old'.settledKey);
        BrokenSighting(old', before, r.events);
      } else {
        NoSighting(old', before + r.events);
      }
      if a.saved && r.world.watch.Some? {
        NoSighting(r.world.watch.value, before + r.events);
      }
    }
  }

  /** The head was not even seen. */
  lemma NothingSeenWitnesses(world: World, before: seq<Event>, a: Answers)
    requires world.watch.Some? && SettleWitnessed(world.watch.value, before)
    ensures Witnessed(RecordError(world, world.watch.value, [], a).world, before + [])
    ensures Witnessed(Finish(world, [], a).world, before + [])
  {
    hide SettleWitnessed;
    assert before + [] == before;
    var watch := world.watch.value;
    ErrorRecord(world, watch, [], a);
    StopRecord(world, a);
    var failed, stopped := RecordError(world, watch, [], a).world.watch, Finish(world, [], a).world.watch;
    if failed.Some? {
      SameSightingWitnessed(watch, failed.value, before);
    }
    if stopped.Some? {
      SameSightingWitnessed(watch, stopped.value, before);
    }
  }

  /**
   * For every answer: after an evaluation the record's sighting is a real one, exactly unless the evaluation loses it.
   */
  lemma EvaluationWitnesses(world: World, before: seq<Event>, a: Answers, sha: Sha)
    requires Witnessed(world, before)
    ensures var r := Evaluated(world, a, sha); Witnessed(r.world, before + r.events) <==> !LosesSighting(world, a, sha)
  {
    hide Judge, RecordError, Finish, AggregateState, CheckSetKey, SettleWitnessed;
    assert before + [] == before;
    if world.watch.Some? {
      var watch := world.watch.value;
      NothingSeenWitnesses(world, before, a);
      NothingAdded(world, watch, a);
      if watch.active && a.token && a.pr.Open? && a.pr.head.GetOr("") != "" {
        var current := AtHead(watch, a.pr.head.value, a.pr.headRef);
        if a.checks.None? {
          HeadWitnesses(world, current, before, a);
        } else {
          var (runs, statuses) := a.checks.value;
          var state, key := AggregateState(runs, statuses), CheckSetKey(runs, statuses, sha);
          if current.head == watch.head {
            SameSightingWitnessed(watch, current.(errors := 0), before);
            SameHeadWitnesses(world, current.(errors := 0), before, state, key, a, sha);
          } else {
            NewHeadWitnesses(world, current.(errors := 0), before, state, key, a, sha);
          }
        }
      }
    }
  }

  lemma NothingAdded(world: World, watch: Watch, a: Answers)
    ensures RecordError(world, watch, [], a).events == [] && Finish(world, [], a).events == []
  {
  }

  /** Every completion of an evaluation is earned, whatever is answered. */
  lemma EvaluationEarns(world: World, before: seq<Event>, a: Answers, sha: Sha)
    requires Earned(world, before)
    ensures CompletionsEarned(before + Evaluated(world, a, sha).events)
  {
    hide Judge, AggregateState, CheckSetKey, SettleWitnessed, CompletionsEarned;
    assert before + [] == before;
    if world.watch.Some? {
      var watch := world.watch.value;
      if a.pr.Open? && a.pr.head.Some? {
        var current := AtHead(watch, a.pr.head.value, a.pr.headRef);
        var seen := [SawHead(current.head)];
        NoNewCompletions(before, seen);
        HeadStillWitnessed(watch, a.pr.head.value, a.pr.headRef, before);
        SameSightingWitnessed(current, current.(errors := 0), before + seen);
        if a.checks.Some? {
          var (runs, statuses) := a.checks.value;
          var state, key := AggregateState(runs, statuses), CheckSetKey(runs, statuses, sha);
          JudgeEarns(world, current.(errors := 0), before, seen, state, key, a, sha);
        }
      }
    }
  }

  lemma HeadStillWitnessed(watch: Watch, head: string, headRef: Option<string>, events: seq<Event>)
    requires SettleWitnessed(watch, events)
    ensures var current := AtHead(watch, head, headRef); SettleWitnessed(current, events + [SawHead(current.head)])
  {
    var current := AtHead(watch, head, headRef);
    if head == watch.head {
      SameSightingWitnessed(watch, current, events);
      StillPassing(current, events, [SawHead(head)]);
    }
  }

  /**
   * An operation completes only what is earned, and keeps the record's sighting a real one exactly unless it loses it.
   */
  lemma OperationEarns(world: World, before: seq<Event>, op: Operation, sha: Sha)
    requires Earned(world, before)
    ensures var r := Perform(world, op, sha);
            CompletionsEarned(before + r.events) && (Witnessed(r.world, before + r.events) <==>
              !OperationLoses(world, op, sha))
  {
    hide Evaluated, SettleWitnessed, AlertKey, CompletionsEarned, LosesSighting;
    assert before + [] == before;
    match op {
      case Evaluate(a) =>
        EvaluationEarns(world, before, a, sha);
        EvaluationWitnesses(world, before, a, sha);
      case Deliver(w) =>
        if world.watch.Some? {
          var noted := Noted(world.watch.value, w);
          SameSightingWitnessed(world.watch.value, noted, before);
          EvaluationEarns(Save(world, noted, true), before, w.evaluation, sha);
          EvaluationWitnesses(Save(world, noted, true), before, w.evaluation, sha);
        }
      case RecordRetry(r) =>
        var after := Recorded(world, r, sha).world;
        if after.watch.Some? {
          SameSightingWitnessed(world.watch.value, after.watch.value, before);
        }
      case Start(q) =>
        var r := Started(world, q);
        NoNewCompletions(before, [Created]);
        if r.world.watch.Some? {
          StartedWitnessed(world, q, before);
        }
      case StopWatch(cronDeleted, storeOk) =>
        if world.watch.Some? {
          SameSightingWitnessed(world.watch.value, world.watch.value.(active := false), before);
        }
    }
  }

  lemma StartedWitnessed(world: World, q: Request, before: seq<Event>)
    requires Witnessed(world, before) && Started(world, q).world.watch.Some?
    ensures SettleWitnessed(Started(world, q).world.watch.value, before + Started(world, q).events)
  {
    assert before + [] == before;
    var after := Started(world, q).world.watch.value;
    if world.watch.Some? && world.watch.value.head == q.head {
      SameSightingWitnessed(world.watch.value, after, before);
    } else if Started(world, q).events == [] {
      assert world.watch.Some?;
      SameSightingWitnessed(world.watch.value, after, before);
    }
  }

  /**
   * Over every run in which no operation loses the sighting its record holds, a watch completes only after the same
   * head was seen passing with the same check set at least ten minutes before, with no pending check, other head,
   * other passing check set or new watch seen in between.
   */
  lemma {:induction false} CompletionIsEarned(ops: seq<Operation>, sha: Sha)
    requires KeepsSightings(ops, sha)
    ensures var (world, events) := Run(ops, sha); Earned(world, events)
  {
    hide Perform, OperationLoses;
    if ops != [] {
      var front := ops[..|ops| - 1];
      CompletionIsEarned(front, sha);
      var (world, events) := Run(front, sha);
      OperationEarns(world, events, ops[|ops| - 1], sha);
    }
  }

  // ---------------------------------------------------------------- what completions and dispatches answer to

  function AnswersOf(op: Operation): Option<Answers> {
    match op
    case Evaluate(a) => Some(a)
    case Deliver(w) => Some(w.evaluation)
    case _ => None
  }

  /** The operation saw an open pull request at this head whose checks all pass. */
  predicate SeesPassing(op: Operation, head: string, key: string, now: int, sha: Sha) {
    AnswersOf(op).Some? &&
    var a := AnswersOf(op).value;
    a.token && a.pr.Open? && a.pr.head == Some(head) && a.now == now && a.checks.Some? &&
    AllPass(a.checks.value.0, a.checks.value.1) && CheckSetKey(a.checks.value.0, a.checks.value.1, sha) == key
  }

  /** The operation saw an open pull request with a failed check, and dispatched a run. */
  predicate SeesFailure(op: Operation) {
    AnswersOf(op).Some? &&
    var a := AnswersOf(op).value;
    a.token && a.pr.Open? && a.checks.Some? && HasFailure(a.checks.value.0, a.checks.value.1) && a.saved && a.dispatched
  }

  predicate Answered(op: Operation, events: seq<Event>, sha: Sha) {
    forall e | e in events ::
      (e.Completed? ==> SeesPassing(op, e.head, e.key, e.now, sha)) && (e.Dispatched? ==> SeesFailure(op))
  }

  lemma EvaluationAnswers(world: World, a: Answers, op: Operation, sha: Sha)
    requires AnswersOf(op) == Some(a)
    ensures Answered(op, Evaluated(world, a, sha).events, sha)
  {
    hide AggregateState, CheckSetKey, HasFailure, AllPass, Settle, Stop, Save, FailureKey;
    if a.checks.Some? {
      StatesMean(a.checks.value.0, a.checks.value.1);
    }
  }

  lemma OperationAnswers(world: World, op: Operation, sha: Sha)
    ensures Answered(op, Perform(world, op, sha).events, sha)
  {
    hide Evaluated, SeesPassing, SeesFailure, Save;
    match op {
      case Evaluate(a) => EvaluationAnswers(world, a, op, sha);
      case Deliver(w) =>
        if world.watch.Some? {
          EvaluationAnswers(Save(world, Noted(world.watch.value, w), true), w.evaluation, op, sha);
        }
      case RecordRetry(_) =>
      case Start(_) =>
      case StopWatch(_, _) =>
    }
  }

  /**
   * Over every run: a watch completes only at an evaluation that sees every check passing, and a run is dispatched only
   * at one that sees a failed check.
   */
  lemma {:induction false} EventsAnswerToChecks(ops: seq<Operation>, sha: Sha, e: Event)
    requires e in Run(ops, sha).1
    ensures e.Completed? ==> exists op | op in ops :: SeesPassing(op, e.head, e.key, e.now, sha)
    ensures e.Dispatched? ==> exists op | op in ops :: SeesFailure(op)
  {
    hide Perform, SeesPassing, SeesFailure;
    if ops != [] {
      var front, last := ops[..|ops| - 1], ops[|ops| - 1];
      var (world, before) := Run(front, sha);
      assert last in ops && forall op | op in front :: op in ops;
      if e in before {
        EventsAnswerToChecks(front, sha, e);
      } else {
        OperationAnswers(world, last, sha);
      }
    }
  }

  // ---------------------------------------------------------------- what a lost sighting does

  /** Watching the same head again, from the same thread. */
  function Again(watch: Watch): Request {
    Request(watch.thread, watch.head, watch.headRef, None, true, Some("cron"), true, true)
  }

  /** The check set of the sighting, seen passing again when the sighting is ten minutes old. */
  function SeenAgain(watch: Watch, runs: seq<CheckRun>, statuses: seq<Status>): Answers
    requires watch.settledAt.Some?
  {
    var now := watch.settledAt.value + SETTLE;
    Answers(true, Open(Some(watch.head), None), Some((runs, statuses)), now, true, true, true, true, true)
  }

  /** An evaluation that loses a sighting has seen something that breaks it, and nothing that could replace it. */
  lemma LossBreaks(world: World, a: Answers, sha: Sha)
    requires LosesSighting(world, a, sha)
    ensures var watch, r := world.watch.value, Evaluated(world, a, sha);
            (exists i | 0 <= i < |r.events| :: Breaks(r.events[i], watch.head, watch.settledKey)) &&
            (forall i, now | 0 <= i < |r.events| ::
               r.events[i] != SawChecks(watch.head, Success, watch.settledKey, now)) &&
            (forall i | 0 <= i < |r.events| :: !r.events[i].Completed?) &&
            r.world.watch.Some? && r.world.watch.value.(active := true) == watch
  {
    hide AggregateState, CheckSetKey, FailureKey;
    var watch, r := world.watch.value, Evaluated(world, a, sha);
    var head := a.pr.head.value;
    if a.checks.None? {
      assert r.events == [SawHead(head)];
    } else {
      var (runs, statuses) := a.checks.value;
      var state, key := AggregateState(runs, statuses), CheckSetKey(runs, statuses, sha);
      assert r.events == [SawHead(head)] + [SawChecks(head, state, key, a.now)];
    }
    assert Breaks(r.events[|r.events| - 1], watch.head, watch.settledKey);
  }

  lemma WatchAgain(watch: Watch, epoch: nat)
    requires watch.head != ""
    ensures Started(World(Some(watch), epoch), Again(watch)) ==
            Result(World(Some(watch.(active := true, installation := None, errors := 0, cron := Some("cron"))), epoch),
              [], Ran)
  {
  }

  lemma CompleteAgain(watch: Watch, epoch: nat, runs: seq<CheckRun>, statuses: seq<Status>, sha: Sha)
    requires watch.active && watch.head != "" && watch.settledAt.Some?
    requires AggregateState(runs, statuses) == Success && CheckSetKey(runs, statuses, sha) == watch.settledKey
    ensures var now := watch.settledAt.value + SETTLE;
            Evaluated(World(Some(watch), epoch), SeenAgain(watch, runs, statuses), sha).events ==
            [SawHead(watch.head)] + [SawChecks(watch.head, Success, watch.settledKey, now)] +
              [Completed(watch.head, watch.settledKey, now)]
  {
    hide AggregateState, CheckSetKey, Stop;
  }

  /**
   * A completion right after its check set was seen again is not earned when what broke the sighting lies in between.
   */
  lemma Unearned(before: seq<Event>, lost: seq<Event>, head: string, key: string, now: int)
    requires exists i | 0 <= i < |lost| :: Breaks(lost[i], head, key)
    requires forall i, start | 0 <= i < |lost| :: lost[i] != SawChecks(head, Success, key, start)
    ensures !CompletionsEarned(before + lost + ([SawHead(head)] + [SawChecks(head, Success, key, now)] +
              [Completed(head, key, now)]))
  {
    var all := before + lost + ([SawHead(head)] + [SawChecks(head, Success, key, now)] + [Completed(head, key, now)]);
    var k := |all| - 1;
    var i :| 0 <= i < |lost| && Breaks(lost[i], head, key);
    assert all[..k][|before| + i] == lost[i];
    assert all[k] == Completed(head, key, now);
    forall j, start ensures !(PassingSince(all[..k], j, head, key, start) && now - start >= SETTLE) {
      if |before| <= j < |before| + |lost| {
        assert all[..k][j] == lost[j - |before|];
      }
    }
  }

  /** The evaluation loses a sighting, whose check set is passing still. */
  predicate LosesPassing(world: World, a: Answers, runs: seq<CheckRun>, statuses: seq<Status>, sha: Sha) {
    LosesSighting(world, a, sha) && world.watch.value.head != "" &&
    AggregateState(runs, statuses) == Success && CheckSetKey(runs, statuses, sha) == world.watch.value.settledKey
  }

  /**
   * The loss, and what completes the watch after it: watching the head again, and seeing the old check set once more.
   */
  function LossAndReturn(world: World, a: Answers, runs: seq<CheckRun>, statuses: seq<Status>, sha: Sha): seq<Operation>
    requires LosesPassing(world, a, runs, statuses, sha)
  {
    var watch := world.watch.value;
    [Evaluate(a), Start(Again(watch)), Evaluate(SeenAgain(watch, runs, statuses))]
  }

  lemma LossHasSighting(world: World, a: Answers, sha: Sha)
    requires LosesSighting(world, a, sha)
    ensures world.watch.Some? && world.watch.value.active && world.watch.value.settledAt.Some?
  {
  }

  lemma LossCompletes(world: World, a: Answers, runs: seq<CheckRun>, statuses: seq<Status>, sha: Sha)
    requires LosesPassing(world, a, runs, statuses, sha)
    ensures var watch := world.watch.value;
            var lost := Evaluated(world, a, sha);
            var again := Started(lost.world, Again(watch));
            var now := watch.settledAt.value + SETTLE;
            again.events == [] &&
            Evaluated(again.world, SeenAgain(watch, runs, statuses), sha).events ==
            [SawHead(watch.head)] + [SawChecks(watch.head, Success, watch.settledKey, now)] +
              [Completed(watch.head, watch.settledKey, now)]
  {
    hide LosesSighting, Evaluated, Started, AggregateState, CheckSetKey, Breaks;
    LossHasSighting(world, a, sha);
    LossBreaks(world, a, sha);
    var watch, lost := world.watch.value, Evaluated(world, a, sha);
    var kept := lost.world.watch.value;
    assert Again(kept) == Again(watch);
    WatchAgain(kept, lost.world.epoch);
    var resumed := kept.(active := true, installation := None, errors := 0, cron := Some("cron"));
    assert SeenAgain(resumed, runs, statuses) == SeenAgain(watch, runs, statuses);
    CompleteAgain(resumed, lost.world.epoch, runs, statuses, sha);
  }

  lemma RunThreeMore(ops: seq<Operation>, a: Answers, r: Request, b: Answers, sha: Sha)
    ensures var (world, before) := Run(ops, sha);
            var first := Evaluated(world, a, sha);
            var second := Started(first.world, r);
            Run(ops + [Evaluate(a), Start(r), Evaluate(b)], sha).1 ==
            before + first.events + second.events + Evaluated(second.world, b, sha).events
  {
    hide Run, Evaluated, Started;
    RunMore(ops, Evaluate(a), sha);
    RunMore(ops + [Evaluate(a)], Start(r), sha);
    RunMore(ops + [Evaluate(a)] + [Start(r)], Evaluate(b), sha);
    assert ops + [Evaluate(a), Start(r), Evaluate(b)] == ops + [Evaluate(a)] + [Start(r)] + [Evaluate(b)];
  }

  /**
   * The condition is needed: whatever the run, once an evaluation loses a sighting, watching the head again and seeing
   * the old check set once more completes the watch without having earned it.
   */
  lemma LostSightingCompletesUnearned(ops: seq<Operation>, a: Answers, runs: seq<CheckRun>, statuses: seq<Status>,
                                      sha: Sha)
    requires LosesPassing(Run(ops, sha).0, a, runs, statuses, sha)
    ensures !CompletionsEarned(Run(ops + LossAndReturn(Run(ops, sha).0, a, runs, statuses, sha), sha).1)
  {
    hide Run, LosesSighting, Evaluated, Started, AggregateState, CheckSetKey, CompletionsEarned, SeenAgain, Again,
         Breaks;
    var (world, before) := Run(ops, sha);
    LossHasSighting(world, a, sha);
    var watch := world.watch.value;
    var lost := Evaluated(world, a, sha).events;
    LossBreaks(world, a, sha);
    LossCompletes(world, a, runs, statuses, sha);
    RunThreeMore(ops, a, Again(watch), SeenAgain(watch, runs, statuses), sha);
    assert before + lost + [] == before + lost;
    Unearned(before, lost, watch.head, watch.settledKey, watch.settledAt.value + SETTLE);
  }

  lemma RunMore(ops: seq<Operation>, op: Operation, sha: Sha)
    ensures var (world, events) := Run(ops, sha);
            var r := Perform(world, op, sha);
            Run(ops + [op], sha) == (r.world, events + r.events)
  {
    assert (ops + [op])[..|ops|] == ops;
  }

  const GREEN := [CheckRun("1", "ci", Some("completed"), Some("success"))]
  const STALE := [CheckRun("2", "ci", Some("completed"), Some("stale"))]
  const START := Request("t", "A", "main", None, true, Some("cron"), true, true)
  const WATCHING := Watch(true, "t", "A", "main", None, 0, "", None, [], [], [], 0, Some("cron"))

  function GreenAt(now: int): Answers {
    Answers(true, Open(Some("A"), None), Some((GREEN, [])), now, true, true, true, true, true)
  }

  const STALE_B := Answers(true, Open(Some("B"), None), Some((STALE, [])), 1, true, true, true, false, true)

  lemma ExampleStates()
    ensures AggregateState(GREEN, []) == Success && AggregateState(STALE, []) == Blocked
  {
    var green, stale := GREEN[0], STALE[0];
    assert GREEN == [green] && STALE == [stale] && stale in STALE;
    assert PassingRun(green) && !FailingRun(green) && !PassingRun(stale) && !FailingRun(stale);
  }

  lemma ExampleStart(watch: Option<Watch>, epoch: nat)
    requires watch.Some? ==>
               !watch.value.active && watch.value.head == "A" &&
               watch.value == watch.value.(thread := "t", headRef := "main", installation := None, errors := 0,
                 cron := Some("cron"))
    ensures Started(World(watch, epoch), START) ==
            if watch.None? then Result(World(Some(WATCHING), epoch + 1), [Created], Ran)
            else Result(World(Some(watch.value.(active := true)), epoch), [], Ran)
  {
  }

  lemma ExampleGreen(watch: Watch, epoch: nat, now: int, sha: Sha)
    requires watch.active && watch.head == "A" && watch.errors == 0 && watch.cron == Some("cron")
    ensures var key := CheckSetKey(GREEN, [], sha);
            var seen := [SawHead("A")] + [SawChecks("A", Success, key, now)];
            var (settled, done) := Settle(watch, key, now);
            Evaluated(World(Some(watch), epoch), GreenAt(now), sha) ==
            if done then Result(World(None, epoch), seen + [Completed("A", key, now)], Stopped)
            else Result(World(Some(settled), epoch), seen, Settling)
  {
    hide CheckSetKey, AggregateState;
    ExampleStates();
    assert watch.(errors := 0) == watch;
  }

  lemma ExampleStale(watch: Watch, epoch: nat, sha: Sha)
    requires watch.active && watch.head == "A" && watch.cron == Some("cron")
    ensures Evaluated(World(Some(watch), epoch), STALE_B, sha) ==
            Result(World(Some(watch.(active := false)), epoch),
                   [SawHead("B")] + [SawChecks("B", Blocked, CheckSetKey(STALE, [], sha), 1)], Stopped)
  {
    hide CheckSetKey, AggregateState;
    ExampleStates();
  }

  /**
   * Head A passes; head B is seen blocked, but its stop cannot delete the cron; A is watched again and passes again.
   */
  const STALE_OPS := [Start(START)] + [Evaluate(GreenAt(0))] + [Evaluate(STALE_B)] + [Start(START)] +
    [Evaluate(GreenAt(SETTLE))]

  /** Up to the failed stop: the record of A survives it. */
  lemma StaleBeginning(sha: Sha)
    ensures var key := CheckSetKey(GREEN, [], sha);
            Run([Start(START)] + [Evaluate(GreenAt(0))] + [Evaluate(STALE_B)], sha) ==
            (World(Some(WATCHING.(settledKey := key, settledAt := Some(0), active := false)), 1),
             [Created] + ([SawHead("A")] + [SawChecks("A", Success, key, 0)]) +
             ([SawHead("B")] + [SawChecks("B", Blocked, CheckSetKey(STALE, [], sha), 1)]))
  {
    var key := CheckSetKey(GREEN, [], sha);
    var settling := WATCHING.(settledKey := key, settledAt := Some(0));
    assert Run([], sha) == (World(None, 0), []);
    RunMore([], Start(START), sha);
    assert [] + [Start(START)] == [Start(START)];
    RunMore([Start(START)], Evaluate(GreenAt(0)), sha);
    RunMore([Start(START)] + [Evaluate(GreenAt(0))], Evaluate(STALE_B), sha);
    ExampleStart(None, 0);
    ExampleGreen(WATCHING, 1, 0, sha);
    ExampleStale(settling, 1, sha);
    hide CheckSetKey, AggregateState, Evaluated, Started, Run;
    assert [] + [Created] == [Created];
  }

  /** After it: the completion rests on the check set seen before B. */
  lemma StaleRun(sha: Sha)
    ensures var key := CheckSetKey(GREEN, [], sha);
            Run(STALE_OPS, sha).1 ==
            [Created] + ([SawHead("A")] + [SawChecks("A", Success, key, 0)]) +
            ([SawHead("B")] + [SawChecks("B", Blocked, CheckSetKey(STALE, [], sha), 1)]) +
            ([SawHead("A")] + [SawChecks("A", Success, key, SETTLE)] + [Completed("A", key, SETTLE)])
  {
    var ops := [Start(START)] + [Evaluate(GreenAt(0))] + [Evaluate(STALE_B)];
    var settling := WATCHING.(settledKey := CheckSetKey(GREEN, [], sha), settledAt := Some(0));
    StaleBeginning(sha);
    RunMore(ops, Start(START), sha);
    RunMore(ops + [Start(START)], Evaluate(GreenAt(SETTLE)), sha);
    ExampleStart(Some(settling.(active := false)), 1);
    assert settling.(active := false).(active := true) == settling;
    ExampleGreen(settling, 1, SETTLE, sha);
    hide CheckSetKey, AggregateState, Evaluated, Started, Run;
    assert Run(ops, sha).1 + [] == Run(ops, sha).1;
  }

  /**
   * When a sighting is lost the guarantee fails: a watch completes for head A, though head B was seen since A's check
   * set was, and A's own ten minutes had only begun.
   */
  lemma StaleKeyCompletesAfterFailedStop(sha: Sha)
    ensures var events := Run(STALE_OPS, sha).1;
            |events| == 8 && events[3] == SawHead("B") &&
            events[7] == Completed("A", CheckSetKey(GREEN, [], sha), SETTLE) &&
            !CompletionsEarned(events)
  {
    StaleRun(sha);
    hide CheckSetKey, Run, CompletionsEarned;
    var key := CheckSetKey(GREEN, [], sha);
    var lost := [SawHead("B")] + [SawChecks("B", Blocked, CheckSetKey(STALE, [], sha), 1)];
    assert "A" != "B" && Breaks(lost[0], "A", key);
    Unearned([Created] + ([SawHead("A")] + [SawChecks("A", Success, key, 0)]), lost, "A", key, SETTLE);
  }

  // ---------------------------------------------------------------- the operations on the stored record

  /** What was seen before a decision only comes first in its history. */
  lemma ErrorEvents(world: World, watch: Watch, events: seq<Event>, a: Answers)
    ensures RecordError(world, watch, events, a) == RecordError(world, watch, [], a).(events := events)
  {
  }

  lemma JudgeEvents(world: World, watch: Watch, events: seq<Event>, state: State, key: string, a: Answers, sha: Sha)
    ensures var r := Judge(world, watch, [], state, key, a, sha);
            Judge(world, watch, events, state, key, a, sha) == r.(events := events + r.events)
  {
    hide FailureKey, Save, Stop;
    assert events + [] == events;
  }

  /** The stored record of one watch, updated step by step; the ghost fields keep the epoch and the history. */
  class WatchStore {
    const sha: Sha
    var watch: Option<Watch>
    ghost var epoch: nat
    ghost var events: seq<Event>

    ghost function Current(): World
      reads this
    {
      World(watch, epoch)
    }

    constructor (sha: Sha)
      ensures (Current(), events) == Run([], sha) && this.sha == sha
    {
      this.sha := sha;
      this.watch, this.epoch, this.events := None, 0, [];
    }

    method PutWatch(w: Watch, ok: bool)
      modifies this`watch, this`epoch
      ensures Current() == Save(old(Current()), w, ok)
    {
      if ok {
        if watch.None? || watch.value.head != w.head {
          epoch := epoch + 1;
        }
        watch := Some(w);
      }
    }

    method StopWatch(cronDeleted: bool, storeOk: bool)
      modifies this`watch, this`epoch
      ensures Current() == Stop(old(Current()), cronDeleted, storeOk)
    {
      if watch.None? {
        return;
      }
      var w := watch.value;
      if w.cron.Some? && w.cron.value != "" && !cronDeleted {
        PutWatch(w.(active := false), storeOk);
        return;
      }
      if storeOk {
        watch := None;
      }
    }

    method FinishWatch(a: Answers) returns (answer: Answer)
      modifies this`watch, this`epoch
      ensures var r := Finish(old(Current()), [], a); Current() == r.world && answer == r.answer
    {
      StopWatch(a.cronDeleted, a.stopStored);
      answer := if a.stopStored then Stopped else Raised;
    }

    method RecordEvaluationError(w: Watch, a: Answers) returns (answer: Answer)
      modifies this`watch, this`epoch
      ensures var r := RecordError(old(Current()), w, [], a); Current() == r.world && answer == r.answer
    {
      var errors := w.errors + 1;
      PutWatch(w.(errors := errors), a.saved);
      if !a.saved {
        return Raised;
      }
      if errors < MAX_EVALUATION_ERRORS {
        return Failed;
      }
      answer := FinishWatch(a);
    }

    method CheckSetSettled(w: Watch, key: string, now: int) returns (updated: Watch, settled: bool)
      ensures settled <==> w.settledKey == key && w.settledAt.Some? && now - w.settledAt.value >= 10 * 60 * 1_000_000
      ensures settled ==> updated == w
      ensures updated.settledKey == key && updated.settledAt.Some? &&
              updated == w.(settledKey := key, settledAt := updated.settledAt)
      ensures updated.settledAt == if w.settledKey == key && w.settledAt.Some? then w.settledAt else Some(now)
    {
      if w.settledKey != key {
        return w.(settledKey := key, settledAt := Some(now)), false;
      }
      if w.settledAt.None? {
        return w.(settledAt := Some(now)), false;
      }
      return w, now - w.settledAt.value >= SETTLE;
    }

    /** The failing branch: at most one run per head and retry count. */
    method DispatchFailure(w: Watch, a: Answers) returns (answer: Answer)
      modifies this
      ensures var r := Dispatch(old(Current()), w, [], a, sha);
              Current() == r.world && events == old(events) + r.events && answer == r.answer
    {
      if w.retryCount >= MAX_RETRIES_PER_HEAD {
        answer := FinishWatch(a);
        return;
      }
      var fingerprint := FailureKey(w.head, w.retryCount, sha);
      if fingerprint in w.dispatchKeys {
        PutWatch(w, a.saved);
        return if a.saved then Duplicate else Raised;
      }
      var noted := w.(dispatchKeys := LastN(w.dispatchKeys + [fingerprint], MAX_DISPATCH_KEYS));
      PutWatch(noted, a.saved);
      if !a.saved {
        return Raised;
      }
      if !a.dispatched {
        var latest := watch.GetOr(noted);
        PutWatch(latest.(dispatchKeys := Without(latest.dispatchKeys, fingerprint)), a.undone);
        return if a.undone then Failed else Raised;
      }
      events := events + [Dispatched(epoch, w.retryCount)];
      return Ran;
    }

    /** What to do about the check lists of an open pull request. */
    method JudgeChecks(current: Watch, state: State, key: string, a: Answers) returns (answer: Answer)
      modifies this
      ensures var r := Judge(old(Current()), current, [], state, key, a, sha);
              Current() == r.world && events == old(events) + r.events && answer == r.answer
    {
      hide Dispatch;
      var w := current;
      match state {
        case Pending =>
          w := w.(settledKey := "", settledAt := None);
          PutWatch(w, a.saved);
          answer := if a.saved then StillPending else Raised;
        case Success =>
          var settled: bool;
          w, settled := CheckSetSettled(w, key, a.now);
          if !settled {
            PutWatch(w, a.saved);
            answer := if a.saved then Settling else Raised;
          } else {
            events := events + [Completed(w.head, key, a.now)];
            answer := FinishWatch(a);
          }
        case Blocked =>
          answer := FinishWatch(a);
        case Failing =>
          answer := DispatchFailure(w, a);
      }
    }

    method EvaluateWatch(a: Answers) returns (answer: Answer)
      modifies this
      ensures var r := Evaluated(old(Current()), a, sha);
              Current() == r.world && events == old(events) + r.events && answer == r.answer
    {
      hide AggregateState, CheckSetKey, Judge, RecordError, Stop;
      if watch.None? {
        return Missing;
      }
      var w := watch.value;
      if !w.active {
        answer := FinishWatch(a);
        return;
      }
      ErrorEvents(Current(), w, [], a);
      if !a.token || a.pr.Unavailable? {
        answer := RecordEvaluationError(w, a);
        return;
      }
      if a.pr.NotOpen? {
        answer := FinishWatch(a);
        return;
      }
      if a.pr.head.None? || a.pr.head.value == "" {
        answer := RecordEvaluationError(w, a);
        return;
      }
      if a.pr.headRef.Some? && a.pr.headRef.value != "" {
        w := w.(headRef := a.pr.headRef.value);
      }
      if a.pr.head.value != w.head {
        w := w.(head := a.pr.head.value, retryCount := 0, settledKey := "", settledAt := None, dispatchKeys := [],
          alertKeys := []);
      }
      events := events + [SawHead(w.head)];
      ErrorEvents(Current(), w, [SawHead(w.head)], a);
      if a.checks.None? {
        answer := RecordEvaluationError(w, a);
        return;
      }
      var (runs, statuses) := a.checks.value;
      w := w.(errors := 0);
      var state, key := AggregateState(runs, statuses), CheckSetKey(runs, statuses, sha);
      events := events + [SawChecks(w.head, state, key, a.now)];
      JudgeEvents(Current(), w, [SawHead(w.head)] + [SawChecks(w.head, state, key, a.now)], state, key, a, sha);
      answer := JudgeChecks(w, state, key, a);
    }

    method HandleWebhook(w: Webhook) returns (answer: Answer)
      modifies this
      ensures var r := Delivered(old(Current()), w, sha);
              Current() == r.world && events == old(events) + r.events && answer == r.answer
    {
      hide Evaluated;
      if watch.None? || !watch.value.active {
        return Missing;
      }
      var current := watch.value;
      if w.installation.Some? {
        current := current.(installation := w.installation);
      }
      if w.delivery.Some? && w.delivery.value != "" {
        if w.delivery.value in current.deliveryIds {
          return Duplicate;
        }
        current := current.(deliveryIds := LastN(current.deliveryIds + [w.delivery.value], MAX_DELIVERY_IDS));
      }
      PutWatch(current, w.stored);
      if !w.stored {
        return Raised;
      }
      answer := EvaluateWatch(w.evaluation);
    }

    method RecordRetry(r: Retry) returns (answer: Answer)
      modifies this`watch, this`epoch
      ensures var o := Recorded(old(Current()), r, sha); Current() == o.world && answer == o.answer
    {
      hide AlertKey;
      if watch.None? || !watch.value.active {
        return Failed;
      }
      var w := watch.value;
      if w.thread != r.thread || w.head != r.head || w.retryCount >= MAX_RETRIES_PER_HEAD {
        return Failed;
      }
      var alertKey := AlertKey(w, r, sha);
      w := w.(retryCount := w.retryCount + 1);
      if alertKey !in w.alertKeys {
        w := w.(alertKeys := LastN(w.alertKeys + [alertKey], MAX_ALERT_KEYS));
      }
      PutWatch(w, r.stored);
      return if r.stored then Ran else Raised;
    }

    method StartWatch(q: Request) returns (answer: Answer)
      modifies this
      ensures var r := Started(old(Current()), q);
              Current() == r.world && events == old(events) + r.events && answer == r.answer
    {
      var existing := watch;
      if existing.Some? && existing.value.active && existing.value.thread != q.thread {
        return Failed;
      }
      var w := FreshWatch(existing, q);
      PutWatch(w, q.stored);
      if !q.stored {
        return Raised;
      }
      if existing.None? || existing.value.head != q.head {
        events := events + [Created];
      }
      if q.cron.Some? && q.storedAgain {
        PutWatch(w.(cron := q.cron), true);
        return Ran;
      }
      if existing.None? && q.rolledBack {
        watch := None;
      }
      return Raised;
    }
  }
}
