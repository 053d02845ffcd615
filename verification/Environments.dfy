/** An environment's snapshot: capturing a sandbox's file system into it, and deleting it. */
module Environments {
  import opened Common

  const CAPTURE_NAME_ATTEMPTS := 5

  datatype SnapshotStatus = NoSnapshot | Capturing | Ready | Failed

  /** The parts of an environment's record that concern its snapshot. */
  datatype Environment = Environment(status: SnapshotStatus, snapshotId: Option<string>, snapshotName: Option<string>)

  /** The stored record, and the snapshots the platform holds. */
  datatype State = State(record: Option<Environment>, live: set<string>)

  /** How the platform answers one attempt to capture. */
  datatype Answer = Captured(id: string) | NameTaken | CaptureError

  /**
   * Which accesses of one capture succeed: the first look-up, the look-up and put that mark it capturing, the attempts,
   * the look-up and put of its result, and the deletion of the snapshot it supersedes.
   */
  datatype World = World(
    found: bool, markRead: bool, markPut: bool, answers: int -> Answer, resultRead: bool, resultPut: bool,
    deleteOk: bool)

  datatype Outcome = Returned | NoEnvironment | StoreError | CaptureFailed

  /** `environment_snapshot_id`: what new sandboxes boot from. */
  function BootSnapshot(record: Option<Environment>): Option<string> {
    if record.None? || record.value.status != Ready then None else record.value.snapshotId
  }

  /** A ready record names a live snapshot. */
  predicate BootsLive(s: State) {
    BootSnapshot(s.record).Some? ==> BootSnapshot(s.record).value in s.live
  }

  // ---------------------------------------------------------------- name retries

  function SnapshotName(stem: string, attempt: int): string {
    if attempt == 1 then stem else stem + "-" + Decimal(attempt)
  }

  /** The attempt that ends the retries: the first one, up to the last allowed, whose name was not taken. */
  function DecidingAttempt(answers: int -> Answer, attempt: int): (k: int)
    requires 1 <= attempt <= CAPTURE_NAME_ATTEMPTS
    ensures attempt <= k <= CAPTURE_NAME_ATTEMPTS && (answers(k).NameTaken? ==> k == CAPTURE_NAME_ATTEMPTS)
    ensures forall i | attempt <= i < k :: answers(i).NameTaken?
    decreases CAPTURE_NAME_ATTEMPTS - attempt
  {
    if attempt == CAPTURE_NAME_ATTEMPTS || !answers(attempt).NameTaken? then attempt
    else DecidingAttempt(answers, attempt + 1)
  }

  /** The snapshot a capture ends with, if any, and its name. */
  function CaptureResult(answers: int -> Answer, stem: string): Option<(string, string)> {
    var k := DecidingAttempt(answers, 1);
    if answers(k).Captured? then Some((answers(k).id, SnapshotName(stem, k))) else None
  }

  /** The names a capture tries, in order. */
  function NamesTried(stem: string): seq<string> {
    [stem, stem + "-2", stem + "-3", stem + "-4", stem + "-5"]
  }

  /** What a capture ends with: the first answer that is not a taken name, under the name that attempt used. */
  lemma CaptureResultMeans(answers: int -> Answer, stem: string, id: string, name: string)
    ensures CaptureResult(answers, stem) == Some((id, name)) <==>
            exists k :: 1 <= k <= 5 && answers(k) == Captured(id) && name == NamesTried(stem)[k - 1] &&
                        forall i | 1 <= i < k :: answers(i) == NameTaken
    ensures CaptureResult(answers, stem) == None <==>
            (forall k | 1 <= k <= 5 :: answers(k) == NameTaken) ||
            exists k :: 1 <= k <= 5 && answers(k) == CaptureError && forall i | 1 <= i < k :: answers(i) == NameTaken
  {
    hide Decimal;
    var k := DecidingAttempt(answers, 1);
    DigitsAre();
    assert SnapshotName(stem, k) == NamesTried(stem)[k - 1];
    hide DecidingAttempt;
    if answers(k).NameTaken? {
      assert forall i | 1 <= i <= 5 :: answers(i) == NameTaken;
    } else if answers(k).CaptureError? {
      assert answers(k) == CaptureError && forall i | 1 <= i < k :: answers(i) == NameTaken;
    } else {
      assert CaptureResult(answers, stem) == Some((answers(k).id, SnapshotName(stem, k)));
    }
  }

  lemma DigitsAre()
    ensures Decimal(2) == "2" && Decimal(3) == "3" && Decimal(4) == "4" && Decimal(5) == "5"
  {
  }

  /** `_capture_with_name_retry`. */
  method CaptureWithNameRetry(answers: int -> Answer, stem: string) returns (r: Option<(string, string)>)
    ensures r == CaptureResult(answers, stem)
    ensures r.Some? <==>
            exists k :: 1 <= k <= CAPTURE_NAME_ATTEMPTS && answers(k).Captured? &&
                        forall i | 1 <= i < k :: answers(i).NameTaken?
  {
    var attempt := 1;
    while attempt <= CAPTURE_NAME_ATTEMPTS
      invariant 1 <= attempt <= CAPTURE_NAME_ATTEMPTS
      invariant forall i | 1 <= i < attempt :: answers(i).NameTaken?
      invariant DecidingAttempt(answers, 1) == DecidingAttempt(answers, attempt)
    {
      var name := SnapshotName(stem, attempt);
      var answer := answers(attempt);
      if answer.Captured? {
        return Some((answer.id, name));
      }
      if attempt == CAPTURE_NAME_ATTEMPTS || !answer.NameTaken? {
        return None;
      }
      attempt := attempt + 1;
    }
  }

  // ---------------------------------------------------------------- captures and deletions

  /** `_set_snapshot_state`: a failed look-up writes nothing and says nothing. */
  function SetState(record: Option<Environment>, readOk: bool, putOk: bool, value: Environment): Option<Environment> {
    if record.Some? && readOk && putOk then Some(value) else record
  }

  predicate PutRaises(record: Option<Environment>, readOk: bool, putOk: bool) {
    record.Some? && readOk && !putOk
  }

  function DeleteSnapshot(live: set<string>, id: Option<string>, ok: bool): set<string> {
    if id.Some? && ok then live - {id.value} else live
  }

  /** `capture_environment_snapshot`. */
  function Capture(s: State, w: World, stem: string): (State, Outcome) {
    if s.record.None? || !w.found then (s, NoEnvironment) else
    var before := s.record.value;
    var wasReady := before.snapshotId.Some? && before.status == Ready;
    if PutRaises(s.record, w.markRead, w.markPut) then (s, StoreError) else
    var marked := SetState(s.record, w.markRead, w.markPut, before.(status := Capturing)).value;
    match CaptureResult(w.answers, stem)
    case None =>
      var restored := marked.(status := if wasReady then Ready else Failed);
      (State(SetState(Some(marked), w.resultRead, w.resultPut, restored), s.live),
       if PutRaises(Some(marked), w.resultRead, w.resultPut) then StoreError else CaptureFailed)
    case Some((id, name)) =>
      var live := s.live + {id};
      if PutRaises(Some(marked), w.resultRead, w.resultPut) then (State(Some(marked), live), StoreError) else
      (State(SetState(Some(marked), w.resultRead, w.resultPut, Environment(Ready, Some(id), Some(name))),
             if before.snapshotId != Some(id) then DeleteSnapshot(live, before.snapshotId, w.deleteOk) else live),
       Returned)
  }

  /** `delete_environment`. */
  function Delete(s: State, found: bool, removeOk: bool, deleteOk: bool): (State, bool) {
    if s.record.None? || !found || !removeOk then (s, false)
    else (State(None, DeleteSnapshot(s.live, s.record.value.snapshotId, deleteOk)), true)
  }

  /**
   * Both look-ups of a successful capture failed: the record never learned of the capture that superseded its snapshot.
   */
  predicate LosesTrack(s: State, w: World, stem: string) {
    s.record.Some? && w.found && !w.markRead && !w.resultRead && w.deleteOk && BootSnapshot(s.record).Some? &&
    CaptureResult(w.answers, stem).Some? && BootSnapshot(s.record) != Some(CaptureResult(w.answers, stem).value.0)
  }

  /**
   * A ready record still names a live snapshot after a capture, exactly unless the capture lost track of its record.
   */
  lemma CaptureBootsLive(s: State, w: World, stem: string)
    requires BootsLive(s)
    ensures BootsLive(Capture(s, w, stem).0) <==> !LosesTrack(s, w, stem)
  {
    hide CaptureResult;
    if s.record.Some? && w.found && CaptureResult(w.answers, stem).Some? {
      var (id, name) := CaptureResult(w.answers, stem).value;
      assert id in s.live + {id};
    }
  }

  /** Two failed look-ups around one capture leave a ready record that boots sandboxes from a deleted snapshot. */
  lemma LostRecordBootsADeletedSnapshot()
    ensures var s := State(Some(Environment(Ready, Some("old"), None)), {"old"});
            var w := World(true, false, true, attempt => Captured("new"), false, true, true);
            BootsLive(s) && Capture(s, w, "env").1 == Returned &&
            BootSnapshot(Capture(s, w, "env").0.record) == Some("old") && "old" !in Capture(s, w, "env").0.live
  {
    assert "old" != "new";
    assert DecidingAttempt(attempt => Captured("new"), 1) == 1;
  }

  /** The call gets as far as its attempts to capture. */
  predicate Attempts(s: State, w: World) {
    s.record.Some? && w.found && !PutRaises(s.record, w.markRead, w.markPut)
  }

  /**
   * Whatever makes a call raise: it deletes no snapshot, leaves at most the one it captured behind, and keeps the id on
   * record. A ready record stays ready exactly when it was never marked, or nothing was captured and that was written
   * back.
   */
  lemma FailedCaptureKeepsTheSnapshot(s: State, w: World, stem: string)
    requires Capture(s, w, stem).1 != Returned
    ensures var (after, captured) := (Capture(s, w, stem).0, CaptureResult(w.answers, stem));
            after.live == (if Attempts(s, w) && captured.Some? then s.live + {captured.value.0} else s.live) &&
            (if s.record.None? then after == s
             else after.record.Some? && after.record.value.snapshotId == s.record.value.snapshotId)
    ensures BootSnapshot(s.record).Some? ==>
              (BootSnapshot(Capture(s, w, stem).0.record) == BootSnapshot(s.record) <==>
               !w.found || !w.markRead || !w.markPut ||
               (CaptureResult(w.answers, stem).None? && w.resultRead && w.resultPut))
  {
    hide CaptureResult;
  }

  /**
   * A call that returns has captured a snapshot, and the environment boots from it exactly when its result was written,
   * or the record was never marked and names it already.
   */
  lemma ReturnedCaptureIsBooted(s: State, w: World, stem: string)
    requires Capture(s, w, stem).1 == Returned
    ensures Attempts(s, w) && CaptureResult(w.answers, stem).Some?
    ensures var id := CaptureResult(w.answers, stem).value.0;
            BootSnapshot(Capture(s, w, stem).0.record) == Some(id) <==>
            w.resultRead || (!w.markRead && BootSnapshot(s.record) == Some(id))
  {
    hide CaptureResult;
  }

  /**
   * A capture that exhausts its names while the look-up of its result fails leaves a ready environment capturing for
   * good.
   */
  lemma UnrestoredCaptureIsNotReady()
    ensures var s := State(Some(Environment(Ready, Some("old"), None)), {"old"});
            var w := World(true, true, true, attempt => NameTaken, false, true, true);
            BootSnapshot(s.record) == Some("old") &&
            Capture(s, w, "env") == (State(Some(Environment(Capturing, Some("old"), None)), {"old"}), CaptureFailed)
  {
  }

  /**
   * A capture that succeeds but whose result cannot be stored does the same, and leaves its snapshot without a record.
   */
  lemma UnrecordedCaptureIsNotReady()
    ensures var s := State(Some(Environment(Ready, Some("old"), None)), {"old"});
            var w := World(true, true, true, attempt => Captured("new"), true, false, true);
            BootSnapshot(s.record) == Some("old") &&
            Capture(s, w, "env") == (State(Some(Environment(Capturing, Some("old"), None)), {"old", "new"}), StoreError)
  {
    assert {"old"} + {"new"} == {"old", "new"};
    assert DecidingAttempt(attempt => Captured("new"), 1) == 1;
  }

  /**
   * A look-up of the result that fails does so even though the call returns: its snapshot is superseded and deleted.
   */
  lemma ReturnedCaptureIsNotReady()
    ensures var s := State(Some(Environment(Ready, Some("old"), None)), {"old"});
            var w := World(true, true, true, attempt => Captured("new"), false, true, true);
            Capture(s, w, "env") == (State(Some(Environment(Capturing, Some("old"), None)), {"new"}), Returned)
  {
    assert "old" != "new";
    assert DecidingAttempt(attempt => Captured("new"), 1) == 1;
  }

  /**
   * The old snapshot is deleted only after a capture, and only once the record points at the new one, except when the
   * look-up before the last put failed.
   */
  lemma OldSnapshotGoesLast(s: State, w: World, stem: string, id: string)
    requires id in s.live && id !in Capture(s, w, stem).0.live
    ensures Capture(s, w, stem).1 == Returned && s.record.Some? && s.record.value.snapshotId == Some(id) && w.deleteOk
    ensures CaptureResult(w.answers, stem).Some? && CaptureResult(w.answers, stem).value.0 != id
    ensures Capture(s, w, stem).0.record.value.snapshotId == Some(CaptureResult(w.answers, stem).value.0) <==>
            w.resultRead
  {
    hide CaptureResult;
  }

  lemma DeleteBootsLive(s: State, found: bool, removeOk: bool, deleteOk: bool)
    requires BootsLive(s)
    ensures var (after, removed) := Delete(s, found, removeOk, deleteOk);
            BootsLive(after) && (removed <==> s.record.Some? && after.record.None?) && (!removed ==> after == s)
  {
  }

  // ---------------------------------------------------------------- runs

  datatype Event =
    | CaptureRuns(world: World)
    | Deletes(found: bool, removeOk: bool, deleteOk: bool)
    | Creates

  function Do(s: State, e: Event, stem: string): State {
    match e
    case CaptureRuns(w) => Capture(s, w, stem).0
    case Deletes(found, removeOk, deleteOk) => Delete(s, found, removeOk, deleteOk).0
    case Creates => if s.record.None? then s.(record := Some(Environment(NoSnapshot, None, None))) else s
  }

  function Run(s: State, events: seq<Event>, stem: string): State {
    if events == [] then s else Do(Run(s, events[..|events| - 1], stem), events[|events| - 1], stem)
  }

  /** No capture of the run loses track of its record. */
  predicate KeepsTrack(s: State, events: seq<Event>, stem: string) {
    events == [] ||
    (KeepsTrack(s, events[..|events| - 1], stem) &&
     (events[|events| - 1].CaptureRuns? ==>
       !LosesTrack(Run(s, events[..|events| - 1], stem), events[|events| - 1].world, stem)))
  }

  /**
   * Over any sequence of captures and deletions whose look-ups do not both fail, a ready environment boots from a live
   * snapshot.
   */
  lemma {:induction false} ReadyBootsLive(s: State, events: seq<Event>, stem: string)
    requires BootsLive(s) && KeepsTrack(s, events, stem)
    ensures BootsLive(Run(s, events, stem))
  {
    if events != [] {
      var before, e := Run(s, events[..|events| - 1], stem), events[|events| - 1];
      ReadyBootsLive(s, events[..|events| - 1], stem);
      hide Run, Capture, Delete, LosesTrack;
      match e
      case CaptureRuns(w) => CaptureBootsLive(before, w, stem);
      case Deletes(found, removeOk, deleteOk) => DeleteBootsLive(before, found, removeOk, deleteOk);
      case Creates =>
    }
  }

  /** One environment in the store, and the platform's snapshots. */
  class EnvironmentStore {
    var record: Option<Environment>
    var live: set<string>

    constructor ()
      ensures Now() == State(None, {})
    {
      record := None;
      live := {};
    }

    ghost function Now(): State
      reads this
    {
      State(record, live)
    }

    method SetSnapshotState(readOk: bool, putOk: bool, value: Environment) returns (raised: bool)
      modifies this`record
      ensures record == SetState(old(record), readOk, putOk, value) && raised == PutRaises(old(record), readOk, putOk)
    {
      if !readOk || record.None? {
        return false;
      }
      if !putOk {
        return true;
      }
      record := Some(value);
      raised := false;
    }

    /** `capture_environment_snapshot`. */
    method CaptureSnapshot(w: World, stem: string) returns (outcome: Outcome)
      modifies this
      ensures (Now(), outcome) == Capture(old(Now()), w, stem)
    {
      hide CaptureResult;
      if record.None? || !w.found {
        return NoEnvironment;
      }
      var before := record.value;
      var wasReady := before.snapshotId.Some? && before.status == Ready;
      var raised := SetSnapshotState(w.markRead, w.markPut, before.(status := Capturing));
      if raised {
        return StoreError;
      }
      var marked := record.value;
      var captured := CaptureWithNameRetry(w.answers, stem);
      if captured.None? {
        raised := SetSnapshotState(w.resultRead, w.resultPut, marked.(status := if wasReady then Ready else Failed));
        return if raised then StoreError else CaptureFailed;
      }
      var (id, name) := captured.value;
      live := live + {id};
      raised := SetSnapshotState(w.resultRead, w.resultPut, Environment(Ready, Some(id), Some(name)));
      if raised {
        return StoreError;
      }
      if before.snapshotId != Some(id) {
        if before.snapshotId.Some? && w.deleteOk {
          live := live - {before.snapshotId.value};
        }
      }
      outcome := Returned;
    }

    /** `delete_environment`. */
    method DeleteEnvironment(found: bool, removeOk: bool, deleteOk: bool) returns (removed: bool)
      modifies this
      ensures (Now(), removed) == Delete(old(Now()), found, removeOk, deleteOk)
    {
      if record.None? || !found {
        return false;
      }
      var existing := record.value;
      if !removeOk {
        return false;
      }
      record := None;
      if existing.snapshotId.Some? && deleteOk {
        live := live - {existing.snapshotId.value};
      }
      removed := true;
    }
  }
}
