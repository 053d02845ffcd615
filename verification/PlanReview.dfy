/**
 * Approving and rejecting a published plan: two places of status, a lock per thread, writers outside the lock, and a
 * rollback.
 */
module PlanReview {
  import opened Common

  datatype Status = Planning | Ready | Shared | Revising | Approved | Cancelled

  /** The published record; an absent path is "". */
  datatype Plan = Plan(status: Status, html: Option<string>, markdown: Option<string>, path: string,
                       approvedBy: Option<string>)

  /** What the thread's metadata says about its plan. */
  datatype Metadata = Metadata(status: Option<Status>, planMode: Option<bool>)

  datatype Decision = Approve(approver: string) | Reject

  // ---------------------------------------------------------------- the plan store

  /** The record `set_plan_status` writes over what it read. */
  function Restated(existing: Option<Plan>, status: Status, approver: Option<string>): Plan {
    var actor := if status == Approved then approver else None;
    if existing.None? then Plan(status, None, None, "", actor)
    else if existing.value.status == Shared && status == Planning then Plan(status, Some(""), None, "", actor)
    else Plan(status, existing.value.html, existing.value.markdown, existing.value.path, actor)
  }

  function Merged(metadata: Metadata, status: Status, planMode: Option<bool>): Metadata {
    Metadata(Some(status), if planMode.Some? then planMode else metadata.planMode)
  }

  class PlanStore {
    var content: Option<Plan>
    var metadata: Metadata

    constructor (content: Option<Plan>, metadata: Metadata)
      ensures this.content == content && this.metadata == metadata
    {
      this.content := content;
      this.metadata := metadata;
    }

    /** `save_plan_content`; the booleans say which accesses succeed. */
    method SavePlanContent(html: Option<string>, markdown: Option<string>, status: Status, path: Option<string>,
                           planMode: Option<bool>,
                           readOk: bool, putOk: bool, mergeOk: bool)
      returns (ok: bool)
      modifies this
      ensures ok == putOk
      ensures content == (if !putOk then old(content)
                          else Some(Plan(status, html, markdown,
                                         if path.Some? then path.value else if readOk && old(content).Some? then
                                             old(content).value.path else "",
                                         None)))
      ensures metadata == if putOk && mergeOk then Merged(old(metadata), status, planMode) else old(metadata)
    {
      var filePath := path;
      if filePath.None? && readOk && content.Some? && content.value.path != "" {
        filePath := Some(content.value.path);
      }
      if !putOk {
        return false;
      }
      content := Some(Plan(status, html, markdown, filePath.GetOr(""), None));
      if mergeOk {
        metadata := Merged(metadata, status, planMode);
      }
      ok := true;
    }

    /** `set_plan_status`: a failed read counts as no record, a failed merge goes unnoticed. */
    method SetPlanStatus(status: Status, planMode: Option<bool>, approver: Option<string>, readOk: bool, putOk: bool,
                         mergeOk: bool)
      returns (ok: bool)
      modifies this
      ensures ok == putOk
      ensures content == if putOk then Some(Restated(if readOk then old(content) else None, status, approver))
              else old(content)
      ensures metadata == if putOk && mergeOk then Merged(old(metadata), status, planMode) else old(metadata)
    {
      var existing: Option<Plan> := None;
      if readOk {
        existing := content;
      }
      var value := Plan(status, None, None, "", None);
      if existing.Some? && existing.value.status == Shared && status == Planning {
        value := value.(html := Some(""));
      } else if existing.Some? {
        value := value.(html := existing.value.html, markdown := existing.value.markdown);
        value := value.(path := existing.value.path);
      }
      if status == Approved {
        value := value.(approvedBy := approver);
      }
      if !putOk {
        return false;
      }
      content := Some(value);
      if mergeOk {
        metadata := Merged(metadata, status, planMode);
      }
      ok := true;
    }

    /** `update_plan`, the owner's edit, after its checks of the caller; `fallback` is the thread's own file path. */
    method UpdatePlan(html: string, markdown: string, fallback: string, readOk: bool, putOk: bool, mergeOk: bool)
      returns (status: int)
      modifies this
      ensures var existing := if readOk then old(content) else None;
              var legacy := existing.Some? && existing.value.markdown.Some? && existing.value.html.GetOr("") == "";
              var value := Strip(if legacy then markdown else html);
              var current := if existing.Some? then existing.value.status else old(metadata).status.GetOr(Planning);
              if existing.Some? && existing.value.status == Shared then status == 409 && content == old(content)
              else if value == "" then status == 422 && content == old(content)
              else if current == Approved || current == Cancelled then status == 409 && content == old(content)
              else if !putOk then status == 500 && content == old(content)
              else
                status == 200 &&
                content == Some(Plan(Ready, if legacy then None else Some(value), if legacy then Some(value) else None,
                                     if existing.Some? && existing.value.path != "" then existing.value.path
                                     else fallback, None))
      ensures metadata == if status == 200 && mergeOk then Merged(old(metadata), Ready, Some(true)) else old(metadata)
    {
      var existing: Option<Plan> := None;
      if readOk {
        existing := content;
      }
      if existing.Some? && existing.value.status == Shared {
        return 409;
      }
      var legacy := existing.Some? && existing.value.markdown.Some? && existing.value.html.GetOr("") == "";
      var value := Strip(if legacy then markdown else html);
      if value == "" {
        return 422;
      }
      var current := if existing.Some? then existing.value.status else metadata.status.GetOr(Planning);
      if current == Approved || current == Cancelled {
        return 409;
      }
      var path := if existing.Some? && existing.value.path != "" then existing.value.path else fallback;
      var saved: bool;
      if legacy {
        saved := SavePlanContent(None, Some(value), Ready, Some(path), Some(true), readOk, putOk, mergeOk);
      } else {
        saved := SavePlanContent(Some(value), None, Ready, Some(path), Some(true), readOk, putOk, mergeOk);
      }
      status := if saved then 200 else 500;
    }
  }

  // ---------------------------------------------------------------- decisions under the lock

  /** Where a decision stands between two accesses to the store, the thread or the agent. */
  datatype Phase =
    | Asked(decision: Decision)
    | Entered(decision: Decision)
    | Knowing(decision: Decision, metadata: Metadata)
    | Listing(decision: Decision)
    | Reading(decision: Decision)
    | Putting(decision: Decision, plan: Plan)
    | Merging(decision: Decision)
    | Dispatching
    | Rereading
    | Reputting(plan: Plan)
    | Remerging
    | Decided
    | NotReady
    | RolledBack
    | Failed

  predicate HoldsLock(phase: Phase) {
    !phase.Asked? && !phase.Decided? && !phase.NotReady? && !phase.RolledBack? && !phase.Failed?
  }

  datatype State = State(
    content: Option<Plan>, metadata: Metadata, lock: Option<int>, callers: map<int, Phase>, publications: nat,
    decisions: nat)

  /**
   * Somebody asks for a decision; a caller takes its next step, whose access succeeds or fails; a caller that is not
   * done is cancelled; or a writer outside the lock stores a record, or changes the metadata.
   */
  datatype Event =
    | Ask(id: int, decision: Decision)
    | Step(id: int, ok: bool)
    | Cancel(id: int)
    | Write(plan: Plan)
    | Annotate(metadata: Metadata)

  predicate IsReady(content: Option<Plan>) {
    content.Some? && content.value.status == Ready
  }

  /** What both stores must say for a decision to be taken. */
  predicate Reviewable(content: Option<Plan>, metadata: Metadata, decision: Decision) {
    IsReady(content) && metadata.status == Some(Ready) && (decision.Approve? ==> metadata.planMode == Some(true))
  }

  function StatusOf(decision: Decision): Status {
    if decision.Approve? then Approved else Revising
  }

  function ApproverOf(decision: Decision): Option<string> {
    if decision.Approve? then Some(decision.approver) else None
  }

  function Move(s: State, id: int, phase: Phase): State {
    s.(callers := s.callers[id := phase], lock := if HoldsLock(phase) then Some(id) else None)
  }

  function StepOf(s: State, id: int, phase: Phase, ok: bool): State {
    match phase
    case Asked(decision) => if s.lock.Some? then s else Move(s, id, Entered(decision))
    case Entered(decision) => Move(s, id, if ok then Knowing(decision, s.metadata) else Failed)
    case Knowing(decision, metadata) =>
      if !ok then Move(s, id, Failed)
      else if !Reviewable(s.content, metadata, decision) then Move(s, id, NotReady)
      else Move(s, id, if decision.Approve? then Listing(decision) else Reading(decision))
    case Listing(decision) => Move(s, id, if ok then Reading(decision) else Failed)
    case Reading(decision) =>
      Move(s, id, Putting(decision, Restated(if ok then s.content else None, StatusOf(decision), ApproverOf(decision))))
    case Putting(decision, plan) =>
      if ok then Move(s.(content := Some(plan)), id, Merging(decision)) else Move(s, id, Failed)
    case Merging(decision) =>
      var merged := if ok then s.(metadata := Merged(s.metadata, StatusOf(decision), Some(decision.Reject?))) else s;
      if decision.Approve? then Move(merged, id, Dispatching)
      else Move(merged, id, Decided).(decisions := s.decisions + 1)
    case Dispatching => if ok then Move(s, id, Decided).(decisions := s.decisions + 1) else Move(s, id, Rereading)
    case Rereading => Move(s, id, Reputting(Restated(if ok then s.content else None, Ready, None)))
    case Reputting(plan) => if ok then Move(s.(content := Some(plan)), id, Remerging) else Move(s, id, Failed)
    case Remerging => Move(if ok then s.(metadata := Merged(s.metadata, Ready, Some(true))) else s, id, RolledBack)
    case Decided => s
    case NotReady => s
    case RolledBack => s
    case Failed => s
  }

  function Do(s: State, e: Event): State {
    match e
    case Ask(id, decision) => if id in s.callers then s else s.(callers := s.callers[id := Asked(decision)])
    case Step(id, ok) => if id in s.callers then StepOf(s, id, s.callers[id], ok) else s
    case Cancel(id) =>
      if id !in s.callers then s
      else if HoldsLock(s.callers[id]) then Move(s, id, Failed)
      else if s.callers[id].Asked? then s.(callers := s.callers[id := Failed])
      else s
    case Write(plan) => s.(content := Some(plan), publications := s.publications + if plan.status == Ready then 1
        else 0)
    case Annotate(metadata) => s.(metadata := metadata)
  }

  function Run(s: State, events: seq<Event>): State {
    if events == [] then s else Do(Run(s, events[..|events| - 1]), events[|events| - 1])
  }

  /** Nobody has decided yet; a plan that is already ready has been published once. */
  predicate Initial(s: State) {
    s.lock == None && s.callers == map[] && s.decisions == 0 && s.publications == Outstanding(s.content)
  }

  // ---------------------------------------------------------------- no more decisions than publications

  ghost predicate LockIsHeld(s: State) {
    (forall id | id in s.callers :: HoldsLock(s.callers[id]) <==> s.lock == Some(id)) &&
    (s.lock.Some? ==> s.lock.value in s.callers)
  }

  function Outstanding(content: Option<Plan>): nat {
    if IsReady(content) then 1 else 0
  }

  /** The publications still claimed: by the record itself, and by the decision that has found it ready. */
  function Claimed(s: State): nat {
    if s.lock.None? || s.lock.value !in s.callers then Outstanding(s.content) else
    var phase := s.callers[s.lock.value];
    if phase.Listing? || phase.Reading? || (phase.Putting? && phase.plan.status != Ready) then 1
    else if phase.Merging? || phase.Dispatching? || phase.Rereading? || phase.Reputting? then 1 + Outstanding(s.content)
    else Outstanding(s.content)
  }

  ghost predicate Covered(s: State) {
    LockIsHeld(s) && s.decisions + Claimed(s) <= s.publications &&
    forall id | id in s.callers && s.callers[id].Putting? :: s.callers[id].plan.status != Ready
  }

  lemma DecisionStatuses(existing: Option<Plan>, decision: Decision)
    ensures Restated(existing, StatusOf(decision), ApproverOf(decision)).status != Ready
    ensures Restated(existing, Ready, None).status == Ready
  {
  }

  lemma StepKeepsLock(s: State, id: int, ok: bool)
    requires LockIsHeld(s) && id in s.callers
    ensures LockIsHeld(StepOf(s, id, s.callers[id], ok))
  {
    hide Restated, Reviewable;
  }

  lemma StepKeepsCovered(s: State, id: int, ok: bool)
    requires Covered(s) && id in s.callers
    ensures Covered(StepOf(s, id, s.callers[id], ok))
  {
    StepKeepsLock(s, id, ok);
    var phase := s.callers[id];
    if phase.Reading? {
      DecisionStatuses(if ok then s.content else None, phase.decision);
    }
    hide Restated, StatusOf, ApproverOf, Merged;
  }

  lemma EventKeepsCovered(s: State, e: Event)
    requires Covered(s)
    ensures Covered(Do(s, e))
  {
    hide StepOf;
    if e.Step? && e.id in s.callers {
      StepKeepsCovered(s, e.id, e.ok);
    }
  }

  /**
   * However decisions, their failures, and writers outside the lock interleave, there are never more successful
   * decisions than ready publications: no publication is approved twice, or both approved and rejected.
   */
  lemma {:induction false} DecisionsNeedPublications(s: State, events: seq<Event>)
    requires Initial(s)
    ensures Covered(Run(s, events)) && Run(s, events).decisions <= Run(s, events).publications
  {
    if events != [] {
      hide Do, Covered;
      DecisionsNeedPublications(s, events[..|events| - 1]);
      EventKeepsCovered(Run(s, events[..|events| - 1]), events[|events| - 1]);
      CoveredCounts(Run(s, events));
    }
  }

  lemma CoveredCounts(s: State)
    requires Covered(s)
    ensures s.decisions <= s.publications
  {
  }

  // ---------------------------------------------------------------- a failed dispatch

  /** Which accesses succeed around a dispatch that fails: of marking the plan approved, and of taking that back. */
  datatype Accesses = Accesses(readOk: bool, mergeOk: bool, rereadOk: bool, reputOk: bool, remergeOk: bool)

  /** The steps of one approval up to its dispatch. */
  function UntilDispatch(id: int, approver: string, x: Accesses): seq<Event> {
    [Ask(id, Approve(approver))] + [Step(id, true)] + [Step(id, true)] + [Step(id, true)] + [Step(id, true)] +
    [Step(id, x.readOk)] +
    [Step(id, true)] + [Step(id, x.mergeOk)]
  }

  /** The steps of one approval whose dispatch fails. */
  function FailedApproval(id: int, approver: string, x: Accesses): seq<Event> {
    UntilDispatch(id, approver, x) + [Step(id, false)] + [Step(id, x.rereadOk)] + [Step(id, x.reputOk)] +
    [Step(id, x.remergeOk)]
  }

  /** `s` with its caller in a phase. */
  function At(s: State, id: int, phase: Phase, content: Option<Plan>, metadata: Metadata): State {
    s.(callers := s.callers[id := phase], lock := if HoldsLock(phase) then Some(id) else None, content := content,
      metadata := metadata)
  }

  lemma RunMore(s: State, events: seq<Event>, e: Event)
    ensures Run(s, events + [e]) == Do(Run(s, events), e)
  {
    assert (events + [e])[..|events|] == events;
  }

  lemma StepAt(s: State, events: seq<Event>, id: int, ok: bool, before: Phase, c: Option<Plan>, m: Metadata,
               after: Phase, c': Option<Plan>, m': Metadata)
    requires Run(s, events) == At(s, id, before, c, m)
    requires StepOf(At(s, id, before, c, m), id, before, ok) == At(s, id, after, c', m')
    ensures Run(s, events + [Step(id, ok)]) == At(s, id, after, c', m')
  {
    hide Run, StepOf, HoldsLock;
    RunMore(s, events, Step(id, ok));
  }

  lemma AskAt(s: State, id: int, decision: Decision)
    requires s.lock == None && id !in s.callers
    ensures Run(s, [Ask(id, decision)]) == At(s, id, Asked(decision), s.content, s.metadata)
  {
    assert Run(s, []) == s;
    RunMore(s, [], Ask(id, decision));
    assert [] + [Ask(id, decision)] == [Ask(id, decision)];
  }

  /** Finding the plan ready. */
  lemma StepsToFind(s: State, id: int, d: Decision, c: Option<Plan>, m: Metadata)
    requires s.lock == None && Reviewable(c, m, d) && d.Approve?
    ensures StepOf(At(s, id, Asked(d), c, m), id, Asked(d), true) == At(s, id, Entered(d), c, m)
    ensures StepOf(At(s, id, Entered(d), c, m), id, Entered(d), true) == At(s, id, Knowing(d, m), c, m)
    ensures StepOf(At(s, id, Knowing(d, m), c, m), id, Knowing(d, m), true) == At(s, id, Listing(d), c, m)
  {
    hide Restated, Reviewable;
  }

  /** Deciding what to write. */
  lemma StepsToDecide(s: State, id: int, d: Decision, c: Option<Plan>, m: Metadata, readOk: bool)
    requires d.Approve?
    ensures StepOf(At(s, id, Listing(d), c, m), id, Listing(d), true) == At(s, id, Reading(d), c, m)
    ensures var plan := Restated(if readOk then c else None, Approved, Some(d.approver));
            StepOf(At(s, id, Reading(d), c, m), id, Reading(d), readOk) == At(s, id, Putting(d, plan), c, m)
  {
    hide Restated, Reviewable;
  }

  /** Marking it approved, and failing to dispatch. */
  lemma StepsToApprove(s: State, id: int, d: Decision, plan: Plan, c: Option<Plan>, m: Metadata, ok: bool)
    requires d.Approve?
    ensures StepOf(At(s, id, Putting(d, plan), c, m), id, Putting(d, plan), true) ==
            At(s, id, Merging(d), Some(plan), m)
    ensures StepOf(At(s, id, Merging(d), c, m), id, Merging(d), ok) ==
            At(s, id, Dispatching, c, if ok then Merged(m, Approved, Some(false)) else m)
    ensures StepOf(At(s, id, Dispatching, c, m), id, Dispatching, false) == At(s, id, Rereading, c, m)
  {
    hide Restated, Merged;
  }

  /** Taking the approval back. */
  lemma StepsToRollBack(s: State, id: int, plan: Plan, c: Option<Plan>, m: Metadata, ok: bool)
    ensures StepOf(At(s, id, Rereading, c, m), id, Rereading, ok) ==
            At(s, id, Reputting(Restated(if ok then c else None, Ready, None)), c, m)
    ensures StepOf(At(s, id, Reputting(plan), c, m), id, Reputting(plan), ok) ==
            if ok then At(s, id, Remerging, Some(plan), m) else At(s, id, Failed, c, m)
    ensures StepOf(At(s, id, Remerging, c, m), id, Remerging, ok) ==
            At(s, id, RolledBack, c, if ok then Merged(m, Ready, Some(true)) else m)
    ensures StepOf(At(s, id, Failed, c, m), id, Failed, ok) == At(s, id, Failed, c, m)
  {
    hide Restated, Merged;
  }

  function ApprovedPlan(plan: Plan, approver: string, x: Accesses): Plan {
    Restated(if x.readOk then Some(plan) else None, Approved, Some(approver))
  }

  /** The record and metadata that a failed approval leaves. */
  function PlanLeft(plan: Plan, approver: string, x: Accesses): Plan {
    var approved := ApprovedPlan(plan, approver, x);
    if x.reputOk then Restated(if x.rereadOk then Some(approved) else None, Ready, None) else approved
  }

  function MetadataLeft(metadata: Metadata, x: Accesses): Metadata {
    var approved := if x.mergeOk then Merged(metadata, Approved, Some(false)) else metadata;
    if x.reputOk && x.remergeOk then Merged(approved, Ready, Some(true)) else approved
  }

  lemma DispatchIsReached(s: State, id: int, approver: string, x: Accesses)
    requires s.lock == None && id !in s.callers && Reviewable(s.content, s.metadata, Approve(approver))
    ensures var metadata := if x.mergeOk then Merged(s.metadata, Approved, Some(false)) else s.metadata;
            Run(s, UntilDispatch(id, approver, x)) ==
            At(s, id, Dispatching, Some(ApprovedPlan(s.content.value, approver, x)), metadata)
  {
    var d, c, m := Approve(approver), s.content, s.metadata;
    var c1 := ApprovedPlan(s.content.value, approver, x);
    var m1 := if x.mergeOk then Merged(m, Approved, Some(false)) else m;
    AskAt(s, id, d);
    StepsToFind(s, id, d, c, m);
    StepsToDecide(s, id, d, c, m, x.readOk);
    StepsToApprove(s, id, d, c1, c, m, x.mergeOk);
    StepsToApprove(s, id, d, c1, Some(c1), m, x.mergeOk);
    var e1 := [Ask(id, d)];
    var e2 := e1 + [Step(id, true)];
    var e3 := e2 + [Step(id, true)];
    var e4 := e3 + [Step(id, true)];
    var e5 := e4 + [Step(id, true)];
    var e6 := e5 + [Step(id, x.readOk)];
    var e7 := e6 + [Step(id, true)];
    assert UntilDispatch(id, approver, x) == e7 + [Step(id, x.mergeOk)];
    hide *;
    StepAt(s, e1, id, true, Asked(d), c, m, Entered(d), c, m);
    StepAt(s, e2, id, true, Entered(d), c, m, Knowing(d, m), c, m);
    StepAt(s, e3, id, true, Knowing(d, m), c, m, Listing(d), c, m);
    StepAt(s, e4, id, true, Listing(d), c, m, Reading(d), c, m);
    StepAt(s, e5, id, x.readOk, Reading(d), c, m, Putting(d, c1), c, m);
    StepAt(s, e6, id, true, Putting(d, c1), c, m, Merging(d), Some(c1), m);
    StepAt(s, e7, id, x.mergeOk, Merging(d), Some(c1), m, Dispatching, Some(c1), m1);
  }

  lemma FailedApprovalEndsAt(s: State, id: int, approver: string, x: Accesses)
    requires s.lock == None && id !in s.callers && Reviewable(s.content, s.metadata, Approve(approver))
    ensures Run(s, FailedApproval(id, approver, x)) ==
            At(s, id, if x.reputOk then RolledBack else Failed, Some(PlanLeft(s.content.value, approver, x)),
               MetadataLeft(s.metadata, x))
  {
    var c1, c3 := ApprovedPlan(s.content.value, approver, x), PlanLeft(s.content.value, approver, x);
    var m1 := if x.mergeOk then Merged(s.metadata, Approved, Some(false)) else s.metadata;
    var m2 := MetadataLeft(s.metadata, x);
    var c2 := Restated(if x.rereadOk then Some(c1) else None, Ready, None);
    DispatchIsReached(s, id, approver, x);
    StepsToApprove(s, id, Approve(approver), c1, Some(c1), m1, true);
    StepsToRollBack(s, id, c2, Some(c1), m1, x.rereadOk);
    StepsToRollBack(s, id, c2, Some(c1), m1, x.reputOk);
    StepsToRollBack(s, id, c2, Some(c3), m1, x.remergeOk);
    var back, end := if x.reputOk then Remerging else Failed, if x.reputOk then RolledBack else Failed;
    var e1 := UntilDispatch(id, approver, x);
    var e2 := e1 + [Step(id, false)];
    var e3 := e2 + [Step(id, x.rereadOk)];
    var e4 := e3 + [Step(id, x.reputOk)];
    assert FailedApproval(id, approver, x) == e4 + [Step(id, x.remergeOk)];
    assert c3 == if x.reputOk then c2 else c1;
    assert m2 == if x.reputOk && x.remergeOk then Merged(m1, Ready, Some(true)) else m1;
    hide *;
    StepAt(s, e1, id, false, Dispatching, Some(c1), m1, Rereading, Some(c1), m1);
    StepAt(s, e2, id, x.rereadOk, Rereading, Some(c1), m1, Reputting(c2), Some(c1), m1);
    StepAt(s, e3, id, x.reputOk, Reputting(c2), Some(c1), m1, back, Some(c3), m1);
    StepAt(s, e4, id, x.remergeOk, back, Some(c3), m1, end, Some(c3), m2);
  }

  // ---------------------------------------------------------------- what a decision leaves

  /** The plan in a status, with what a failed read loses. */
  function Left(plan: Plan, status: Status, readOk: bool, approver: Option<string>): Plan {
    if readOk then plan.(status := status, approvedBy := approver) else Plan(status, None, None, "", approver)
  }

  /** The steps of one rejection. */
  function Rejection(id: int, readOk: bool, mergeOk: bool): seq<Event> {
    [Ask(id, Reject)] + [Step(id, true)] + [Step(id, true)] + [Step(id, true)] + [Step(id, readOk)] + [Step(id, true)] +
    [Step(id, mergeOk)]
  }

  /** A rejection sends the plan back for revision: it counts, keeps the plan's text, and frees the lock. */
  lemma RejectionLeaves(s: State, id: int, readOk: bool, mergeOk: bool)
    requires s.lock == None && id !in s.callers
    requires s.content.Some? && s.content.value.status == Ready && s.metadata.status == Some(Ready)
    ensures var end := Run(s, Rejection(id, readOk, mergeOk));
            end.content == Some(Left(s.content.value, Revising, readOk, None)) && end.lock == None &&
            end.metadata == (if mergeOk then Metadata(Some(Revising), Some(true)) else s.metadata) &&
            end.decisions == s.decisions + 1 && end.callers == s.callers[id := Decided]
  {
    hide Run, StepOf, Restated, Reviewable, Left, Merged;
    var c, m := s.content, s.metadata;
    var plan := Left(s.content.value, Revising, readOk, None);
    AskAt(s, id, Reject);
    RejectionFinds(s, id, c, m);
    RejectionWrites(s, id, c, m, readOk);
    RejectionEnds(s, id, Some(plan), m, mergeOk);
    var e1 := [Ask(id, Reject)];
    var e2 := e1 + [Step(id, true)];
    var e3 := e2 + [Step(id, true)];
    var e4 := e3 + [Step(id, true)];
    var e5 := e4 + [Step(id, readOk)];
    var e6 := e5 + [Step(id, true)];
    StepAt(s, e1, id, true, Asked(Reject), c, m, Entered(Reject), c, m);
    StepAt(s, e2, id, true, Entered(Reject), c, m, Knowing(Reject, m), c, m);
    StepAt(s, e3, id, true, Knowing(Reject, m), c, m, Reading(Reject), c, m);
    StepAt(s, e4, id, readOk, Reading(Reject), c, m, Putting(Reject, plan), c, m);
    StepAt(s, e5, id, true, Putting(Reject, plan), c, m, Merging(Reject), Some(plan), m);
    RunMore(s, e6, Step(id, mergeOk));
    assert Rejection(id, readOk, mergeOk) == e6 + [Step(id, mergeOk)];
  }

  lemma RejectionFinds(s: State, id: int, c: Option<Plan>, m: Metadata)
    requires s.lock == None && c.Some? && c.value.status == Ready && m.status == Some(Ready)
    ensures StepOf(At(s, id, Asked(Reject), c, m), id, Asked(Reject), true) == At(s, id, Entered(Reject), c, m)
    ensures StepOf(At(s, id, Entered(Reject), c, m), id, Entered(Reject), true) == At(s, id, Knowing(Reject, m), c, m)
    ensures StepOf(At(s, id, Knowing(Reject, m), c, m), id, Knowing(Reject, m), true) == At(s, id, Reading(Reject), c,
              m)
  {
    hide Restated, Merged;
  }

  lemma RejectionWrites(s: State, id: int, c: Option<Plan>, m: Metadata, readOk: bool)
    requires c.Some? && c.value.status == Ready
    ensures var plan := Left(c.value, Revising, readOk, None);
            StepOf(At(s, id, Reading(Reject), c, m), id, Reading(Reject), readOk) ==
            At(s, id, Putting(Reject, plan), c, m) &&
            StepOf(At(s, id, Putting(Reject, plan), c, m), id, Putting(Reject, plan), true) ==
            At(s, id, Merging(Reject), Some(plan), m)
  {
    StatusesKeepText(c.value, Revising, None);
    hide Restated, Merged, Reviewable;
  }

  lemma RejectionEnds(s: State, id: int, c: Option<Plan>, m: Metadata, mergeOk: bool)
    ensures At(s, id, Merging(Reject), c, m).callers[id] == Merging(Reject)
    ensures StepOf(At(s, id, Merging(Reject), c, m), id, Merging(Reject), mergeOk) ==
            s.(callers := s.callers[id := Decided], lock := None, content := c,
               metadata := if mergeOk then Metadata(Some(Revising), Some(true)) else m, decisions := s.decisions + 1)
  {
    hide Restated, Reviewable;
    assert s.callers[id := Merging(Reject)][id := Decided] == s.callers[id := Decided];
  }

  /**
   * An approval whose run is dispatched: it counts, names its approver, keeps the plan's text, and ends the plan mode.
   */
  lemma ApprovalLeaves(s: State, id: int, approver: string, x: Accesses)
    requires s.lock == None && id !in s.callers
    requires s.content.Some? && s.content.value.status == Ready
    requires s.metadata == Metadata(Some(Ready), Some(true))
    ensures var end := Run(s, UntilDispatch(id, approver, x) + [Step(id, true)]);
            end.content == Some(Left(s.content.value, Approved, x.readOk, Some(approver))) && end.lock == None &&
            end.metadata == (if x.mergeOk then Metadata(Some(Approved), Some(false)) else s.metadata) &&
            end.decisions == s.decisions + 1 && end.callers == s.callers[id := Decided]
  {
    DispatchIsReached(s, id, approver, x);
    hide Run;
    RunMore(s, UntilDispatch(id, approver, x), Step(id, true));
    assert s.callers[id := Dispatching][id := Decided] == s.callers[id := Decided];
  }

  /** Every status a record is set to keeps its text, but a shared plan that is planned anew starts empty. */
  lemma StatusesKeepText(plan: Plan, status: Status, approver: Option<string>)
    ensures Restated(None, status, approver) == Plan(status, None, None, "", if status == Approved then approver
              else None)
    ensures Restated(Some(plan), status, approver) ==
            if plan.status == Shared && status == Planning then Plan(Planning, Some(""), None, "", None)
            else plan.(status := status, approvedBy := if status == Approved then approver else None)
  {
  }

  /** A decision about a plan that is not ready, or that metadata does not show as ready, changes nothing. */
  lemma NotReadyIsRefused(s: State, id: int, decision: Decision)
    requires s.lock == None && id !in s.callers
    ensures var end := Run(s, [Ask(id, decision)] + [Step(id, true)] + [Step(id, true)] + [Step(id, true)]);
            id in end.callers &&
            (end.callers[id] == NotReady <==>
            s.content.None? || s.content.value.status != Ready || s.metadata.status != Some(Ready) ||
            (decision.Approve? && s.metadata.planMode != Some(true))) &&
            (end.callers[id] == NotReady ==> end == s.(callers := s.callers[id := NotReady]))
  {
    var e1 := [Ask(id, decision)];
    AskAt(s, id, decision);
    RunMore(s, e1, Step(id, true));
    RunMore(s, e1 + [Step(id, true)], Step(id, true));
    RunMore(s, e1 + [Step(id, true)] + [Step(id, true)], Step(id, true));
    hide Run;
  }

  // ---------------------------------------------------------------- what the counters count

  ghost function Deciders(s: State): set<int> {
    set id | id in s.callers && s.callers[id].Decided?
  }

  function ReadyWrites(events: seq<Event>): nat {
    if events == [] then 0 else
    var e := events[|events| - 1];
    ReadyWrites(events[..|events| - 1]) + if e.Write? && e.plan.status == Ready then 1 else 0
  }

  lemma StepMoves(s: State, id: int, ok: bool)
    requires id in s.callers
    ensures var after := StepOf(s, id, s.callers[id], ok);
            id in after.callers && after.callers == s.callers[id := after.callers[id]] &&
            after.publications == s.publications && (s.callers[id].Decided? ==> after == s) &&
            (!s.callers[id].Decided? ==>
              after.decisions == s.decisions + if after.callers[id].Decided? then 1 else 0)
  {
    hide Restated, Reviewable, Merged;
  }

  lemma StepCounts(s: State, id: int, ok: bool)
    requires id in s.callers && s.decisions == |Deciders(s)|
    ensures var after := StepOf(s, id, s.callers[id], ok);
            after.decisions == |Deciders(after)| && after.publications == s.publications
  {
    hide StepOf;
    StepMoves(s, id, ok);
    var after := StepOf(s, id, s.callers[id], ok);
    if s.callers[id].Decided? {
      assert after == s;
    } else if after.callers[id].Decided? {
      assert Deciders(after) == Deciders(s) + {id};
    } else {
      assert Deciders(after) == Deciders(s);
    }
  }

  /** Decisions are the callers that ended with one; publications the ready plan that was there and those written. */
  lemma {:induction false} CountersCount(s: State, events: seq<Event>)
    requires Initial(s)
    ensures Run(s, events).decisions == |Deciders(Run(s, events))|
    ensures Run(s, events).publications ==
            (if s.content.Some? && s.content.value.status == Ready then 1 else 0) + ReadyWrites(events)
  {
    if events == [] {
      assert Deciders(s) == {};
    } else {
      var front, e := events[..|events| - 1], events[|events| - 1];
      CountersCount(s, front);
      var before := Run(s, front);
      hide StepOf, Run;
      if e.Step? && e.id in before.callers {
        StepCounts(before, e.id, e.ok);
      } else {
        assert Deciders(Do(before, e)) == Deciders(before);
      }
    }
  }

  predicate SameContents(a: Plan, b: Plan) {
    a.html == b.html && a.markdown == b.markdown && a.path == b.path
  }

  predicate NothingToLose(plan: Plan) {
    plan.html == None && plan.markdown == None && plan.path == ""
  }

  /**
   * What a failed dispatch leaves, for every failure around it. The decision does not count. The record is ready again
   * exactly when the put that takes the approval back succeeds. Its html, markdown and path are the same exactly when
   * each read that a put restated succeeded, or there was nothing to lose. The plan can be decided again exactly when
   * that put succeeded and the last update of the metadata arrived, or the first one never did.
   */
  lemma FailedDispatchRollsBack(s: State, id: int, approver: string, x: Accesses)
    requires s.lock == None && id !in s.callers && Reviewable(s.content, s.metadata, Approve(approver))
    ensures var end := Run(s, FailedApproval(id, approver, x));
            var plan := s.content.value;
            end.content.Some? && end.lock == None && end.decisions == s.decisions &&
            end.publications == s.publications &&
            (IsReady(end.content) <==> x.reputOk) && (end.content.value.status == Approved <==> !x.reputOk) &&
            (SameContents(end.content.value, plan) <==>
             (x.readOk && (x.reputOk ==> x.rereadOk)) || NothingToLose(plan)) &&
            (Reviewable(end.content, end.metadata, Approve(approver)) <==> x.reputOk && (x.remergeOk || !x.mergeOk))
  {
    FailedApprovalEndsAt(s, id, approver, x);
    hide Run, FailedApproval;
  }

  /** Nobody outside the lock writes the record, and no read whose failure would go unnoticed fails. */
  predicate Undisturbed(s: State, events: seq<Event>) {
    events == [] ||
    (Undisturbed(s, events[..|events| - 1]) &&
     var before, e := Run(s, events[..|events| - 1]), events[|events| - 1];
     var isRead := e.Step? && e.id in before.callers &&
                   (before.callers[e.id].Reading? || before.callers[e.id].Rereading?);
     !e.Write? && (isRead ==> e.ok))
  }

  predicate Carries(phase: Phase, plan: Plan) {
    (phase.Putting? || phase.Reputting? ==> SameContents(phase.plan, plan)) && (phase.Reputting? ==>
      phase.plan.status == Ready)
  }

  predicate KeepsPlan(s: State, plan: Plan) {
    s.content.Some? && SameContents(s.content.value, plan) &&
    forall id | id in s.callers :: Carries(s.callers[id], plan) && (s.callers[id].Remerging? ==> IsReady(s.content))
  }

  lemma RestatedKeepsContents(existing: Plan, decision: Decision)
    ensures SameContents(Restated(Some(existing), StatusOf(decision), ApproverOf(decision)), existing)
    ensures SameContents(Restated(Some(existing), Ready, None), existing)
  {
  }

  lemma MoveKeepsPlan(s: State, id: int, phase: Phase, plan: Plan, metadata: Metadata)
    requires KeepsPlan(s, plan) && Carries(phase, plan) && (phase.Remerging? ==> IsReady(s.content))
    ensures KeepsPlan(Move(s, id, phase), plan) && KeepsPlan(Move(s.(metadata := metadata), id, phase), plan)
  {
    hide SameContents, Carries;
  }

  lemma PutKeepsPlan(s: State, id: int, value: Plan, phase: Phase, plan: Plan)
    requires LockIsHeld(s) && KeepsPlan(s, plan) && id in s.callers && HoldsLock(s.callers[id])
    requires SameContents(value, plan) && Carries(phase, plan) && (phase.Remerging? ==> value.status == Ready)
    ensures KeepsPlan(Move(s.(content := Some(value)), id, phase), plan)
  {
    hide SameContents, Carries;
    forall other | other in s.callers && other != id ensures !s.callers[other].Remerging? {
    }
  }

  lemma PlanIsKept(s: State, id: int, plan: Plan)
    requires KeepsPlan(s, plan) && id in s.callers
    ensures s.content.Some? && SameContents(s.content.value, plan)
    ensures Carries(s.callers[id], plan) && (s.callers[id].Remerging? ==> IsReady(s.content))
  {
  }

  lemma StepKeepsPlan(s: State, id: int, ok: bool, plan: Plan)
    requires LockIsHeld(s) && KeepsPlan(s, plan) && id in s.callers
    requires s.callers[id].Reading? || s.callers[id].Rereading? ==> ok
    ensures KeepsPlan(StepOf(s, id, s.callers[id], ok), plan)
  {
    hide KeepsPlan, Restated, Reviewable, Merged, LockIsHeld, StatusOf, ApproverOf, IsReady;
    var phase := s.callers[id];
    PlanIsKept(s, id, plan);
    match phase
    case Asked(d) => MoveKeepsPlan(s, id, Entered(d), plan, s.metadata);
    case Entered(d) => MoveKeepsPlan(s, id, if ok then Knowing(d, s.metadata) else Failed, plan, s.metadata);
    case Knowing(d, m) =>
      MoveKeepsPlan(s, id, Failed, plan, s.metadata);
      MoveKeepsPlan(s, id, NotReady, plan, s.metadata);
      MoveKeepsPlan(s, id, if d.Approve? then Listing(d) else Reading(d), plan, s.metadata);
    case Listing(d) => MoveKeepsPlan(s, id, if ok then Reading(d) else Failed, plan, s.metadata);
    case Reading(d) =>
      RestatedKeepsContents(s.content.value, d);
      MoveKeepsPlan(s, id, Putting(d, Restated(s.content, StatusOf(d), ApproverOf(d))), plan, s.metadata);
    case Putting(d, value) =>
      PutKeepsPlan(s, id, value, Merging(d), plan);
      MoveKeepsPlan(s, id, Failed, plan, s.metadata);
    case Merging(d) =>
      var merged := Merged(s.metadata, StatusOf(d), Some(d.Reject?));
      MoveKeepsPlan(s, id, Dispatching, plan, merged);
      MoveKeepsPlan(s, id, Decided, plan, merged);
      CountingKeepsPlan(Move(s, id, Decided), plan);
      CountingKeepsPlan(Move(s.(metadata := merged), id, Decided), plan);
    case Dispatching =>
      MoveKeepsPlan(s, id, Decided, plan, s.metadata);
      MoveKeepsPlan(s, id, Rereading, plan, s.metadata);
      CountingKeepsPlan(Move(s, id, Decided), plan);
    case Rereading =>
      RestatedKeepsContents(s.content.value, Reject);
      DecisionStatuses(s.content, Reject);
      MoveKeepsPlan(s, id, Reputting(Restated(s.content, Ready, None)), plan, s.metadata);
    case Reputting(value) =>
      PutKeepsPlan(s, id, value, Remerging, plan);
      MoveKeepsPlan(s, id, Failed, plan, s.metadata);
    case Remerging => MoveKeepsPlan(s, id, RolledBack, plan, Merged(s.metadata, Ready, Some(true)));
    case Decided =>
    case NotReady =>
    case RolledBack =>
    case Failed =>
  }

  lemma CountingKeepsPlan(s: State, plan: Plan)
    requires KeepsPlan(s, plan)
    ensures forall n: nat :: KeepsPlan(s.(decisions := n), plan)
  {
    hide SameContents, Carries;
  }

  /**
   * However approvals, rejections, failed dispatches, rollbacks and cancellations interleave, the plan under review
   * keeps its html, markdown and path; and whoever is about to finish a rollback has left its record ready.
   */
  lemma {:induction false} DecisionsKeepThePlan(s: State, events: seq<Event>)
    requires Initial(s) && s.content.Some? && Undisturbed(s, events)
    ensures KeepsPlan(Run(s, events), s.content.value)
  {
    if events != [] {
      var front, e := events[..|events| - 1], events[|events| - 1];
      DecisionsKeepThePlan(s, front);
      DecisionsNeedPublications(s, front);
      var before := Run(s, front);
      assert LockIsHeld(before);
      hide StepOf, Run;
      if e.Step? && e.id in before.callers {
        hide KeepsPlan;
        StepKeepsPlan(before, e.id, e.ok, s.content.value);
      } else if e.Cancel? && e.id in before.callers {
        MoveKeepsPlan(before, e.id, Failed, s.content.value, before.metadata);
      }
    }
  }

  const PLAN := Plan(Ready, Some("<h1>Plan</h1>"), None, "/workspace/plans/plan.html", None)

  const UNDER_REVIEW := State(Some(PLAN), Metadata(Some(Ready), Some(true)), None, map[], 1, 0)

  /** One failed read while rolling back, and the plan under review is gone. */
  lemma FailedReadLosesThePlan()
    ensures Run(UNDER_REVIEW, FailedApproval(1, "ann", Accesses(true, true, false, true, true))).content ==
            Some(Plan(Ready, None, None, "", None))
  {
    FailedApprovalEndsAt(UNDER_REVIEW, 1, "ann", Accesses(true, true, false, true, true));
  }

  /** The put that takes the approval back fails: the plan stays approved, though nobody was told to implement it. */
  lemma FailedRollbackStaysApproved()
    ensures var end := Run(UNDER_REVIEW, FailedApproval(1, "ann", Accesses(true, true, true, false, true)));
            end.content == Some(PLAN.(status := Approved, approvedBy := Some("ann"))) && end.decisions == 0 &&
            end.metadata == Metadata(Some(Approved), Some(false)) &&
            forall decision :: !Reviewable(end.content, end.metadata, decision)
  {
    FailedApprovalEndsAt(UNDER_REVIEW, 1, "ann", Accesses(true, true, true, false, true));
  }

  /**
   * The last update of the metadata is lost: the record is ready, and neither approving nor rejecting it is possible.
   */
  lemma LostUpdateLeavesUndecidable()
    ensures var end := Run(UNDER_REVIEW, FailedApproval(1, "ann", Accesses(true, true, true, true, false)));
            end.content == Some(PLAN) && end.decisions == 0 &&
            forall decision :: !Reviewable(end.content, end.metadata, decision)
  {
    FailedApprovalEndsAt(UNDER_REVIEW, 1, "ann", Accesses(true, true, true, true, false));
  }
}
