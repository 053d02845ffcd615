/**
 * One login's stored GitHub authorization, its refresh under the login's lock, and the callback that writes it without
 * the lock.
 */
module Profiles {
  import opened Common

  /** Seconds before its expiry from which a token counts as expired. */
  const SKEW := 300

  /**
   * Encrypting the same token twice gives different texts; `plain` is what the text decrypts to, "" when it does not.
   */
  datatype Cipher = Cipher(plain: string, tag: int)

  /** An expiry that is absent or unreadable is `None`. */
  datatype Authorization = Authorization(email: string, access: Cipher, refresh: Option<Cipher>, expiresAt: Option<int>)

  /** A record with the number of writes that came before it. */
  datatype Stored = Stored(record: Authorization, version: nat)

  /** An authorization whose refresh token GitHub no longer knows. */
  const OLD := Stored(Authorization("a@x", Cipher("old", 0), Some(Cipher("dead", 1)), Some(0)), 0)

  /** GitHub's answer to a code exchange or a refresh; the ciphers are those its tokens will be stored under. */
  datatype Reply =
    | Tokens(access: Option<string>, refresh: Option<string>, expiresIn: Option<int>, tag: int)
    | Refused(dead: bool)

  predicate Expired(expiresAt: Option<int>, now: int) {
    expiresAt.Some? && now + SKEW >= expiresAt.value
  }

  function RefreshToken(record: Authorization): Option<string> {
    if record.refresh.None? then None else NonEmpty(record.refresh.value.plain)
  }

  predicate Grants(reply: Reply) {
    reply.Tokens? && reply.access.GetOr("") != ""
  }

  /** The record `upsert_access_token` writes over `existing`. */
  function Upserted(existing: Option<Stored>, email: string, reply: Reply, now: int): Authorization
    requires Grants(reply)
  {
    Authorization(
      if email != "" then email else if existing.Some? then existing.value.record.email else "",
      Cipher(reply.access.value, reply.tag),
      if reply.refresh.GetOr("") != "" then Some(Cipher(reply.refresh.value, reply.tag + 1))
      else if existing.Some? then existing.value.record.refresh else None,
      if reply.expiresIn.Some? && reply.expiresIn.value > 0 then Some(now + reply.expiresIn.value) else None)
  }

  /** Where one caller, or one callback, stands between two accesses to the store. */
  datatype Phase =
    | Starting(force: bool)
    | Waiting(force: bool)
    | Rereading(force: bool)
    | Refreshing(seen: Stored, begun: int)
    | Merging(seen: Stored, begun: int, reply: Reply)
    | Storing(seen: Stored, begun: int, value: Authorization)
    | Checking(seen: Stored)
    | Dropping(seen: Stored)
    | Exchanged(email: string, reply: Reply)
    | Replacing(value: Authorization)
    | Returned(token: Option<string>)
    | Raised

  predicate HoldsLock(phase: Phase) {
    phase.Rereading? || phase.Refreshing? || phase.Merging? || phase.Storing? || phase.Checking? || phase.Dropping?
  }

  predicate HasSeen(phase: Phase) {
    phase.Refreshing? || phase.Merging? || phase.Storing? || phase.Checking? || phase.Dropping?
  }

  /** A successful refresh: the record it began from, when, what it wrote over, and the record it wrote. */
  datatype Refresh = Refresh(seen: Stored, begun: int, over: Option<Stored>, written: Stored)

  /** A dropped authorization: the record whose refresh token was refused, and what was deleted. */
  datatype Drop = Drop(seen: Stored, deleted: Option<Stored>)

  datatype State = State(
    store: Option<Stored>, next: nat, clock: int, lock: Option<int>, callers: map<int, Phase>,
    refreshes: seq<Refresh>, drops: seq<Drop>, written: seq<Stored>)

  /**
   * Time passes; somebody calls; the callback arrives; a caller takes its next step; or a store access of its raises.
   */
  datatype Event =
    | Tick(seconds: nat)
    | Call(id: int, force: bool)
    | Callback(id: int, email: string, reply: Reply)
    | Step(id: int, answer: Reply)
    | Raise(id: int)

  function Put(s: State, value: Authorization): State {
    s.(store := Some(Stored(value, s.next)), next := s.next + 1, written := s.written + [Stored(value, s.next)])
  }

  function Move(s: State, id: int, phase: Phase): State {
    s.(callers := s.callers[id := phase])
  }

  /** The end of the locked region. */
  function Release(s: State, id: int, phase: Phase): State {
    Move(s, id, phase).(lock := None)
  }

  /** What the unlocked first read of `get_valid_access_token` leads to. */
  function FirstRead(store: Option<Stored>, force: bool, clock: int): Phase {
    if store.None? then Returned(None) else
    var record := store.value.record;
    if record.access.plain == "" then Returned(None)
    else if !force && !Expired(record.expiresAt, clock) then Returned(Some(record.access.plain))
    else if RefreshToken(record).None? then Returned(Some(record.access.plain))
    else Waiting(force)
  }

  /** What the read under the lock leads to. */
  function SecondRead(store: Option<Stored>, force: bool, clock: int): Phase {
    if store.None? then Returned(None) else
    var record := store.value.record;
    if record.access.plain == "" then Returned(None)
    else if !force && !Expired(record.expiresAt, clock) then Returned(Some(record.access.plain))
    else if RefreshToken(record).None? then Returned(Some(record.access.plain))
    else Refreshing(store.value, clock)
  }

  /** What GitHub's answer to the refresh leads to. */
  function Answered(seen: Stored, begun: int, answer: Reply): Phase {
    if Grants(answer) then Merging(seen, begun, answer)
    else if answer.Refused? && answer.dead then Checking(seen)
    else Returned(Some(seen.record.access.plain))
  }

  /** What the last read before dropping a dead authorization leads to. */
  function LastCheck(store: Option<Stored>, seen: Stored): Phase {
    if store.Some? && store.value.record.refresh != seen.record.refresh then
        Returned(NonEmpty(store.value.record.access.plain))
    else Dropping(seen)
  }

  function Settle(s: State, id: int, phase: Phase): State {
    if HoldsLock(phase) then Move(s, id, phase) else Release(s, id, phase)
  }

  /** One step of a caller, between two suspensions. */
  function StepOf(s: State, id: int, phase: Phase, answer: Reply): State {
    match phase
    case Starting(force) => Move(s, id, FirstRead(s.store, force, s.clock))
    case Waiting(force) => if s.lock.Some? then s else Move(s, id, Rereading(force)).(lock := Some(id))
    case Rereading(force) => Settle(s, id, SecondRead(s.store, force, s.clock))
    case Refreshing(seen, begun) => Settle(s, id, Answered(seen, begun, answer))
    case Merging(seen, begun, reply) =>
      if Grants(reply) then Move(s, id, Storing(seen, begun, Upserted(s.store, seen.record.email, reply, s.clock)))
      else s
    case Storing(seen, begun, value) =>
      Release(Put(s, value), id, Returned(Some(value.access.plain))).(
        refreshes := s.refreshes + [Refresh(seen, begun, s.store, Stored(value, s.next))])
    case Checking(seen) => Settle(s, id, LastCheck(s.store, seen))
    case Dropping(seen) => Release(s.(store := None), id, Returned(None)).(drops := s.drops + [Drop(seen, s.store)])
    case Exchanged(email, reply) =>
      if Grants(reply) then Move(s, id, Replacing(Upserted(s.store, email, reply, s.clock)))
      else Move(s, id, Returned(None))
    case Replacing(value) => Move(Put(s, value), id, Returned(None))
    case Returned(_) => s
    case Raised => s
  }

  function Do(s: State, e: Event): State {
    match e
    case Tick(seconds) => s.(clock := s.clock + seconds)
    case Call(id, force) => if id in s.callers then s else Move(s, id, Starting(force))
    case Callback(id, email, reply) => if id in s.callers then s else Move(s, id, Exchanged(email, reply))
    case Step(id, answer) => if id in s.callers then StepOf(s, id, s.callers[id], answer) else s
    case Raise(id) =>
      if id !in s.callers then s
      else if HoldsLock(s.callers[id]) then Release(s, id, Raised)
      else Move(s, id, Raised)
  }

  function Run(s: State, events: seq<Event>): State {
    if events == [] then s else Do(Run(s, events[..|events| - 1]), events[|events| - 1])
  }

  /** Nobody has called yet. */
  predicate Initial(s: State) {
    s.callers == map[] && s.lock == None && s.refreshes == [] && s.drops == [] && s.written == [] &&
    (s.store.Some? ==> s.store.value.version < s.next)
  }

  // ---------------------------------------------------------------- one refresh per record

  /** The version the latest refresh wrote. */
  function LatestWritten(s: State): int {
    if s.refreshes == [] then -1 else s.refreshes[|s.refreshes| - 1].written.version
  }

  ghost predicate LockIsHeld(s: State) {
    (forall id | id in s.callers :: HoldsLock(s.callers[id]) <==> s.lock == Some(id)) &&
    (s.lock.Some? ==> s.lock.value in s.callers)
  }

  ghost predicate VersionsGrow(s: State) {
    LatestWritten(s) < s.next && (s.store.Some? ==> LatestWritten(s) <= s.store.value.version < s.next) &&
    forall id | id in s.callers && HasSeen(s.callers[id]) :: LatestWritten(s) <= s.callers[id].seen.version < s.next
  }

  /** Each refresh began from a record written no earlier than what the refresh before it wrote. */
  ghost predicate Chained(refreshes: seq<Refresh>) {
    (forall i | 0 <= i < |refreshes| :: refreshes[i].seen.version < refreshes[i].written.version) &&
    forall i, j | 0 <= i < j < |refreshes| :: refreshes[i].written.version <= refreshes[j].seen.version
  }

  ghost predicate Sound(s: State) {
    LockIsHeld(s) && VersionsGrow(s) && Chained(s.refreshes)
  }

  lemma ChainGrows(refreshes: seq<Refresh>, r: Refresh)
    requires Chained(refreshes) && r.seen.version < r.written.version
    requires refreshes == [] || refreshes[|refreshes| - 1].written.version <= r.seen.version
    ensures Chained(refreshes + [r])
  {
    var more := refreshes + [r];
    forall i, j | 0 <= i < j < |more| ensures more[i].written.version <= more[j].seen.version {
      if j == |refreshes| && i < |refreshes| - 1 {
        assert refreshes[i].written.version <= refreshes[|refreshes| - 1].seen.version;
      }
    }
  }

  /** A read or an answer keeps the record the caller works on, and leaves the locked region only by returning. */
  lemma ReadsKeepWhatWasSeen(store: Option<Stored>, force: bool, clock: int, seen: Stored, begun: int, answer: Reply)
    ensures !HoldsLock(FirstRead(store, force, clock)) && !HasSeen(FirstRead(store, force, clock))
    ensures var phase := SecondRead(store, force, clock);
            (HoldsLock(phase) <==> HasSeen(phase)) && (HasSeen(phase) ==> store == Some(phase.seen))
    ensures var phase := Answered(seen, begun, answer);
            (HoldsLock(phase) <==> HasSeen(phase)) && (HasSeen(phase) ==> phase.seen == seen)
    ensures var phase := LastCheck(store, seen);
            (HoldsLock(phase) <==> HasSeen(phase)) && (HasSeen(phase) ==> phase.seen == seen)
  {
    hide Expired, RefreshToken;
  }

  lemma StepKeepsLock(s: State, id: int, answer: Reply)
    requires LockIsHeld(s) && id in s.callers
    ensures LockIsHeld(StepOf(s, id, s.callers[id], answer))
  {
    var phase := s.callers[id];
    if HasSeen(phase) {
      ReadsKeepWhatWasSeen(s.store, false, s.clock, phase.seen, 0, answer);
    } else if phase.Starting? || phase.Rereading? {
      ReadsKeepWhatWasSeen(s.store, phase.force, s.clock, OLD, 0, answer);
    }
    if phase.Refreshing? {
      ReadsKeepWhatWasSeen(s.store, false, s.clock, phase.seen, phase.begun, answer);
    }
    hide FirstRead, SecondRead, Answered, LastCheck, Upserted;
  }

  /** What one step of a caller changes. */
  lemma StepSays(s: State, id: int, answer: Reply)
    requires id in s.callers
    ensures var phase, after := s.callers[id], StepOf(s, id, s.callers[id], answer);
            && id in after.callers && after.callers == s.callers[id := after.callers[id]] && after.clock == s.clock
            && after.refreshes ==
               (if phase.Storing?
                then s.refreshes + [Refresh(phase.seen, phase.begun, s.store, Stored(phase.value, s.next))]
                else s.refreshes)
            && after.drops == (if phase.Dropping? then s.drops + [Drop(phase.seen, s.store)] else s.drops)
            && after.store ==
               (if phase.Storing? || phase.Replacing? then Some(Stored(phase.value, s.next))
                else if phase.Dropping? then None
                else s.store)
            && if phase.Storing? || phase.Replacing?
               then after.written == s.written + [Stored(phase.value, s.next)] && after.next == s.next + 1
               else after.written == s.written && after.next == s.next
  {
    hide FirstRead, SecondRead, Answered, LastCheck, Upserted, HoldsLock, Grants;
  }

  /** A caller works on the record it read under the lock, until it has stored another. */
  lemma StepKeepsSeen(s: State, id: int, answer: Reply)
    requires id in s.callers
    ensures var phase, after := s.callers[id], StepOf(s, id, s.callers[id], answer);
            id in after.callers &&
            (HasSeen(after.callers[id]) ==>
               if HasSeen(phase) then !phase.Storing? && !phase.Dropping? && after.callers[id].seen == phase.seen
               else phase.Rereading? && s.store == Some(after.callers[id].seen))
  {
    var phase := s.callers[id];
    var force := (phase.Starting? || phase.Rereading?) && phase.force;
    var begun := if phase.Refreshing? then phase.begun else 0;
    ReadsKeepWhatWasSeen(s.store, force, s.clock, if HasSeen(phase) then phase.seen else OLD, begun, answer);
    hide FirstRead, SecondRead, Answered, LastCheck, Upserted;
  }

  lemma StepKeepsVersions(s: State, id: int, answer: Reply)
    requires LockIsHeld(s) && VersionsGrow(s) && id in s.callers
    ensures VersionsGrow(StepOf(s, id, s.callers[id], answer))
  {
    hide StepOf;
    StepSays(s, id, answer);
    StepKeepsSeen(s, id, answer);
    var phase, after := s.callers[id], StepOf(s, id, s.callers[id], answer);
    if phase.Storing? {
      assert LatestWritten(after) == s.next;
      assert HoldsLock(phase) && forall other | other in s.callers && other != id :: !HoldsLock(s.callers[other]);
    } else {
      assert LatestWritten(after) == LatestWritten(s);
    }
  }

  lemma StepKeepsChain(s: State, id: int, answer: Reply)
    requires Sound(s) && id in s.callers
    ensures Chained(StepOf(s, id, s.callers[id], answer).refreshes)
  {
    hide Chained, FirstRead, SecondRead, Answered, LastCheck, Upserted;
    var phase := s.callers[id];
    if phase.Storing? {
      ChainGrows(s.refreshes, Refresh(phase.seen, phase.begun, s.store, Stored(phase.value, s.next)));
    }
  }

  lemma StepKeepsSound(s: State, e: Event)
    requires Sound(s)
    ensures Sound(Do(s, e))
  {
    hide StepOf, Chained;
    if e.Step? && e.id in s.callers {
      StepKeepsLock(s, e.id, e.answer);
      StepKeepsVersions(s, e.id, e.answer);
      StepKeepsChain(s, e.id, e.answer);
    }
  }

  lemma {:induction false} RunKeepsSound(s: State, events: seq<Event>)
    requires Initial(s)
    ensures Sound(Run(s, events))
  {
    hide Do, Sound;
    if events == [] {
      InitialIsSound(s);
    } else {
      RunKeepsSound(s, events[..|events| - 1]);
      StepKeepsSound(Run(s, events[..|events| - 1]), events[|events| - 1]);
    }
  }

  lemma InitialIsSound(s: State)
    requires Initial(s)
    ensures Sound(s)
  {
  }

  /**
   * However callers, forced or not, callbacks and failures interleave, no stored record is successfully refreshed
   * twice: each refresh began from a record at least as new as the one the previous refresh wrote.
   */
  lemma EachRecordIsRefreshedOnce(s: State, events: seq<Event>, i: nat, j: nat)
    requires Initial(s) && i < j < |Run(s, events).refreshes|
    ensures var refreshes := Run(s, events).refreshes;
            refreshes[i].seen.version < refreshes[i].written.version <= refreshes[j].seen.version
  {
    hide Run;
    RunKeepsSound(s, events);
  }

  // ---------------------------------------------------------------- what is stored and what is returned

  /**
   * What a granted answer leaves on record: its token, which counts as valid until five minutes before it expires and
   * always if it does not; a new refresh token, or the one there was; and the email, or the one there was.
   */
  lemma GrantIsStored(existing: Option<Stored>, email: string, reply: Reply, now: int, later: int)
    requires Grants(reply)
    ensures var r := Upserted(existing, email, reply, now);
            && r.access.plain == reply.access.value && r.access.plain != ""
            && (Expired(r.expiresAt, later) <==>
                reply.expiresIn.Some? && reply.expiresIn.value > 0 && later >= now + reply.expiresIn.value - 300)
            && (RefreshToken(r) ==
                if reply.refresh.Some? && reply.refresh.value != "" then reply.refresh
                else if existing.Some? then RefreshToken(existing.value.record) else None)
            && r.email == if email == "" && existing.Some? then existing.value.record.email else email
  {
  }

  /**
   * A token is due for a refresh: within five minutes of its expiry or later, or on demand, with a refresh token there.
   */
  predicate IsDue(record: Authorization, force: bool, clock: int) {
    (force || (record.expiresAt.Some? && clock >= record.expiresAt.value - 300)) &&
    record.refresh.Some? && record.refresh.value.plain != ""
  }

  /** Both reads: without a token there is none to return, one that is not due is returned, and one that is goes on. */
  lemma ReadsMean(store: Option<Stored>, force: bool, clock: int)
    ensures var none := store.None? || |store.value.record.access.plain| == 0;
            FirstRead(store, force, clock) ==
            (if none then Returned(None)
             else if IsDue(store.value.record, force, clock) then Waiting(force)
             else Returned(Some(store.value.record.access.plain))) &&
            SecondRead(store, force, clock) ==
            (if none then Returned(None)
             else if IsDue(store.value.record, force, clock) then Refreshing(store.value, clock)
             else Returned(Some(store.value.record.access.plain)))
  {
  }

  predicate IsUsable(phase: Phase) {
    (HasSeen(phase) ==> phase.seen.record.access.plain != "") &&
    (phase.Storing? || phase.Replacing? ==> phase.value.access.plain != "") &&
    (phase.Merging? ==> Grants(phase.reply)) &&
    (phase.Returned? ==> phase.token != Some(""))
  }

  lemma NextIsUsable(s: State, id: int, answer: Reply)
    requires id in s.callers && IsUsable(s.callers[id])
    ensures var after := StepOf(s, id, s.callers[id], answer); id in after.callers && IsUsable(after.callers[id])
  {
    hide FirstRead, SecondRead, Answered, LastCheck, Upserted, HoldsLock, Grants;
    var phase := s.callers[id];
    var force := (phase.Starting? || phase.Rereading?) && phase.force;
    var begun := if phase.Refreshing? then phase.begun else 0;
    UsableAnswers(s.store, force, s.clock, if HasSeen(phase) then phase.seen else OLD, begun, answer);
    if phase.Merging? {
      GrantIsStored(s.store, phase.seen.record.email, phase.reply, s.clock, 0);
    } else if phase.Exchanged? && Grants(phase.reply) {
      GrantIsStored(s.store, phase.email, phase.reply, s.clock, 0);
    }
  }

  lemma UsableAnswers(store: Option<Stored>, force: bool, clock: int, seen: Stored, begun: int, answer: Reply)
    ensures IsUsable(FirstRead(store, force, clock)) && IsUsable(SecondRead(store, force, clock))
    ensures seen.record.access.plain != "" ==>
              IsUsable(Answered(seen, begun, answer)) && IsUsable(LastCheck(store, seen))
  {
    ReadsMean(store, force, clock);
    hide FirstRead, SecondRead, Expired, IsDue;
  }

  /** No caller is ever handed the empty token, whatever is stored, answered or written meanwhile. */
  lemma {:induction false} TokensAreUsable(s: State, events: seq<Event>)
    requires Initial(s)
    ensures forall id | id in Run(s, events).callers :: IsUsable(Run(s, events).callers[id])
  {
    hide IsUsable, Run, StepOf;
    if events == [] {
      NobodyYet(s);
    } else {
      var front, e := events[..|events| - 1], events[|events| - 1];
      TokensAreUsable(s, front);
      RunMore(s, front, e);
      assert front + [e] == events;
      var before := Run(s, front);
      if e.Step? && e.id in before.callers {
        StepSays(before, e.id, e.answer);
        NextIsUsable(before, e.id, e.answer);
      } else {
        NewcomersAreUsable(before, e);
      }
    }
  }

  lemma NobodyYet(s: State)
    requires Initial(s)
    ensures Run(s, []).callers == map[]
  {
  }

  lemma RunMore(s: State, events: seq<Event>, e: Event)
    ensures Run(s, events + [e]) == Do(Run(s, events), e)
  {
    assert (events + [e])[..|events|] == events;
  }

  lemma NewcomersAreUsable(s: State, e: Event)
    requires !(e.Step? && e.id in s.callers)
    ensures forall id | id in Do(s, e).callers ::
              (id in s.callers && Do(s, e).callers[id] == s.callers[id]) || IsUsable(Do(s, e).callers[id])
  {
    hide StepOf;
  }

  // ---------------------------------------------------------------- only expired tokens are refreshed

  predicate Unforced(events: seq<Event>) {
    forall e | e in events :: e.Call? ==> !e.force
  }

  predicate HasBegun(phase: Phase) {
    phase.Refreshing? || phase.Merging? || phase.Storing?
  }

  predicate Patient(phase: Phase, clock: int) {
    (phase.Starting? || phase.Waiting? || phase.Rereading? ==> !phase.force) &&
    (HasBegun(phase) ==> Expired(phase.seen.record.expiresAt, phase.begun) && phase.begun <= clock)
  }

  predicate Needed(r: Refresh, clock: int) {
    Expired(r.seen.record.expiresAt, r.begun) && r.begun <= clock
  }

  ghost predicate Unhurried(s: State) {
    (forall id | id in s.callers :: Patient(s.callers[id], s.clock)) &&
    forall r | r in s.refreshes :: Needed(r, s.clock)
  }

  lemma PatientPhases(store: Option<Stored>, clock: int, seen: Stored, begun: int, answer: Reply)
    ensures Patient(FirstRead(store, false, clock), clock) && Patient(SecondRead(store, false, clock), clock)
    ensures Patient(LastCheck(store, seen), clock)
    ensures Expired(seen.record.expiresAt, begun) && begun <= clock ==> Patient(Answered(seen, begun, answer), clock)
  {
    hide Expired, RefreshToken;
  }

  lemma NextIsPatient(s: State, id: int, answer: Reply)
    requires id in s.callers && Patient(s.callers[id], s.clock)
    ensures var after := StepOf(s, id, s.callers[id], answer);
            id in after.callers && Patient(after.callers[id], s.clock)
  {
    var phase := s.callers[id];
    PatientPhases(s.store, s.clock, if HasSeen(phase) then phase.seen else OLD,
                  if HasBegun(phase) then phase.begun else 0, answer);
    hide FirstRead, SecondRead, Answered, LastCheck, Upserted, Expired;
  }

  lemma StepIsPatient(s: State, id: int, answer: Reply)
    requires Unhurried(s) && id in s.callers
    ensures Unhurried(StepOf(s, id, s.callers[id], answer))
  {
    assert Patient(s.callers[id], s.clock);
    hide StepOf, Expired;
    StepSays(s, id, answer);
    NextIsPatient(s, id, answer);
  }

  lemma {:induction false} RunIsPatient(s: State, events: seq<Event>)
    requires Initial(s) && Unforced(events)
    ensures Unhurried(Run(s, events))
  {
    if events != [] {
      var front, e := events[..|events| - 1], events[|events| - 1];
      assert e in events && forall x | x in front :: x in events;
      RunIsPatient(s, front);
      var before := Run(s, front);
      hide StepOf, Run, Expired, HasBegun;
      if e.Step? && e.id in before.callers {
        StepIsPatient(before, e.id, e.answer);
      }
    }
  }

  /** When nobody forces a refresh, only records that had expired, or were about to, are ever refreshed. */
  lemma OnlyExpiredAreRefreshed(s: State, events: seq<Event>)
    requires Initial(s) && Unforced(events)
    ensures forall r | r in Run(s, events).refreshes :: Expired(r.seen.record.expiresAt, r.begun)
  {
    hide Run;
    RunIsPatient(s, events);
  }

  /** The record was there from the start, or was written during the run. */
  predicate IsSource(start: Option<Stored>, written: seq<Stored>, stored: Stored) {
    start == Some(stored) || stored in written
  }

  ghost predicate SourcesAreKnown(start: Option<Stored>, s: State) {
    (s.store.Some? ==> IsSource(start, s.written, s.store.value)) &&
    (forall id | id in s.callers && HasSeen(s.callers[id]) :: IsSource(start, s.written, s.callers[id].seen)) &&
    forall r | r in s.refreshes :: IsSource(start, s.written, r.seen)
  }

  lemma StepKeepsSources(start: Option<Stored>, s: State, id: int, answer: Reply)
    requires SourcesAreKnown(start, s) && id in s.callers
    ensures SourcesAreKnown(start, StepOf(s, id, s.callers[id], answer))
  {
    hide StepOf;
    StepSays(s, id, answer);
    StepKeepsSeen(s, id, answer);
    var written := StepOf(s, id, s.callers[id], answer).written;
    assert forall w | w in s.written :: w in written;
    assert written != s.written ==> written[|s.written|] in written;
  }

  lemma {:induction false} RunKeepsSources(s: State, events: seq<Event>)
    requires Initial(s)
    ensures SourcesAreKnown(s.store, Run(s, events))
  {
    if events != [] {
      var before, e := Run(s, events[..|events| - 1]), events[|events| - 1];
      RunKeepsSources(s, events[..|events| - 1]);
      hide StepOf, Run, IsSource;
      if e.Step? && e.id in before.callers {
        StepKeepsSources(s.store, before, e.id, e.answer);
      }
    }
  }

  lemma SecondNeedsAnother(start: Option<Stored>, s: State)
    requires Unhurried(s) && SourcesAreKnown(start, s) && Chained(s.refreshes) && |s.refreshes| > 1
    ensures exists w | w in s.written :: Expired(w.record.expiresAt, s.clock)
  {
    var first, second := s.refreshes[0], s.refreshes[1];
    assert Needed(first, s.clock) && Needed(second, s.clock);
    assert IsSource(start, s.written, first.seen) && IsSource(start, s.written, second.seen);
    assert first.seen.version < first.written.version <= second.seen.version;
  }

  /**
   * Any number of unforced callers share one refresh, whatever the callback writes meanwhile: as long as nothing
   * written during the run has expired, or is about to, at most one refresh has succeeded.
   */
  lemma ConcurrentCallersRefreshOnce(s: State, events: seq<Event>)
    requires Initial(s) && Unforced(events)
    requires var end := Run(s, events); forall w | w in end.written :: !Expired(w.record.expiresAt, end.clock)
    ensures |Run(s, events).refreshes| <= 1
  {
    hide Run, Expired;
    RunIsPatient(s, events);
    RunKeepsSources(s, events);
    RunKeepsSound(s, events);
    if |Run(s, events).refreshes| > 1 {
      SecondNeedsAnother(s.store, Run(s, events));
    }
  }

  // ---------------------------------------------------------------- logins that arrive during a refresh

  /** A point in a caller's work: its read under the lock, or its last check. */
  datatype Mark = SinceRead | SinceCheck

  predicate Passes(phase: Phase, mark: Mark) {
    if mark.SinceRead? then phase.Rereading? else phase.Checking?
  }

  function NextLogin(before: State, e: Event, id: int, mark: Mark, was: Option<Authorization>): Option<Authorization> {
    if !e.Step? || e.id !in before.callers then was
    else if e.id == id && Passes(before.callers[id], mark) then None
    else if before.callers[e.id].Replacing? then Some(before.callers[e.id].value)
    else was
  }

  /** What a callback last wrote since the caller passed the mark, if one wrote. */
  function LoginSince(s: State, events: seq<Event>, id: int, mark: Mark): Option<Authorization> {
    if events == [] then None else
    var front := events[..|events| - 1];
    NextLogin(Run(s, front), events[|events| - 1], id, mark, LoginSince(s, front, id, mark))
  }

  predicate SameToken(stored: Option<Stored>, seen: Stored) {
    stored.None? || stored.value.record.refresh == seen.record.refresh
  }

  /** What the store holds while the caller has the lock: what it read, or what a callback has written since. */
  predicate Tracks(s: State, id: int, sinceRead: Option<Authorization>, sinceCheck: Option<Authorization>) {
    id in s.callers && HasSeen(s.callers[id]) ==>
      var seen := s.callers[id].seen;
      (match sinceRead
       case None => s.store == Some(seen)
       case Some(login) => s.store.Some? && s.store.value.record == login && s.store.value.version > seen.version) &&
      (s.callers[id].Dropping? ==> (SameToken(s.store, seen) <==>
        sinceCheck.None? || sinceCheck.value.refresh == seen.record.refresh))
  }

  lemma OwnStepTracks(s: State, id: int, answer: Reply, sinceRead: Option<Authorization>,
                      sinceCheck: Option<Authorization>)
    requires LockIsHeld(s) && Tracks(s, id, sinceRead, sinceCheck) && id in s.callers
    ensures var e := Step(id, answer);
            Tracks(StepOf(s, id, s.callers[id], answer), id,
                   NextLogin(s, e, id, SinceRead, sinceRead), NextLogin(s, e, id, SinceCheck, sinceCheck))
  {
    hide StepOf, SameToken;
    StepSays(s, id, answer);
    StepKeepsSeen(s, id, answer);
    DropsAfterItsCheck(s, id, answer);
  }

  lemma OtherStepTracks(s: State, id: int, e: Event, sinceRead: Option<Authorization>,
                        sinceCheck: Option<Authorization>)
    requires LockIsHeld(s) && VersionsGrow(s) && Tracks(s, id, sinceRead, sinceCheck)
    requires e.Step? && e.id in s.callers && e.id != id
    ensures Tracks(StepOf(s, e.id, s.callers[e.id], e.answer), id,
                   NextLogin(s, e, id, SinceRead, sinceRead), NextLogin(s, e, id, SinceCheck, sinceCheck))
  {
    hide StepOf, LatestWritten;
    StepSays(s, e.id, e.answer);
  }

  /** A caller gets to its deletion only from its last check, with the token it was refused still stored. */
  lemma DropsAfterItsCheck(s: State, id: int, answer: Reply)
    requires id in s.callers
    ensures var phase, after := s.callers[id], StepOf(s, id, s.callers[id], answer);
            id in after.callers && (after.callers[id].Dropping? ==> phase.Checking? && SameToken(s.store, phase.seen))
  {
    var phase := s.callers[id];
    var force := (phase.Starting? || phase.Rereading?) && phase.force;
    var begun := if phase.Refreshing? then phase.begun else 0;
    NotDroppingYet(s.store, force, s.clock, if HasSeen(phase) then phase.seen else OLD, begun, answer);
    hide FirstRead, SecondRead, Answered, LastCheck, Upserted, SameToken, HoldsLock;
  }

  lemma EventTracks(s: State, id: int, e: Event, sinceRead: Option<Authorization>, sinceCheck: Option<Authorization>)
    requires LockIsHeld(s) && VersionsGrow(s) && Tracks(s, id, sinceRead, sinceCheck)
    ensures Tracks(Do(s, e), id, NextLogin(s, e, id, SinceRead, sinceRead), NextLogin(s, e, id, SinceCheck, sinceCheck))
  {
    hide StepOf, SameToken, LatestWritten;
    if e.Step? && e.id in s.callers {
      if e.id == id {
        OwnStepTracks(s, id, e.answer, sinceRead, sinceCheck);
      } else {
        OtherStepTracks(s, id, e, sinceRead, sinceCheck);
      }
    }
  }

  lemma NotDroppingYet(store: Option<Stored>, force: bool, clock: int, seen: Stored, begun: int, answer: Reply)
    ensures !FirstRead(store, force, clock).Dropping? && !SecondRead(store, force, clock).Dropping?
    ensures !Answered(seen, begun, answer).Dropping?
    ensures LastCheck(store, seen).Dropping? <==> SameToken(store, seen)
  {
    hide Expired, RefreshToken;
  }

  lemma {:induction false} RunTracks(s: State, events: seq<Event>, id: int)
    requires Initial(s)
    ensures Tracks(Run(s, events), id, LoginSince(s, events, id, SinceRead), LoginSince(s, events, id, SinceCheck))
  {
    hide Do, Tracks, NextLogin;
    if events == [] {
      NobodyTracks(s, id);
    } else {
      var front, e := events[..|events| - 1], events[|events| - 1];
      RunTracks(s, front, id);
      RunKeepsSound(s, front);
      EventTracks(Run(s, front), id, e, LoginSince(s, front, id, SinceRead), LoginSince(s, front, id, SinceCheck));
    }
  }

  lemma NobodyTracks(s: State, id: int)
    requires Initial(s)
    ensures Tracks(s, id, None, None)
  {
  }

  lemma CheckReturns(s: State, id: int, answer: Reply, sinceRead: Option<Authorization>,
                     sinceCheck: Option<Authorization>)
    requires Tracks(s, id, sinceRead, sinceCheck) && id in s.callers && s.callers[id].Checking?
    ensures var after, seen := Do(s, Step(id, answer)), s.callers[id].seen;
            after.store == s.store && after.drops == s.drops &&
            after.callers[id] ==
            if sinceRead.Some? && sinceRead.value.refresh != seen.record.refresh then
                Returned(NonEmpty(sinceRead.value.access.plain))
            else Dropping(seen)
  {
  }

  /**
   * A caller whose refresh token was refused finds out exactly when it should: if a callback has written since the
   * caller read, and its login has another refresh token, the caller returns that login's access token and the store
   * keeps it; otherwise it goes on to delete.
   */
  lemma NewerAuthorizationIsReturned(s: State, events: seq<Event>, id: int, answer: Reply)
    requires Initial(s) && id in Run(s, events).callers && Run(s, events).callers[id].Checking?
    ensures var before, after := Run(s, events), Run(s, events + [Step(id, answer)]);
            var login := LoginSince(s, events, id, SinceRead);
            after.store == before.store && after.drops == before.drops &&
            after.callers[id] ==
            if login.Some? && login.value.refresh != before.callers[id].seen.record.refresh then
                Returned(NonEmpty(login.value.access.plain))
            else Dropping(before.callers[id].seen)
  {
    hide Run, LoginSince, Tracks, Do;
    RunTracks(s, events, id);
    RunMore(s, events, Step(id, answer));
    CheckReturns(Run(s, events), id, answer, LoginSince(s, events, id, SinceRead),
      LoginSince(s, events, id, SinceCheck));
  }

  /**
   * Before each deletion, no callback wrote since the caller's last check, or the last one that did kept the refused
   * token.
   */
  predicate HarmlessDrops(s: State, events: seq<Event>) {
    events == [] ||
    (HarmlessDrops(s, events[..|events| - 1]) &&
     var front, e := events[..|events| - 1], events[|events| - 1];
     var before := Run(s, front);
     e.Step? && e.id in before.callers && before.callers[e.id].Dropping? ==>
       var login := LoginSince(s, front, e.id, SinceCheck);
       login.None? || login.value.refresh == before.callers[e.id].seen.record.refresh)
  }

  /**
   * Over every run: only the authorization whose token was refused is ever deleted, exactly if no callback wrote one
   * with another token between a caller's last check and its deletion, or the last one that did kept the token.
   */
  lemma {:induction false} OnlyTheRefusedIsDropped(s: State, events: seq<Event>)
    requires Initial(s)
    ensures (forall drop | drop in Run(s, events).drops :: SameToken(drop.deleted, drop.seen)) <==>
            HarmlessDrops(s, events)
  {
    if events != [] {
      var front, e := events[..|events| - 1], events[|events| - 1];
      OnlyTheRefusedIsDropped(s, front);
      var before := Run(s, front);
      hide StepOf, SameToken;
      if e.Step? && e.id in before.callers {
        StepSays(before, e.id, e.answer);
      }
      hide Do;
      if e.Step? && e.id in before.callers && before.callers[e.id].Dropping? {
        RunTracks(s, front, e.id);
        assert Run(s, events).drops[|before.drops|] == Drop(before.callers[e.id].seen, before.store);
      }
    }
  }

  /** No callback writes between a caller's read and the put of the refresh it began. */
  predicate QuietRefreshes(s: State, events: seq<Event>) {
    events == [] ||
    (QuietRefreshes(s, events[..|events| - 1]) &&
     var front, e := events[..|events| - 1], events[|events| - 1];
     var before := Run(s, front);
     e.Step? && e.id in before.callers && before.callers[e.id].Storing? ==> LoginSince(s, front, e.id, SinceRead).None?)
  }

  /**
   * A successful refresh makes no such check: over every run, each refresh replaces the very record it began from
   * exactly if no callback wrote since the read; otherwise it overwrites that login with tokens of the older grant.
   */
  lemma {:induction false} RefreshesReplaceWhatTheyRead(s: State, events: seq<Event>)
    requires Initial(s)
    ensures (forall r | r in Run(s, events).refreshes :: r.over == Some(r.seen)) <==> QuietRefreshes(s, events)
  {
    if events != [] {
      var front, e := events[..|events| - 1], events[|events| - 1];
      RefreshesReplaceWhatTheyRead(s, front);
      var before := Run(s, front);
      hide StepOf, SameToken;
      if e.Step? && e.id in before.callers {
        StepSays(before, e.id, e.answer);
      }
      hide Do;
      if e.Step? && e.id in before.callers && before.callers[e.id].Storing? {
        RunTracks(s, front, e.id);
        var after := Run(s, events).refreshes;
        assert after == before.refreshes + [after[|before.refreshes|]];
        assert after[|before.refreshes|] in after;
      }
    }
  }

  const START := State(Some(OLD), 1, 0, None, map[], [], [], [])

  const LATE_LOGIN := Tokens(Some("new"), Some("fresh"), None, 2)

  const NEW_LOGIN := Authorization("a@x", Cipher("new", 2), Some(Cipher("fresh", 3)), None)

  /** One caller, up to the refresh request it sends. */
  function UpToTheRequest(): seq<Event> {
    var step := Step(1, Refused(true));
    [Call(1, false)] + [step] + [step] + [step]
  }

  /** The callback, up to its put. */
  function TheLogin(): seq<Event> {
    [Callback(2, "a@x", LATE_LOGIN)] + [Step(2, Refused(false))] + [Step(2, Refused(false))]
  }

  lemma NothingRun(s: State)
    ensures Run(s, []) == s
  {
  }

  /** The start with one caller in a phase. */
  function Alone(phase: Phase): State {
    START.(lock := if HoldsLock(phase) then Some(1) else None, callers := map[1 := phase])
  }

  lemma StepAlone(events: seq<Event>, before: Phase, after: Phase)
    requires Run(START, events) == Alone(before) && StepOf(Alone(before), 1, before, Refused(true)) == Alone(after)
    ensures Run(START, events + [Step(1, Refused(true))]) == Alone(after)
  {
    hide Run, StepOf, HoldsLock;
    RunMore(START, events, Step(1, Refused(true)));
  }

  lemma StepsAlone()
    ensures StepOf(Alone(Starting(false)), 1, Starting(false), Refused(true)) == Alone(Waiting(false))
    ensures StepOf(Alone(Waiting(false)), 1, Waiting(false), Refused(true)) == Alone(Rereading(false))
    ensures StepOf(Alone(Rereading(false)), 1, Rereading(false), Refused(true)) == Alone(Refreshing(OLD, 0))
  {
  }

  lemma StepsAfterRefusal()
    ensures StepOf(Alone(Refreshing(OLD, 0)), 1, Refreshing(OLD, 0), Refused(true)) == Alone(Checking(OLD))
    ensures StepOf(Alone(Checking(OLD)), 1, Checking(OLD), Refused(true)) == Alone(Dropping(OLD))
  {
  }

  lemma CallerReachesItsRequest()
    ensures Run(START, UpToTheRequest()) == Alone(Refreshing(OLD, 0))
  {
    var call, step := Call(1, false), Step(1, Refused(true));
    NothingRun(START);
    RunMore(START, [], call);
    assert Do(START, call) == Alone(Starting(false));
    StepsAlone();
    assert [call] + [step] + [step] + [step] == UpToTheRequest();
    assert [] + [call] == [call];
    hide *;
    StepAlone([call], Starting(false), Waiting(false));
    StepAlone([call] + [step], Waiting(false), Rereading(false));
    StepAlone([call] + [step] + [step], Rereading(false), Refreshing(OLD, 0));
  }

  lemma CallerReachesItsDeletion()
    ensures Run(START, UpToTheRequest() + [Step(1, Refused(true))] + [Step(1, Refused(true))]) == Alone(Dropping(OLD))
  {
    CallerReachesItsRequest();
    StepsAfterRefusal();
    hide *;
    StepAlone(UpToTheRequest(), Refreshing(OLD, 0), Checking(OLD));
    StepAlone(UpToTheRequest() + [Step(1, Refused(true))], Checking(OLD), Dropping(OLD));
  }

  /** The callback arrives while the caller holds the lock. */
  lemma LoginArrives(events: seq<Event>, phase: Phase)
    requires Run(START, events) == Alone(phase) && HoldsLock(phase)
    ensures var end := Run(START, events + TheLogin());
            end == Alone(phase).(store := Some(Stored(NEW_LOGIN, 1)), next := 2, written := [Stored(NEW_LOGIN, 1)],
                                 callers := map[1 := phase, 2 := Returned(None)])
  {
    var step := Step(2, Refused(false));
    var login := Callback(2, "a@x", LATE_LOGIN);
    var s0 := Alone(phase);
    var s1 := s0.(callers := map[1 := phase, 2 := Exchanged("a@x", LATE_LOGIN)]);
    var s2 := s0.(callers := map[1 := phase, 2 := Replacing(NEW_LOGIN)]);
    assert Do(s0, login) == s1;
    assert Do(s1, step) == s2 by {
      assert Grants(LATE_LOGIN) && Upserted(Some(OLD), "a@x", LATE_LOGIN, 0) == NEW_LOGIN;
    }
    assert Do(s2, step).callers == map[1 := phase, 2 := Returned(None)];
    hide Run, Do, HoldsLock;
    RunMore(START, events, login);
    RunMore(START, events + [login], step);
    RunMore(START, events + [login] + [step], step);
    assert events + TheLogin() == events + [login] + [step] + [step];
  }

  /** A callback that writes between the last check and the deletion loses its new authorization. */
  lemma LateCallbackIsLost()
    ensures var refused := [Step(1, Refused(true))];
            var end := Run(START, UpToTheRequest() + refused + refused + TheLogin() + refused);
            end.store == None && end.drops == [Drop(OLD, Some(Stored(NEW_LOGIN, 1)))] &&
            !SameToken(end.drops[0].deleted, OLD)
  {
    var events := UpToTheRequest() + [Step(1, Refused(true))] + [Step(1, Refused(true))];
    CallerReachesItsDeletion();
    LoginArrives(events, Dropping(OLD));
    RunMore(START, events + TheLogin(), Step(1, Refused(true)));
    hide Run, UpToTheRequest, TheLogin;
  }

  /** A callback that writes while the refresh is in flight loses its new authorization to a refresh that succeeds. */
  lemma SuccessfulRefreshOverwritesALogin()
    ensures var renewed := [Step(1, Tokens(Some("renewed"), Some("rotated"), None, 4))];
            var end := Run(START, UpToTheRequest() + TheLogin() + renewed + renewed + renewed);
            end.store.Some? && end.store.value.record.access.plain == "renewed" &&
            end.store.value.record.refresh == Some(Cipher("rotated", 5)) &&
            |end.refreshes| == 1 && end.refreshes[0].over == Some(Stored(NEW_LOGIN, 1)) && end.refreshes[0].seen == OLD
  {
    var events := UpToTheRequest() + TheLogin();
    var reply := Tokens(Some("renewed"), Some("rotated"), None, 4);
    var step := Step(1, reply);
    CallerReachesItsRequest();
    LoginArrives(UpToTheRequest(), Refreshing(OLD, 0));
    RunMore(START, events, step);
    RunMore(START, events + [step], step);
    RunMore(START, events + [step] + [step], step);
    hide Run, UpToTheRequest, TheLogin;
    assert Grants(reply);
    var value := Upserted(Some(Stored(NEW_LOGIN, 1)), "a@x", reply, 0);
    assert value == Authorization("a@x", Cipher("renewed", 4), Some(Cipher("rotated", 5)), None);
    assert Run(START, events + [step]).callers[1] == Merging(OLD, 0, reply);
    assert Run(START, events + [step] + [step]).callers[1] == Storing(OLD, 0, value);
  }

  // ---------------------------------------------------------------- the store of one login

  class TokenStore {
    var stored: Option<Stored>
    var writes: nat

    constructor (stored: Option<Stored>, writes: nat)
      ensures this.stored == stored && this.writes == writes
    {
      this.stored := stored;
      this.writes := writes;
    }

    /** `upsert_access_token_from_github_response`. */
    method Upsert(email: string, reply: Reply, now: int)
      modifies this
      ensures if Grants(reply)
              then stored == Some(Stored(Upserted(old(stored), email, reply, now), old(writes))) &&
                writes == old(writes) + 1
              else stored == old(stored) && writes == old(writes)
    {
      if !Grants(reply) {
        return;
      }
      var value := Authorization(email, Cipher(reply.access.value, reply.tag), None, None);
      if email == "" && stored.Some? {
        value := value.(email := stored.value.record.email);
      }
      if reply.refresh.GetOr("") != "" {
        value := value.(refresh := Some(Cipher(reply.refresh.value, reply.tag + 1)));
      } else if stored.Some? {
        value := value.(refresh := stored.value.record.refresh);
      }
      if reply.expiresIn.GetOr(0) > 0 {
        value := value.(expiresAt := Some(now + reply.expiresIn.value));
      }
      stored := Some(Stored(value, writes));
      writes := writes + 1;
    }

    /** `delete_access_token`. */
    method Delete()
      modifies this
      ensures stored == None && writes == old(writes)
    {
      stored := None;
    }

    /**
     * `get_valid_access_token` when nobody else holds the lock: `answer` is GitHub's answer, and `login` what the
     * callback writes, if it comes while the refresh request is in flight.
     */
    method GetValidAccessToken(force: bool, now: int, answer: Reply, login: Option<Authorization>)
      returns (token: Option<string>)
      modifies this
      ensures var first, second := FirstRead(old(stored), force, now), SecondRead(old(stored), force, now);
              if first.Returned? then token == first.token && stored == old(stored)
              else
                second.Refreshing? && second.seen == old(stored).value &&
                var seen := second.seen;
                var meanwhile := if login.Some? then Some(Stored(login.value, old(writes))) else old(stored);
                var written := if login.Some? then old(writes) + 1 else old(writes);
                match Answered(seen, now, answer)
                case Merging(_, _, _) =>
                  token == answer.access &&
                  stored == Some(Stored(Upserted(meanwhile, seen.record.email, answer, now), written))
                case Checking(_) =>
                  (match LastCheck(meanwhile, seen)
                   case Returned(newer) => token == newer && stored == meanwhile
                   case _ => token == None && stored == None)
                case _ => token == Some(seen.record.access.plain) && stored == meanwhile
    {
      if stored.None? {
        return None;
      }
      var seen := stored.value;
      if seen.record.access.plain == "" {
        return None;
      }
      if !force && !Expired(seen.record.expiresAt, now) {
        return Some(seen.record.access.plain);
      }
      if RefreshToken(seen.record).None? {
        return Some(seen.record.access.plain);
      }
      if login.Some? {
        stored := Some(Stored(login.value, writes));
        writes := writes + 1;
      }
      if Grants(answer) {
        Upsert(seen.record.email, answer, now);
        return answer.access;
      }
      if answer.Refused? && answer.dead {
        if stored.Some? && stored.value.record.refresh != seen.record.refresh {
          return NonEmpty(stored.value.record.access.plain);
        }
        Delete();
        return None;
      }
      return Some(seen.record.access.plain);
    }
  }
}
