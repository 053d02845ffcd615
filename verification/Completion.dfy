/**
 * Run-completion webhooks: each failed run is answered once and each successful run's cost is scheduled once, within a
 * window of run ids.
 */
module Completion {
  import opened Common

  const WINDOW := 20

  /** A stored list of run ids, whose entries may be anything, and the latest run id; "" is no id. */
  datatype Track = Track(raw: seq<Option<string>>, latest: string)

  /** The parts of a thread's metadata the handlers read and write. */
  datatype Metadata = Metadata(failureFlag: bool, failures: Track, costs: Track, reviewer: bool, slack: bool)

  function NonEmptyIds(raw: seq<Option<string>>): seq<string> {
    if raw == [] then [] else
    var front, last := NonEmptyIds(raw[..|raw| - 1]), raw[|raw| - 1];
    if last.GetOr("") != "" then front + [last.value] else front
  }

  /** `_posted_failure_run_ids` and `_scheduled_cost_run_ids`. */
  function RunIds(t: Track): seq<string> {
    var ids := NonEmptyIds(t.raw);
    if t.latest != "" && t.latest !in ids then ids + [t.latest] else ids
  }

  function AsRaw(ids: seq<string>): seq<Option<string>> {
    seq(|ids|, i requires 0 <= i < |ids| => Some(ids[i]))
  }

  /** `_failure_reply_metadata` and `_cost_refresh_metadata`. */
  function Noted(t: Track, id: string): Track {
    Track(AsRaw(LastN(Without(RunIds(t), id) + [id], WINDOW)), id)
  }

  // ---------------------------------------------------------------- what the window holds

  /**
   * A track as the handlers leave it; one they find may have a list without a latest id, or a latest id without a list.
   */
  predicate Tidy(t: Track) {
    var ids := NonEmptyIds(t.raw);
    t.raw == AsRaw(ids) && 1 <= |ids| <= WINDOW && t.latest == ids[|ids| - 1]
  }

  lemma {:induction false} IdsOfRaw(ids: seq<string>)
    requires forall id | id in ids :: id != ""
    ensures NonEmptyIds(AsRaw(ids)) == ids
  {
    if ids != [] {
      var front := ids[..|ids| - 1];
      assert ids == front + [ids[|ids| - 1]];
      forall id | id in front ensures id != "" {
        assert id in ids;
      }
      IdsOfRaw(front);
      assert ids[|ids| - 1] in ids;
      assert AsRaw(ids)[..|ids| - 1] == AsRaw(ids[..|ids| - 1]);
    }
  }

  lemma {:induction false} IdsAreNonEmpty(raw: seq<Option<string>>)
    ensures forall id | id in NonEmptyIds(raw) :: id != ""
  {
    if raw != [] {
      IdsAreNonEmpty(raw[..|raw| - 1]);
    }
  }

  lemma {:induction false} WithoutPart(ids: seq<string>, id: string)
    ensures forall x | x in Without(ids, id) :: x in ids && x != id
    ensures Distinct(ids) ==> Distinct(Without(ids, id))
  {
    if ids != [] {
      var front := ids[..|ids| - 1];
      WithoutPart(front, id);
      assert forall i | 0 <= i < |front| :: front[i] == ids[i];
      assert Distinct(ids) ==> Distinct(front) && ids[|ids| - 1] !in front;
    }
  }

  lemma LastNPart(ids: seq<string>, id: string)
    ensures var r := LastN(ids + [id], WINDOW);
            1 <= |r| <= WINDOW && r[|r| - 1] == id && (forall x | x in r :: x in ids || x == id) &&
            (Distinct(ids) && id !in ids ==> Distinct(r))
  {
  }

  lemma IdsOf(t: Track)
    ensures forall id | id in RunIds(t) :: id != ""
  {
    hide NonEmptyIds;
    IdsAreNonEmpty(t.raw);
  }

  /**
   * The ids a track names: those of its list that are no empty text, and its latest id, which comes last if missing.
   */
  lemma IdsNamed(t: Track, id: string)
    ensures id in RunIds(t) <==> id != "" && (Some(id) in t.raw || id == t.latest)
    ensures t.latest != "" && Some(t.latest) !in t.raw ==> RunIds(t)[|RunIds(t)| - 1..] == [t.latest]
  {
    hide NonEmptyIds;
    ListedIds(t.raw, id);
    ListedIds(t.raw, t.latest);
  }

  lemma {:induction false} ListedIds(raw: seq<Option<string>>, id: string)
    ensures id in NonEmptyIds(raw) <==> id != "" && Some(id) in raw
  {
    if raw != [] {
      ListedIds(raw[..|raw| - 1], id);
      assert raw == raw[..|raw| - 1] + [raw[|raw| - 1]];
    }
  }

  lemma TidyIds(t: Track)
    requires Tidy(t)
    ensures RunIds(t) == NonEmptyIds(t.raw) && 1 <= |RunIds(t)| <= WINDOW
  {
    hide NonEmptyIds;
    assert t.latest in NonEmptyIds(t.raw);
  }

  /**
   * Whatever the track held, noting an id puts it last, removes it from where it was, drops the oldest past the window
   * and leaves the track tidy.
   */
  lemma NotingAppends(t: Track, id: string)
    requires id != ""
    ensures Tidy(Noted(t, id)) && RunIds(Noted(t, id)) == LastN(Without(RunIds(t), id) + [id], WINDOW)
    ensures id !in RunIds(t) ==> RunIds(Noted(t, id)) == LastN(RunIds(t) + [id], WINDOW)
    ensures id in RunIds(Noted(t, id)) && (Distinct(RunIds(t)) ==> Distinct(RunIds(Noted(t, id))))
  {
    var ids := Without(RunIds(t), id);
    IdsOf(t);
    WithoutPart(RunIds(t), id);
    if id !in RunIds(t) {
      WithoutAbsent(RunIds(t), id);
    }
    hide RunIds, NonEmptyIds, Without, LastN, AsRaw, Distinct;
    LastNPart(ids, id);
    var r := LastN(ids + [id], WINDOW);
    IdsOfRaw(r);
    assert Tidy(Noted(t, id));
    TidyIds(Noted(t, id));
    assert r[|r| - 1] in r;
  }

  // ---------------------------------------------------------------- runs of completions

  /** A run that was acted on, and whether that could be noted in the metadata. */
  datatype Reply = Reply(id: string, noted: bool)

  /** One track, and every run that was acted on, in order. */
  datatype State = State(track: Track, handled: seq<Reply>)

  /** A completion of a run; acting on it may fail, and so may the write that notes it. */
  datatype Event = Completed(id: string, acted: bool, writeOk: bool)

  /** A completion is acted on once per id in the window; a failed write is swallowed. */
  function Do(s: State, e: Event): State {
    if e.id == "" || e.id in RunIds(s.track) || !e.acted then s
    else State(if e.writeOk then Noted(s.track, e.id) else s.track, s.handled + [Reply(e.id, e.writeOk)])
  }

  function Run(s: State, events: seq<Event>): State {
    if events == [] then s else Do(Run(s, events[..|events| - 1]), events[|events| - 1])
  }

  /** The noted runs, in order. */
  function NotedIds(handled: seq<Reply>): (ids: seq<string>)
    ensures |ids| <= |handled|
  {
    if handled == [] then [] else
    var front, last := NotedIds(handled[..|handled| - 1]), handled[|handled| - 1];
    if last.noted then front + [last.id] else front
  }

  lemma NotedIdsStep(handled: seq<Reply>, reply: Reply)
    ensures NotedIds(handled + [reply]) == NotedIds(handled) + if reply.noted then [reply.id] else []
  {
    assert (handled + [reply])[..|handled|] == handled;
  }

  lemma LastNOfLastN(a: seq<string>, b: seq<string>)
    ensures LastN(LastN(a, WINDOW) + b, WINDOW) == LastN(a + b, WINDOW)
  {
  }

  /** The ids a track holds that started with some, after these were noted: nothing is dropped before the first is. */
  function Window(start: seq<string>, noted: seq<string>): seq<string> {
    if noted == [] then start else LastN(start + noted, 20)
  }

  lemma WindowGrows(start: seq<string>, noted: seq<string>, id: string)
    ensures LastN(Window(start, noted) + [id], WINDOW) == Window(start, noted + [id])
  {
    if noted == [] {
      assert noted + [id] == [id];
    } else {
      LastNOfLastN(start + noted, [id]);
      assert start + (noted + [id]) == start + noted + [id];
    }
  }

  /**
   * From any stored metadata: the ids it names stay what they are until one is noted, and are then exactly the last 20
   * of the ids it started with followed by those noted, newest last. No id is ever there twice that was not at the
   * start.
   */
  lemma {:induction false} WindowHoldsTheLastNoted(s: State, events: seq<Event>)
    requires s.handled == []
    ensures var end := Run(s, events);
            RunIds(end.track) == Window(RunIds(s.track), NotedIds(end.handled)) &&
            (if NotedIds(end.handled) == [] then end.track == s.track else Tidy(end.track)) &&
            (Distinct(RunIds(s.track)) ==> Distinct(RunIds(end.track)))
  {
    hide Tidy, RunIds, Noted, Distinct;
    if events != [] {
      hide Window;
      var before, e := Run(s, events[..|events| - 1]), events[|events| - 1];
      WindowHoldsTheLastNoted(s, events[..|events| - 1]);
      var end := Run(s, events);
      if end != before {
        hide NotedIds;
        var ids := NotedIds(before.handled);
        NotedIdsStep(before.handled, Reply(e.id, e.writeOk));
        if e.writeOk {
          NotingAppends(before.track, e.id);
          WindowGrows(RunIds(s.track), ids, e.id);
        } else {
          assert ids + [] == ids;
        }
      }
    }
  }

  /** After any run, a completion is acted on if and only if its run is not in the window. */
  lemma ActedOnOutsideTheWindow(s: State, events: seq<Event>, e: Event)
    requires s.handled == [] && e.id != "" && e.acted
    ensures var end := Run(s, events);
            Do(end, e).handled == end.handled + [Reply(e.id, e.writeOk)] <==>
            e.id !in Window(RunIds(s.track), NotedIds(end.handled))
  {
    hide Tidy, RunIds, Noted, Window, NotedIds, Run;
    WindowHoldsTheLastNoted(s, events);
    assert |Run(s, events).handled + [Reply(e.id, e.writeOk)]| != |Run(s, events).handled|;
  }

  /** A redelivery is acted on again if and only if the first reply could not be noted. */
  lemma RedeliveryIsActedOn(s: State, id: string, writeOk: bool, again: bool)
    requires id != "" && id !in RunIds(s.track)
    ensures var once := Do(s, Completed(id, true, writeOk));
            |once.handled| == |s.handled| + 1 &&
            (Do(once, Completed(id, true, again)).handled != once.handled <==> !writeOk)
  {
    hide Tidy, RunIds, Noted, Distinct;
    NotingAppends(s.track, id);
    var once := Do(s, Completed(id, true, writeOk));
    assert |once.handled + [Reply(id, again)]| != |once.handled|;
  }

  /** Once a run is noted, at least 20 more are noted before it is acted on again. */
  predicate FarApart(handled: seq<Reply>) {
    forall i, j | 0 <= i < j < |handled| && handled[i].id == handled[j].id && handled[i].noted ::
      |NotedIds(handled[..j])| >= |NotedIds(handled[..i + 1])| + 20
  }

  lemma {:induction false} NotedIdsGrow(handled: seq<Reply>, i: nat)
    requires i <= |handled|
    ensures NotedIds(handled[..i]) <= NotedIds(handled)
  {
    if i == |handled| {
      assert handled[..i] == handled;
    } else {
      NotedIdsGrow(handled[..|handled| - 1], i);
      assert handled[..|handled| - 1][..i] == handled[..i];
    }
  }

  lemma RecentAreInWindow(start: seq<string>, handled: seq<Reply>, i: nat)
    requires i < |handled| && handled[i].noted && |NotedIds(handled)| < |NotedIds(handled[..i + 1])| + WINDOW
    ensures handled[i].id in Window(start, NotedIds(handled))
  {
    hide NotedIds;
    var n := |NotedIds(handled[..i])|;
    NotedIdsStep(handled[..i], handled[i]);
    assert handled[..i] + [handled[i]] == handled[..i + 1];
    NotedIdsGrow(handled, i + 1);
    assert NotedIds(handled)[n] == NotedIds(handled[..i + 1])[n] == handled[i].id;
    RecentIsInWindow(start, NotedIds(handled), n);
  }

  lemma RecentIsInWindow(start: seq<string>, ids: seq<string>, i: nat)
    requires i < |ids| <= i + WINDOW
    ensures ids[i] in Window(start, ids)
  {
    var all := start + ids;
    assert all[|start| + i] == ids[i];
    if |all| > WINDOW {
      assert LastN(all, WINDOW)[|start| + i - (|all| - WINDOW)] == ids[i];
    }
  }

  /** A run whose reply was noted is acted on again only after at least 20 other replies were noted. */
  lemma {:induction false} RunsAreAnsweredOnceInTwenty(s: State, events: seq<Event>)
    requires s.handled == []
    ensures FarApart(Run(s, events).handled)
  {
    hide Tidy, RunIds, Noted, Window, NotedIds;
    if events != [] {
      var before, e := Run(s, events[..|events| - 1]), events[|events| - 1];
      RunsAreAnsweredOnceInTwenty(s, events[..|events| - 1]);
      var end := Run(s, events);
      if end != before {
        WindowHoldsTheLastNoted(s, events[..|events| - 1]);
        var n := |before.handled|;
        forall i, j | 0 <= i < j < |end.handled| && end.handled[i].id == end.handled[j].id && end.handled[i].noted
          ensures |NotedIds(end.handled[..j])| >= |NotedIds(end.handled[..i + 1])| + WINDOW
        {
          assert end.handled[..j] == before.handled[..j] && end.handled[..i + 1] == before.handled[..i + 1];
          assert before.handled[..n] == before.handled;
          if j == n && |NotedIds(before.handled)| < |NotedIds(before.handled[..i + 1])| + WINDOW {
            RecentAreInWindow(RunIds(s.track), before.handled, i);
          }
        }
      }
    }
  }

  // ---------------------------------------------------------------- the handlers

  datatype Answer = Ignored | Failed | Posted

  class ThreadCompletions {
    var metadata: Metadata

    constructor (metadata: Metadata)
      ensures this.metadata == metadata
    {
      this.metadata := metadata;
    }

    /**
     * The failure branch of `handle_run_completion`; `posted` says whether a reply could be posted, `writeOk` whether
     * it could be noted.
     */
    method HandleFailure(runId: string, posted: bool, writeOk: bool) returns (r: Answer)
      modifies this
      ensures var dup := if runId == "" then old(metadata).failureFlag else runId in RunIds(old(metadata).failures);
              r == (if dup || !posted then Ignored else Posted) &&
              metadata == if r != Posted || !writeOk then old(metadata)
                          else if runId == "" then old(metadata).(failureFlag := true)
                          else old(metadata).(failures := Noted(old(metadata).failures, runId))
      ensures runId != "" ==> metadata.costs == old(metadata).costs && forall log ::
                Do(State(old(metadata).failures, log), Completed(runId, posted, writeOk)) ==
                State(metadata.failures, if r == Posted then log + [Reply(runId, writeOk)] else log)
    {
      if runId == "" {
        if metadata.failureFlag {
          return Ignored;
        }
      } else if runId in RunIds(metadata.failures) {
        return Ignored;
      }
      if !posted {
        return Ignored;
      }
      if writeOk {
        if runId == "" {
          metadata := metadata.(failureFlag := true);
        } else {
          var ids := Without(RunIds(metadata.failures), runId);
          ids := ids + [runId];
          metadata := metadata.(failures := Track(AsRaw(LastN(ids, WINDOW)), runId));
        }
      }
      r := Posted;
    }

    /** `_schedule_success_cost_refresh`, for a loaded thread. */
    method HandleSuccess(runId: string, prepareRunId: string, scheduled: bool, writeOk: bool) returns (r: Answer)
      modifies this
      ensures var m := old(metadata);
              var dup := runId == "" || prepareRunId == "" || m.reviewer || runId in RunIds(m.costs) || !m.slack;
              r == (if dup then Ignored else if scheduled then Posted else Failed) &&
              metadata == if r != Posted || !writeOk then m else m.(costs := Noted(m.costs, runId))
      ensures var m := old(metadata);
              var acted := prepareRunId != "" && !m.reviewer && m.slack && scheduled;
              metadata.failures == m.failures && metadata.failureFlag == m.failureFlag && forall log ::
                Do(State(m.costs, log), Completed(runId, acted, writeOk)) ==
                State(metadata.costs, if r == Posted then log + [Reply(runId, writeOk)] else log)
    {
      if runId == "" || prepareRunId == "" || metadata.reviewer {
        return Ignored;
      }
      if runId in RunIds(metadata.costs) {
        return Ignored;
      }
      if !metadata.slack {
        return Ignored;
      }
      if !scheduled {
        return Failed;
      }
      if writeOk {
        var ids := Without(RunIds(metadata.costs), runId);
        ids := ids + [runId];
        metadata := metadata.(costs := Track(AsRaw(LastN(ids, WINDOW)), runId));
      }
      r := Posted;
    }
  }
}
