/**
 * Binding a thread to its sandbox: the id in the thread's metadata, and the backend published to the rest of the
 * process.
 */
module Sandbox {
  import opened Common

  /** The published backend's id, and the id the thread's stored metadata holds. */
  datatype Binding = Binding(cached: Option<string>, metadata: Option<string>)

  /** Where a run reads the thread's metadata: in its own configuration, or live; a failed lookup reads as no id. */
  datatype MetadataRead = Inline(id: string) | Live | LookupFails

  datatype Connection = Connected | Gone | Unreachable

  /** How the world answers one call; a created sandbox has an id, a failed creation none. */
  datatype World = World(
    read: MetadataRead, connection: Connection, refreshOk: bool, created: Option<string>, identityOk: bool,
    updateOk: bool)

  datatype Outcome = Returned(id: string) | SandboxUnreachable | Raised

  function ReadId(b: Binding, w: World): Option<string> {
    match w.read
    case Inline(id) => Some(id)
    case Live => b.metadata
    case LookupFails => None
  }

  /**
   * `_connect_existing_sandbox`: a cached backend is not reconnected, but any backend must take its refreshed proxy.
   */
  function Connect(cached: Option<string>, w: World): Connection {
    if cached.None? && w.connection != Connected then w.connection else if w.refreshOk then Connected else Unreachable
  }

  /** The sandbox `ensure_sandbox_for_thread` settles on, before it is initialized and bound. */
  function Chosen(b: Binding, w: World, allowReplacement: bool): Outcome {
    var id := ReadId(b, w);
    if b.cached.None? && id.None? then (if w.created.Some? then Returned(w.created.value) else Raised)
    else
      var connection := Connect(b.cached, w);
      if connection == Connected then Returned(if b.cached.Some? then b.cached.value else id.value)
      else if connection == Unreachable && !allowReplacement then SandboxUnreachable
      else if w.created.Some? then Returned(w.created.value)
      else SandboxUnreachable
  }

  /** `ensure_sandbox_for_thread`: initialize, bind, and publish last. */
  function Ensure(b: Binding, w: World, allowReplacement: bool): (r: (Binding, Outcome)) {
    var chosen := Chosen(b, w, allowReplacement);
    if !chosen.Returned? then (b, chosen)
    else if !w.identityOk then (b, Raised)
    else if ReadId(b, w) != Some(chosen.id) && !w.updateOk then (b, Raised)
    else (Binding(Some(chosen.id), if ReadId(b, w) != Some(chosen.id) then Some(chosen.id) else b.metadata), chosen)
  }

  /** `recreate_sandbox_for_thread`. */
  function Recreate(b: Binding, w: World): (r: (Binding, Outcome)) {
    var bound := if b.cached.Some? then b.cached else ReadId(b, w);
    if bound.GetOr("") == "" || w.created.None? || w.created == bound || !w.identityOk || !w.updateOk then (b, Raised)
    else (Binding(w.created, w.created), Returned(w.created.value))
  }

  // ---------------------------------------------------------------- all or nothing

  /** The run's own configuration names a sandbox that the thread is no longer bound to. */
  predicate StaleRead(b: Binding, w: World) {
    w.read.Inline? && b.metadata != Some(w.read.id)
  }

  /**
   * The id the run read is stale, and is what the call uses: it connects to it with nothing cached or the same backend
   * cached, or is handed it again as a new sandbox.
   */
  predicate Splits(b: Binding, w: World, allowReplacement: bool) {
    StaleRead(b, w) && w.identityOk &&
    var connection := Connect(b.cached, w);
    if connection == Connected then b.cached.None? || b.cached == Some(w.read.id)
    else (connection == Gone || allowReplacement) && w.created == Some(w.read.id)
  }

  /**
   * A call that fails changes nothing. A call that returns has published what it returned, and the thread's metadata
   * names the same sandbox, exactly unless the call splits the binding.
   */
  lemma BindingIsAllOrNothing(b: Binding, w: World, allowReplacement: bool)
    ensures var (after, outcome) := Ensure(b, w, allowReplacement);
            if outcome.Returned?
            then after.cached == Some(outcome.id) &&
                 (after.metadata == after.cached <==> !Splits(b, w, allowReplacement))
            else after == b && !Splits(b, w, allowReplacement)
    ensures var (after, outcome) := Recreate(b, w);
            if outcome.Returned? then after.cached == Some(outcome.id) == after.metadata && b.cached != after.cached
            else after == b
  {
  }

  /** A stale id in the run's configuration leaves the metadata naming another sandbox than the one in use. */
  lemma StaleReadSplitsTheBinding()
    ensures var b := Binding(None, Some("new"));
            var w := World(Inline("old"), Connected, true, None, true, true);
            Splits(b, w, false) && Ensure(b, w, false) == (Binding(Some("old"), Some("new")), Returned("old"))
  {
    assert "old" != "new";
  }

  /** The sandbox in use could not be kept, and a new one took its place. */
  predicate IsReplaced(b: Binding, w: World, allowReplacement: bool) {
    var connection := Connect(b.cached, w);
    (b.cached.Some? || ReadId(b, w).Some?) && (connection == Gone || (connection == Unreachable && allowReplacement))
  }

  predicate OverridesMetadata(b: Binding) {
    b.cached.Some? && b.cached != b.metadata
  }

  /** Nothing is cached and the lookup fails, so the call believes that there is no sandbox. */
  predicate Abandons(b: Binding, w: World) {
    b.cached.None? && w.read.LookupFails?
  }

  /**
   * Whatever the call reads, a bound thread gets another sandbox exactly when its sandbox was replaced, or abandoned
   * after a failed lookup, by one that is new to it; or a cached backend overrides the metadata, and the id that was
   * read. Replacing needs a sandbox that is gone, or the caller's permission.
   */
  lemma IdentityChangesOnlyForCause(b: Binding, w: World, allowReplacement: bool)
    requires b.metadata.Some?
    ensures var (after, outcome) := Ensure(b, w, allowReplacement);
            outcome.Returned? ==>
              (after.metadata != b.metadata <==>
               if IsReplaced(b, w, allowReplacement) || Abandons(b, w)
               then w.created != b.metadata && w.created != ReadId(b, w)
               else OverridesMetadata(b) && b.cached != ReadId(b, w))
    ensures IsReplaced(b, w, allowReplacement) ==> (b.cached.None? && w.connection == Gone) || allowReplacement
  {
  }

  /** A lookup that fails reads as a thread without a sandbox: a healthy sandbox is abandoned for an empty one. */
  lemma FailedLookupAbandonsTheSandbox()
    ensures var b := Binding(None, Some("kept"));
            var w := World(LookupFails, Connected, true, Some("empty"), true, true);
            !IsReplaced(b, w, false) && !OverridesMetadata(b) && Abandons(b, w) &&
            Ensure(b, w, false) == (Binding(Some("empty"), Some("empty")), Returned("empty"))
  {
  }

  /** `id` is the published backend's, or with nothing published the id that is read. */
  predicate IsBound(b: Binding, w: World, id: string) {
    if b.cached.Some? then b.cached == Some(id)
    else w.read == Inline(id) || (w.read == Live && b.metadata == Some(id))
  }

  /** A fresh sandbox takes a thread that has one, a new sandbox that is another one, and both of its writes. */
  lemma RecreationNeeds(b: Binding, w: World)
    ensures Recreate(b, w).1.Returned? <==>
            w.identityOk && w.updateOk && exists id :: id != "" && IsBound(b, w, id) && w.created.Some? &&
                                                       w.created != Some(id)
    ensures Recreate(b, w).1.Returned? ==> Recreate(b, w).1 == Returned(w.created.value)
    ensures !Recreate(b, w).1.Returned? ==> Recreate(b, w).1 == Raised
  {
    var bound := if b.cached.Some? then b.cached else ReadId(b, w);
    if bound.Some? {
      assert IsBound(b, w, bound.value);
    }
  }

  // ---------------------------------------------------------------- runs

  /**
   * A run starts and ensures its sandbox; somebody asks for a fresh one; or the process restarts with an empty cache.
   */
  datatype Event =
    | Ensuring(world: World, allowReplacement: bool)
    | Recreating(world: World)
    | Restart

  function Do(b: Binding, e: Event): Binding {
    match e
    case Ensuring(w, allow) => Ensure(b, w, allow).0
    case Recreating(w) => Recreate(b, w).0
    case Restart => b.(cached := None)
  }

  function Run(b: Binding, events: seq<Event>): Binding {
    if events == [] then b else Do(Run(b, events[..|events| - 1]), events[|events| - 1])
  }

  predicate Agrees(b: Binding) {
    b.cached.Some? ==> b.cached == b.metadata
  }

  predicate SplitsBinding(b: Binding, e: Event) {
    e.Ensuring? && Splits(b, e.world, e.allowReplacement)
  }

  /** The event gives up the sandbox the thread is bound to: it replaces, abandons or recreates it. */
  predicate GivesUp(b: Binding, e: Event) {
    match e
    case Ensuring(w, allow) =>
      (IsReplaced(b, w, allow) || Abandons(b, w)) && Ensure(b, w, allow).1.Returned? && w.created != b.metadata &&
      w.created != ReadId(b, w)
    case Recreating(w) => Recreate(b, w).1.Returned? && w.created != b.metadata
    case Restart => false
  }

  predicate NeverSplits(b: Binding, events: seq<Event>) {
    events == [] ||
    (NeverSplits(b, events[..|events| - 1]) && !SplitsBinding(Run(b, events[..|events| - 1]), events[|events| - 1]))
  }

  predicate NeverGivesUp(b: Binding, events: seq<Event>) {
    events == [] ||
    (NeverGivesUp(b, events[..|events| - 1]) && !GivesUp(Run(b, events[..|events| - 1]), events[|events| - 1]))
  }

  /**
   * One event, whatever it reads: the published backend is still the one the metadata names exactly unless the event
   * splits the binding; and a bound thread keeps its sandbox exactly unless the event gives it up.
   */
  lemma OneEventKeeps(b: Binding, e: Event)
    requires Agrees(b)
    ensures Agrees(Do(b, e)) <==> !SplitsBinding(b, e)
    ensures b.metadata.Some? ==> (Do(b, e).metadata == b.metadata <==> !GivesUp(b, e))
  {
  }

  /**
   * Over any run of calls, failures and restarts in which no call splits the binding, the published backend is the one
   * the metadata names; and unless a sandbox is given up, a bound thread keeps its sandbox throughout.
   */
  lemma {:induction false} ThreadKeepsItsSandbox(b: Binding, events: seq<Event>)
    requires Agrees(b) && NeverSplits(b, events)
    ensures Agrees(Run(b, events))
    ensures b.metadata.Some? && NeverGivesUp(b, events) ==> Run(b, events).metadata == b.metadata
  {
    if events != [] {
      var front, e := events[..|events| - 1], events[|events| - 1];
      ThreadKeepsItsSandbox(b, front);
      hide Do, SplitsBinding, GivesUp;
      OneEventKeeps(Run(b, front), e);
    }
  }

  /** One thread's binding as a process holds it. */
  class ThreadSandbox {
    var cached: Option<string>
    var metadata: Option<string>

    constructor (metadata: Option<string>)
      ensures Now() == Binding(None, metadata)
    {
      cached := None;
      this.metadata := metadata;
    }

    ghost function Now(): Binding
      reads this
    {
      Binding(cached, metadata)
    }

    method ConnectExisting(backend: Option<string>, sandboxId: Option<string>, w: World)
      returns (r: Connection, id: string)
      requires backend.Some? || sandboxId.Some?
      ensures Some(id) == if backend.Some? then backend else sandboxId
      ensures r == Connected <==> w.refreshOk && (backend.Some? || w.connection == Connected)
      ensures r == Gone <==> backend.None? && w.connection == Gone
    {
      if backend.Some? {
        id := backend.value;
      } else {
        id := sandboxId.value;
        if w.connection != Connected {
          return w.connection, id;
        }
      }
      r := if w.refreshOk then Connected else Unreachable;
    }

    /** `ensure_sandbox_for_thread`. */
    method EnsureSandbox(w: World, allowReplacement: bool) returns (outcome: Outcome)
      modifies this
      ensures (Now(), outcome) == Ensure(old(Now()), w, allowReplacement)
    {
      var backend := cached;
      var sandboxId := match w.read { case Inline(id) => Some(id) case Live => metadata case LookupFails => None };
      var id: string;
      if backend.None? && sandboxId.None? {
        if w.created.None? {
          return Raised;
        }
        id := w.created.value;
      } else {
        var connection: Connection;
        connection, id := ConnectExisting(backend, sandboxId, w);
        if connection != Connected {
          if !(connection == Gone || allowReplacement) {
            return SandboxUnreachable;
          }
          if w.created.None? {
            return SandboxUnreachable;
          }
          id := w.created.value;
        }
      }
      if !w.identityOk {
        return Raised;
      }
      if sandboxId != Some(id) {
        if !w.updateOk {
          return Raised;
        }
        metadata := Some(id);
      }
      cached := Some(id);
      outcome := Returned(id);
    }

    /** `recreate_sandbox_for_thread`. */
    method RecreateSandbox(w: World) returns (outcome: Outcome)
      modifies this
      ensures (Now(), outcome) == Recreate(old(Now()), w)
    {
      var sandboxId := match w.read { case Inline(id) => Some(id) case Live => metadata case LookupFails => None };
      var bound := if cached.Some? then cached else sandboxId;
      if bound.GetOr("") == "" || w.created.None? || w.created == bound {
        return Raised;
      }
      if !w.identityOk || !w.updateOk {
        return Raised;
      }
      metadata := w.created;
      cached := w.created;
      outcome := Returned(w.created.value);
    }
  }
}
