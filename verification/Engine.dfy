// The engine as an object: its fields change in place, command by command. Every method is proved
// to leave exactly the state, and return exactly the result, that the functions of Transactions,
// Cascade, Projections and Runtime define (src/core/engine.ts: RuntimeEngine).
module Engine {
  import opened Batches
  import opened Cascade
  import opened Domain
  import opened EventSourcing
  import opened GraphInvariant
  import opened Json
  import opened Lifecycle
  import opened Projections
  import opened Reduction
  import opened Runtime
  import opened Stores
  import opened Transactions
  import opened Wrappers

  /** The shadow copy a command works on, discarded when the command throws. */
  class Transaction {
    var states: States
    var events: seq<Event>
    var reactionKeys: set<string>
    var reactionEvents: nat
    var draws: nat
    ghost var handled: nat
    ghost var direct: nat

    constructor (shadow: States)
      ensures Value() == Begin(shadow) && Valid()
    {
      states, events, reactionKeys, reactionEvents, draws, handled, direct := shadow, [], {}, 0, 0, 0, 0;
    }

    ghost function Value(): Tx
      reads this
    {
      Tx(states, events, reactionKeys, reactionEvents, draws, handled, direct)
    }

    /** Every event is reflected in the states. */
    ghost predicate Valid()
      reads this
    {
      forall i :: 0 <= i < |events| ==> events[i].aggregate in states
    }
  }

  const HOOK_FAILED := RuntimeError(500, "lifecycle hook failed")

  /** A method that may throw did what the specification says: the same error, or the same value. */
  ghost predicate Matches(spec: Result<Tx, RuntimeError>, done: Done, after: Tx) {
    match spec
    case Ok(value) => done.Ok? && after == value
    case Err(e) => done == Err(e)
  }

  ghost predicate MatchesFiring(spec: Result<Firing, RuntimeError>,
                                fired: Result<Option<(Event, Request)>, RuntimeError>, after: Tx)
  {
    match spec
    case Ok(Skipped(tx)) => fired == Ok(None) && after == tx
    case Ok(Fired(tx, event, cause)) => fired == Ok(Some((event, cause))) && after == tx
    case Err(e) => fired == Err(e)
  }

  ghost predicate MatchesHandled(spec: Result<Handled, RuntimeError>,
                                 out: Result<(Response, seq<Request>), RuntimeError>, after: Tx)
  {
    match spec
    case Ok(handled) => out == Ok((handled.response, handled.dispatched)) && after == handled.tx
    case Err(e) => out == Err(e)
  }

  ghost predicate MatchesQueue(spec: Result<(Tx, Option<Response>), RuntimeError>,
                               out: Result<Option<Response>, RuntimeError>, after: Tx)
  {
    match spec
    case Ok((tx, first)) => out == Ok(first) && after == tx
    case Err(e) => out == Err(e)
  }

  class RuntimeEngine {
    const events: EventStore
    const state: StateStore
    const idempotency: IdempotencyStore
    var program: Program
    var initialized: bool
    var projections: Store
    var aggregateBoundaries: Owners
    var idempotencyFingerprints: map<string, string>
    var clock: int
    var activeBatch: Option<Batch>

    ghost function View(): World
      reads this, events, state, idempotency
    {
      World(program, initialized, events.values, state.values, aggregateBoundaries, projections,
            idempotency.values, idempotencyFingerprints, clock, activeBatch)
    }

    constructor (compiled: Program)
      ensures View() == Boot(compiled) && fresh(events) && fresh(state) && fresh(idempotency)
      ensures WellFormed(compiled) ==> Quiet(View())
    {
      hide Runtime.Initialize, Quiet, WellFormed;
      events := new EventStore();
      state := new StateStore();
      idempotency := new IdempotencyStore();
      program, initialized, projections, aggregateBoundaries := compiled, false, map[], map[];
      idempotencyFingerprints, clock, activeBatch := map[], 0, None;
      new;
      if WellFormed(compiled) { BootQuiet(compiled); }
      var _ := Initialize();
    }

    // ----------------------------------------------------------- one transaction

    method NextSequence(id: Id, tx: Transaction) returns (version: Result<int, RuntimeError>)
      ensures version == NextVersion(CurrentVersion(events.values, id), tx.events, id)
    {
      var current := events.CurrentSequenceVersion(id);
      version := NextVersion(current, tx.events, id);
    }

    method CreateEvent(b: Boundary, kind: string, ctx: Context, tx: Transaction, source: Option<Event>)
      returns (event: Result<Event, RuntimeError>)
      ensures event == Transactions.CreateEvent(program, events.values, b, kind, ctx, tx.Value(), source)
    {
      hide CurrentVersion, NextVersion, Definition;
      var definition := Definition(b.catalog, kind);
      if definition.None? && kind != GENERIC_UPDATE { return Err(UNDECLARED_EVENT); }
      var req := ctx.request;
      var aggregate := match req.command.target
                       case Some(id) => id
                       case None => req.supply.uuid(req.scope, ForAggregate, tx.draws);
      var version :- NextSequence(aggregate, tx);
      var provisional := Provisional(b, kind, ctx, aggregate, version, tx.draws);
      var payload := req.command.payload;
      if definition.Some? {
        payload :- definition.value.payload(ctx, match source case Some(e) => e case None => provisional);
      }
      var _ :- program.validateEvent(b.name, kind, payload);
      return Ok(provisional.(payload := payload));
    }

    /** Reducers in declaration order, then computed fields, then audit fields, then validation. */
    method ApplyEvent(b: Boundary, e: Event, tx: Transaction) returns (done: Done)
      requires tx.Valid()
      modifies tx
      ensures tx.Valid()
      ensures Matches(Record(b, e, old(tx.Value())), done, tx.Value())
    {
      var reducers := ReducersOn(b.reducers, e.kind);
      var existing := Existing(tx.states, e.aggregate);
      var next := if e.kind == BASELINE || Reduction.Replaces(reducers) then e.payload else existing;
      if e.kind == GENERIC_UPDATE { next := Spread(existing, e.payload); }
      if e.kind != BASELINE {
        next :- Reduce(reducers, next, e);
      }
      next :- Compute(b.computed, next, e);
      if b.auditFields && e.kind != BASELINE {
        next := Set(next, "updatedAt", Str(e.timestamp));
        next := Set(next, "updatedBy", match e.actor case None => Null case Some(a) => Str(a));
      }
      var _ :- b.validate(next);
      tx.states := tx.states[e.aggregate := next];
      tx.events := tx.events + [e];
      tx.draws := tx.draws + 1;
      return Ok(());
    }

    static method Reduce(reducers: seq<Reducer>, start: Object, e: Event) returns (next: Result<Object, RuntimeError>)
      ensures next == RunReducers(reducers, start, e)
    {
      var state, i := start, 0;
      while i < |reducers|
        invariant 0 <= i <= |reducers|
        invariant RunReducers(reducers, start, e) == RunReducers(reducers[i..], state, e)
      {
        if reducers[i].step.Some? {
          state :- reducers[i].step.value(state, e);
        }
        i := i + 1;
      }
      return Ok(state);
    }

    static method Compute(fields: seq<ComputedField>, start: Object, e: Event)
      returns (next: Result<Object, RuntimeError>)
      ensures next == RunFormulas(fields, start, e)
    {
      var state, i := start, 0;
      while i < |fields|
        invariant 0 <= i <= |fields|
        invariant RunFormulas(fields, start, e) == RunFormulas(fields[i..], state, e)
      {
        var value :- fields[i].formula(state, e);
        state := Set(state, fields[i].name, value);
        i := i + 1;
      }
      return Ok(state);
    }

    method FireReaction(r: Reaction, event: Event, source: Request, tx: Transaction)
      returns (fired: Result<Option<(Event, Request)>, RuntimeError>)
      requires tx.Valid()
      modifies tx
      ensures tx.Valid()
      ensures MatchesFiring(Transactions.FireReaction(program, events.values, r, event, source, old(tx.Value())),
                            fired, tx.Value())
      ensures fired.Ok? && fired.value.Some? ==> fired.value.value.1.effects == source.effects
    {
      hide Transactions.CreateEvent, Record, Find, ReactionTarget, ReactionKey, StateOf, Spread;
      var post := PostContext(source, StateOf(tx.states, event.aggregate), event, tx.events);
      var applies :- r.when(post);
      if !applies { return Ok(None); }
      var owner := Find(program, r.boundary);
      if owner.None? { return Err(UNKNOWN_BOUNDARY); }
      var b := owner.value;
      var target :- ReactionTarget(r, b, post, tx.draws);
      if r.intent == Mutation && target !in tx.states { return Err(ABSENT); }
      if r.intent == Creation && target in tx.states { return Err(CONFLICT); }
      var key := ReactionKey(b, r, target);
      tx.draws := tx.draws + 1;
      if key in tx.reactionKeys { return Ok(None); }
      tx.reactionKeys := tx.reactionKeys + {key};
      tx.reactionEvents := tx.reactionEvents + 1;
      var payload :- r.payload(post);
      var cause := ReactionRequest(r, target, payload, source, tx.draws);
      var created :- CreateEvent(b, r.emit, Context(cause, StateOf(tx.states, target)), tx, Some(event));
      var hydrated := created.(payload := Spread(created.payload, payload));
      var _ :- ApplyEvent(b, hydrated, tx);
      return Ok(Some((hydrated, cause)));
    }

    /** Reactions fire depth first, in order of their boundary's name. The recursion ends because
        every firing spends one unit of the transaction's budget. */
    method EnqueueReactions(event: Event, source: Request, tx: Transaction) returns (done: Done)
      requires tx.Valid()
      modifies tx
      ensures tx.Valid()
      ensures Matches(ReactTo(program, events.values, event, source, old(tx.Value())), done, tx.Value())
      ensures tx.reactionEvents >= old(tx.reactionEvents) || done.Err?
      decreases MAX_REACTION_EVENTS - tx.reactionEvents
    {
      hide Transactions.FireReaction, MatchingReactions;
      if source.effects.skipReactions { return Ok(()); }
      var matching := MatchingReactions(program, event);
      ghost var start := tx.Value();
      var i := 0;
      while i < |matching|
        invariant 0 <= i <= |matching|
        invariant tx.Valid() && tx.reactionEvents >= start.reactionEvents
        invariant React(program, events.values, matching, event, source, start)
               == React(program, events.values, matching[i..], event, source, tx.Value())
      {
        if tx.reactionEvents >= MAX_REACTION_EVENTS { return Err(BUDGET_EXCEEDED); }
        assert matching[i..][1..] == matching[i + 1..];
        var fired :- FireReaction(matching[i], event, source, tx);
        if fired.Some? {
          var _ :- EnqueueReactions(fired.value.0, fired.value.1, tx);
        }
        i := i + 1;
      }
      return Ok(());
    }

    method EmitEvent(b: Boundary, kind: string, ctx: Context, tx: Transaction)
      returns (event: Result<Event, RuntimeError>)
      requires tx.Valid()
      modifies tx
      ensures tx.Valid()
      ensures event.Ok? ==>
                event == Transactions.CreateEvent(program, events.values, b, kind, ctx, old(tx.Value()), None)
      ensures Matches(Emit(program, events.values, b, kind, ctx, old(tx.Value())),
                      if event.Ok? then Ok(()) else Err(event.error), tx.Value())
    {
      hide Transactions.CreateEvent, Record, ReactTo;
      var created :- CreateEvent(b, kind, ctx, tx, None);
      var _ :- ApplyEvent(b, created, tx);
      tx.direct := tx.direct + 1;
      var _ :- EnqueueReactions(created, ctx.request, tx);
      return Ok(created);
    }

    method EmitEvents(b: Boundary, kinds: seq<string>, ctx: Context, tx: Transaction) returns (done: Done)
      requires tx.Valid()
      modifies tx
      ensures tx.Valid()
      ensures Matches(EmitAll(program, events.values, b, kinds, ctx, old(tx.Value())), done, tx.Value())
    {
      hide Emit;
      ghost var start := tx.Value();
      var i := 0;
      while i < |kinds|
        invariant 0 <= i <= |kinds| && tx.Valid()
        invariant EmitAll(program, events.values, b, kinds, ctx, start)
               == EmitAll(program, events.values, b, kinds[i..], ctx, tx.Value())
      {
        assert kinds[i..][1..] == kinds[i + 1..];
        var _ :- EmitEvent(b, kinds[i], ctx, tx);
        i := i + 1;
      }
      return Ok(());
    }

    static method DispatchCommands(dispatches: seq<Dispatch>, ctx: Context)
      returns (commands: Result<seq<Request>, RuntimeError>)
      ensures commands == DispatchAll(dispatches, ctx)
    {
      hide Dispatched;
      var queue, i := [], 0;
      OntoNothing(DispatchAll(dispatches, ctx));
      while i < |dispatches|
        invariant 0 <= i <= |dispatches|
        invariant DispatchAll(dispatches, ctx) == Onto(queue, DispatchAll(dispatches[i..], ctx))
      {
        assert dispatches[i..][1..] == dispatches[i + 1..];
        var secondary :- Dispatched(dispatches[i], ctx);
        var pushed := match secondary case None => [] case Some(command) => [command];
        OntoTwice(queue, pushed, DispatchAll(dispatches[i + 1..], ctx));
        queue := queue + pushed;
        i := i + 1;
      }
      assert queue + [] == queue;
      return Ok(queue);
    }

    static method SelectBehavior(behaviors: seq<Behavior>, ctx: Context) returns (selected: Option<Behavior>)
      ensures selected == FindBehavior(behaviors, ctx)
    {
      var i := 0;
      while i < |behaviors|
        invariant 0 <= i <= |behaviors|
        invariant FindBehavior(behaviors, ctx) == FindBehavior(behaviors[i..], ctx)
      {
        if behaviors[i].matches(ctx) { return Some(behaviors[i]); }
        i := i + 1;
      }
      return None;
    }

    method RunBehavior(b: Boundary, behavior: Behavior, ctx: Context, tx: Transaction)
      returns (out: Result<(Response, seq<Request>), RuntimeError>)
      requires tx.Valid()
      modifies tx
      ensures tx.Valid()
      ensures MatchesHandled(Behave(program, events.values, b, behavior, ctx, old(tx.Value())), out, tx.Value())
    {
      hide EmitAll, DispatchAll;
      var _ :- behavior.admits(ctx);
      var kinds :- behavior.emits(ctx);
      var _ :- EmitEvents(b, kinds, ctx, tx);
      var commands := [];
      if !ctx.request.effects.skipDispatch {
        commands :- DispatchCommands(behavior.dispatches, ctx);
      }
      var after := match ctx.request.command.target case Some(id) => StateOf(tx.states, id) case None => None;
      var response :- behavior.respond(Context(ctx.request, after), tx.events, |kinds|);
      return Ok((response, commands));
    }

    method RunFallback(b: Boundary, ctx: Context, tx: Transaction)
      returns (out: Result<(Response, seq<Request>), RuntimeError>)
      requires tx.Valid()
      modifies tx
      ensures tx.Valid()
      ensures MatchesHandled(FallBack(program, events.values, b, ctx, old(tx.Value())), out, tx.Value())
    {
      hide Emit, Transactions.CreateEvent;
      if b.fallbackOverride {
        EmitNeedsEvent(program, events.values, b, GENERIC_UPDATE, ctx, tx.Value());
        var event :- EmitEvent(b, GENERIC_UPDATE, ctx, tx);
        var body := match StateOf(tx.states, event.aggregate) case Some(s) => s case None => event.payload;
        return Ok((Response(200, Obj(body)), []));
      }
      if ctx.request.command.origin == Inbound {
        return Err(if |b.behaviors| > 0 then INVALID_TRANSITION else NO_BEHAVIOR);
      }
      return Err(NO_SECONDARY);
    }

    method HandleItem(item: Request, tx: Transaction) returns (out: Result<(Response, seq<Request>), RuntimeError>)
      requires tx.Valid()
      modifies tx
      ensures tx.Valid()
      ensures MatchesHandled(Handle(program, events.values, item, old(tx.Value())), out, tx.Value())
    {
      hide Behave, FallBack, FindBehavior, Find;
      var owner := Find(program, item.command.boundary);
      if owner.None? { return Err(UNKNOWN_BOUNDARY); }
      var ctx := Context(item, CurrentState(item, tx.states));
      var _ :- Presence(item.command, ctx.state);
      var selected := SelectBehavior(owner.value.behaviors, ctx);
      match selected {
        case None => out := RunFallback(owner.value, ctx, tx);
        case Some(behavior) => out := RunBehavior(owner.value, behavior, ctx, tx);
      }
    }

    /** The cascade queue: shift the first item, handle it, push what it dispatched. `begun` counts the
        items whose handling begins. */
    method RunCommands(pending: Request, tx: Transaction)
      returns (first: Result<Option<Response>, RuntimeError>, ghost begun: nat)
      requires tx.Valid()
      modifies tx
      ensures tx.Valid()
      ensures MatchesQueue(Cascade.RunCommands(program, events.values, pending, old(tx.Value())), first, tx.Value())
      ensures begun == CommandsBegun(program, events.values, pending, old(tx.Value()))
    {
      hide Handle, Branching;
      begun := 0;
      var maxDepth := DepthLimit(pending);
      if 0 > maxDepth { return Err(CASCADE_EXCEEDED), begun; }
      ghost var start := tx.Value();
      var queue, firstResponse := [pending], None;
      while |queue| > 0
        invariant tx.Valid()
        invariant RunQueue(program, events.values, [pending], maxDepth, start, None)
               == RunQueue(program, events.values, queue, maxDepth, tx.Value(), firstResponse)
        invariant ItemsBegun(program, events.values, [pending], maxDepth, start)
               == begun + ItemsBegun(program, events.values, queue, maxDepth, tx.Value())
        decreases QueueCost(Branching(program), maxDepth, queue)
      {
        var item := queue[0];
        if item.command.depth > maxDepth { return Err(CASCADE_EXCEEDED), begun; }
        ghost var before := tx.Value();
        begun := begun + 1;
        var out := HandleItem(item, tx);
        if out.Err? { return Err(out.error), begun; }
        HandlingLowersCost(program, events.values, queue, maxDepth, before);
        tx.handled := tx.handled + 1;
        if firstResponse.None? { firstResponse := Some(out.value.0); }
        queue := queue[1..] + out.value.1;
      }
      first := Ok(firstResponse);
    }

    // ----------------------------------------------------------- the commit

    /** The shadow states replace the live ones, new aggregates are claimed for the boundary of
        their first event, and the events join the log. */
    method Commit(tx: Transaction, committed: seq<Event>)
      requires forall i :: 0 <= i < |committed| ==> committed[i].aggregate in tx.states
      modifies this, events, state
      ensures View() == Committed(old(View()), tx.states, committed)
    {
      SetStates(tx.states, committed);
      DeleteMissing(tx.states);
      events.Append(committed);
    }

    method SetStates(shadow: States, committed: seq<Event>)
      requires forall i :: 0 <= i < |committed| ==> committed[i].aggregate in shadow
      modifies `aggregateBoundaries, state
      ensures forall id <- shadow :: id in state.values && state.values[id] == shadow[id]
      ensures aggregateBoundaries == ClaimAll(old(aggregateBoundaries), committed)
    {
      hide HalfStates, HalfOwners, ClaimAll, EventsOf, StateOf;
      ghost var owners, before := aggregateBoundaries, state.values;
      var ids := shadow.Keys;
      HalfwayStart(before, shadow, owners, committed);
      assert shadow.Keys - ids == {};
      while ids != {}
        invariant ids <= shadow.Keys
        invariant HalfStates(state.values, before, shadow, shadow.Keys - ids)
        invariant HalfOwners(aggregateBoundaries, owners, committed, shadow.Keys - ids)
        decreases |ids|
      {
        var id: Id :| id in ids;
        HalfwayStep(state.values, before, shadow, aggregateBoundaries, owners, committed, shadow.Keys - ids, id);
        if id !in state.values || state.values[id] != shadow[id] {
          state.Set(id, shadow[id]);
        } else {
          assert state.values[id := shadow[id]] == state.values;
        }
        var first := FirstOf(committed, id);
        if first.Some? && id !in aggregateBoundaries {
          aggregateBoundaries := aggregateBoundaries[id := first.value.boundary];
        }
        assert shadow.Keys - (ids - {id}) == shadow.Keys - ids + {id};
        ids := ids - {id};
      }
      assert shadow.Keys - ids == shadow.Keys;
      HalfwayEnd(state.values, before, shadow, aggregateBoundaries, owners, committed);
    }

    method DeleteMissing(shadow: States)
      requires forall id <- shadow :: id in state.values && state.values[id] == shadow[id]
      modifies state
      ensures state.values == shadow
    {
      hide Installed;
      var extra := state.values.Keys - shadow.Keys;
      InstalledStart(state.values, shadow);
      while extra != {}
        invariant Installed(state.values, shadow, extra)
        decreases |extra|
      {
        var id: Id :| id in extra;
        InstalledStep(state.values, shadow, extra, id);
        state.Delete(id);
        extra := extra - {id};
      }
      InstalledEnd(state.values, shadow);
    }

    static method FirstOf(committed: seq<Event>, id: Id) returns (first: Option<Event>)
      ensures first.Some? <==> EventsOf(committed, id) != []
      ensures first.Some? ==> first.value == EventsOf(committed, id)[0]
    {
      var i := 0;
      while i < |committed|
        invariant 0 <= i <= |committed|
        invariant EventsOf(committed, id) == EventsOf(committed[i..], id)
      {
        assert committed[i..] == [committed[i]] + committed[i + 1..];
        FirstEvent(committed[i], committed[i + 1..], id);
        if committed[i].aggregate == id { return Some(committed[i]); }
        i := i + 1;
      }
      return None;
    }

    // ----------------------------------------------------------- projections and announcements

    /** Every projection over every event; an event whose key or reducer throws is skipped. */
    method RunProjections(sources: seq<Event>, source: ProjectionSource)
      modifies this
      ensures View() == old(View()).(projections := Project(program.projections, source, old(projections), sources))
    {
      hide ProjectEvent;
      ghost var start := projections;
      var i := 0;
      while i < |program.projections|
        invariant 0 <= i <= |program.projections|
        invariant View() == old(View()).(projections := projections)
        invariant Project(program.projections, source, start, sources)
               == Project(program.projections[i..], source, projections, sources)
      {
        ghost var before := projections;
        var j := 0;
        while j < |sources|
          invariant 0 <= j <= |sources|
          invariant View() == old(View()).(projections := projections)
          invariant ProjectEvents(program.projections[i], source, before, sources)
                 == ProjectEvents(program.projections[i], source, projections, sources[j..])
        {
          assert sources[j..][1..] == sources[j + 1..];
          RunProjection(program.projections[i], sources[j], source);
          j := j + 1;
        }
        assert program.projections[i..][1..] == program.projections[i + 1..];
        i := i + 1;
      }
    }

    method RunProjection(projection: Projection, event: Event, source: ProjectionSource)
      modifies `projections
      ensures projections == ProjectEvent(projection, source, old(projections), event)
    {
      hide Projected, Interested;
      if !Interested(projection, event) { return; }
      var rows := RowsOf(projections, projection.name);
      projections := projections[projection.name := rows];
      var row := ProjectedRow(projection, source, rows, event);
      if row.Ok? {
        projections := projections[projection.name := rows[row.value.0 := row.value.1]];
      }
    }

    static method ProjectedRow(projection: Projection, source: ProjectionSource, rows: Rows, event: Event)
      returns (row: Result<(string, Object), RuntimeError>)
      ensures row == Projected(projection, source, rows, event)
    {
      var found :- projection.key(ProjectionView(source, event, SourceState(source)));
      var view := ProjectionView(source, event, RowAt(rows, found));
      var _ :- projection.observe(view);
      var key :- projection.key(view);
      var reducers := ProjectionReducers(projection.reducers, event);
      var current := if key in rows then rows[key] else [];
      var next :- Reduce(reducers, if Reduction.Replaces(reducers) then event.payload else current, event);
      return Ok((key, next));
    }

    method Announce(ghost post: PostCommit, commit: CommitContext) returns (done: Done)
      requires commit == ContextOf(View(), post)
      modifies this
      ensures (View(), done) == Runtime.Announce(old(View()), post)
    {
      hide Project;
      var _ :- program.onPostCommit(commit);
      if !commit.request.effects.skipProjections { RunProjections(commit.committed, OfCommit(commit)); }
      if commit.request.effects.skipWebhooks { return Ok(()); }
      done := program.webhooks(commit);
    }

    // ----------------------------------------------------------- idempotency

    method CachedIdempotency(key: string, req: Request) returns (cached: Option<Execution>)
      modifies idempotency
      ensures View() == old(View()) && cached == Cached(View(), key, req)
    {
      if activeBatch.Some? && key in activeBatch.value.idempotency {
        return Some(activeBatch.value.idempotency[key].result);
      }
      cached := idempotency.Get(key, Some(clock + req.controls.clockOffset), clock);
    }

    method CheckIdempotencyFingerprint(key: string, req: Request) returns (done: Done)
      modifies this, idempotency
      ensures match CheckFingerprint(old(View()), key, req)
              case Ok(after) => done.Ok? && View() == after
              case Err(e) => done == Err(e) && View() == old(View())
    {
      if program.idempotency.None? || !program.idempotency.value.hashIncludesBody { return Ok(()); }
      var pending := if activeBatch.Some? && key in activeBatch.value.idempotency
                     then Some(activeBatch.value.idempotency[key]) else None;
      var previous := if pending.Some? then Some(pending.value.fingerprint)
                      else if key in idempotencyFingerprints then Some(idempotencyFingerprints[key]) else None;
      if previous.None? { return Ok(()); }
      if pending.None? {
        var live := idempotency.Get(key, Some(clock + req.controls.clockOffset), clock);
        if live.None? {
          idempotencyFingerprints := idempotencyFingerprints - {key};
          return Ok(());
        }
      }
      if previous.value != program.fingerprint(req) { return Err(KEY_CONFLICT); }
      return Ok(());
    }

    method StoreIdempotency(key: string, fingerprint: string, result: Execution, ttlSeconds: int)
      modifies this, idempotency
      ensures View() == StoreEntry(old(View()), key, fingerprint, result, ttlSeconds)
    {
      if activeBatch.Some? {
        var batch := activeBatch.value;
        var entry := PendingEntry(fingerprint, result, ttlSeconds);
        activeBatch := Some(batch.(idempotency := batch.idempotency[key := entry]));
        return;
      }
      idempotencyFingerprints := idempotencyFingerprints[key := fingerprint];
      idempotency.Set(key, result, ttlSeconds, clock);
    }

    // ----------------------------------------------------------- one request

    /** executeMutation up to and including its post-commit work. */
    method ExecuteMutation(req: Request, id: Id) returns (outcome: Outcome)
      modifies this, events, state, idempotency
      ensures (View(), outcome) == Finish(MutationStage(old(View()), req, id), req)
      decreases SagaRank(req), 2
    {
      hide Cascade.RunCommands, FollowUp, Committed, CurrentVersion;
      var _ :- CheckPreconditions(req, id);
      var tx := new Transaction(state.values);
      var first, begun :- RunCommands(req, tx);
      if first.None? { return Err(NO_RESPONSE); }
      var _ :- program.onCommit(CommitContext(req, StateOf(tx.states, id), tx.events, first.value));
      var committed := Answered(tx.events, first.value);
      if req.controls.dryRun { return Ok(Execution(first.value, committed, false)); }
      Commit(tx, committed);
      var _ :- PostCommitOrDefer(PostCommit(req, committed, first.value));
      return Ok(Execution(first.value, committed, true));
    }

    method CheckPreconditions(req: Request, id: Id) returns (done: Done)
      ensures done == Preconditions(View(), req, id)
    {
      hide CurrentVersion;
      var _ :- Presence(req.command, StateOf(state.values, id));
      var sequence := events.CurrentSequenceVersion(id);
      if program.requiresPrecondition(req.command.operation) && req.command.version.None? {
        return Err(PRECONDITION_REQUIRED);
      }
      if req.command.version.Some? && req.command.version.value != sequence { return Err(VERSION_CONFLICT); }
      return Ok(());
    }

    method PostCommitOrDefer(post: PostCommit) returns (done: Done)
      modifies this, events, state, idempotency
      ensures (View(), done)
           == if old(View()).batch.Some? then (Defer(old(View()), post), Ok(())) else FollowUp(old(View()), post)
      decreases SagaRank(post.request), 1
    {
      hide FollowUp;
      if activeBatch.Some? {
        activeBatch := Some(activeBatch.value.(postCommits := activeBatch.value.postCommits + [post]));
        return Ok(());
      }
      done := RunPostCommit(post);
    }

    method RunPostCommit(post: PostCommit) returns (done: Done)
      modifies this, events, state, idempotency
      ensures (View(), done) == FollowUp(old(View()), post)
      decreases SagaRank(post.request), 0, 3
    {
      hide Runtime.Announce, Runtime.RunSagas;
      var commit := CommitContext(post.request, CurrentState(post.request, state.values), post.events, post.response);
      var _ :- Announce(post, commit);
      if post.request.effects.skipSagas { return Ok(()); }
      done := RunSagas(program.sagas, commit);
    }

    /** replayEvent: a logged event is reissued as a fresh one on the same aggregate. */
    method ReplayEvent(req: Request, eventId: string) returns (outcome: Outcome)
      modifies this, events, state, idempotency
      ensures (View(), outcome) == Finish(StageReplay(old(View()), req, eventId, None), req)
      decreases SagaRank(req), 2
    {
      hide FollowUp, Committed, CurrentVersion, Record, Apply, Answered;
      var found := FindLogged(eventId);
      if found.None? { return Ok(Execution(Response(404, Str("EVENT_NOT_FOUND")), [], false)); }
      var event := found.value;
      var owner := Find(program, event.boundary);
      if owner.None? { return Ok(Execution(Response(422, Str("EVENT_REPLAY_UNSUPPORTED")), [], false)); }
      var replay := ReplayRequest(req, owner.value, event);
      var tx := new Transaction(state.values);
      var version :- NextSequence(event.aggregate, tx);
      var replayed := Replayed(event, replay, version);
      RecordIsApply(owner.value, replayed, tx.Value());
      var _ :- ApplyEvent(owner.value, replayed, tx);
      var response :- program.present(replay, StateOf(tx.states, event.aggregate));
      var _ :- program.onCommit(CommitContext(replay, StateOf(tx.states, event.aggregate), [replayed], response));
      var committed := replayed.(response := Some(response));
      if req.controls.dryRun { return Ok(Execution(response, [committed], false)); }
      Commit(tx, [committed]);
      var _ :- PostCommitOrDefer(PostCommit(replay, [committed], response));
      return Ok(Execution(response, [committed], true));
    }

    method FindLogged(eventId: string) returns (found: Option<Event>)
      ensures found == FindEvent(events.values, eventId)
    {
      var i := 0;
      while i < |events.values|
        invariant 0 <= i <= |events.values|
        invariant FindEvent(events.values, eventId) == FindEvent(events.values[i..], eventId)
      {
        if events.values[i].id == eventId { return Some(events.values[i]); }
        i := i + 1;
      }
      return None;
    }

    method ExecuteQuery(b: Boundary, req: Request) returns (outcome: Outcome)
      ensures outcome == AnswerQuery(View(), b, req)
    {
      hide Reduction.ReadStateAtVersion;
      var response;
      if req.command.target.Some? && req.controls.readAtVersion.Some? {
        var past :- ReadStateAtVersion(b, req.command.target.value, req.controls.readAtVersion.value);
        response :- program.present(req, past);
      } else {
        response :- program.list(req, state.values, aggregateBoundaries);
      }
      return Ok(Execution(response, [], false));
    }

    /** A query, or the replay it asks for; a replay's entry is stored only when it succeeded. */
    method RunQuery(b: Boundary, req: Request, key: Option<string>) returns (outcome: Outcome)
      requires req.command.intent == Query
      modifies this, events, state, idempotency
      ensures (View(), outcome) == Finish(StageAdmitted(old(View()), b, req, key), req)
      decreases SagaRank(req), 3
    {
      hide Finish, AnswerQuery, StoreEntry, Reissue;
      if req.controls.replayEvent.None? {
        outcome := ExecuteQuery(b, req);
        FinishSettled(View(), outcome, req);
        return;
      }
      ReplayKeys(View(), b, req, key);
      outcome := ReplayEvent(req, req.controls.replayEvent.value);
      if key.Some? && outcome.Ok? && Successful(outcome.value.response) && !req.controls.dryRun {
        StoreIdempotency(key.value, program.fingerprint(req), outcome.value, TtlSeconds(program));
      }
    }

    /** A mutation under its locks; the idempotency check is repeated once they are held. */
    method RunMutation(b: Boundary, req: Request, key: Option<string>) returns (outcome: Outcome)
      requires req.command.intent != Query
      modifies this, events, state, idempotency
      ensures (View(), outcome) == Finish(LockedStage(old(View()), b, req, key), req)
      decreases SagaRank(req), 3
    {
      hide Finish, Cached, CheckFingerprint, StoreEntry, Transact, StageAdmitted;
      var identity := Identify(b, req);
      if identity.Err? {
        FinishSettled(View(), Err(identity.error), req);
        return Err(identity.error);
      }
      if key.Some? {
        var checked := CheckIdempotencyFingerprint(key.value, req);
        if checked.Err? {
          FinishSettled(View(), Err(checked.error), req);
          return Err(checked.error);
        }
        var cached := CachedIdempotency(key.value, req);
        if cached.Some? {
          outcome := Ok(cached.value.(committed := false));
          FinishSettled(View(), outcome, req);
          return;
        }
      }
      MutationKeys(View(), b, req, key);
      outcome := ExecuteMutation(Targeted(req, identity.value), identity.value);
      if key.Some? && outcome.Ok? && !req.controls.dryRun {
        StoreIdempotency(key.value, program.fingerprint(req), outcome.value, TtlSeconds(program));
      }
    }

    method Identify(b: Boundary, req: Request) returns (identity: Result<Id, RuntimeError>)
      ensures identity == ResolveIdentity(b, req)
    {
      identity := match req.command.target case Some(id) => Ok(id) case None => b.identify(req);
    }

    /** A request under the barrier. */
    method ExecuteUnlocked(req: Request) returns (outcome: Outcome)
      modifies this, events, state, idempotency
      ensures (View(), outcome) == Runtime.Execute(old(View()), req)
      decreases SagaRank(req), 4
    {
      hide Finish, StageAdmitted, CheckFingerprint, Cached, FollowUp, Conclude;
      ExecuteIsFinish(View(), req);
      if !initialized {
        FinishSettled(View(), Err(NOT_INITIALIZED), req);
        return Err(NOT_INITIALIZED);
      }
      var owner := Find(program, req.command.boundary);
      if owner.None? {
        var routed := program.route(req);
        outcome := match routed case Ok(response) => Ok(Execution(response, [], false)) case Err(e) => Err(e);
        FinishSettled(View(), outcome, req);
        return;
      }
      match program.admit(req, CurrentState(req, state.values)) {
        case Answer(response) =>
          outcome := Ok(Execution(response, [], false));
          FinishSettled(View(), outcome, req);
          return;
        case Refuse(e) =>
          outcome := Err(e);
          FinishSettled(View(), outcome, req);
          return;
        case Proceed =>
      }
      var key := IdempotencyKey(program, req);
      if key.Some? {
        ghost var start := View();
        var checked := CheckIdempotencyFingerprint(key.value, req);
        if checked.Err? {
          outcome := Err(checked.error);
          FinishSettled(View(), outcome, req);
          return;
        }
        var cached := CachedIdempotency(key.value, req);
        if cached.Some? {
          outcome := Ok(cached.value.(committed := false));
          FinishSettled(View(), outcome, req);
          return;
        }
        if req.command.intent != Query { CheckedTwice(start, owner.value, key.value, req); }
      }
      if req.command.intent == Query {
        outcome := RunQuery(owner.value, req, key);
      } else {
        if key.None? { UnkeyedLock(View(), owner.value, req); }
        outcome := RunMutation(owner.value, req, key);
      }
    }

    // ----------------------------------------------------------- sagas

    method AppendSagaEvent(saga: Saga, instance: Id, mark: Mark, req: Request)
      modifies events
      ensures View() == AppendMark(old(View()), saga, instance, mark, req)
    {
      hide MarkPayload, MarkKind;
      var version := events.CurrentSequenceVersion(instance);
      events.Append([Event(req.supply.uuid(req.scope, ForEvent, |events.values|), SAGA_BOUNDARY, instance,
                           MarkKind(mark),
                           MarkPayload(saga, mark), req.supply.now(req.scope, |events.values|), version + 1, None,
                           Some(Mutation), None, None)]);
    }

    method RunSteps(saga: Saga, instance: Id, ctx: SagaContext)
      returns (context: SagaContext, completed: seq<CompletedStep>, failure: Option<(nat, RuntimeError)>)
      modifies this, events, state, idempotency
      ensures var run := Runtime.RunSteps(old(View()), saga, instance, ctx, [], 0);
              View() == run.world && context == run.context && completed == run.completed && failure == run.failure
      decreases 1, 0, 0
    {
      hide ExecutePlain, AppendMark, Runtime.Execute;
      ghost var start := View();
      context, completed := ctx, [];
      var index := 0;
      while index < |saga.steps|
        invariant 0 <= index <= |saga.steps|
        invariant SameRun(Runtime.RunSteps(start, saga, instance, ctx, [], 0),
                          Runtime.RunSteps(View(), saga, instance, context, completed, index))
      {
        var step := saga.steps[index];
        var command := NextCommand(step, context);
        if command.Err? { return context, completed, Some((index, command.error)); }
        SwitchedOff(View(), command.value);
        var result := ExecuteUnlocked(command.value);
        if result.Err? { return context, completed, Some((index, result.error)); }
        AppendSagaEvent(saga, instance, StepCompleted(index), context.commit.request);
        context := context.(steps := context.steps + [(step.name, result.value.response)]);
        completed := completed + [CompletedStep(index, command.value.command.target)];
        index := index + 1;
      }
      failure := None;
    }

    method NextCommand(step: SagaStep, ctx: SagaContext) returns (command: Result<Request, RuntimeError>)
      ensures command == StepRequest(View(), ctx.commit.request, step, ctx)
      ensures command.Ok? ==> command.value.effects.skipSagas
    {
      var target :- step.target(ctx);
      var payload :- step.payload(ctx);
      return Ok(Internal(ctx.commit.request, step.boundary, step.intent, step.operation, target, payload,
                         step.path(target)));
    }

    method Undoing(step: SagaStep, compensation: Compensation, entry: CompletedStep, ctx: SagaContext)
      returns (command: Result<Request, RuntimeError>)
      ensures command == CompensationRequest(View(), ctx.commit.request, step, compensation, entry, ctx)
      ensures command.Ok? ==> command.value.effects.skipSagas
    {
      var target := entry.target;
      if compensation.target.Some? {
        target :- compensation.target.value(ctx);
      }
      var payload :- compensation.payload(ctx);
      return Ok(Internal(ctx.commit.request, step.boundary, compensation.intent, compensation.operation, target,
                         payload, compensation.path(target)));
    }

    function Internal(req: Request, boundary: string, intent: Intent, operation: string, target: Option<Id>,
                      payload: Object,
                      path: string): (command: Request)
      reads this, events, state, idempotency
      ensures command == InternalRequest(View(), req, boundary, intent, operation, target, payload, path)
    {
      var scope := req.scope + |events.values| + 1;
      req.(command := req.command.(id := req.supply.uuid(scope, ForCommand, 0), boundary := boundary, intent := intent,
                                   operation := operation, target := target, payload := payload, origin := Secondary,
                                   depth := req.command.depth + 1, path := path),
           effects := req.effects.(skipSagas := true), scope := scope)
    }

    /** Completed steps in reverse; a compensation that throws is logged and the next one runs. */
    method Compensate(saga: Saga, instance: Id, ctx: SagaContext, completed: seq<CompletedStep>) returns (done: Done)
      requires WithinSteps(saga, completed)
      modifies this, events, state, idempotency
      ensures var undo := Runtime.Compensate(old(View()), saga, instance, ctx, completed);
              View() == undo.world && done == undo.done
      decreases 1, 0, 0
    {
      hide ExecutePlain, AppendMark, Runtime.Execute;
      ghost var start := View();
      var left := |completed|;
      assert completed[..left] == completed;
      while left > 0
        invariant 0 <= left <= |completed|
        invariant SameUndo(Runtime.Compensate(start, saga, instance, ctx, completed),
                           Runtime.Compensate(View(), saga, instance, ctx, completed[..left]))
      {
        var entry := completed[left - 1];
        assert completed[..left][..left - 1] == completed[..left - 1];
        assert completed[..left][|completed[..left]| - 1] == entry;
        left := left - 1;
        var step := saga.steps[entry.index];
        if step.compensation.Some? {
          var command :- Undoing(step, step.compensation.value, entry, ctx);
          SwitchedOff(View(), command);
          var result := ExecuteUnlocked(command);
          AppendSagaEvent(saga, instance,
                          if result.Ok? then Compensated(entry.index) else CompensationFailed(entry.index),
                          ctx.commit.request);
        }
      }
      return Ok(());
    }

    method StartSaga(saga: Saga, instance: Id, ctx: SagaContext) returns (done: Done)
      modifies this, events, state, idempotency
      ensures var undo := RunStarted(old(View()), saga, instance, ctx); View() == undo.world && done == undo.done
      decreases 1, 0, 1
    {
      hide AppendMark, Runtime.RunSteps, Runtime.Compensate;
      AppendSagaEvent(saga, instance, Started, ctx.commit.request);
      StepsWithin(View(), saga, instance, ctx, [], 0);
      var context, completed, failure := RunSteps(saga, instance, ctx);
      if failure.None? {
        AppendSagaEvent(saga, instance, SagaCompleted, ctx.commit.request);
        return Ok(());
      }
      var activeStepIndex := failure.value.0;
      AppendSagaEvent(saga, instance, StepFailed(activeStepIndex), ctx.commit.request);
      var _ :- Compensate(saga, instance, context, completed);
      AppendSagaEvent(saga, instance, SagaFailed(activeStepIndex), ctx.commit.request);
      return Ok(());
    }

    method RunSagas(sagas: seq<Saga>, commit: CommitContext) returns (done: Done)
      modifies this, events, state, idempotency
      ensures (View(), done) == Runtime.RunSagas(old(View()), sagas, commit)
      decreases 1, 0, 2
    {
      hide RunStarted, Trigger;
      ghost var start := View();
      var i := 0;
      while i < |sagas|
        invariant 0 <= i <= |sagas|
        invariant Runtime.RunSagas(start, sagas, commit) == Runtime.RunSagas(View(), sagas[i..], commit)
      {
        assert sagas[i..][1..] == sagas[i + 1..];
        var saga := sagas[i];
        var trigger := Trigger(saga, commit.committed, commit.request);
        if trigger.Some? {
          var ctx := SagaContext(commit, trigger.value, []);
          var applies :- saga.condition(ctx);
          if applies {
            var _ :- StartSaga(saga, Instance(saga, commit.request), ctx);
          }
        }
        i := i + 1;
      }
      return Ok(());
    }

    // ----------------------------------------------------------- reads at a past version

    method ReadStateAtVersion(b: Boundary, id: Id, version: int) returns (read: Result<Option<Object>, RuntimeError>)
      ensures read == Reduction.ReadStateAtVersion(program, b, events.values, id, version)
    {
      hide HistoryThrough, ScopedEvents, Record, Apply;
      var history :- EventsThroughVersion(ScopedEvents(program, b, events.values, id), id, version);
      if history == [] { return Ok(None); }
      var tx := new Transaction(map[]);
      var i := 0;
      while i < |history|
        invariant 0 <= i <= |history| && tx.Valid() && fresh(tx)
        invariant FoldOwned(program, b, map[], history) == FoldOwned(program, b, tx.states, history[i..])
      {
        assert history[i..][1..] == history[i + 1..];
        var owner := match Find(program, history[i].boundary) case None => b case Some(o) => o;
        RecordIsApply(owner, history[i], tx.Value());
        var _ :- ApplyEvent(owner, history[i], tx);
        i := i + 1;
      }
      return Ok(StateOf(tx.states, id));
    }

    // ----------------------------------------------------------- batches and snapshots

    /** A request from outside: it holds the barrier throughout. */
    method Execute(req: Request) returns (outcome: Outcome)
      modifies this, events, state, idempotency
      ensures (View(), outcome) == Runtime.Execute(old(View()), req)
      ensures Quiet(old(View())) ==> Quiet(View())
    {
      hide Runtime.Execute, Graph, WellFormed;
      ExecuteKeeps(View(), req);
      outcome := ExecuteUnlocked(req);
    }

    method ExecuteItems(requests: seq<Request>) returns (results: Result<seq<Execution>, RuntimeError>)
      modifies this, events, state, idempotency
      ensures (View(), results) == RunItems(old(View()), requests)
    {
      hide Runtime.Execute;
      ghost var start := View();
      var sofar: seq<Execution>, i := [], 0;
      ItemsOntoNothing(RunItems(start, requests));
      while i < |requests|
        invariant 0 <= i <= |requests|
        invariant RunItems(start, requests) == ItemsOnto(sofar, RunItems(View(), requests[i..]))
      {
        assert requests[i..][1..] == requests[i + 1..];
        var result := ExecuteUnlocked(requests[i]);
        if result.Err? { return Err(result.error); }
        ItemsOntoTwice(sofar, result.value, RunItems(View(), requests[i + 1..]));
        sofar := sofar + [result.value];
        i := i + 1;
      }
      assert sofar + [] == sofar;
      return Ok(sofar);
    }

    method FlushBatchIdempotency(pending: map<string, PendingEntry>)
      modifies `idempotencyFingerprints, idempotency
      ensures View() == FlushKeys(old(View()), pending)
    {
      hide PendingPrints, PendingEntries, PrintsWith, EntriesWith, Lifetime;
      ghost var prints, entries := idempotencyFingerprints, idempotency.values;
      FlushedNothing(prints, entries, pending, clock);
      var keys := pending.Keys;
      assert pending.Keys - keys == {};
      while keys != {}
        invariant keys <= pending.Keys
        invariant idempotencyFingerprints == PrintsWith(prints, pending, pending.Keys - keys)
        invariant idempotency.values == EntriesWith(entries, pending, pending.Keys - keys, clock)
        decreases |keys|
      {
        var key: string :| key in keys;
        FlushedOne(prints, entries, pending, pending.Keys - keys, key, clock);
        assert pending.Keys - (keys - {key}) == pending.Keys - keys + {key};
        idempotencyFingerprints := idempotencyFingerprints[key := pending[key].fingerprint];
        idempotency.Set(key, pending[key].result, pending[key].ttlSeconds, clock);
        keys := keys - {key};
      }
      assert pending.Keys - keys == pending.Keys;
      FlushedAll(prints, entries, pending, clock);
    }

    method FlushPostCommits(posts: seq<PostCommit>) returns (done: Done)
      modifies this, events, state, idempotency
      ensures (View(), done) == RunPosts(old(View()), posts)
    {
      hide FollowUp;
      ghost var start := View();
      var i := 0;
      while i < |posts|
        invariant 0 <= i <= |posts|
        invariant RunPosts(start, posts) == RunPosts(View(), posts[i..])
      {
        assert posts[i..][1..] == posts[i + 1..];
        var _ :- RunPostCommit(posts[i]);
        i := i + 1;
      }
      return Ok(());
    }

    method ExecuteAdmitted(requests: seq<Request>) returns (results: Result<seq<Execution>, RuntimeError>)
      modifies this, events, state, idempotency
      ensures (View(), results) == AdmittedItems(old(View()), requests)
    {
      hide RunItems;
      var _ :- program.admitBatch(requests);
      results := ExecuteItems(requests);
    }

    method RunBatch(requests: seq<Request>) returns (results: Result<seq<Execution>, RuntimeError>)
      modifies this, events, state, idempotency
      ensures (View(), results) == BatchPhases(old(View()), requests)
    {
      hide RunPosts, FlushKeys, AdmittedItems;
      results := ExecuteAdmitted(requests);
      var batch := activeBatch;
      activeBatch := None;
      if results.Ok? && batch.Some? {
        FlushBatchIdempotency(batch.value.idempotency);
        var _ :- FlushPostCommits(batch.value.postCommits);
      }
    }

    /** A batch: item by item, then its deferred keys, then its deferred post-commit work. Whatever
        throws in a transactional batch, the checkpoint is restored. */
    method ExecuteBatch(requests: seq<Request>, transactional: bool)
      returns (results: Result<seq<Execution>, RuntimeError>)
      modifies this, events, state, idempotency
      ensures (View(), results) == Runtime.ExecuteBatch(old(View()), requests, transactional)
      ensures Quiet(old(View())) ==> Quiet(View())
    {
      hide Runtime.ExecuteBatch, BatchPhases, Runtime.Restore, Quiet;
      if Quiet(View()) { ExecuteBatchQuiet(View(), requests, transactional); }
      BatchUnfolds(View(), requests, transactional);
      if activeBatch.Some? { return Err(NESTED_BATCH); }
      var checkpoint := TakeSnapshot();
      activeBatch := if transactional then Some(Batch([], map[])) else None;
      results := RunBatch(requests);
      if results.Err? && transactional { Restore(checkpoint); }
    }

    method TakeSnapshot() returns (snapshot: Snapshot)
      ensures snapshot == Capture(View())
    {
      snapshot := Snapshot(state.values, events.values, projections);
    }

    method Restore(snapshot: Snapshot)
      modifies this, events, state
      ensures View() == Runtime.Restore(old(View()), snapshot)
    {
      events.Clear();
      events.Append(snapshot.log);
      LoadStates(snapshot.states);
      projections := snapshot.projections;
      aggregateBoundaries := map[];
      ClaimHistory(snapshot.log);
    }

    method LoadStates(shadow: States)
      modifies state
      ensures state.values == shadow
    {
      state.Clear();
      var ids := shadow.Keys;
      while ids != {}
        invariant ids <= shadow.Keys
        invariant Installed(shadow, state.values, ids)
        decreases |ids|
      {
        var id: Id :| id in ids;
        state.Set(id, shadow[id]);
        ids := ids - {id};
      }
    }

    method ClaimHistory(history: seq<Event>)
      modifies `aggregateBoundaries
      ensures aggregateBoundaries == ClaimAll(old(aggregateBoundaries), history)
    {
      var i := 0;
      while i < |history|
        invariant 0 <= i <= |history|
        invariant ClaimAll(old(aggregateBoundaries), history) == ClaimAll(aggregateBoundaries, history[i..])
      {
        var event := history[i];
        if event.aggregate !in aggregateBoundaries {
          aggregateBoundaries := aggregateBoundaries[event.aggregate := event.boundary];
        }
        i := i + 1;
      }
    }

    // ----------------------------------------------------------- initialization and replacement

    method SeedEvents() returns (baseline: seq<Event>)
      ensures baseline == Baselines(program.boundaries)
    {
      hide Baseline;
      baseline := [];
      var i := 0;
      assert [] + Baselines(program.boundaries) == Baselines(program.boundaries);
      while i < |program.boundaries|
        invariant 0 <= i <= |program.boundaries|
        invariant baseline + Baselines(program.boundaries[i..]) == Baselines(program.boundaries)
      {
        var boundary := program.boundaries[i];
        ghost var before := baseline;
        var index := 0;
        while index < |boundary.seeds|
          invariant 0 <= index <= |boundary.seeds|
          invariant baseline == before + BoundaryBaselines(boundary)[..index]
        {
          baseline := baseline + [Baseline(boundary.name, boundary.seeds[index], index)];
          index := index + 1;
        }
        assert BoundaryBaselines(boundary)[..index] == BoundaryBaselines(boundary);
        i := i + 1;
      }
      assert baseline + [] == baseline;
    }

    /** Fold a history into fresh states; events of unknown boundaries are skipped. */
    method FoldHistory(history: seq<Event>, tx: Transaction) returns (done: Done)
      requires tx.Valid()
      modifies tx
      ensures match Fold(program, old(tx.states), history)
              case Ok(states) => done.Ok? && tx.states == states
              case Err(e) => done == Err(e)
    {
      hide Record, Apply, Find;
      ghost var start := tx.states;
      var i := 0;
      while i < |history|
        invariant 0 <= i <= |history| && tx.Valid()
        invariant Fold(program, start, history) == Fold(program, tx.states, history[i..])
      {
        assert history[i..][1..] == history[i + 1..];
        var owner := Find(program, history[i].boundary);
        if owner.Some? {
          RecordIsApply(owner.value, history[i], tx.Value());
          var _ :- ApplyEvent(owner.value, history[i], tx);
        }
        i := i + 1;
      }
      return Ok(());
    }

    /** Over cleared in-memory stores: log the seeds, derive the states, the index and projections. */
    method Initialize() returns (done: Done)
      requires events.values == [] && state.values == map[] && aggregateBoundaries == map[] && projections == map[]
      requires !initialized
      modifies this, events, state
      ensures View() == Runtime.Initialize(old(View()))
      ensures done.Ok? <==> initialized
    {
      hide Fold, Baselines, ClaimAll, Project;
      var history := SeedEvents();
      events.Append(history);
      var tx := new Transaction(map[]);
      var _ :- FoldHistory(history, tx);
      LoadStates(tx.states);
      ClaimHistory(history);
      RunProjections(NotSaga(history), OfRebuild(history));
      initialized := true;
      return Ok(());
    }

    method ClearStores()
      modifies this, events, state, idempotency
      ensures View() == Cleared(old(View()), program).(batch := activeBatch)
      ensures program == old(program) && activeBatch == old(activeBatch)
    {
      events.Clear();
      state.Clear();
      idempotency.Clear();
      idempotencyFingerprints, clock, projections, aggregateBoundaries := map[], 0, map[], map[];
    }

    /** reset() takes no barrier, so it is only called between requests. */
    method Reset(hookFails: bool) returns (done: Done)
      requires activeBatch.None?
      modifies this, events, state, idempotency
      ensures View() == Runtime.Reset(old(View()), hookFails)
    {
      hide Runtime.Initialize;
      ClearStores();
      if hookFails { return Err(HOOK_FAILED); }
      initialized := false;
      InitializeIgnoresReady(old(View()), program);
      done := Initialize();
    }

    method ReplaceDiscardingEvents(next: Program, hookFails: bool) returns (done: Done)
      requires activeBatch.None?
      modifies this, events, state, idempotency
      ensures View() == ReplaceDiscarding(old(View()), next, hookFails)
    {
      hide Runtime.Initialize;
      if !initialized { return Err(NOT_INITIALIZED); }
      program := next;
      ClearStores();
      if hookFails { return Err(HOOK_FAILED); }
      initialized := false;
      InitializeIgnoresReady(old(View()), program);
      done := Initialize();
    }

    /** Project the log into the stores under `next`; nothing else of the engine changes. */
    method Reproject(next: Program, log: seq<Event>, history: seq<Event>) returns (done: Done)
      modifies this, state
      ensures View() == old(View()).(program := next, states := state.values, owners := aggregateBoundaries,
                                     projections := projections)
      ensures match Fold(next, map[], history)
              case Err(e) => done == Err(e)
              case Ok(states) =>
                done.Ok? && state.values == states && aggregateBoundaries == ClaimAll(map[], history)
                && projections == Project(next.projections, OfRebuild(log), map[], history)
    {
      hide Fold, ClaimAll, Project;
      program := next;
      state.Clear();
      projections, aggregateBoundaries := map[], map[];
      var tx := new Transaction(map[]);
      var _ :- FoldHistory(history, tx);
      ClaimHistory(history);
      LoadStates(tx.states);
      RunProjections(history, OfRebuild(log));
      return Ok(());
    }

    /** Hot replacement: install the new program only if every logged event still folds under it. */
    method ReplaceProgram(next: Program, validationFails: bool) returns (done: Done)
      requires activeBatch.None?
      modifies this, events, state
      ensures View() == ReplacePreserving(old(View()), next, validationFails)
      ensures Quiet(old(View())) && WellFormed(next) ==> Quiet(View())
    {
      hide Runtime.Restore, Fold, Recognizes, ClaimAll, Project, Quiet, WellFormed, NotSaga;
      if Quiet(View()) && WellFormed(next) { ReplacePreservingQuiet(View(), next, validationFails); }
      if !initialized { return Err(NOT_INITIALIZED); }
      var previous := program;
      var checkpoint := TakeSnapshot();
      var recognized := RecognizesAll(next, checkpoint.log);
      done := Err(UNKNOWN_BOUNDARY);
      if recognized {
        done := Reproject(next, checkpoint.log, NotSaga(checkpoint.log));
        if done.Ok? && validationFails { done := Err(HOOK_FAILED); }
      }
      if done.Err? {
        program := previous;
        RestoreFrom(old(View()), View(), checkpoint);
        Restore(checkpoint);
      }
    }

    static method RecognizesAll(next: Program, log: seq<Event>) returns (all: bool)
      ensures all == Recognizes(next, log)
    {
      hide Find;
      var i := 0;
      while i < |log|
        invariant 0 <= i <= |log|
        invariant Recognizes(next, log[..i])
      {
        if log[i].boundary != SAGA_BOUNDARY && Find(next, log[i].boundary).None? { return false; }
        i := i + 1;
      }
      assert log[..i] == log;
      return true;
    }
  }

  /** Everything a request does once it is staged: post-commit work now or after the batch, and the
      idempotency entry. */
  ghost function Finish(stage: Stage, req: Request): (World, Outcome) {
    if stage.Settled? then (stage.world, stage.outcome)
    else
      var after := if stage.world.batch.Some? then (Defer(stage.world, stage.post), Ok(()))
                   else FollowUp(stage.world, stage.post);
      Conclude(after, stage, req)
  }

  ghost function MutationStage(w: World, req: Request, id: Id): Stage {
    match Transact(w, req, id)
    case Err(e) => Settled(w, Err(e))
    case Ok((tx, response)) =>
      var events := Answered(tx.events, response);
      if req.controls.dryRun then Settled(w, Ok(Execution(response, events, false)))
      else Staged(Committed(w, tx.states, events), PostCommit(req, events, response),
                  Execution(response, events, true), None)
  }

  ghost function SagaRank(req: Request): nat {
    if req.effects.skipSagas then 0 else 1
  }

  ghost predicate SameRun(a: StepsRun, b: StepsRun) {
    a.world == b.world && a.context == b.context && a.completed == b.completed && a.failure == b.failure
  }

  ghost predicate SameUndo(a: Undo, b: Undo) {
    a.world == b.world && a.done == b.done
  }

  /** With sagas switched off, a request is its announcements only. */
  lemma SwitchedOff(w: World, req: Request)
    requires req.effects.skipSagas
    ensures Execute(w, req) == ExecutePlain(w, req)
  {
    hide StageRequest, Runtime.Announce, Runtime.RunSagas, Remember;
    if StageRequest(w, req).Staged? { StagedKeepsEffects(w, req); }
  }

  /** The idempotency entry is the last thing a committed request writes. */
  lemma KeyedFinish(stage: Stage, req: Request)
    requires stage.Staged?
    ensures var (w, outcome) := Finish(stage.(key := None), req);
            Finish(stage, req) == (if outcome.Ok? then Remember(w, stage.key, req, outcome.value) else w, outcome)
    ensures Finish(stage.(key := None), req).1.Ok? ==> Finish(stage.(key := None), req).1.value == stage.result
  {
    hide FollowUp, StoreEntry;
  }

  lemma FinishSettled(w: World, outcome: Outcome, req: Request)
    ensures Finish(Settled(w, outcome), req) == (w, outcome)
  {}

  lemma ExecuteIsFinish(w: World, req: Request)
    ensures Runtime.Execute(w, req) == Finish(StageRequest(w, req), req)
  {
    hide StageRequest, FollowUp, Conclude;
  }

  /** Replaying with a key is replaying without one and then storing a successful result. */
  lemma ReplayKeys(w: World, b: Boundary, req: Request, key: Option<string>)
    requires req.command.intent == Query && req.controls.replayEvent.Some?
    ensures var (w1, outcome) := Finish(StageReplay(w, req, req.controls.replayEvent.value, None), req);
            Finish(StageAdmitted(w, b, req, key), req)
            == (if key.Some? && outcome.Ok? && Successful(outcome.value.response) && !req.controls.dryRun
                then StoreEntry(w1, key.value, w1.program.fingerprint(req), outcome.value, TtlSeconds(w1.program))
                 else w1,
                outcome)
  {
    hide Finish, Reissue, Committed, StoreEntry;
    var stage := StageReplay(w, req, req.controls.replayEvent.value, None);
    var keyed := StageAdmitted(w, b, req, key);
    if stage.Staged? {
      KeyedFinish(keyed, req);
      assert stage == keyed.(key := None);
    } else {
      FinishSettled(stage.world, stage.outcome, req);
    }
  }

  /** Mutating with a key is mutating without one and then storing the result. */
  lemma MutationKeys(w: World, b: Boundary, req: Request, key: Option<string>)
    requires req.command.intent != Query
    ensures var identity := ResolveIdentity(b, req);
            match identity
            case Err(e) => Finish(StageAdmitted(w, b, req, key), req) == (w, Err(e))
            case Ok(id) =>
              var (w1, outcome) := Finish(MutationStage(w, Targeted(req, id), id), Targeted(req, id));
              Finish(StageAdmitted(w, b, req, key), req)
              == (if key.Some? && outcome.Ok? && !req.controls.dryRun
                  then StoreEntry(w1, key.value, w1.program.fingerprint(req), outcome.value, TtlSeconds(w1.program))
                 else w1,
                  outcome)
  {
    hide Finish, Transact, Committed, StoreEntry;
    var keyed := StageAdmitted(w, b, req, key);
    if keyed.Staged? {
      var id := ResolveIdentity(b, req).value;
      KeyedFinish(keyed, req);
      assert MutationStage(w, Targeted(req, id), id) == keyed.(key := None);
      UnkeyedFinish(keyed.(key := None), req, Targeted(req, id));
    } else {
      FinishSettled(keyed.world, keyed.outcome, req);
      if ResolveIdentity(b, req).Ok? {
        FinishSettled(keyed.world, keyed.outcome, Targeted(req, ResolveIdentity(b, req).value));
      }
    }
  }

  lemma UnkeyedFinish(stage: Stage, req: Request, other: Request)
    requires stage.Staged? && stage.key.None?
    ensures Finish(stage, req) == Finish(stage, other)
  {
    hide FollowUp;
  }

  /** A mutation once its locks are held: the idempotency check again, then the mutation. */
  ghost function LockedStage(w: World, b: Boundary, req: Request, key: Option<string>): Stage {
    if ResolveIdentity(b, req).Err? then Settled(w, Err(ResolveIdentity(b, req).error))
    else if key.None? then StageAdmitted(w, b, req, None)
    else StageKeyed(w, b, req, key.value)
  }

  lemma UnkeyedLock(w: World, b: Boundary, req: Request)
    requires req.command.intent != Query
    ensures LockedStage(w, b, req, None) == StageAdmitted(w, b, req, None)
  {
    hide Transact, Committed;
  }

  /** The check repeated under the lock sees what the first one left. */
  lemma CheckedTwice(w: World, b: Boundary, key: string, req: Request)
    requires CheckFingerprint(w, key, req).Ok? && req.command.intent != Query
    requires Cached(CheckFingerprint(w, key, req).value, key, req).None?
    ensures var checked := CheckFingerprint(w, key, req).value;
            LockedStage(checked, b, req, Some(key)) == StageAdmitted(checked, b, req, Some(key))
  {
    hide Transact, Committed;
    var checked := CheckFingerprint(w, key, req).value;
    if checked != w { assert checked.fingerprints == w.fingerprints - {key}; }
  }

  type ItemsRun = (World, Result<seq<Execution>, RuntimeError>)

  ghost function ItemsOnto(sofar: seq<Execution>, rest: ItemsRun): ItemsRun {
    (rest.0, match rest.1 case Ok(more) => Ok(sofar + more) case Err(e) => Err(e))
  }

  lemma ItemsOntoNothing(rest: ItemsRun)
    ensures ItemsOnto([], rest) == rest
  {
    if rest.1.Ok? { assert [] + rest.1.value == rest.1.value; }
  }

  lemma ItemsOntoTwice(sofar: seq<Execution>, result: Execution, rest: ItemsRun)
    ensures ItemsOnto(sofar, (rest.0, match rest.1 case Err(e) => Err(e) case Ok(more) => Ok([result] + more)))
         == ItemsOnto(sofar + [result], rest)
  {
    if rest.1.Ok? { assert sofar + ([result] + rest.1.value) == sofar + [result] + rest.1.value; }
  }

  ghost function AdmittedItems(w: World, requests: seq<Request>): ItemsRun {
    match w.program.admitBatch(requests)
    case Err(e) => (w, Err(e))
    case Ok(_) => RunItems(w, requests)
  }

  /** A batch once begun: run the items, close it, flush its keys, do its post-commit work. */
  ghost function BatchPhases(w: World, requests: seq<Request>): ItemsRun {
    var (ran, results) := AdmittedItems(w, requests);
    if results.Err? || ran.batch.None? then (Close(ran), results)
    else
      var (followed, done) := RunPosts(FlushKeys(Close(ran), ran.batch.value.idempotency), ran.batch.value.postCommits);
      (followed, match done case Err(e) => Err(e) case Ok(_) => results)
  }

  lemma BatchUnfolds(w: World, requests: seq<Request>, transactional: bool)
    ensures w.batch.Some? ==> Runtime.ExecuteBatch(w, requests, transactional) == (w, Err(NESTED_BATCH))
    ensures w.batch.None? ==>
      var begun := w.(batch := if transactional then Some(Batch([], map[])) else None);
      var (after, results) := BatchPhases(begun, requests);
      Runtime.ExecuteBatch(w, requests, transactional)
      == (if results.Err? && transactional then Runtime.Restore(after, Capture(w)) else after, results)
  {
    hide RunItems, RunPosts, Graph, WellFormed, FlushKeys, Runtime.Restore;
    if w.batch.None? {
      var begun := w.(batch := if transactional then Some(Batch([], map[])) else None);
      RunItemsKeeps(begun, requests);
      if transactional && w.program.admitBatch(requests).Err? { assert Close(begun) == w; }
      if !transactional { assert begun == w; }
    }
  }

  function Only(pending: map<string, PendingEntry>, keys: set<string>): map<string, PendingEntry> {
    map k | k in pending && k in keys :: pending[k]
  }

  ghost function PrintsWith(prints: map<string, string>, pending: map<string, PendingEntry>, done: set<string>)
    : map<string, string>
  {
    prints + PendingPrints(Only(pending, done))
  }

  ghost function EntriesWith(entries: map<string, Entry>, pending: map<string, PendingEntry>, done: set<string>,
                             clock: int)
    : map<string, Entry>
  {
    entries + PendingEntries(Only(pending, done), clock)
  }

  lemma FlushedNothing(prints: map<string, string>, entries: map<string, Entry>, pending: map<string, PendingEntry>,
                       clock: int)
    ensures PrintsWith(prints, pending, {}) == prints && EntriesWith(entries, pending, {}, clock) == entries
  {}

  lemma FlushedAll(prints: map<string, string>, entries: map<string, Entry>, pending: map<string, PendingEntry>,
                   clock: int)
    ensures PrintsWith(prints, pending, pending.Keys) == prints + PendingPrints(pending)
    ensures EntriesWith(entries, pending, pending.Keys, clock) == entries + PendingEntries(pending, clock)
  {
    assert Only(pending, pending.Keys) == pending;
  }

  lemma FlushedOne(prints: map<string, string>, entries: map<string, Entry>, pending: map<string, PendingEntry>,
                   done: set<string>, key: string, clock: int)
    requires key in pending
    ensures PrintsWith(prints, pending, done)[key := pending[key].fingerprint]
         == PrintsWith(prints, pending, done + {key})
    ensures EntriesWith(entries, pending, done, clock)
              [key := Entry(pending[key].result, clock + Lifetime(pending[key].ttlSeconds))]
         == EntriesWith(entries, pending, done + {key}, clock)
  {
    hide Lifetime, Only, PendingPrints, PendingEntries;
    var before := Only(pending, done);
    OnlyOneMore(pending, done, key, clock);
    AddThenSet(prints, PendingPrints(before), key, pending[key].fingerprint);
    AddThenSet(entries, PendingEntries(before, clock), key,
               Entry(pending[key].result, clock + Lifetime(pending[key].ttlSeconds)));
  }

  lemma OnlyOneMore(pending: map<string, PendingEntry>, done: set<string>, key: string, clock: int)
    requires key in pending
    ensures var before, after := Only(pending, done), Only(pending, done + {key});
            && PendingPrints(after) == PendingPrints(before)[key := pending[key].fingerprint]
            && PendingEntries(after, clock)
               == PendingEntries(before, clock)
                    [key := Entry(pending[key].result, clock + Lifetime(pending[key].ttlSeconds))]
  {
    hide Lifetime;
  }

  lemma InitializeIgnoresReady(w: World, program: Program)
    ensures Runtime.Initialize(Cleared(w, program)) == Runtime.Initialize(Cleared(w, program).(ready := false))
  {
    hide Fold, Baselines, ClaimAll, Project;
  }

  /** Restoring overwrites everything a failed replacement touched. */
  lemma RestoreFrom(before: World, now: World, s: Snapshot)
    requires now == before.(log := now.log, states := now.states, owners := now.owners, projections := now.projections)
    ensures Runtime.Restore(now, s) == Runtime.Restore(before, s)
  {
    hide ClaimAll;
  }

  lemma RecordIsApply(b: Boundary, e: Event, tx: Tx)
    ensures match Apply(b, e, tx.states)
            case Ok(states) => Record(b, e, tx).Ok? && Record(b, e, tx).value.states == states && e.aggregate in states
            case Err(error) => Record(b, e, tx) == Err(error)
  {
    hide NextState;
  }

  ghost predicate SameClaim(after: Owners, before: Owners, id: Id) {
    (id in after <==> id in before) && (id in after ==> after[id] == before[id])
  }

  /** Part way through the commit loop: the aggregates in `done` have their new state. */
  ghost predicate HalfStates(now: States, before: States, shadow: States, done: set<Id>) {
    forall id: Id :: StateOf(now, id) == StateOf(if id in done then shadow else before, id)
  }

  ghost predicate HalfOwners(now: Owners, before: Owners, committed: seq<Event>, done: set<Id>) {
    forall id: Id :: SameClaim(now, if id in done then ClaimAll(before, committed) else before, id)
  }

  lemma HalfwayStart(states: States, shadow: States, owners: Owners, committed: seq<Event>)
    ensures HalfStates(states, states, shadow, {}) && HalfOwners(owners, owners, committed, {})
  {}

  function ClaimFirst(owners: Owners, committed: seq<Event>, id: Id): Owners {
    if EventsOf(committed, id) != [] && id !in owners then owners[id := EventsOf(committed, id)[0].boundary] else owners
  }

  lemma HalfwayStep(states: States, before: States, shadow: States, owners: Owners, earlier: Owners,
                    committed: seq<Event>,
                    done: set<Id>, id: Id)
    requires HalfStates(states, before, shadow, done) && HalfOwners(owners, earlier, committed, done)
    requires id in shadow && id !in done
    ensures HalfStates(states[id := shadow[id]], before, shadow, done + {id})
    ensures HalfOwners(ClaimFirst(owners, committed, id), earlier, committed, done + {id})
  {
    hide ClaimAll, EventsOf;
    ClaimAllAt(earlier, committed, id);
    assert SameClaim(owners, earlier, id);
    forall j: Id
      ensures SameClaim(ClaimFirst(owners, committed, id),
                        if j in done + {id} then ClaimAll(earlier, committed) else earlier, j)
    {
      assert SameClaim(owners, if j in done then ClaimAll(earlier, committed) else earlier, j);
    }
  }

  lemma HalfwayEnd(states: States, before: States, shadow: States, owners: Owners, earlier: Owners,
                   committed: seq<Event>)
    requires HalfStates(states, before, shadow, shadow.Keys) && HalfOwners(owners, earlier, committed, shadow.Keys)
    requires forall i :: 0 <= i < |committed| ==> committed[i].aggregate in shadow
    ensures forall id <- shadow :: id in states && states[id] == shadow[id]
    ensures owners == ClaimAll(earlier, committed)
  {
    hide ClaimAll, EventsOf;
    forall id: Id | id in shadow ensures id in states && states[id] == shadow[id] {
      assert StateOf(states, id) == StateOf(shadow, id);
    }
    forall id: Id ensures SameClaim(owners, ClaimAll(earlier, committed), id) {
      ClaimAllAt(earlier, committed, id);
      EventsOfAreMembers(committed, id);
      if id !in shadow {
        forall e | e in committed ensures e.aggregate != id {
          var i :| 0 <= i < |committed| && committed[i] == e;
        }
      }
    }
    SameEverywhere(owners, ClaimAll(earlier, committed));
  }

  /** The live states are the shadow states and some extra aggregates still to be deleted. */
  ghost predicate Installed(now: States, shadow: States, extra: set<Id>) {
    && (forall id: Id :: id in now <==> id in shadow || id in extra)
    && (forall id: Id :: id in shadow ==> id !in extra && id in now && now[id] == shadow[id])
  }

  lemma InstalledStart(now: States, shadow: States)
    requires forall id <- shadow :: id in now && now[id] == shadow[id]
    ensures Installed(now, shadow, now.Keys - shadow.Keys)
  {}

  lemma InstalledStep(now: States, shadow: States, extra: set<Id>, id: Id)
    requires Installed(now, shadow, extra) && id in extra
    ensures Installed(now - {id}, shadow, extra - {id})
  {}

  lemma InstalledEnd(now: States, shadow: States)
    requires Installed(now, shadow, {})
    ensures now == shadow
  {}

  lemma SameEverywhere(a: Owners, b: Owners)
    requires forall id: Id :: SameClaim(a, b, id)
    ensures a == b
  {
    forall id: Id ensures id in a <==> id in b {
      assert SameClaim(a, b, id);
    }
    forall id: Id | id in a ensures a[id] == b[id] {
      assert SameClaim(a, b, id);
    }
  }

  ghost function Onto(queue: seq<Request>, rest: Result<seq<Request>, RuntimeError>): Result<seq<Request>, RuntimeError>
  {
    match rest case Ok(more) => Ok(queue + more) case Err(e) => Err(e)
  }

  lemma OntoNothing(rest: Result<seq<Request>, RuntimeError>)
    ensures Onto([], rest) == rest
  {
    if rest.Ok? { assert [] + rest.value == rest.value; }
  }

  lemma OntoTwice(queue: seq<Request>, pushed: seq<Request>, rest: Result<seq<Request>, RuntimeError>)
    ensures Onto(queue, Onto(pushed, rest)) == Onto(queue + pushed, rest)
  {
    if rest.Ok? { assert queue + (pushed + rest.value) == queue + pushed + rest.value; }
  }

  lemma EmitNeedsEvent(p: Program, log: seq<Event>, b: Boundary, kind: string, ctx: Context, tx: Tx)
    ensures Transactions.CreateEvent(p, log, b, kind, ctx, tx, None).Err? ==>
            Emit(p, log, b, kind, ctx, tx) == Err(Transactions.CreateEvent(p, log, b, kind, ctx, tx, None).error)
  {
    hide Transactions.CreateEvent;
  }
}
