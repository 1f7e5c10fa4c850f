// What every step of a transaction keeps: the shadow states are the fold of the transaction's
// events over the states it began with, versions continue the log without a gap, and the reaction
// budget counts exactly the reactions that fired.
module TransactionInvariants {
  import opened Cascade
  import opened Domain
  import opened EventSourcing
  import opened Json
  import opened Reduction
  import opened Transactions
  import opened Wrappers

  ghost predicate Unanswered(p: Program, events: seq<Event>) {
    forall i :: 0 <= i < |events| ==>
      Find(p, events[i].boundary).Some? && events[i].response.None? && events[i].intent.Some?
  }

  /** States follow from events, and events continue the log. */
  ghost predicate Sound(p: Program, log: seq<Event>, base: States, tx: Tx) {
    && Fold(p, base, tx.events) == Ok(tx.states)
    && ExactVersions(log + tx.events)
    && Unanswered(p, tx.events)
  }

  /** One key per reaction fired, within the budget, and every event accounted for. */
  ghost predicate Counted(tx: Tx) {
    && |tx.reactionKeys| == tx.reactionEvents <= MAX_REACTION_EVENTS
    && |tx.events| == tx.direct + tx.reactionEvents
  }

  ghost predicate Grows(before: Tx, after: Tx) {
    && before.events <= after.events
    && before.reactionKeys <= after.reactionKeys
  }

  lemma BeginSound(p: Program, log: seq<Event>, states: States)
    requires ExactVersions(log)
    ensures Sound(p, log, states, Begin(states)) && Counted(Begin(states))
  {
    assert log + [] == log;
    FoldNone(p, states);
  }

  lemma CreatedEvent(p: Program, log: seq<Event>, b: Boundary, kind: string, ctx: Context, tx: Tx,
                     source: Option<Event>)
    requires ExactVersions(log + tx.events) && CreateEvent(p, log, b, kind, ctx, tx, source).Ok?
    ensures var e := CreateEvent(p, log, b, kind, ctx, tx, source).value;
            && e.boundary == b.name && e.kind == kind && e.response.None?
            && e.intent == Some(ctx.request.command.intent)
            && e.version == |EventsOf(log + tx.events, e.aggregate)| + 1
            && (ctx.request.command.target.Some? ==> e.aggregate == ctx.request.command.target.value)
  {
    hide NextVersion, CurrentVersion, ExactVersions, Definition, EventsOf;
    var req := ctx.request;
    var aggregate := match req.command.target
                     case Some(id) => id
                     case None => req.supply.uuid(req.scope, ForAggregate, tx.draws);
    NextVersionContinues(log, tx.events, aggregate);
  }

  lemma RecordAppends(b: Boundary, e: Event, tx: Tx)
    requires Record(b, e, tx).Ok?
    ensures var after := Record(b, e, tx).value;
            && after.events == tx.events + [e] && after.direct == tx.direct && after.handled == tx.handled
            && after.reactionKeys == tx.reactionKeys && after.reactionEvents == tx.reactionEvents
  {
    hide Apply;
  }

  lemma RecordSound(p: Program, log: seq<Event>, base: States, b: Boundary, e: Event, tx: Tx)
    requires Sound(p, log, base, tx) && Record(b, e, tx).Ok?
    requires Find(p, b.name) == Some(b) && e.boundary == b.name && e.response.None? && e.intent.Some?
    requires e.version == |EventsOf(log + tx.events, e.aggregate)| + 1
    ensures Sound(p, log, base, Record(b, e, tx).value)
  {
    hide Apply, Find, Fold, ExactVersions, EventsOf;
    var after := Record(b, e, tx).value;
    ExactAppendOne(log + tx.events, e);
    assert log + after.events == log + tx.events + [e];
    FoldAppend(p, base, tx.events, [e]);
    FoldOne(p, tx.states, e);
  }

  lemma FireSound(p: Program, log: seq<Event>, base: States, r: Reaction, event: Event, source: Request, tx: Tx)
    requires Sound(p, log, base, tx) && FireReaction(p, log, r, event, source, tx).Ok?
    requires Counted(tx) && tx.reactionEvents < MAX_REACTION_EVENTS
    ensures var after := FireReaction(p, log, r, event, source, tx).value.tx;
            Sound(p, log, base, after) && Counted(after) && Grows(tx, after)
  {
    hide CreateEvent, Record, Find, Fold, ExactVersions, EventsOf, Spread, ReactionTarget, ReactionKey, StateOf,
         Unanswered;
    var firing := FireReaction(p, log, r, event, source, tx).value;
    if firing.Fired? {
      var b := Find(p, r.boundary).value;
      var post := PostContext(source, StateOf(tx.states, event.aggregate), event, tx.events);
      var target := ReactionTarget(r, b, post, tx.draws).value;
      var key := ReactionKey(b, r, target);
      var fired := tx.(reactionKeys := tx.reactionKeys + {key}, reactionEvents := tx.reactionEvents + 1,
                       draws := tx.draws + 1);
      var payload := r.payload(post).value;
      var cause := ReactionRequest(r, target, payload, source, fired.draws);
      var ctx := Context(cause, StateOf(fired.states, target));
      CreatedEvent(p, log, b, r.emit, ctx, fired, Some(event));
      RecordSound(p, log, base, b, firing.event, fired);
      RecordAppends(b, firing.event, fired);
    }
  }

  lemma {:induction false} ReactSound(p: Program, log: seq<Event>, base: States, pending: seq<Reaction>, event: Event,
                                      source: Request, tx: Tx)
    requires Sound(p, log, base, tx) && Counted(tx) && React(p, log, pending, event, source, tx).Ok?
    ensures var after := React(p, log, pending, event, source, tx).value;
            && Sound(p, log, base, after) && Counted(after) && Grows(tx, after)
            && after.direct == tx.direct && after.handled == tx.handled
    decreases MAX_REACTION_EVENTS - tx.reactionEvents, |pending|
  {
    hide FireReaction, MatchingReactions, Sound, Counted;
    if pending != [] {
      FireSound(p, log, base, pending[0], event, source, tx);
      match FireReaction(p, log, pending[0], event, source, tx).value
      case Skipped(tx1) => ReactSound(p, log, base, pending[1..], event, source, tx1);
      case Fired(tx1, next, cause) =>
        ReactSound(p, log, base, MatchingReactions(p, next), next, cause, tx1);
        var tx2 := React(p, log, MatchingReactions(p, next), next, cause, tx1).value;
        ReactSound(p, log, base, pending[1..], event, source, tx2);
    }
  }

  lemma EmitSound(p: Program, log: seq<Event>, base: States, b: Boundary, kind: string, ctx: Context, tx: Tx)
    requires Sound(p, log, base, tx) && Counted(tx) && Find(p, b.name) == Some(b)
    requires Emit(p, log, b, kind, ctx, tx).Ok?
    ensures var after := Emit(p, log, b, kind, ctx, tx).value;
            && Sound(p, log, base, after) && Counted(after) && Grows(tx, after)
            && after.direct == tx.direct + 1 && after.handled == tx.handled
            && |after.events| > |tx.events|
            && (ctx.request.command.target.Some? ==>
                  after.events[|tx.events|].aggregate == ctx.request.command.target.value)
  {
    hide CreateEvent, MatchingReactions, Apply, React, Find, Fold, ExactVersions, EventsOf;
    var event := CreateEvent(p, log, b, kind, ctx, tx, None).value;
    CreatedEvent(p, log, b, kind, ctx, tx, None);
    RecordSound(p, log, base, b, event, tx);
    var recorded := Record(b, event, tx).value;
    var counted := recorded.(direct := recorded.direct + 1);
    if !ctx.request.effects.skipReactions {
      ReactSound(p, log, base, MatchingReactions(p, event), event, ctx.request, counted);
    }
  }

  lemma {:induction false} EmitAllSound(p: Program, log: seq<Event>, base: States, b: Boundary, kinds: seq<string>,
                                        ctx: Context, tx: Tx)
    requires Sound(p, log, base, tx) && Counted(tx) && Find(p, b.name) == Some(b)
    requires EmitAll(p, log, b, kinds, ctx, tx).Ok?
    ensures var after := EmitAll(p, log, b, kinds, ctx, tx).value;
            && Sound(p, log, base, after) && Counted(after) && Grows(tx, after)
            && after.direct == tx.direct + |kinds| && after.handled == tx.handled
    decreases |kinds|
  {
    hide Emit, Sound, Counted, Find;
    if kinds != [] {
      EmitSound(p, log, base, b, kinds[0], ctx, tx);
      EmitAllSound(p, log, base, b, kinds[1..], ctx, Emit(p, log, b, kinds[0], ctx, tx).value);
    }
  }

  lemma HandleSound(p: Program, log: seq<Event>, base: States, req: Request, tx: Tx)
    requires Sound(p, log, base, tx) && Counted(tx) && Handle(p, log, req, tx).Ok?
    ensures var after := Handle(p, log, req, tx).value.tx;
            && Sound(p, log, base, after) && Counted(after) && Grows(tx, after) && after.handled == tx.handled
  {
    hide Emit, EmitAll, CreateEvent, Sound, Counted, Find, DispatchAll;
    var b := Find(p, req.command.boundary).value;
    var ctx := Context(req, CurrentState(req, tx.states));
    match FindBehavior(b.behaviors, ctx)
    case None => EmitSound(p, log, base, b, GENERIC_UPDATE, ctx, tx);
    case Some(behavior) => EmitAllSound(p, log, base, b, behavior.emits(ctx).value, ctx, tx);
  }

  lemma {:induction false} QueueSound(p: Program, log: seq<Event>, base: States, queue: seq<Request>, limit: int,
                                      tx: Tx, first: Option<Response>)
    requires Sound(p, log, base, tx) && Counted(tx) && RunQueue(p, log, queue, limit, tx, first).Ok?
    ensures var after := RunQueue(p, log, queue, limit, tx, first).value.0;
            Sound(p, log, base, after) && Counted(after) && Grows(tx, after)
    decreases QueueCost(Branching(p), limit, queue)
  {
    hide Handle, Branching;
    if queue != [] {
      HandlingLowersCost(p, log, queue, limit, tx);
      HandleSound(p, log, base, queue[0], tx);
      var out := Handle(p, log, queue[0], tx).value;
      QueueSound(p, log, base, queue[1..] + out.dispatched, limit, out.tx.(handled := out.tx.handled + 1),
                 First(first, out.response));
    }
  }

  /** A command's whole transaction: every event it produced is folded into its states, versions
      run on from the log, and the reaction budget held. */
  lemma TransactionSound(p: Program, log: seq<Event>, states: States, req: Request)
    requires ExactVersions(log) && RunCommands(p, log, req, Begin(states)).Ok?
    ensures var (tx, response) := RunCommands(p, log, req, Begin(states)).value;
            Sound(p, log, states, tx) && Counted(tx) && response.Some?
  {
    hide Handle, Branching, Sound, Counted;
    BeginSound(p, log, states);
    QueueSound(p, log, states, [req], DepthLimit(req), Begin(states), None);
    var out := Handle(p, log, req, Begin(states)).value;
    assert [req][1..] == [];
    HandlingLowersCost(p, log, [req], DepthLimit(req), Begin(states));
    QueueOnlyAdds(p, log, [req][1..] + out.dispatched, DepthLimit(req), out.tx.(handled := out.tx.handled + 1),
                  First(None, out.response));
  }
}
