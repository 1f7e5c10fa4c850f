// One command's transaction as a function of the log, the state graph and the request: event
// creation, recursive reactions and the cascade queue (src/core/engine.ts: createEvent,
// enqueueReactions, runCommands). The imperative engine is proved to compute exactly this.
module Transactions {
  import opened Domain
  import opened EventSourcing
  import opened Json
  import opened Reduction
  import opened Sorting
  import opened Wrappers

  /** The shadow copy a command works on. `draws` counts identifiers taken from the supply;
      `handled` and `direct` count queue items and directly emitted events. */
  datatype Tx = Tx(
    states: States,
    events: seq<Event>,
    reactionKeys: set<string>,
    reactionEvents: nat,
    draws: nat,
    handled: nat,
    direct: nat)

  function Begin(states: States): Tx {
    Tx(states, [], {}, 0, 0, 0, 0)
  }

  const UNDECLARED_EVENT := RuntimeError(500, "event not declared")
  const UNKNOWN_BOUNDARY := RuntimeError(500, "unknown boundary")
  const BUDGET_EXCEEDED := RuntimeError(508, "reaction event budget exceeded")
  const CASCADE_EXCEEDED := RuntimeError(508, "INFINITE_LOOP")
  const NO_TARGET := RuntimeError(500, "reaction target missing")
  const ABSENT := RuntimeError(404, "ENTITY_ABSENCE")
  const CONFLICT := RuntimeError(409, "ENTITY_CONFLICT")
  const INVALID_TRANSITION := RuntimeError(422, "INVALID_STATE_TRANSITION")
  const NO_BEHAVIOR := RuntimeError(404, "NO_BEHAVIOR")
  const NO_SECONDARY := RuntimeError(422, "no secondary behavior matched")

  // ------------------------------------------------------------- events

  function Definition(catalog: seq<EventDefinition>, kind: string): Option<EventDefinition> {
    if catalog == [] then None
    else if catalog[0].kind == kind then Some(catalog[0])
    else Definition(catalog[1..], kind)
  }

  function Provisional(b: Boundary, kind: string, ctx: Context, aggregate: Id, version: int, draw: nat): Event {
    var req := ctx.request;
    Event(
      req.supply.uuid(req.scope, ForEvent, draw), b.name, aggregate, kind, [],
      req.supply.now(req.scope, draw), version,
      if req.controls.causedBy.None? then Some(req.command.id) else req.controls.causedBy,
      Some(req.command.intent), req.actor, None)
  }

  function CreateEvent(p: Program, log: seq<Event>, b: Boundary, kind: string, ctx: Context, tx: Tx,
                       source: Option<Event>): Result<Event, RuntimeError>
  {
    var definition := Definition(b.catalog, kind);
    if definition.None? && kind != GENERIC_UPDATE then Err(UNDECLARED_EVENT)
    else
      var req := ctx.request;
      var aggregate := match req.command.target
                       case Some(id) => id
                       case None => req.supply.uuid(req.scope, ForAggregate, tx.draws);
      var version :- NextVersion(CurrentVersion(log, aggregate), tx.events, aggregate);
      var provisional := Provisional(b, kind, ctx, aggregate, version, tx.draws);
      var seen := match source case Some(e) => e case None => provisional;
      var payload :- if definition.None? then Ok(req.command.payload) else definition.value.payload(ctx, seen);
      var _ :- p.validateEvent(b.name, kind, payload);
      Ok(provisional.(payload := payload))
  }

  /** applyEvent on the transaction: fold the event into the shadow states and log it. */
  function Record(b: Boundary, e: Event, tx: Tx): Result<Tx, RuntimeError> {
    var states :- Apply(b, e, tx.states);
    Ok(tx.(states := states, events := tx.events + [e], draws := tx.draws + 1))
  }

  // ------------------------------------------------------------- reactions

  function SelectReactions(reactions: seq<Reaction>, event: Event): seq<Reaction> {
    if reactions == [] then []
    else (if Subscribes(reactions[0].on, event) then [reactions[0]] else []) + SelectReactions(reactions[1..], event)
  }

  function MatchingReactions(p: Program, event: Event): seq<Reaction> {
    var local := match Find(p, event.boundary) case Some(b) => b.reactions case None => [];
    StableSort(SelectReactions(p.reactions + local, event),
               (l: Reaction, r: Reaction) => p.collates(l.boundary, r.boundary))
  }

  function ReactionKey(b: Boundary, r: Reaction, target: Id): string {
    b.name + ":" + r.on + ":" + r.emit + ":" + target
  }

  function ReactionTarget(r: Reaction, b: Boundary, post: PostContext, draw: nat): Result<Id, RuntimeError> {
    var resolved :-
      match r.target
      case Some(resolve) => resolve(post)
      case None =>
        if r.intent != Creation then Err(NO_TARGET)
        else
          match b.generate
          case Some(generate) => (var id :- generate(post); Ok(Some(id)))
          case None => Ok(Some(post.request.supply.uuid(post.request.scope, ForTarget, draw)));
    if resolved.None? || resolved.value == "" then Err(NO_TARGET) else Ok(resolved.value)
  }

  function ReactionRequest(r: Reaction, target: Id, payload: Object, source: Request, draw: nat): Request {
    source.(command := Command(
      source.supply.uuid(source.scope, ForCommand, draw), r.boundary, r.intent, Some(target), payload,
      r.emit, "", None, Secondary, source.command.depth))
  }

  datatype Firing = Skipped(tx: Tx) | Fired(tx: Tx, event: Event, cause: Request)

  /** One matching reaction: it may not apply, may have fired already, or fires one event. */
  function FireReaction(p: Program, log: seq<Event>, r: Reaction, event: Event, source: Request, tx: Tx)
    : (firing: Result<Firing, RuntimeError>)
    ensures firing.Ok? && firing.value.Skipped? ==> firing.value.tx == tx.(draws := firing.value.tx.draws)
    ensures firing.Ok? && firing.value.Fired? ==>
      var after := firing.value.tx;
      after.reactionEvents == tx.reactionEvents + 1 && after.handled == tx.handled && after.direct == tx.direct
  {
    var post := PostContext(source, StateOf(tx.states, event.aggregate), event, tx.events);
    var applies :- r.when(post);
    if !applies then Ok(Skipped(tx))
    else
      match Find(p, r.boundary)
      case None => Err(UNKNOWN_BOUNDARY)
      case Some(b) =>
        var target :- ReactionTarget(r, b, post, tx.draws);
        if r.intent == Mutation && target !in tx.states then Err(ABSENT)
        else if r.intent == Creation && target in tx.states then Err(CONFLICT)
        else
          var key := ReactionKey(b, r, target);
          if key in tx.reactionKeys then Ok(Skipped(tx.(draws := tx.draws + 1)))
          else
            var fired := tx.(reactionKeys := tx.reactionKeys + {key}, reactionEvents := tx.reactionEvents + 1,
                             draws := tx.draws + 1);
            var payload :- r.payload(post);
            var cause := ReactionRequest(r, target, payload, source, fired.draws);
            var ctx := Context(cause, StateOf(fired.states, target));
            var created :- CreateEvent(p, log, b, r.emit, ctx, fired, Some(event));
            var hydrated := created.(payload := Spread(created.payload, payload));
            var recorded :- Record(b, hydrated, fired);
            Ok(Fired(recorded, hydrated, cause))
  }

  /** enqueueReactions: fire each matching reaction in turn, following its own reactions first.
      Every firing spends one unit of the transaction's budget, so the recursion ends. */
  function React(p: Program, log: seq<Event>, pending: seq<Reaction>, event: Event, source: Request, tx: Tx)
    : (result: Result<Tx, RuntimeError>)
    ensures result.Ok? ==> result.value.reactionEvents >= tx.reactionEvents
    decreases MAX_REACTION_EVENTS - tx.reactionEvents, |pending|
  {
    if pending == [] then Ok(tx)
    else if tx.reactionEvents >= MAX_REACTION_EVENTS then Err(BUDGET_EXCEEDED)
    else
      var firing :- FireReaction(p, log, pending[0], event, source, tx);
      match firing
      case Skipped(tx1) => React(p, log, pending[1..], event, source, tx1)
      case Fired(tx1, next, cause) =>
        var tx2 :- React(p, log, MatchingReactions(p, next), next, cause, tx1);
        React(p, log, pending[1..], event, source, tx2)
  }

  function ReactTo(p: Program, log: seq<Event>, event: Event, source: Request, tx: Tx): Result<Tx, RuntimeError> {
    if source.effects.skipReactions then Ok(tx)
    else React(p, log, MatchingReactions(p, event), event, source, tx)
  }

  // ------------------------------------------------------------- one queue item

  function FindBehavior(behaviors: seq<Behavior>, ctx: Context): Option<Behavior> {
    if behaviors == [] then None
    else if behaviors[0].matches(ctx) then Some(behaviors[0])
    else FindBehavior(behaviors[1..], ctx)
  }

  function Emit(p: Program, log: seq<Event>, b: Boundary, kind: string, ctx: Context, tx: Tx): Result<Tx, RuntimeError>
  {
    var event :- CreateEvent(p, log, b, kind, ctx, tx, None);
    var recorded :- Record(b, event, tx);
    ReactTo(p, log, event, ctx.request, recorded.(direct := recorded.direct + 1))
  }

  function EmitAll(p: Program, log: seq<Event>, b: Boundary, kinds: seq<string>, ctx: Context, tx: Tx)
    : Result<Tx, RuntimeError>
    decreases |kinds|
  {
    if kinds == [] then Ok(tx)
    else
      var tx1 :- Emit(p, log, b, kinds[0], ctx, tx);
      EmitAll(p, log, b, kinds[1..], ctx, tx1)
  }

  function Dispatched(d: Dispatch, ctx: Context): Result<Option<Request>, RuntimeError> {
    var applies :- d.condition(ctx);
    if !applies then Ok(None)
    else
      var target :- d.target(ctx);
      var payload :- d.payload(ctx);
      var req := ctx.request;
      Ok(Some(req.(command := req.command.(
        boundary := d.boundary, intent := d.intent, operation := d.operation, target := target, payload := payload,
        origin := Secondary, depth := req.command.depth + 1, path := d.path(target)))))
  }

  function DispatchAll(dispatches: seq<Dispatch>, ctx: Context): (commands: Result<seq<Request>, RuntimeError>)
    ensures commands.Ok? ==> |commands.value| <= |dispatches|
    ensures commands.Ok? ==> forall i :: 0 <= i < |commands.value| ==>
      commands.value[i].command.depth == ctx.request.command.depth + 1
  {
    if dispatches == [] then Ok([])
    else
      var first :- Dispatched(dispatches[0], ctx);
      var rest :- DispatchAll(dispatches[1..], ctx);
      Ok((match first case Some(r) => [r] case None => []) + rest)
  }

  datatype Handled = Handled(tx: Tx, response: Response, dispatched: seq<Request>)

  function FallBack(p: Program, log: seq<Event>, b: Boundary, ctx: Context, tx: Tx): Result<Handled, RuntimeError> {
    if b.fallbackOverride then
      var event :- CreateEvent(p, log, b, GENERIC_UPDATE, ctx, tx, None);
      var tx1 :- Emit(p, log, b, GENERIC_UPDATE, ctx, tx);
      var body := match StateOf(tx1.states, event.aggregate) case Some(s) => s case None => event.payload;
      Ok(Handled(tx1, Response(200, Obj(body)), []))
    else if ctx.request.command.origin == Inbound then
      Err(if |b.behaviors| > 0 then INVALID_TRANSITION else NO_BEHAVIOR)
    else Err(NO_SECONDARY)
  }

  function Behave(p: Program, log: seq<Event>, b: Boundary, behavior: Behavior, ctx: Context, tx: Tx)
    : Result<Handled, RuntimeError>
  {
    var _ :- behavior.admits(ctx);
    var kinds :- behavior.emits(ctx);
    var tx1 :- EmitAll(p, log, b, kinds, ctx, tx);
    var dispatched :- if ctx.request.effects.skipDispatch then Ok([]) else DispatchAll(behavior.dispatches, ctx);
    var after := match ctx.request.command.target case Some(id) => StateOf(tx1.states, id) case None => None;
    var response :- behavior.respond(Context(ctx.request, after), tx1.events, |kinds|);
    Ok(Handled(tx1, response, dispatched))
  }

  function CurrentState(req: Request, states: States): Option<Object> {
    match req.command.target case Some(id) => StateOf(states, id) case None => None
  }

  function Presence(command: Command, state: Option<Object>): Result<(), RuntimeError> {
    if command.target.None? then Ok(())
    else if command.intent == Mutation && state.None? then Err(ABSENT)
    else if command.intent == Creation && state.Some? then Err(CONFLICT)
    else Ok(())
  }

  function Handle(p: Program, log: seq<Event>, req: Request, tx: Tx): (out: Result<Handled, RuntimeError>)
  {
    match Find(p, req.command.boundary)
    case None => Err(UNKNOWN_BOUNDARY)
    case Some(b) =>
      var ctx := Context(req, CurrentState(req, tx.states));
      var _ :- Presence(req.command, ctx.state);
      match FindBehavior(b.behaviors, ctx)
      case None => FallBack(p, log, b, ctx, tx)
      case Some(behavior) => Behave(p, log, b, behavior, ctx, tx)
  }
}
