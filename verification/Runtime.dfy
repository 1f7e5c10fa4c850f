// The engine's quiescent state and what each request does to it, as functions
// (src/core/engine.ts: executeInternal, executeMutation, replayEvent, runPostCommit, runSagas,
// executeBatch, initialize, reset, replaceProgram, snapshot, restore). Engine.dfy proves the
// imperative methods compute exactly these.
module Runtime {
  import opened Cascade
  import opened Domain
  import opened EventSourcing
  import opened Json
  import opened Projections
  import opened Reduction
  import opened Transactions
  import opened Wrappers

  datatype Execution = Execution(response: Response, events: seq<Event>, committed: bool)
  datatype Entry = Entry(result: Execution, expires: int)
  datatype PendingEntry = PendingEntry(fingerprint: string, result: Execution, ttlSeconds: int)
  datatype PostCommit = PostCommit(request: Request, events: seq<Event>, response: Response)
  datatype Batch = Batch(postCommits: seq<PostCommit>, idempotency: map<string, PendingEntry>)

  type Owners = map<Id, string>
  type Outcome = Result<Execution, RuntimeError>
  type Done = Result<(), RuntimeError>

  datatype World = World(
    program: Program,
    ready: bool,
    log: seq<Event>,
    states: States,
    owners: Owners,
    projections: Store,
    entries: map<string, Entry>,
    fingerprints: map<string, string>,
    clock: int,
    batch: Option<Batch>)

  const NOT_INITIALIZED := RuntimeError(500, "initialization failed")
  const KEY_CONFLICT := RuntimeError(409, "IDEMPOTENCY_KEY_CONFLICT")
  const PRECONDITION_REQUIRED := RuntimeError(428, "If-Match is required")
  const VERSION_CONFLICT := RuntimeError(412, "CONCURRENCY_CONFLICT")
  const NO_RESPONSE := RuntimeError(404, "no behavior matched the command")
  const NESTED_BATCH := RuntimeError(500, "nested runtime batches are not supported")
  const DEFAULT_TTL: int := 86400

  // ------------------------------------------------------------- idempotency

  function IdempotencyKey(p: Program, req: Request): Option<string> {
    if p.idempotency.None? || !p.idempotency.value.enabled then None
    else if req.command.intent == Query && req.controls.replayEvent.None? then None
    else
      match req.idempotencyHeader
      case None => None
      case Some(header) =>
        var actor := match req.actor case Some(a) => a case None => "anonymous";
        Some(actor + ":" + req.command.boundary + ":" + req.command.operation + ":" + header)
  }

  function ObservedTime(w: World, req: Request): int {
    w.clock + req.controls.clockOffset
  }

  function PendingIn(w: World, key: string): Option<PendingEntry> {
    if w.batch.Some? && key in w.batch.value.idempotency then Some(w.batch.value.idempotency[key]) else None
  }

  /** The store's TTL read at a request's own time; it never evicts. */
  function Unexpired(w: World, key: string, req: Request): Option<Execution> {
    if key in w.entries && w.entries[key].expires > ObservedTime(w, req) then Some(w.entries[key].result) else None
  }

  function Cached(w: World, key: string, req: Request): Option<Execution> {
    match PendingIn(w, key)
    case Some(pending) => Some(pending.result)
    case None => Unexpired(w, key, req)
  }

  function CheckFingerprint(w: World, key: string, req: Request): Result<World, RuntimeError> {
    if w.program.idempotency.None? || !w.program.idempotency.value.hashIncludesBody then Ok(w)
    else
      var pending := PendingIn(w, key);
      var previous := if pending.Some? then Some(pending.value.fingerprint)
                      else if key in w.fingerprints then Some(w.fingerprints[key]) else None;
      if previous.None? then Ok(w)
      else if pending.None? && Unexpired(w, key, req).None? then Ok(w.(fingerprints := w.fingerprints - {key}))
      else if previous.value != w.program.fingerprint(req) then Err(KEY_CONFLICT)
      else Ok(w)
  }

  function TtlSeconds(p: Program): int {
    match p.idempotency case Some(i) => i.ttlSeconds case None => DEFAULT_TTL
  }

  function Lifetime(ttlSeconds: int): int {
    (if ttlSeconds > 1 then ttlSeconds else 1) * 1000
  }

  function StoreEntry(w: World, key: string, fingerprint: string, result: Execution, ttlSeconds: int): World {
    match w.batch
    case Some(batch) =>
      w.(batch := Some(batch.(idempotency := batch.idempotency[key := PendingEntry(fingerprint, result, ttlSeconds)])))
    case None =>
      w.(fingerprints := w.fingerprints[key := fingerprint],
         entries := w.entries[key := Entry(result, w.clock + Lifetime(ttlSeconds))])
  }

  function Remember(w: World, key: Option<string>, req: Request, result: Execution): World {
    match key
    case None => w
    case Some(k) => StoreEntry(w, k, w.program.fingerprint(req), result, TtlSeconds(w.program))
  }

  // ------------------------------------------------------------- ownership index

  function Claim(owners: Owners, e: Event): Owners {
    if e.aggregate in owners then owners else owners[e.aggregate := e.boundary]
  }

  function ClaimAll(owners: Owners, events: seq<Event>): Owners
    decreases |events|
  {
    if events == [] then owners else ClaimAll(Claim(owners, events[0]), events[1..])
  }

  // ------------------------------------------------------------- one mutation

  function Preconditions(w: World, req: Request, id: Id): Done {
    var _ :- Presence(req.command, StateOf(w.states, id));
    if w.program.requiresPrecondition(req.command.operation) && req.command.version.None? then
      Err(PRECONDITION_REQUIRED)
    else if req.command.version.Some? && req.command.version.value != CurrentVersion(w.log, id) then
      Err(VERSION_CONFLICT)
    else Ok(())
  }

  /** The mutation up to the commit point: nothing outside the transaction has changed. */
  function Transact(w: World, req: Request, id: Id): Result<(Tx, Response), RuntimeError> {
    var _ :- Preconditions(w, req, id);
    var (tx, first) :- RunCommands(w.program, w.log, req, Begin(w.states));
    if first.None? then Err(NO_RESPONSE)
    else
      var _ :- w.program.onCommit(CommitContext(req, StateOf(tx.states, id), tx.events, first.value));
      Ok((tx, first.value))
  }

  function Committed(w: World, states: States, events: seq<Event>): World {
    w.(states := states, log := w.log + events, owners := ClaimAll(w.owners, events))
  }

  /** What a request has come to before its post-commit work: settled without a commit, or
      committed with post-commit work and possibly an idempotency entry still to come. */
  datatype Stage =
    | Settled(world: World, outcome: Outcome)
    | Staged(world: World, post: PostCommit, result: Execution, key: Option<string>)

  function Targeted(req: Request, id: Id): Request {
    req.(command := req.command.(target := Some(id)))
  }

  function ResolveIdentity(b: Boundary, req: Request): Result<Id, RuntimeError> {
    match req.command.target case Some(id) => Ok(id) case None => b.identify(req)
  }

  function StageMutation(w: World, b: Boundary, req: Request, key: Option<string>): Stage {
    match ResolveIdentity(b, req)
    case Err(e) => Settled(w, Err(e))
    case Ok(id) =>
      match Transact(w, Targeted(req, id), id)
      case Err(e) => Settled(w, Err(e))
      case Ok((tx, response)) =>
        var events := Answered(tx.events, response);
        if req.controls.dryRun then Settled(w, Ok(Execution(response, events, false)))
        else Staged(Committed(w, tx.states, events), PostCommit(Targeted(req, id), events, response),
                    Execution(response, events, true), key)
  }

  // ------------------------------------------------------------- event replay

  function FindEvent(log: seq<Event>, id: string): Option<Event> {
    if log == [] then None
    else if log[0].id == id then Some(log[0])
    else FindEvent(log[1..], id)
  }

  function ReplayRequest(req: Request, b: Boundary, event: Event): Request {
    req.(command := req.command.(
      boundary := b.name, target := Some(event.aggregate), intent := Mutation, origin := Inbound))
  }

  function Replayed(event: Event, req: Request, version: int): Event {
    event.(id := req.supply.uuid(req.scope, ForEvent, 0), timestamp := req.supply.now(req.scope, 0), version := version,
           causedBy := (if req.controls.causedBy.None? then Some(req.command.id) else req.controls.causedBy),
           intent := Some(Mutation), actor := req.actor)
  }

  predicate Successful(response: Response) {
    200 <= response.status < 300
  }

  /** The replayed event, the states after it and the response, if replay gets to the commit. */
  function Reissue(w: World, b: Boundary, event: Event, req: Request): Result<(Event, States, Response), RuntimeError> {
    var version :- NextVersion(CurrentVersion(w.log, event.aggregate), [], event.aggregate);
    var replayed := Replayed(event, req, version);
    var states :- Apply(b, replayed, w.states);
    var response :- w.program.present(req, StateOf(states, event.aggregate));
    var _ :- w.program.onCommit(CommitContext(req, StateOf(states, event.aggregate), [replayed], response));
    Ok((replayed.(response := Some(response)), states, response))
  }

  function StageReplay(w: World, req: Request, eventId: string, key: Option<string>): Stage {
    match FindEvent(w.log, eventId)
    case None => Settled(w, Ok(Execution(Response(404, Str("EVENT_NOT_FOUND")), [], false)))
    case Some(event) =>
      match Find(w.program, event.boundary)
      case None => Settled(w, Ok(Execution(Response(422, Str("EVENT_REPLAY_UNSUPPORTED")), [], false)))
      case Some(b) =>
        var replay := ReplayRequest(req, b, event);
        match Reissue(w, b, event, replay)
        case Err(e) => Settled(w, Err(e))
        case Ok((committed, states, response)) =>
          if req.controls.dryRun then Settled(w, Ok(Execution(response, [committed], false)))
          else Staged(Committed(w, states, [committed]), PostCommit(replay, [committed], response),
                      Execution(response, [committed], true), if Successful(response) then key else None)
  }

  // ------------------------------------------------------------- one request

  function AnswerQuery(w: World, b: Boundary, req: Request): Outcome {
    var response :-
      if req.command.target.Some? && req.controls.readAtVersion.Some? then
        var past :- ReadStateAtVersion(w.program, b, w.log, req.command.target.value, req.controls.readAtVersion.value);
        w.program.present(req, past)
      else w.program.list(req, w.states, w.owners);
    Ok(Execution(response, [], false))
  }

  function StageAdmitted(w: World, b: Boundary, req: Request, key: Option<string>): Stage {
    if req.command.intent != Query then StageMutation(w, b, req, key)
    else
      match req.controls.replayEvent
      case Some(eventId) => StageReplay(w, req, eventId, key)
      case None => Settled(w, AnswerQuery(w, b, req))
  }

  function StageKeyed(w: World, b: Boundary, req: Request, key: string): Stage {
    match CheckFingerprint(w, key, req)
    case Err(e) => Settled(w, Err(e))
    case Ok(checked) =>
      match Cached(checked, key, req)
      case Some(cached) => Settled(checked, Ok(cached.(committed := false)))
      case None => StageAdmitted(checked, b, req, Some(key))
  }

  function StageRequest(w: World, req: Request): Stage {
    if !w.ready then Settled(w, Err(NOT_INITIALIZED))
    else
      match Find(w.program, req.command.boundary)
      case None =>
        (match w.program.route(req)
         case Ok(response) => Settled(w, Ok(Execution(response, [], false)))
         case Err(e) => Settled(w, Err(e)))
      case Some(b) =>
        match w.program.admit(req, CurrentState(req, w.states))
        case Answer(response) => Settled(w, Ok(Execution(response, [], false)))
        case Refuse(e) => Settled(w, Err(e))
        case Proceed =>
          match IdempotencyKey(w.program, req)
          case Some(key) => StageKeyed(w, b, req, key)
          case None => StageAdmitted(w, b, req, None)
  }

  /** What post-commit callbacks are given when they run in this world. */
  function ContextOf(w: World, post: PostCommit): CommitContext {
    CommitContext(post.request, CurrentState(post.request, w.states), post.events, post.response)
  }

  function Notify(p: Program, commit: CommitContext): Done {
    if commit.request.effects.skipWebhooks then Ok(()) else p.webhooks(commit)
  }

  /** Post-commit work that is not a saga: the hook, the projections, the webhooks. */
  function Announce(w: World, post: PostCommit): (World, Done) {
    var commit := ContextOf(w, post);
    match w.program.onPostCommit(commit)
    case Err(e) => (w, Err(e))
    case Ok(_) =>
      var source := OfCommit(commit);
      var projected := if post.request.effects.skipProjections then w
                       else w.(projections := Project(w.program.projections, source, w.projections, post.events));
      (projected, Notify(w.program, commit))
  }

  function Defer(w: World, post: PostCommit): World {
    match w.batch
    case Some(batch) => w.(batch := Some(batch.(postCommits := batch.postCommits + [post])))
    case None => w
  }

  function Conclude(after: (World, Done), stage: Stage, req: Request): (World, Outcome)
    requires stage.Staged?
  {
    match after.1
    case Err(e) => (after.0, Err(e))
    case Ok(_) => (Remember(after.0, stage.key, req, stage.result), Ok(stage.result))
  }

  /** A request whose sagas are switched off, as every saga step and compensation is. */
  function ExecutePlain(w: World, req: Request): (World, Outcome) {
    var stage := StageRequest(w, req);
    if stage.Settled? then (stage.world, stage.outcome)
    else
      var after := if stage.world.batch.Some? then (Defer(stage.world, stage.post), Ok(()))
                   else Announce(stage.world, stage.post);
      Conclude(after, stage, req)
  }

  // ------------------------------------------------------------- sagas

  datatype Mark =
    | Started
    | StepCompleted(index: nat)
    | SagaCompleted
    | StepFailed(failedIndex: nat)
    | Compensated(undone: nat)
    | CompensationFailed(stuck: nat)
    | SagaFailed(at: nat)

  function MarkKind(mark: Mark): string {
    match mark
    case Started => "SagaStarted"
    case StepCompleted(_) => "SagaStepCompleted"
    case SagaCompleted => "SagaCompleted"
    case StepFailed(_) => "SagaStepFailed"
    case Compensated(_) => "SagaCompensated"
    case CompensationFailed(_) => "SagaCompensationFailed"
    case SagaFailed(_) => "SagaFailed"
  }

  function StepName(saga: Saga, index: nat): Json {
    if index < |saga.steps| then Str(saga.steps[index].name) else Str("")
  }

  function MarkPayload(saga: Saga, mark: Mark): Object {
    [Field("saga", Str(saga.name))] +
    match mark
    case Started => []
    case StepCompleted(i) => [Field("step", StepName(saga, i)), Field("stepIndex", Num(i as real))]
    case SagaCompleted => []
    case StepFailed(i) => [Field("stepName", StepName(saga, i)), Field("stepIndex", Num(i as real))]
    case Compensated(i) => [Field("step", StepName(saga, i)), Field("compensatedStepIndex", Num(i as real))]
    case CompensationFailed(i) => [Field("step", StepName(saga, i))]
    case SagaFailed(i) => [Field("failedAtStep", Num(i as real))]
  }

  function SagaEvent(w: World, saga: Saga, instance: Id, mark: Mark, req: Request): Event {
    Event(req.supply.uuid(req.scope, ForEvent, |w.log|), SAGA_BOUNDARY, instance, MarkKind(mark),
          MarkPayload(saga, mark), req.supply.now(req.scope, |w.log|), CurrentVersion(w.log, instance) + 1, None,
          Some(Mutation), None, None)
  }

  function AppendMark(w: World, saga: Saga, instance: Id, mark: Mark, req: Request): World {
    w.(log := w.log + [SagaEvent(w, saga, instance, mark, req)])
  }

  /** A step or compensation command: the triggering request's, retargeted, one level deeper,
      with sagas switched off. Its headers and expected version are the trigger's own. */
  function InternalRequest(w: World, req: Request, boundary: string, intent: Intent, operation: string,
                           target: Option<Id>, payload: Object, path: string): Request
  {
    var scope := req.scope + |w.log| + 1;
    req.(command := req.command.(id := req.supply.uuid(scope, ForCommand, 0), boundary := boundary, intent := intent,
                                 operation := operation, target := target, payload := payload, origin := Secondary,
                                 depth := req.command.depth + 1, path := path),
         effects := req.effects.(skipSagas := true), scope := scope)
  }

  datatype CompletedStep = CompletedStep(index: nat, target: Option<Id>)

  function StepRequest(w: World, req: Request, step: SagaStep, ctx: SagaContext): Result<Request, RuntimeError> {
    var target :- step.target(ctx);
    var payload :- step.payload(ctx);
    Ok(InternalRequest(w, req, step.boundary, step.intent, step.operation, target, payload, step.path(target)))
  }

  /** How far the steps got. `failure` holds the index of the failing step and its error. */
  datatype StepsRun = StepsRun(
    world: World, context: SagaContext, completed: seq<CompletedStep>, marks: seq<Mark>,
    failure: Option<(nat, RuntimeError)>)

  function RunSteps(w: World, saga: Saga, instance: Id, ctx: SagaContext, completed: seq<CompletedStep>, index: nat)
    : (run: StepsRun)
    requires index <= |saga.steps|
    decreases |saga.steps| - index
  {
    if index == |saga.steps| then StepsRun(w, ctx, completed, [], None)
    else
      var step := saga.steps[index];
      match StepRequest(w, ctx.commit.request, step, ctx)
      case Err(e) => StepsRun(w, ctx, completed, [], Some((index, e)))
      case Ok(command) =>
        var (w1, outcome) := ExecutePlain(w, command);
        match outcome
        case Err(e) => StepsRun(w1, ctx, completed, [], Some((index, e)))
        case Ok(result) =>
          var w2 := AppendMark(w1, saga, instance, StepCompleted(index), ctx.commit.request);
          var run := RunSteps(w2, saga, instance, ctx.(steps := ctx.steps + [(step.name, result.response)]),
                              completed + [CompletedStep(index, command.command.target)], index + 1);
          run.(marks := [StepCompleted(index)] + run.marks)
  }

  function CompensationRequest(w: World, req: Request, step: SagaStep, c: Compensation, entry: CompletedStep,
                               ctx: SagaContext)
    : Result<Request, RuntimeError>
  {
    var target :- match c.target case None => Ok(entry.target) case Some(resolve) => resolve(ctx);
    var payload :- c.payload(ctx);
    Ok(InternalRequest(w, req, step.boundary, c.intent, c.operation, target, payload, c.path(target)))
  }

  datatype Undo = Undo(world: World, marks: seq<Mark>, done: Done)

  ghost predicate WithinSteps(saga: Saga, completed: seq<CompletedStep>) {
    forall i :: 0 <= i < |completed| ==> completed[i].index < |saga.steps|
  }

  /** Compensations run from the last completed step back to the first. A compensation that
      throws is logged and the next one still runs; a failing target or payload aborts. */
  function Compensate(w: World, saga: Saga, instance: Id, ctx: SagaContext, completed: seq<CompletedStep>): Undo
    requires WithinSteps(saga, completed)
    decreases |completed|
  {
    if completed == [] then Undo(w, [], Ok(()))
    else
      var entry, earlier := completed[|completed| - 1], completed[..|completed| - 1];
      var step := saga.steps[entry.index];
      match step.compensation
      case None => Compensate(w, saga, instance, ctx, earlier)
      case Some(c) =>
        match CompensationRequest(w, ctx.commit.request, step, c, entry, ctx)
        case Err(e) => Undo(w, [], Err(e))
        case Ok(command) =>
          var (w1, outcome) := ExecutePlain(w, command);
          var mark := if outcome.Ok? then Compensated(entry.index) else CompensationFailed(entry.index);
          var rest := Compensate(AppendMark(w1, saga, instance, mark, ctx.commit.request), saga, instance, ctx,
                                 earlier);
          rest.(marks := [mark] + rest.marks)
  }

  function TriggerIntent(e: Event, req: Request): Intent {
    match e.intent
    case Some(intent) => intent
    case None => if e.boundary == req.command.boundary then req.command.intent else Mutation
  }

  function Trigger(saga: Saga, events: seq<Event>, req: Request): Option<Event> {
    if events == [] then None
    else if events[0].boundary == saga.boundary && TriggerIntent(events[0], req) == saga.intent then Some(events[0])
    else Trigger(saga, events[1..], req)
  }

  function Instance(saga: Saga, req: Request): Id {
    req.command.id + ":" + saga.name
  }

  lemma {:induction false} StepsWithin(w: World, saga: Saga, instance: Id, ctx: SagaContext,
                                       completed: seq<CompletedStep>, index: nat)
    requires index <= |saga.steps| && WithinSteps(saga, completed)
    ensures WithinSteps(saga, RunSteps(w, saga, instance, ctx, completed, index).completed)
    decreases |saga.steps| - index
  {
    hide ExecutePlain, StepRequest, AppendMark;
    if index < |saga.steps| {
      var step := saga.steps[index];
      var request := StepRequest(w, ctx.commit.request, step, ctx);
      if request.Ok? {
        var (w1, outcome) := ExecutePlain(w, request.value);
        if outcome.Ok? {
          var entry := CompletedStep(index, request.value.command.target);
          StepsWithin(AppendMark(w1, saga, instance, StepCompleted(index), ctx.commit.request), saga, instance,
                      ctx.(steps := ctx.steps + [(step.name, outcome.value.response)]), completed + [entry], index + 1);
        }
      }
    }
  }

  /** A saga that has started: its steps, and if one fails the compensations. */
  function RunStarted(w: World, saga: Saga, instance: Id, ctx: SagaContext): Undo {
    var w1 := AppendMark(w, saga, instance, Started, ctx.commit.request);
    var run := RunSteps(w1, saga, instance, ctx, [], 0);
    StepsWithin(w1, saga, instance, ctx, [], 0);
    match run.failure
    case None =>
      Undo(AppendMark(run.world, saga, instance, SagaCompleted, ctx.commit.request),
           [Started] + run.marks + [SagaCompleted], Ok(()))
    case Some((at, _)) =>
      var failed := AppendMark(run.world, saga, instance, StepFailed(at), ctx.commit.request);
      var undo := Compensate(failed, saga, instance, run.context, run.completed);
      var marks := [Started] + run.marks + [StepFailed(at)] + undo.marks;
      match undo.done
      case Err(e) => Undo(undo.world, marks, Err(e))
      case Ok(_) =>
        Undo(AppendMark(undo.world, saga, instance, SagaFailed(at), ctx.commit.request), marks + [SagaFailed(at)],
             Ok(()))
  }

  function RunSaga(w: World, saga: Saga, commit: CommitContext): Undo {
    match Trigger(saga, commit.committed, commit.request)
    case None => Undo(w, [], Ok(()))
    case Some(trigger) =>
      var ctx := SagaContext(commit, trigger, []);
      match saga.condition(ctx)
      case Err(e) => Undo(w, [], Err(e))
      case Ok(applies) =>
        if applies then RunStarted(w, saga, Instance(saga, commit.request), ctx) else Undo(w, [], Ok(()))
  }

  function RunSagas(w: World, sagas: seq<Saga>, commit: CommitContext): (World, Done)
    decreases |sagas|
  {
    if sagas == [] then (w, Ok(()))
    else
      var undo := RunSaga(w, sagas[0], commit);
      if undo.done.Err? then (undo.world, undo.done) else RunSagas(undo.world, sagas[1..], commit)
  }

  /** runPostCommit: announcements, then sagas unless the request switched them off. */
  function FollowUp(w: World, post: PostCommit): (World, Done) {
    var announced := Announce(w, post);
    if announced.1.Err? || post.request.effects.skipSagas then announced
    else RunSagas(announced.0, announced.0.program.sagas, ContextOf(w, post))
  }

  function Execute(w: World, req: Request): (World, Outcome) {
    var stage := StageRequest(w, req);
    if stage.Settled? then (stage.world, stage.outcome)
    else
      var after := if stage.world.batch.Some? then (Defer(stage.world, stage.post), Ok(()))
                   else FollowUp(stage.world, stage.post);
      Conclude(after, stage, req)
  }

  // ------------------------------------------------------------- batches

  function RunItems(w: World, requests: seq<Request>): (World, Result<seq<Execution>, RuntimeError>)
    decreases |requests|
  {
    if requests == [] then (w, Ok([]))
    else
      var (w1, outcome) := Execute(w, requests[0]);
      match outcome
      case Err(e) => (w1, Err(e))
      case Ok(result) =>
        var (w2, rest) := RunItems(w1, requests[1..]);
        (w2, match rest case Err(e) => Err(e) case Ok(results) => Ok([result] + results))
  }

  function PendingPrints(pending: map<string, PendingEntry>): map<string, string> {
    map k | k in pending :: pending[k].fingerprint
  }

  function PendingEntries(pending: map<string, PendingEntry>, clock: int): map<string, Entry> {
    map k | k in pending :: Entry(pending[k].result, clock + Lifetime(pending[k].ttlSeconds))
  }

  function FlushKeys(w: World, pending: map<string, PendingEntry>): World {
    w.(fingerprints := w.fingerprints + PendingPrints(pending), entries := w.entries + PendingEntries(pending, w.clock))
  }

  function RunPosts(w: World, posts: seq<PostCommit>): (World, Done)
    decreases |posts|
  {
    if posts == [] then (w, Ok(()))
    else
      var (w1, done) := FollowUp(w, posts[0]);
      if done.Err? then (w1, done) else RunPosts(w1, posts[1..])
  }

  datatype Snapshot = Snapshot(states: States, log: seq<Event>, projections: Store)

  function Capture(w: World): Snapshot {
    Snapshot(w.states, w.log, w.projections)
  }

  function Restore(w: World, s: Snapshot): World {
    w.(states := s.states, log := s.log, projections := s.projections, owners := ClaimAll(map[], s.log))
  }

  function Close(w: World): World {
    w.(batch := None)
  }

  function ExecuteTransactional(w: World, requests: seq<Request>): (World, Result<seq<Execution>, RuntimeError>) {
    match w.program.admitBatch(requests)
    case Err(e) => (Restore(w, Capture(w)), Err(e))
    case Ok(_) =>
      var (ran, results) := RunItems(w.(batch := Some(Batch([], map[]))), requests);
      if results.Err? || ran.batch.None? then (Restore(Close(ran), Capture(w)), results)
      else
        var flushed := FlushKeys(Close(ran), ran.batch.value.idempotency);
        var (followed, done) := RunPosts(flushed, ran.batch.value.postCommits);
        match done
        case Err(e) => (Restore(followed, Capture(w)), Err(e))
        case Ok(_) => (followed, results)
  }

  function ExecuteBatch(w: World, requests: seq<Request>, transactional: bool)
    : (World, Result<seq<Execution>, RuntimeError>)
  {
    if w.batch.Some? then (w, Err(NESTED_BATCH))
    else if transactional then ExecuteTransactional(w, requests)
    else
      match w.program.admitBatch(requests)
      case Err(e) => (w, Err(e))
      case Ok(_) => RunItems(w, requests)
  }

  // ------------------------------------------------------------- initialization and reset

  function Baseline(boundary: string, seed: Seed, index: nat): Event {
    var suffix := boundary + "-" + Digits(index);
    Event("baseline-" + suffix + "-event", boundary,
          match seed.id { case Some(id) => id case None => "baseline-" + suffix },
          match seed.kind { case Some(kind) => kind case None => BASELINE },
          seed.state,
          match seed.timestamp { case Some(t) => t case None => "1970-01-01T00:00:00.000Z" },
          1, None, None, None, None)
  }

  function BoundaryBaselines(b: Boundary): (events: seq<Event>)
    ensures |events| == |b.seeds|
    ensures forall i :: 0 <= i < |events| ==> events[i] == Baseline(b.name, b.seeds[i], i)
  {
    seq(|b.seeds|, i requires 0 <= i < |b.seeds| => Baseline(b.name, b.seeds[i], i))
  }

  function Baselines(boundaries: seq<Boundary>): seq<Event> {
    if boundaries == [] then [] else BoundaryBaselines(boundaries[0]) + Baselines(boundaries[1..])
  }

  function NotSaga(events: seq<Event>): seq<Event> {
    SelectFrom(events, (e: Event) => e.boundary != SAGA_BOUNDARY)
  }

  /** initialize() over cleared stores: log the baselines, then derive everything from them. If a
      baseline does not apply, the log keeps them but the engine never becomes ready. */
  function Initialize(w: World): World {
    var history := Baselines(w.program.boundaries);
    match Fold(w.program, map[], history)
    case Err(_) => w.(log := history, ready := false)
    case Ok(states) =>
      w.(log := history, states := states, owners := ClaimAll(map[], history), ready := true,
         projections := Project(w.program.projections, OfRebuild(history), map[], NotSaga(history)))
  }

  function Cleared(w: World, program: Program): World {
    World(program, w.ready, [], map[], map[], map[], map[], map[], 0, None)
  }

  function Boot(program: Program): World {
    Initialize(World(program, false, [], map[], map[], map[], map[], map[], 0, None))
  }

  /** reset(): a throwing reset hook leaves the stores cleared and unseeded. */
  function Reset(w: World, hookFails: bool): World {
    if hookFails then Cleared(w, w.program) else Initialize(Cleared(w, w.program))
  }

  // ------------------------------------------------------------- program replacement

  predicate Recognizes(next: Program, log: seq<Event>) {
    forall i :: 0 <= i < |log| ==> log[i].boundary == SAGA_BOUNDARY || Find(next, log[i].boundary).Some?
  }

  function ReplacePreserving(w: World, next: Program, validationFails: bool): World {
    if !w.ready then w
    else if !Recognizes(next, w.log) then Restore(w, Capture(w))
    else
      match Fold(next, map[], NotSaga(w.log))
      case Err(_) => Restore(w, Capture(w))
      case Ok(states) =>
        if validationFails then Restore(w, Capture(w))
        else w.(program := next, states := states, owners := ClaimAll(map[], NotSaga(w.log)),
                projections := Project(next.projections, OfRebuild(w.log), map[], NotSaga(w.log)))
  }

  function ReplaceDiscarding(w: World, next: Program, hookFails: bool): World {
    if !w.ready then w
    else if hookFails then Cleared(w, next)
    else Initialize(Cleared(w, next))
  }
}
