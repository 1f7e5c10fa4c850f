// Commands, events, requests and the compiled program the engine runs.
// Everything an author supplies as a callback (reducers, guards, formulas, payload and target
// resolvers, contract validators, lifecycle hooks) is a total function into a Result: the model
// says nothing about it except that it is deterministic and may fail.
module Domain {
  import opened Json
  import opened Wrappers

  type Id = string

  const SAGA_BOUNDARY := "__saga__"
  const BASELINE := "BaselineEntityCreatedEvent"
  const GENERIC_UPDATE := "System.GenericUpdateEvent"
  const MAX_DEPTH: int := 5
  const MAX_REACTION_EVENTS: nat := 1000

  datatype RuntimeError = RuntimeError(status: int, code: string)

  datatype Intent = Creation | Mutation | Query
  datatype Origin = Inbound | Secondary

  datatype Response = Response(status: int, body: Json)

  datatype Event = Event(
    id: string,
    boundary: string,
    aggregate: Id,
    kind: string,
    payload: Object,
    timestamp: string,
    version: int,
    causedBy: Option<string>,
    intent: Option<Intent>,
    actor: Option<string>,
    response: Option<Response>)

  datatype Command = Command(
    id: string,
    boundary: string,
    intent: Intent,
    target: Option<Id>,
    payload: Object,
    operation: string,
    path: string,
    version: Option<int>,
    origin: Origin,
    depth: nat)

  /** What a fresh identifier is drawn for; each purpose reads its own part of the supply. */
  datatype Purpose = ForAggregate | ForEvent | ForCommand | ForTarget

  /** The uuid and clock sources a request sees: arbitrary, indexed by scope and draw. */
  datatype Supply = Supply(uuid: (nat, Purpose, nat) -> string, now: (nat, nat) -> string)

  datatype SideEffects = SideEffects(
    skipReactions: bool, skipDispatch: bool, skipProjections: bool, skipWebhooks: bool, skipSagas: bool)

  datatype Controls = Controls(
    dryRun: bool,
    maxCascadeDepth: Option<int>,
    replayEvent: Option<string>,
    causedBy: Option<string>,
    readAtVersion: Option<int>,
    clockOffset: int)

  datatype Request = Request(
    command: Command,
    actor: Option<string>,
    idempotencyHeader: Option<string>,
    effects: SideEffects,
    controls: Controls,
    supply: Supply,
    scope: nat)

  /** What a guard, emission, dispatch or payload callback is given. */
  datatype Context = Context(request: Request, state: Option<Object>)

  /** What a reaction callback is given. */
  datatype PostContext = PostContext(
    request: Request, state: Option<Object>, event: Event, committed: seq<Event>)

  /** What hooks, webhooks, sagas and projections are given of a commit: its request, the target's
      state at the moment they run, its events and its response. */
  datatype CommitContext = CommitContext(
    request: Request, state: Option<Object>, committed: seq<Event>, response: Response)

  /** What a saga callback is given; `steps` are the results so far, in order. */
  datatype SagaContext = SagaContext(
    commit: CommitContext, trigger: Event, steps: seq<(string, Response)>)

  datatype EventDefinition = EventDefinition(
    kind: string, payload: (Context, Event) -> Result<Object, RuntimeError>)

  datatype Reducer = Reducer(
    on: string,
    replaceState: bool,
    step: Option<(Object, Event) -> Result<Object, RuntimeError>>)

  datatype ComputedField = ComputedField(
    name: string, formula: (Object, Event) -> Result<Json, RuntimeError>)

  datatype Dispatch = Dispatch(
    boundary: string,
    intent: Intent,
    operation: string,
    condition: Context -> Result<bool, RuntimeError>,
    target: Context -> Result<Option<Id>, RuntimeError>,
    payload: Context -> Result<Object, RuntimeError>,
    path: Option<Id> -> string)

  datatype Behavior = Behavior(
    matches: Context -> bool,
    admits: Context -> Result<(), RuntimeError>,
    emits: Context -> Result<seq<string>, RuntimeError>,
    dispatches: seq<Dispatch>,
    respond: (Context, seq<Event>, nat) -> Result<Response, RuntimeError>)

  datatype Reaction = Reaction(
    on: string,
    when: PostContext -> Result<bool, RuntimeError>,
    boundary: string,
    emit: string,
    intent: Intent,
    target: Option<PostContext -> Result<Option<Id>, RuntimeError>>,
    payload: PostContext -> Result<Object, RuntimeError>)

  datatype Seed = Seed(id: Option<Id>, kind: Option<string>, timestamp: Option<string>, state: Object)

  datatype Boundary = Boundary(
    name: string,
    catalog: seq<EventDefinition>,
    behaviors: seq<Behavior>,
    reducers: seq<Reducer>,
    computed: seq<ComputedField>,
    auditFields: bool,
    fallbackOverride: bool,
    reactions: seq<Reaction>,
    seeds: seq<Seed>,
    identify: Request -> Result<Id, RuntimeError>,
    generate: Option<PostContext -> Result<Id, RuntimeError>>,
    validate: Object -> Result<(), RuntimeError>)

  /** What a projection's callbacks are given besides the event: the commit they follow, or the
      history being projected again. */
  datatype ProjectionSource =
    | OfCommit(commit: CommitContext)
    | OfRebuild(history: seq<Event>)

  /** `state` is the source's own when the row is first looked for, then the row found. */
  datatype ProjectionView = ProjectionView(source: ProjectionSource, event: Event, state: Option<Object>)

  datatype Projection = Projection(
    name: string,
    subscribe: seq<string>,
    key: ProjectionView -> Result<string, RuntimeError>,
    observe: ProjectionView -> Result<(), RuntimeError>,
    reducers: seq<Reducer>)

  datatype Compensation = Compensation(
    intent: Intent,
    operation: string,
    target: Option<SagaContext -> Result<Option<Id>, RuntimeError>>,
    payload: SagaContext -> Result<Object, RuntimeError>,
    path: Option<Id> -> string)

  datatype SagaStep = SagaStep(
    name: string,
    boundary: string,
    intent: Intent,
    operation: string,
    target: SagaContext -> Result<Option<Id>, RuntimeError>,
    payload: SagaContext -> Result<Object, RuntimeError>,
    path: Option<Id> -> string,
    compensation: Option<Compensation>)

  datatype Saga = Saga(
    name: string,
    boundary: string,
    intent: Intent,
    condition: SagaContext -> Result<bool, RuntimeError>,
    steps: seq<SagaStep>)

  datatype Idempotency = Idempotency(enabled: bool, ttlSeconds: int, hashIncludesBody: bool)

  /** How authentication, validation, authorization and faults dispose of a request. */
  datatype Admission = Proceed | Answer(response: Response) | Refuse(error: RuntimeError)

  datatype Program = Program(
    boundaries: seq<Boundary>,
    reactions: seq<Reaction>,
    sagas: seq<Saga>,
    projections: seq<Projection>,
    idempotency: Option<Idempotency>,
    collates: (string, string) -> bool,
    validateEvent: (string, string, Object) -> Result<(), RuntimeError>,
    requiresPrecondition: string -> bool,
    fingerprint: Request -> string,
    admit: (Request, Option<Object>) -> Admission,
    route: Request -> Result<Response, RuntimeError>,
    present: (Request, Option<Object>) -> Result<Response, RuntimeError>,
    list: (Request, map<Id, Object>, map<Id, string>) -> Result<Response, RuntimeError>,
    admitBatch: seq<Request> -> Result<(), RuntimeError>,
    onCommit: CommitContext -> Result<(), RuntimeError>,
    onPostCommit: CommitContext -> Result<(), RuntimeError>,
    webhooks: CommitContext -> Result<(), RuntimeError>)

  function Lookup(boundaries: seq<Boundary>, name: string): (found: Option<Boundary>)
    ensures found.Some? ==> found.value in boundaries && found.value.name == name
  {
    if boundaries == [] then None
    else if boundaries[0].name == name then Some(boundaries[0])
    else Lookup(boundaries[1..], name)
  }

  function Find(p: Program, name: string): (found: Option<Boundary>)
    ensures found.Some? ==> found.value.name == name
  {
    Lookup(p.boundaries, name)
  }

  function EventKey(event: Event): string {
    event.boundary + ":" + event.kind
  }

  predicate Subscribes(selector: string, event: Event) {
    selector == event.kind || selector == EventKey(event)
  }

  /** The saga log's reserved boundary name is not an authored boundary. */
  predicate ReservesSagaName(p: Program) {
    Find(p, SAGA_BOUNDARY).None?
  }
}
