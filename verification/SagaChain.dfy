// Sagas are chains of plain requests and log marks: a relation kept by each of those, reflexive and
// transitive, is kept by every saga run. A relation that only some requests keep is kept by the runs
// all of whose requests are of that kind.
module SagaChain {
  import opened Domain
  import opened Runtime
  import opened Wrappers

  /** A property of a plain request and the world it runs in. */
  type Kind = (World, Request) -> bool

  type Relation = (World, World) -> bool

  ghost predicate Chains(R: Relation) {
    && (forall w: World :: R(w, w))
    && (forall a: World, b: World, c: World :: R(a, b) && R(b, c) ==> R(a, c))
  }

  ghost predicate KeptByRequests(R: Relation, P: Kind) {
    forall w: World, req: Request :: P(w, req) ==> R(w, ExecutePlain(w, req).0)
  }

  ghost predicate KeptByMarks(R: Relation) {
    forall w: World, saga: Saga, instance: Id, mark: Mark, req: Request ::
      R(w, AppendMark(w, saga, instance, mark, req))
  }

  /** The relation survives every mark, and every request of this kind. */
  ghost predicate KeptByLinks(R: Relation, P: Kind) {
    Chains(R) && KeptByRequests(R, P) && KeptByMarks(R)
  }

  // ------------------------------------------------------------- the requests a saga executes

  /** Every step that is executed is of this kind, in the world it is executed in. */
  ghost predicate StepsMeet(P: Kind, w: World, saga: Saga, instance: Id, ctx: SagaContext,
                            completed: seq<CompletedStep>, index: nat)
    requires index <= |saga.steps|
    decreases |saga.steps| - index
  {
    index < |saga.steps| ==>
      var step := saga.steps[index];
      match StepRequest(w, ctx.commit.request, step, ctx)
      case Err(_) => true
      case Ok(command) =>
        var (w1, outcome) := ExecutePlain(w, command);
        && P(w, command)
        && match outcome
           case Err(_) => true
           case Ok(result) =>
             StepsMeet(P, AppendMark(w1, saga, instance, StepCompleted(index), ctx.commit.request), saga, instance,
                       ctx.(steps := ctx.steps + [(step.name, result.response)]),
                       completed + [CompletedStep(index, command.command.target)], index + 1)
  }

  ghost predicate CompensationsMeet(P: Kind, w: World, saga: Saga, instance: Id, ctx: SagaContext,
                                    completed: seq<CompletedStep>)
    requires WithinSteps(saga, completed)
    decreases |completed|
  {
    completed != [] ==>
      var entry, earlier := completed[|completed| - 1], completed[..|completed| - 1];
      var step := saga.steps[entry.index];
      match step.compensation
      case None => CompensationsMeet(P, w, saga, instance, ctx, earlier)
      case Some(c) =>
        match CompensationRequest(w, ctx.commit.request, step, c, entry, ctx)
        case Err(_) => true
        case Ok(command) =>
          var (w1, outcome) := ExecutePlain(w, command);
          var mark := if outcome.Ok? then Compensated(entry.index) else CompensationFailed(entry.index);
          && P(w, command)
          && CompensationsMeet(P, AppendMark(w1, saga, instance, mark, ctx.commit.request), saga, instance, ctx,
                               earlier)
  }

  ghost predicate StartedMeets(P: Kind, w: World, saga: Saga, instance: Id, ctx: SagaContext) {
    var w1 := AppendMark(w, saga, instance, Started, ctx.commit.request);
    var run := RunSteps(w1, saga, instance, ctx, [], 0);
    StepsWithin(w1, saga, instance, ctx, [], 0);
    && StepsMeet(P, w1, saga, instance, ctx, [], 0)
    && match run.failure
       case None => true
       case Some((at, _)) =>
         CompensationsMeet(P, AppendMark(run.world, saga, instance, StepFailed(at), ctx.commit.request), saga, instance,
                           run.context, run.completed)
  }

  ghost predicate SagaMeets(P: Kind, w: World, saga: Saga, commit: CommitContext) {
    match Trigger(saga, commit.committed, commit.request)
    case None => true
    case Some(trigger) =>
      var ctx := SagaContext(commit, trigger, []);
      saga.condition(ctx) == Ok(true) ==> StartedMeets(P, w, saga, Instance(saga, commit.request), ctx)
  }

  /** Every step and compensation that the sagas of a commit execute is of this kind. */
  ghost predicate SagasMeet(P: Kind, w: World, sagas: seq<Saga>, commit: CommitContext)
    decreases |sagas|
  {
    sagas != [] ==>
      && SagaMeets(P, w, sagas[0], commit)
      && var undo := RunSaga(w, sagas[0], commit);
         undo.done.Err? || SagasMeet(P, undo.world, sagas[1..], commit)
  }

  // ------------------------------------------------------------- what every such request inherits

  /** A step carries its trigger's effects, with sagas off, and its controls, actor and key header. */
  predicate Inherits(req: Request, source: Request) {
    && req.effects == source.effects.(skipSagas := true)
    && req.controls == source.controls
    && req.actor == source.actor
    && req.idempotencyHeader == source.idempotencyHeader
  }

  ghost function Inherited(source: Request): Kind {
    (w: World, req: Request) => Inherits(req, source)
  }

  /** One kind implies another, for requests that inherit from this one. */
  ghost predicate Refines(everywhere: bool, P: Kind, Q: Kind, source: Request) {
    forall w: World, req: Request :: (everywhere || P(w, req)) && Inherits(req, source) ==> Q(w, req)
  }

  lemma {:induction false} StepsMeetAs(everywhere: bool, P: Kind, Q: Kind, w: World, saga: Saga, instance: Id,
                                       ctx: SagaContext, completed: seq<CompletedStep>, index: nat)
    requires index <= |saga.steps| && Refines(everywhere, P, Q, ctx.commit.request)
    requires everywhere || StepsMeet(P, w, saga, instance, ctx, completed, index)
    ensures StepsMeet(Q, w, saga, instance, ctx, completed, index)
    decreases |saga.steps| - index
  {
    hide ExecutePlain, AppendMark;
    if index < |saga.steps| {
      var step := saga.steps[index];
      var request := StepRequest(w, ctx.commit.request, step, ctx);
      if request.Ok? {
        assert Inherits(request.value, ctx.commit.request);
        var (w1, outcome) := ExecutePlain(w, request.value);
        if outcome.Ok? {
          StepsMeetAs(everywhere, P, Q, AppendMark(w1, saga, instance, StepCompleted(index), ctx.commit.request),
                      saga, instance, ctx.(steps := ctx.steps + [(step.name, outcome.value.response)]),
                      completed + [CompletedStep(index, request.value.command.target)], index + 1);
        }
      }
    }
  }

  lemma {:induction false} CompensationsMeetAs(everywhere: bool, P: Kind, Q: Kind, w: World, saga: Saga, instance: Id,
                                               ctx: SagaContext, completed: seq<CompletedStep>)
    requires WithinSteps(saga, completed) && Refines(everywhere, P, Q, ctx.commit.request)
    requires everywhere || CompensationsMeet(P, w, saga, instance, ctx, completed)
    ensures CompensationsMeet(Q, w, saga, instance, ctx, completed)
    decreases |completed|
  {
    hide ExecutePlain, AppendMark;
    if completed != [] {
      var entry, earlier := completed[|completed| - 1], completed[..|completed| - 1];
      var step := saga.steps[entry.index];
      if step.compensation.None? {
        CompensationsMeetAs(everywhere, P, Q, w, saga, instance, ctx, earlier);
      } else {
        var request := CompensationRequest(w, ctx.commit.request, step, step.compensation.value, entry, ctx);
        if request.Ok? {
          assert Inherits(request.value, ctx.commit.request);
          var (w1, outcome) := ExecutePlain(w, request.value);
          var mark := if outcome.Ok? then Compensated(entry.index) else CompensationFailed(entry.index);
          CompensationsMeetAs(everywhere, P, Q, AppendMark(w1, saga, instance, mark, ctx.commit.request), saga,
                              instance, ctx, earlier);
        }
      }
    }
  }

  lemma StartedMeetsAs(everywhere: bool, P: Kind, Q: Kind, w: World, saga: Saga, instance: Id, ctx: SagaContext)
    requires Refines(everywhere, P, Q, ctx.commit.request)
    requires everywhere || StartedMeets(P, w, saga, instance, ctx)
    ensures StartedMeets(Q, w, saga, instance, ctx)
  {
    hide AppendMark, RunSteps, ExecutePlain, StepsMeet, CompensationsMeet, Refines;
    var w1 := AppendMark(w, saga, instance, Started, ctx.commit.request);
    var run := RunSteps(w1, saga, instance, ctx, [], 0);
    StepsWithin(w1, saga, instance, ctx, [], 0);
    StepsKeepCommit(w1, saga, instance, ctx, [], 0);
    StepsMeetAs(everywhere, P, Q, w1, saga, instance, ctx, [], 0);
    if run.failure.Some? {
      var failed := AppendMark(run.world, saga, instance, StepFailed(run.failure.value.0), ctx.commit.request);
      CompensationsMeetAs(everywhere, P, Q, failed, saga, instance, run.context, run.completed);
    }
  }

  /** What the sagas of a commit execute is of a kind, given that it inherits from the commit's
      request. */
  lemma {:induction false} SagasMeetAs(everywhere: bool, P: Kind, Q: Kind, w: World, sagas: seq<Saga>,
                                       commit: CommitContext)
    requires Refines(everywhere, P, Q, commit.request)
    requires everywhere || SagasMeet(P, w, sagas, commit)
    ensures SagasMeet(Q, w, sagas, commit)
    decreases |sagas|
  {
    hide RunStarted, StartedMeets, Refines;
    if sagas != [] {
      var trigger := Trigger(sagas[0], commit.committed, commit.request);
      if trigger.Some? {
        var ctx := SagaContext(commit, trigger.value, []);
        if sagas[0].condition(ctx) == Ok(true) {
          StartedMeetsAs(everywhere, P, Q, w, sagas[0], Instance(sagas[0], commit.request), ctx);
        }
      }
      var undo := RunSaga(w, sagas[0], commit);
      if undo.done.Ok? { SagasMeetAs(everywhere, P, Q, undo.world, sagas[1..], commit); }
    }
  }

  // ------------------------------------------------------------- chaining

  lemma {:induction false} StepsChain(R: Relation, P: Kind, w: World, saga: Saga, instance: Id, ctx: SagaContext,
                                     completed: seq<CompletedStep>, index: nat)
    requires index <= |saga.steps| && KeptByLinks(R, P)
    requires StepsMeet(P, w, saga, instance, ctx, completed, index)
    ensures R(w, RunSteps(w, saga, instance, ctx, completed, index).world)
    decreases |saga.steps| - index
  {
    hide ExecutePlain, AppendMark, StepRequest;
    if index < |saga.steps| {
      var step := saga.steps[index];
      var request := StepRequest(w, ctx.commit.request, step, ctx);
      if request.Ok? {
        var (w1, outcome) := ExecutePlain(w, request.value);
        assert R(w, w1);
        if outcome.Ok? {
          var w2 := AppendMark(w1, saga, instance, StepCompleted(index), ctx.commit.request);
          var ctx' := ctx.(steps := ctx.steps + [(step.name, outcome.value.response)]);
          StepsChain(R, P, w2, saga, instance, ctx', completed + [CompletedStep(index, request.value.command.target)],
                     index + 1);
          assert R(w, w2);
        }
      }
    }
  }

  lemma {:induction false} CompensationChain(R: Relation, P: Kind, w: World, saga: Saga, instance: Id, ctx: SagaContext,
                                            completed: seq<CompletedStep>)
    requires WithinSteps(saga, completed) && KeptByLinks(R, P)
    requires CompensationsMeet(P, w, saga, instance, ctx, completed)
    ensures R(w, Compensate(w, saga, instance, ctx, completed).world)
    decreases |completed|
  {
    hide ExecutePlain, AppendMark, CompensationRequest;
    if completed != [] {
      var entry, earlier := completed[|completed| - 1], completed[..|completed| - 1];
      var step := saga.steps[entry.index];
      if step.compensation.None? {
        CompensationChain(R, P, w, saga, instance, ctx, earlier);
      } else {
        var request := CompensationRequest(w, ctx.commit.request, step, step.compensation.value, entry, ctx);
        if request.Ok? {
          var (w1, outcome) := ExecutePlain(w, request.value);
          assert R(w, w1);
          var mark := if outcome.Ok? then Compensated(entry.index) else CompensationFailed(entry.index);
          var w2 := AppendMark(w1, saga, instance, mark, ctx.commit.request);
          CompensationChain(R, P, w2, saga, instance, ctx, earlier);
          assert R(w, w2);
        }
      }
    }
  }

  lemma {:induction false} StepsKeepCommit(w: World, saga: Saga, instance: Id, ctx: SagaContext,
                                           completed: seq<CompletedStep>, index: nat)
    requires index <= |saga.steps|
    ensures RunSteps(w, saga, instance, ctx, completed, index).context.commit == ctx.commit
    decreases |saga.steps| - index
  {
    hide ExecutePlain, AppendMark, StepRequest;
    if index < |saga.steps| {
      var step := saga.steps[index];
      var request := StepRequest(w, ctx.commit.request, step, ctx);
      if request.Ok? {
        var (w1, outcome) := ExecutePlain(w, request.value);
        if outcome.Ok? {
          StepsKeepCommit(AppendMark(w1, saga, instance, StepCompleted(index), ctx.commit.request), saga, instance,
                           ctx.(steps := ctx.steps + [(step.name, outcome.value.response)]),
                           completed + [CompletedStep(index, request.value.command.target)], index + 1);
        }
      }
    }
  }

  lemma StartedChain(R: Relation, P: Kind, w: World, saga: Saga, instance: Id, ctx: SagaContext)
    requires KeptByLinks(R, P) && StartedMeets(P, w, saga, instance, ctx)
    ensures R(w, RunStarted(w, saga, instance, ctx).world)
  {
    hide AppendMark, RunSteps, Compensate, ExecutePlain, StepsMeet, CompensationsMeet;
    var req := ctx.commit.request;
    var w1 := AppendMark(w, saga, instance, Started, req);
    var run := RunSteps(w1, saga, instance, ctx, [], 0);
    StepsWithin(w1, saga, instance, ctx, [], 0);
    StepsChain(R, P, w1, saga, instance, ctx, [], 0);
    assert R(w, w1) && R(w1, run.world) && R(w, run.world);
    if run.failure.Some? {
      var failed := AppendMark(run.world, saga, instance, StepFailed(run.failure.value.0), req);
      CompensationChain(R, P, failed, saga, instance, run.context, run.completed);
      assert R(w, failed);
      assert R(w, Compensate(failed, saga, instance, run.context, run.completed).world);
    }
  }

  /** A relation kept by marks and by requests of a kind is kept by sagas that execute only those. */
  lemma {:induction false} SagasChainWhere(R: Relation, P: Kind, w: World, sagas: seq<Saga>, commit: CommitContext)
    requires KeptByLinks(R, P) && SagasMeet(P, w, sagas, commit)
    ensures R(w, RunSagas(w, sagas, commit).0)
    decreases |sagas|
  {
    hide RunStarted, ExecutePlain, AppendMark, StartedMeets;
    if sagas != [] {
      var trigger := Trigger(sagas[0], commit.committed, commit.request);
      if trigger.Some? {
        var ctx := SagaContext(commit, trigger.value, []);
        if sagas[0].condition(ctx) == Ok(true) {
          StartedChain(R, P, w, sagas[0], Instance(sagas[0], commit.request), ctx);
        }
      }
      var undo := RunSaga(w, sagas[0], commit);
      assert R(w, undo.world);
      if undo.done.Ok? { SagasChainWhere(R, P, undo.world, sagas[1..], commit); }
    }
  }

  /** So a relation kept by every request that inherits from the commit's is kept by all its sagas. */
  lemma SagasChain(R: Relation, w: World, sagas: seq<Saga>, commit: CommitContext)
    requires KeptByLinks(R, Inherited(commit.request))
    ensures R(w, RunSagas(w, sagas, commit).0)
  {
    hide KeptByLinks, RunSagas, SagasMeet;
    SagasMeetAs(true, Inherited(commit.request), Inherited(commit.request), w, sagas, commit);
    SagasChainWhere(R, Inherited(commit.request), w, sagas, commit);
  }
}
