// What a saga writes to the log, and what its compensations restore (src/core/engine.ts: runSagas,
// appendSagaEvent).
module Sagas {
  import opened Batches
  import opened Domain
  import opened EventSourcing
  import opened GraphInvariant
  import opened Json
  import opened ProjectionRuns
  import opened Projections
  import opened Reduction
  import opened Runtime
  import opened Wrappers

  // ------------------------------------------------------------- the grammar of marks

  /** StepCompleted for each index from `first` up to, not including, `end`. */
  function StepMarks(first: nat, end: nat): seq<Mark>
    requires first <= end
    decreases end - first
  {
    if first == end then [] else [StepCompleted(first)] + StepMarks(first + 1, end)
  }

  /** The compensable steps among the first `n`, last first. */
  function CompensableDown(saga: Saga, n: nat): seq<nat>
    requires n <= |saga.steps|
  {
    if n == 0 then []
    else (if saga.steps[n - 1].compensation.Some? then [n - 1] else []) + CompensableDown(saga, n - 1)
  }

  /** Each mark is the fate of the compensation of the step at the same position. */
  ghost predicate Undoing(marks: seq<Mark>, steps: seq<nat>) {
    && |marks| == |steps|
    && forall i :: 0 <= i < |marks| ==> marks[i] == Compensated(steps[i]) || marks[i] == CompensationFailed(steps[i])
  }

  ghost predicate Finished(saga: Saga, marks: seq<Mark>) {
    marks == [Started] + StepMarks(0, |saga.steps|) + [SagaCompleted]
  }

  ghost predicate FailedAt(saga: Saga, marks: seq<Mark>, at: nat, comp: seq<Mark>)
    requires at <= |saga.steps|
  {
    Undoing(comp, CompensableDown(saga, at))
    && marks == [Started] + StepMarks(0, at) + [StepFailed(at)] + comp + [SagaFailed(at)]
  }

  /** A compensation's target or payload resolver threw: the rest is missing, SagaFailed included. */
  ghost predicate CutShortAt(saga: Saga, marks: seq<Mark>, at: nat, comp: seq<Mark>)
    requires at <= |saga.steps|
  {
    |comp| < |CompensableDown(saga, at)|
    && Undoing(comp, CompensableDown(saga, at)[..|comp|])
    && marks == [Started] + StepMarks(0, at) + [StepFailed(at)] + comp
  }

  /** All that a saga that ran to its end writes. */
  ghost predicate Complete(saga: Saga, marks: seq<Mark>) {
    || Finished(saga, marks)
    || exists at: nat, comp: seq<Mark> :: at < |saga.steps| && FailedAt(saga, marks, at, comp)
  }

  ghost predicate CutShort(saga: Saga, marks: seq<Mark>) {
    exists at: nat, comp: seq<Mark> :: at < |saga.steps| && CutShortAt(saga, marks, at, comp)
  }

  ghost predicate Grammatical(saga: Saga, marks: seq<Mark>) {
    Complete(saga, marks) || CutShort(saga, marks)
  }

  /** The target and payload of a step's compensation can be resolved; the context is the same for
      all compensations of a run, so this is known before the first of them. */
  predicate Resolves(saga: Saga, ctx: SagaContext, index: nat)
    requires index < |saga.steps|
  {
    match saga.steps[index].compensation
    case None => true
    case Some(c) => (c.target.Some? ==> c.target.value(ctx).Ok?) && c.payload(ctx).Ok?
  }

  /** The compensable steps among the first `n`, last first, up to one that does not resolve. */
  function UndoneDown(saga: Saga, ctx: SagaContext, n: nat): seq<nat>
    requires n <= |saga.steps|
  {
    if n == 0 || !Resolves(saga, ctx, n - 1) then []
    else (if saga.steps[n - 1].compensation.Some? then [n - 1] else []) + UndoneDown(saga, ctx, n - 1)
  }

  ghost predicate AllResolve(saga: Saga, ctx: SagaContext, n: nat)
    requires n <= |saga.steps|
  {
    forall i :: 0 <= i < n ==> Resolves(saga, ctx, i)
  }

  lemma {:induction false} UndoneIsPrefix(saga: Saga, ctx: SagaContext, n: nat)
    requires n <= |saga.steps|
    ensures UndoneDown(saga, ctx, n) <= CompensableDown(saga, n)
    ensures UndoneDown(saga, ctx, n) == CompensableDown(saga, n) <==> AllResolve(saga, ctx, n)
  {
    if n > 0 {
      UndoneIsPrefix(saga, ctx, n - 1);
      if !Resolves(saga, ctx, n - 1) {
        assert |CompensableDown(saga, n)| > 0;
      } else if AllResolve(saga, ctx, n - 1) {
        assert AllResolve(saga, ctx, n);
      }
    }
  }

  /** The completed list is exactly the steps 0 to n - 1, in order. */
  ghost predicate InOrder(completed: seq<CompletedStep>) {
    forall i :: 0 <= i < |completed| ==> completed[i].index == i
  }

  lemma {:induction false} RunStepsMarks(w: World, saga: Saga, instance: Id, ctx: SagaContext,
                                         completed: seq<CompletedStep>, index: nat)
    requires index <= |saga.steps| && InOrder(completed) && |completed| == index
    ensures var run := RunSteps(w, saga, instance, ctx, completed, index);
            var end := |run.completed|;
            && index <= end <= |saga.steps| && InOrder(run.completed) && completed <= run.completed
            && run.marks == StepMarks(index, end)
            && (run.failure.None? <==> end == |saga.steps|)
            && (run.failure.Some? ==> run.failure.value.0 == end)
    decreases |saga.steps| - index
  {
    hide ExecutePlain, AppendMark, StepRequest;
    if index < |saga.steps| {
      var step := saga.steps[index];
      var request := StepRequest(w, ctx.commit.request, step, ctx);
      if request.Ok? {
        var (w1, outcome) := ExecutePlain(w, request.value);
        if outcome.Ok? {
          RunStepsMarks(AppendMark(w1, saga, instance, StepCompleted(index), ctx.commit.request), saga, instance,
                        ctx.(steps := ctx.steps + [(step.name, outcome.value.response)]),
                        completed + [CompletedStep(index, request.value.command.target)], index + 1);
        }
      }
    }
  }

  /** Compensating writes one mark per compensable step, from the last back, until one does not
      resolve; it throws exactly when there is such a step. */
  lemma {:induction false} CompensateMarks(w: World, saga: Saga, instance: Id, ctx: SagaContext,
                                           completed: seq<CompletedStep>)
    requires InOrder(completed) && |completed| <= |saga.steps|
    ensures WithinSteps(saga, completed)
    ensures var undo := Compensate(w, saga, instance, ctx, completed);
            && Undoing(undo.marks, UndoneDown(saga, ctx, |completed|))
            && (undo.done.Ok? <==> AllResolve(saga, ctx, |completed|))
    decreases |completed|
  {
    hide ExecutePlain, AppendMark;
    if completed != [] {
      var n := |completed|;
      var entry, earlier := completed[n - 1], completed[..n - 1];
      var step := saga.steps[entry.index];
      if step.compensation.None? {
        CompensateMarks(w, saga, instance, ctx, earlier);
        assert AllResolve(saga, ctx, n) <==> AllResolve(saga, ctx, n - 1) && Resolves(saga, ctx, n - 1);
      } else {
        var request := CompensationRequest(w, ctx.commit.request, step, step.compensation.value, entry, ctx);
        assert request.Ok? <==> Resolves(saga, ctx, n - 1);
        assert AllResolve(saga, ctx, n) <==> AllResolve(saga, ctx, n - 1) && Resolves(saga, ctx, n - 1);
        if request.Ok? {
          var (w1, outcome) := ExecutePlain(w, request.value);
          var mark := if outcome.Ok? then Compensated(entry.index) else CompensationFailed(entry.index);
          CompensateMarks(AppendMark(w1, saga, instance, mark, ctx.commit.request), saga, instance, ctx, earlier);
        }
      }
    }
  }

  lemma CutShortIsIncomplete(saga: Saga, marks: seq<Mark>, at: nat, comp: seq<Mark>)
    requires at < |saga.steps| && CutShortAt(saga, marks, at, comp)
    ensures !Complete(saga, marks)
  {
    hide StepMarks, CompensableDown;
    var last := marks[|marks| - 1];
    if comp != [] { assert last == comp[|comp| - 1]; }
    assert !last.SagaFailed? && !last.SagaCompleted?;
  }

  /** Every saga run follows the grammar: all steps and SagaCompleted; or the steps before the
      failing one, StepFailed, one mark per compensable step from the last back, SagaFailed. It is cut
      short, SagaFailed and all, exactly when a step fails and one of the completed steps has a
      compensation whose target or payload does not resolve. */
  lemma SagaFollowsGrammar(w: World, saga: Saga, instance: Id, ctx: SagaContext)
    ensures var run := RunSteps(AppendMark(w, saga, instance, Started, ctx.commit.request), saga, instance, ctx, [], 0);
            var undo := RunStarted(w, saga, instance, ctx);
            var at := |run.completed|;
            && at <= |saga.steps| && (run.failure.None? <==> at == |saga.steps|)
            && Grammatical(saga, undo.marks)
            && (run.failure.None? ==> Finished(saga, undo.marks))
            && (undo.done.Ok? <==> run.failure.None? || AllResolve(saga, run.context, at))
            && (Complete(saga, undo.marks) <==> run.failure.None? || AllResolve(saga, run.context, at))
            && (run.failure.Some? ==>
                  exists comp :: Undoing(comp, UndoneDown(saga, run.context, at))
                    && undo.marks == [Started] + StepMarks(0, at) + [StepFailed(at)] + comp
                                     + (if undo.done.Ok? then [SagaFailed(at)] else []))
  {
    hide AppendMark, RunSteps, Compensate, StepMarks, CompensableDown, UndoneDown, AllResolve;
    var w1 := AppendMark(w, saga, instance, Started, ctx.commit.request);
    var run := RunSteps(w1, saga, instance, ctx, [], 0);
    StepsWithin(w1, saga, instance, ctx, [], 0);
    RunStepsMarks(w1, saga, instance, ctx, [], 0);
    if run.failure.Some? {
      var at := run.failure.value.0;
      var failed := AppendMark(run.world, saga, instance, StepFailed(at), ctx.commit.request);
      CompensateMarks(failed, saga, instance, run.context, run.completed);
      UndoneIsPrefix(saga, run.context, at);
      var undo := Compensate(failed, saga, instance, run.context, run.completed);
      var marks := RunStarted(w, saga, instance, ctx).marks;
      if undo.done.Ok? {
        assert FailedAt(saga, marks, at, undo.marks);
      } else {
        assert marks + [] == marks;
        assert CutShortAt(saga, marks, at, undo.marks);
        CutShortIsIncomplete(saga, marks, at, undo.marks);
      }
    }
  }

  // ------------------------------------------------------------- a saga that is cut short

  const BROKEN := RuntimeError(500, "resolver failed")

  function EmptyPayload(): SagaContext -> Result<Object, RuntimeError> {
    (ctx: SagaContext) => Ok([])
  }

  function BrokenPayload(): SagaContext -> Result<Object, RuntimeError> {
    (ctx: SagaContext) => Err(BROKEN)
  }

  function Untargeted(): SagaContext -> Result<Option<Id>, RuntimeError> {
    (ctx: SagaContext) => Ok(None)
  }

  function Unrouted(): Option<Id> -> string {
    (target: Option<Id>) => ""
  }

  /** Two steps: the first has a compensation whose payload throws, the second throws itself. */
  function BrokenSaga(): Saga {
    var compensation := Compensation(Mutation, "undo", None, BrokenPayload(), Unrouted());
    Saga("broken", "b", Creation, (ctx: SagaContext) => Ok(true), [
      SagaStep("first", "elsewhere", Mutation, "do", Untargeted(), EmptyPayload(), Unrouted(), Some(compensation)),
      SagaStep("second", "elsewhere", Mutation, "do", Untargeted(), BrokenPayload(), Unrouted(), None)])
  }

  /** In any ready engine that answers requests to unknown boundaries, this saga stops after
      StepFailed: the completed step is never compensated and SagaFailed is never written. */
  lemma BrokenSagaIsCutShort(w: World, instance: Id, ctx: SagaContext)
    requires w.ready && Find(w.program, "elsewhere").None? && forall req: Request :: w.program.route(req).Ok?
    ensures var undo := RunStarted(w, BrokenSaga(), instance, ctx);
            && undo.marks == [Started, StepCompleted(0), StepFailed(1)] && undo.done == Err(BROKEN)
            && CutShort(BrokenSaga(), undo.marks) && !Complete(BrokenSaga(), undo.marks)
  {
    hide Find, SagaEvent, Complete, CutShort, Grammatical;
    var saga := BrokenSaga();
    var w1 := AppendMark(w, saga, instance, Started, ctx.commit.request);
    var first := StepRequest(w1, ctx.commit.request, saga.steps[0], ctx).value;
    var routed := w.program.route(first);
    assert ExecutePlain(w1, first) == (w1, Ok(Execution(routed.value, [], false)));
    var w2 := AppendMark(w1, saga, instance, StepCompleted(0), ctx.commit.request);
    var ctx' := ctx.(steps := ctx.steps + [("first", routed.value)]);
    var done := [CompletedStep(0, None)];
    assert RunSteps(w2, saga, instance, ctx', done, 1) == StepsRun(w2, ctx', done, [], Some((1, BROKEN)));
    assert [] + done == done && [StepCompleted(0)] + [] == [StepCompleted(0)];
    assert RunSteps(w1, saga, instance, ctx, [], 0) == StepsRun(w2, ctx', done, [StepCompleted(0)], Some((1, BROKEN)));
    var failed := AppendMark(w2, saga, instance, StepFailed(1), ctx.commit.request);
    assert Compensate(failed, saga, instance, ctx', done) == Undo(failed, [], Err(BROKEN));
    SagaFollowsGrammar(w, saga, instance, ctx);
    assert !Resolves(saga, ctx', 0);
    assert Grammatical(saga, RunStarted(w, saga, instance, ctx).marks);
    assert [Started] + [StepCompleted(0)] + [StepFailed(1)] + [] == [Started, StepCompleted(0), StepFailed(1)];
    GrammaticalIsEither(saga, RunStarted(w, saga, instance, ctx).marks);
  }

  lemma GrammaticalIsEither(saga: Saga, marks: seq<Mark>)
    requires Grammatical(saga, marks)
    ensures Complete(saga, marks) || CutShort(saga, marks)
  {}

  // ------------------------------------------------------------- marks are what the log holds

  function SagaPart(events: seq<Event>): seq<Event> {
    SelectFrom(events, (e: Event) => e.boundary == SAGA_BOUNDARY)
  }

  ghost predicate Renders(saga: Saga, instance: Id, marks: seq<Mark>, events: seq<Event>) {
    && |events| == |marks|
    && forall i :: 0 <= i < |marks| ==>
         && events[i].aggregate == instance
         && events[i].kind == MarkKind(marks[i]) && events[i].payload == MarkPayload(saga, marks[i])
  }

  /** From w to w' the log gained exactly these marks of this instance, and no other saga event. */
  ghost predicate Writes(w: World, w': World, saga: Saga, instance: Id, marks: seq<Mark>) {
    && w.log <= w'.log
    && Renders(saga, instance, marks, SagaPart(w'.log[|w.log|..]))
  }

  ghost predicate Steady(w: World) {
    w.batch.None? && WellFormed(w.program) && Graph(w)
  }

  lemma SagaPartAppend(a: seq<Event>, b: seq<Event>)
    ensures SagaPart(a + b) == SagaPart(a) + SagaPart(b)
  {
    SelectAppend(a, b, (e: Event) => e.boundary == SAGA_BOUNDARY);
  }

  lemma WritesThen(a: World, b: World, c: World, saga: Saga, instance: Id, first: seq<Mark>, second: seq<Mark>)
    requires Writes(a, b, saga, instance, first) && Writes(b, c, saga, instance, second)
    ensures Writes(a, c, saga, instance, first + second)
  {
    hide MarkPayload, MarkKind, SagaPart;
    var x, y := b.log[|a.log|..], c.log[|b.log|..];
    assert c.log[|a.log|..] == x + y;
    SagaPartAppend(x, y);
  }

  lemma {:induction false} NoneSelected(events: seq<Event>)
    requires forall i :: 0 <= i < |events| ==> events[i].boundary != SAGA_BOUNDARY
    ensures SagaPart(events) == []
  {
    if events != [] { NoneSelected(events[1..]); }
  }

  lemma PlainWritesNothing(w: World, req: Request, saga: Saga, instance: Id)
    requires Steady(w)
    ensures Writes(w, ExecutePlain(w, req).0, saga, instance, [])
  {
    hide StageRequest, Graph, WellFormed, Project, Remember, SagaPart;
    StageAnnounced(w, req);
    var stage := StageRequest(w, req);
    var w' := ExecutePlain(w, req).0;
    StageKeepsBatch(w, req);
    if stage.Staged? {
      RememberKeepsLog(Announce(stage.world, stage.post).0, stage.key, req, stage.result);
      assert w'.log == w.log + stage.post.events;
      assert w'.log[|w.log|..] == stage.post.events;
      NoneSelected(stage.post.events);
    } else {
      assert w'.log[|w.log|..] == [];
      NoneSelected([]);
    }
  }

  lemma RememberKeepsLog(w: World, key: Option<string>, req: Request, result: Execution)
    ensures Remember(w, key, req, result).log == w.log
  {}

  lemma MarkWrites(w: World, saga: Saga, instance: Id, mark: Mark, req: Request)
    ensures Writes(w, AppendMark(w, saga, instance, mark, req), saga, instance, [mark])
  {
    hide MarkPayload, MarkKind, CurrentVersion;
    var e := SagaEvent(w, saga, instance, mark, req);
    var w' := AppendMark(w, saga, instance, mark, req);
    assert w'.log[|w.log|..] == [e];
    assert SagaPart([e]) == [e] + SagaPart([e][1..]);
  }

  lemma SteadyPlain(w: World, req: Request)
    requires Steady(w)
    ensures Steady(ExecutePlain(w, req).0)
  {
    hide Graph, WellFormed, ExecutePlain;
    ExecutePlainKeeps(w, req);
  }

  lemma SteadyMark(w: World, saga: Saga, instance: Id, mark: Mark, req: Request)
    requires Steady(w)
    ensures Steady(AppendMark(w, saga, instance, mark, req))
  {
    hide Graph, WellFormed, AppendMark;
    MarkKeeps(w, saga, instance, mark, req);
  }

  lemma {:induction false} RunStepsWrite(w: World, saga: Saga, instance: Id, ctx: SagaContext,
                                         completed: seq<CompletedStep>, index: nat)
    requires index <= |saga.steps| && Steady(w)
    ensures var run := RunSteps(w, saga, instance, ctx, completed, index);
            Steady(run.world) && Writes(w, run.world, saga, instance, run.marks)
    decreases |saga.steps| - index
  {
    hide ExecutePlain, AppendMark, StepRequest, Steady, Writes;
    WritesNothing(w, saga, instance);
    if index < |saga.steps| {
      var step := saga.steps[index];
      var request := StepRequest(w, ctx.commit.request, step, ctx);
      if request.Ok? {
        var (w1, outcome) := ExecutePlain(w, request.value);
        SteadyPlain(w, request.value);
        PlainWritesNothing(w, request.value, saga, instance);
        if outcome.Ok? {
          var mark := StepCompleted(index);
          var w2 := AppendMark(w1, saga, instance, mark, ctx.commit.request);
          SteadyMark(w1, saga, instance, mark, ctx.commit.request);
          MarkWrites(w1, saga, instance, mark, ctx.commit.request);
          WritesThen(w, w1, w2, saga, instance, [], [mark]);
          var ctx' := ctx.(steps := ctx.steps + [(step.name, outcome.value.response)]);
          var completed' := completed + [CompletedStep(index, request.value.command.target)];
          RunStepsWrite(w2, saga, instance, ctx', completed', index + 1);
          var run := RunSteps(w2, saga, instance, ctx', completed', index + 1);
          assert [] + [mark] == [mark];
          WritesThen(w, w2, run.world, saga, instance, [mark], run.marks);
        }
      }
    }
  }

  lemma WritesNothing(w: World, saga: Saga, instance: Id)
    ensures Writes(w, w, saga, instance, [])
  {
    assert w.log[|w.log|..] == [];
    NoneSelected([]);
  }

  lemma {:induction false} CompensateWrites(w: World, saga: Saga, instance: Id, ctx: SagaContext,
                                            completed: seq<CompletedStep>)
    requires WithinSteps(saga, completed) && Steady(w)
    ensures var undo := Compensate(w, saga, instance, ctx, completed);
            Steady(undo.world) && Writes(w, undo.world, saga, instance, undo.marks)
    decreases |completed|
  {
    hide ExecutePlain, AppendMark, CompensationRequest, Steady, Writes;
    WritesNothing(w, saga, instance);
    if completed != [] {
      var entry, earlier := completed[|completed| - 1], completed[..|completed| - 1];
      var step := saga.steps[entry.index];
      if step.compensation.None? {
        CompensateWrites(w, saga, instance, ctx, earlier);
      } else {
        var request := CompensationRequest(w, ctx.commit.request, step, step.compensation.value, entry, ctx);
        if request.Ok? {
          var (w1, outcome) := ExecutePlain(w, request.value);
          SteadyPlain(w, request.value);
          PlainWritesNothing(w, request.value, saga, instance);
          var mark := if outcome.Ok? then Compensated(entry.index) else CompensationFailed(entry.index);
          var w2 := AppendMark(w1, saga, instance, mark, ctx.commit.request);
          SteadyMark(w1, saga, instance, mark, ctx.commit.request);
          MarkWrites(w1, saga, instance, mark, ctx.commit.request);
          WritesThen(w, w1, w2, saga, instance, [], [mark]);
          CompensateWrites(w2, saga, instance, ctx, earlier);
          var rest := Compensate(w2, saga, instance, ctx, earlier);
          assert [] + [mark] == [mark];
          WritesThen(w, w2, rest.world, saga, instance, [mark], rest.marks);
        }
      }
    }
  }

  /** The saga events a run adds to the log are exactly its marks, all of its own instance: sagas
      never nest, and no step or compensation writes a saga event. */
  lemma SagaLogIsItsMarks(w: World, saga: Saga, instance: Id, ctx: SagaContext)
    requires Steady(w)
    ensures var undo := RunStarted(w, saga, instance, ctx);
            Steady(undo.world) && Writes(w, undo.world, saga, instance, undo.marks)
  {
    hide AppendMark, RunSteps, Compensate, Steady, Writes;
    var req := ctx.commit.request;
    var w1 := AppendMark(w, saga, instance, Started, req);
    SteadyMark(w, saga, instance, Started, req);
    MarkWrites(w, saga, instance, Started, req);
    var run := RunSteps(w1, saga, instance, ctx, [], 0);
    StepsWithin(w1, saga, instance, ctx, [], 0);
    RunStepsWrite(w1, saga, instance, ctx, [], 0);
    WritesThen(w, w1, run.world, saga, instance, [Started], run.marks);
    var sofar := [Started] + run.marks;
    match run.failure
    case None => WriteOne(w, run.world, saga, instance, sofar, SagaCompleted, req);
    case Some((at, _)) =>
      var failed := AppendMark(run.world, saga, instance, StepFailed(at), req);
      WriteOne(w, run.world, saga, instance, sofar, StepFailed(at), req);
      var undo := Compensate(failed, saga, instance, run.context, run.completed);
      CompensateWrites(failed, saga, instance, run.context, run.completed);
      WritesThen(w, failed, undo.world, saga, instance, sofar + [StepFailed(at)], undo.marks);
      var marks := sofar + [StepFailed(at)] + undo.marks;
      if undo.done.Ok? { WriteOne(w, undo.world, saga, instance, marks, SagaFailed(at), req); }
  }

  lemma WriteOne(w: World, w1: World, saga: Saga, instance: Id, sofar: seq<Mark>, mark: Mark, req: Request)
    requires Writes(w, w1, saga, instance, sofar) && Steady(w1)
    ensures Writes(w, AppendMark(w1, saga, instance, mark, req), saga, instance, sofar + [mark])
    ensures Steady(AppendMark(w1, saga, instance, mark, req))
  {
    hide AppendMark, Steady, Writes;
    SteadyMark(w1, saga, instance, mark, req);
    MarkWrites(w1, saga, instance, mark, req);
    WritesThen(w, w1, AppendMark(w1, saga, instance, mark, req), saga, instance, sofar, [mark]);
  }

  // ------------------------------------------------------------- compensation restores the graph

  /** The worlds before each step that was attempted, and the world the steps ended in. */
  ghost function StepWorlds(w: World, saga: Saga, instance: Id, ctx: SagaContext, completed: seq<CompletedStep>,
                            index: nat)
    : (worlds: seq<World>)
    requires index <= |saga.steps|
    ensures |worlds| >= 1 && worlds[0] == w
    decreases |saga.steps| - index
  {
    if index == |saga.steps| then [w]
    else
      var step := saga.steps[index];
      match StepRequest(w, ctx.commit.request, step, ctx)
      case Err(_) => [w]
      case Ok(command) =>
        var (w1, outcome) := ExecutePlain(w, command);
        match outcome
        case Err(_) => [w]
        case Ok(result) =>
          [w] + StepWorlds(AppendMark(w1, saga, instance, StepCompleted(index), ctx.commit.request), saga, instance,
                           ctx.(steps := ctx.steps + [(step.name, result.response)]),
                           completed + [CompletedStep(index, command.command.target)], index + 1)
  }

  /** The compensation of a step, run in world v, succeeds and brings back the states `before`; a
      step without one must have left them as they were. */
  ghost predicate UndoneHere(v: World, saga: Saga, entry: CompletedStep, ctx: SagaContext, before: States)
    requires entry.index < |saga.steps|
  {
    var step := saga.steps[entry.index];
    match step.compensation
    case None => v.states == before
    case Some(c) =>
      var request := CompensationRequest(v, ctx.commit.request, step, c, entry, ctx);
      request.Ok? && ExecutePlain(v, request.value).1.Ok? && ExecutePlain(v, request.value).0.states == before
  }

  /** The world the next compensation runs in. */
  ghost function AfterUndoing(v: World, saga: Saga, instance: Id, entry: CompletedStep, ctx: SagaContext): World
    requires entry.index < |saga.steps|
  {
    var step := saga.steps[entry.index];
    match step.compensation
    case None => v
    case Some(c) =>
      match CompensationRequest(v, ctx.commit.request, step, c, entry, ctx)
      case Err(_) => v
      case Ok(request) =>
        var (v1, outcome) := ExecutePlain(v, request);
        AppendMark(v1, saga, instance,
                   if outcome.Ok? then Compensated(entry.index) else CompensationFailed(entry.index),
                   ctx.commit.request)
  }

  /** Each compensation undoes its step where it runs: finding the states the step left, it brings
      back those the step started from. The worlds of the steps are always one more than the
      completed steps (StepWorldsShape). */
  ghost predicate UndoneInTurn(v: World, saga: Saga, instance: Id, ctx: SagaContext, completed: seq<CompletedStep>,
                               worlds: seq<World>)
    decreases |completed|
  {
    && |worlds| == |completed| + 1
    && (completed != [] ==>
          var n := |completed|;
          var entry := completed[n - 1];
          && entry.index < |saga.steps|
          && (v.states == worlds[n].states ==> UndoneHere(v, saga, entry, ctx, worlds[n - 1].states))
          && UndoneInTurn(AfterUndoing(v, saga, instance, entry, ctx), saga, instance, ctx, completed[..n - 1],
                          worlds[..n]))
  }

  /** The saga stops at a step that throws before its commit point, and its compensations undo the
      completed ones in turn. */
  ghost predicate FailsAndUndoes(w: World, saga: Saga, instance: Id, ctx: SagaContext) {
    var w1 := AppendMark(w, saga, instance, Started, ctx.commit.request);
    var run := RunSteps(w1, saga, instance, ctx, [], 0);
    var worlds := StepWorlds(w1, saga, instance, ctx, [], 0);
    && run.failure.Some?
    && FailsBeforeCommit(worlds[|worlds| - 1], saga, run.context, |run.completed|)
    && UndoneInTurn(AppendMark(run.world, saga, instance, StepFailed(run.failure.value.0), ctx.commit.request),
                    saga, instance,
                    run.context, run.completed, worlds)
  }

  /** The step that failed, if it got as far as a command, threw before its commit point: it is not
      its post-commit work that threw. */
  ghost predicate FailsBeforeCommit(w: World, saga: Saga, ctx: SagaContext, index: nat) {
    && index < |saga.steps|
    && match StepRequest(w, ctx.commit.request, saga.steps[index], ctx)
       case Err(_) => true
       case Ok(command) => StageRequest(w, command).Settled?
  }

  lemma ThrowingLeavesStates(w: World, req: Request)
    requires StageRequest(w, req).Settled?
    ensures ExecutePlain(w, req).0.states == w.states
  {
    hide StageRequest;
    SettledStates(w, req);
  }

  lemma SettledStates(w: World, req: Request)
    requires StageRequest(w, req).Settled?
    ensures StageRequest(w, req).world.states == w.states
  {
    hide Transact, Reissue, AnswerQuery, Find, FindEvent, Cached, Unexpired, PendingIn, ResolveIdentity,
         ReplayRequest, Committed;
  }

  /** Worlds of the steps line up with the steps that completed, one more than they are. */
  lemma {:induction false} StepWorldsShape(w: World, saga: Saga, instance: Id, ctx: SagaContext,
                                           completed: seq<CompletedStep>, index: nat)
    requires index <= |saga.steps| && Steady(w) && InOrder(completed) && |completed| == index
    ensures var run := RunSteps(w, saga, instance, ctx, completed, index);
            var worlds := StepWorlds(w, saga, instance, ctx, completed, index);
            var last := worlds[|worlds| - 1];
            && |run.completed| == index + |worlds| - 1
            && Steady(run.world)
            && (run.failure.None? || FailsBeforeCommit(last, saga, run.context, |run.completed|) ==>
                  last.states == run.world.states)
    decreases |saga.steps| - index
  {
    hide ExecutePlain, AppendMark, StepRequest, StageRequest, Steady;
    if index < |saga.steps| {
      var step := saga.steps[index];
      var request := StepRequest(w, ctx.commit.request, step, ctx);
      if request.Ok? {
        var (w1, outcome) := ExecutePlain(w, request.value);
        SteadyPlain(w, request.value);
        PlainAdvances(w, request.value);
        if outcome.Ok? {
          var w2 := AppendMark(w1, saga, instance, StepCompleted(index), ctx.commit.request);
          SteadyMark(w1, saga, instance, StepCompleted(index), ctx.commit.request);
          MarkAdvances(w1, saga, instance, StepCompleted(index), ctx.commit.request);
          var ctx' := ctx.(steps := ctx.steps + [(step.name, outcome.value.response)]);
          var completed' := completed + [CompletedStep(index, request.value.command.target)];
          StepWorldsShape(w2, saga, instance, ctx', completed', index + 1);
          var rest := StepWorlds(w2, saga, instance, ctx', completed', index + 1);
          var worlds := StepWorlds(w, saga, instance, ctx, completed, index);
          assert worlds == [w] + rest;
        } else if StageRequest(w, request.value).Settled? {
          ThrowingLeavesStates(w, request.value);
        }
      }
    }
  }

  lemma MarkAdvances(w: World, saga: Saga, instance: Id, mark: Mark, req: Request)
    ensures Advances(w, AppendMark(w, saga, instance, mark, req))
    ensures AppendMark(w, saga, instance, mark, req).states == w.states
  {
    hide SagaEvent;
  }

  /** Compensations that undo their steps in turn bring the states back, from the last step's to the
      first one's. */
  lemma {:induction false} CompensationsRestore(w: World, saga: Saga, instance: Id, ctx: SagaContext,
                                               completed: seq<CompletedStep>, worlds: seq<World>)
    requires InOrder(completed) && |completed| <= |saga.steps|
    requires UndoneInTurn(w, saga, instance, ctx, completed, worlds) && w.states == worlds[|completed|].states
    ensures WithinSteps(saga, completed)
    ensures var undo := Compensate(w, saga, instance, ctx, completed);
            undo.done.Ok? && undo.world.states == worlds[0].states
    decreases |completed|
  {
    hide ExecutePlain, AppendMark, CompensationRequest;
    if completed != [] {
      var n := |completed|;
      var entry, earlier := completed[n - 1], completed[..n - 1];
      var step := saga.steps[entry.index];
      if step.compensation.Some? {
        var request := CompensationRequest(w, ctx.commit.request, step, step.compensation.value, entry, ctx);
        MarkAdvances(ExecutePlain(w, request.value).0, saga, instance, Compensated(entry.index), ctx.commit.request);
      }
      CompensationsRestore(AfterUndoing(w, saga, instance, entry, ctx), saga, instance, ctx, earlier, worlds[..n]);
    }
  }

  /** A failed saga whose compensations undo the completed steps returns the state graph to what it
      was before the saga started. */
  lemma FailedSagaRestoresStates(w: World, saga: Saga, instance: Id, ctx: SagaContext)
    requires Steady(w) && FailsAndUndoes(w, saga, instance, ctx)
    ensures var undo := RunStarted(w, saga, instance, ctx);
            undo.done.Ok? && undo.world.states == w.states
  {
    hide ExecutePlain, AppendMark, RunSteps, Compensate, StepWorlds, Steady, FailsBeforeCommit, UndoneInTurn;
    var req := ctx.commit.request;
    var w1 := AppendMark(w, saga, instance, Started, req);
    SteadyMark(w, saga, instance, Started, req);
    MarkAdvances(w, saga, instance, Started, req);
    var run := RunSteps(w1, saga, instance, ctx, [], 0);
    var worlds := StepWorlds(w1, saga, instance, ctx, [], 0);
    StepsWithin(w1, saga, instance, ctx, [], 0);
    RunStepsMarks(w1, saga, instance, ctx, [], 0);
    StepWorldsShape(w1, saga, instance, ctx, [], 0);
    var at := run.failure.value.0;
    var failed := AppendMark(run.world, saga, instance, StepFailed(at), req);
    MarkAdvances(run.world, saga, instance, StepFailed(at), req);
    CompensationsRestore(failed, saga, instance, run.context, run.completed, worlds);
    var undo := Compensate(failed, saga, instance, run.context, run.completed);
    MarkAdvances(undo.world, saga, instance, SagaFailed(at), req);
  }
}
