// Projections kept up request by request equal a rebuild from the log (src/core/engine.ts:
// runPostCommit, runProjections, replaceProgram, initialize).
module ProjectionRuns {
  import opened Batches
  import opened Domain
  import opened EventSourcing
  import opened GraphInvariant
  import opened Lifecycle
  import opened Projections
  import opened Reduction
  import opened Runtime
  import opened SagaChain
  import opened TransactionInvariants
  import opened Transactions
  import opened Wrappers

  /** The derived projections are what one pass over the non-saga log would build. */
  ghost predicate Current(w: World) {
    w.projections == Project(w.program.projections, OfRebuild(w.log), map[], NotSaga(w.log))
  }

  /** Post-commit hooks run before projections; the one of this request's commit, if it makes one,
      does not throw. */
  predicate HookRuns(w: World, req: Request) {
    var stage := StageRequest(w, req);
    stage.Staged? ==> w.program.onPostCommit(ContextOf(stage.world, stage.post)).Ok?
  }

  ghost predicate Healthy(w: World) {
    w.batch.None? && WellFormed(w.program) && Graph(w) && AllSourceBlind(w.program.projections)
  }

  /** Between healthy worlds, current projections stay current. */
  ghost predicate StaysCurrent(w: World, w': World) {
    Healthy(w) ==> Healthy(w') && w'.program == w.program && (Current(w) ==> Current(w'))
  }

  lemma KeepsHealthy(w: World, w': World)
    requires Healthy(w) && Keeps(w, w')
    ensures Healthy(w') && w'.program == w.program
  {
    hide Graph, WellFormed, AllSourceBlind;
  }

  lemma {:induction false} NoSagaEvents(events: seq<Event>)
    requires forall i :: 0 <= i < |events| ==> events[i].boundary != SAGA_BOUNDARY
    ensures NotSaga(events) == events
  {
    if events != [] {
      NoSagaEvents(events[1..]);
      assert NotSaga(events) == [events[0]] + NotSaga(events[1..]);
    }
  }

  /** What a stage commits is announced as it was logged, and none of it is a saga event. */
  ghost predicate CommitsAnnounced(w: World, stage: Stage) {
    && stage.world.projections == w.projections
    && (stage.Settled? ==> stage.world.log == w.log)
    && (stage.Staged? ==>
          && stage.world.log == w.log + stage.post.events
          && forall i :: 0 <= i < |stage.post.events| ==> stage.post.events[i].boundary != SAGA_BOUNDARY)
  }

  lemma MutationAnnounced(w: World, b: Boundary, req: Request, key: Option<string>)
    requires WellFormed(w.program) && Graph(w)
    ensures CommitsAnnounced(w, StageMutation(w, b, req, key))
  {
    hide Transact, ClaimAll, ResolveIdentity, Fold, OwnersRight, Recognizes, SeedsDistinct, ResponseBlind;
    var identity := ResolveIdentity(b, req);
    if identity.Ok? {
      var targeted := Targeted(req, identity.value);
      var result := Transact(w, targeted, identity.value);
      if result.Ok? {
        TransactionKeeps(w, targeted, identity.value);
        KnownNotSaga(w.program, result.value.0.events) by {
          assert Unanswered(w.program, result.value.0.events) by { SoundUnanswered(w, result.value.0); }
        }
      }
    }
  }

  lemma SoundUnanswered(w: World, tx: Tx)
    requires Sound(w.program, w.log, w.states, tx)
    ensures Unanswered(w.program, tx.events)
  {}

  lemma KnownNotSaga(p: Program, events: seq<Event>)
    requires ReservesSagaName(p) && Unanswered(p, events)
    ensures forall i :: 0 <= i < |events| ==> events[i].boundary != SAGA_BOUNDARY
  {}

  lemma ReplayAnnounced(w: World, req: Request, eventId: string, key: Option<string>)
    requires WellFormed(w.program) && Graph(w)
    ensures CommitsAnnounced(w, StageReplay(w, req, eventId, key))
  {
    hide Reissue, ClaimAll, Fold, OwnersRight, Recognizes, SeedsDistinct, ResponseBlind, FindEvent, ReplayRequest,
         ExactVersions;
    var event := FindEvent(w.log, eventId);
    if event.Some? {
      var b := Find(w.program, event.value.boundary);
      if b.Some? {
        var replay := ReplayRequest(req, b.value, event.value);
        if Reissue(w, b.value, event.value, replay).Ok? { ReissuedEvent(w, b.value, event.value, replay); }
      }
    }
  }

  lemma AdmittedAnnounced(w: World, b: Boundary, req: Request, key: Option<string>)
    requires WellFormed(w.program) && Graph(w)
    ensures CommitsAnnounced(w, StageAdmitted(w, b, req, key))
  {
    hide StageMutation, StageReplay, AnswerQuery, Graph, WellFormed;
    MutationAnnounced(w, b, req, key);
    if req.controls.replayEvent.Some? { ReplayAnnounced(w, req, req.controls.replayEvent.value, key); }
  }

  lemma StageAnnounced(w: World, req: Request)
    requires WellFormed(w.program) && Graph(w)
    ensures CommitsAnnounced(w, StageRequest(w, req))
  {
    hide StageAdmitted, CheckFingerprint, Cached, Find, Graph, WellFormed;
    var b := Find(w.program, req.command.boundary);
    if b.Some? {
      AdmittedAnnounced(w, b.value, req, None);
      var key := IdempotencyKey(w.program, req);
      if key.Some? && CheckFingerprint(w, key.value, req).Ok? {
        var checked := CheckFingerprint(w, key.value, req).value;
        CheckOutside(w, key.value, req);
        CheckKeeps(w, key.value, req);
        SameGraphIsGraph(w, checked);
        AdmittedAnnounced(checked, b.value, req, key);
      }
    }
  }

  /** Announcing a commit keeps the projections current exactly when its hook does not throw, or
      its events would not have changed them. */
  lemma AnnouncedIsCurrent(w: World, stage: Stage)
    requires Healthy(w) && Current(w) && CommitsAnnounced(w, stage) && stage.Staged? && stage.world.program == w.program
    requires !stage.post.request.effects.skipProjections
    ensures var post := stage.post;
            Current(Announce(stage.world, post).0)
            <==> w.program.onPostCommit(ContextOf(stage.world, post)).Ok?
                 || Project(w.program.projections, OfRebuild([]), w.projections, post.events) == w.projections
  {
    hide Project, Graph, WellFormed, NotSaga, AllSourceBlind, DistinctNames;
    var p, events, before := w.program.projections, stage.post.events, NotSaga(w.log);
    assert DistinctNames(p) by { SagaNameOf(w.program); }
    NoSagaEvents(events);
    NotSagaAppend(w.log, events);
    var source := OfCommit(ContextOf(stage.world, stage.post));
    IncrementalIsRebuild(p, OfRebuild(stage.world.log), OfRebuild(w.log), source, map[], before, events);
    ProjectBlind(p, source, OfRebuild([]), w.projections, events);
  }

  lemma NotSagaAppend(a: seq<Event>, b: seq<Event>)
    ensures NotSaga(a + b) == NotSaga(a) + NotSaga(b)
  {
    SelectAppend(a, b, (e: Event) => e.boundary != SAGA_BOUNDARY);
  }

  lemma ConcludeCurrent(after: (World, Done), stage: Stage, req: Request)
    requires stage.Staged? && Current(after.0)
    ensures Current(Conclude(after, stage, req).0)
  {
    hide Project, NotSaga;
  }

  lemma SettledCurrent(w: World, stage: Stage)
    requires Current(w) && CommitsAnnounced(w, stage) && stage.Settled? && stage.world.program == w.program
    ensures Current(stage.world)
  {
    hide Project, NotSaga;
  }

  lemma PlainStaysCurrent(w: World, req: Request)
    requires !req.effects.skipProjections && HookRuns(w, req)
    ensures StaysCurrent(w, ExecutePlain(w, req).0)
  {
    hide StageRequest, Announce, Conclude, Current, Keeps, AllSourceBlind, Graph, WellFormed;
    if Healthy(w) {
      ExecutePlainKeeps(w, req);
      KeepsHealthy(w, ExecutePlain(w, req).0);
      StageRequestKeeps(w, req);
      var stage := StageRequest(w, req);
      KeepsHealthy(w, stage.world);
      StageAnnounced(w, req);
      if Current(w) {
        if stage.Settled? {
          SettledCurrent(w, stage);
        } else {
          StagedKeepsEffects(w, req);
          AnnouncedIsCurrent(w, stage);
          ConcludeCurrent(Announce(stage.world, stage.post), stage, req);
        }
      }
    }
  }

  lemma MarkStaysCurrent(w: World, saga: Saga, instance: Id, mark: Mark, req: Request)
    ensures StaysCurrent(w, AppendMark(w, saga, instance, mark, req))
  {
    hide Project, Keeps, AllSourceBlind, Graph, WellFormed, NotSaga;
    if Healthy(w) {
      var e := SagaEvent(w, saga, instance, mark, req);
      MarkKeeps(w, saga, instance, mark, req);
      KeepsHealthy(w, AppendMark(w, saga, instance, mark, req));
      ProjectBlind(w.program.projections, OfRebuild(w.log), OfRebuild(w.log + [e]), map[], NotSaga(w.log));
      NotSagaAppend(w.log, [e]);
      assert NotSaga([e]) == [] by { SagaEventDropped(e); }
      assert NotSaga(w.log) + [] == NotSaga(w.log);
    }
  }

  lemma SagaEventDropped(e: Event)
    requires e.boundary == SAGA_BOUNDARY
    ensures NotSaga([e]) == []
  {
    assert NotSaga([e]) == [] + NotSaga([e][1..]);
  }

  /** A plain request that projects its commit, if it makes one. */
  ghost function Projecting(): Kind {
    (w: World, req: Request) => !req.effects.skipProjections && HookRuns(w, req)
  }

  ghost function Hooked(): Kind {
    (w: World, req: Request) => HookRuns(w, req)
  }

  lemma SagaLinksStayCurrent()
    ensures KeptByLinks(StaysCurrent, Projecting())
  {
    hide ExecutePlain, AppendMark, Healthy, Current, HookRuns;
    forall w: World, req: Request | Projecting()(w, req) ensures StaysCurrent(w, ExecutePlain(w, req).0) {
      PlainStaysCurrent(w, req);
    }
    forall w: World, saga: Saga, instance: Id, mark: Mark, req: Request
      ensures StaysCurrent(w, AppendMark(w, saga, instance, mark, req))
    {
      MarkStaysCurrent(w, saga, instance, mark, req);
    }
  }

  /** No post-commit hook that this request reaches throws: its own commit's, and those of the steps
      and compensations of the sagas it starts. */
  ghost predicate HooksRun(w: World, req: Request) {
    var stage := StageRequest(w, req);
    && HookRuns(w, req)
    && (stage.Staged? ==>
          var announced := Announce(stage.world, stage.post);
          announced.1.Ok? && !req.effects.skipSagas ==>
            SagasMeet(Hooked(), announced.0, announced.0.program.sagas, ContextOf(stage.world, stage.post)))
  }

  /** An unbatched request that does not skip projections, sagas included, leaves every derived
      projection equal to a rebuild over the whole log, as long as no hook it reaches throws. */
  lemma RequestStaysCurrent(w: World, req: Request)
    requires Healthy(w) && Current(w) && !req.effects.skipProjections && HooksRun(w, req)
    ensures Healthy(Execute(w, req).0) && Current(Execute(w, req).0)
  {
    hide StageRequest, Announce, Conclude, Current, Keeps, AllSourceBlind, Graph, WellFormed, RunSagas, SagasMeet,
         KeptByLinks;
    ExecuteKeeps(w, req);
    KeepsHealthy(w, Execute(w, req).0);
    StageRequestKeeps(w, req);
    var stage := StageRequest(w, req);
    KeepsHealthy(w, stage.world);
    StageAnnounced(w, req);
    if stage.Settled? {
      SettledCurrent(w, stage);
    } else {
      StagedKeepsEffects(w, req);
      AnnouncedIsCurrent(w, stage);
      var announced := Announce(stage.world, stage.post);
      AnnounceKeeps(stage.world, stage.post);
      KeepsHealthy(stage.world, announced.0);
      if announced.1.Ok? && !req.effects.skipSagas {
        SagasStayCurrent(announced.0, ContextOf(stage.world, stage.post));
      }
      ConcludeCurrent(FollowUp(stage.world, stage.post), stage, req);
    }
  }

  lemma SagasStayCurrent(w: World, commit: CommitContext)
    requires Healthy(w) && Current(w) && !commit.request.effects.skipProjections
    requires SagasMeet(Hooked(), w, w.program.sagas, commit)
    ensures Current(RunSagas(w, w.program.sagas, commit).0)
  {
    hide RunSagas, SagasMeet, KeptByLinks, HookRuns, Healthy, Current;
    SagaLinksStayCurrent();
    SagasMeetAs(false, Hooked(), Projecting(), w, w.program.sagas, commit);
    SagasChainWhere(StaysCurrent, Projecting(), w, w.program.sagas, commit);
  }

  /** A hook that throws leaves the projections as they were while the log has grown; they then
      fail to be current exactly when the events it kept from them would have changed them. */
  lemma ThrowingHookStalls(w: World, req: Request)
    requires Healthy(w) && Current(w) && !req.effects.skipProjections && !HookRuns(w, req)
    ensures var after, events := Execute(w, req).0, StageRequest(w, req).post.events;
            && after.projections == w.projections && after.log == w.log + events
            && (Current(after)
                <==> Project(w.program.projections, OfRebuild([]), w.projections, events) == w.projections)
  {
    hide StageRequest, Current, AllSourceBlind, Graph, WellFormed, RunSagas, Project, Keeps;
    StageRequestKeeps(w, req);
    var stage := StageRequest(w, req);
    KeepsHealthy(w, stage.world);
    StageAnnounced(w, req);
    StagedKeepsEffects(w, req);
    AnnouncedIsCurrent(w, stage);
  }

  /** Requests one after another, whatever each comes to. */
  function HandleAll(w: World, requests: seq<Request>): World
    decreases |requests|
  {
    if requests == [] then w else HandleAll(Execute(w, requests[0]).0, requests[1..])
  }

  ghost predicate HooksRunThroughout(w: World, requests: seq<Request>)
    decreases |requests|
  {
    requests != [] ==> HooksRun(w, requests[0]) && HooksRunThroughout(Execute(w, requests[0]).0, requests[1..])
  }

  /** From a freshly started engine, any run of unbatched requests that skip no projections, and
      whose hooks do not throw, keeps every derived projection equal to a rebuild over the log. */
  lemma RunsStayCurrent(program: Program, requests: seq<Request>)
    requires WellFormed(program) && AllSourceBlind(program.projections) && Boot(program).ready
    requires forall i :: 0 <= i < |requests| ==> !requests[i].effects.skipProjections
    requires HooksRunThroughout(Boot(program), requests)
    ensures Current(HandleAll(Boot(program), requests))
  {
    hide Current, Graph, WellFormed, AllSourceBlind, Initialize, HandleAll, HooksRunThroughout;
    var start := Boot(program);
    BootQuiet(program);
    assert start.program == program by { BootProgram(program); }
    RebuildsAreCurrent(World(program, false, [], map[], map[], map[], map[], map[], 0, None), program, false);
    AllStayCurrent(start, requests);
  }

  lemma BootProgram(program: Program)
    ensures Boot(program).program == program
  {
    hide Fold, Baselines, Project, ClaimAll;
  }

  lemma {:induction false} AllStayCurrent(w: World, requests: seq<Request>)
    requires Healthy(w) && Current(w) && HooksRunThroughout(w, requests)
    requires forall i :: 0 <= i < |requests| ==> !requests[i].effects.skipProjections
    ensures Healthy(HandleAll(w, requests)) && Current(HandleAll(w, requests))
    decreases |requests|
  {
    hide Healthy, Current, Execute, HooksRun;
    if requests != [] {
      RequestStaysCurrent(w, requests[0]);
      AllStayCurrent(Execute(w, requests[0]).0, requests[1..]);
    }
  }

  /** A request that skips projections, and sagas with them, leaves the projections as they were
      however the log grows. */
  lemma SkippedProjectionsStand(w: World, req: Request)
    requires WellFormed(w.program) && Graph(w) && w.batch.None? && req.effects.skipProjections && req.effects.skipSagas
    ensures Execute(w, req).0.projections == w.projections
  {
    hide StageRequest, Graph, WellFormed, RunSagas;
    StageAnnounced(w, req);
    StageKeepsBatch(w, req);
    if StageRequest(w, req).Staged? { StagedKeepsEffects(w, req); }
  }

  /** Projections are current after start-up, after a reset and after any replacement that succeeds. */
  lemma RebuildsAreCurrent(w: World, next: Program, fails: bool)
    ensures Initialize(w).ready ==> Current(Initialize(w))
    ensures Current(Cleared(w, next))
    ensures w.ready && Recognizes(next, w.log) && Fold(next, map[], NotSaga(w.log)).Ok? && !fails ==>
              Current(ReplacePreserving(w, next, fails))
  {
    hide Fold, Baselines, Recognizes, ClaimAll;
    ProjectNothing(next.projections, OfRebuild([]));
  }

  lemma {:induction false} ProjectNothing(projections: seq<Projection>, source: ProjectionSource)
    ensures Project(projections, source, map[], []) == map[]
  {
    if projections != [] { ProjectNothing(projections[1..], source); }
  }
}
