// What the saga events of the log are at every moment of a run: one whole saga after another, each
// grammatical (src/core/engine.ts: runSagas, appendSagaEvent, executeBatch, restore).
module SagaLogs {
  import opened Batches
  import opened Domain
  import opened EventSourcing
  import opened GraphInvariant
  import opened Lifecycle
  import opened ProjectionRuns
  import opened Projections
  import opened Reduction
  import opened Runtime
  import opened SagaChain
  import opened Sagas
  import opened Wrappers

  datatype SagaRun = SagaRun(saga: Saga, instance: Id, marks: seq<Mark>)

  /** These saga events are those of these runs, one run after the other. */
  ghost predicate Rendered(runs: seq<SagaRun>, events: seq<Event>)
    decreases |runs|
  {
    if runs == [] then events == []
    else
      var n := |runs[0].marks|;
      && n <= |events| && Renders(runs[0].saga, runs[0].instance, runs[0].marks, events[..n])
      && Rendered(runs[1..], events[n..])
  }

  ghost predicate AllGrammatical(declared: iset<Saga>, runs: seq<SagaRun>) {
    forall i :: 0 <= i < |runs| ==> runs[i].saga in declared && Grammatical(runs[i].saga, runs[i].marks)
  }

  /** The events are the marks of grammatical runs of declared sagas, never interleaved. */
  ghost predicate SagasInTurn(declared: iset<Saga>, events: seq<Event>) {
    exists runs: seq<SagaRun> :: AllGrammatical(declared, runs) && Rendered(runs, events)
  }

  lemma {:induction false} RenderedAppend(a: seq<SagaRun>, b: seq<SagaRun>, x: seq<Event>, y: seq<Event>)
    requires Rendered(a, x) && Rendered(b, y)
    ensures Rendered(a + b, x + y)
    decreases |a|
  {
    hide Renders;
    if a == [] {
      assert a + b == b && x + y == y;
    } else {
      var n := |a[0].marks|;
      assert (a + b)[1..] == a[1..] + b && (x + y)[..n] == x[..n] && (x + y)[n..] == x[n..] + y;
      RenderedAppend(a[1..], b, x[n..], y);
    }
  }

  lemma InTurnAppend(declared: iset<Saga>, x: seq<Event>, y: seq<Event>)
    requires SagasInTurn(declared, x) && SagasInTurn(declared, y)
    ensures SagasInTurn(declared, x + y)
  {
    hide Rendered, Grammatical;
    var a: seq<SagaRun> :| AllGrammatical(declared, a) && Rendered(a, x);
    var b: seq<SagaRun> :| AllGrammatical(declared, b) && Rendered(b, y);
    RenderedAppend(a, b, x, y);
    assert AllGrammatical(declared, a + b);
  }

  lemma MoreDeclared(few: iset<Saga>, many: iset<Saga>, events: seq<Event>)
    requires few <= many && SagasInTurn(few, events)
    ensures SagasInTurn(many, events)
  {
    hide Rendered, Grammatical;
    var runs: seq<SagaRun> :| AllGrammatical(few, runs) && Rendered(runs, events);
    assert AllGrammatical(many, runs);
  }

  lemma NoSagas(declared: iset<Saga>)
    ensures SagasInTurn(declared, [])
  {
    var runs: seq<SagaRun> := [];
    assert AllGrammatical(declared, runs) && Rendered(runs, []);
  }

  lemma OneSaga(declared: iset<Saga>, saga: Saga, instance: Id, marks: seq<Mark>, events: seq<Event>)
    requires saga in declared && Grammatical(saga, marks) && Renders(saga, instance, marks, events)
    ensures SagasInTurn(declared, events)
  {
    hide Renders, Grammatical;
    var runs := [SagaRun(saga, instance, marks)];
    assert |events| == |marks| by { RendersLength(saga, instance, marks, events); }
    assert events[..|marks|] == events && events[|marks|..] == [] && runs[1..] == [];
    assert AllGrammatical(declared, runs) && Rendered(runs, events);
  }

  lemma RendersLength(saga: Saga, instance: Id, marks: seq<Mark>, events: seq<Event>)
    requires Renders(saga, instance, marks, events)
    ensures |events| == |marks|
  {}

  // ------------------------------------------------------------- requests and batches

  ghost predicate Sound(w: World) {
    WellFormed(w.program) && Graph(w)
  }

  /** What the log gained is one whole saga after another, among other events. */
  ghost predicate Gains(w: World, w': World) {
    && w.log <= w'.log
    && SagasInTurn(Declared(w.program), SagaPart(w'.log[|w.log|..]))
  }

  ghost function Declared(p: Program): iset<Saga> {
    iset saga | saga in p.sagas
  }

  lemma GainsThen(a: World, b: World, c: World)
    requires Gains(a, b) && Gains(b, c) && b.program == a.program
    ensures Gains(a, c)
  {
    hide SagasInTurn, SagaPart;
    var x, y := b.log[|a.log|..], c.log[|b.log|..];
    assert c.log[|a.log|..] == x + y;
    SagaPartAppend(x, y);
    InTurnAppend(Declared(a.program), SagaPart(x), SagaPart(y));
  }

  lemma SameLogGains(w: World, w': World)
    requires w'.log == w.log
    ensures Gains(w, w')
  {
    hide SagasInTurn, SagaPart;
    assert w'.log[|w.log|..] == [];
    NoneSelected([]);
    NoSagas(Declared(w.program));
  }

  lemma StageGains(w: World, req: Request)
    requires Sound(w)
    ensures var w' := StageRequest(w, req).world; Gains(w, w') && Sound(w') && Advances(w, w')
  {
    hide StageRequest, SagasInTurn, Graph, WellFormed, SagaPart;
    StageRequestKeeps(w, req);
    StageAnnounced(w, req);
    var stage := StageRequest(w, req);
    NoSagas(Declared(w.program));
    if stage.Settled? {
      SameLogGains(w, stage.world);
    } else {
      assert stage.world.log[|w.log|..] == stage.post.events;
      NoneSelected(stage.post.events);
    }
  }

  lemma SagaKeepsProgram(w: World, saga: Saga, commit: CommitContext)
    ensures RunSaga(w, saga, commit).world.program == w.program
  {
    hide RunSaga, Graph, WellFormed, KeptByLinks;
    SagaLinksKeep(commit.request);
    SagasChain(Keeps, w, [saga], commit);
    assert [saga][1..] == [];
  }

  lemma SagaGains(w: World, saga: Saga, commit: CommitContext)
    requires Steady(w) && saga in w.program.sagas
    ensures var w' := RunSaga(w, saga, commit).world; Gains(w, w') && Steady(w') && w'.program == w.program
  {
    hide RunStarted, SagasInTurn, Steady, SagaPart, Grammatical, Renders;
    SameLogGains(w, w);
    var trigger := Trigger(saga, commit.committed, commit.request);
    if trigger.Some? {
      var ctx := SagaContext(commit, trigger.value, []);
      if saga.condition(ctx) == Ok(true) {
        var instance := Instance(saga, commit.request);
        SagaLogIsItsMarks(w, saga, instance, ctx);
        SagaFollowsGrammar(w, saga, instance, ctx);
        var undo := RunStarted(w, saga, instance, ctx);
        OneSaga(Declared(w.program), saga, instance, undo.marks, SagaPart(undo.world.log[|w.log|..]));
        SagaKeepsProgram(w, saga, commit);
      }
    }
  }

  lemma {:induction false} SagasGain(w: World, sagas: seq<Saga>, commit: CommitContext)
    requires Steady(w) && forall saga <- sagas :: saga in w.program.sagas
    ensures var w' := RunSagas(w, sagas, commit).0; Gains(w, w') && Steady(w') && w'.program == w.program
    decreases |sagas|
  {
    hide RunSaga, Gains, Steady;
    SameLogGains(w, w);
    if sagas != [] {
      SagaGains(w, sagas[0], commit);
      var undo := RunSaga(w, sagas[0], commit);
      if undo.done.Ok? {
        SagasGain(undo.world, sagas[1..], commit);
        GainsThen(w, undo.world, RunSagas(undo.world, sagas[1..], commit).0);
      }
    }
  }

  lemma FollowUpGains(w: World, post: PostCommit)
    requires Steady(w)
    ensures var w' := FollowUp(w, post).0; Gains(w, w') && Steady(w') && w'.program == w.program
  {
    hide RunSagas, Announce, Gains, Graph, WellFormed;
    var announced := Announce(w, post).0;
    AnnounceLog(w, post);
    AnnounceKeeps(w, post);
    SameLogGains(w, announced);
    SagasGain(announced, announced.program.sagas, ContextOf(w, post));
    GainsThen(w, announced, RunSagas(announced, announced.program.sagas, ContextOf(w, post)).0);
  }

  lemma AnnounceLog(w: World, post: PostCommit)
    ensures Announce(w, post).0.log == w.log
  {
    hide Project;
  }

  lemma ConcludeLog(after: (World, Done), stage: Stage, req: Request)
    requires stage.Staged?
    ensures Conclude(after, stage, req).0.log == after.0.log
  {
    hide Remember;
    if after.1.Ok? { RememberKeepsLog(after.0, stage.key, req, stage.result); }
  }

  lemma DeferLog(w: World, post: PostCommit)
    ensures Defer(w, post).log == w.log
  {}

  lemma ExecuteGains(w: World, req: Request)
    requires Sound(w)
    ensures var w' := Execute(w, req).0; Gains(w, w') && Sound(w') && Advances(w, w')
  {
    hide StageRequest, FollowUp, Conclude, Defer, Gains, Graph, WellFormed;
    ExecuteKeeps(w, req);
    StageGains(w, req);
    var stage := StageRequest(w, req);
    if stage.Staged? {
      var after := if stage.world.batch.Some? then (Defer(stage.world, stage.post), Ok(()))
                   else FollowUp(stage.world, stage.post);
      if stage.world.batch.Some? {
        DeferLog(stage.world, stage.post);
        SameLogGains(stage.world, after.0);
      } else {
        FollowUpGains(stage.world, stage.post);
      }
      ConcludeLog(after, stage, req);
      SameLogGains(after.0, Conclude(after, stage, req).0);
      GainsThen(stage.world, after.0, Conclude(after, stage, req).0) by { AfterProgram(stage); }
      GainsThen(w, stage.world, Conclude(after, stage, req).0);
    }
  }

  lemma AfterProgram(stage: Stage)
    requires stage.Staged?
    ensures Defer(stage.world, stage.post).program == stage.world.program
    ensures FollowUp(stage.world, stage.post).0.program == stage.world.program
  {
    hide FollowUp, Graph, WellFormed;
    FollowUpKeeps(stage.world, stage.post);
  }

  lemma {:induction false} ItemsGain(w: World, requests: seq<Request>)
    requires Sound(w)
    ensures var w' := RunItems(w, requests).0; Gains(w, w') && Sound(w') && Advances(w, w')
    decreases |requests|
  {
    hide Execute, Gains, Sound;
    SameLogGains(w, w);
    if requests != [] {
      ExecuteGains(w, requests[0]);
      var w1 := Execute(w, requests[0]).0;
      ItemsGain(w1, requests[1..]);
      GainsThen(w, w1, RunItems(w1, requests[1..]).0);
    }
  }

  lemma {:induction false} PostsGain(w: World, posts: seq<PostCommit>)
    requires Steady(w)
    ensures var w' := RunPosts(w, posts).0; Gains(w, w') && Steady(w') && w'.program == w.program
    decreases |posts|
  {
    hide FollowUp, Gains, Steady;
    SameLogGains(w, w);
    if posts != [] {
      FollowUpGains(w, posts[0]);
      var w1 := FollowUp(w, posts[0]).0;
      PostsGain(w1, posts[1..]);
      GainsThen(w, w1, RunPosts(w1, posts[1..]).0);
    }
  }

  /** A batch, however it ends, leaves the log as it was or adds whole sagas. */
  lemma BatchGains(w: World, requests: seq<Request>, transactional: bool)
    requires Steady(w)
    ensures Gains(w, ExecuteBatch(w, requests, transactional).0)
  {
    hide RunItems, RunPosts, Gains, Graph, WellFormed, Restore, FlushKeys;
    SameLogGains(w, w);
    ItemsGain(w, requests);
    var begun := Begun(w);
    SameGraphIsGraph(w, begun);
    ItemsGain(begun, requests);
    var ran := RunItems(begun, requests).0;
    SameLogGains(w, Restore(w, Capture(w))) by { RestoredLog(w, w); }
    SameLogGains(w, Restore(Close(ran), Capture(w))) by { RestoredLog(Close(ran), w); }
    if ran.batch.Some? {
      var flushed := FlushKeys(Close(ran), ran.batch.value.idempotency);
      FlushedGraph(ran);
      SameGraphIsGraph(ran, flushed);
      PostsGain(flushed, ran.batch.value.postCommits);
      var followed := RunPosts(flushed, ran.batch.value.postCommits).0;
      SameLogGains(w, Restore(followed, Capture(w))) by { RestoredLog(followed, w); }
      SameLogGains(w, begun);
      SameLogGains(ran, flushed);
      GainsThen(w, begun, ran);
      GainsThen(w, ran, flushed);
      GainsThen(w, flushed, followed);
    }
  }

  lemma FlushedGraph(w: World)
    requires w.batch.Some?
    ensures var w' := FlushKeys(Close(w), w.batch.value.idempotency);
            SameGraph(w, w') && w'.program == w.program && w'.batch.None?
  {}

  lemma RestoredLog(failed: World, w: World)
    ensures Restore(failed, Capture(w)).log == w.log
  {}

  // ------------------------------------------------------------- every run

  /** The sagas of the programs a run has run so far. */
  ghost function DeclaredBy(worlds: seq<World>): iset<Saga> {
    iset saga: Saga | DeclaredIn(worlds, saga)
  }

  ghost predicate DeclaredIn(worlds: seq<World>, saga: Saga) {
    exists k :: 0 <= k < |worlds| && saga in worlds[k].program.sagas
  }

  ghost predicate LogInTurn(declared: iset<Saga>, w: World) {
    SagasInTurn(declared, SagaPart(w.log))
  }

  lemma UnreadyRequest(w: World, req: Request)
    requires !w.ready
    ensures Execute(w, req).0 == w && Execute(w, req).1.Err?
  {}

  lemma UnreadyBatch(w: World, requests: seq<Request>, transactional: bool)
    requires !w.ready
    ensures ExecuteBatch(w, requests, transactional).0.log == w.log
  {
    hide Execute, FollowUp, ClaimAll;
    if requests == [] {
      assert RunItems(Begun(w), requests) == (Begun(w), Ok([]));
    } else {
      UnreadyRequest(w, requests[0]);
      UnreadyRequest(Begun(w), requests[0]);
    }
  }

  lemma LogGrowsInTurn(declared: iset<Saga>, w: World, w': World)
    requires LogInTurn(declared, w) && Gains(w, w') && Declared(w.program) <= declared
    ensures LogInTurn(declared, w')
  {
    hide SagasInTurn, SagaPart;
    assert w'.log == w.log + w'.log[|w.log|..];
    SagaPartAppend(w.log, w'.log[|w.log|..]);
    MoreDeclared(Declared(w.program), declared, SagaPart(w'.log[|w.log|..]));
    InTurnAppend(declared, SagaPart(w.log), SagaPart(w'.log[|w.log|..]));
  }

  lemma SeedsInTurn(declared: iset<Saga>, w: World)
    requires WellFormed(w.program)
    ensures LogInTurn(declared, Initialize(w))
  {
    hide SagasInTurn, ResponseBlind, SeedsDistinct, DistinctNames, Fold, ClaimAll, Project, SagaPart, Find;
    BaselineLog(w.program);
    var history := Baselines(w.program.boundaries);
    assert Initialize(w).log == history;
    forall i | 0 <= i < |history| ensures history[i].boundary != SAGA_BOUNDARY {
      assert Find(w.program, history[i].boundary).Some?;
    }
    NoneSelected(history);
    NoSagas(declared);
  }

  lemma PerformInTurn(declared: iset<Saga>, past: seq<World>, w: World, op: Operation)
    requires Quiet(w) && Permitted(past, w, op) && LogInTurn(declared, w) && Declared(w.program) <= declared
    requires forall i :: 0 <= i < |past| ==> LogInTurn(declared, past[i])
    ensures LogInTurn(declared, Perform(w, op))
  {
    hide Execute, ExecuteBatch, Graph, WellFormed, Initialize, SagasInTurn, SagaPart, ReplacePreserving, Cleared;
    match op
    case Handles(request) =>
      if w.ready { ExecuteGains(w, request); } else { UnreadyRequest(w, request); }
      if w.ready { LogGrowsInTurn(declared, w, Execute(w, request).0); }
    case HandlesBatch(requests, transactional) =>
      if w.ready {
        BatchGains(w, requests, transactional);
        LogGrowsInTurn(declared, w, ExecuteBatch(w, requests, transactional).0);
      } else {
        UnreadyBatch(w, requests, transactional);
      }
    case Resets(_) => ResetInTurn(declared, w, w.program);
    case Replaces(next, preserve, fails) =>
      PreservedLog(w, next, fails);
      ResetInTurn(declared, w, next);
    case Restores(s) =>
    case Waits(_) =>
  }

  lemma ResetInTurn(declared: iset<Saga>, w: World, program: Program)
    requires WellFormed(program)
    ensures LogInTurn(declared, Cleared(w, program)) && LogInTurn(declared, Initialize(Cleared(w, program)))
  {
    hide Initialize, WellFormed, SagasInTurn;
    SeedsInTurn(declared, Cleared(w, program));
    NoneSelected([]);
    NoSagas(declared);
  }

  lemma PreservedLog(w: World, next: Program, fails: bool)
    ensures ReplacePreserving(w, next, fails).log == w.log
  {
    hide Fold, ClaimAll, Project, Recognizes;
  }

  lemma MoreWorldsDeclare(worlds: seq<World>, k: nat, n: nat)
    requires k <= n <= |worlds|
    ensures DeclaredBy(worlds[..k]) <= DeclaredBy(worlds[..n])
    ensures forall w <- worlds[..n] :: Declared(w.program) <= DeclaredBy(worlds[..n])
  {
    forall saga | saga in DeclaredBy(worlds[..k]) ensures saga in DeclaredBy(worlds[..n]) {
      assert DeclaredIn(worlds[..k], saga);
      var j :| 0 <= j < k && saga in worlds[..k][j].program.sagas;
      assert saga in worlds[..n][j].program.sagas;
    }
  }

  /** In every state of every run, however requests fail, batches roll back and snapshots return, the
      saga events of the log are whole sagas one after another, each of a declared saga and each
      complete or cut short by a resolver: no saga ever stops halfway or mixes with another. */
  lemma {:induction false} EverySagaInTheLogIsGrammatical(program: Program, worlds: seq<World>, ops: seq<Operation>,
                                                          i: nat)
    requires WellFormed(program) && Run(program, worlds, ops) && i < |worlds|
    ensures forall k :: 0 <= k <= i ==> LogInTurn(DeclaredBy(worlds[..i + 1]), worlds[k])
  {
    hide Quiet, Perform, Permitted, WellFormed, LogInTurn, Initialize, DeclaredBy, Declared;
    var declared := DeclaredBy(worlds[..i + 1]);
    if i == 0 {
      SeedsInTurn(declared, World(program, false, [], map[], map[], map[], map[], map[], 0, None));
    } else {
      EverySagaInTheLogIsGrammatical(program, worlds, ops, i - 1);
      EveryRunStaysConsistent(program, worlds, ops, i);
      MoreWorldsDeclare(worlds, i, i + 1);
      forall k | 0 <= k < i ensures LogInTurn(declared, worlds[k]) {
        StillInTurn(DeclaredBy(worlds[..i]), declared, worlds[k]);
      }
      assert worlds[i - 1] in worlds[..i + 1];
      PerformInTurn(declared, worlds[..i], worlds[i - 1], ops[i - 1]);
    }
  }

  lemma StillInTurn(few: iset<Saga>, many: iset<Saga>, w: World)
    requires few <= many && LogInTurn(few, w)
    ensures LogInTurn(many, w)
  {
    hide SagasInTurn;
    MoreDeclared(few, many, SagaPart(w.log));
  }

  // ------------------------------------------------------------- one instance

  ghost predicate DistinctInstances(runs: seq<SagaRun>) {
    forall i, j :: 0 <= i < j < |runs| ==> runs[i].instance != runs[j].instance
  }

  lemma {:induction false} AllOfOne(events: seq<Event>, id: Id)
    requires forall i :: 0 <= i < |events| ==> events[i].aggregate == id
    ensures EventsOf(events, id) == events
  {
    if events != [] {
      AllOfOne(events[..|events| - 1], id);
      assert events == events[..|events| - 1] + [events[|events| - 1]];
    }
  }

  lemma {:induction false} NoneOfOther(events: seq<Event>, id: Id)
    requires forall i :: 0 <= i < |events| ==> events[i].aggregate != id
    ensures EventsOf(events, id) == []
  {
    if events != [] { NoneOfOther(events[..|events| - 1], id); }
  }

  lemma RenderedInstance(saga: Saga, instance: Id, marks: seq<Mark>, events: seq<Event>)
    requires Renders(saga, instance, marks, events)
    ensures forall i :: 0 <= i < |events| ==> events[i].aggregate == instance
  {
    hide MarkPayload, MarkKind;
  }

  lemma {:induction false} OtherInstances(runs: seq<SagaRun>, events: seq<Event>, id: Id)
    requires Rendered(runs, events) && forall i :: 0 <= i < |runs| ==> runs[i].instance != id
    ensures EventsOf(events, id) == []
  {
    hide Renders;
    if runs != [] {
      var n := |runs[0].marks|;
      RenderedInstance(runs[0].saga, runs[0].instance, runs[0].marks, events[..n]);
      OtherInstances(runs[1..], events[n..], id);
      NoneOfOther(events[..n], id);
      EventsOfAppend(events[..n], events[n..], id);
      assert events == events[..n] + events[n..];
    }
  }

  /** So where instance ids are fresh, an instance's events are exactly the marks of its one run. */
  lemma {:induction false} InstanceIsOneRun(runs: seq<SagaRun>, events: seq<Event>, k: nat)
    requires Rendered(runs, events) && DistinctInstances(runs) && k < |runs|
    ensures Renders(runs[k].saga, runs[k].instance, runs[k].marks, EventsOf(events, runs[k].instance))
    decreases k
  {
    hide Renders;
    var n, id := |runs[0].marks|, runs[k].instance;
    assert events == events[..n] + events[n..];
    EventsOfAppend(events[..n], events[n..], id);
    RenderedInstance(runs[0].saga, runs[0].instance, runs[0].marks, events[..n]);
    if k == 0 {
      AllOfOne(events[..n], id);
      OtherInstances(runs[1..], events[n..], id);
      assert events[..n] + [] == events[..n];
    } else {
      InstanceIsOneRun(runs[1..], events[n..], k - 1);
      NoneOfOther(events[..n], id);
      assert [] + EventsOf(events[n..], id) == EventsOf(events[n..], id);
    }
  }
}
