// Transactional batches: a failing item leaves nothing behind, and a successful batch is the same
// as running its items one by one (src/core/engine.ts: executeBatch, flushBatchIdempotency).
module Batches {
  import opened Domain
  import opened EventSourcing
  import opened Json
  import opened Projections
  import opened Reduction
  import opened Runtime
  import opened Wrappers

  // ------------------------------------------------------------- while a batch is open

  /** Nothing outside the graph was written, except that expired fingerprints may be dropped. */
  ghost predicate OutsideUntouched(w: World, w': World) {
    && w'.entries == w.entries && w'.projections == w.projections
    && w'.clock == w.clock && w'.program == w.program && w'.ready == w.ready
    && w'.fingerprints.Keys <= w.fingerprints.Keys
    && (forall k <- w'.fingerprints :: w'.fingerprints[k] == w.fingerprints[k])
    && w'.batch.Some?
  }

  /** The fields a stage never reads or writes once the request is admitted. */
  function WithSide(w: World, side: World): World {
    w.(projections := side.projections, entries := side.entries, fingerprints := side.fingerprints, batch := side.batch)
  }

  function Restage(stage: Stage, side: World): Stage {
    match stage
    case Settled(w, outcome) => Settled(WithSide(w, side), outcome)
    case Staged(w, post, result, key) => Staged(WithSide(w, side), post, result, key)
  }

  lemma TransactIgnoresSide(w: World, side: World, req: Request, id: Id)
    ensures Transact(WithSide(w, side), req, id) == Transact(w, req, id)
  {
    hide StateOf, CurrentVersion;
  }

  lemma ReissueIgnoresSide(w: World, side: World, b: Boundary, event: Event, req: Request)
    ensures Reissue(WithSide(w, side), b, event, req) == Reissue(w, b, event, req)
  {
    hide Apply, NextVersion, CurrentVersion;
  }

  lemma CommittedIgnoresSide(w: World, side: World, states: States, events: seq<Event>)
    ensures Committed(WithSide(w, side), states, events) == WithSide(Committed(w, states, events), side)
  {
    hide ClaimAll;
  }

  lemma MutationIgnoresSide(w: World, side: World, b: Boundary, req: Request, key: Option<string>)
    ensures StageMutation(WithSide(w, side), b, req, key) == Restage(StageMutation(w, b, req, key), side)
  {
    hide Transact, Committed, Answered, WithSide;
    var identity := ResolveIdentity(b, req);
    if identity.Ok? {
      var result := Transact(w, Targeted(req, identity.value), identity.value);
      TransactIgnoresSide(w, side, Targeted(req, identity.value), identity.value);
      if result.Ok? {
        CommittedIgnoresSide(w, side, result.value.0.states, Answered(result.value.0.events, result.value.1));
      }
    }
  }

  lemma ReplayIgnoresSide(w: World, side: World, req: Request, eventId: string, key: Option<string>)
    ensures StageReplay(WithSide(w, side), req, eventId, key) == Restage(StageReplay(w, req, eventId, key), side)
  {
    hide Reissue, Find, FindEvent, Committed, WithSide, ReplayRequest, Successful;
    assert WithSide(w, side).log == w.log && WithSide(w, side).program == w.program by { SideFrame(w, side); }
    var event := FindEvent(w.log, eventId);
    if event.Some? {
      var b := Find(w.program, event.value.boundary);
      if b.Some? {
        var replay := ReplayRequest(req, b.value, event.value);
        ReissueIgnoresSide(w, side, b.value, event.value, replay);
        var result := Reissue(w, b.value, event.value, replay);
        if result.Ok? { CommittedIgnoresSide(w, side, result.value.1, [result.value.0]); }
      }
    }
  }

  lemma SideFrame(w: World, side: World)
    ensures WithSide(w, side).log == w.log && WithSide(w, side).program == w.program
  {}

  lemma AdmittedIgnoresSide(w: World, side: World, b: Boundary, req: Request, key: Option<string>)
    ensures StageAdmitted(WithSide(w, side), b, req, key) == Restage(StageAdmitted(w, b, req, key), side)
  {
    hide StageMutation, StageReplay, ReadStateAtVersion;
    MutationIgnoresSide(w, side, b, req, key);
    if req.controls.replayEvent.Some? { ReplayIgnoresSide(w, side, req, req.controls.replayEvent.value, key); }
  }

  ghost predicate SideKept(w: World, w': World) {
    WithSide(w', w) == w' && w'.program == w.program && w'.ready == w.ready && w'.clock == w.clock
  }

  lemma MutationKeepsSide(w: World, b: Boundary, req: Request, key: Option<string>)
    ensures SideKept(w, StageMutation(w, b, req, key).world)
  {
    hide Transact, Answered, ClaimAll, ResolveIdentity;
  }

  lemma ReplayKeepsSide(w: World, req: Request, eventId: string, key: Option<string>)
    ensures SideKept(w, StageReplay(w, req, eventId, key).world)
  {
    hide Reissue, FindEvent, Find, ReplayRequest, ClaimAll, Successful;
  }

  lemma AdmittedKeepsSide(w: World, b: Boundary, req: Request, key: Option<string>)
    ensures SideKept(w, StageAdmitted(w, b, req, key).world)
  {
    hide StageMutation, StageReplay, AnswerQuery;
    MutationKeepsSide(w, b, req, key);
    if req.controls.replayEvent.Some? { ReplayKeepsSide(w, req, req.controls.replayEvent.value, key); }
  }

  lemma StageOutside(w: World, req: Request)
    requires w.batch.Some?
    ensures OutsideUntouched(w, StageRequest(w, req).world)
  {
    hide StageAdmitted, Cached, CheckFingerprint, Find;
    var b := Find(w.program, req.command.boundary);
    if b.Some? {
      AdmittedKeepsSide(w, b.value, req, None);
      var key := IdempotencyKey(w.program, req);
      if key.Some? && CheckFingerprint(w, key.value, req).Ok? {
        CheckOutside(w, key.value, req);
        AdmittedKeepsSide(CheckFingerprint(w, key.value, req).value, b.value, req, key);
      }
    }
  }

  lemma CheckOutside(w: World, key: string, req: Request)
    requires CheckFingerprint(w, key, req).Ok?
    ensures var checked := CheckFingerprint(w, key, req).value;
            && checked == w.(fingerprints := checked.fingerprints)
            && (w.batch.Some? ==> OutsideUntouched(w, checked))
  {
    hide Unexpired, PendingIn;
  }

  /** Inside a batch an item writes the log, the states and the index, and queues the rest. */
  lemma ItemOutside(w: World, req: Request)
    requires w.batch.Some?
    ensures OutsideUntouched(w, Execute(w, req).0)
  {
    hide StageRequest, FollowUp;
    StageOutside(w, req);
  }

  lemma {:induction false} ItemsOutside(w: World, requests: seq<Request>)
    requires w.batch.Some?
    ensures OutsideUntouched(w, RunItems(w, requests).0)
    decreases |requests|
  {
    hide Execute;
    if requests != [] {
      ItemOutside(w, requests[0]);
      ItemsOutside(Execute(w, requests[0]).0, requests[1..]);
    }
  }

  function Begun(w: World): World {
    w.(batch := Some(Batch([], map[])))
  }

  /** If the batch is refused or any item throws, log, states and projections are the checkpoint's,
      no idempotency entry was written, and the index is the one the log determines. */
  lemma FailedBatchLeavesNothing(w: World, requests: seq<Request>)
    requires w.batch.None?
    requires w.program.admitBatch(requests).Err? || RunItems(Begun(w), requests).1.Err?
    ensures var after := ExecuteTransactional(w, requests).0;
            && after.log == w.log && after.states == w.states && after.projections == w.projections
            && after.entries == w.entries && after.program == w.program && after.clock == w.clock
            && after.fingerprints.Keys <= w.fingerprints.Keys
            && (forall k <- after.fingerprints :: after.fingerprints[k] == w.fingerprints[k])
            && after.owners == ClaimAll(map[], w.log) && after.batch.None?
            && ExecuteTransactional(w, requests).1.Err?
  {
    hide RunItems, RunPosts, FlushKeys, ClaimAll;
    ItemsOutside(Begun(w), requests);
  }

  // ------------------------------------------------------------- post-commit work that starts no saga

  /** Whether a saga applies to a commit. */
  function Applies(saga: Saga, commit: CommitContext): Result<bool, RuntimeError> {
    match Trigger(saga, commit.committed, commit.request)
    case None => Ok(false)
    case Some(trigger) => saga.condition(SagaContext(commit, trigger, []))
  }

  /** None of these sagas is started: they are looked at in order, up to one whose condition throws. */
  predicate NoneStarts(sagas: seq<Saga>, commit: CommitContext) {
    sagas != [] ==>
      && Applies(sagas[0], commit) != Ok(true)
      && (Applies(sagas[0], commit).Ok? ==> NoneStarts(sagas[1..], commit))
  }

  predicate AllDecide(sagas: seq<Saga>, commit: CommitContext) {
    sagas != [] ==> Applies(sagas[0], commit).Ok? && AllDecide(sagas[1..], commit)
  }

  predicate AnnouncedWell(p: Program, commit: CommitContext) {
    p.onPostCommit(commit).Ok? && Notify(p, commit).Ok?
  }

  /** This commit's post-commit work, if it gets to the sagas, starts none: it logs nothing more. */
  predicate StartsNoSaga(p: Program, commit: CommitContext) {
    AnnouncedWell(p, commit) && !commit.request.effects.skipSagas ==> NoneStarts(p.sagas, commit)
  }

  /** The hook, the webhooks and the conditions of sagas do not throw. */
  predicate PostSucceeds(p: Program, commit: CommitContext) {
    AnnouncedWell(p, commit) && (commit.request.effects.skipSagas || AllDecide(p.sagas, commit))
  }

  ghost predicate AllSucceed(p: Program, commits: seq<CommitContext>) {
    forall i :: 0 <= i < |commits| ==> PostSucceeds(p, commits[i])
  }

  ghost predicate NoSagas(p: Program, commits: seq<CommitContext>) {
    forall i :: 0 <= i < |commits| ==> StartsNoSaga(p, commits[i])
  }

  function ProjectCommit(projections: seq<Projection>, store: Store, commit: CommitContext): Store {
    if commit.request.effects.skipProjections then store
    else Project(projections, OfCommit(commit), store, commit.committed)
  }

  function ProjectCommits(projections: seq<Projection>, store: Store, commits: seq<CommitContext>): Store
    decreases |commits|
  {
    if commits == [] then store
    else ProjectCommits(projections, ProjectCommit(projections, store, commits[0]), commits[1..])
  }

  lemma {:induction false} IdleSagas(w: World, sagas: seq<Saga>, commit: CommitContext)
    requires NoneStarts(sagas, commit)
    ensures RunSagas(w, sagas, commit).0 == w
    ensures RunSagas(w, sagas, commit).1.Ok? <==> AllDecide(sagas, commit)
    decreases |sagas|
  {
    hide RunStarted;
    if sagas != [] && Applies(sagas[0], commit).Ok? { IdleSagas(w, sagas[1..], commit); }
  }

  lemma OnlyUnit(done: Done)
    ensures done.Ok? ==> done == Ok(())
  {
    if done.Ok? { assert done.value == (); }
  }

  lemma AnnounceProjects(w: World, post: PostCommit)
    ensures var commit := ContextOf(w, post);
            var (w', done) := Announce(w, post);
            && w' == w.(projections := w'.projections) && (done.Ok? <==> AnnouncedWell(w.program, commit))
            && (done.Ok? ==> w'.projections == ProjectCommit(w.program.projections, w.projections, commit))
  {
    hide Project;
  }

  /** Post-commit work that starts no saga succeeds exactly when none of its callbacks throws, and
      then only the projections move. */
  lemma IdleFollowUp(w: World, post: PostCommit)
    requires StartsNoSaga(w.program, ContextOf(w, post))
    ensures FollowUp(w, post).1.Ok? <==> PostSucceeds(w.program, ContextOf(w, post))
    ensures FollowUp(w, post).0 == w.(projections := FollowUp(w, post).0.projections)
    ensures PostSucceeds(w.program, ContextOf(w, post)) ==>
              FollowUp(w, post)
                == (w.(projections := ProjectCommit(w.program.projections, w.projections, ContextOf(w, post))), Ok(()))
  {
    hide Announce, RunSagas, NoneStarts, AllDecide, ProjectCommit;
    AnnounceProjects(w, post);
    var announced := Announce(w, post).0;
    if AnnouncedWell(w.program, ContextOf(w, post)) && !post.request.effects.skipSagas {
      IdleSagas(announced, announced.program.sagas, ContextOf(w, post));
    }
    OnlyUnit(FollowUp(w, post).1);
  }

  /** What the post-commit work of these commits would be given if all of it ran now. */
  function ContextsIn(w: World, posts: seq<PostCommit>): (commits: seq<CommitContext>)
    ensures |commits| == |posts|
    ensures forall i :: 0 <= i < |posts| ==> commits[i] == ContextOf(w, posts[i])
  {
    seq(|posts|, i requires 0 <= i < |posts| => ContextOf(w, posts[i]))
  }

  lemma ContextsRest(w: World, w1: World, posts: seq<PostCommit>)
    requires posts != [] && w1.states == w.states
    ensures ContextsIn(w, posts)[0] == ContextOf(w, posts[0]) && ContextsIn(w, posts)[1..] == ContextsIn(w1, posts[1..])
  {}

  lemma {:induction false} IdlePosts(w: World, posts: seq<PostCommit>)
    requires NoSagas(w.program, ContextsIn(w, posts))
    ensures RunPosts(w, posts).1.Ok? <==> AllSucceed(w.program, ContextsIn(w, posts))
    ensures RunPosts(w, posts).1.Ok? ==>
              && RunPosts(w, posts).1 == Ok(())
              && RunPosts(w, posts).0
                   == w.(projections := ProjectCommits(w.program.projections, w.projections, ContextsIn(w, posts)))
    decreases |posts|
  {
    hide FollowUp, ProjectCommit, PostSucceeds, StartsNoSaga, ContextOf;
    if posts != [] {
      var commits, commit := ContextsIn(w, posts), ContextOf(w, posts[0]);
      assert commits[0] == commit;
      IdleFollowUp(w, posts[0]);
      if PostSucceeds(w.program, commit) {
        var w1 := FollowUp(w, posts[0]).0;
        ContextsRest(w, w1, posts);
        IdlePosts(w1, posts[1..]);
        assert AllSucceed(w.program, commits) <==> AllSucceed(w.program, commits[1..]);
      }
    }
  }

  // ------------------------------------------------------------- a batch and its items one by one

  /** What an open batch would leave if it were closed now, with these projections. */
  function Settlement(w: World, projections: Store): World
    requires w.batch.Some?
  {
    FlushKeys(Close(w), w.batch.value.idempotency).(projections := projections)
  }

  ghost predicate UniformTtl(w: World) {
    w.batch.Some? &&
    forall k <- w.batch.value.idempotency :: w.batch.value.idempotency[k].ttlSeconds == TtlSeconds(w.program)
  }

  /** If the request carries a key, its own clock does not run a whole lifetime ahead of the engine's. */
  predicate SeesFreshEntries(p: Program, req: Request) {
    IdempotencyKey(p, req).Some? ==> req.controls.clockOffset < Lifetime(TtlSeconds(p))
  }

  lemma LookupsAgree(w: World, key: string, req: Request, store: Store)
    requires UniformTtl(w) && req.controls.clockOffset < Lifetime(TtlSeconds(w.program))
    ensures Cached(Settlement(w, store), key, req) == Cached(w, key, req)
    ensures PendingIn(w, key).Some? ==>
              Unexpired(Settlement(w, store), key, req) == Some(PendingIn(w, key).value.result)
    ensures PendingIn(w, key).None? ==> Unexpired(Settlement(w, store), key, req) == Unexpired(w, key, req)
  {}

  lemma ChecksAgree(w: World, key: string, req: Request, store: Store)
    requires UniformTtl(w) && req.controls.clockOffset < Lifetime(TtlSeconds(w.program))
    ensures CheckFingerprint(w, key, req).Ok? <==> CheckFingerprint(Settlement(w, store), key, req).Ok?
    ensures CheckFingerprint(w, key, req).Err? ==>
              CheckFingerprint(w, key, req) == CheckFingerprint(Settlement(w, store), key, req)
    ensures CheckFingerprint(w, key, req).Ok? ==>
              && UniformTtl(CheckFingerprint(w, key, req).value)
              && Settlement(CheckFingerprint(w, key, req).value, store)
              == CheckFingerprint(Settlement(w, store), key, req).value
  {
    hide Unexpired, Lifetime, Settlement;
    LookupsAgree(w, key, req, store);
    SettlementFrame(w, store);
    SettledFingerprint(w, key, store);
    if PendingIn(w, key).None? { SettlementWithout(w, key, store); }
  }

  /** After settling, a key's fingerprint is the batch's if the batch has one. */
  lemma SettledFingerprint(w: World, key: string, store: Store)
    requires w.batch.Some?
    ensures var prints := Settlement(w, store).fingerprints;
            match PendingIn(w, key)
            case Some(pending) => key in prints && prints[key] == pending.fingerprint
            case None => (key in prints <==> key in w.fingerprints)
                         && (key in prints ==> prints[key] == w.fingerprints[key])
  {}

  lemma SettlementWithout(w: World, key: string, store: Store)
    requires w.batch.Some? && PendingIn(w, key).None?
    ensures Settlement(w.(fingerprints := w.fingerprints - {key}), store)
         == Settlement(w, store).(fingerprints := Settlement(w, store).fingerprints - {key})
  {
    var flushed := PendingPrints(w.batch.value.idempotency);
    assert (w.fingerprints - {key}) + flushed == (w.fingerprints + flushed) - {key};
  }

  function Moved(stage: Stage, store: Store): Stage
    requires stage.world.batch.Some?
  {
    match stage
    case Settled(w, outcome) => Settled(Settlement(w, store), outcome)
    case Staged(w, post, result, key) => Staged(Settlement(w, store), post, result, key)
  }

  lemma AdmittedAgrees(w: World, b: Boundary, req: Request, key: Option<string>, store: Store)
    requires UniformTtl(w)
    ensures var stage := StageAdmitted(w, b, req, key);
            UniformTtl(stage.world) && StageAdmitted(Settlement(w, store), b, req, key) == Moved(stage, store)
  {
    hide StageAdmitted, FlushKeys;
    AdmittedKeepsSide(w, b, req, key);
    AdmittedIgnoresSide(w, Settlement(w, store), b, req, key);
    assert WithSide(w, Settlement(w, store)) == Settlement(w, store) by { SettlementSide(w, store); }
    var after := StageAdmitted(w, b, req, key).world;
    SettlementSide(after, store);
    assert WithSide(after, Settlement(w, store))
        == Settlement(after, store) by { SettlementOfSameSide(w, after, store); }
  }

  lemma SettlementSide(w: World, store: Store)
    requires w.batch.Some?
    ensures WithSide(w, Settlement(w, store)) == Settlement(w, store)
  {}

  lemma SettlementOfSameSide(w: World, w': World, store: Store)
    requires w.batch.Some? && WithSide(w', w) == w' && w'.program == w.program && w'.clock == w.clock
    ensures WithSide(w', Settlement(w, store)) == Settlement(w', store)
  {}

  lemma StagesAgree(w: World, req: Request, store: Store)
    requires UniformTtl(w) && SeesFreshEntries(w.program, req)
    ensures var stage := StageRequest(w, req);
            UniformTtl(stage.world) && StageRequest(Settlement(w, store), req) == Moved(stage, store)
  {
    hide StageAdmitted, CheckFingerprint, Cached, Find, Settlement, Lifetime, UniformTtl;
    SettlementFrame(w, store);
    var b := Find(w.program, req.command.boundary);
    if b.Some? {
      AdmittedAgrees(w, b.value, req, None, store);
      var key := IdempotencyKey(w.program, req);
      if key.Some? {
        ChecksAgree(w, key.value, req, store);
        if CheckFingerprint(w, key.value, req).Ok? {
          var checked := CheckFingerprint(w, key.value, req).value;
          CheckOutside(w, key.value, req);
          LookupsAgree(checked, key.value, req, store);
          AdmittedAgrees(checked, b.value, req, key, store);
        }
      }
    }
  }

  lemma SettlementFrame(w: World, store: Store)
    requires UniformTtl(w)
    ensures var s := Settlement(w, store);
            && w.batch.Some? && s.program == w.program && s.ready == w.ready && s.states == w.states && s.batch.None?
  {}

  lemma RememberAgrees(w: World, key: Option<string>, req: Request, result: Execution, store: Store)
    requires UniformTtl(w)
    ensures UniformTtl(Remember(w, key, req, result))
    ensures Remember(Settlement(w, store), key, req, result) == Settlement(Remember(w, key, req, result), store)
  {
    hide Lifetime, FlushKeys, TtlSeconds;
    if key.Some? {
      var w', before := Remember(w, key, req, result), w.batch.value.idempotency;
      var entry := PendingEntry(w.program.fingerprint(req), result, TtlSeconds(w.program));
      assert w'.batch.value.idempotency == before[key.value := entry] && Close(w') == Close(w);
      FlushOne(Close(w), before, key.value, entry);
      SettlementFrame(w, store);
      SettlementClock(w, store);
    }
  }

  lemma SettlementClock(w: World, store: Store)
    requires w.batch.Some?
    ensures Settlement(w, store).clock == w.clock
  {}

  lemma FlushOne(w: World, pending: map<string, PendingEntry>, key: string, entry: PendingEntry)
    ensures FlushKeys(w, pending[key := entry])
         == FlushKeys(w, pending).(
              fingerprints := FlushKeys(w, pending).fingerprints[key := entry.fingerprint],
              entries := FlushKeys(w, pending).entries
                           [key := Entry(entry.result, w.clock + Lifetime(entry.ttlSeconds))])
  {
    hide Lifetime, PendingPrints, PendingEntries;
    PendingPlusOne(pending, key, entry, w.clock);
    AddThenSet(w.fingerprints, PendingPrints(pending), key, entry.fingerprint);
    AddThenSet(w.entries, PendingEntries(pending, w.clock), key,
               Entry(entry.result, w.clock + Lifetime(entry.ttlSeconds)));
  }

  lemma PendingPlusOne(pending: map<string, PendingEntry>, key: string, entry: PendingEntry, clock: int)
    ensures PendingPrints(pending[key := entry]) == PendingPrints(pending)[key := entry.fingerprint]
    ensures PendingEntries(pending[key := entry], clock)
         == PendingEntries(pending, clock)[key := Entry(entry.result, clock + Lifetime(entry.ttlSeconds))]
  {
    hide Lifetime;
  }

  lemma AddThenSet<V>(a: map<string, V>, b: map<string, V>, key: string, value: V)
    ensures a + b[key := value] == (a + b)[key := value]
  {}

  function Deferred(w: World): seq<PostCommit> {
    match w.batch case Some(batch) => batch.postCommits case None => []
  }

  lemma DeferAgrees(w: World, post: PostCommit, store: Store)
    requires UniformTtl(w)
    ensures UniformTtl(Defer(w, post)) && Settlement(Defer(w, post), store) == Settlement(w, store)
    ensures ContextOf(Settlement(w, store), post) == ContextOf(w, post)
  {
    hide FlushKeys, TtlSeconds;
    SettlementFrame(w, store);
    var w' := Defer(w, post);
    assert w'.batch.value.idempotency == w.batch.value.idempotency && Close(w') == Close(w);
  }

  lemma FollowsUpAlike(w: World, post: PostCommit, store: Store)
    requires UniformTtl(w) && StartsNoSaga(w.program, ContextOf(w, post))
    ensures var commit := ContextOf(w, post);
            if PostSucceeds(w.program, commit)
            then FollowUp(Settlement(w, store), post)
                   == (Settlement(w, ProjectCommit(w.program.projections, store, commit)), Ok(()))
            else FollowUp(Settlement(w, store), post).1.Err?
  {
    hide FollowUp, ProjectCommit, PostSucceeds, StartsNoSaga, FlushKeys;
    assert ContextOf(Settlement(w, store), post) == ContextOf(w, post) by { DeferAgrees(w, post, store); }
    SettlementFrame(w, store);
    IdleFollowUp(Settlement(w, store), post);
  }

  /** One item: in the batch and on its own it has the same outcome and the same effect, but for the
      post-commit work it does at once on its own; if that throws, on its own it fails. */
  lemma ItemsAgree(w: World, req: Request, store: Store)
    requires UniformTtl(w) && SeesFreshEntries(w.program, req)
    requires var stage := StageRequest(w, req);
             stage.Staged? ==> StartsNoSaga(w.program, ContextOf(stage.world, stage.post))
    ensures var (w', outcome) := Execute(w, req);
            var stage := StageRequest(w, req);
            && UniformTtl(w') && w'.program == w.program
            && (if stage.Staged? then
                  var commit := ContextOf(stage.world, stage.post);
                  && outcome.Ok? && Deferred(w') == Deferred(w) + [stage.post]
                  && (if PostSucceeds(w.program, commit)
                      then Execute(Settlement(w, store), req)
                             == (Settlement(w', ProjectCommit(w.program.projections, store, commit)), outcome)
                      else Execute(Settlement(w, store), req).1.Err?)
                else
                  Deferred(w') == Deferred(w) && Execute(Settlement(w, store), req) == (Settlement(w', store), outcome))
  {
    hide StageRequest, FollowUp, Settlement, PostSucceeds, StartsNoSaga, Lifetime, UniformTtl, Defer, Remember,
         ProjectCommit, ContextOf, SeesFreshEntries;
    StagesAgree(w, req, store);
    StageOutside(w, req) by { SettlementFrame(w, store); }
    StageKeepsBatch(w, req);
    var stage := StageRequest(w, req);
    SettlementFrame(stage.world, store);
    ItemOutside(w, req) by { SettlementFrame(w, store); }
    if stage.Staged? {
      var projected := ProjectCommit(w.program.projections, store, ContextOf(stage.world, stage.post));
      FollowsUpAlike(stage.world, stage.post, store);
      DeferAgrees(stage.world, stage.post, projected);
      RememberAgrees(Defer(stage.world, stage.post), stage.key, req, stage.result, projected);
      SettlementFrame(stage.world, projected);
      DeferredPosts(stage.world, stage.post, stage.key, req, stage.result);
      SettledConclusion(stage, req, projected);
    }
  }

  lemma SettledConclusion(stage: Stage, req: Request, store: Store)
    requires stage.Staged? && UniformTtl(stage.world)
    ensures Remember(Settlement(stage.world, store), stage.key, req, stage.result)
         == Settlement(Remember(Defer(stage.world, stage.post), stage.key, req, stage.result), store)
  {
    hide Remember, Settlement, UniformTtl;
    DeferAgrees(stage.world, stage.post, store);
    RememberAgrees(Defer(stage.world, stage.post), stage.key, req, stage.result, store);
  }

  lemma DeferredPosts(w: World, post: PostCommit, key: Option<string>, req: Request, result: Execution)
    requires w.batch.Some?
    ensures Defer(w, post).batch.Some? && Deferred(Remember(Defer(w, post), key, req, result)) == Deferred(w) + [post]
  {}

  lemma StagedKeepsEffects(w: World, req: Request)
    requires StageRequest(w, req).Staged?
    ensures StageRequest(w, req).post.request.effects == req.effects
  {
    hide Transact, Reissue, CheckFingerprint, Cached, Find, FindEvent, AnswerQuery, Committed;
  }

  lemma StageKeepsBatch(w: World, req: Request)
    ensures StageRequest(w, req).world.batch == w.batch
  {
    hide StageAdmitted, Cached, CheckFingerprint, Find;
    var b := Find(w.program, req.command.boundary);
    if b.Some? {
      AdmittedKeepsSide(w, b.value, req, None);
      var key := IdempotencyKey(w.program, req);
      if key.Some? && CheckFingerprint(w, key.value, req).Ok? {
        CheckOutside(w, key.value, req);
        AdmittedKeepsSide(CheckFingerprint(w, key.value, req).value, b.value, req, key);
      }
    }
  }

  /** What the items' post-commit work is given when each does its own at once. */
  function InTurn(w: World, requests: seq<Request>): seq<CommitContext>
    decreases |requests|
  {
    if requests == [] then []
    else
      var stage := StageRequest(w, requests[0]);
      var (w1, outcome) := Execute(w, requests[0]);
      (if stage.Staged? then [ContextOf(stage.world, stage.post)] else [])
      + (if outcome.Ok? then InTurn(w1, requests[1..]) else [])
  }

  /** The items one by one succeed exactly when the batch's items do and none of their post-commit
      work throws; then they leave what the batch would settle to, but for the projections. */
  lemma {:induction false} AllItemsAgree(w: World, requests: seq<Request>, store: Store)
    requires UniformTtl(w) && NoSagas(w.program, InTurn(w, requests))
    requires forall i :: 0 <= i < |requests| ==> SeesFreshEntries(w.program, requests[i])
    ensures var (w', results) := RunItems(w, requests);
            var (s, alone) := RunItems(Settlement(w, store), requests);
            && UniformTtl(w') && w'.program == w.program
            && (alone.Ok? <==> results.Ok? && AllSucceed(w.program, InTurn(w, requests)))
            && (alone.Ok? ==>
                  && alone == results
                  && s == Settlement(w', ProjectCommits(w.program.projections, store, InTurn(w, requests))))
    decreases |requests|
  {
    hide Execute, Settlement, PostSucceeds, StartsNoSaga, SeesFreshEntries, UniformTtl, StageRequest, ProjectCommit,
         ContextOf;
    if requests != [] {
      var stage := StageRequest(w, requests[0]);
      var (w1, outcome) := Execute(w, requests[0]);
      var all := InTurn(w, requests);
      if stage.Staged? { assert all[0] == ContextOf(stage.world, stage.post); }
      ItemsAgree(w, requests[0], store);
      if outcome.Ok? {
        var rest := InTurn(w1, requests[1..]);
        var commits := if stage.Staged? then [ContextOf(stage.world, stage.post)] else [];
        assert all == commits + rest;
        OneThenRest(w.program, commits, rest);
        assert [] + rest == rest;
        var projected := if stage.Staged? then ProjectCommit(w.program.projections, store, commits[0]) else store;
        if stage.Staged? { assert all[1..] == rest; }
        AllItemsAgree(w1, requests[1..], projected);
      }
    }
  }

  lemma OneThenRest(p: Program, some: seq<CommitContext>, rest: seq<CommitContext>)
    ensures AllSucceed(p, some + rest) <==> AllSucceed(p, some) && AllSucceed(p, rest)
    ensures NoSagas(p, some + rest) <==> NoSagas(p, some) && NoSagas(p, rest)
  {
    hide PostSucceeds, StartsNoSaga;
    var all := some + rest;
    forall i | 0 <= i < |some| ensures all[i] == some[i] {}
    forall i | 0 <= i < |rest| ensures all[|some| + i] == rest[i] {}
    forall i | |some| <= i < |all| ensures all[i] == rest[i - |some|] {}
  }

  /** What post-commit work of a batch is given once all items ran. */
  function AtEnd(w: World, requests: seq<Request>): seq<CommitContext> {
    var ran := RunItems(w, requests).0;
    ContextsIn(ran, Deferred(ran))
  }

  /** Executed as a transactional batch, the requests come to what they come to one by one: the same
      success, and then the same results and the same state, log, graph, index, projections and
      idempotency alike. */
  ghost predicate RunsAsItems(w: World, requests: seq<Request>) {
    && (ExecuteTransactional(w, requests).1.Ok? <==> RunItems(w, requests).1.Ok?)
    && (RunItems(w, requests).1.Ok? ==> ExecuteTransactional(w, requests) == RunItems(w, requests))
  }

  /** The post-commit work of the items comes to the same at the end as in turn: none of it throws
      at the one moment if none does at the other, and the projections come out alike. */
  ghost predicate MomentsAgree(w: World, requests: seq<Request>) {
    var p, inTurn, atEnd := w.program, InTurn(Begun(w), requests), AtEnd(Begun(w), requests);
    && (AllSucceed(p, inTurn) <==> AllSucceed(p, atEnd))
    && (AllSucceed(p, inTurn) ==>
          ProjectCommits(p.projections, w.projections, inTurn) == ProjectCommits(p.projections, w.projections, atEnd))
  }

  /** Post-commit work commits nothing more, in turn or at the end. */
  ghost predicate NoMoreCommits(w: World, requests: seq<Request>) {
    && NoSagas(w.program, InTurn(Begun(w), requests))
    && (RunItems(Begun(w), requests).1.Ok? ==> NoSagas(w.program, AtEnd(Begun(w), requests)))
  }

  lemma TransactionalOutcome(w: World, requests: seq<Request>)
    requires w.batch.None? && w.program.admitBatch(requests).Ok?
    requires RunItems(Begun(w), requests).1.Ok? ==> NoSagas(w.program, AtEnd(Begun(w), requests))
    requires forall i :: 0 <= i < |requests| ==> SeesFreshEntries(w.program, requests[i])
    requires UniformTtl(RunItems(Begun(w), requests).0) && RunItems(Begun(w), requests).0.program == w.program
    ensures var (ran, results) := RunItems(Begun(w), requests);
            var atEnd := AtEnd(Begun(w), requests);
            var (after, batch) := ExecuteTransactional(w, requests);
            && (batch.Ok? <==> results.Ok? && AllSucceed(w.program, atEnd))
            && (batch.Ok? ==>
                  && batch == results
                  && after == Settlement(ran, ProjectCommits(w.program.projections, w.projections, atEnd)))
  {
    hide RunItems, RunPosts, PostSucceeds, StartsNoSaga, SeesFreshEntries, FlushKeys, ContextOf, ProjectCommits;
    ItemsOutside(Begun(w), requests);
    var (ran, results) := RunItems(Begun(w), requests);
    if results.Ok? {
      var flushed := FlushKeys(Close(ran), ran.batch.value.idempotency);
      FlushedContexts(ran);
      IdlePosts(flushed, ran.batch.value.postCommits);
    }
  }

  lemma FlushedContexts(w: World)
    requires w.batch.Some?
    ensures var flushed := FlushKeys(Close(w), w.batch.value.idempotency);
            && flushed.program == w.program && flushed.projections == w.projections
            && ContextsIn(flushed, w.batch.value.postCommits) == ContextsIn(w, Deferred(w))
  {}

  /** A transactional batch whose post-commit work commits nothing more runs as its items one by one
      if and only if that work comes to the same at the end of the batch as in turn. Each item that
      carries a key must see fresh entries. */
  lemma BatchIsSequentialExactly(w: World, requests: seq<Request>)
    requires w.batch.None? && w.program.admitBatch(requests).Ok? && NoMoreCommits(w, requests)
    requires forall i :: 0 <= i < |requests| ==> SeesFreshEntries(w.program, requests[i])
    ensures RunsAsItems(w, requests) <==> (RunItems(Begun(w), requests).1.Ok? ==> MomentsAgree(w, requests))
  {
    hide RunItems, PostSucceeds, StartsNoSaga, SeesFreshEntries, ExecuteTransactional, ProjectCommits, InTurn, AtEnd,
         AllSucceed, NoSagas;
    assert Settlement(Begun(w), w.projections) == w by { EmptyBatchSettles(w); }
    AllItemsAgree(Begun(w), requests, w.projections);
    TransactionalOutcome(w, requests);
  }

  lemma EmptyBatchSettles(w: World)
    requires w.batch.None?
    ensures Settlement(Begun(w), w.projections) == w && UniformTtl(Begun(w))
  {
    var s := Settlement(Begun(w), w.projections);
    assert s.entries == w.entries;
    assert s.fingerprints == w.fingerprints;
  }

  // ------------------------------------------------------------- callbacks that ignore the live state

  /** The same commit, looked at in another state. */
  function Seen(commit: CommitContext, state: Option<Object>): CommitContext {
    commit.(state := state)
  }

  /** Whether a hook, a webhook or a saga's condition throws, whether a saga starts and what the
      projections come to does not depend on the state the target is in by then. */
  ghost predicate StateBlind(p: Program) {
    && (forall c: CommitContext, state: Option<Object> :: p.onPostCommit(Seen(c, state)).Ok? == p.onPostCommit(c).Ok?)
    && (forall c: CommitContext, state: Option<Object> :: p.webhooks(Seen(c, state)).Ok? == p.webhooks(c).Ok?)
    && (forall saga <- p.sagas, c: CommitContext, state: Option<Object>, trigger: Event ::
          saga.condition(SagaContext(Seen(c, state), trigger, [])) == saga.condition(SagaContext(c, trigger, [])))
    && (forall c: CommitContext, state: Option<Object> ::
          AllAlike(p.projections, OfCommit(Seen(c, state)), OfCommit(c)))
  }

  lemma SeenAlike(p: Program, commit: CommitContext, state: Option<Object>, store: Store)
    requires StateBlind(p)
    ensures PostSucceeds(p, Seen(commit, state)) == PostSucceeds(p, commit)
    ensures StartsNoSaga(p, Seen(commit, state)) == StartsNoSaga(p, commit)
    ensures ProjectCommit(p.projections, store, Seen(commit, state)) == ProjectCommit(p.projections, store, commit)
  {
    hide Project, AllAlike, Trigger;
    SagasSeeAlike(p, p.sagas, commit, state);
    assert AllAlike(p.projections, OfCommit(Seen(commit, state)), OfCommit(commit));
    ProjectAlike(p.projections, OfCommit(Seen(commit, state)), OfCommit(commit), store, commit.committed);
  }

  lemma {:induction false} SagasSeeAlike(p: Program, sagas: seq<Saga>, commit: CommitContext, state: Option<Object>)
    requires StateBlind(p) && forall saga <- sagas :: saga in p.sagas
    ensures NoneStarts(sagas, Seen(commit, state)) == NoneStarts(sagas, commit)
    ensures AllDecide(sagas, Seen(commit, state)) == AllDecide(sagas, commit)
    decreases |sagas|
  {
    hide AllAlike, Trigger;
    if sagas != [] {
      assert sagas[0] in p.sagas;
      assert Applies(sagas[0], Seen(commit, state)) == Applies(sagas[0], commit);
      SagasSeeAlike(p, sagas[1..], commit, state);
    }
  }

  /** The same commits, each perhaps seen in another state. */
  ghost predicate SameCommits(a: seq<CommitContext>, b: seq<CommitContext>) {
    |a| == |b| && forall i :: 0 <= i < |a| ==> b[i] == Seen(a[i], b[i].state)
  }

  lemma {:induction false} CommitsSeenAlike(p: Program, a: seq<CommitContext>, b: seq<CommitContext>, store: Store)
    requires StateBlind(p) && SameCommits(a, b)
    ensures AllSucceed(p, b) <==> AllSucceed(p, a)
    ensures NoSagas(p, b) <==> NoSagas(p, a)
    ensures ProjectCommits(p.projections, store, b) == ProjectCommits(p.projections, store, a)
    decreases |a|
  {
    hide StateBlind, PostSucceeds, StartsNoSaga, ProjectCommit, Seen;
    forall i | 0 <= i < |a|
      ensures PostSucceeds(p, b[i]) == PostSucceeds(p, a[i]) && StartsNoSaga(p, b[i]) == StartsNoSaga(p, a[i])
    {
      SeenAlike(p, a[i], b[i].state, store);
    }
    if a != [] {
      SeenAlike(p, a[0], b[0].state, store);
      CommitsSeenAlike(p, a[1..], b[1..], ProjectCommit(p.projections, store, a[0]));
    }
  }

  ghost predicate ContextOfPost(commit: CommitContext, post: PostCommit) {
    commit == CommitContext(post.request, commit.state, post.events, post.response)
  }

  /** The items defer exactly the commits that each would follow up on its own. */
  lemma {:induction false} DefersInTurn(w: World, requests: seq<Request>)
    requires w.batch.Some?
    ensures Deferred(w) <= Deferred(RunItems(w, requests).0)
    ensures AreContexts(InTurn(w, requests), Deferred(RunItems(w, requests).0)[|Deferred(w)|..])
    decreases |requests|
  {
    hide Execute, StageRequest, ContextOfPost, ContextOf;
    if requests == [] {
      assert Deferred(w)[|Deferred(w)|..] == [];
    } else {
      var stage := StageRequest(w, requests[0]);
      var (w1, outcome) := Execute(w, requests[0]);
      ItemDefers(w, requests[0]);
      var commits, posts := if stage.Staged? then [ContextOf(stage.world, stage.post)] else [],
          if stage.Staged? then [stage.post] else [];
      assert AreContexts(commits, posts) by { if stage.Staged? { StagedContext(stage); } }
      assert Deferred(w1)[|Deferred(w)|..] == posts;
      if outcome.Ok? {
        DefersInTurn(w1, requests[1..]);
        var all := Deferred(RunItems(w, requests).0);
        assert all[|Deferred(w)|..] == posts + all[|Deferred(w1)|..];
      } else {
        assert commits + [] == commits;
      }
    }
  }

  ghost predicate AreContexts(commits: seq<CommitContext>, posts: seq<PostCommit>) {
    |commits| == |posts| && forall i :: 0 <= i < |posts| ==> ContextOfPost(commits[i], posts[i])
  }

  lemma StagedContext(stage: Stage)
    requires stage.Staged?
    ensures ContextOfPost(ContextOf(stage.world, stage.post), stage.post)
  {}

  lemma ItemDefers(w: World, req: Request)
    requires w.batch.Some?
    ensures var stage := StageRequest(w, req);
            && Execute(w, req).0.batch.Some?
            && Deferred(Execute(w, req).0) == Deferred(w) + (if stage.Staged? then [stage.post] else [])
  {
    hide StageRequest, FollowUp, Remember, Defer;
    ItemOutside(w, req);
    StageKeepsBatch(w, req);
    var stage := StageRequest(w, req);
    if stage.Staged? {
      DeferredPosts(stage.world, stage.post, stage.key, req, stage.result);
      DeferredPosts(stage.world, stage.post, None, req, stage.result);
    }
  }

  lemma SameCommitsAtEnd(w: World, requests: seq<Request>)
    requires w.batch.Some? && Deferred(w) == []
    ensures SameCommits(InTurn(w, requests), AtEnd(w, requests))
  {
    hide RunItems, InTurn;
    DefersInTurn(w, requests);
    var posts := Deferred(RunItems(w, requests).0);
    assert posts[0..] == posts;
  }

  /** So a batch always runs as its items one by one when no callback looks at the live state, and
      the items' own post-commit work commits nothing more: it succeeds exactly when they do, and then
      with the same results in the same state. */
  lemma SuccessfulBatchIsSequential(w: World, requests: seq<Request>)
    requires w.batch.None? && w.program.admitBatch(requests).Ok?
    requires StateBlind(w.program) && NoSagas(w.program, InTurn(Begun(w), requests))
    requires forall i :: 0 <= i < |requests| ==> SeesFreshEntries(w.program, requests[i])
    ensures RunsAsItems(w, requests)
  {
    hide StateBlind, NoSagas, AllSucceed, InTurn, AtEnd, RunsAsItems, ProjectCommits, SameCommits, SeesFreshEntries,
         RunItems;
    SameCommitsAtEnd(Begun(w), requests);
    CommitsSeenAlike(w.program, InTurn(Begun(w), requests), AtEnd(Begun(w), requests), w.projections);
    BatchIsSequentialExactly(w, requests);
  }
}
