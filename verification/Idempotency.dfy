// At-most-once execution per idempotency key, over runs of requests, batches, restores and waits
// (src/core/engine.ts: executeInternal, executeBatch, storeIdempotency; src/core/storage.ts: TTL reads).
module Idempotency {
  import opened Batches
  import opened Domain
  import opened EventSourcing
  import opened Examples
  import opened GraphInvariant
  import opened Json
  import opened Reduction
  import opened Runtime
  import opened SagaChain
  import opened Transactions
  import opened Wrappers

  // ------------------------------------------------------------- what a commit promises

  /** Requests under a key are answered until this time; with this result, if one is named. */
  datatype Promise = Promise(key: string, until: int, result: Option<Execution>)

  /** A pending answer of the open batch, or else a stored one, that serves for as long. */
  ghost predicate Holds(w: World, p: Promise) {
    && p.until <= w.clock + Lifetime(TtlSeconds(w.program))
    && match PendingIn(w, p.key)
       case Some(pending) =>
         w.clock + Lifetime(pending.ttlSeconds) >= p.until && (p.result.None? || p.result.value == pending.result)
       case None =>
         && p.key in w.entries && w.entries[p.key].expires >= p.until
         && (p.result.None? || p.result.value == w.entries[p.key].result)
  }

  /** Requests that observe the end of a promise may put another result under the key. */
  predicate Early(w: World, req: Request, p: Promise) {
    p.result.None? || ObservedTime(w, req) < p.until
  }

  lemma SameAnswers(w: World, w': World, p: Promise)
    requires Holds(w, p) && w'.entries == w.entries && w'.program == w.program && w'.clock == w.clock
    requires forall key: string :: PendingIn(w', key) == PendingIn(w, key)
    ensures Holds(w', p)
  {
    hide Lifetime, PendingIn;
  }

  lemma HeldIsAnswered(w: World, req: Request, p: Promise)
    requires Holds(w, p) && ObservedTime(w, req) < p.until
    ensures Cached(w, p.key, req).Some?
    ensures p.result.Some? ==> Cached(w, p.key, req) == p.result
  {
    hide Lifetime;
  }

  lemma StageFrame(w: World, req: Request)
    ensures var w' := StageRequest(w, req).world;
            && w'.entries == w.entries && w'.program == w.program && w'.clock == w.clock && w'.batch == w.batch
  {
    hide StageAdmitted, Cached, CheckFingerprint, Find;
    var b := Find(w.program, req.command.boundary);
    if b.Some? {
      AdmittedKeepsSide(w, b.value, req, None);
      var key := IdempotencyKey(w.program, req);
      if key.Some? && CheckFingerprint(w, key.value, req).Ok? {
        CheckOutside(w, key.value, req);
        AdmittedKeepsSide(CheckFingerprint(w, key.value, req).value, b.value, req, key);
      }
    }
  }

  lemma AdmittedStage(w: World, b: Boundary, req: Request, key: Option<string>)
    ensures var stage := StageAdmitted(w, b, req, key);
            && (stage.Settled? && stage.outcome.Ok? ==> !stage.outcome.value.committed)
            && (stage.Staged? ==>
                  && stage.key == (if Remembered(req, stage.result.response) then key else None)
                  && stage.post.request.controls == req.controls && stage.result.committed
                  && w.log <= stage.world.log && (req.command.intent == Query ==> |w.log| < |stage.world.log|))
  {
    hide Transact, Reissue, ReadStateAtVersion, Find, FindEvent, Answered, ClaimAll, ResolveIdentity, Successful;
  }

  /** The guard before storing: replays are remembered only when they succeed. */
  predicate Remembered(req: Request, response: Response) {
    req.command.intent != Query || Successful(response)
  }

  /** Only a request whose key has no answer gets to commit, and then under that key. */
  lemma StagedUnanswered(w: World, req: Request)
    requires StageRequest(w, req).Staged?
    ensures var stage := StageRequest(w, req);
            && stage.post.request.controls == req.controls && stage.result.committed
            && w.log <= stage.world.log && (req.command.intent == Query ==> |w.log| < |stage.world.log|)
            && stage.key == (if Remembered(req, stage.result.response) then IdempotencyKey(w.program, req) else None)
            && (IdempotencyKey(w.program, req).Some? ==> Cached(w, IdempotencyKey(w.program, req).value, req).None?)
  {
    hide StageAdmitted, Find, Remembered, IdempotencyKey;
    var b := Find(w.program, req.command.boundary).value;
    var key := IdempotencyKey(w.program, req);
    var checked := if key.Some? then CheckFingerprint(w, key.value, req).value else w;
    AdmittedStage(checked, b, req, key);
  }

  lemma StagedMisses(w: World, req: Request, p: Promise)
    requires StageRequest(w, req).Staged? && Holds(w, p) && Early(w, req, p)
    ensures p.result.Some? ==> StageRequest(w, req).key != Some(p.key)
  {
    hide StageRequest, Holds, Cached, IdempotencyKey;
    StagedUnanswered(w, req);
    if p.result.Some? { HeldIsAnswered(w, req, p); }
  }

  // ------------------------------------------------------------- requests keep promises

  lemma RememberKeepsPromise(w: World, key: Option<string>, req: Request, result: Execution, p: Promise)
    requires Holds(w, p) && (p.result.Some? ==> key != Some(p.key))
    ensures Holds(Remember(w, key, req, result), p)
  {
    hide Lifetime;
    if key == Some(p.key) {
      RememberPromises(w, p.key, req, result);
    } else if key.Some? {
      OtherKeysStay(w, key.value, w.program.fingerprint(req), result, TtlSeconds(w.program), p.key);
    }
  }

  lemma OtherKeysStay(w: World, key: string, fingerprint: string, result: Execution, ttlSeconds: int, other: string)
    requires key != other
    ensures var w' := StoreEntry(w, key, fingerprint, result, ttlSeconds);
            && PendingIn(w', other) == PendingIn(w, other) && w'.clock == w.clock && w'.program == w.program
            && (other in w'.entries <==> other in w.entries)
            && (other in w.entries ==> w'.entries[other] == w.entries[other])
  {
    hide Lifetime;
  }

  /** A stored result is itself a promise for one lifetime. */
  lemma RememberPromises(w: World, key: string, req: Request, result: Execution)
    ensures Holds(Remember(w, Some(key), req, result),
                  Promise(key, w.clock + Lifetime(TtlSeconds(w.program)), Some(result)))
  {
    hide Lifetime, TtlSeconds;
    var w' := Remember(w, Some(key), req, result);
    if w.batch.Some? {
      assert PendingIn(w', key) == Some(PendingEntry(w.program.fingerprint(req), result, TtlSeconds(w.program)));
    } else {
      assert w'.entries[key] == Entry(result, w.clock + Lifetime(TtlSeconds(w.program)));
    }
  }

  lemma ConcludeKeepsPromise(after: (World, Done), stage: Stage, req: Request, p: Promise)
    requires stage.Staged? && Holds(after.0, p) && (p.result.Some? ==> stage.key != Some(p.key))
    ensures Holds(Conclude(after, stage, req).0, p)
  {
    hide Remember, Holds;
    if after.1.Ok? { RememberKeepsPromise(after.0, stage.key, req, stage.result, p); }
  }

  lemma DeferKeepsPromise(w: World, post: PostCommit, p: Promise)
    requires Holds(w, p)
    ensures Holds(Defer(w, post), p)
  {
    SameAnswers(w, Defer(w, post), p);
  }

  lemma AnnounceKeepsPromise(w: World, post: PostCommit, p: Promise)
    requires Holds(w, p)
    ensures Holds(Announce(w, post).0, p) && Announce(w, post).0.clock == w.clock
  {
    SameAnswers(w, Announce(w, post).0, p);
  }

  lemma StageKeepsPromise(w: World, req: Request, p: Promise)
    requires Holds(w, p)
    ensures Holds(StageRequest(w, req).world, p)
  {
    hide StageRequest;
    StageFrame(w, req);
    SameAnswers(w, StageRequest(w, req).world, p);
  }

  lemma PlainKeepsPromise(w: World, req: Request, p: Promise)
    requires Holds(w, p) && Early(w, req, p)
    ensures Holds(ExecutePlain(w, req).0, p)
  {
    hide StageRequest, Announce, Conclude, Defer, Holds;
    StageKeepsPromise(w, req, p);
    var stage := StageRequest(w, req);
    if stage.Staged? {
      StagedMisses(w, req, p);
      DeferKeepsPromise(stage.world, stage.post, p);
      AnnounceKeepsPromise(stage.world, stage.post, p);
      var after := if stage.world.batch.Some? then (Defer(stage.world, stage.post), Ok(()))
                   else Announce(stage.world, stage.post);
      ConcludeKeepsPromise(after, stage, req, p);
    }
  }

  /** As a relation that can be chained along the sagas of a commit: steps observe their trigger's time. */
  ghost predicate KeepsPromise(w: World, w': World, source: Request, p: Promise) {
    w'.clock == w.clock && (Holds(w, p) && Early(w, source, p) ==> Holds(w', p))
  }

  ghost function PromiseKept(source: Request, p: Promise): Relation {
    (w: World, w': World) => KeepsPromise(w, w', source, p)
  }

  lemma SagaLinksKeepPromise(source: Request, p: Promise)
    ensures KeptByLinks(PromiseKept(source, p), Inherited(source))
  {
    hide Holds, ExecutePlain, AppendMark;
    forall w: World, req: Request | Inherits(req, source) ensures KeepsPromise(w, ExecutePlain(w, req).0, source, p) {
      PlainAdvances(w, req);
      if Holds(w, p) && Early(w, req, p) { PlainKeepsPromise(w, req, p); }
    }
    forall w: World, saga: Saga, instance: Id, mark: Mark, req: Request
      ensures KeepsPromise(w, AppendMark(w, saga, instance, mark, req), source, p)
    {
      MarkFrame(w, saga, instance, mark, req);
      if Holds(w, p) { SameAnswers(w, AppendMark(w, saga, instance, mark, req), p); }
    }
  }

  lemma MarkFrame(w: World, saga: Saga, instance: Id, mark: Mark, req: Request)
    ensures var w' := AppendMark(w, saga, instance, mark, req);
            && w'.clock == w.clock && w'.entries == w.entries && w'.program == w.program && w'.batch == w.batch
  {}

  lemma FollowUpAdvances(w: World, post: PostCommit)
    ensures Advances(w, FollowUp(w, post).0)
  {
    hide FollowUp, Graph, WellFormed;
    FollowUpKeeps(w, post);
  }

  lemma FollowUpKeepsPromise(w: World, post: PostCommit, p: Promise)
    requires Holds(w, p) && Early(w, post.request, p)
    ensures Holds(FollowUp(w, post).0, p)
  {
    hide Announce, RunSagas, Holds;
    AnnounceKeepsPromise(w, post, p);
    var announced := Announce(w, post);
    SagaLinksKeepPromise(post.request, p);
    SagasChain(PromiseKept(post.request, p), announced.0, announced.0.program.sagas, ContextOf(w, post));
  }

  lemma ExecuteAdvances(w: World, req: Request)
    ensures Advances(w, Execute(w, req).0)
  {
    hide Execute, Graph, WellFormed;
    ExecuteKeeps(w, req);
  }

  /** A request keeps every promise, in or out of a batch; one with a named result if it is early. */
  lemma ExecuteKeepsPromise(w: World, req: Request, p: Promise)
    requires Holds(w, p) && Early(w, req, p)
    ensures Holds(Execute(w, req).0, p)
  {
    hide StageRequest, FollowUp, Conclude, Defer, Holds;
    StageKeepsPromise(w, req, p);
    var stage := StageRequest(w, req);
    if stage.Staged? {
      StagedMisses(w, req, p);
      StagedUnanswered(w, req);
      StageFrame(w, req);
      DeferKeepsPromise(stage.world, stage.post, p);
      FollowUpKeepsPromise(stage.world, stage.post, p);
      var after := if stage.world.batch.Some? then (Defer(stage.world, stage.post), Ok(()))
                   else FollowUp(stage.world, stage.post);
      ConcludeKeepsPromise(after, stage, req, p);
    }
  }

  // ------------------------------------------------------------- one request under a key

  ghost predicate Commits(w: World, req: Request) {
    Execute(w, req).1.Ok? && Execute(w, req).1.value.committed
  }

  /** A request whose key is answered changes nothing, and gives that answer, marked uncommitted, if
      it gets past its own admission and fingerprint. */
  lemma LiveKeyChangesNothing(w: World, req: Request, key: string)
    requires IdempotencyKey(w.program, req) == Some(key) && Cached(w, key, req).Some?
    ensures var (w', outcome) := Execute(w, req);
            && w' == w && !Commits(w, req)
            && (w.ready && w.program.admit(req, CurrentState(req, w.states)).Proceed?
                && Find(w.program, req.command.boundary).Some? ==>
                  outcome == Ok(Cached(w, key, req).value.(committed := false)) || outcome == Err(KEY_CONFLICT))
  {
    hide StageAdmitted, Find, FollowUp;
  }

  lemma CommitIsStaged(w: World, req: Request)
    requires Commits(w, req)
    ensures var stage := StageRequest(w, req);
            && stage.Staged? && Execute(w, req).1 == Ok(stage.result)
            && (w.batch.None? ==> FollowUp(stage.world, stage.post).1.Ok?)
  {
    hide StageAdmitted, Find, FollowUp, Remember, CheckFingerprint, IdempotencyKey;
    StageFrame(w, req);
    var b := Find(w.program, req.command.boundary);
    var key := IdempotencyKey(w.program, req);
    if b.Some? && (key.None? || CheckFingerprint(w, key.value, req).Ok?) {
      AdmittedStage(if key.Some? then CheckFingerprint(w, key.value, req).value else w, b.value, req, key);
    }
  }

  /** A commit under a key promises its result for one whole lifetime, except when it is an event
      replay whose response is not a success. */
  lemma CommitPromises(w: World, req: Request, key: string)
    requires IdempotencyKey(w.program, req) == Some(key) && Commits(w, req)
    requires Remembered(req, Execute(w, req).1.value.response)
    ensures Holds(Execute(w, req).0,
                  Promise(key, w.clock + Lifetime(TtlSeconds(w.program)), Some(Execute(w, req).1.value)))
  {
    hide FollowUp, Remember, StageRequest, Holds, Defer, Commits, Lifetime;
    CommitIsStaged(w, req);
    StagedUnanswered(w, req);
    StageFrame(w, req);
    var stage := StageRequest(w, req);
    FollowUpAdvances(stage.world, stage.post);
    DeferFrame(stage.world, stage.post);
    var after := if stage.world.batch.Some? then Defer(stage.world, stage.post)
                 else FollowUp(stage.world, stage.post).0;
    RememberPromises(after, key, req, stage.result);
  }

  lemma DeferFrame(w: World, post: PostCommit)
    ensures Defer(w, post).clock == w.clock && Defer(w, post).program == w.program
  {}

  // ------------------------------------------------------------- commits that promise nothing

  /** What a request that gets to its commit stores: its result, if its post-commit work succeeds and
      it is not an unsuccessful replay; otherwise nothing. The commit itself stays logged. */
  lemma StoredExactly(w: World, req: Request, key: string)
    requires w.batch.None? && IdempotencyKey(w.program, req) == Some(key) && StageRequest(w, req).Staged?
    ensures var stage := StageRequest(w, req);
            var (w', done) := FollowUp(stage.world, stage.post);
            && Execute(w, req).0.entries ==
                 (if done.Ok? && Remembered(req, stage.result.response)
                  then w'.entries[key := Entry(stage.result, w.clock + Lifetime(TtlSeconds(w.program)))]
                  else w'.entries)
            && w.log <= stage.world.log <= Execute(w, req).0.log
            && Execute(w, req).1 == (match done case Ok(_) => Ok(stage.result) case Err(e) => Err(e))
  {
    hide FollowUp, StageRequest, Lifetime, Remembered, IdempotencyKey;
    StagedUnanswered(w, req);
    StageFrame(w, req);
    var stage := StageRequest(w, req);
    FollowUpAdvances(stage.world, stage.post);
  }

  /** So, if its commit starts no saga, asking again at once is answered from the commit if and only if
      none of its post-commit callbacks threw, it was not an unsuccessful replay, and the request's own
      clock is less than a lifetime ahead. Otherwise the key is free to commit again. */
  lemma AnsweredAgainExactly(w: World, req: Request, key: string)
    requires w.batch.None? && IdempotencyKey(w.program, req) == Some(key) && StageRequest(w, req).Staged?
    requires var stage := StageRequest(w, req);
             StartsNoSaga(w.program, ContextOf(stage.world, stage.post))
    ensures var stage := StageRequest(w, req);
            Cached(Execute(w, req).0, key, req).Some? <==>
              && PostSucceeds(w.program, ContextOf(stage.world, stage.post))
              && Remembered(req, stage.result.response) && SeesFreshEntries(w.program, req)
  {
    hide StageRequest, RunSagas, Lifetime, Remembered, IdempotencyKey, FollowUp, Execute, ContextOf, StartsNoSaga,
         PostSucceeds;
    StoredExactly(w, req, key);
    StagedUnanswered(w, req);
    StageFrame(w, req);
    var stage := StageRequest(w, req);
    IdleFollowUp(stage.world, stage.post);
    ExecuteAdvances(w, req);
    NoBatchNoPending(w, key);
    NoBatchNoPending(Execute(w, req).0, key);
  }

  lemma NoBatchNoPending(w: World, key: string)
    requires w.batch.None?
    ensures PendingIn(w, key).None?
  {}

  /** An event replay answered with a non-success status commits and stores nothing of its own,
      whatever its sagas do. */
  lemma UnsuccessfulReplayForgets(w: World, req: Request, key: string)
    requires w.batch.None? && IdempotencyKey(w.program, req) == Some(key) && StageRequest(w, req).Staged?
    requires req.command.intent == Query && !Successful(StageRequest(w, req).post.response)
    ensures var stage := StageRequest(w, req);
            Execute(w, req).0.entries == FollowUp(stage.world, stage.post).0.entries
    ensures |w.log| < |Execute(w, req).0.log| && w.log <= Execute(w, req).0.log
  {
    hide FollowUp, StageRequest, Execute, IdempotencyKey;
    StoredExactly(w, req, key);
    StagedUnanswered(w, req);
    StagedResponse(w, req);
  }

  lemma StagedResponse(w: World, req: Request)
    requires StageRequest(w, req).Staged?
    ensures StageRequest(w, req).post.response == StageRequest(w, req).result.response
  {
    hide Transact, Reissue, CheckFingerprint, Cached, Find, FindEvent, AnswerQuery, Committed;
  }

  /** A post-commit failure, a saga's included, does not undo a mutation: the caller gets the error,
      the commit stays in the log, and no entry of its own is stored. */
  lemma FailedPostCommitForgets(w: World, req: Request, key: string)
    requires w.batch.None? && IdempotencyKey(w.program, req) == Some(key) && StageRequest(w, req).Staged?
    requires FollowUp(StageRequest(w, req).world, StageRequest(w, req).post).1.Err?
    ensures var stage := StageRequest(w, req);
            && Execute(w, req).0.entries == FollowUp(stage.world, stage.post).0.entries
            && stage.world.log <= Execute(w, req).0.log && w.log <= stage.world.log
            && Execute(w, req).1.Err?
  {
    hide FollowUp, StageRequest, Execute, IdempotencyKey;
    StoredExactly(w, req, key);
  }

  // ------------------------------------------------------------- batches

  ghost predicate PostsEarly(w: World, p: Promise) {
    forall post <- Deferred(w) :: Early(w, post.request, p)
  }

  ghost predicate AllEarly(w: World, requests: seq<Request>, p: Promise) {
    forall req <- requests :: Early(w, req, p)
  }

  lemma ItemPostsEarly(w: World, req: Request, p: Promise)
    requires PostsEarly(w, p) && Early(w, req, p)
    ensures PostsEarly(Execute(w, req).0, p)
  {
    hide StageRequest, FollowUp;
    ExecuteAdvances(w, req);
    StageFrame(w, req);
    if StageRequest(w, req).Staged? { StagedUnanswered(w, req); }
  }

  lemma RestEarly(w: World, w1: World, requests: seq<Request>, p: Promise)
    requires requests != [] && AllEarly(w, requests, p) && w1.clock == w.clock
    ensures Early(w, requests[0], p) && AllEarly(w1, requests[1..], p)
  {
    forall req <- requests[1..] ensures Early(w1, req, p) { assert req in requests; }
  }

  lemma {:induction false} ItemsKeepPromise(w: World, requests: seq<Request>, p: Promise)
    requires Holds(w, p) && PostsEarly(w, p) && AllEarly(w, requests, p)
    ensures var w' := RunItems(w, requests).0; Advances(w, w') && Holds(w', p) && PostsEarly(w', p)
    decreases |requests|
  {
    hide Execute, Holds;
    if requests != [] {
      var w1 := Execute(w, requests[0]).0;
      ExecuteAdvances(w, requests[0]);
      ExecuteKeepsPromise(w, requests[0], p);
      ItemPostsEarly(w, requests[0], p);
      RestEarly(w, w1, requests, p);
      ItemsKeepPromise(w1, requests[1..], p);
    }
  }

  lemma {:induction false} PostsKeepPromise(w: World, posts: seq<PostCommit>, p: Promise)
    requires Holds(w, p) && forall post <- posts :: Early(w, post.request, p)
    ensures var w' := RunPosts(w, posts).0; Advances(w, w') && Holds(w', p)
    decreases |posts|
  {
    hide FollowUp, Holds;
    if posts != [] {
      var w1 := FollowUp(w, posts[0]).0;
      FollowUpAdvances(w, posts[0]);
      FollowUpKeepsPromise(w, posts[0], p);
      PostsKeepPromise(w1, posts[1..], p);
    }
  }

  /** Closing a batch turns its pending answers into stored ones. */
  lemma FlushKeepsPromise(w: World, p: Promise)
    requires w.batch.Some? && Holds(w, p)
    ensures Holds(FlushKeys(Close(w), w.batch.value.idempotency), p)
  {
    hide Lifetime;
  }

  lemma RestoreKeepsPromise(w: World, s: Snapshot, p: Promise)
    requires Holds(w, p)
    ensures Holds(Restore(w, s), p)
  {
    hide ClaimAll;
    SameAnswers(w, Restore(w, s), p);
  }

  /** The items ran and the batch goes on: promises of the open batch become promises of the engine. */
  lemma SettledBatchKeeps(w: World, requests: seq<Request>, ran: World, p: Promise)
    requires w.batch.None? && w.program.admitBatch(requests).Ok?
    requires RunItems(Begun(w), requests).0 == ran && RunItems(Begun(w), requests).1.Ok?
    requires Advances(Begun(w), ran) && Holds(ran, p) && PostsEarly(ran, p)
    ensures var w' := ExecuteTransactional(w, requests).0;
            w'.program == w.program && w'.clock == w.clock && w'.batch.None? && Holds(w', p)
  {
    hide RunItems, RunPosts, Holds, FlushKeys, Restore;
    var flushed := FlushKeys(Close(ran), ran.batch.value.idempotency);
    FlushFrame(ran);
    FlushKeepsPromise(ran, p);
    PostsKeepPromise(flushed, ran.batch.value.postCommits, p);
    var followed := RunPosts(flushed, ran.batch.value.postCommits).0;
    RestoreKeepsPromise(followed, Capture(w), p);
    RestoreKeepsEntries(followed, Capture(w));
  }

  lemma FlushFrame(w: World)
    requires w.batch.Some?
    ensures var w' := FlushKeys(Close(w), w.batch.value.idempotency);
            w'.program == w.program && w'.clock == w.clock && w'.batch.None?
  {}

  lemma RestoreKeepsEntries(w: World, s: Snapshot)
    ensures var w' := Restore(w, s);
            && w'.program == w.program && w'.clock == w.clock && w'.batch == w.batch && w'.entries == w.entries
  {}

  lemma BegunKeeps(w: World, p: Promise)
    requires w.batch.None? && Holds(w, p)
    ensures Holds(Begun(w), p) && PostsEarly(Begun(w), p)
  {
    hide Lifetime;
  }

  /** A batch in either mode, however it ends, keeps the promises made before it. */
  lemma BatchKeepsPromise(w: World, requests: seq<Request>, transactional: bool, p: Promise)
    requires w.batch.None? && Holds(w, p) && AllEarly(w, requests, p)
    ensures var w' := ExecuteBatch(w, requests, transactional).0;
            w'.program == w.program && w'.clock == w.clock && w'.batch.None? && Holds(w', p)
  {
    hide RunItems, RunPosts, Holds, Restore, FlushKeys;
    ItemsKeepPromise(w, requests, p);
    if transactional {
      BegunKeeps(w, p);
      ItemsKeepPromise(Begun(w), requests, p);
      var (ran, results) := RunItems(Begun(w), requests);
      RestoreKeepsPromise(w, Capture(w), p);
      RestoreKeepsEntries(w, Capture(w));
      if w.program.admitBatch(requests).Ok? {
        if results.Ok? {
          SettledBatchKeeps(w, requests, ran, p);
        } else {
          ItemsOutside(Begun(w), requests);
          ClosedKeeps(w, Close(ran), p);
          RestoreKeepsPromise(Close(ran), Capture(w), p);
          RestoreKeepsEntries(Close(ran), Capture(w));
        }
      }
    }
  }

  lemma ClosedKeeps(w: World, w': World, p: Promise)
    requires Holds(w, p) && w.batch.None? && w'.batch.None?
    requires w'.entries == w.entries && w'.program == w.program && w'.clock == w.clock
    ensures Holds(w', p)
  {
    SameAnswers(w, w', p);
  }

  /** A batch whose deferred post-commit work fails restores log, states and projections, but its
      idempotency entries were already written: a retry is answered from commits that are gone. */
  lemma RolledBackBatchKeepsKeys(w: World, requests: seq<Request>, key: string)
    requires w.batch.None? && w.program.admitBatch(requests).Ok?
    requires var (ran, results) := RunItems(Begun(w), requests);
             && results.Ok? && ran.batch.Some? && key in ran.batch.value.idempotency
             && RunPosts(FlushKeys(Close(ran), ran.batch.value.idempotency), ran.batch.value.postCommits).1.Err?
    ensures var after := ExecuteTransactional(w, requests).0;
            && after.log == w.log && after.states == w.states && after.projections == w.projections
            && key in after.entries
  {
    hide RunItems, RunPosts, FlushKeys, ClaimAll, Lifetime, TtlSeconds;
    var ran := RunItems(Begun(w), requests).0;
    var own := ran.clock + Lifetime(ran.batch.value.idempotency[key].ttlSeconds);
    var limit := ran.clock + Lifetime(TtlSeconds(ran.program));
    var p := Promise(key, if own < limit then own else limit, None);
    assert Holds(ran, p);
    FlushKeepsPromise(ran, p);
    var flushed := FlushKeys(Close(ran), ran.batch.value.idempotency);
    PostsKeepPromise(flushed, ran.batch.value.postCommits, p);
    FlushFrame(ran);
  }

  // ------------------------------------------------------------- runs

  datatype Moment =
    | Asked(request: Request)
    | Batched(requests: seq<Request>, transactional: bool)
    | Restored(snapshot: Snapshot)
    | Waited(milliseconds: nat)

  function After(w: World, step: Moment): World {
    match step
    case Asked(request) => Execute(w, request).0
    case Batched(requests, transactional) => ExecuteBatch(w, requests, transactional).0
    case Restored(snapshot) => Restore(w, snapshot)
    case Waited(milliseconds) => w.(clock := w.clock + milliseconds)
  }

  /** Requests, batches, restored snapshots and waits under one program, starting between requests. */
  ghost predicate KeyedRun(worlds: seq<World>, steps: seq<Moment>) {
    && |worlds| == |steps| + 1
    && worlds[0].batch.None?
    && forall i :: 0 <= i < |steps| ==> worlds[i + 1] == After(worlds[i], steps[i])
  }

  /** A request and the state it was executed in. */
  datatype Occasion = Occasion(world: World, request: Request)

  /** The items of a batch that are executed: all up to the first that throws. */
  function ItemOccasions(w: World, requests: seq<Request>): seq<Occasion>
    decreases |requests|
  {
    if requests == [] then []
    else
      var (w1, outcome) := Execute(w, requests[0]);
      [Occasion(w, requests[0])] + if outcome.Ok? then ItemOccasions(w1, requests[1..]) else []
  }

  function BatchStart(w: World, transactional: bool): World {
    if transactional then Begun(w) else w
  }

  /** The requests a step executes, in order. */
  function Occasions(w: World, step: Moment): seq<Occasion> {
    match step
    case Asked(request) => [Occasion(w, request)]
    case Batched(requests, transactional) =>
      if w.program.admitBatch(requests).Err? then [] else ItemOccasions(BatchStart(w, transactional), requests)
    case _ => []
  }

  predicate Transactional(step: Moment) {
    step.Batched? && step.transactional
  }

  /** Step i executes at least a + 1 requests. */
  predicate Happens(worlds: seq<World>, steps: seq<Moment>, i: nat, a: nat) {
    i < |steps| < |worlds| && a < |Occasions(worlds[i], steps[i])|
  }

  function At(worlds: seq<World>, steps: seq<Moment>, i: nat, a: nat): Occasion
    requires Happens(worlds, steps, i, a)
  {
    Occasions(worlds[i], steps[i])[a]
  }

  predicate Under(o: Occasion, key: string) {
    IdempotencyKey(o.world.program, o.request) == Some(key)
  }

  /** The request commits, and it is not an unsuccessful replay. */
  ghost predicate Succeeds(o: Occasion) {
    Commits(o.world, o.request) && Remembered(o.request, Execute(o.world, o.request).1.value.response)
  }

  /** What a step commits stands: a transactional batch does not fail. */
  ghost predicate Stands(w: World, step: Moment) {
    Transactional(step) ==> ExecuteBatch(w, step.requests, true).1.Ok?
  }

  function Promised(o: Occasion, key: string, result: Option<Execution>): Promise {
    Promise(key, o.world.clock + Lifetime(TtlSeconds(o.world.program)), result)
  }

  ghost predicate StepEarly(w: World, step: Moment, p: Promise) {
    match step
    case Asked(request) => Early(w, request, p)
    case Batched(requests, _) => AllEarly(w, requests, p)
    case _ => true
  }

  /** Every item executed before or at a place leaves the rest of the batch to run from there. */
  lemma {:induction false} OccasionsFrom(w: World, requests: seq<Request>, a: nat, p: Promise)
    requires a < |ItemOccasions(w, requests)| && PostsEarly(w, p) && AllEarly(w, requests, p)
    ensures var o := ItemOccasions(w, requests)[a];
            && a < |requests| && o.request == requests[a] && Advances(w, o.world)
            && PostsEarly(Execute(o.world, o.request).0, p)
            && (Execute(o.world, o.request).1.Ok? ==>
                  && RunItems(w, requests).0 == RunItems(Execute(o.world, o.request).0, requests[a + 1..]).0
                  && ItemOccasions(w, requests)[a + 1..]
                       == ItemOccasions(Execute(o.world, o.request).0, requests[a + 1..]))
    decreases |requests|
  {
    hide Execute;
    var w1 := Execute(w, requests[0]).0;
    ExecuteAdvances(w, requests[0]);
    ItemPostsEarly(w, requests[0], p);
    if a > 0 {
      RestEarly(w, w1, requests, p);
      OccasionsFrom(w1, requests[1..], a - 1, p);
      assert requests[1..][a..] == requests[a + 1..];
      assert ItemOccasions(w, requests)[a + 1..] == ItemOccasions(w1, requests[1..])[a..];
    }
  }

  /** A promise held when the items begin is held at each of them. */
  lemma {:induction false} OccasionsHold(w: World, requests: seq<Request>, b: nat, p: Promise)
    requires b < |ItemOccasions(w, requests)| && Holds(w, p) && AllEarly(w, requests, p)
    ensures var o := ItemOccasions(w, requests)[b];
            o.world.clock == w.clock && Holds(o.world, p) && Early(w, o.request, p)
    decreases |requests|
  {
    hide Execute, Holds;
    if b > 0 {
      ExecuteAdvances(w, requests[0]);
      ExecuteKeepsPromise(w, requests[0], p);
      RestEarly(w, Execute(w, requests[0]).0, requests, p);
      OccasionsHold(Execute(w, requests[0]).0, requests[1..], b - 1, p);
    }
  }

  /** After the step of a standing commit its promise holds. */
  lemma CommitOutlastsStep(w: World, step: Moment, a: nat, key: string, p: Promise)
    requires w.batch.None? && a < |Occasions(w, step)| && Stands(w, step)
    requires var o := Occasions(w, step)[a];
             Under(o, key) && Succeeds(o) && Holds(Execute(o.world, o.request).0, p)
    requires step.Batched? ==> AllEarly(w, step.requests, p)
    ensures var w' := After(w, step);
            w'.program == w.program && w'.clock == w.clock && w'.batch.None? && Holds(w', p)
  {
    hide Execute, Holds, ExecuteBatch, ItemOccasions;
    match step
    case Asked(request) => ExecuteAdvances(w, request);
    case Batched(requests, transactional) => CommitOutlastsBatch(w, requests, transactional, a, p);
  }

  lemma CommitOutlastsBatch(w: World, requests: seq<Request>, transactional: bool, a: nat, p: Promise)
    requires w.batch.None? && w.program.admitBatch(requests).Ok? && AllEarly(w, requests, p)
    requires transactional ==> ExecuteBatch(w, requests, true).1.Ok?
    requires var items := ItemOccasions(BatchStart(w, transactional), requests);
             && a < |items| && Execute(items[a].world, items[a].request).1.Ok?
             && Holds(Execute(items[a].world, items[a].request).0, p)
    ensures var w' := ExecuteBatch(w, requests, transactional).0;
            w'.program == w.program && w'.clock == w.clock && w'.batch.None? && Holds(w', p)
  {
    hide Execute, Holds, RunItems, ItemOccasions, ExecuteTransactional;
    var begun := BatchStart(w, transactional);
    OccasionsFrom(begun, requests, a, p);
    var o := ItemOccasions(begun, requests)[a];
    ExecuteAdvances(o.world, o.request);
    var u := Execute(o.world, o.request).0;
    LaterEarly(w, u, requests, a + 1, p);
    ItemsKeepPromise(u, requests[a + 1..], p);
    if transactional {
      StandingItems(w, requests);
      SettledBatchKeeps(w, requests, RunItems(begun, requests).0, p);
    }
  }

  lemma StandingItems(w: World, requests: seq<Request>)
    requires w.program.admitBatch(requests).Ok? && ExecuteTransactional(w, requests).1.Ok?
    ensures RunItems(Begun(w), requests).1.Ok?
  {
    hide RunItems, RunPosts;
  }

  lemma LaterEarly(w: World, u: World, requests: seq<Request>, from: nat, p: Promise)
    requires AllEarly(w, requests, p) && u.clock == w.clock && from <= |requests|
    ensures AllEarly(u, requests[from..], p)
  {
    forall req <- requests[from..] ensures Early(u, req, p) { assert req in requests; }
  }

  /** A promise that holds before a step holds after it. */
  lemma StepKeepsPromise(w: World, step: Moment, p: Promise)
    requires w.batch.None? && Holds(w, p) && StepEarly(w, step, p)
    ensures var w' := After(w, step); w'.program == w.program && w'.batch.None? && Holds(w', p)
  {
    hide Execute, ExecuteBatch, Restore, Holds;
    match step
    case Asked(request) =>
      ExecuteAdvances(w, request);
      ExecuteKeepsPromise(w, request, p);
    case Batched(requests, transactional) => BatchKeepsPromise(w, requests, transactional, p);
    case Restored(snapshot) =>
      RestoreKeepsEntries(w, snapshot);
      RestoreKeepsPromise(w, snapshot, p);
    case Waited(milliseconds) => WaitKeepsPromise(w, milliseconds, p);
  }

  lemma WaitKeepsPromise(w: World, milliseconds: nat, p: Promise)
    requires Holds(w, p)
    ensures Holds(w.(clock := w.clock + milliseconds), p)
  {
    hide Lifetime;
  }

  lemma {:induction false} RunKeepsPromise(worlds: seq<World>, steps: seq<Moment>, i: nat, j: nat, p: Promise)
    requires KeyedRun(worlds, steps) && i <= j < |worlds| && worlds[i].batch.None? && Holds(worlds[i], p)
    requires forall k :: i <= k < j ==> StepEarly(worlds[k], steps[k], p)
    ensures worlds[j].batch.None? && Holds(worlds[j], p)
    decreases j
  {
    hide After, Holds, StepEarly;
    if i < j {
      RunKeepsPromise(worlds, steps, i, j - 1, p);
      assert worlds[j - 1 + 1] == After(worlds[j - 1], steps[j - 1]);
      StepKeepsPromise(worlds[j - 1], steps[j - 1], p);
    }
  }

  lemma StepFrame(w: World, step: Moment)
    requires w.batch.None?
    ensures After(w, step).program == w.program && After(w, step).batch.None?
  {
    hide Execute, RunItems, RunPosts, ClaimAll, FlushKeys, Graph, WellFormed, PendingPrints, PendingEntries;
    match step
    case Asked(request) => ExecuteAdvances(w, request);
    case Batched(requests, transactional) =>
      RunItemsKeeps(w, requests);
      RunItemsKeeps(Begun(w), requests);
      var ran := RunItems(Begun(w), requests).0;
      FlushFrame(ran);
      RunPostsKeeps(FlushKeys(Close(ran), ran.batch.value.idempotency), ran.batch.value.postCommits);
    case _ =>
  }

  lemma {:induction false} RunFrame(worlds: seq<World>, steps: seq<Moment>, i: nat)
    requires KeyedRun(worlds, steps) && i < |worlds|
    ensures worlds[i].batch.None? && worlds[i].program == worlds[0].program
  {
    hide After;
    if i > 0 {
      RunFrame(worlds, steps, i - 1);
      assert worlds[i - 1 + 1] == After(worlds[i - 1], steps[i - 1]);
      StepFrame(worlds[i - 1], steps[i - 1]);
    }
  }

  predicate Before(i: nat, a: nat, j: nat, b: nat) {
    i < j || (i == j && a < b)
  }

  /** No request from a commit's step on, up to another step, observes the end of a promise. */
  ghost predicate AllEarlyBetween(worlds: seq<World>, steps: seq<Moment>, i: nat, j: nat, p: Promise)
    requires i <= j < |steps| < |worlds|
  {
    && (steps[i].Batched? ==> StepEarly(worlds[i], steps[i], p))
    && forall k :: i < k <= j ==> StepEarly(worlds[k], steps[k], p)
  }

  /** What a standing commit promises is held by every later request of the run. */
  lemma PromiseReaches(worlds: seq<World>, steps: seq<Moment>, i: nat, a: nat, j: nat, b: nat, key: string, p: Promise)
    requires KeyedRun(worlds, steps) && Happens(worlds, steps, i, a) && Happens(worlds, steps, j, b)
             && Before(i, a, j, b)
    requires var first := At(worlds, steps, i, a);
             Under(first, key) && Succeeds(first) && Holds(Execute(first.world, first.request).0, p)
    requires Stands(worlds[i], steps[i]) && AllEarlyBetween(worlds, steps, i, j, p)
    ensures var later := At(worlds, steps, j, b);
            Holds(later.world, p) && Early(later.world, later.request, p)
  {
    hide Execute, Holds, Under, ItemOccasions, Stands;
    RunFrame(worlds, steps, i);
    if i == j {
      SameStepHolds(worlds[i], steps[i], a, b, p);
    } else {
      assert worlds[i + 1] == After(worlds[i], steps[i]);
      CommitOutlastsStep(worlds[i], steps[i], a, key, p);
      RunKeepsPromise(worlds, steps, i + 1, j, p);
      StepHolds(worlds[j], steps[j], b, p);
    }
  }

  lemma StepHolds(w: World, step: Moment, b: nat, p: Promise)
    requires w.batch.None? && b < |Occasions(w, step)| && Holds(w, p) && StepEarly(w, step, p)
    ensures var later := Occasions(w, step)[b]; Holds(later.world, p) && Early(later.world, later.request, p)
  {
    hide Execute, Holds, ItemOccasions;
    if step.Batched? {
      BegunKeeps(w, p);
      OccasionsHold(BatchStart(w, step.transactional), step.requests, b, p);
    }
  }

  lemma SameStepHolds(w: World, step: Moment, a: nat, b: nat, p: Promise)
    requires w.batch.None? && a < b < |Occasions(w, step)| && (step.Batched? ==> AllEarly(w, step.requests, p))
    requires var first := Occasions(w, step)[a];
             Execute(first.world, first.request).1.Ok? && Holds(Execute(first.world, first.request).0, p)
    ensures var later := Occasions(w, step)[b]; Holds(later.world, p) && Early(later.world, later.request, p)
  {
    hide Execute, Holds, ItemOccasions;
    var begun := BatchStart(w, step.transactional);
    OccasionsFrom(begun, step.requests, a, p);
    var first := ItemOccasions(begun, step.requests)[a];
    ExecuteAdvances(first.world, first.request);
    var u := Execute(first.world, first.request).0;
    LaterEarly(w, u, step.requests, a + 1, p);
    OccasionsHold(u, step.requests[a + 1..], b - a - 1, p);
  }

  /** At most once: once a request of a run has committed under a key, items of batches included, a
      later one under it that changes anything at all, whether or not it then throws, observed a time
      at or past the end of the first one's lifetime. */
  lemma AtMostOnce(worlds: seq<World>, steps: seq<Moment>, i: nat, a: nat, j: nat, b: nat, key: string)
    requires KeyedRun(worlds, steps) && Happens(worlds, steps, i, a) && Happens(worlds, steps, j, b)
             && Before(i, a, j, b)
    requires var first, later := At(worlds, steps, i, a), At(worlds, steps, j, b);
             && Under(first, key) && Succeeds(first) && Stands(worlds[i], steps[i])
             && Under(later, key) && Execute(later.world, later.request).0 != later.world
    ensures var first, later := At(worlds, steps, i, a), At(worlds, steps, j, b);
            ObservedTime(later.world, later.request)
              >= first.world.clock + Lifetime(TtlSeconds(first.world.program))
  {
    hide Execute, Holds, Occasions, Stands, Lifetime;
    var first, later := At(worlds, steps, i, a), At(worlds, steps, j, b);
    CommitPromises(first.world, first.request, key);
    var p := Promised(first, key, None);
    AnyResult(Execute(first.world, first.request).0,
              Promised(first, key, Some(Execute(first.world, first.request).1.value)));
    PromiseReaches(worlds, steps, i, a, j, b, key, p);
    if ObservedTime(later.world, later.request) < p.until {
      HeldIsAnswered(later.world, later.request, p);
      LiveKeyChangesNothing(later.world, later.request, key);
    }
  }

  lemma AnyResult(w: World, p: Promise)
    requires Holds(w, p)
    ensures Holds(w, p.(result := None))
  {}

  /** A request that changes nothing, commits nothing and, once admitted, is answered with a given
      result, marked uncommitted, unless its fingerprint conflicts. */
  ghost predicate Answers(later: Occasion, result: Execution) {
    var (w, req) := (later.world, later.request);
    var (after, outcome) := Execute(w, req);
    && after == w && (outcome.Ok? ==> !outcome.value.committed)
    && (w.ready && Find(w.program, req.command.boundary).Some?
        && w.program.admit(req, CurrentState(req, w.states)).Proceed? ==>
          outcome == Ok(result.(committed := false)) || outcome == Err(KEY_CONFLICT))
  }

  /** Until then: as long as no request observes that end, every later request under the key only
      reads the first one's own result. */
  lemma LaterRequestsReadTheFirst(worlds: seq<World>, steps: seq<Moment>, i: nat, a: nat, j: nat, b: nat, key: string)
    requires KeyedRun(worlds, steps) && Happens(worlds, steps, i, a) && Happens(worlds, steps, j, b)
             && Before(i, a, j, b)
    requires var first, later := At(worlds, steps, i, a), At(worlds, steps, j, b);
             && Under(first, key) && Succeeds(first) && Stands(worlds[i], steps[i]) && Under(later, key)
             && AllEarlyBetween(worlds, steps, i, j,
                                Promised(first, key, Some(Execute(first.world, first.request).1.value)))
    ensures var first, later := At(worlds, steps, i, a), At(worlds, steps, j, b);
            Answers(later, Execute(first.world, first.request).1.value)
  {
    hide Execute, Holds, Occasions, Stands, Lifetime, Find, Cached;
    var first, later := At(worlds, steps, i, a), At(worlds, steps, j, b);
    CommitPromises(first.world, first.request, key);
    var p := Promised(first, key, Some(Execute(first.world, first.request).1.value));
    PromiseReaches(worlds, steps, i, a, j, b, key, p);
    HeldIsAnswered(later.world, later.request, p);
    LiveKeyChangesNothing(later.world, later.request, key);
  }

  // ------------------------------------------------------------- one key, two commits

  const UNDELIVERED := RuntimeError(502, "webhook failed")

  /** A program that presents replays with a given status, and whose webhooks may throw. */
  function ReplayProgram(status: int, delivers: bool): Program {
    Accepting(SeededBoundary(BASELINE, [])).(
      idempotency := Some(Domain.Idempotency(true, 60, false)),
      present := (req: Request, state: Option<Object>) => Ok(Response(status, Null)),
      webhooks := (commit: CommitContext) => if delivers then Ok(()) else Err(UNDELIVERED))
  }

  function Again(): Request {
    ReplaySeed(BASELINE, Some("h"))
  }

  /** Such a world replays and commits, and is such a world again. */
  ghost predicate Replays(w: World, status: int, delivers: bool) {
    && w.program == ReplayProgram(status, delivers) && w.ready && w.batch.None?
    && w.entries == map[] && w.fingerprints == map[]
    && w.log != [] && w.log[0] == SeededEvent(BASELINE) && ExactVersions(w.log)
  }

  /** Reissuing the seeded event works at every such moment and continues its versions. */
  lemma SeedReissues(w: World, status: int, delivers: bool)
    requires Replays(w, status, delivers)
    ensures var b := w.program.boundaries[0];
            var reissued := Reissue(w, b, SeededEvent(BASELINE), ReplayRequest(Again(), b, SeededEvent(BASELINE)));
            && reissued.Ok? && reissued.value.2 == Response(status, Null)
            && ExactVersions(w.log + [reissued.value.0])
  {
    hide CurrentVersion, ExactVersions, NextVersion;
    var b := w.program.boundaries[0];
    var replay := ReplayRequest(Again(), b, SeededEvent(BASELINE));
    assert w.log + [] == w.log;
    NextVersionContinues(w.log, [], "x");
    ExactAppendOne(w.log, Reissue(w, b, SeededEvent(BASELINE), replay).value.0);
  }

  lemma SeedStages(w: World, status: int, delivers: bool)
    requires Replays(w, status, delivers)
    ensures var stage := StageRequest(w, Again());
            && stage.Staged? && stage.result.committed && stage.post.request.effects == Again().effects
            && stage.key.None? == !Successful(Response(status, Null))
            && stage.world.(log := w.log, states := w.states, owners := w.owners) == w
            && w.log <= stage.world.log && |w.log| < |stage.world.log| && ExactVersions(stage.world.log)
  {
    hide ExactVersions, ClaimAll, Reissue, ReplayRequest, Successful;
    SeedReissues(w, status, delivers);
    if StageRequest(w, Again()).Staged? { StagedKeepsEffects(w, Again()); }
  }

  /** The replay's event is logged and no entry stored, if the status or the webhooks are at fault. */
  lemma ReplayLogs(w: World, status: int, delivers: bool)
    requires Replays(w, status, delivers) && (!Successful(Response(status, Null)) || !delivers)
    ensures var (w', outcome) := Execute(w, Again());
            && Replays(w', status, delivers) && w.log < w'.log && w'.clock == w.clock
            && (delivers ==> Commits(w, Again()))
  {
    hide StageRequest, ExactVersions, Successful;
    SeedStages(w, status, delivers);
  }

  /** One key, one program, no time in between: the same request is committed to the log twice. With
      webhooks that throw the caller is told of a failure both times, otherwise of a commit. */
  lemma SameKeyCommitsTwice(status: int, delivers: bool)
    requires !Successful(Response(status, Null)) || !delivers
    ensures var w0 := Boot(ReplayProgram(status, delivers));
            var w1 := Execute(w0, Again()).0;
            var w2 := Execute(w1, Again()).0;
            && IdempotencyKey(w0.program, Again()).Some? && w1.program == w0.program && w1.clock == w0.clock
            && w0.log < w1.log < w2.log && w2.entries == map[]
            && (delivers ==> Commits(w0, Again()) && Commits(w1, Again()))
  {
    hide Execute, Commits;
    SeedsReplay(status, delivers);
    var w0 := Boot(ReplayProgram(status, delivers));
    ReplayLogs(w0, status, delivers);
    ReplayLogs(Execute(w0, Again()).0, status, delivers);
  }

  lemma SeedsReplay(status: int, delivers: bool)
    ensures Replays(Boot(ReplayProgram(status, delivers)), status, delivers)
  {}
}
