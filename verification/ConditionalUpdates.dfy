// Optimistic concurrency: a command that names an expected version commits only at that version
// (src/core/engine.ts: executeMutation; If-Match, section 13.1.1 of RFC 9110).
module ConditionalUpdates {
  import opened Batches
  import opened Domain
  import opened EventSourcing
  import opened GraphInvariant
  import opened Idempotency
  import opened Runtime
  import opened Wrappers

  /** A non-query request aimed at an aggregate, expecting it to be at a version. */
  ghost predicate Expects(req: Request, id: Id, version: int) {
    req.command.intent != Query && req.command.target == Some(id) && req.command.version == Some(version)
  }

  lemma StagedIsMutation(w: World, req: Request)
    requires req.command.intent != Query && StageRequest(w, req).Staged?
    ensures exists b: Boundary, w1: World, key: Option<string> ::
              && w1.log == w.log && w1.states == w.states && w1.program == w.program
              && StageRequest(w, req) == StageMutation(w1, b, req, key)
  {
    hide StageMutation, Find, CheckFingerprint, Cached;
    var b := Find(w.program, req.command.boundary).value;
    var key := IdempotencyKey(w.program, req);
    if key.Some? {
      var checked := CheckFingerprint(w, key.value, req).value;
      CheckOutside(w, key.value, req);
      assert StageRequest(w, req) == StageMutation(checked, b, req, key);
    } else {
      assert StageRequest(w, req) == StageMutation(w, b, req, None);
    }
  }

  /** Whatever is committed under an expected version, even if its post-commit work then throws, found
      the aggregate at exactly that version; its events follow the log and stay. */
  lemma CommitsOnlyAtExpectedVersion(w: World, req: Request, id: Id, version: int)
    requires Expects(req, id, version) && StageRequest(w, req).Staged?
    ensures CurrentVersion(w.log, id) == version
    ensures StageRequest(w, req).world.log == w.log + StageRequest(w, req).post.events
    ensures w.log + StageRequest(w, req).post.events <= Execute(w, req).0.log
  {
    hide Execute, StageRequest, CurrentVersion, ClaimAll;
    StagedIsMutation(w, req);
    var b: Boundary, w1: World, key: Option<string> :|
      && w1.log == w.log && w1.states == w.states && w1.program == w.program
      && StageRequest(w, req) == StageMutation(w1, b, req, key);
    StagedLogStays(w, req);
  }

  /** Anywhere else the request commits nothing and the log stays as it is. */
  lemma RefusedElsewhere(w: World, req: Request, id: Id, version: int)
    requires Expects(req, id, version) && CurrentVersion(w.log, id) != version
    ensures !StageRequest(w, req).Staged? && !Commits(w, req) && Execute(w, req).0.log == w.log
  {
    hide StageRequest, CurrentVersion, FollowUp;
    if StageRequest(w, req).Staged? { CommitsOnlyAtExpectedVersion(w, req, id, version); }
    if Commits(w, req) { CommitIsStaged(w, req); }
    SettledLog(w, req);
  }

  lemma SettledLog(w: World, req: Request)
    ensures StageRequest(w, req).Settled? ==> StageRequest(w, req).world.log == w.log
  {
    hide Transact, Reissue, Cached, Unexpired, PendingIn, Find, FindEvent, AnswerQuery, ResolveIdentity, ReplayRequest,
         ClaimAll;
  }

  lemma StagedLogStays(w: World, req: Request)
    requires StageRequest(w, req).Staged?
    ensures StageRequest(w, req).world.log <= Execute(w, req).0.log
  {
    hide FollowUp, StageRequest, Keeps, Graph, WellFormed, Conclude, Defer;
    var stage := StageRequest(w, req);
    FollowUpKeeps(stage.world, stage.post);
    SameGraphKeeps(stage.world, Defer(stage.world, stage.post)) by { DeferSameGraph(stage.world, stage.post); }
    var after := if stage.world.batch.Some? then (Defer(stage.world, stage.post), Ok(()))
                 else FollowUp(stage.world, stage.post);
    ConcludeKeeps(stage.world, after, stage, req);
    KeepsLog(stage.world, Conclude(after, stage, req).0);
  }

  lemma DeferSameGraph(w: World, post: PostCommit)
    ensures Advances(w, Defer(w, post)) && SameGraph(w, Defer(w, post))
  {}

  lemma KeepsLog(w: World, w': World)
    requires Keeps(w, w')
    ensures w.log <= w'.log
  {
    hide Graph, WellFormed;
  }

  lemma EventRaisesVersion(log: seq<Event>, events: seq<Event>, later: seq<Event>, id: Id)
    requires ExactVersions(later) && log + events <= later
    requires exists i :: 0 <= i < |events| && events[i].aggregate == id
    ensures CurrentVersion(later, id) > CurrentVersion(log, id)
  {
    var rest := later[|log + events|..];
    assert later == log + (events + rest);
    ExactPrefix(log, events + rest);
    CurrentVersionIsCount(later, id);
    CurrentVersionIsCount(log, id);
    EventsOfAppend(log, events + rest, id);
    EventsOfAppend(events, rest, id);
    SomeEventOf(events, id);
  }

  lemma {:induction false} SomeEventOf(events: seq<Event>, id: Id)
    requires exists i :: 0 <= i < |events| && events[i].aggregate == id
    ensures EventsOf(events, id) != []
    decreases |events|
  {
    var init, last := events[..|events| - 1], events[|events| - 1];
    if last.aggregate != id {
      var i :| 0 <= i < |events| && events[i].aggregate == id;
      assert init[i].aggregate == id;
      SomeEventOf(init, id);
    }
  }

  /** Of two requests expecting one version of one aggregate, the first of which commits an event on
      it, whether or not it then throws, the second commits and logs nothing, at any later moment that
      still has the first one's log. */
  lemma SameExpectationCommitsOnce(w: World, first: Request, later: World, second: Request, id: Id, version: int)
    requires Expects(first, id, version) && Expects(second, id, version)
    requires StageRequest(w, first).Staged? && exists e <- StageRequest(w, first).post.events :: e.aggregate == id
    requires Execute(w, first).0.log <= later.log && ExactVersions(later.log)
    ensures !StageRequest(later, second).Staged? && !Commits(later, second)
    ensures Execute(later, second).0.log == later.log
  {
    hide Execute, StageRequest, CurrentVersion, ExactVersions, Commits;
    CommitsOnlyAtExpectedVersion(w, first, id, version);
    EventRaisesVersion(w.log, StageRequest(w, first).post.events, later.log, id);
    RefusedElsewhere(later, second, id, version);
  }
}
