// The invariant every request keeps: the state graph is the fold of the log, versions are exact,
// every event is recognized and the ownership index names each aggregate's first boundary.
module GraphInvariant {
  import opened Domain
  import opened EventSourcing
  import opened Projections
  import opened Reduction
  import opened Runtime
  import opened SagaChain
  import opened TransactionInvariants
  import opened Transactions
  import opened Wrappers

  ghost predicate SeedsDistinct(p: Program) {
    var events := Baselines(p.boundaries);
    forall i, j :: 0 <= i < j < |events| ==> events[i].aggregate != events[j].aggregate
  }

  /** What is asked of an authored program: deterministic callbacks that do not read
      `event.response`, the saga boundary name left free, distinct seeds and projection names. */
  ghost predicate WellFormed(p: Program) {
    ReservesSagaName(p) && ResponseBlind(p) && SeedsDistinct(p) && DistinctNames(p.projections)
  }

  ghost predicate IsSagaId(log: seq<Event>, id: Id) {
    exists i :: 0 <= i < |log| && log[i].aggregate == id && log[i].boundary == SAGA_BOUNDARY
  }

  /** For an aggregate, the index holds exactly the boundary of its first logged event. */
  ghost predicate OwnerRight(log: seq<Event>, owners: Owners, id: Id) {
    var events := EventsOf(log, id);
    && (id in owners <==> events != [])
    && (id in owners ==> owners[id] == events[0].boundary)
  }

  ghost predicate OwnersRight(log: seq<Event>, owners: Owners) {
    forall id: Id :: !IsSagaId(log, id) ==> OwnerRight(log, owners, id)
  }

  ghost predicate Graph(w: World) {
    && Fold(w.program, map[], w.log) == Ok(w.states)
    && ExactVersions(w.log)
    && Recognizes(w.program, w.log)
    && OwnersRight(w.log, w.owners)
  }

  ghost predicate Advances(w: World, w': World) {
    && w'.program == w.program && w'.ready == w.ready && w'.clock == w.clock
    && w.log <= w'.log
    && (w.batch.None? <==> w'.batch.None?)
  }

  /** A step that only adds to the log and keeps the graph right. */
  ghost predicate Keeps(w: World, w': World) {
    Advances(w, w') && (WellFormed(w.program) && Graph(w) ==> Graph(w'))
  }

  lemma KeepsTransitive(a: World, b: World, c: World)
    requires Keeps(a, b) && Keeps(b, c)
    ensures Keeps(a, c)
  {
    hide Graph, WellFormed;
  }

  ghost predicate SameGraph(w: World, w': World) {
    w'.log == w.log && w'.states == w.states && w'.owners == w.owners
  }

  lemma SameGraphKeeps(w: World, w': World)
    requires Advances(w, w') && SameGraph(w, w')
    ensures Keeps(w, w')
  {
    hide Fold, ExactVersions, Recognizes, OwnersRight, WellFormed;
  }

  // ------------------------------------------------------------- ownership

  lemma {:induction false} FirstEvent(e: Event, rest: seq<Event>, id: Id)
    ensures EventsOf([e] + rest, id) == (if e.aggregate == id then [e] else []) + EventsOf(rest, id)
  {
    EventsOfAppend([e], rest, id);
    assert [e][..0] == [];
    assert EventsOf([e], id) == [] + (if e.aggregate == id then [e] else []);
  }

  lemma {:induction false} ClaimAllAt(owners: Owners, events: seq<Event>, id: Id)
    ensures var after := ClaimAll(owners, events);
            && (id in after <==> id in owners || EventsOf(events, id) != [])
            && (id in owners ==> after[id] == owners[id])
            && (id !in owners && id in after ==> after[id] == EventsOf(events, id)[0].boundary)
    decreases |events|
  {
    if events != [] {
      assert events == [events[0]] + events[1..];
      FirstEvent(events[0], events[1..], id);
      ClaimAllAt(Claim(owners, events[0]), events[1..], id);
    }
  }

  lemma SagaIdsGrow(log: seq<Event>, more: seq<Event>, id: Id)
    ensures IsSagaId(log, id) ==> IsSagaId(log + more, id)
  {
    forall i | 0 <= i < |log| && log[i].aggregate == id && log[i].boundary == SAGA_BOUNDARY
      ensures IsSagaId(log + more, id)
    {
      assert (log + more)[i] == log[i];
    }
  }

  lemma ClaimsKeepOwners(log: seq<Event>, owners: Owners, events: seq<Event>)
    requires OwnersRight(log, owners)
    ensures OwnersRight(log + events, ClaimAll(owners, events))
  {
    forall id: Id | !IsSagaId(log + events, id) ensures OwnerRight(log + events, ClaimAll(owners, events), id) {
      SagaIdsGrow(log, events, id);
      assert OwnerRight(log, owners, id);
      EventsOfAppend(log, events, id);
      ClaimAllAt(owners, events, id);
    }
  }

  lemma FreshClaims(log: seq<Event>)
    ensures OwnersRight(log, ClaimAll(map[], log))
  {
    forall id: Id ensures OwnerRight(log, ClaimAll(map[], log), id) {
      ClaimAllAt(map[], log, id);
    }
  }

  /** Appending saga events leaves every other aggregate's entry right. */
  lemma SagaEventsKeepOwners(log: seq<Event>, owners: Owners, e: Event)
    requires OwnersRight(log, owners) && e.boundary == SAGA_BOUNDARY
    ensures OwnersRight(log + [e], owners)
  {
    forall id: Id | !IsSagaId(log + [e], id) ensures OwnerRight(log + [e], owners, id) {
      SagaIdsGrow(log, [e], id);
      assert (log + [e])[|log|] == e;
      assert OwnerRight(log, owners, id);
      EventsOfAppend(log, [e], id);
      FirstEvent(e, [], id);
      assert [e] + [] == [e];
      assert EventsOf(log + [e], id) == EventsOf(log, id);
    }
  }

  // ------------------------------------------------------------- commits

  lemma ExactAnswered(log: seq<Event>, events: seq<Event>, response: Response)
    requires ExactVersions(log + events)
    ensures ExactVersions(log + Answered(events, response))
  {
    var answered := Answered(events, response);
    forall i | 0 <= i < |log + answered| ensures VersionExactAt(log + answered, i) {
      assert VersionExactAt(log + events, i);
      if i < |log| {
        assert (log + events)[..i] == log[..i] == (log + answered)[..i];
      } else {
        var k := i - |log|;
        var id := events[k].aggregate;
        assert (log + events)[..i] == log + events[..k];
        assert (log + answered)[..i] == log + answered[..k];
        assert answered[..k] == Answered(events[..k], response);
        EventsOfAppend(log, events[..k], id);
        EventsOfAppend(log, answered[..k], id);
        EventsOfAnswered(events[..k], response, id);
      }
    }
  }

  lemma RecognizesMore(p: Program, log: seq<Event>, events: seq<Event>)
    requires Recognizes(p, log)
    requires forall i :: 0 <= i < |events| ==> events[i].boundary == SAGA_BOUNDARY || Find(p, events[i].boundary).Some?
    ensures Recognizes(p, log + events)
  {
    hide Find;
  }

  lemma CommitKeeps(w: World, tx: Tx, response: Response)
    requires ExactVersions(w.log) ==> Sound(w.program, w.log, w.states, tx)
    ensures Keeps(w, Committed(w, tx.states, Answered(tx.events, response)))
  {
    hide Fold, ExactVersions, OwnersRight, Find;
    if WellFormed(w.program) && Graph(w) {
      var answered := Answered(tx.events, response);
      ExactAnswered(w.log, tx.events, response);
      FoldAppend(w.program, map[], w.log, answered);
      FoldBlind(w.program, w.states, tx.events, response);
      ClaimsKeepOwners(w.log, w.owners, answered);
      RecognizesMore(w.program, w.log, answered);
    }
  }

  /** What a replay commits: the old event under a fresh version, applied by its own boundary. */
  lemma ReissuedEvent(w: World, b: Boundary, event: Event, req: Request)
    requires ExactVersions(w.log) && ResponseBlind(w.program)
    requires Find(w.program, event.boundary) == Some(b) && Reissue(w, b, event, req).Ok?
    ensures var (committed, states, _) := Reissue(w, b, event, req).value;
            && committed.aggregate == event.aggregate && committed.boundary == event.boundary
            && committed.version == |EventsOf(w.log, event.aggregate)| + 1
            && Apply(b, committed, w.states) == Ok(states)
  {
    hide ExactVersions, Apply, NextVersion, CurrentVersion, ResponseBlind, EventsOf, Find;
    var (committed, states, response) := Reissue(w, b, event, req).value;
    assert w.log + [] == w.log;
    NextVersionContinues(w.log, [], event.aggregate);
    var version := NextVersion(CurrentVersion(w.log, event.aggregate), [], event.aggregate).value;
    ApplyBlind(w.program, b, Replayed(event, req, version), w.states, Some(response));
  }

  lemma ReplayKeeps(w: World, b: Boundary, event: Event, req: Request)
    requires Find(w.program, event.boundary) == Some(b) && Reissue(w, b, event, req).Ok?
    ensures var (committed, states, _) := Reissue(w, b, event, req).value;
            Keeps(w, Committed(w, states, [committed]))
  {
    hide Fold, ExactVersions, OwnersRight, Apply, Reissue, EventsOf, Find, SeedsDistinct, DistinctNames, Recognizes,
         ResponseBlind, ClaimAll;
    var (committed, states, response) := Reissue(w, b, event, req).value;
    if WellFormed(w.program) && Graph(w) {
      ReissuedEvent(w, b, event, req);
      ExactAppendOne(w.log, committed);
      FoldAppend(w.program, map[], w.log, [committed]);
      FoldOne(w.program, w.states, committed);
      ClaimsKeepOwners(w.log, w.owners, [committed]);
      RecognizesMore(w.program, w.log, [committed]);
    }
  }

  lemma ApplyBlind(p: Program, b: Boundary, e: Event, states: States, r: Option<Response>)
    requires ResponseBlind(p) && Find(p, b.name) == Some(b)
    ensures Apply(b, e.(response := r), states) == Apply(b, e, states)
  {
    hide NextState, BlindBoundary;
    assert b in p.boundaries;
    NextStateBlind(b, Existing(states, e.aggregate), e, r);
  }

  lemma MarkKeeps(w: World, saga: Saga, instance: Id, mark: Mark, req: Request)
    ensures Keeps(w, AppendMark(w, saga, instance, mark, req))
  {
    hide Fold, ExactVersions, OwnersRight, Find, MarkPayload, MarkKind, CurrentVersion;
    var e := SagaEvent(w, saga, instance, mark, req);
    if WellFormed(w.program) && Graph(w) {
      CurrentVersionIsCount(w.log, instance);
      ExactAppendOne(w.log, e);
      FoldAppend(w.program, map[], w.log, [e]);
      FoldOne(w.program, w.states, e);
      SagaEventsKeepOwners(w.log, w.owners, e);
      RecognizesMore(w.program, w.log, [e]);
    }
  }

  // ------------------------------------------------------------- one request

  lemma TransactionKeeps(w: World, req: Request, id: Id)
    requires Transact(w, req, id).Ok?
    ensures var (tx, response) := Transact(w, req, id).value;
            && Keeps(w, Committed(w, tx.states, Answered(tx.events, response)))
            && (ExactVersions(w.log) ==> Sound(w.program, w.log, w.states, tx) && Counted(tx))
  {
    hide Keeps, Committed, Sound, Counted, ExactVersions, Preconditions;
    var (tx, response) := Transact(w, req, id).value;
    if ExactVersions(w.log) { TransactionSound(w.program, w.log, w.states, req); }
    CommitKeeps(w, tx, response);
  }

  lemma StageMutationKeeps(w: World, b: Boundary, req: Request, key: Option<string>)
    ensures Keeps(w, StageMutation(w, b, req, key).world)
  {
    hide Transact, Keeps, Committed;
    SameGraphKeeps(w, w);
    var identity := ResolveIdentity(b, req);
    if identity.Ok? && Transact(w, Targeted(req, identity.value), identity.value).Ok? {
      TransactionKeeps(w, Targeted(req, identity.value), identity.value);
    }
  }

  lemma StageReplayKeeps(w: World, req: Request, eventId: string, key: Option<string>)
    ensures Keeps(w, StageReplay(w, req, eventId, key).world)
  {
    hide Reissue, Keeps, Committed;
    SameGraphKeeps(w, w);
    var event := FindEvent(w.log, eventId);
    if event.Some? {
      var b := Find(w.program, event.value.boundary);
      if b.Some? {
        var replay := ReplayRequest(req, b.value, event.value);
        if Reissue(w, b.value, event.value, replay).Ok? { ReplayKeeps(w, b.value, event.value, replay); }
      }
    }
  }

  lemma StageAdmittedKeeps(w: World, b: Boundary, req: Request, key: Option<string>)
    ensures Keeps(w, StageAdmitted(w, b, req, key).world)
  {
    hide StageMutation, StageReplay, Keeps, AnswerQuery;
    SameGraphKeeps(w, w);
    StageMutationKeeps(w, b, req, key);
    if req.controls.replayEvent.Some? { StageReplayKeeps(w, req, req.controls.replayEvent.value, key); }
  }

  lemma CheckKeeps(w: World, key: string, req: Request)
    requires CheckFingerprint(w, key, req).Ok?
    ensures Keeps(w, CheckFingerprint(w, key, req).value)
    ensures SameGraph(w, CheckFingerprint(w, key, req).value)
  {
    SameGraphKeeps(w, CheckFingerprint(w, key, req).value);
  }

  lemma StageRequestKeeps(w: World, req: Request)
    ensures Keeps(w, StageRequest(w, req).world)
  {
    hide StageAdmitted, CheckFingerprint, Keeps, Cached;
    SameGraphKeeps(w, w);
    var b := Find(w.program, req.command.boundary);
    if b.Some? {
      StageAdmittedKeeps(w, b.value, req, None);
      var key := IdempotencyKey(w.program, req);
      if key.Some? && CheckFingerprint(w, key.value, req).Ok? {
        CheckKeeps(w, key.value, req);
        var checked := CheckFingerprint(w, key.value, req).value;
        StageAdmittedKeeps(checked, b.value, req, key);
        KeepsTransitive(w, checked, StageAdmitted(checked, b.value, req, key).world);
      }
    }
  }

  lemma AnnounceKeeps(w: World, post: PostCommit)
    ensures Keeps(w, Announce(w, post).0) && SameGraph(w, Announce(w, post).0)
  {
    hide Keeps;
    SameGraphKeeps(w, Announce(w, post).0);
  }

  lemma ConcludeKeeps(w: World, after: (World, Done), stage: Stage, req: Request)
    requires stage.Staged? && Keeps(w, after.0)
    ensures Keeps(w, Conclude(after, stage, req).0)
    ensures SameGraph(after.0, Conclude(after, stage, req).0)
  {
    hide Keeps;
    SameGraphKeeps(after.0, Conclude(after, stage, req).0);
    KeepsTransitive(w, after.0, Conclude(after, stage, req).0);
  }

  lemma ExecutePlainKeeps(w: World, req: Request)
    ensures Keeps(w, ExecutePlain(w, req).0)
  {
    hide StageRequest, Announce, Keeps, Conclude;
    StageRequestKeeps(w, req);
    var stage := StageRequest(w, req);
    if stage.Staged? {
      AnnounceKeeps(stage.world, stage.post);
      KeepsTransitive(w, stage.world, Announce(stage.world, stage.post).0);
      SameGraphKeeps(stage.world, Defer(stage.world, stage.post));
      KeepsTransitive(w, stage.world, Defer(stage.world, stage.post));
      var after := if stage.world.batch.Some? then (Defer(stage.world, stage.post), Ok(()))
                   else Announce(stage.world, stage.post);
      ConcludeKeeps(w, after, stage, req);
    }
  }

  lemma PlainAdvances(w: World, req: Request)
    ensures Advances(w, ExecutePlain(w, req).0)
  {
    hide ExecutePlain, Graph, WellFormed;
    ExecutePlainKeeps(w, req);
  }

  // ------------------------------------------------------------- sagas

  lemma SagaLinksKeep(source: Request)
    ensures KeptByLinks(Keeps, Inherited(source))
  {
    hide Keeps, ExecutePlain, AppendMark;
    forall w: World ensures Keeps(w, w) { SameGraphKeeps(w, w); }
    forall a: World, b: World, c: World | Keeps(a, b) && Keeps(b, c) ensures Keeps(a, c) { KeepsTransitive(a, b, c); }
    forall w: World, req: Request ensures Keeps(w, ExecutePlain(w, req).0) { ExecutePlainKeeps(w, req); }
    forall w: World, saga: Saga, instance: Id, mark: Mark, req: Request
      ensures Keeps(w, AppendMark(w, saga, instance, mark, req))
    {
      MarkKeeps(w, saga, instance, mark, req);
    }
  }

  lemma FollowUpKeeps(w: World, post: PostCommit)
    ensures Keeps(w, FollowUp(w, post).0)
  {
    hide Announce, RunSagas, Keeps;
    AnnounceKeeps(w, post);
    var announced := Announce(w, post);
    SagaLinksKeep(post.request);
    SagasChain(Keeps, announced.0, announced.0.program.sagas, ContextOf(w, post));
    KeepsTransitive(w, announced.0, RunSagas(announced.0, announced.0.program.sagas, ContextOf(w, post)).0);
  }

  /** Every request, in or out of a batch, keeps the graph and only appends to the log. */
  lemma ExecuteKeeps(w: World, req: Request)
    ensures Keeps(w, Execute(w, req).0)
  {
    hide StageRequest, FollowUp, Keeps, Conclude;
    StageRequestKeeps(w, req);
    var stage := StageRequest(w, req);
    if stage.Staged? {
      FollowUpKeeps(stage.world, stage.post);
      KeepsTransitive(w, stage.world, FollowUp(stage.world, stage.post).0);
      SameGraphKeeps(stage.world, Defer(stage.world, stage.post));
      KeepsTransitive(w, stage.world, Defer(stage.world, stage.post));
      var after := if stage.world.batch.Some? then (Defer(stage.world, stage.post), Ok(()))
                   else FollowUp(stage.world, stage.post);
      ConcludeKeeps(w, after, stage, req);
    }
  }

  // ------------------------------------------------------------- batches

  lemma {:induction false} RunItemsKeeps(w: World, requests: seq<Request>)
    ensures Keeps(w, RunItems(w, requests).0)
    decreases |requests|
  {
    hide Execute, Keeps;
    SameGraphKeeps(w, w);
    if requests != [] {
      ExecuteKeeps(w, requests[0]);
      var w1 := Execute(w, requests[0]).0;
      RunItemsKeeps(w1, requests[1..]);
      KeepsTransitive(w, w1, RunItems(w1, requests[1..]).0);
    }
  }

  lemma {:induction false} RunPostsKeeps(w: World, posts: seq<PostCommit>)
    ensures Keeps(w, RunPosts(w, posts).0)
    decreases |posts|
  {
    hide FollowUp, Keeps;
    SameGraphKeeps(w, w);
    if posts != [] {
      FollowUpKeeps(w, posts[0]);
      var w1 := FollowUp(w, posts[0]).0;
      RunPostsKeeps(w1, posts[1..]);
      KeepsTransitive(w, w1, RunPosts(w1, posts[1..]).0);
    }
  }
}
