// Initialization, restoration, batches and program replacement keep the graph invariant, and the
// theorem about every run of the engine.
module Lifecycle {
  import opened Domain
  import opened EventSourcing
  import opened GraphInvariant
  import opened Projections
  import opened Reduction
  import opened Runtime
  import opened Wrappers

  // ------------------------------------------------------------- the log without saga events

  lemma {:induction false} NotSagaFold(p: Program, states: States, log: seq<Event>)
    requires ReservesSagaName(p)
    ensures Fold(p, states, NotSaga(log)) == Fold(p, states, log)
    decreases |log|
  {
    hide Find, Apply;
    if log != [] {
      var rest := NotSaga(log[1..]);
      if log[0].boundary == SAGA_BOUNDARY {
        assert NotSaga(log) == [] + rest == rest;
        NotSagaFold(p, states, log[1..]);
      } else {
        assert NotSaga(log) == [log[0]] + rest;
        assert ([log[0]] + rest)[1..] == rest;
        match Find(p, log[0].boundary)
        case None => NotSagaFold(p, states, log[1..]);
        case Some(b) =>
          var next := Apply(b, log[0], states);
          if next.Ok? { NotSagaFold(p, next.value, log[1..]); }
      }
    }
  }

  lemma {:induction false} NotSagaOf(log: seq<Event>, id: Id)
    requires !IsSagaId(log, id)
    ensures EventsOf(NotSaga(log), id) == EventsOf(log, id)
    decreases |log|
  {
    if log != [] {
      var init, last := log[..|log| - 1], log[|log| - 1];
      assert log == init + [last];
      SagaIdsGrow(init, [last], id);
      NotSagaOf(init, id);
      SelectAppend(init, [last], (e: Event) => e.boundary != SAGA_BOUNDARY);
      assert NotSaga(log) == NotSaga(init) + NotSaga([last]);
      assert NotSaga([last]) == (if last.boundary != SAGA_BOUNDARY then [last] else []) + [];
      EventsOfAppend(NotSaga(init), NotSaga([last]), id);
      EventsOfAppend(init, [last], id);
      assert log[|log| - 1].boundary == SAGA_BOUNDARY ==> last.aggregate != id;
      FirstEvent(last, [], id);
      assert [last] + [] == [last];
    }
  }

  lemma ReplacedOwnersRight(log: seq<Event>)
    ensures OwnersRight(log, ClaimAll(map[], NotSaga(log)))
  {
    forall id: Id | !IsSagaId(log, id) ensures OwnerRight(log, ClaimAll(map[], NotSaga(log)), id) {
      NotSagaOf(log, id);
      ClaimAllAt(map[], NotSaga(log), id);
    }
  }

  // ------------------------------------------------------------- initialization

  lemma {:induction false} BaselinesKnown(all: seq<Boundary>, boundaries: seq<Boundary>)
    requires forall b <- boundaries :: Lookup(all, b.name).Some?
    ensures forall e <- Baselines(boundaries) :: Lookup(all, e.boundary).Some? && e.version == 1
  {
    if boundaries != [] { BaselinesKnown(all, boundaries[1..]); }
  }

  lemma {:induction false} LookupFindsMembers(all: seq<Boundary>)
    ensures forall b <- all :: Lookup(all, b.name).Some?
  {
    if all != [] { LookupFindsMembers(all[1..]); }
  }

  /** A log of first versions is exact precisely when no aggregate appears twice: two seeds with
      one id break the version order from the start. */
  lemma FirstVersionsExact(events: seq<Event>)
    requires forall i :: 0 <= i < |events| ==> events[i].version == 1
    ensures ExactVersions(events)
       <==> forall i, j :: 0 <= i < j < |events| ==> events[i].aggregate != events[j].aggregate
  {
    if ExactVersions(events) {
      forall i, j | 0 <= i < j < |events| ensures events[i].aggregate != events[j].aggregate {
        assert VersionExactAt(events, j);
        if events[i].aggregate == events[j].aggregate {
          assert events[..j] == events[..i] + ([events[i]] + events[i + 1..j]);
          EventsOfAppend(events[..i], [events[i]] + events[i + 1..j], events[j].aggregate);
          FirstEvent(events[i], events[i + 1..j], events[j].aggregate);
        }
      }
    } else {
      var j :| 0 <= j < |events| && !VersionExactAt(events, j);
      EventsOfAreMembers(events[..j], events[j].aggregate);
      var e := EventsOf(events[..j], events[j].aggregate)[0];
      assert e in EventsOf(events[..j], events[j].aggregate);
      var i :| 0 <= i < j && events[i] == e;
      assert events[i].aggregate == events[j].aggregate;
    }
  }

  /** The engine between requests. */
  ghost predicate Quiet(w: World) {
    w.batch.None? && WellFormed(w.program) && (w.ready ==> Graph(w))
  }

  lemma BaselineLog(p: Program)
    ensures forall i :: 0 <= i < |Baselines(p.boundaries)| ==>
              Baselines(p.boundaries)[i].version == 1 && Find(p, Baselines(p.boundaries)[i].boundary).Some?
  {
    LookupFindsMembers(p.boundaries);
    BaselinesKnown(p.boundaries, p.boundaries);
  }

  lemma InitializeQuiet(w: World)
    requires w.batch.None? && WellFormed(w.program)
    ensures Quiet(Initialize(w)) && Initialize(w).program == w.program
  {
    hide Fold, OwnersRight, ExactVersions, ReservesSagaName, ResponseBlind, DistinctNames, Project, Baselines, Find,
         ClaimAll;
    var history := Baselines(w.program.boundaries);
    BaselineLog(w.program);
    FirstVersionsExact(history);
    FreshClaims(history);
  }

  lemma ClearedQuiet(w: World, program: Program)
    requires WellFormed(program)
    ensures Quiet(Cleared(w, program))
  {
    FoldNone(program, map[]);
    FreshClaims([]);
  }

  // ------------------------------------------------------------- restoration

  /** A snapshot taken by this engine while it ran this program. */
  ghost predicate OwnSnapshot(p: Program, s: Snapshot) {
    Fold(p, map[], s.log) == Ok(s.states) && ExactVersions(s.log) && Recognizes(p, s.log)
  }

  lemma CaptureIsOwn(w: World)
    requires Graph(w)
    ensures OwnSnapshot(w.program, Capture(w))
  {
    hide Fold, ExactVersions, Recognizes, OwnersRight;
  }

  lemma RestoreGraph(w: World, s: Snapshot)
    requires OwnSnapshot(w.program, s)
    ensures Graph(Restore(w, s))
  {
    hide Fold, ExactVersions, Recognizes, OwnersRight, ClaimAll;
    FreshClaims(s.log);
  }

  /** Restoring a checkpoint brings the ownership index back exactly when every saga instance in
      the log already had its entry: commits never index saga events, restoring does. */
  lemma RestoreIndexExact(w: World)
    requires OwnersRight(w.log, w.owners)
    ensures Restore(w, Capture(w)).owners == w.owners
       <==> forall id: Id :: IsSagaId(w.log, id) ==> OwnerRight(w.log, w.owners, id)
  {
    var restored := Restore(w, Capture(w)).owners;
    forall id: Id ensures OwnerRight(w.log, restored, id) {
      ClaimAllAt(map[], w.log, id);
    }
    if forall id: Id :: IsSagaId(w.log, id) ==> OwnerRight(w.log, w.owners, id) {
      forall id: Id ensures id in restored <==> id in w.owners
                    ensures id in restored ==> restored[id] == w.owners[id] {
        assert OwnerRight(w.log, restored, id);
        assert !IsSagaId(w.log, id) ==> OwnerRight(w.log, w.owners, id);
      }
      assert restored == w.owners;
    }
  }

  /** So once a saga has started, a rollback adds its instance to the index. */
  lemma RestoreIndexesSagaInstances(w: World, saga: Saga, instance: Id, req: Request)
    requires instance !in w.owners
    ensures var started := AppendMark(w, saga, instance, Started, req);
            instance !in started.owners && instance in Restore(started, Capture(started)).owners
  {
    var e := SagaEvent(w, saga, instance, Started, req);
    EventsOfAppend(w.log, [e], instance);
    FirstEvent(e, [], instance);
    assert [e] + [] == [e];
    ClaimAllAt(map[], w.log + [e], instance);
  }

  // ------------------------------------------------------------- batches

  lemma ExecuteTransactionalQuiet(w: World, requests: seq<Request>)
    requires Quiet(w)
    ensures Quiet(ExecuteTransactional(w, requests).0)
    ensures ExecuteTransactional(w, requests).0.program == w.program
  {
    hide RunItems, RunPosts, Graph, WellFormed, Restore;
    RestoredQuiet(w, w);
    var begun := w.(batch := Some(Batch([], map[])));
    var (ran, results) := RunItems(begun, requests);
    RunItemsKeeps(begun, requests);
    if w.ready { SameGraphIsGraph(w, begun); }
    var closed := Close(ran);
    if w.ready { SameGraphIsGraph(ran, closed); }
    RestoredQuiet(w, closed);
    if ran.batch.Some? {
      var flushed := FlushKeys(closed, ran.batch.value.idempotency);
      if w.ready { SameGraphIsGraph(closed, flushed); }
      RunPostsKeeps(flushed, ran.batch.value.postCommits);
      RestoredQuiet(w, RunPosts(flushed, ran.batch.value.postCommits).0);
    }
  }

  lemma SameGraphIsGraph(w: World, w': World)
    requires Graph(w) && SameGraph(w, w') && w'.program == w.program
    ensures Graph(w')
  {
    hide Fold, ExactVersions, Recognizes, OwnersRight;
  }

  lemma RestoredQuiet(w: World, failed: World)
    requires Quiet(w) && failed.program == w.program && failed.ready == w.ready && failed.batch.None?
    ensures Quiet(Restore(failed, Capture(w))) && Restore(failed, Capture(w)).program == w.program
  {
    hide Fold, ExactVersions, Recognizes, OwnersRight, ClaimAll, WellFormed;
    if w.ready {
      CaptureIsOwn(w);
      RestoreGraph(failed, Capture(w));
    }
  }

  lemma ExecuteBatchQuiet(w: World, requests: seq<Request>, transactional: bool)
    requires Quiet(w)
    ensures Quiet(ExecuteBatch(w, requests, transactional).0)
    ensures ExecuteBatch(w, requests, transactional).0.program == w.program
  {
    hide RunItems, ExecuteTransactional, Graph, WellFormed;
    if transactional { ExecuteTransactionalQuiet(w, requests); } else { RunItemsKeeps(w, requests); }
  }

  // ------------------------------------------------------------- program replacement

  lemma ReplacePreservingQuiet(w: World, next: Program, validationFails: bool)
    requires Quiet(w) && WellFormed(next)
    ensures Quiet(ReplacePreserving(w, next, validationFails))
  {
    hide Fold, ExactVersions, OwnersRight, ClaimAll, WellFormed, Restore, Project;
    if w.ready {
      CaptureIsOwn(w);
      RestoredQuiet(w, w);
      SagaNameOf(next);
      NotSagaFold(next, map[], w.log);
      ReplacedOwnersRight(w.log);
    }
  }

  lemma SagaNameOf(p: Program)
    requires WellFormed(p)
    ensures ReservesSagaName(p) && ResponseBlind(p) && DistinctNames(p.projections)
  {}

  /** Replacing the program while preserving events never changes the log, and either installs the
      fold of the whole log under the new program or leaves program, states and projections as
      they were with the index rebuilt from the log. Exactly when: the new program recognizes every
      event, every event still applies, and its validation hook passes. */
  lemma ReplacementIsAtomic(w: World, next: Program, validationFails: bool)
    requires Quiet(w) && w.ready && WellFormed(next)
    ensures var after := ReplacePreserving(w, next, validationFails);
            && after.log == w.log && after.entries == w.entries && after.fingerprints == w.fingerprints
            && (if Recognizes(next, w.log) && Fold(next, map[], w.log).Ok? && !validationFails then
                  && after.program == next
                  && Fold(next, map[], w.log) == Ok(after.states)
                  && after.projections == Project(next.projections, OfRebuild(w.log), map[], NotSaga(w.log))
                else
                  after == w.(owners := ClaimAll(map[], w.log)))
            && OwnersRight(w.log, after.owners)
  {
    hide Fold, ExactVersions, OwnersRight, ClaimAll, Project, SeedsDistinct, Find;
    NotSagaFold(next, map[], w.log);
    ReplacedOwnersRight(w.log);
    FreshClaims(w.log);
  }

  // ------------------------------------------------------------- every run

  datatype Operation =
    | Handles(request: Request)
    | HandlesBatch(requests: seq<Request>, transactional: bool)
    | Resets(hookFails: bool)
    | Replaces(next: Program, preserveEvents: bool, hookFails: bool)
    | Restores(snapshot: Snapshot)
    | Waits(milliseconds: nat)

  function Perform(w: World, op: Operation): World {
    match op
    case Handles(request) => Execute(w, request).0
    case HandlesBatch(requests, transactional) => ExecuteBatch(w, requests, transactional).0
    case Resets(hookFails) => Reset(w, hookFails)
    case Replaces(next, preserve, fails) =>
      if preserve then ReplacePreserving(w, next, fails) else ReplaceDiscarding(w, next, fails)
    case Restores(snapshot) => Restore(w, snapshot)
    case Waits(milliseconds) => w.(clock := w.clock + milliseconds)
  }

  /** Snapshots are restored into the program they were taken from; programs are well formed. */
  ghost predicate Permitted(past: seq<World>, w: World, op: Operation) {
    match op
    case Replaces(next, _, _) => WellFormed(next)
    case Restores(s) =>
      exists i :: 0 <= i < |past| && past[i].ready && past[i].program == w.program && Capture(past[i]) == s
    case _ => true
  }

  ghost predicate Run(program: Program, worlds: seq<World>, ops: seq<Operation>) {
    && |worlds| == |ops| + 1
    && worlds[0] == Boot(program)
    && forall i :: 0 <= i < |ops| ==>
         Permitted(worlds[..i + 1], worlds[i], ops[i]) && worlds[i + 1] == Perform(worlds[i], ops[i])
  }

  lemma PerformQuiet(past: seq<World>, w: World, op: Operation)
    requires forall i :: 0 <= i < |past| ==> Quiet(past[i])
    requires Quiet(w) && Permitted(past, w, op)
    ensures Quiet(Perform(w, op))
  {
    hide Execute, ExecuteBatch, Graph, WellFormed, Initialize, Cleared, ReplacePreserving, Restore;
    match op
    case Handles(request) => ExecuteKeeps(w, request);
    case HandlesBatch(requests, transactional) => ExecuteBatchQuiet(w, requests, transactional);
    case Resets(_) => ResetQuiet(w, w.program);
    case Replaces(next, preserve, fails) =>
      ReplacePreservingQuiet(w, next, fails);
      ResetQuiet(w, next);
    case Restores(s) =>
      var i :| 0 <= i < |past| && past[i].ready && past[i].program == w.program && Capture(past[i]) == s;
      CaptureIsOwn(past[i]);
      RestoreGraph(w, s);
      RestoreFrame(w, s);
    case Waits(_) => if w.ready { SameGraphIsGraph(w, Perform(w, op)); }
  }

  lemma RestoreFrame(w: World, s: Snapshot)
    ensures Restore(w, s).program == w.program && Restore(w, s).batch == w.batch && Restore(w, s).ready == w.ready
  {}

  lemma ResetQuiet(w: World, program: Program)
    requires WellFormed(program)
    ensures Quiet(Cleared(w, program)) && Quiet(Initialize(Cleared(w, program)))
  {
    hide Initialize, Quiet, WellFormed;
    ClearedQuiet(w, program);
    InitializeQuiet(Cleared(w, program));
  }

  /** In every state any run reaches, a ready engine's graph is the fold of its log, versions are
      exact per aggregate, and the index names each aggregate's first boundary. */
  lemma {:induction false} EveryRunStaysConsistent(program: Program, worlds: seq<World>, ops: seq<Operation>, i: nat)
    requires WellFormed(program) && Run(program, worlds, ops) && i < |worlds|
    ensures forall k :: 0 <= k <= i ==> Quiet(worlds[k])
  {
    hide Quiet, Perform, Permitted, WellFormed, Boot;
    if i == 0 {
      BootQuiet(program);
    } else {
      EveryRunStaysConsistent(program, worlds, ops, i - 1);
      PerformQuiet(worlds[..i], worlds[i - 1], ops[i - 1]);
    }
  }

  lemma BootQuiet(program: Program)
    requires WellFormed(program)
    ensures Quiet(Boot(program))
  {
    hide Initialize, WellFormed, Quiet;
    InitializeQuiet(World(program, false, [], map[], map[], map[], map[], map[], 0, None));
  }

  /** What the invariant says of one aggregate: its stored state is the fold of its own events, its
      store version is their number, and its owner is the first one's boundary. */
  lemma AggregateIsItsHistory(w: World, id: Id)
    requires Quiet(w) && w.ready
    ensures Fold(w.program, map[], EventsOf(w.log, id)).Ok?
    ensures StateOf(w.states, id) == StateOf(Fold(w.program, map[], EventsOf(w.log, id)).value, id)
    ensures CurrentVersion(w.log, id) == |EventsOf(w.log, id)|
    ensures forall k :: 0 <= k < |EventsOf(w.log, id)| ==> EventsOf(w.log, id)[k].version == k + 1
    ensures !IsSagaId(w.log, id) ==> OwnerRight(w.log, w.owners, id)
  {
    hide Fold, ExactVersions, EventsOf, WellFormed;
    FoldIsLocal(w.program, map[], map[], w.log, id);
    CurrentVersionIsCount(w.log, id);
    VersionsCountUp(w.log, id);
  }

  /** Time travel across moments of one run: however much has been logged since, under the same
      program, reading an aggregate at the version it had at an earlier moment gives the state it
      had then, every version below reads as it read then, and reading at or above its current
      version gives the state it has now. */
  lemma PastStatesStayReadable(past: World, now: World, b: Boundary, id: Id, version: int)
    requires Quiet(past) && past.ready && Quiet(now) && now.ready && past.program == now.program
    requires past.log <= now.log && !IsSagaId(now.log, id)
    ensures ReadStateAtVersion(now.program, b, now.log, id, CurrentVersion(past.log, id))
         == Ok(StateOf(past.states, id))
    ensures 0 <= version <= CurrentVersion(past.log, id) ==>
              ReadStateAtVersion(now.program, b, now.log, id, version)
                == ReadStateAtVersion(past.program, b, past.log, id, version)
    ensures version >= CurrentVersion(now.log, id) ==>
              ReadStateAtVersion(now.program, b, now.log, id, version) == Ok(StateOf(now.states, id))
  {
    hide Fold, ExactVersions, EventsOf, WellFormed, OwnersRight, Find, ReadStateAtVersion;
    var since := now.log[|past.log|..];
    assert now.log == past.log + since;
    forall e | e in now.log && e.aggregate == id ensures Find(now.program, e.boundary).Some? {
      var i :| 0 <= i < |now.log| && now.log[i] == e;
      assert now.log[i].boundary != SAGA_BOUNDARY;
    }
    TimeTravel(now.program, b, past.log, since, id);
    if 0 <= version <= CurrentVersion(past.log, id) { ReadsAreStable(now.program, b, past.log, since, id, version); }
    if version >= CurrentVersion(now.log, id) { ReadAtOrAboveCurrentIsLive(now.program, b, now.log, id, version); }
  }
}
