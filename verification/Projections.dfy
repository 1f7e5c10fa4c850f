// Derived projections, built incrementally after each commit and rebuilt in one pass on reload
// (src/core/engine.ts: runProjections).
module Projections {
  import opened Domain
  import opened Json
  import opened Reduction
  import opened Wrappers

  type Rows = map<string, Object>
  type Store = map<string, Rows>

  function RowsOf(store: Store, name: string): Rows {
    if name in store then store[name] else map[]
  }

  predicate Interested(q: Projection, e: Event) {
    exists i :: 0 <= i < |q.subscribe| && Subscribes(q.subscribe[i], e)
  }

  function ProjectionReducers(reducers: seq<Reducer>, e: Event): seq<Reducer> {
    if reducers == [] then []
    else (if Subscribes(reducers[0].on, e) then [reducers[0]] else []) + ProjectionReducers(reducers[1..], e)
  }

  function SourceState(source: ProjectionSource): Option<Object> {
    match source case OfCommit(commit) => commit.state case OfRebuild(_) => None
  }

  function RowAt(rows: Rows, key: string): Option<Object> {
    if key in rows then Some(rows[key]) else None
  }

  /** The row an event writes, or the failure that makes the engine skip the event. The key is
      resolved twice: to find the current row, and again in view of that row. */
  function Projected(q: Projection, source: ProjectionSource, rows: Rows, e: Event)
    : Result<(string, Object), RuntimeError>
  {
    var found :- q.key(ProjectionView(source, e, SourceState(source)));
    var view := ProjectionView(source, e, RowAt(rows, found));
    var _ :- q.observe(view);
    var key :- q.key(view);
    var current := if key in rows then rows[key] else [];
    var reducers := ProjectionReducers(q.reducers, e);
    var next :- RunReducers(reducers, if Replaces(reducers) then e.payload else current, e);
    Ok((key, next))
  }

  function ProjectRow(q: Projection, source: ProjectionSource, rows: Rows, e: Event): Rows {
    match Projected(q, source, rows, e)
    case Ok((key, next)) => rows[key := next]
    case Err(_) => rows
  }

  function ProjectEvent(q: Projection, source: ProjectionSource, store: Store, e: Event): Store {
    if Interested(q, e) then store[q.name := ProjectRow(q, source, RowsOf(store, q.name), e)] else store
  }

  function ProjectEvents(q: Projection, source: ProjectionSource, store: Store, events: seq<Event>): Store
    decreases |events|
  {
    if events == [] then store
    else ProjectEvents(q, source, ProjectEvent(q, source, store, events[0]), events[1..])
  }

  function Project(projections: seq<Projection>, source: ProjectionSource, store: Store, events: seq<Event>): Store
    decreases |projections|
  {
    if projections == [] then store
    else Project(projections[1..], source, ProjectEvents(projections[0], source, store, events), events)
  }

  // ------------------------------------------------------------- callbacks that ignore the source

  /** An event writes the same row for one source as for another. */
  ghost predicate Alike(q: Projection, s: ProjectionSource, t: ProjectionSource) {
    forall rows: Rows, e: Event :: Interested(q, e) ==> ProjectRow(q, s, rows, e) == ProjectRow(q, t, rows, e)
  }

  ghost predicate AllAlike(projections: seq<Projection>, s: ProjectionSource, t: ProjectionSource) {
    forall i :: 0 <= i < |projections| ==> Alike(projections[i], s, t)
  }

  /** What an event writes does not depend on the commit or history it is projected for. */
  ghost predicate SourceBlind(q: Projection) {
    forall s: ProjectionSource, t: ProjectionSource :: Alike(q, s, t)
  }

  ghost predicate AllSourceBlind(projections: seq<Projection>) {
    forall i :: 0 <= i < |projections| ==> SourceBlind(projections[i])
  }

  lemma EventAlike(q: Projection, s: ProjectionSource, t: ProjectionSource, store: Store, e: Event)
    requires Alike(q, s, t)
    ensures ProjectEvent(q, s, store, e) == ProjectEvent(q, t, store, e)
  {
    hide ProjectRow, Interested;
  }

  lemma {:induction false} EventsAlike(q: Projection, s: ProjectionSource, t: ProjectionSource, store: Store,
                                       events: seq<Event>)
    requires Alike(q, s, t)
    ensures ProjectEvents(q, s, store, events) == ProjectEvents(q, t, store, events)
    decreases |events|
  {
    hide Projected, Alike, Interested;
    if events != [] {
      EventAlike(q, s, t, store, events[0]);
      EventsAlike(q, s, t, ProjectEvent(q, s, store, events[0]), events[1..]);
    }
  }

  lemma {:induction false} ProjectAlike(projections: seq<Projection>, s: ProjectionSource, t: ProjectionSource,
                                        store: Store, events: seq<Event>)
    requires AllAlike(projections, s, t)
    ensures Project(projections, s, store, events) == Project(projections, t, store, events)
    decreases |projections|
  {
    hide ProjectEvents, Alike;
    if projections != [] {
      EventsAlike(projections[0], s, t, store, events);
      ProjectAlike(projections[1..], s, t, ProjectEvents(projections[0], s, store, events), events);
    }
  }

  lemma ProjectBlind(projections: seq<Projection>, s: ProjectionSource, t: ProjectionSource, store: Store,
                     events: seq<Event>)
    requires AllSourceBlind(projections)
    ensures Project(projections, s, store, events) == Project(projections, t, store, events)
  {
    hide Project, Alike;
    ProjectAlike(projections, s, t, store, events);
  }

  ghost predicate DistinctNames(projections: seq<Projection>) {
    forall i, j :: 0 <= i < j < |projections| ==> projections[i].name != projections[j].name
  }

  lemma {:induction false} ProjectEventsAppend(q: Projection, s: ProjectionSource, store: Store, a: seq<Event>,
                                               b: seq<Event>)
    ensures ProjectEvents(q, s, store, a + b) == ProjectEvents(q, s, ProjectEvents(q, s, store, a), b)
    decreases |a|
  {
    hide ProjectEvent;
    if a == [] {
      assert a + b == b;
    } else {
      assert (a + b)[1..] == a[1..] + b;
      ProjectEventsAppend(q, s, ProjectEvent(q, s, store, a[0]), a[1..], b);
    }
  }

  lemma EventsOfTwoCommute(q: Projection, r: Projection, s: ProjectionSource, store: Store, e: Event, f: Event)
    requires q.name != r.name
    ensures ProjectEvent(q, s, ProjectEvent(r, s, store, f), e) == ProjectEvent(r, s, ProjectEvent(q, s, store, e), f)
  {
    hide ProjectRow, Interested;
    assert RowsOf(ProjectEvent(r, s, store, f), q.name) == RowsOf(store, q.name);
    assert RowsOf(ProjectEvent(q, s, store, e), r.name) == RowsOf(store, r.name);
  }

  lemma {:induction false} EventCommutes(q: Projection, r: Projection, s: ProjectionSource, store: Store, e: Event,
                                         more: seq<Event>)
    requires q.name != r.name
    ensures ProjectEvents(r, s, ProjectEvent(q, s, store, e), more)
         == ProjectEvent(q, s, ProjectEvents(r, s, store, more), e)
    decreases |more|
  {
    hide ProjectEvent;
    if more != [] {
      EventsOfTwoCommute(q, r, s, store, e, more[0]);
      EventCommutes(q, r, s, ProjectEvent(r, s, store, more[0]), e, more[1..]);
    }
  }

  /** Projections with different names never read each other's rows. */
  lemma {:induction false} ProjectionsCommute(q: Projection, r: Projection, s: ProjectionSource, store: Store,
                                              a: seq<Event>, b: seq<Event>)
    requires q.name != r.name
    ensures ProjectEvents(q, s, ProjectEvents(r, s, store, b), a)
         == ProjectEvents(r, s, ProjectEvents(q, s, store, a), b)
    decreases |a|
  {
    hide ProjectEvent;
    if a != [] {
      EventCommutes(q, r, s, store, a[0], b);
      ProjectionsCommute(q, r, s, ProjectEvent(q, s, store, a[0]), a[1..], b);
    }
  }

  lemma {:induction false} ProjectionMovesOut(q: Projection, rest: seq<Projection>, s: ProjectionSource, store: Store,
                                              a: seq<Event>, b: seq<Event>)
    requires forall r <- rest :: r.name != q.name
    ensures ProjectEvents(q, s, Project(rest, s, store, a), b) == Project(rest, s, ProjectEvents(q, s, store, b), a)
    decreases |rest|
  {
    hide ProjectEvents;
    if rest != [] {
      assert rest[0] in rest;
      ProjectionsCommute(q, rest[0], s, store, b, a);
      ProjectionMovesOut(q, rest[1..], s, ProjectEvents(rest[0], s, store, a), a, b);
    }
  }

  lemma {:induction false} OnePassIsTwo(projections: seq<Projection>, s: ProjectionSource, store: Store,
                                        a: seq<Event>, b: seq<Event>)
    requires DistinctNames(projections)
    ensures Project(projections, s, store, a + b) == Project(projections, s, Project(projections, s, store, a), b)
    decreases |projections|
  {
    hide ProjectEvents;
    if projections != [] {
      var q, rest := projections[0], projections[1..];
      var qa := ProjectEvents(q, s, store, a);
      forall r | r in rest ensures r.name != q.name {
        var i :| 0 <= i < |rest| && rest[i] == r;
        assert projections[0].name != projections[i + 1].name;
      }
      forall i, j | 0 <= i < j < |rest| ensures rest[i].name != rest[j].name {
        assert projections[i + 1].name != projections[j + 1].name;
      }
      calc {
        Project(projections, s, store, a + b);
        Project(rest, s, ProjectEvents(q, s, store, a + b), a + b);
        { ProjectEventsAppend(q, s, store, a, b); }
        Project(rest, s, ProjectEvents(q, s, qa, b), a + b);
        { OnePassIsTwo(rest, s, ProjectEvents(q, s, qa, b), a, b); }
        Project(rest, s, Project(rest, s, ProjectEvents(q, s, qa, b), a), b);
        { ProjectionMovesOut(q, rest, s, qa, a, b); }
        Project(rest, s, ProjectEvents(q, s, Project(rest, s, qa, a), b), b);
        Project(projections, s, Project(projections, s, store, a), b);
      }
    }
  }

  /** Projecting commit by commit, each in view of its own commit, gives what one pass over the whole
      log gives, failing events skipped alike. */
  lemma IncrementalIsRebuild(projections: seq<Projection>, whole: ProjectionSource, first: ProjectionSource,
                             second: ProjectionSource, store: Store, a: seq<Event>, b: seq<Event>)
    requires DistinctNames(projections) && AllSourceBlind(projections)
    ensures Project(projections, whole, store, a + b)
         == Project(projections, second, Project(projections, first, store, a), b)
  {
    hide Project, AllSourceBlind, DistinctNames;
    ProjectBlind(projections, first, whole, store, a);
    ProjectBlind(projections, second, whole, Project(projections, whole, store, a), b);
    OnePassIsTwo(projections, whole, store, a, b);
  }

  // ------------------------------------------------------------- exactly when

  /** Building in two commits agrees with one rebuild, for these events. */
  ghost predicate TwoCommitsAreOneRebuild(projections: seq<Projection>, whole: ProjectionSource,
                                          first: ProjectionSource,
                                          second: ProjectionSource, store: Store, a: seq<Event>, b: seq<Event>)
  {
    Project(projections, whole, store, a + b) == Project(projections, second, Project(projections, first, store, a), b)
  }

  lemma OneEvent(q: Projection, s: ProjectionSource, store: Store, e: Event)
    ensures ProjectEvents(q, s, store, [e]) == ProjectEvent(q, s, store, e)
  {
    hide ProjectEvent;
    assert [e][1..] == [];
    assert ProjectEvents(q, s, ProjectEvent(q, s, store, e), []) == ProjectEvent(q, s, store, e);
  }

  lemma {:induction false} OthersLeaveRows(projections: seq<Projection>, s: ProjectionSource, store: Store, e: Event,
                                           name: string)
    requires forall q <- projections :: q.name != name
    ensures RowsOf(Project(projections, s, store, [e]), name) == RowsOf(store, name)
    decreases |projections|
  {
    hide ProjectRow, Interested;
    if projections != [] {
      var q := projections[0];
      assert q in projections;
      OneEvent(q, s, store, e);
      OthersLeaveRows(projections[1..], s, ProjectEvents(q, s, store, [e]), e, name);
    }
  }

  lemma {:induction false} OneEventWrites(projections: seq<Projection>, s: ProjectionSource, store: Store, e: Event,
                                          i: nat)
    requires DistinctNames(projections) && i < |projections| && Interested(projections[i], e)
    ensures RowsOf(Project(projections, s, store, [e]), projections[i].name)
         == ProjectRow(projections[i], s, RowsOf(store, projections[i].name), e)
    decreases |projections|
  {
    hide ProjectRow, Interested;
    var q, rest := projections[0], projections[1..];
    OneEvent(q, s, store, e);
    var after := ProjectEvents(q, s, store, [e]);
    forall k | 0 <= k < |rest| ensures rest[k].name != q.name { assert projections[0].name != projections[k + 1].name; }
    if i == 0 {
      OthersLeaveRows(rest, s, after, e, q.name);
    } else {
      forall k, l | 0 <= k < l < |rest| ensures rest[k].name != rest[l].name {
        assert projections[k + 1].name != projections[l + 1].name;
      }
      assert projections[i] == rest[i - 1] && RowsOf(after, rest[i - 1].name) == RowsOf(store, rest[i - 1].name);
      OneEventWrites(rest, s, after, e, i - 1);
    }
  }

  lemma {:induction false} NoEventsProject(projections: seq<Projection>, s: ProjectionSource, store: Store)
    ensures Project(projections, s, store, []) == store
  {
    if projections != [] { NoEventsProject(projections[1..], s, store); }
  }

  /** Commits always agree with rebuilds if and only if no projection looks at what it is projected for. */
  lemma IncrementalIsRebuildExactly(projections: seq<Projection>)
    requires DistinctNames(projections)
    ensures (forall whole, first, second, store, a, b ::
               TwoCommitsAreOneRebuild(projections, whole, first, second, store, a, b))
            <==> AllSourceBlind(projections)
  {
    hide Project, ProjectRow, Interested, SourceBlind, DistinctNames;
    if AllSourceBlind(projections) {
      forall whole, first, second, store, a, b
        ensures TwoCommitsAreOneRebuild(projections, whole, first, second, store, a, b)
      {
        IncrementalIsRebuild(projections, whole, first, second, store, a, b);
      }
    }
    if forall whole, first, second, store, a, b ::
         TwoCommitsAreOneRebuild(projections, whole, first, second, store, a, b)
    {
      forall i | 0 <= i < |projections| ensures SourceBlind(projections[i]) {
        AgreementIsBlindness(projections, i);
      }
    }
  }

  lemma AgreementIsBlindness(projections: seq<Projection>, i: nat)
    requires DistinctNames(projections) && i < |projections|
    requires forall whole, first, second, store, a, b ::
               TwoCommitsAreOneRebuild(projections, whole, first, second, store, a, b)
    ensures SourceBlind(projections[i])
  {
    hide Project, ProjectRow, Interested, DistinctNames;
    var q := projections[i];
    forall s: ProjectionSource, t: ProjectionSource, rows: Rows, e: Event | Interested(q, e)
      ensures ProjectRow(q, s, rows, e) == ProjectRow(q, t, rows, e)
    {
      var store := map[q.name := rows];
      assert TwoCommitsAreOneRebuild(projections, s, t, t, store, [e], []);
      assert [e] + [] == [e];
      NoEventsProject(projections, t, Project(projections, t, store, [e]));
      OneEventWrites(projections, s, store, e, i);
      OneEventWrites(projections, t, store, e, i);
    }
  }

  // ------------------------------------------------------------- a projection that looks

  /** Files each event under what it is projected for. */
  function LookingProjection(): Projection {
    Projection("looking", ["Filed"],
               (view: ProjectionView) => Ok(if view.source.OfRebuild? then "rebuild" else "commit"),
               (view: ProjectionView) => Ok(()), [])
  }

  /** Its incremental build and its rebuild differ from the first event on. */
  lemma LookingBreaksRebuild(e: Event, commit: CommitContext)
    requires e.kind == "Filed"
    ensures Project([LookingProjection()], OfCommit(commit), map[], [e])
         != Project([LookingProjection()], OfRebuild([e]), map[], [e])
    ensures !SourceBlind(LookingProjection())
  {
    var q, s, t := LookingProjection(), OfCommit(commit), OfRebuild([e]);
    assert Subscribes(q.subscribe[0], e) && Interested(q, e);
    var committed, rebuilt := ProjectRow(q, s, map[], e), ProjectRow(q, t, map[], e);
    assert "commit" in committed && "commit" !in rebuilt;
    assert !Alike(q, s, t);
    assert DistinctNames([q]) && [q][0] == q;
    OneEventWrites([q], s, map[], e, 0);
    OneEventWrites([q], t, map[], e, 0);
  }
}
