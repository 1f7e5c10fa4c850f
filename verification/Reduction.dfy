// applyEvent as a function of one aggregate's state, the state graph as a fold over the log, and
// reads at a past version (src/core/engine.ts: applyEvent, readStateAtVersion, eventsAtVersion).
module Reduction {
  import opened Domain
  import opened EventSourcing
  import opened Json
  import opened Wrappers

  type States = map<Id, Object>

  function StateOf(states: States, id: Id): Option<Object> {
    if id in states then Some(states[id]) else None
  }

  function Existing(states: States, id: Id): Object {
    if id in states then states[id] else []
  }

  /** Reducers whose selector is the event's type, in declaration order. */
  function ReducersOn(reducers: seq<Reducer>, kind: string): seq<Reducer> {
    if reducers == [] then []
    else (if reducers[0].on == kind then [reducers[0]] else []) + ReducersOn(reducers[1..], kind)
  }

  predicate Replaces(reducers: seq<Reducer>) {
    exists i :: 0 <= i < |reducers| && reducers[i].replaceState
  }

  function RunReducers(reducers: seq<Reducer>, state: Object, e: Event): Result<Object, RuntimeError>
    decreases |reducers|
  {
    if reducers == [] then Ok(state)
    else if reducers[0].step.None? then RunReducers(reducers[1..], state, e)
    else
      var next :- reducers[0].step.value(state, e);
      RunReducers(reducers[1..], next, e)
  }

  function RunFormulas(fields: seq<ComputedField>, state: Object, e: Event): Result<Object, RuntimeError>
    decreases |fields|
  {
    if fields == [] then Ok(state)
    else
      var value :- fields[0].formula(state, e);
      RunFormulas(fields[1..], Set(state, fields[0].name, value), e)
  }

  /** The state reducers start from: the payload for a baseline or a replacing reducer, the
      merged payload for a generic update, otherwise the existing state. */
  function StartingState(reducers: seq<Reducer>, existing: Object, e: Event): Object {
    if e.kind == GENERIC_UPDATE then Spread(existing, e.payload)
    else if e.kind == BASELINE || Replaces(reducers) then e.payload
    else existing
  }

  function Audited(b: Boundary, state: Object, e: Event): Object {
    if b.auditFields && e.kind != BASELINE then
      var actor := match e.actor case None => Null case Some(a) => Str(a);
      Set(Set(state, "updatedAt", Str(e.timestamp)), "updatedBy", actor)
    else state
  }

  function NextState(b: Boundary, existing: Object, e: Event): Result<Object, RuntimeError> {
    var reducers := ReducersOn(b.reducers, e.kind);
    var start := StartingState(reducers, existing, e);
    var reduced :- if e.kind == BASELINE then Ok(start) else RunReducers(reducers, start, e);
    var computed :- RunFormulas(b.computed, reduced, e);
    var next := Audited(b, computed, e);
    var _ :- b.validate(next);
    Ok(next)
  }

  function Apply(b: Boundary, e: Event, states: States): Result<States, RuntimeError> {
    var next :- NextState(b, Existing(states, e.aggregate), e);
    Ok(states[e.aggregate := next])
  }

  /** The state graph a program derives from a log; events of unknown boundaries are skipped. */
  function Fold(p: Program, states: States, log: seq<Event>): Result<States, RuntimeError>
    decreases |log|
  {
    if log == [] then Ok(states)
    else
      match Find(p, log[0].boundary)
      case None => Fold(p, states, log[1..])
      case Some(b) =>
        var next :- Apply(b, log[0], states);
        Fold(p, next, log[1..])
  }

  function FoldOn(p: Program, start: Result<States, RuntimeError>, log: seq<Event>): Result<States, RuntimeError> {
    match start case Ok(states) => Fold(p, states, log) case Err(e) => Err(e)
  }

  lemma {:induction false} FoldAppend(p: Program, states: States, a: seq<Event>, b: seq<Event>)
    ensures Fold(p, states, a + b) == FoldOn(p, Fold(p, states, a), b)
    decreases |a|
  {
    if a == [] {
      assert a + b == b;
    } else {
      assert (a + b)[1..] == a[1..] + b;
      match Find(p, a[0].boundary)
      case None => FoldAppend(p, states, a[1..], b);
      case Some(boundary) =>
        var next := Apply(boundary, a[0], states);
        if next.Ok? { FoldAppend(p, next.value, a[1..], b); }
    }
  }

  lemma FoldOne(p: Program, states: States, e: Event)
    ensures Fold(p, states, [e])
         == (match Find(p, e.boundary) case None => Ok(states) case Some(b) => Apply(b, e, states))
  {
    assert [e][1..] == [];
  }

  // ------------------------------------------------------------- events gain a response

  function Answered(events: seq<Event>, response: Response): (answered: seq<Event>)
    ensures |answered| == |events|
    ensures forall i :: 0 <= i < |events| ==> answered[i] == events[i].(response := Some(response))
  {
    seq(|events|, i requires 0 <= i < |events| => events[i].(response := Some(response)))
  }

  ghost predicate IgnoresResponse<T(!new)>(f: (Object, Event) -> Result<T, RuntimeError>) {
    forall s: Object, e: Event, r: Option<Response> :: f(s, e.(response := r)) == f(s, e)
  }

  /** No reducer or formula reads `event.response`, which only exists once committed. */
  ghost predicate ResponseBlind(p: Program) {
    forall b <- p.boundaries :: BlindBoundary(b)
  }

  ghost predicate BlindBoundary(b: Boundary) {
    && (forall r <- b.reducers :: r.step.Some? ==> IgnoresResponse(r.step.value))
    && (forall c <- b.computed :: IgnoresResponse(c.formula))
  }

  lemma {:induction false} ReducersBlind(reducers: seq<Reducer>, state: Object, e: Event, r: Option<Response>)
    requires forall x <- reducers :: x.step.Some? ==> IgnoresResponse(x.step.value)
    ensures RunReducers(reducers, state, e.(response := r)) == RunReducers(reducers, state, e)
    decreases |reducers|
  {
    if reducers != [] {
      var x := reducers[0];
      if x.step.None? {
        ReducersBlind(reducers[1..], state, e, r);
      } else {
        assert IgnoresResponse(x.step.value);
        assert x.step.value(state, e.(response := r)) == x.step.value(state, e);
        var next := x.step.value(state, e);
        if next.Ok? { ReducersBlind(reducers[1..], next.value, e, r); }
      }
    }
  }

  lemma {:induction false} FormulasBlind(fields: seq<ComputedField>, state: Object, e: Event, r: Option<Response>)
    requires forall c <- fields :: IgnoresResponse(c.formula)
    ensures RunFormulas(fields, state, e.(response := r)) == RunFormulas(fields, state, e)
    decreases |fields|
  {
    if fields != [] {
      assert IgnoresResponse(fields[0].formula);
      assert fields[0].formula(state, e.(response := r)) == fields[0].formula(state, e);
      var value := fields[0].formula(state, e);
      if value.Ok? { FormulasBlind(fields[1..], Set(state, fields[0].name, value.value), e, r); }
    }
  }

  lemma {:induction false} ReducersOnAreDeclared(reducers: seq<Reducer>, kind: string)
    ensures forall r <- ReducersOn(reducers, kind) :: r in reducers
  {
    if reducers != [] { ReducersOnAreDeclared(reducers[1..], kind); }
  }

  lemma NextStateBlind(b: Boundary, existing: Object, e: Event, r: Option<Response>)
    requires BlindBoundary(b)
    ensures NextState(b, existing, e.(response := r)) == NextState(b, existing, e)
  {
    var reducers := ReducersOn(b.reducers, e.kind);
    ReducersOnAreDeclared(b.reducers, e.kind);
    var start := StartingState(reducers, existing, e);
    ReducersBlind(reducers, start, e, r);
    var reduced := if e.kind == BASELINE then Ok(start) else RunReducers(reducers, start, e);
    if reduced.Ok? { FormulasBlind(b.computed, reduced.value, e, r); }
  }

  lemma {:induction false} FoldBlind(p: Program, states: States, events: seq<Event>, response: Response)
    requires ResponseBlind(p)
    ensures Fold(p, states, Answered(events, response)) == Fold(p, states, events)
    decreases |events|
  {
    if events != [] {
      assert Answered(events, response)[1..] == Answered(events[1..], response);
      match Find(p, events[0].boundary)
      case None => FoldBlind(p, states, events[1..], response);
      case Some(b) =>
        NextStateBlind(b, Existing(states, events[0].aggregate), events[0], Some(response));
        var next := Apply(b, events[0], states);
        if next.Ok? { FoldBlind(p, next.value, events[1..], response); }
    }
  }

  lemma {:induction false} EventsOfAnswered(events: seq<Event>, response: Response, id: Id)
    ensures EventsOf(Answered(events, response), id) == Answered(EventsOf(events, id), response)
    decreases |events|
  {
    if events != [] {
      var n := |events| - 1;
      assert Answered(events, response)[..n] == Answered(events[..n], response);
      EventsOfAnswered(events[..n], response, id);
    }
  }

  // ------------------------------------------------------------- aggregates are independent

  predicate AgreeOn(a: States, b: States, id: Id) {
    StateOf(a, id) == StateOf(b, id)
  }

  lemma ApplyIsLocal(b: Boundary, e: Event, s: States, r: States, id: Id)
    requires AgreeOn(s, r, id) && Apply(b, e, s).Ok?
    ensures e.aggregate == id ==> Apply(b, e, r).Ok? && AgreeOn(Apply(b, e, s).value, Apply(b, e, r).value, id)
    ensures e.aggregate != id ==> AgreeOn(Apply(b, e, s).value, r, id)
  {
    hide NextState;
    if e.aggregate == id {
      assert Existing(s, id) == Existing(r, id);
    }
  }

  /** Folding a log and folding only one aggregate's events give that aggregate the same state. */
  lemma {:induction false} FoldIsLocal(p: Program, s: States, r: States, log: seq<Event>, id: Id)
    requires AgreeOn(s, r, id) && Fold(p, s, log).Ok?
    ensures Fold(p, r, EventsOf(log, id)).Ok?
    ensures AgreeOn(Fold(p, s, log).value, Fold(p, r, EventsOf(log, id)).value, id)
    decreases |log|
  {
    hide Apply, Find;
    if log != [] {
      var init, last := log[..|log| - 1], log[|log| - 1];
      assert log == init + [last];
      FoldAppend(p, s, init, [last]);
      FoldIsLocal(p, s, r, init, id);
      FoldAppend(p, r, EventsOf(init, id), [last]);
      var before, own := Fold(p, s, init).value, Fold(p, r, EventsOf(init, id)).value;
      FoldOne(p, before, last);
      FoldOne(p, own, last);
      assert EventsOf(init, id) + [] == EventsOf(init, id);
      var b := Find(p, last.boundary);
      if b.Some? { ApplyIsLocal(b.value, last, before, own, id); }
    }
  }

  // ------------------------------------------------------------- reads at a past version

  function OwnedEvents(p: Program, log: seq<Event>, id: Id): seq<Event> {
    SelectFrom(log, (e: Event) => e.aggregate == id && Find(p, e.boundary).Some?)
  }

  function ScopedEvents(p: Program, b: Boundary, log: seq<Event>, id: Id): seq<Event> {
    var owned := OwnedEvents(p, log, id);
    if owned == [] then SelectFrom(log, (e: Event) => e.aggregate == id && e.boundary == b.name) else owned
  }

  /** Replay of a history through each event's owning boundary, falling back to the reader's. */
  function FoldOwned(p: Program, b: Boundary, states: States, log: seq<Event>): Result<States, RuntimeError>
    decreases |log|
  {
    if log == [] then Ok(states)
    else
      var owner := match Find(p, log[0].boundary) case None => b case Some(o) => o;
      var next :- Apply(owner, log[0], states);
      FoldOwned(p, b, next, log[1..])
  }

  function ReadStateAtVersion(p: Program, b: Boundary, log: seq<Event>, id: Id, version: int)
    : Result<Option<Object>, RuntimeError>
  {
    var history :- HistoryThrough(ScopedEvents(p, b, log, id), id, version);
    if history == [] then Ok(None)
    else
      var states :- FoldOwned(p, b, map[], history);
      Ok(StateOf(states, id))
  }

  /** No event of this aggregate belongs to an unknown boundary (a saga log, a removed boundary). */
  ghost predicate FullyOwned(p: Program, log: seq<Event>, id: Id) {
    forall e <- log :: e.aggregate == id ==> Find(p, e.boundary).Some?
  }

  lemma {:induction false} OwnedAreAll(p: Program, log: seq<Event>, id: Id)
    requires FullyOwned(p, log, id)
    ensures OwnedEvents(p, log, id) == EventsOf(log, id)
    decreases |log|
  {
    if log != [] {
      var init, last := log[..|log| - 1], log[|log| - 1];
      assert log == init + [last];
      OwnedAreAll(p, init, id);
      SelectAppend(init, [last], (e: Event) => e.aggregate == id && Find(p, e.boundary).Some?);
      assert SelectFrom([last], (e: Event) => e.aggregate == id && Find(p, e.boundary).Some?)
          == (if last.aggregate == id then [last] else []) + [];
    }
  }

  lemma {:induction false} NoneOwnedNoneScoped(p: Program, b: Boundary, log: seq<Event>, id: Id)
    requires FullyOwned(p, log, id) && EventsOf(log, id) == []
    ensures SelectFrom(log, (e: Event) => e.aggregate == id && e.boundary == b.name) == []
    decreases |log|
  {
    if log != [] {
      var init, last := log[..|log| - 1], log[|log| - 1];
      assert log == init + [last];
      NoneOwnedNoneScoped(p, b, init, id);
      SelectAppend(init, [last], (e: Event) => e.aggregate == id && e.boundary == b.name);
      assert SelectFrom([last], (e: Event) => e.aggregate == id && e.boundary == b.name) == [] + [];
    }
  }

  lemma ScopedAreOwn(p: Program, b: Boundary, log: seq<Event>, id: Id)
    requires FullyOwned(p, log, id)
    ensures ScopedEvents(p, b, log, id) == EventsOf(log, id)
  {
    OwnedAreAll(p, log, id);
    if EventsOf(log, id) == [] { NoneOwnedNoneScoped(p, b, log, id); }
  }

  lemma {:induction false} FoldOwnedIsFold(p: Program, b: Boundary, states: States, log: seq<Event>)
    requires forall e <- log :: Find(p, e.boundary).Some?
    ensures FoldOwned(p, b, states, log) == Fold(p, states, log)
    decreases |log|
  {
    if log != [] {
      var owner := Find(p, log[0].boundary).value;
      var next := Apply(owner, log[0], states);
      if next.Ok? { FoldOwnedIsFold(p, b, next.value, log[1..]); }
    }
  }

  lemma {:induction false} EventsOfOwnAggregate(events: seq<Event>, id: Id)
    requires forall e <- events :: e.aggregate == id
    ensures EventsOf(events, id) == events
    decreases |events|
  {
    if events != [] {
      EventsOfOwnAggregate(events[..|events| - 1], id);
      assert events == events[..|events| - 1] + [events[|events| - 1]];
    }
  }

  lemma ExactHistory(log: seq<Event>, id: Id)
    requires ExactVersions(log)
    ensures ExactVersions(EventsOf(log, id)) && EventsOf(EventsOf(log, id), id) == EventsOf(log, id)
  {
    var own := EventsOf(log, id);
    VersionsCountUp(log, id);
    EventsOfOwnAggregate(own, id);
    forall k | 0 <= k < |own| ensures VersionExactAt(own, k) {
      EventsOfOwnAggregate(own[..k], id);
    }
  }

  lemma FoldPrefixOk(p: Program, states: States, log: seq<Event>, k: nat)
    requires k <= |log| && Fold(p, states, log).Ok?
    ensures Fold(p, states, log[..k]).Ok?
  {
    assert log == log[..k] + log[k..];
    FoldAppend(p, states, log[..k], log[k..]);
  }

  /** Reading an aggregate at version v folds exactly its first v events, and never fails. */
  lemma ReadIsPrefixFold(p: Program, b: Boundary, log: seq<Event>, id: Id, version: int)
    requires ExactVersions(log) && FullyOwned(p, log, id) && Fold(p, map[], log).Ok? && version >= 0
    ensures var first := Shorter(version, EventsOf(log, id));
            && Fold(p, map[], first).Ok?
            && ReadStateAtVersion(p, b, log, id, version) == Ok(StateOf(Fold(p, map[], first).value, id))
  {
    hide Apply, Find, HistoryThrough, ScopedEvents, ExactVersions, EventsOf, Fold, FoldOwned;
    var own := EventsOf(log, id);
    var k := if version < |own| then version else |own|;
    assert Shorter(version, own) == own[..k];
    assert ScopedEvents(p, b, log, id) == own by { ScopedAreOwn(p, b, log, id); }
    assert HistoryThrough(own, id, version) == Ok(own[..k]) by {
      ExactHistory(log, id);
      HistoryIsPrefix(own, id, version);
    }
    assert Fold(p, map[], own[..k]).Ok? by {
      FoldIsLocal(p, map[], map[], log, id);
      FoldPrefixOk(p, map[], own, k);
    }
    assert FoldOwned(p, b, map[], own[..k]) == Fold(p, map[], own[..k]) by {
      EventsOfAreMembers(log, id);
      FoldOwnedIsFold(p, b, map[], own[..k]);
    }
    if own[..k] == [] { FoldNone(p, map[]); }
  }

  lemma FoldNone(p: Program, states: States)
    ensures Fold(p, states, []) == Ok(states)
  {}

  /** Time travel: reading at the version an aggregate had at an earlier moment returns the state
      it had at that moment, however many events were logged since. */
  lemma TimeTravel(p: Program, b: Boundary, past: seq<Event>, since: seq<Event>, id: Id)
    requires ExactVersions(past + since) && FullyOwned(p, past + since, id)
    requires Fold(p, map[], past + since).Ok?
    ensures Fold(p, map[], past).Ok?
    ensures ReadStateAtVersion(p, b, past + since, id, CurrentVersion(past, id))
         == Ok(StateOf(Fold(p, map[], past).value, id))
  {
    var log, version := past + since, CurrentVersion(past, id);
    ExactPrefix(past, since);
    CurrentVersionIsCount(past, id);
    EventsOfAppend(past, since, id);
    assert Shorter(version, EventsOf(log, id)) == EventsOf(past, id);
    ReadIsPrefixFold(p, b, log, id, version);
    assert log[..|past|] == past;
    FoldPrefixOk(p, map[], log, |past|);
    FoldIsLocal(p, map[], map[], past, id);
  }

  /** Reads at any version reached by an earlier moment give what they gave at that moment. */
  lemma ReadsAreStable(p: Program, b: Boundary, past: seq<Event>, since: seq<Event>, id: Id, version: int)
    requires ExactVersions(past + since) && FullyOwned(p, past + since, id)
    requires Fold(p, map[], past + since).Ok? && 0 <= version <= CurrentVersion(past, id)
    ensures ReadStateAtVersion(p, b, past + since, id, version) == ReadStateAtVersion(p, b, past, id, version)
  {
    hide ReadStateAtVersion, Fold, EventsOf, ExactVersions, Find, CurrentVersion;
    var log := past + since;
    ExactPrefix(past, since);
    CurrentVersionIsCount(past, id);
    EventsOfAppend(past, since, id);
    assert Shorter(version, EventsOf(log, id)) == Shorter(version, EventsOf(past, id));
    assert log[..|past|] == past;
    FoldPrefixOk(p, map[], log, |past|);
    assert FullyOwned(p, past, id) by {
      forall e <- past ensures e.aggregate == id ==> Find(p, e.boundary).Some? { assert e in log; }
    }
    ReadIsPrefixFold(p, b, log, id, version);
    ReadIsPrefixFold(p, b, past, id, version);
  }

  /** At or above the current version a read returns the live state. */
  lemma ReadAtOrAboveCurrentIsLive(p: Program, b: Boundary, log: seq<Event>, id: Id, version: int)
    requires ExactVersions(log) && FullyOwned(p, log, id) && Fold(p, map[], log).Ok?
    requires version >= CurrentVersion(log, id)
    ensures ReadStateAtVersion(p, b, log, id, version) == Ok(StateOf(Fold(p, map[], log).value, id))
  {
    CurrentVersionIsCount(log, id);
    assert Shorter(version, EventsOf(log, id)) == EventsOf(log, id);
    ReadIsPrefixFold(p, b, log, id, version);
    FoldIsLocal(p, map[], map[], log, id);
  }
}
