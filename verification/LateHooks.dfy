// A batch that succeeds although its items one by one fail: post-commit hooks run once all items did,
// and see the state the last one left (src/core/engine.ts: executeBatch, runPostCommit).
module LateHooks {
  import opened Batches
  import opened Domain
  import opened EventSourcing
  import opened Examples
  import opened Json
  import opened Reduction
  import opened Runtime
  import opened Wrappers

  const OVERDRAWN := RuntimeError(500, "negative balance")

  function Balance(overdrawn: bool): Object {
    [Field("balance", Num(if overdrawn then -10.0 else 10.0))]
  }

  predicate Negative(state: Option<Object>) {
    match state
    case None => false
    case Some(fields) => match Get(fields, "balance") case Some(Num(n)) => n < 0.0 case _ => false
  }

  /** Each "Swung" event takes a balance of 10 to -10 and any other to 10; the post-commit hook throws
      when it sees a negative balance. */
  function SwingingProgram(): Program {
    var swing := (state: Object, e: Event) => Ok(Balance(state == Balance(false)));
    Accepting(SeededBoundary("Swung", [Reducer("Swung", false, Some(swing))])).(
      onPostCommit := (commit: CommitContext) => if Negative(commit.state) then Err(OVERDRAWN) else Ok(()))
  }

  function Swing(): Request {
    ReplaySeed("Swung", None)
  }

  /** The balance at a moment between swings. */
  ghost predicate Swinging(w: World, overdrawn: bool) {
    && w.program == SwingingProgram() && w.ready && w.log != [] && w.log[0] == SeededEvent("Swung")
    && ExactVersions(w.log) && StateOf(w.states, "x") == Some(Balance(overdrawn))
  }

  lemma SwingReissues(w: World, overdrawn: bool)
    requires Swinging(w, overdrawn)
    ensures var b := w.program.boundaries[0];
            var reissued := Reissue(w, b, SeededEvent("Swung"), ReplayRequest(Swing(), b, SeededEvent("Swung")));
            && reissued.Ok? && ExactVersions(w.log + [reissued.value.0])
            && StateOf(reissued.value.1, "x") == Some(Balance(!overdrawn))
  {
    hide CurrentVersion, ExactVersions, NextVersion;
    var b := w.program.boundaries[0];
    var replay := ReplayRequest(Swing(), b, SeededEvent("Swung"));
    assert w.log + [] == w.log;
    NextVersionContinues(w.log, [], "x");
    var version := NextVersion(CurrentVersion(w.log, "x"), [], "x").value;
    var replayed := Replayed(SeededEvent("Swung"), replay, version);
    SwingApplies(w.states, replayed, overdrawn);
    ExactAppendOne(w.log, Reissue(w, b, SeededEvent("Swung"), replay).value.0);
  }

  lemma SwingApplies(states: States, e: Event, overdrawn: bool)
    requires e.kind == "Swung" && e.aggregate == "x"
    requires Existing(states, "x") == (if "x" in states then Balance(overdrawn) else [])
    ensures var after := Apply(SwingingProgram().boundaries[0], e, states);
            after == Ok(states["x" := Balance("x" in states && !overdrawn)])
  {
    var b := SwingingProgram().boundaries[0];
    var reducers := b.reducers;
    assert reducers[1..] == [];
    assert ReducersOn(reducers, "Swung") == reducers + [] == reducers;
    assert !Reduction.Replaces(reducers);
    assert Balance(true)[0].value == Num(-10.0) && Balance(false)[0].value == Num(10.0);
  }

  /** A swing gets to its commit, in or out of a batch, and its callbacks see the new balance. */
  lemma SwingStages(w: World, overdrawn: bool)
    requires Swinging(w, overdrawn)
    ensures var stage := StageRequest(w, Swing());
            && stage.Staged? && stage.key.None? && stage.post.request.command.target == Some("x")
            && stage.post.request.effects == Swing().effects
            && stage.world.batch == w.batch && Swinging(stage.world, !overdrawn)
  {
    hide ExactVersions, ClaimAll, Reissue;
    SwingReissues(w, overdrawn);
  }

  lemma SwingDefers(w: World, overdrawn: bool)
    requires Swinging(w, overdrawn) && w.batch.Some?
    ensures var (w', outcome) := Execute(w, Swing());
            && outcome.Ok? && Swinging(w', !overdrawn) && w'.batch.Some?
            && exists post :: Deferred(w') == Deferred(w) + [post] && OnX(post)
  {
    hide StageRequest, ExactVersions;
    SwingStages(w, overdrawn);
    var post := StageRequest(w, Swing()).post;
    assert Deferred(Execute(w, Swing()).0) == Deferred(w) + [post] && OnX(post);
  }

  predicate OnX(post: PostCommit) {
    post.request.command.target == Some("x") && post.request.effects == Swing().effects
  }

  lemma SwingThrows(w: World)
    requires Swinging(w, false) && w.batch.None?
    ensures Execute(w, Swing()).1 == Err(OVERDRAWN)
  {
    hide StageRequest, ExactVersions;
    SwingStages(w, false);
  }

  lemma StartsPositive()
    ensures var w := Boot(SwingingProgram()); Swinging(w, false) && w.batch.None?
  {
    hide Apply;
    var p := SwingingProgram();
    var e := SeededEvent("Swung");
    SwingApplies(map[], e, false);
    assert Baselines(p.boundaries) == [e] by { assert p.boundaries[1..] == []; }
    FoldOne(p, map[], e);
  }

  /** A swing's post-commit work, at a moment with a positive balance, does not throw. */
  lemma PositiveSucceeds(w: World, post: PostCommit)
    requires Swinging(w, false) && OnX(post)
    ensures PostSucceeds(w.program, ContextOf(w, post))
  {}

  lemma NoneDeclared(p: Program, commits: seq<CommitContext>)
    requires p.sagas == []
    ensures NoSagas(p, commits)
  {}

  /** In an open batch two swings succeed and leave the balance positive. */
  lemma TwoSwings(w: World)
    requires Swinging(w, false) && w.batch.Some? && Deferred(w) == []
    ensures var (ran, results) := RunItems(w, [Swing(), Swing()]);
            var atEnd := AtEnd(w, [Swing(), Swing()]);
            results.Ok? && ran.program == w.program && AllSucceed(w.program, atEnd)
  {
    hide Execute, StageRequest, Swinging, PostSucceeds, OnX;
    assert [Swing(), Swing()][1..] == [Swing()] && [Swing()][1..] == [];
    SwingDefers(w, false);
    var w1 := Execute(w, Swing()).0;
    var first :| Deferred(w1) == Deferred(w) + [first] && OnX(first);
    SwingDefers(w1, true);
    var w2 := Execute(w1, Swing()).0;
    var second :| Deferred(w2) == Deferred(w1) + [second] && OnX(second);
    SwingProgram(w, false);
    SwingProgram(w2, false);
    PositiveSucceeds(w2, first);
    PositiveSucceeds(w2, second);
    assert RunItems(w, [Swing(), Swing()]).0 == w2;
    assert Deferred(w2) == [first, second];
  }

  lemma SwingProgram(w: World, overdrawn: bool)
    requires Swinging(w, overdrawn)
    ensures w.program == SwingingProgram()
  {}

  lemma Unkeyed(p: Program, req: Request)
    requires p.idempotency.None?
    ensures SeesFreshEntries(p, req)
  {}

  /** Down and up again: one by one the first swing's hook sees the negative balance and throws, in a
      batch both hooks see the positive one and both commit. */
  lemma BatchHidesOverdraft()
    ensures var w, swings := Boot(SwingingProgram()), [Swing(), Swing()];
            && RunItems(w, swings).1 == Err(OVERDRAWN) && ExecuteTransactional(w, swings).1.Ok?
            && NoMoreCommits(w, swings) && !RunsAsItems(w, swings) && !MomentsAgree(w, swings)
  {
    hide RunItems, Swinging, ExecuteTransactional, InTurn, AtEnd, MomentsAgree, NoSagas, AllSucceed, Boot,
         SeesFreshEntries;
    var w, swings := Boot(SwingingProgram()), [Swing(), Swing()];
    var p := SwingingProgram();
    StartsPositive();
    SwingProgram(w, false);
    FirstThrows(w);
    BegunSwings(w);
    TwoSwings(Begun(w));
    NoneDeclared(p, InTurn(Begun(w), swings));
    NoneDeclared(p, AtEnd(Begun(w), swings));
    Unkeyed(p, Swing());
    EmptyBatchSettles(w);
    AllItemsAgree(Begun(w), swings, w.projections);
    TransactionalOutcome(w, swings);
    BatchIsSequentialExactly(w, swings);
  }

  lemma FirstThrows(w: World)
    requires Swinging(w, false) && w.batch.None?
    ensures RunItems(w, [Swing(), Swing()]).1 == Err(OVERDRAWN)
  {
    hide Execute, Swinging;
    SwingThrows(w);
  }

  lemma BegunSwings(w: World)
    requires Swinging(w, false)
    ensures Swinging(Begun(w), false) && Deferred(Begun(w)) == [] && Begun(w).batch.Some?
            && Begun(w).program == w.program
    ensures w.program.admitBatch([Swing(), Swing()]).Ok?
  {
    hide ExactVersions;
  }
}
