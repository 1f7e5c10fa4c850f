// The cascade queue of runCommands: termination with an explicit bound on the work done
// (src/core/engine.ts: runCommands).
module Cascade {
  import opened Arithmetic
  import opened Domain
  import opened Reduction
  import opened Transactions
  import opened Wrappers

  function WidestBehavior(behaviors: seq<Behavior>): (n: nat)
    ensures forall x <- behaviors :: |x.dispatches| <= n
  {
    if behaviors == [] then 0
    else
      var rest := WidestBehavior(behaviors[1..]);
      if |behaviors[0].dispatches| > rest then |behaviors[0].dispatches| else rest
  }

  function WidestBoundary(boundaries: seq<Boundary>): (n: nat)
    ensures forall b <- boundaries :: forall x <- b.behaviors :: |x.dispatches| <= n
  {
    if boundaries == [] then 0
    else
      var first, rest := WidestBehavior(boundaries[0].behaviors), WidestBoundary(boundaries[1..]);
      if first > rest then first else rest
  }

  /** The most commands any one behavior of the program can dispatch. */
  function Branching(p: Program): nat {
    WidestBoundary(p.boundaries)
  }

  /** Commands one command can cause, itself included, with `left` levels of depth to go. */
  function Cost(branching: nat, left: int): nat
    decreases if left < 0 then 0 else left + 1
  {
    if left < 0 then 0 else 1 + branching * Cost(branching, left - 1)
  }

  function QueueCost(branching: nat, limit: int, queue: seq<Request>): nat {
    if queue == [] then 0
    else Cost(branching, limit - queue[0].command.depth) + QueueCost(branching, limit, queue[1..])
  }

  lemma {:induction false} QueueCostAppend(branching: nat, limit: int, a: seq<Request>, b: seq<Request>)
    ensures QueueCost(branching, limit, a + b) == QueueCost(branching, limit, a) + QueueCost(branching, limit, b)
  {
    if a == [] {
      assert a + b == b;
    } else {
      assert (a + b)[1..] == a[1..] + b;
      QueueCostAppend(branching, limit, a[1..], b);
    }
  }

  lemma {:induction false} LevelCost(branching: nat, limit: int, queue: seq<Request>, depth: int)
    requires forall i :: 0 <= i < |queue| ==> queue[i].command.depth == depth
    ensures QueueCost(branching, limit, queue) == |queue| * Cost(branching, limit - depth)
  {
    if queue != [] {
      LevelCost(branching, limit, queue[1..], depth);
      var cost := Cost(branching, limit - depth);
      assert |queue| * cost == cost + (|queue| - 1) * cost;
    }
  }

  lemma FoundBehaviorIsDeclared(behaviors: seq<Behavior>, ctx: Context)
    requires FindBehavior(behaviors, ctx).Some?
    ensures FindBehavior(behaviors, ctx).value in behaviors
  {
    if !behaviors[0].matches(ctx) { FoundBehaviorIsDeclared(behaviors[1..], ctx); }
  }

  /** One item dispatches at most `Branching` commands, all one level deeper. */
  lemma HandleDispatches(p: Program, log: seq<Event>, req: Request, tx: Tx)
    requires Handle(p, log, req, tx).Ok?
    ensures var out := Handle(p, log, req, tx).value;
            && |out.dispatched| <= Branching(p)
            && forall i :: 0 <= i < |out.dispatched| ==> out.dispatched[i].command.depth == req.command.depth + 1
  {
    hide Emit, EmitAll, CreateEvent;
    var b := Find(p, req.command.boundary).value;
    var ctx := Context(req, CurrentState(req, tx.states));
    if FindBehavior(b.behaviors, ctx).Some? {
      FoundBehaviorIsDeclared(b.behaviors, ctx);
      assert b in p.boundaries;
    }
  }

  /** Replacing the head by what it dispatched strictly lowers the queue's cost. */
  lemma HandlingLowersCost(p: Program, log: seq<Event>, queue: seq<Request>, limit: int, tx: Tx)
    requires queue != [] && queue[0].command.depth <= limit && Handle(p, log, queue[0], tx).Ok?
    ensures QueueCost(Branching(p), limit, queue[1..] + Handle(p, log, queue[0], tx).value.dispatched)
         <= QueueCost(Branching(p), limit, queue) - 1
  {
    hide Handle, Branching;
    var branching, depth := Branching(p), queue[0].command.depth;
    var dispatched := Handle(p, log, queue[0], tx).value.dispatched;
    HandleDispatches(p, log, queue[0], tx);
    QueueCostAppend(branching, limit, queue[1..], dispatched);
    LevelCost(branching, limit, dispatched, depth + 1);
    MultiplyMonotone(|dispatched|, branching, Cost(branching, limit - depth - 1));
  }

  function First(sofar: Option<Response>, next: Response): Option<Response> {
    if sofar.None? then Some(next) else sofar
  }

  /** The work queue: items are handled in order, dispatched commands join the end. */
  function RunQueue(p: Program, log: seq<Event>, queue: seq<Request>, limit: int, tx: Tx, first: Option<Response>)
    : (result: Result<(Tx, Option<Response>), RuntimeError>)
    decreases QueueCost(Branching(p), limit, queue)
  {
    if queue == [] then Ok((tx, first))
    else if queue[0].command.depth > limit then Err(CASCADE_EXCEEDED)
    else
      var out :- Handle(p, log, queue[0], tx);
      HandlingLowersCost(p, log, queue, limit, tx);
      RunQueue(p, log, queue[1..] + out.dispatched, limit, out.tx.(handled := out.tx.handled + 1),
               First(first, out.response))
  }

  function DepthLimit(req: Request): int {
    match req.controls.maxCascadeDepth case Some(n) => n case None => MAX_DEPTH
  }

  function RunCommands(p: Program, log: seq<Event>, req: Request, tx: Tx)
    : Result<(Tx, Option<Response>), RuntimeError>
  {
    if 0 > DepthLimit(req) then Err(CASCADE_EXCEEDED)
    else RunQueue(p, log, [req], DepthLimit(req), tx, None)
  }

  // ------------------------------------------------------------- the bound

  lemma {:induction false} ReactKeepsCounts(p: Program, log: seq<Event>, pending: seq<Reaction>, event: Event,
                                            source: Request, tx: Tx)
    requires React(p, log, pending, event, source, tx).Ok?
    ensures React(p, log, pending, event, source, tx).value.handled == tx.handled
    decreases MAX_REACTION_EVENTS - tx.reactionEvents, |pending|
  {
    hide FireReaction, MatchingReactions;
    if pending != [] {
      match FireReaction(p, log, pending[0], event, source, tx).value
      case Skipped(tx1) => ReactKeepsCounts(p, log, pending[1..], event, source, tx1);
      case Fired(tx1, next, cause) =>
        ReactKeepsCounts(p, log, MatchingReactions(p, next), next, cause, tx1);
        var tx2 := React(p, log, MatchingReactions(p, next), next, cause, tx1).value;
        ReactKeepsCounts(p, log, pending[1..], event, source, tx2);
    }
  }

  lemma {:induction false} EmitAllKeepsHandled(p: Program, log: seq<Event>, b: Boundary, kinds: seq<string>,
                                               ctx: Context, tx: Tx)
    requires EmitAll(p, log, b, kinds, ctx, tx).Ok?
    ensures EmitAll(p, log, b, kinds, ctx, tx).value.handled == tx.handled
    decreases |kinds|
  {
    hide Emit;
    if kinds != [] {
      EmitKeepsHandled(p, log, b, kinds[0], ctx, tx);
      EmitAllKeepsHandled(p, log, b, kinds[1..], ctx, Emit(p, log, b, kinds[0], ctx, tx).value);
    }
  }

  lemma EmitKeepsHandled(p: Program, log: seq<Event>, b: Boundary, kind: string, ctx: Context, tx: Tx)
    requires Emit(p, log, b, kind, ctx, tx).Ok?
    ensures Emit(p, log, b, kind, ctx, tx).value.handled == tx.handled
  {
    hide CreateEvent, MatchingReactions, Apply, React;
    var event := CreateEvent(p, log, b, kind, ctx, tx, None).value;
    var recorded := Record(b, event, tx).value;
    if !ctx.request.effects.skipReactions {
      ReactKeepsCounts(p, log, MatchingReactions(p, event), event, ctx.request,
                       recorded.(direct := recorded.direct + 1));
    }
  }

  lemma HandleKeepsHandled(p: Program, log: seq<Event>, req: Request, tx: Tx)
    requires Handle(p, log, req, tx).Ok?
    ensures Handle(p, log, req, tx).value.tx.handled == tx.handled
  {
    hide Emit, CreateEvent;
    var b := Find(p, req.command.boundary).value;
    var ctx := Context(req, CurrentState(req, tx.states));
    match FindBehavior(b.behaviors, ctx)
    case None => EmitKeepsHandled(p, log, b, GENERIC_UPDATE, ctx, tx);
    case Some(behavior) => EmitAllKeepsHandled(p, log, b, behavior.emits(ctx).value, ctx, tx);
  }

  /** The queue items whose handling begins, until the queue is empty, an item is too deep or one
      throws. */
  function ItemsBegun(p: Program, log: seq<Event>, queue: seq<Request>, limit: int, tx: Tx): nat
    decreases QueueCost(Branching(p), limit, queue)
  {
    if queue == [] || queue[0].command.depth > limit then 0
    else
      match Handle(p, log, queue[0], tx)
      case Err(_) => 1
      case Ok(out) =>
        HandlingLowersCost(p, log, queue, limit, tx);
        1 + ItemsBegun(p, log, queue[1..] + out.dispatched, limit, out.tx.(handled := out.tx.handled + 1))
  }

  function CommandsBegun(p: Program, log: seq<Event>, req: Request, tx: Tx): nat {
    if 0 > DepthLimit(req) then 0 else ItemsBegun(p, log, [req], DepthLimit(req), tx)
  }

  lemma {:induction false} BegunWithinCost(p: Program, log: seq<Event>, queue: seq<Request>, limit: int, tx: Tx)
    ensures ItemsBegun(p, log, queue, limit, tx) <= QueueCost(Branching(p), limit, queue)
    decreases QueueCost(Branching(p), limit, queue)
  {
    hide Handle, Branching;
    if queue != [] && queue[0].command.depth <= limit {
      CostIsPositive(Branching(p), limit - queue[0].command.depth);
      var handled := Handle(p, log, queue[0], tx);
      if handled.Ok? {
        var out := handled.value;
        HandlingLowersCost(p, log, queue, limit, tx);
        BegunWithinCost(p, log, queue[1..] + out.dispatched, limit, out.tx.(handled := out.tx.handled + 1));
      }
    }
  }

  lemma CostIsPositive(branching: nat, left: int)
    requires left >= 0
    ensures Cost(branching, left) >= 1
  {}

  /** A cascade that does not throw handles every item it begins. */
  lemma {:induction false} BegunAreHandled(p: Program, log: seq<Event>, queue: seq<Request>, limit: int, tx: Tx,
                                           first: Option<Response>)
    requires RunQueue(p, log, queue, limit, tx, first).Ok?
    ensures RunQueue(p, log, queue, limit, tx, first).value.0.handled
         == tx.handled + ItemsBegun(p, log, queue, limit, tx)
    decreases QueueCost(Branching(p), limit, queue)
  {
    hide Handle;
    if queue != [] {
      var out := Handle(p, log, queue[0], tx).value;
      HandlingLowersCost(p, log, queue, limit, tx);
      HandleKeepsHandled(p, log, queue[0], tx);
      BegunAreHandled(p, log, queue[1..] + out.dispatched, limit, out.tx.(handled := out.tx.handled + 1),
                      First(first, out.response));
    }
  }

  function Power(base: nat, n: nat): nat {
    if n == 0 then 1 else base * Power(base, n - 1)
  }

  /** 1 + B + ... + B^n. */
  function GeometricSum(base: nat, n: nat): nat {
    if n == 0 then 1 else GeometricSum(base, n - 1) + Power(base, n)
  }

  lemma {:induction false} HornerIsGeometric(base: nat, n: nat)
    ensures 1 + base * GeometricSum(base, n) == GeometricSum(base, n + 1)
  {
    if n > 0 {
      HornerIsGeometric(base, n - 1);
      assert base * (GeometricSum(base, n - 1) + Power(base, n))
          == base * GeometricSum(base, n - 1) + base * Power(base, n);
    } else {
      assert Power(base, 1) == base * Power(base, 0);
      assert GeometricSum(base, 1) == GeometricSum(base, 0) + Power(base, 1);
    }
  }

  lemma {:induction false} CostIsGeometric(base: nat, n: nat)
    ensures Cost(base, n) == GeometricSum(base, n)
  {
    if n > 0 {
      CostIsGeometric(base, n - 1);
      HornerIsGeometric(base, n - 1);
    } else {
      assert Cost(base, -1) == 0;
    }
  }

  /** A cascade started at depth d, however it ends, begins to handle at most 1 + B + ... + B^(limit-d)
      commands; one started beyond the limit begins none and is refused. One that does not throw
      handles all it begins. */
  lemma CascadeBound(p: Program, log: seq<Event>, req: Request, tx: Tx)
    ensures req.command.depth <= DepthLimit(req) ==>
              1 <= CommandsBegun(p, log, req, tx) <= GeometricSum(Branching(p), DepthLimit(req) - req.command.depth)
    ensures req.command.depth > DepthLimit(req) ==>
              CommandsBegun(p, log, req, tx) == 0 && RunCommands(p, log, req, tx) == Err(CASCADE_EXCEEDED)
    ensures RunCommands(p, log, req, tx).Ok? ==>
              RunCommands(p, log, req, tx).value.0.handled == tx.handled + CommandsBegun(p, log, req, tx)
  {
    hide Handle;
    var limit, queue := DepthLimit(req), [req];
    BegunWithinCost(p, log, queue, limit, tx);
    if req.command.depth <= limit {
      var left := limit - req.command.depth;
      assert queue[1..] == [];
      assert QueueCost(Branching(p), limit, queue) == Cost(Branching(p), left) + QueueCost(Branching(p), limit, []);
      CostIsGeometric(Branching(p), left);
    }
    if RunCommands(p, log, req, tx).Ok? { BegunAreHandled(p, log, queue, limit, tx, None); }
  }

  lemma {:induction false} QueueOnlyAdds(p: Program, log: seq<Event>, queue: seq<Request>, limit: int, tx: Tx,
                                         first: Option<Response>)
    requires RunQueue(p, log, queue, limit, tx, first).Ok?
    ensures RunQueue(p, log, queue, limit, tx, first).value.0.handled >= tx.handled + |queue|
    ensures first.Some? ==> RunQueue(p, log, queue, limit, tx, first).value.1 == first
    decreases QueueCost(Branching(p), limit, queue)
  {
    hide Handle;
    if queue != [] {
      var out := Handle(p, log, queue[0], tx).value;
      HandlingLowersCost(p, log, queue, limit, tx);
      HandleKeepsHandled(p, log, queue[0], tx);
      QueueOnlyAdds(p, log, queue[1..] + out.dispatched, limit, out.tx.(handled := out.tx.handled + 1),
                    First(first, out.response));
    }
  }
}
