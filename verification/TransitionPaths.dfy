// The bounded breadth-first search for ways into a state of a boundary's transition machine
// (src/cli/transition-examples.ts: transitionPaths).
module TransitionPaths {
  import opened Arithmetic

  datatype Transition = Transition(op: string, from: string, to: string, nextStateKnown: bool)

  datatype Branch = Branch(state: string, steps: seq<Transition>)

  const LONGEST: nat := 5
  const MOST: nat := 24

  function StateAt(start: string, steps: seq<Transition>, i: nat): string
    requires i <= |steps|
  {
    if i == 0 then start else steps[i - 1].to
  }

  /** The next transition can be taken from a state: known, not excluded, and leading somewhere. */
  predicate Usable(machine: seq<Transition>, excluded: string, state: string, t: Transition) {
    t in machine && t.op != excluded && t.nextStateKnown && t.to != "UNKNOWN" && (t.from == "*" || t.from == state)
  }

  /** A path of usable transitions that never visits a state twice. */
  ghost predicate RepeatFree(machine: seq<Transition>, excluded: string, start: string, steps: seq<Transition>) {
    && (forall i :: 0 <= i < |steps| ==> Usable(machine, excluded, StateAt(start, steps, i), steps[i]))
    && (forall i, j :: 0 <= i < j <= |steps| ==> StateAt(start, steps, i) != StateAt(start, steps, j))
  }

  /** The paths searched for. */
  ghost predicate Wanted(machine: seq<Transition>, excluded: string, start: string, target: string,
                         steps: seq<Transition>)
  {
    && |steps| <= LONGEST
    && StateAt(start, steps, |steps|) == target
    && RepeatFree(machine, excluded, start, steps)
  }

  function Visited(start: string, steps: seq<Transition>): (states: seq<string>)
    ensures |states| == |steps| + 1
    ensures forall i :: 0 <= i <= |steps| ==> states[i] == StateAt(start, steps, i)
  {
    [start] + seq(|steps|, i requires 0 <= i < |steps| => steps[i].to)
  }

  lemma StateOfPrefix(start: string, steps: seq<Transition>, more: seq<Transition>, i: nat)
    requires i <= |steps| && steps <= more
    ensures StateAt(start, steps, i) == StateAt(start, more, i)
  {}

  lemma PrefixRepeatFree(machine: seq<Transition>, excluded: string, start: string, steps: seq<Transition>, k: nat)
    requires RepeatFree(machine, excluded, start, steps) && k <= |steps|
    ensures RepeatFree(machine, excluded, start, steps[..k])
  {
    forall i | 0 <= i < k ensures Usable(machine, excluded, StateAt(start, steps[..k], i), steps[..k][i]) {
      StateOfPrefix(start, steps[..k], steps, i);
    }
    forall i, j | 0 <= i < j <= k ensures StateAt(start, steps[..k], i) != StateAt(start, steps[..k], j) {
      StateOfPrefix(start, steps[..k], steps, i);
      StateOfPrefix(start, steps[..k], steps, j);
    }
  }

  /** The loop's tests on a transition, the redundant one included. */
  predicate Extends(machine: seq<Transition>, excluded: string, start: string, branch: Branch, t: Transition) {
    && Usable(machine, excluded, branch.state, t)
    && !(exists i :: 0 <= i < |branch.steps| && branch.steps[i].op == t.op && branch.steps[i].to == t.to)
    && t.to !in Visited(start, branch.steps)
  }

  ghost predicate Sound(machine: seq<Transition>, excluded: string, start: string, branch: Branch) {
    && branch.state == StateAt(start, branch.steps, |branch.steps|)
    && |branch.steps| <= LONGEST
    && RepeatFree(machine, excluded, start, branch.steps)
  }

  /** A transition passes the tests exactly when the path with it still repeats no state. */
  lemma ExtensionIsRepeatFree(machine: seq<Transition>, excluded: string, start: string, branch: Branch, t: Transition)
    requires Sound(machine, excluded, start, branch)
    ensures Extends(machine, excluded, start, branch, t) <==> RepeatFree(machine, excluded, start, branch.steps + [t])
  {
    var steps, longer := branch.steps, branch.steps + [t];
    var n := |steps|;
    forall i: nat | i <= n ensures StateAt(start, longer, i) == StateAt(start, steps, i) {
      StateOfPrefix(start, steps, longer, i);
    }
    assert StateAt(start, longer, n + 1) == t.to;
    if RepeatFree(machine, excluded, start, longer) {
      assert Usable(machine, excluded, StateAt(start, longer, n), longer[n]);
      forall i | 0 <= i <= n ensures Visited(start, steps)[i] != t.to {
        assert StateAt(start, longer, i) != StateAt(start, longer, n + 1);
      }
      forall i | 0 <= i < n ensures steps[i].to != t.to {
        assert Visited(start, steps)[i + 1] == steps[i].to;
      }
    }
    if Extends(machine, excluded, start, branch, t) {
      forall i | 0 <= i <= n ensures StateAt(start, longer, i) != t.to { assert Visited(start, steps)[i] != t.to; }
      forall i | 0 <= i < |longer| ensures Usable(machine, excluded, StateAt(start, longer, i), longer[i]) {
        if i < n { assert Usable(machine, excluded, StateAt(start, steps, i), steps[i]); }
      }
      forall i, j | 0 <= i < j <= |longer| ensures StateAt(start, longer, i) != StateAt(start, longer, j) {
        if j <= n { assert StateAt(start, steps, i) != StateAt(start, steps, j); }
      }
    }
  }

  // ------------------------------------------------------------- what the search has left to do

  function Children(machine: seq<Transition>, excluded: string, start: string, branch: Branch, some: seq<Transition>)
    : seq<Branch>
  {
    if some == [] then []
    else
      var last := some[|some| - 1];
      Children(machine, excluded, start, branch, some[..|some| - 1])
      + (if Extends(machine, excluded, start, branch, last) then [Branch(last.to, branch.steps + [last])] else [])
  }

  lemma {:induction false} ChildrenMembers(machine: seq<Transition>, excluded: string, start: string, branch: Branch,
                                           some: seq<Transition>)
    ensures |Children(machine, excluded, start, branch, some)| <= |some|
    ensures forall c :: c in Children(machine, excluded, start, branch, some) ==>
              exists t <- some ::
                Extends(machine, excluded, start, branch, t) && c == Branch(t.to, branch.steps + [t])
    ensures forall t :: t in some && Extends(machine, excluded, start, branch, t) ==>
              Branch(t.to, branch.steps + [t]) in Children(machine, excluded, start, branch, some)
  {
    if some != [] {
      ChildrenMembers(machine, excluded, start, branch, some[..|some| - 1]);
      assert some == some[..|some| - 1] + [some[|some| - 1]];
    }
  }

  /** Searches a branch can lead to, itself included. */
  function Weight(width: nat, left: nat): nat {
    if left == 0 then 1 else 1 + width * Weight(width, left - 1)
  }

  function WorkLeft(width: nat, queue: seq<Branch>): nat {
    if queue == [] then 0
    else
      var left := if |queue[0].steps| <= LONGEST then LONGEST - |queue[0].steps| else 0;
      Weight(width, left) + WorkLeft(width, queue[1..])
  }

  lemma {:induction false} WorkAppend(width: nat, a: seq<Branch>, b: seq<Branch>)
    ensures WorkLeft(width, a + b) == WorkLeft(width, a) + WorkLeft(width, b)
  {
    if a == [] {
      assert a + b == b;
    } else {
      assert (a + b)[1..] == a[1..] + b;
      WorkAppend(width, a[1..], b);
    }
  }

  lemma {:induction false} WorkOfLevel(width: nat, queue: seq<Branch>, length: nat)
    requires length <= LONGEST && forall i :: 0 <= i < |queue| ==> |queue[i].steps| == length
    ensures WorkLeft(width, queue) == |queue| * Weight(width, LONGEST - length)
  {
    if queue != [] {
      WorkOfLevel(width, queue[1..], length);
      var w := Weight(width, LONGEST - length);
      assert |queue| * w == w + (|queue| - 1) * w;
    }
  }

  lemma WeightUnfolds(width: nat, left: nat)
    requires left > 0
    ensures Weight(width, left) == 1 + width * Weight(width, left - 1)
  {}

  lemma ExpandingSpends(width: nat, queue: seq<Branch>, children: seq<Branch>)
    requires queue != [] && |queue[0].steps| < LONGEST && |children| <= width
    requires forall i :: 0 <= i < |children| ==> |children[i].steps| == |queue[0].steps| + 1
    ensures WorkLeft(width, queue[1..] + children) < WorkLeft(width, queue)
  {
    hide Weight;
    var n := |queue[0].steps|;
    WorkAppend(width, queue[1..], children);
    WorkOfLevel(width, children, n + 1);
    var w := Weight(width, LONGEST - (n + 1));
    MultiplyMonotone(|children|, width, w);
    WeightUnfolds(width, LONGEST - n);
  }

  // ------------------------------------------------------------- what the search keeps

  /** Branches in breadth-first order: lengths never fall, and span at most two levels. */
  ghost predicate Levelled(queue: seq<Branch>) {
    && (forall i, j :: 0 <= i < j < |queue| ==> |queue[i].steps| <= |queue[j].steps|)
    && (forall i :: 0 <= i < |queue| ==> |queue[i].steps| <= |queue[0].steps| + 1)
  }

  ghost predicate Shortest(result: seq<Branch>) {
    forall i, j :: 0 <= i < j < |result| ==> |result[i].steps| <= |result[j].steps|
  }

  ghost predicate NotLonger(result: seq<Branch>, queue: seq<Branch>) {
    forall i, j :: 0 <= i < |result| && 0 <= j < |queue| ==> |result[i].steps| <= |queue[j].steps|
  }

  /** A wanted path has been found or some queued branch can still be extended to it. */
  ghost predicate Reachable(queue: seq<Branch>, result: seq<Branch>, steps: seq<Transition>) {
    || (exists i :: 0 <= i < |result| && result[i].steps == steps)
    || (exists i :: 0 <= i < |queue| && queue[i].steps <= steps)
  }

  /** No branch begins another. */
  ghost predicate Apart(branches: seq<Branch>) {
    forall i, j :: 0 <= i < |branches| && 0 <= j < |branches| && i != j ==> !(branches[i].steps <= branches[j].steps)
  }

  ghost predicate Distinct(machine: seq<Transition>) {
    forall i, j :: 0 <= i < j < |machine| ==> machine[i] != machine[j]
  }

  ghost predicate Searching(machine: seq<Transition>, excluded: string, start: string, target: string,
                            queue: seq<Branch>, result: seq<Branch>)
  {
    && (forall i :: 0 <= i < |queue| ==> Sound(machine, excluded, start, queue[i]))
    && (forall i :: 0 <= i < |result| ==> Sound(machine, excluded, start, result[i]) && result[i].state == target)
    && (forall steps :: Wanted(machine, excluded, start, target, steps) ==> Reachable(queue, result, steps))
    && Levelled(queue) && Shortest(result) && NotLonger(result, queue)
    && (Distinct(machine) ==> Apart(result + queue))
  }

  lemma SearchBegins(machine: seq<Transition>, excluded: string, start: string, target: string)
    ensures Searching(machine, excluded, start, target, [Branch(start, [])], [])
  {
    forall steps | Wanted(machine, excluded, start, target, steps) ensures Reachable([Branch(start, [])], [], steps) {
      assert [Branch(start, [])][0].steps <= steps;
    }
  }

  /** The head reached the target: it is a result, and no longer wanted path passes through it. */
  lemma TargetFound(machine: seq<Transition>, excluded: string, start: string, target: string, queue: seq<Branch>,
                    result: seq<Branch>)
    requires Searching(machine, excluded, start, target, queue, result) && queue != [] && queue[0].state == target
    ensures Searching(machine, excluded, start, target, queue[1..], result + [queue[0]])
  {
    hide RepeatFree;
    var next := result + [queue[0]];
    forall steps | Wanted(machine, excluded, start, target, steps) ensures Reachable(queue[1..], next, steps) {
      ReachableAfterHead(queue, result, next, queue[1..], steps);
      if queue[0].steps <= steps {
        if |queue[0].steps| < |steps| { PassingRepeats(machine, excluded, start, target, queue[0], steps); }
        assert next[|result|].steps == steps;
      }
    }
    assert next + queue[1..] == result + queue;
  }

  lemma PassingRepeats(machine: seq<Transition>, excluded: string, start: string, target: string, branch: Branch,
                       steps: seq<Transition>)
    requires Sound(machine, excluded, start, branch) && branch.state == target && branch.steps < steps
    ensures !Wanted(machine, excluded, start, target, steps)
  {
    var k := |branch.steps|;
    StateOfPrefix(start, branch.steps, steps, k);
    assert StateAt(start, steps, k) == target;
    assert RepeatFree(machine, excluded, start, steps) ==> StateAt(start, steps, k) != StateAt(start, steps, |steps|);
  }

  /** Dropping the head loses only the paths that begin with it. */
  lemma ReachableAfterHead(queue: seq<Branch>, result: seq<Branch>, next: seq<Branch>, rest: seq<Branch>,
                           steps: seq<Transition>)
    requires Reachable(queue, result, steps) && queue != []
    requires result <= next && queue[1..] <= rest
    ensures queue[0].steps <= steps || Reachable(rest, next, steps)
  {
    if i :| 0 <= i < |result| && result[i].steps == steps {
      assert next[i].steps == steps;
    } else {
      var i :| 0 <= i < |queue| && queue[i].steps <= steps;
      if i > 0 { assert rest[i - 1] == queue[i]; }
    }
  }

  /** The head is at full length short of the target: nothing wanted begins with it. */
  lemma DeadEnd(machine: seq<Transition>, excluded: string, start: string, target: string, queue: seq<Branch>,
                result: seq<Branch>)
    requires Searching(machine, excluded, start, target, queue, result) && queue != []
    requires queue[0].state != target && |queue[0].steps| >= LONGEST
    ensures Searching(machine, excluded, start, target, queue[1..], result)
  {
    hide RepeatFree;
    forall steps | Wanted(machine, excluded, start, target, steps) ensures Reachable(queue[1..], result, steps) {
      ReachableAfterHead(queue, result, result, queue[1..], steps);
      PrefixSameLength(queue[0].steps, steps);
    }
    if Distinct(machine) { DropHead(result, queue); }
  }

  lemma DropHead(result: seq<Branch>, queue: seq<Branch>)
    requires queue != [] && Apart(result + queue)
    ensures Apart(result + queue[1..])
  {
    var all, less, n := result + queue, result + queue[1..], |result|;
    forall i, j | 0 <= i < |less| && 0 <= j < |less| && i != j ensures !(less[i].steps <= less[j].steps) {
      var x, y := if i < n then i else i + 1, if j < n then j else j + 1;
      assert less[i] == all[x] && less[j] == all[y];
    }
  }

  lemma ChildrenFit(machine: seq<Transition>, excluded: string, start: string, branch: Branch, i: nat)
    requires i < |Children(machine, excluded, start, branch, machine)| && Sound(machine, excluded, start, branch)
    requires |branch.steps| < LONGEST
    ensures var child := Children(machine, excluded, start, branch, machine)[i];
            Sound(machine, excluded, start, child) && |child.steps| == |branch.steps| + 1 && branch.steps < child.steps
  {
    hide RepeatFree, Extends, Children;
    ChildrenMembers(machine, excluded, start, branch, machine);
    var child := Children(machine, excluded, start, branch, machine)[i];
    assert child in Children(machine, excluded, start, branch, machine);
    var t :| t in machine && Extends(machine, excluded, start, branch, t) && child == Branch(t.to, branch.steps + [t]);
    ExtensionIsRepeatFree(machine, excluded, start, branch, t);
  }

  /** The head is replaced by its extensions. */
  lemma Expanded(machine: seq<Transition>, excluded: string, start: string, target: string, queue: seq<Branch>,
                 result: seq<Branch>)
    requires Searching(machine, excluded, start, target, queue, result) && queue != []
    requires queue[0].state != target && |queue[0].steps| < LONGEST
    ensures Searching(machine, excluded, start, target,
                      queue[1..] + Children(machine, excluded, start, queue[0], machine), result)
  {
    hide RepeatFree, Extends, Children;
    var head, children := queue[0], Children(machine, excluded, start, queue[0], machine);
    var next := queue[1..] + children;
    forall i: nat | i < |children|
      ensures Sound(machine, excluded, start, children[i]) && |children[i].steps| == |head.steps| + 1
    {
      ChildrenFit(machine, excluded, start, head, i);
    }
    forall steps | Wanted(machine, excluded, start, target, steps) ensures Reachable(next, result, steps) {
      ReachableAfterHead(queue, result, result, next, steps);
      if head.steps <= steps { ChildOnTheWay(machine, excluded, start, target, head, steps, queue[1..], result); }
    }
    NextLevelled(queue, children);
    if Distinct(machine) { ChildrenApart(machine, excluded, start, queue, result); }
  }

  lemma NextLevelled(queue: seq<Branch>, children: seq<Branch>)
    requires queue != [] && Levelled(queue)
    requires forall i :: 0 <= i < |children| ==> |children[i].steps| == |queue[0].steps| + 1
    ensures Levelled(queue[1..] + children)
  {}

  lemma ChildOnTheWay(machine: seq<Transition>, excluded: string, start: string, target: string, head: Branch,
                      steps: seq<Transition>,
                      rest: seq<Branch>, result: seq<Branch>)
    requires Sound(machine, excluded, start, head) && head.state != target && |head.steps| < LONGEST
    requires Wanted(machine, excluded, start, target, steps) && head.steps <= steps
    ensures Reachable(rest + Children(machine, excluded, start, head, machine), result, steps)
  {
    var k := |head.steps|;
    var children := Children(machine, excluded, start, head, machine);
    StateOfPrefix(start, head.steps, steps, k);
    assert k < |steps|;
    var t := steps[k];
    assert steps[..k + 1] == head.steps + [t];
    PrefixRepeatFree(machine, excluded, start, steps, k + 1);
    ExtensionIsRepeatFree(machine, excluded, start, head, t);
    ChildrenMembers(machine, excluded, start, head, machine);
    var child := Branch(t.to, head.steps + [t]);
    assert child in children;
    var i :| 0 <= i < |children| && children[i] == child;
    assert (rest + children)[|rest| + i].steps <= steps;
  }

  lemma {:induction false} ChildrenDiffer(machine: seq<Transition>, excluded: string, start: string, branch: Branch,
                                          some: seq<Transition>)
    requires forall i, j :: 0 <= i < j < |some| ==> some[i] != some[j]
    ensures var children := Children(machine, excluded, start, branch, some);
            forall i, j :: 0 <= i < j < |children| ==> children[i].steps != children[j].steps
  {
    hide Extends;
    if some != [] {
      var init, last := some[..|some| - 1], some[|some| - 1];
      ChildrenDiffer(machine, excluded, start, branch, init);
      ChildrenMembers(machine, excluded, start, branch, init);
      var before := Children(machine, excluded, start, branch, init);
      var children := Children(machine, excluded, start, branch, some);
      if |children| > |before| {
        forall i | 0 <= i < |before| ensures children[i].steps != children[|before|].steps {
          assert before[i] in before;
          var t :| t in init && before[i] == Branch(t.to, branch.steps + [t]);
          assert t != last;
          assert (branch.steps + [t])[|branch.steps|] == t && (branch.steps + [last])[|branch.steps|] == last;
        }
      }
    }
  }

  lemma ChildrenApart(machine: seq<Transition>, excluded: string, start: string, queue: seq<Branch>,
                      result: seq<Branch>)
    requires queue != [] && Sound(machine, excluded, start, queue[0]) && |queue[0].steps| < LONGEST
    requires Distinct(machine) && Apart(result + queue)
    ensures Apart(result + (queue[1..] + Children(machine, excluded, start, queue[0], machine)))
  {
    hide RepeatFree, Extends, Children;
    var head, children := queue[0], Children(machine, excluded, start, queue[0], machine);
    var kept := result + queue[1..];
    var all := result + queue;
    DropHead(result, queue);
    ChildrenDiffer(machine, excluded, start, head, machine);
    assert result + (queue[1..] + children) == kept + children;
    forall i | 0 <= i < |kept| ensures !(kept[i].steps <= head.steps) && !(head.steps <= kept[i].steps) {
      var x := if i < |result| then i else i + 1;
      assert kept[i] == all[x] && all[|result|] == head;
    }
    forall i: nat | i < |children| ensures |children[i].steps| == |head.steps| + 1 && head.steps < children[i].steps {
      ChildrenFit(machine, excluded, start, head, i);
    }
    JoinApart(kept, children, head);
  }

  lemma JoinApart(kept: seq<Branch>, children: seq<Branch>, head: Branch)
    requires Apart(kept)
    requires forall i :: 0 <= i < |kept| ==> !(kept[i].steps <= head.steps) && !(head.steps <= kept[i].steps)
    requires forall i :: 0 <= i < |children| ==>
               |children[i].steps| == |head.steps| + 1 && head.steps < children[i].steps
    requires forall i, j :: 0 <= i < j < |children| ==> children[i].steps != children[j].steps
    ensures Apart(kept + children)
  {
    var all := kept + children;
    forall i, j | 0 <= i < |all| && 0 <= j < |all| && i != j ensures !(all[i].steps <= all[j].steps) {
      if i < |kept| && j >= |kept| {
        PrefixOfLonger(all[i].steps, head.steps, children[j - |kept|].steps);
      } else if i >= |kept| && j < |kept| {
        PrefixTransitive(head.steps, children[i - |kept|].steps, all[j].steps);
      } else if i >= |kept| && j >= |kept| {
        PrefixSameLength(children[i - |kept|].steps, children[j - |kept|].steps);
      }
    }
  }

  lemma PrefixOfLonger(a: seq<Transition>, b: seq<Transition>, c: seq<Transition>)
    requires b < c && |c| == |b| + 1
    ensures a <= c ==> a <= b || a == c
  {}

  lemma PrefixTransitive(a: seq<Transition>, b: seq<Transition>, c: seq<Transition>)
    ensures a <= b && b <= c ==> a <= c
  {}

  lemma PrefixSameLength(a: seq<Transition>, b: seq<Transition>)
    ensures a <= b && |a| >= |b| ==> a == b
  {}

  // ------------------------------------------------------------- the search

  /** Everything the search finds before its cut: exactly the repeat-free paths of at most five known
      transitions from start to target that avoid the excluded operation, shortest first, each once
      when no transition is listed twice. */
  method Search(machine: seq<Transition>, start: string, target: string, excluded: string) returns (result: seq<Branch>)
    ensures forall steps :: (exists i :: 0 <= i < |result| && result[i].steps == steps)
                       <==> Wanted(machine, excluded, start, target, steps)
    ensures forall i :: 0 <= i < |result| ==> result[i].state == target
    ensures Shortest(result)
    ensures Distinct(machine) ==> forall i, j :: 0 <= i < j < |result| ==> result[i].steps != result[j].steps
  {
    hide RepeatFree, Searching, Extends, Children;
    var queue := [Branch(start, [])];
    result := [];
    SearchBegins(machine, excluded, start, target);
    while |queue| > 0
      invariant Searching(machine, excluded, start, target, queue, result)
      decreases WorkLeft(|machine|, queue)
    {
      var current := queue[0];
      ghost var before := queue;
      queue := queue[1..];
      assert before == [current] + queue;
      WorkAppend(|machine|, [current], queue);
      if current.state == target {
        TargetFound(machine, excluded, start, target, before, result);
        result := result + [current];
        continue;
      }
      if |current.steps| >= LONGEST {
        DeadEnd(machine, excluded, start, target, before, result);
        continue;
      }
      Expanded(machine, excluded, start, target, before, result);
      HeadSound(machine, excluded, start, target, before, result);
      ChildrenLonger(machine, excluded, start, current);
      ExpandingSpends(|machine|, before, Children(machine, excluded, start, current, machine));
      var added := Expand(machine, excluded, start, current);
      queue := queue + added;
    }
    Finished(machine, excluded, start, target, result);
  }

  lemma HeadSound(machine: seq<Transition>, excluded: string, start: string, target: string, queue: seq<Branch>,
                  result: seq<Branch>)
    requires Searching(machine, excluded, start, target, queue, result) && queue != []
    ensures Sound(machine, excluded, start, queue[0])
  {}

  lemma ChildrenLonger(machine: seq<Transition>, excluded: string, start: string, branch: Branch)
    requires Sound(machine, excluded, start, branch) && |branch.steps| < LONGEST
    ensures var children := Children(machine, excluded, start, branch, machine);
            |children| <= |machine| && forall i :: 0 <= i < |children| ==> |children[i].steps| == |branch.steps| + 1
  {
    hide RepeatFree, Extends, Children;
    ChildrenMembers(machine, excluded, start, branch, machine);
    var children := Children(machine, excluded, start, branch, machine);
    forall i: nat | i < |children| ensures |children[i].steps| == |branch.steps| + 1 {
      ChildrenFit(machine, excluded, start, branch, i);
    }
  }

  lemma Finished(machine: seq<Transition>, excluded: string, start: string, target: string, result: seq<Branch>)
    requires Searching(machine, excluded, start, target, [], result)
    ensures forall steps :: (exists i :: 0 <= i < |result| && result[i].steps == steps)
                       <==> Wanted(machine, excluded, start, target, steps)
    ensures forall i :: 0 <= i < |result| ==> result[i].state == target
    ensures Shortest(result)
    ensures Distinct(machine) ==> forall i, j :: 0 <= i < j < |result| ==> result[i].steps != result[j].steps
  {
    hide RepeatFree;
    forall steps
      ensures (exists i :: 0 <= i < |result| && result[i].steps == steps)
         <==> Wanted(machine, excluded, start, target, steps)
    {
      if Wanted(machine, excluded, start, target, steps) { assert Reachable([], result, steps); }
    }
    if Distinct(machine) {
      assert result + [] == result;
      forall i, j | 0 <= i < j < |result| ensures result[i].steps != result[j].steps {
        assert !(result[i].steps <= result[j].steps);
      }
    }
  }

  /** The inner loop over the machine's transitions. */
  method Expand(machine: seq<Transition>, excluded: string, start: string, current: Branch) returns (added: seq<Branch>)
    ensures added == Children(machine, excluded, start, current, machine)
  {
    hide Extends;
    added := [];
    var i := 0;
    while i < |machine|
      invariant 0 <= i <= |machine|
      invariant added == Children(machine, excluded, start, current, machine[..i])
    {
      assert machine[..i + 1][..i] == machine[..i];
      if Extends(machine, excluded, start, current, machine[i]) {
        added := added + [Branch(machine[i].to, current.steps + [machine[i]])];
      }
      i := i + 1;
    }
    assert machine[..i] == machine;
  }

  /** transitionPaths: at most the first 24. A path left out is never shorter than one kept. */
  method FindPaths(machine: seq<Transition>, start: string, target: string, excluded: string)
    returns (paths: seq<Branch>)
    ensures |paths| <= MOST
    ensures forall i :: 0 <= i < |paths| ==>
              Wanted(machine, excluded, start, target, paths[i].steps) && paths[i].state == target
    ensures forall steps :: Wanted(machine, excluded, start, target, steps) ==>
              (exists i :: 0 <= i < |paths| && paths[i].steps == steps)
              || (|paths| == MOST && forall i :: 0 <= i < |paths| ==> |paths[i].steps| <= |steps|)
  {
    hide Wanted;
    var result := Search(machine, start, target, excluded);
    paths := if |result| > MOST then result[..MOST] else result;
    forall steps | Wanted(machine, excluded, start, target, steps)
      ensures (exists i :: 0 <= i < |paths| && paths[i].steps == steps)
              || (|paths| == MOST && forall i :: 0 <= i < |paths| ==> |paths[i].steps| <= |steps|)
    {
      var i :| 0 <= i < |result| && result[i].steps == steps;
      if i < |paths| { assert paths[i].steps == steps; }
    }
  }
}
