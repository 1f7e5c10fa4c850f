// The promise-chain lock as interleaved steps: a ticket per acquire call, chained to the tail it
// found, and a tail entry per key that the last holder deletes (src/core/engine.ts: acquire,
// acquireMany). The barrier and the key locks make the engine's methods sequential.
module Locks {
  import opened Sorting
  import opened Wrappers

  type Key = string

  /** One acquire call. `previous` is the promise it awaits: the tail it found, if any. */
  datatype Ticket = Ticket(owner: nat, key: Key, previous: Option<nat>, granted: bool, released: bool)

  /** A caller: the keys it acquires in order, the tickets it holds, the one it awaits. */
  datatype Process = Process(plan: seq<Key>, held: seq<nat>, waiting: Option<nat>, releasing: bool)

  datatype Table = Table(tickets: seq<Ticket>, tails: map<Key, nat>, processes: seq<Process>)

  function Idle(plans: seq<seq<Key>>): (processes: seq<Process>)
    ensures |processes| == |plans|
    ensures forall i :: 0 <= i < |plans| ==> processes[i] == Process(plans[i], [], None, false)
  {
    seq(|plans|, i requires 0 <= i < |plans| => Process(plans[i], [], None, false))
  }

  function Opening(plans: seq<seq<Key>>): Table {
    Table([], map[], Idle(plans))
  }

  /** Whether the promise stored for a ticket has resolved: its slot was released and so was
      everything before it in the chain. */
  predicate Settled(tickets: seq<Ticket>, t: nat)
    decreases t
  {
    t < |tickets| && tickets[t].released
    && match tickets[t].previous case None => true case Some(s) => s < t && Settled(tickets, s)
  }

  predicate Grantable(tickets: seq<Ticket>, t: nat) {
    t < |tickets| && match tickets[t].previous case None => true case Some(s) => Settled(tickets, s)
  }

  predicate Finished(p: Process) {
    p.held == [] && p.waiting.None? && (p.releasing || p.plan == [])
  }

  datatype Action = Acquire(p: nat) | Grant(p: nat) | Release(p: nat)

  predicate Enabled(table: Table, a: Action) {
    a.p < |table.processes| &&
    var p := table.processes[a.p];
    match a
    case Acquire(_) => !p.releasing && p.waiting.None? && |p.held| < |p.plan|
    case Grant(_) => p.waiting.Some? && Grantable(table.tickets, p.waiting.value)
    case Release(_) =>
      p.waiting.None? && p.held != [] && p.held[|p.held| - 1] < |table.tickets| && (p.releasing || |p.held| == |p.plan|)
  }

  function Step(table: Table, a: Action): Table
    requires Enabled(table, a)
  {
    var p := table.processes[a.p];
    match a
    case Acquire(_) =>
      var key, t := p.plan[|p.held|], |table.tickets|;
      var previous := if key in table.tails then Some(table.tails[key]) else None;
      Table(table.tickets + [Ticket(a.p, key, previous, false, false)], table.tails[key := t],
            table.processes[a.p := p.(waiting := Some(t))])
    case Grant(_) =>
      var t := p.waiting.value;
      Table(table.tickets[t := table.tickets[t].(granted := true)], table.tails,
            table.processes[a.p := p.(held := p.held + [t], waiting := None)])
    case Release(_) =>
      var t := p.held[|p.held| - 1];
      var key := table.tickets[t].key;
      Table(table.tickets[t := table.tickets[t].(released := true)],
            if key in table.tails && table.tails[key] == t then table.tails - {key} else table.tails,
            table.processes[a.p := p.(held := p.held[..|p.held| - 1], releasing := true)])
  }

  // ------------------------------------------------------------- the invariant

  predicate SameKey(tickets: seq<Ticket>, t: nat, u: nat) {
    t < |tickets| && u < |tickets| && tickets[t].key == tickets[u].key
  }

  /** A ticket awaits its immediate predecessor on the key, or found every earlier one released. */
  ghost predicate Chained(tickets: seq<Ticket>, t: nat) {
    t < |tickets| &&
    match tickets[t].previous
    case None => forall u: nat :: u < t && SameKey(tickets, u, t) ==> tickets[u].released
    case Some(s) => s < t && SameKey(tickets, s, t) && forall u: nat :: s < u < t ==> !SameKey(tickets, u, t)
  }

  /** Grants follow arrival: everything before a granted ticket on its key has been released. */
  ghost predicate InTurn(tickets: seq<Ticket>, t: nat) {
    t < |tickets| &&
    (tickets[t].released ==> tickets[t].granted) &&
    (tickets[t].granted ==> forall u: nat :: u < t && SameKey(tickets, u, t) ==> tickets[u].released)
  }

  /** The tail is the key's last ticket and still live; a key without a tail has no one left. */
  ghost predicate TailRight(table: Table, key: Key) {
    if key in table.tails then
      var t := table.tails[key];
      && t < |table.tickets| && table.tickets[t].key == key && !table.tickets[t].released
      && forall u: nat :: t < u < |table.tickets| ==> table.tickets[u].key != key
    else
      forall u: nat :: u < |table.tickets| && table.tickets[u].key == key ==> table.tickets[u].released
  }

  ghost predicate Bookkept(table: Table, i: nat) {
    i < |table.processes| &&
    var p := table.processes[i];
    && |p.held| <= |p.plan|
    && (p.waiting.Some? ==> |p.held| < |p.plan| && !p.releasing)
    && (forall k :: 0 <= k < |p.held| ==>
          p.held[k] < |table.tickets| && var t := table.tickets[p.held[k]];
          t.owner == i && t.granted && !t.released && t.key == p.plan[k])
    && (forall j, k :: 0 <= j < k < |p.held| ==> p.held[j] != p.held[k])
    && (p.waiting.Some? ==>
          p.waiting.value < |table.tickets| && var t := table.tickets[p.waiting.value];
          t.owner == i && !t.granted && t.key == p.plan[|p.held|])
  }

  /** A ticket not yet released is held or awaited by its owner. */
  ghost predicate Accounted(table: Table, t: nat) {
    t < |table.tickets| &&
    var ticket := table.tickets[t];
    ticket.owner < |table.processes| &&
    (!ticket.released ==>
       if ticket.granted then t in table.processes[ticket.owner].held
       else table.processes[ticket.owner].waiting == Some(t))
  }

  ghost predicate Invariant(table: Table) {
    && (forall t: nat :: t < |table.tickets| ==> Chained(table.tickets, t))
    && (forall t: nat :: t < |table.tickets| ==> InTurn(table.tickets, t))
    && (forall key: Key :: TailRight(table, key))
    && (forall i: nat :: i < |table.processes| ==> Bookkept(table, i))
    && (forall t: nat :: t < |table.tickets| ==> Accounted(table, t))
  }

  lemma OpeningInvariant(plans: seq<seq<Key>>)
    ensures Invariant(Opening(plans))
  {}

  lemma {:induction false} SettledMeansReleased(tickets: seq<Ticket>, t: nat, u: nat)
    requires forall x: nat :: x < |tickets| ==> Chained(tickets, x)
    requires Settled(tickets, t) && u <= t && SameKey(tickets, u, t)
    ensures tickets[u].released
    decreases t
  {
    assert Chained(tickets, t);
    if u < t && tickets[t].previous.Some? {
      var s := tickets[t].previous.value;
      assert u > s ==> !SameKey(tickets, u, t);
      SettledMeansReleased(tickets, s, u);
    }
  }

  lemma {:induction false} ReleasedMeansSettled(tickets: seq<Ticket>, t: nat)
    requires forall x: nat :: x < |tickets| ==> Chained(tickets, x)
    requires t < |tickets| && forall u: nat :: u <= t && SameKey(tickets, u, t) ==> tickets[u].released
    ensures Settled(tickets, t)
    decreases t
  {
    assert Chained(tickets, t);
    assert SameKey(tickets, t, t);
    if tickets[t].previous.Some? {
      ReleasedMeansSettled(tickets, tickets[t].previous.value);
    }
  }

  lemma ChainStays(tickets: seq<Ticket>, added: Ticket, t: nat)
    requires t < |tickets| && Chained(tickets, t)
    ensures Chained(tickets + [added], t)
  {
    forall u: nat | u <= t ensures SameKey(tickets, u, t) <==> SameKey(tickets + [added], u, t) {}
  }

  lemma AcquireKeeps(table: Table, i: nat)
    requires Invariant(table) && Enabled(table, Acquire(i))
    ensures Invariant(Step(table, Acquire(i)))
  {
    var after := Step(table, Acquire(i));
    var n := |table.tickets|;
    var key := table.processes[i].plan[|table.processes[i].held|];
    assert TailRight(table, key);
    forall t: nat | t < |after.tickets| ensures Chained(after.tickets, t) {
      if t < n {
        ChainStays(table.tickets, after.tickets[n], t);
      } else if key in table.tails {
        assert SameKey(after.tickets, table.tails[key], n);
      } else {
        assert forall u: nat :: u < n && SameKey(after.tickets, u, n) ==> table.tickets[u].key == key;
      }
    }
    forall t: nat | t < |after.tickets| ensures InTurn(after.tickets, t) {
      if t < n { assert InTurn(table.tickets, t); }
    }
    forall k: Key ensures TailRight(after, k) { assert TailRight(table, k); }
    forall j: nat | j < |after.processes| ensures Bookkept(after, j) { assert Bookkept(table, j); }
    forall t: nat | t < |after.tickets| ensures Accounted(after, t) {
      if t < n { assert Accounted(table, t); }
    }
  }

  lemma GrantKeeps(table: Table, i: nat)
    requires Invariant(table) && Enabled(table, Grant(i))
    ensures Invariant(Step(table, Grant(i)))
  {
    var after := Step(table, Grant(i));
    assert Bookkept(table, i);
    var w := table.processes[i].waiting.value;
    assert InTurn(table.tickets, w);
    forall t: nat | t < |after.tickets| ensures Chained(after.tickets, t) {
      assert Chained(table.tickets, t);
      SameKeys(table.tickets, after.tickets);
    }
    forall t: nat | t < |after.tickets| ensures InTurn(after.tickets, t) {
      assert InTurn(table.tickets, t);
      SameKeys(table.tickets, after.tickets);
      if t == w { GrantedInTurn(table.tickets, w); }
    }
    forall k: Key ensures TailRight(after, k) { assert TailRight(table, k); }
    forall j: nat | j < |after.processes| ensures Bookkept(after, j) { GrantBookkept(table, i, j); }
    forall t: nat | t < |after.tickets| ensures Accounted(after, t) {
      assert Accounted(table, t);
      if table.tickets[t].owner == i && t in table.processes[i].held {
        assert t in after.processes[i].held;
      }
    }
  }

  lemma GrantBookkept(table: Table, i: nat, j: nat)
    requires i < |table.processes| && Bookkept(table, i) && Bookkept(table, j) && Enabled(table, Grant(i))
    requires InTurn(table.tickets, table.processes[i].waiting.value)
    ensures Bookkept(Step(table, Grant(i)), j)
  {
    var after := Step(table, Grant(i));
    var p, q := table.processes[j], after.processes[j];
    forall k | 0 <= k < |q.held|
      ensures q.held[k] < |after.tickets|
      ensures var t := after.tickets[q.held[k]]; t.owner == j && t.granted && !t.released && t.key == q.plan[k]
    {
      if k < |p.held| { assert q.held[k] == p.held[k]; }
    }
  }

  lemma SameKeys(before: seq<Ticket>, after: seq<Ticket>)
    requires |before| == |after| && forall t :: 0 <= t < |before| ==> before[t].key == after[t].key
    ensures forall t: nat, u: nat :: SameKey(before, t, u) <==> SameKey(after, t, u)
  {}

  lemma GrantedInTurn(tickets: seq<Ticket>, w: nat)
    requires forall x: nat :: x < |tickets| ==> Chained(tickets, x)
    requires Grantable(tickets, w)
    ensures forall u: nat :: u < w && SameKey(tickets, u, w) ==> tickets[u].released
  {
    assert Chained(tickets, w);
    if tickets[w].previous.Some? {
      var s := tickets[w].previous.value;
      forall u: nat | u < w && SameKey(tickets, u, w) ensures tickets[u].released {
        assert u > s ==> !SameKey(tickets, u, w);
        SettledMeansReleased(tickets, s, u);
      }
    }
  }

  lemma ReleaseKeeps(table: Table, i: nat)
    requires Invariant(table) && Enabled(table, Release(i))
    ensures Invariant(Step(table, Release(i)))
  {
    var after := Step(table, Release(i));
    assert Bookkept(table, i);
    var p := table.processes[i];
    var r := p.held[|p.held| - 1];
    hide Bookkept, Accounted, Settled;
    SameKeys(table.tickets, after.tickets);
    forall t: nat | t < |after.tickets| ensures Chained(after.tickets, t) { assert Chained(table.tickets, t); }
    forall t: nat | t < |after.tickets| ensures InTurn(after.tickets, t) { assert InTurn(table.tickets, t); }
    forall k: Key ensures TailRight(after, k) {
      assert TailRight(table, k);
      if k == table.tickets[r].key { TailDeletionLosesNoWaiter(table, r); }
    }
    forall j: nat | j < |after.processes| ensures Bookkept(after, j) { ReleaseBookkept(table, i, j); }
    forall t: nat | t < |after.tickets| ensures Accounted(after, t) { ReleaseAccounted(table, i, t); }
  }

  lemma ReleaseBookkept(table: Table, i: nat, j: nat)
    requires i < |table.processes| && Bookkept(table, i) && Bookkept(table, j) && Enabled(table, Release(i))
    ensures Bookkept(Step(table, Release(i)), j)
  {}

  lemma ReleaseAccounted(table: Table, i: nat, t: nat)
    requires i < |table.processes| && Accounted(table, t) && Enabled(table, Release(i))
    ensures Accounted(Step(table, Release(i)), t)
  {
    var held := table.processes[i].held;
    assert held == held[..|held| - 1] + [held[|held| - 1]];
  }

  /** When the holder of the tail releases and deletes it, no other ticket of the key is live. */
  lemma TailDeletionLosesNoWaiter(table: Table, r: nat)
    requires Invariant(table) && r < |table.tickets| && table.tickets[r].granted
    ensures var key := table.tickets[r].key;
            key in table.tails && table.tails[key] == r ==>
            forall u: nat :: u < |table.tickets| && table.tickets[u].key == key && u != r ==> table.tickets[u].released
  {
    var key := table.tickets[r].key;
    assert TailRight(table, key) && InTurn(table.tickets, r);
    forall u: nat | u < r && table.tickets[u].key == key ensures table.tickets[u].released {
      assert SameKey(table.tickets, u, r);
    }
  }

  lemma StepKeepsInvariant(table: Table, a: Action)
    requires Invariant(table) && Enabled(table, a)
    ensures Invariant(Step(table, a))
  {
    hide Invariant, Step;
    match a
    case Acquire(p) => AcquireKeeps(table, p);
    case Grant(p) => GrantKeeps(table, p);
    case Release(p) => ReleaseKeeps(table, p);
  }

  // ------------------------------------------------------------- runs

  ghost predicate Run(tables: seq<Table>, actions: seq<Action>, plans: seq<seq<Key>>) {
    && |tables| == |actions| + 1 && tables[0] == Opening(plans)
    && forall i :: 0 <= i < |actions| ==> Enabled(tables[i], actions[i]) && tables[i + 1] == Step(tables[i], actions[i])
  }

  lemma {:induction false} RunInvariant(tables: seq<Table>, actions: seq<Action>, plans: seq<seq<Key>>, i: nat)
    requires Run(tables, actions, plans) && i < |tables|
    ensures Invariant(tables[i])
    decreases i
  {
    hide Invariant, Step, Enabled;
    if i == 0 {
      OpeningInvariant(plans);
    } else {
      RunInvariant(tables, actions, plans, i - 1);
      StepKeepsInvariant(tables[i - 1], actions[i - 1]);
    }
  }

  predicate Live(ticket: Ticket) {
    ticket.granted && !ticket.released
  }

  /** In every state of every run a key has at most one holder, and a granted ticket means every
      earlier one on its key has come and gone. */
  lemma OneHolderInArrivalOrder(tables: seq<Table>, actions: seq<Action>, plans: seq<seq<Key>>, i: nat)
    requires Run(tables, actions, plans) && i < |tables|
    ensures var tickets := tables[i].tickets;
            forall t: nat, u: nat :: t < u && SameKey(tickets, t, u) && tickets[u].granted ==>
              tickets[t].granted && tickets[t].released && !(Live(tickets[t]) && Live(tickets[u]))
  {
    RunInvariant(tables, actions, plans, i);
    var tickets := tables[i].tickets;
    forall t: nat, u: nat | t < u && SameKey(tickets, t, u) && tickets[u].granted
      ensures tickets[t].granted && tickets[t].released
    {
      assert InTurn(tickets, u) && InTurn(tickets, t);
    }
  }

  // ------------------------------------------------------------- no circular wait

  ghost predicate StrictOrder(less: (Key, Key) -> bool) {
    && (forall a :: !less(a, a))
    && (forall a, b, c :: less(a, b) && less(b, c) ==> less(a, c))
  }

  ghost predicate Rising(plan: seq<Key>, less: (Key, Key) -> bool) {
    forall j, k :: 0 <= j < k < |plan| ==> less(plan[j], plan[k])
  }

  ghost predicate CanStep(table: Table) {
    exists a :: Enabled(table, a)
  }

  function Wanted(processes: seq<Process>): set<Key> {
    set i, k | 0 <= i < |processes| && 0 <= k < |processes[i].plan| :: processes[i].plan[k]
  }

  function Above(wanted: set<Key>, key: Key, less: (Key, Key) -> bool): set<Key> {
    set k | k in wanted && less(key, k)
  }

  lemma {:induction false} FirstLive(tickets: seq<Ticket>, key: Key, t: nat) returns (first: nat)
    requires t < |tickets| && tickets[t].key == key && !tickets[t].released
    ensures first <= t && tickets[first].key == key && !tickets[first].released
    ensures forall u: nat :: u < first && tickets[u].key == key ==> tickets[u].released
    decreases t
  {
    if u: nat :| u < t && tickets[u].key == key && !tickets[u].released {
      first := FirstLive(tickets, key, u);
    } else {
      first := t;
    }
  }

  /** A process waiting for a key waits, in the end, for someone who can move: follow the key's
      first live ticket to its owner, who can take it, can move, or waits for a later key. */
  lemma {:induction false} SomeoneBehindCanStep(table: Table, less: (Key, Key) -> bool, t: nat)
    requires Invariant(table) && StrictOrder(less)
    requires forall i :: 0 <= i < |table.processes| ==> Rising(table.processes[i].plan, less)
    requires t < |table.tickets| && !table.tickets[t].released
    ensures CanStep(table)
    decreases Above(Wanted(table.processes), table.tickets[t].key, less)
  {
    var key := table.tickets[t].key;
    var first := FirstLive(table.tickets, key, t);
    assert Accounted(table, first);
    var q := table.tickets[first].owner;
    var owner := table.processes[q];
    assert Bookkept(table, q);
    if !table.tickets[first].granted {
      FirstIsGrantable(table.tickets, first);
      assert Enabled(table, Grant(q));
    } else if owner.waiting.None? {
      assert Enabled(table, if owner.releasing || |owner.held| == |owner.plan| then Release(q) else Acquire(q));
    } else {
      var next := owner.waiting.value;
      var k :| 0 <= k < |owner.held| && owner.held[k] == first;
      assert less(owner.plan[k], owner.plan[|owner.held|]);
      assert table.tickets[next].key in Wanted(table.processes);
      assert InTurn(table.tickets, next);
      LaterKeyIsSmaller(table, less, key, table.tickets[next].key);
      SomeoneBehindCanStep(table, less, next);
    }
  }

  lemma LaterKeyIsSmaller(table: Table, less: (Key, Key) -> bool, key: Key, later: Key)
    requires StrictOrder(less) && less(key, later) && later in Wanted(table.processes)
    ensures Above(Wanted(table.processes), later, less) < Above(Wanted(table.processes), key, less)
  {
    var wanted := Wanted(table.processes);
    assert later in Above(wanted, key, less) && later !in Above(wanted, later, less);
  }

  lemma FirstIsGrantable(tickets: seq<Ticket>, first: nat)
    requires forall x: nat :: x < |tickets| ==> Chained(tickets, x)
    requires first < |tickets|
    requires forall u: nat :: u < first && tickets[u].key == tickets[first].key ==> tickets[u].released
    ensures Grantable(tickets, first)
  {
    assert Chained(tickets, first);
    if tickets[first].previous.Some? { ReleasedMeansSettled(tickets, tickets[first].previous.value); }
  }

  /** Callers that each acquire their keys in one common order never wait in a circle: while one of
      them is unfinished, some step is possible. */
  lemma NeverStuck(tables: seq<Table>, actions: seq<Action>, plans: seq<seq<Key>>, i: nat, less: (Key, Key) -> bool)
    requires Run(tables, actions, plans) && i < |tables| && StrictOrder(less)
    requires forall p :: 0 <= p < |plans| ==> Rising(plans[p], less)
    requires exists p :: 0 <= p < |tables[i].processes| && !Finished(tables[i].processes[p])
    ensures CanStep(tables[i])
  {
    var table := tables[i];
    RunInvariant(tables, actions, plans, i);
    PlansStay(tables, actions, plans, i);
    var p: nat :| p < |table.processes| && !Finished(table.processes[p]);
    assert Bookkept(table, p);
    var process := table.processes[p];
    if process.waiting.Some? {
      assert InTurn(table.tickets, process.waiting.value);
      SomeoneBehindCanStep(table, less, process.waiting.value);
    } else {
      assert Enabled(table, if process.releasing || |process.held| == |process.plan| then Release(p) else Acquire(p));
    }
  }

  lemma {:induction false} PlansStay(tables: seq<Table>, actions: seq<Action>, plans: seq<seq<Key>>, i: nat)
    requires Run(tables, actions, plans) && i < |tables|
    ensures |tables[i].processes| == |plans|
    ensures forall p :: 0 <= p < |plans| ==> tables[i].processes[p].plan == plans[p]
    decreases i
  {
    if i > 0 { PlansStay(tables, actions, plans, i - 1); }
  }

  // ------------------------------------------------------------- every run ends

  /** Steps a process has left: acquire, grant and release for each key. */
  function Left(p: Process): int {
    if p.releasing then |p.held|
    else 3 * |p.plan| - 2 * |p.held| - (if p.waiting.Some? then 1 else 0)
  }

  function TotalLeft(processes: seq<Process>): int {
    if processes == [] then 0 else Left(processes[0]) + TotalLeft(processes[1..])
  }

  lemma {:induction false} LeftElsewhere(processes: seq<Process>, i: nat, p: Process)
    requires i < |processes|
    ensures TotalLeft(processes[i := p]) == TotalLeft(processes) - Left(processes[i]) + Left(p)
  {
    if i > 0 {
      assert processes[i := p][1..] == processes[1..][i - 1 := p];
      LeftElsewhere(processes[1..], i - 1, p);
    } else {
      assert processes[i := p][1..] == processes[1..];
    }
  }

  lemma {:induction false} LeftNeverNegative(table: Table, n: nat)
    requires Invariant(table) && n <= |table.processes|
    ensures TotalLeft(table.processes[n..]) >= 0
    decreases |table.processes| - n
  {
    if n < |table.processes| {
      assert Bookkept(table, n);
      assert table.processes[n..][1..] == table.processes[n + 1..];
      LeftNeverNegative(table, n + 1);
    }
  }

  function KeysAsked(plans: seq<seq<Key>>): nat {
    if plans == [] then 0 else |plans[0]| + KeysAsked(plans[1..])
  }

  lemma {:induction false} OpeningLeft(plans: seq<seq<Key>>)
    ensures TotalLeft(Idle(plans)) == 3 * KeysAsked(plans)
  {
    if plans != [] {
      assert Idle(plans)[1..] == Idle(plans[1..]);
      OpeningLeft(plans[1..]);
    }
  }

  lemma {:induction false} RunSpends(tables: seq<Table>, actions: seq<Action>, plans: seq<seq<Key>>, i: nat)
    requires Run(tables, actions, plans) && i < |tables|
    ensures TotalLeft(tables[i].processes) == 3 * KeysAsked(plans) - i
    decreases i
  {
    hide Invariant, Settled;
    if i == 0 {
      OpeningLeft(plans);
    } else {
      RunSpends(tables, actions, plans, i - 1);
      StepSpends(tables, actions, plans, i - 1);
    }
  }

  lemma StepSpends(tables: seq<Table>, actions: seq<Action>, plans: seq<seq<Key>>, i: nat)
    requires Run(tables, actions, plans) && i < |actions|
    ensures TotalLeft(tables[i + 1].processes) == TotalLeft(tables[i].processes) - 1
  {
    var before, a := tables[i], actions[i];
    assert Enabled(before, a);
    RunInvariant(tables, actions, plans, i);
    assert Bookkept(before, a.p);
    LeftElsewhere(before.processes, a.p, tables[i + 1].processes[a.p]);
  }

  /** Every run takes at most three steps per key asked for, and one that cannot be extended has
      finished every caller and left no tail behind. */
  lemma EveryRunFinishes(tables: seq<Table>, actions: seq<Action>, plans: seq<seq<Key>>, less: (Key, Key) -> bool)
    requires Run(tables, actions, plans) && StrictOrder(less)
    requires forall p :: 0 <= p < |plans| ==> Rising(plans[p], less)
    ensures |actions| <= 3 * KeysAsked(plans)
    ensures var last := tables[|actions|];
            !CanStep(last) ==>
              && (forall p :: 0 <= p < |last.processes| ==> Finished(last.processes[p]))
              && (forall t :: 0 <= t < |last.tickets| ==> last.tickets[t].released)
              && last.tails == map[]
  {
    hide Step, Enabled, Finished, CanStep, Rising, StrictOrder, Invariant;
    var last := tables[|actions|];
    RunSpends(tables, actions, plans, |actions|);
    RunInvariant(tables, actions, plans, |actions|);
    LeftNeverNegative(last, 0);
    assert last.processes[0..] == last.processes;
    if !CanStep(last) {
      if exists p :: 0 <= p < |last.processes| && !Finished(last.processes[p]) {
        NeverStuck(tables, actions, plans, |actions|, less);
      }
      AllReleased(last);
    }
  }

  lemma AllReleased(table: Table)
    requires Invariant(table) && forall p :: 0 <= p < |table.processes| ==> Finished(table.processes[p])
    ensures forall t :: 0 <= t < |table.tickets| ==> table.tickets[t].released
    ensures table.tails == map[]
  {
    forall t: nat | t < |table.tickets| ensures table.tickets[t].released {
      assert Accounted(table, t);
      assert Finished(table.processes[table.tickets[t].owner]);
    }
    forall key: Key ensures key !in table.tails { assert TailRight(table, key); }
  }

  // ------------------------------------------------------------- acquireMany's order

  function Distinct(keys: seq<Key>): (distinct: seq<Key>)
    ensures forall k <- distinct :: k in keys
    ensures forall i, j :: 0 <= i < j < |distinct| ==> distinct[i] != distinct[j]
  {
    if keys == [] then []
    else
      var rest := Distinct(keys[1..]);
      if keys[0] in rest then rest else [keys[0]] + rest
  }

  ghost predicate TotalOrder(le: (Key, Key) -> bool) {
    TotalPreorder(le) && forall a, b :: le(a, b) && le(b, a) ==> a == b
  }

  function AcquireOrder(keys: seq<Key>, le: (Key, Key) -> bool): seq<Key> {
    StableSort(Distinct(keys), le)
  }

  lemma {:induction false} DistinctCovers(keys: seq<Key>)
    ensures forall k <- keys :: k in Distinct(keys)
  {
    if keys != [] { DistinctCovers(keys[1..]); }
  }

  lemma {:induction false} DistinctOnce(keys: seq<Key>)
    requires forall i, j :: 0 <= i < j < |keys| ==> keys[i] != keys[j]
    ensures forall k: Key :: multiset(keys)[k] <= 1
  {
    if keys != [] {
      assert keys == [keys[0]] + keys[1..];
      DistinctOnce(keys[1..]);
      assert keys[0] !in keys[1..];
    }
  }

  /** acquireMany asks for exactly its keys, once each, in strictly rising order, whatever order and
      repetition it was given: the premise of NeverStuck. */
  lemma AcquireManyRises(keys: seq<Key>, le: (Key, Key) -> bool)
    requires TotalOrder(le)
    ensures Rising(AcquireOrder(keys, le), (a, b) => le(a, b) && a != b)
    ensures forall k: Key :: k in AcquireOrder(keys, le) <==> k in keys
  {
    hide StableSort, Distinct, TotalPreorder;
    var distinct, order := Distinct(keys), AcquireOrder(keys, le);
    SortSorts(distinct, le);
    DistinctCovers(keys);
    DistinctOnce(distinct);
    OnceEach(order);
    forall k: Key ensures k in order <==> k in keys {
      assert k in order <==> k in multiset(order);
      assert k in distinct <==> k in multiset(distinct);
    }
  }

  lemma OnceEach(keys: seq<Key>)
    requires forall k: Key :: multiset(keys)[k] <= 1
    ensures forall i, j :: 0 <= i < j < |keys| ==> keys[i] != keys[j]
  {
    forall i, j | 0 <= i < j < |keys| ensures keys[i] != keys[j] {
      assert keys == keys[..j] + [keys[j]] + keys[j + 1..];
      assert keys[i] in keys[..j];
      assert multiset(keys[..j])[keys[i]] >= 1;
      assert multiset(keys)[keys[j]]
          == multiset(keys[..j])[keys[j]] + 1 + multiset(keys[j + 1..])[keys[j]];
    }
  }

  // ------------------------------------------------------------- the lock is not re-entrant

  /** A caller that already holds the key it is waiting for. */
  ghost predicate Reenters(table: Table, i: nat) {
    && i < |table.processes|
    && var p := table.processes[i];
    && p.waiting.Some? && p.waiting.value < |table.tickets|
    && exists held <- p.held :: held < p.waiting.value && SameKey(table.tickets, held, p.waiting.value)
  }

  /** Such a caller can take no step, and no one else's step ever frees it: a saga step must not
      target an aggregate whose lock its triggering command still holds. */
  lemma ReentryBlocksForever(table: Table, i: nat, a: Action)
    requires Invariant(table) && Reenters(table, i)
    ensures !Enabled(table, Acquire(i)) && !Enabled(table, Grant(i)) && !Enabled(table, Release(i))
    ensures Enabled(table, a) ==> Reenters(Step(table, a), i)
  {
    var p := table.processes[i];
    assert Bookkept(table, i);
    var k :| 0 <= k < |p.held| && p.held[k] < p.waiting.value && SameKey(table.tickets, p.held[k], p.waiting.value);
    if Grantable(table.tickets, p.waiting.value) {
      GrantedInTurn(table.tickets, p.waiting.value);
    }
    if Enabled(table, a) {
      assert a.p != i;
      var after := Step(table, a);
      assert after.processes[i] == p;
      assert SameKey(after.tickets, p.held[k], p.waiting.value);
    }
  }
}
