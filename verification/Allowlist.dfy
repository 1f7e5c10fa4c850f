// Setting known conformance failures against an allowlist (src/conformance/allowlist.ts:
// evaluateAllowlist, sameCase, assertAllowlistIsUnique).
module Allowlist {
  import opened Wrappers

  datatype Case = Case(
    method_: string, path: string, scenario: string, expected: int, actual: int, ruleId: Option<string>)

  datatype Entry = Entry(id: string, case_: Case)

  /** Two cases are the same when all their fields are, a missing rule standing for the empty one. */
  function KeyOf(c: Case): Case {
    c.(ruleId := Some(match c.ruleId case None => "" case Some(rule) => rule))
  }

  predicate SameCase(entry: Entry, failure: Case) {
    KeyOf(entry.case_) == KeyOf(failure)
  }

  function Keys(failures: seq<Case>): multiset<Case> {
    if failures == [] then multiset{} else multiset{KeyOf(failures[0])} + Keys(failures[1..])
  }

  /** What the entries not yet consumed still allow. */
  function Available(entries: seq<Entry>, consumed: set<string>): multiset<Case> {
    if entries == [] then multiset{}
    else
      (if entries[0].id in consumed then multiset{} else multiset{KeyOf(entries[0].case_)})
      + Available(entries[1..], consumed)
  }

  function Unconsumed(entries: seq<Entry>, consumed: set<string>): seq<Entry> {
    if entries == [] then []
    else (if entries[0].id in consumed then [] else [entries[0]]) + Unconsumed(entries[1..], consumed)
  }

  function EntryKeys(entries: seq<Entry>): multiset<Case> {
    Available(entries, {})
  }

  ghost predicate UniqueIds(entries: seq<Entry>) {
    forall i, j :: 0 <= i < j < |entries| ==> entries[i].id != entries[j].id
  }

  /** assertAllowlistIsUnique passes exactly when no id repeats. */
  method AllowlistIsUnique(entries: seq<Entry>) returns (isUnique: bool)
    ensures isUnique <==> UniqueIds(entries)
  {
    var ids: set<string>, i := {}, 0;
    while i < |entries|
      invariant 0 <= i <= |entries|
      invariant ids == set k | 0 <= k < i :: entries[k].id
      invariant forall j, k :: 0 <= j < k < i ==> entries[j].id != entries[k].id
    {
      if entries[i].id in ids { return false; }
      ids := ids + {entries[i].id};
      i := i + 1;
    }
    return true;
  }

  /** The first unconsumed entry for a failure. */
  function EntryFor(entries: seq<Entry>, consumed: set<string>, failure: Case): (found: Option<Entry>)
    ensures found.Some? ==> found.value in entries && found.value.id !in consumed && SameCase(found.value, failure)
    ensures found.None? ==> forall e <- entries :: e.id in consumed || !SameCase(e, failure)
  {
    if entries == [] then None
    else if entries[0].id !in consumed && SameCase(entries[0], failure) then Some(entries[0])
    else EntryFor(entries[1..], consumed, failure)
  }

  datatype Verdict = Verdict(allowed: seq<Case>, unexpected: seq<Case>, consumed: set<string>)

  /** Each failure in turn takes the first entry left for it. */
  function Greedy(failures: seq<Case>, entries: seq<Entry>, consumed: set<string>): Verdict {
    if failures == [] then Verdict([], [], consumed)
    else
      match EntryFor(entries, consumed, failures[0])
      case Some(entry) =>
        var rest := Greedy(failures[1..], entries, consumed + {entry.id});
        rest.(allowed := [failures[0]] + rest.allowed)
      case None =>
        var rest := Greedy(failures[1..], entries, consumed);
        rest.(unexpected := [failures[0]] + rest.unexpected)
  }

  lemma {:induction false} AvailableHas(entries: seq<Entry>, consumed: set<string>, key: Case)
    ensures key in Available(entries, consumed)
       <==> exists e :: e in entries && e.id !in consumed && KeyOf(e.case_) == key
  {
    if entries != [] {
      AvailableHas(entries[1..], consumed, key);
      assert forall e :: e in entries <==> e == entries[0] || e in entries[1..];
    }
  }

  lemma {:induction false} ConsumeOther(entries: seq<Entry>, consumed: set<string>, id: string)
    requires forall e <- entries :: e.id != id
    ensures Available(entries, consumed + {id}) == Available(entries, consumed)
  {
    if entries != [] { ConsumeOther(entries[1..], consumed, id); }
  }

  /** With unique ids, consuming an entry uses up its case once. */
  lemma {:induction false} ConsumeOne(entries: seq<Entry>, consumed: set<string>, entry: Entry)
    requires UniqueIds(entries) && entry in entries && entry.id !in consumed
    ensures Available(entries, consumed) == Available(entries, consumed + {entry.id}) + multiset{KeyOf(entry.case_)}
  {
    forall i, j | 0 <= i < j < |entries[1..]| ensures entries[1..][i].id != entries[1..][j].id {
      assert entries[i + 1].id != entries[j + 1].id;
    }
    if entries[0] == entry {
      forall e | e in entries[1..] ensures e.id != entry.id {
        var i :| 0 <= i < |entries[1..]| && entries[1..][i] == e;
        assert entries[0].id != entries[i + 1].id;
      }
      ConsumeOther(entries[1..], consumed, entry.id);
    } else {
      assert entry in entries[1..];
      var i :| 0 <= i < |entries[1..]| && entries[1..][i] == entry;
      assert entries[0].id != entries[i + 1].id;
      ConsumeOne(entries[1..], consumed, entry);
    }
  }

  lemma {:induction false} StaleKeys(entries: seq<Entry>, consumed: set<string>)
    ensures EntryKeys(Unconsumed(entries, consumed)) == Available(entries, consumed)
  {
    if entries != [] {
      StaleKeys(entries[1..], consumed);
      var rest := Unconsumed(entries[1..], consumed);
      if entries[0].id in consumed {
        assert [] + rest == rest;
      } else {
        assert ([entries[0]] + rest)[1..] == rest;
      }
    }
  }

  lemma KeysFirst(failure: Case, rest: seq<Case>)
    ensures Keys([failure] + rest) == multiset{KeyOf(failure)} + Keys(rest)
  {
    assert ([failure] + rest)[1..] == rest;
  }

  /** Greedy matching is multiset difference when ids are unique: counting equal cases, the unexpected
      failures are those the entries do not cover, the allowed ones those they do, and what stays
      available is what no failure needed. */
  lemma {:induction false} GreedyIsDifference(failures: seq<Case>, entries: seq<Entry>, consumed: set<string>)
    requires UniqueIds(entries)
    ensures var verdict, available := Greedy(failures, entries, consumed), Available(entries, consumed);
            && Keys(verdict.unexpected) == Keys(failures) - available
            && Keys(verdict.allowed) == Keys(failures) * available
            && Available(entries, verdict.consumed) == available - Keys(failures)
  {
    hide KeyOf, Available, EntryFor, Keys, UniqueIds;
    if failures == [] {
      NoKeys();
    } else {
      var failure, rest := failures[0], failures[1..];
      assert failures == [failure] + rest;
      KeysFirst(failure, rest);
      AvailableHas(entries, consumed, KeyOf(failure));
      match EntryFor(entries, consumed, failure)
      case Some(entry) =>
        ConsumeOne(entries, consumed, entry);
        GreedyIsDifference(rest, entries, consumed + {entry.id});
        KeysFirst(failure, Greedy(rest, entries, consumed + {entry.id}).allowed);
        Covered(KeyOf(failure), Keys(rest), Available(entries, consumed + {entry.id}));
      case None =>
        GreedyIsDifference(rest, entries, consumed);
        KeysFirst(failure, Greedy(rest, entries, consumed).unexpected);
        Uncovered(KeyOf(failure), Keys(rest), Available(entries, consumed));
    }
  }

  /** What greedy matching should compute. */
  ghost predicate IsDifference(failures: seq<Case>, entries: seq<Entry>) {
    var verdict := Greedy(failures, entries, {});
    && Keys(verdict.unexpected) == Keys(failures) - EntryKeys(entries)
    && Keys(verdict.allowed) == Keys(failures) * EntryKeys(entries)
    && EntryKeys(Unconsumed(entries, verdict.consumed)) == EntryKeys(entries) - Keys(failures)
  }

  /** The failures an allowlist was written for. */
  function Cases(entries: seq<Entry>): seq<Case> {
    if entries == [] then [] else [entries[0].case_] + Cases(entries[1..])
  }

  function Ids(entries: seq<Entry>): set<string> {
    if entries == [] then {} else {entries[0].id} + Ids(entries[1..])
  }

  lemma {:induction false} CasesAreCovered(entries: seq<Entry>)
    ensures Keys(Cases(entries)) == EntryKeys(entries) && |Cases(entries)| == |entries|
  {
    if entries != [] {
      CasesAreCovered(entries[1..]);
      KeysFirst(entries[0].case_, Cases(entries[1..]));
    }
  }

  /** Every failure that is allowed consumes one id of its own. */
  lemma {:induction false} AllowingConsumes(failures: seq<Case>, entries: seq<Entry>, consumed: set<string>)
    ensures var verdict := Greedy(failures, entries, consumed);
            && |verdict.allowed| + |verdict.unexpected| == |failures|
            && |verdict.consumed| == |consumed| + |verdict.allowed|
            && verdict.consumed <= consumed + Ids(entries)
  {
    if failures != [] {
      match EntryFor(entries, consumed, failures[0])
      case Some(entry) =>
        MemberId(entries, entry);
        AllowingConsumes(failures[1..], entries, consumed + {entry.id});
      case None => AllowingConsumes(failures[1..], entries, consumed);
    }
  }

  lemma {:induction false} MemberId(entries: seq<Entry>, entry: Entry)
    requires entry in entries
    ensures entry.id in Ids(entries)
  {
    if entries[0] != entry { MemberId(entries[1..], entry); }
  }

  lemma {:induction false} AsManyIdsAreUnique(entries: seq<Entry>)
    ensures |Ids(entries)| <= |entries|
    ensures |Ids(entries)| == |entries| ==> UniqueIds(entries)
  {
    if entries != [] {
      AsManyIdsAreUnique(entries[1..]);
      if |Ids(entries)| == |entries| {
        assert entries[0].id !in Ids(entries[1..]) by { AddsNothing(Ids(entries[1..]), entries[0].id); }
        forall i, j | 0 <= i < j < |entries| ensures entries[i].id != entries[j].id {
          assert entries[j] == entries[1..][j - 1];
          MemberId(entries[1..], entries[j]);
          if i > 0 { assert entries[i] == entries[1..][i - 1]; }
        }
      }
    }
  }

  lemma AddsNothing(ids: set<string>, id: string)
    ensures id in ids ==> {id} + ids == ids
  {}

  lemma Subset(a: set<string>, b: set<string>)
    requires a <= b
    ensures |a| <= |b|
  {
    assert b == a + (b - a);
  }

  lemma {:induction false} NoKeysNothing(failures: seq<Case>)
    ensures Keys(failures) == multiset{} ==> failures == []
  {
    if failures != [] { assert KeyOf(failures[0]) in Keys(failures); }
  }

  /** If an allowlist allows all the failures it was written for, no id repeats in it. */
  lemma CoveringOwnCasesNeedsUniqueIds(entries: seq<Entry>)
    requires Keys(Greedy(Cases(entries), entries, {}).unexpected) == Keys(Cases(entries)) - EntryKeys(entries)
    ensures UniqueIds(entries)
  {
    hide Greedy, Keys, Available, Cases, Ids, UniqueIds;
    CasesAreCovered(entries);
    NoKeysNothing(Greedy(Cases(entries), entries, {}).unexpected);
    AllowingConsumes(Cases(entries), entries, {});
    var consumed := Greedy(Cases(entries), entries, {}).consumed;
    Subset(consumed, Ids(entries));
    AsManyIdsAreUnique(entries);
  }

  /** Exactly then: greedy matching is multiset difference for every list of failures if and only if no
      id repeats. */
  lemma DifferenceExactly(entries: seq<Entry>)
    ensures (forall failures: seq<Case> :: IsDifference(failures, entries)) <==> UniqueIds(entries)
  {
    hide Greedy, Keys, Available, UniqueIds, Unconsumed;
    if UniqueIds(entries) {
      forall failures: seq<Case> ensures IsDifference(failures, entries) {
        GreedyIsDifference(failures, entries, {});
        StaleKeys(entries, Greedy(failures, entries, {}).consumed);
      }
    }
    if forall failures: seq<Case> :: IsDifference(failures, entries) {
      assert IsDifference(Cases(entries), entries);
      CoveringOwnCasesNeedsUniqueIds(entries);
    }
  }

  lemma NoKeys()
    ensures Keys([]) == multiset{}
  {}

  lemma Covered(key: Case, rest: multiset<Case>, available: multiset<Case>)
    ensures (multiset{key} + rest) - (available + multiset{key}) == rest - available
    ensures (multiset{key} + rest) * (available + multiset{key}) == multiset{key} + rest * available
    ensures (available + multiset{key}) - (multiset{key} + rest) == available - rest
  {}

  lemma Uncovered(key: Case, rest: multiset<Case>, available: multiset<Case>)
    requires key !in available
    ensures (multiset{key} + rest) - available == multiset{key} + (rest - available)
    ensures (multiset{key} + rest) * available == rest * available
    ensures available - (multiset{key} + rest) == available - rest
  {}

  /** The loop of evaluateAllowlist; without an allowlist everything is unexpected. */
  method EvaluateAllowlist(failures: seq<Case>, allowlist: Option<seq<Entry>>)
    returns (allowed: seq<Case>, unexpected: seq<Case>, stale: seq<Entry>)
    ensures allowlist.None? ==> allowed == [] && unexpected == failures && stale == []
    ensures allowlist.Some? ==>
      var verdict := Greedy(failures, allowlist.value, {});
      && allowed == verdict.allowed && unexpected == verdict.unexpected
      && stale == Unconsumed(allowlist.value, verdict.consumed)
    ensures allowlist.Some? && UniqueIds(allowlist.value) ==>
      && Keys(unexpected) == Keys(failures) - EntryKeys(allowlist.value)
      && Keys(allowed) == Keys(failures) * EntryKeys(allowlist.value)
      && EntryKeys(stale) == EntryKeys(allowlist.value) - Keys(failures)
  {
    hide EntryFor, Keys, Available, Unconsumed, UniqueIds;
    if allowlist.None? { return [], failures, []; }
    var entries := allowlist.value;
    allowed, unexpected := [], [];
    var consumed: set<string>, i := {}, 0;
    AfterNothing(Greedy(failures, entries, {}));
    while i < |failures|
      invariant 0 <= i <= |failures|
      invariant Greedy(failures, entries, {}) == After(allowed, unexpected, Greedy(failures[i..], entries, consumed))
    {
      assert failures[i..][1..] == failures[i + 1..];
      var entry := EntryFor(entries, consumed, failures[i]);
      if entry.Some? {
        consumed := consumed + {entry.value.id};
        AfterAllowed(allowed, unexpected, failures[i], Greedy(failures[i + 1..], entries, consumed));
        allowed := allowed + [failures[i]];
      } else {
        AfterUnexpected(allowed, unexpected, failures[i], Greedy(failures[i + 1..], entries, consumed));
        unexpected := unexpected + [failures[i]];
      }
      i := i + 1;
    }
    assert allowed + [] == allowed && unexpected + [] == unexpected;
    stale := Unconsumed(entries, consumed);
    StaleKeys(entries, consumed);
    if UniqueIds(entries) { GreedyIsDifference(failures, entries, {}); }
  }

  function After(allowed: seq<Case>, unexpected: seq<Case>, rest: Verdict): Verdict {
    Verdict(allowed + rest.allowed, unexpected + rest.unexpected, rest.consumed)
  }

  lemma AfterNothing(verdict: Verdict)
    ensures After([], [], verdict) == verdict
  {}

  lemma AfterAllowed(allowed: seq<Case>, unexpected: seq<Case>, failure: Case, rest: Verdict)
    ensures After(allowed, unexpected, rest.(allowed := [failure] + rest.allowed))
         == After(allowed + [failure], unexpected, rest)
  {
    assert allowed + ([failure] + rest.allowed) == allowed + [failure] + rest.allowed;
  }

  lemma AfterUnexpected(allowed: seq<Case>, unexpected: seq<Case>, failure: Case, rest: Verdict)
    ensures After(allowed, unexpected, rest.(unexpected := [failure] + rest.unexpected))
         == After(allowed, unexpected + [failure], rest)
  {
    assert unexpected + ([failure] + rest.unexpected) == unexpected + [failure] + rest.unexpected;
  }

  /** Two entries sharing an id are consumed together: a failure the second one allows is reported
      unexpected, and the second one is not reported stale. */
  lemma SharedIdsAllowOne(id: string, first: Case, second: Case)
    requires KeyOf(first) != KeyOf(second)
    ensures var entries := [Entry(id, first), Entry(id, second)];
            var verdict := Greedy([first, second], entries, {});
            && verdict.allowed == [first] && verdict.unexpected == [second]
            && Unconsumed(entries, verdict.consumed) == []
            && KeyOf(second) in EntryKeys(entries)
  {
    var one, two := Entry(id, first), Entry(id, second);
    var entries := [one, two];
    assert entries[1..] == [two] && [two][1..] == [];
    assert [first, second][1..] == [second] && [second][1..] == [];
    assert EntryFor(entries, {}, first) == Some(one);
    assert EntryFor(entries, {id}, second) == None;
    assert {} + {id} == {id};
    assert Greedy([], entries, {id}) == Verdict([], [], {id});
    assert Greedy([second], entries, {id}) == Verdict([], [second], {id});
    AvailableHas(entries, {}, KeyOf(second));
    assert two in entries && two.id !in {};
    assert Unconsumed([two], {id}) == [] && Unconsumed([], {id}) == [];
  }
}
