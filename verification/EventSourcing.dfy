// Version arithmetic over the event log (src/domain/eventSourcing.ts, src/core/storage.ts).
module EventSourcing {
  import opened Domain
  import opened Sorting
  import opened Wrappers

  /** The events of one aggregate, in log order. */
  function EventsOf(log: seq<Event>, id: Id): seq<Event> {
    if log == [] then []
    else
      var last := log[|log| - 1];
      EventsOf(log[..|log| - 1], id) + (if last.aggregate == id then [last] else [])
  }

  lemma {:induction false} EventsOfAppend(a: seq<Event>, b: seq<Event>, id: Id)
    ensures EventsOf(a + b, id) == EventsOf(a, id) + EventsOf(b, id)
    decreases |b|
  {
    if b == [] {
      assert a + b == a;
    } else {
      var init := b[..|b| - 1];
      assert (a + b)[..|a + b| - 1] == a + init;
      EventsOfAppend(a, init, id);
    }
  }

  /** Every event carries the number of its aggregate's events up to and including itself. */
  ghost predicate ExactVersions(log: seq<Event>) {
    forall i :: 0 <= i < |log| ==> VersionExactAt(log, i)
  }

  ghost predicate VersionExactAt(log: seq<Event>, i: int)
    requires 0 <= i < |log|
  {
    log[i].version == |EventsOf(log[..i], log[i].aggregate)| + 1
  }

  lemma ExactPrefix(a: seq<Event>, b: seq<Event>)
    requires ExactVersions(a + b)
    ensures ExactVersions(a)
  {
    forall i | 0 <= i < |a| ensures VersionExactAt(a, i) {
      assert VersionExactAt(a + b, i);
      assert (a + b)[..i] == a[..i];
    }
  }

  lemma ExactAppendOne(log: seq<Event>, e: Event)
    requires ExactVersions(log)
    requires e.version == |EventsOf(log, e.aggregate)| + 1
    ensures ExactVersions(log + [e])
  {
    forall i | 0 <= i < |log + [e]| ensures VersionExactAt(log + [e], i) {
      assert (log + [e])[..i] == log[..i];
      if i < |log| {
        assert VersionExactAt(log, i);
      } else {
        assert log[..i] == log;
      }
    }
  }

  /** The store's version of an aggregate: the highest in the log, 0 when it has no event. */
  function CurrentVersion(log: seq<Event>, id: Id): int {
    if log == [] then 0
    else
      var last := log[|log| - 1];
      var before := CurrentVersion(log[..|log| - 1], id);
      if last.aggregate == id && last.version > before then last.version else before
  }

  lemma {:induction false} CurrentVersionIsCount(log: seq<Event>, id: Id)
    requires ExactVersions(log)
    ensures CurrentVersion(log, id) == |EventsOf(log, id)|
    decreases |log|
  {
    if log != [] {
      var init := log[..|log| - 1];
      assert log == init + [log[|log| - 1]];
      ExactPrefix(init, [log[|log| - 1]]);
      CurrentVersionIsCount(init, id);
      assert VersionExactAt(log, |log| - 1);
    }
  }

  lemma {:induction false} EventsOfAreMembers(log: seq<Event>, id: Id)
    ensures forall e <- EventsOf(log, id) :: e in log && e.aggregate == id
    ensures (forall e <- log :: e.aggregate != id) ==> EventsOf(log, id) == []
    decreases |log|
  {
    if log != [] { EventsOfAreMembers(log[..|log| - 1], id); }
  }

  lemma ExactVersionsArePositive(log: seq<Event>)
    requires ExactVersions(log)
    ensures forall e <- log :: e.version >= 1
  {
    forall e | e in log ensures e.version >= 1 {
      var i :| 0 <= i < |log| && log[i] == e;
      assert VersionExactAt(log, i);
    }
  }

  /** The k-th event of an aggregate has version k. */
  lemma {:induction false} VersionsCountUp(log: seq<Event>, id: Id)
    requires ExactVersions(log)
    ensures forall k :: 0 <= k < |EventsOf(log, id)| ==> EventsOf(log, id)[k].version == k + 1
    ensures forall k :: 0 <= k < |EventsOf(log, id)| ==> EventsOf(log, id)[k].aggregate == id
    decreases |log|
  {
    if log != [] {
      var init := log[..|log| - 1];
      assert log == init + [log[|log| - 1]];
      ExactPrefix(init, [log[|log| - 1]]);
      VersionsCountUp(init, id);
      assert VersionExactAt(log, |log| - 1);
    }
  }

  function SelectFrom(log: seq<Event>, keep: Event -> bool): seq<Event> {
    if log == [] then []
    else (if keep(log[0]) then [log[0]] else []) + SelectFrom(log[1..], keep)
  }

  const BAD_VERSION := RuntimeError(500, "ReferenceValidationError")
  const DUPLICATE_VERSION := RuntimeError(500, "duplicate event sequence versions")

  function NextVersion(current: int, pending: seq<Event>, id: Id): Result<int, RuntimeError> {
    if current < 0 || (exists e <- EventsOf(pending, id) :: e.version < 1) then Err(BAD_VERSION)
    else Ok(current + |EventsOf(pending, id)| + 1)
  }

  /** The version given to an aggregate's next event continues the log and the transaction. */
  lemma NextVersionContinues(log: seq<Event>, pending: seq<Event>, id: Id)
    requires ExactVersions(log + pending)
    ensures NextVersion(CurrentVersion(log, id), pending, id) == Ok(|EventsOf(log + pending, id)| + 1)
  {
    ExactPrefix(log, pending);
    CurrentVersionIsCount(log, id);
    EventsOfAppend(log, pending, id);
    ExactVersionsArePositive(log + pending);
    EventsOfAreMembers(pending, id);
  }

  predicate NotAfter(left: Event, right: Event) {
    left.version <= right.version
  }

  predicate StrictlyRising(events: seq<Event>) {
    forall i :: 0 <= i < |events| - 1 ==> events[i].version < events[i + 1].version
  }

  function EventsUpTo(log: seq<Event>, id: Id, version: int): seq<Event> {
    SelectFrom(log, (e: Event) => e.aggregate == id && e.version <= version)
  }

  /** An aggregate's committed history at or before a version: filter, sort, reject duplicates. */
  function HistoryThrough(log: seq<Event>, id: Id, version: int): Result<seq<Event>, RuntimeError> {
    if version < 0 || (exists e <- log :: e.aggregate == id && e.version < 1) then Err(BAD_VERSION)
    else
      var selected := StableSort(EventsUpTo(log, id, version), NotAfter);
      if StrictlyRising(selected) then Ok(selected) else Err(DUPLICATE_VERSION)
  }

  lemma {:induction false} SelectAppend(a: seq<Event>, b: seq<Event>, keep: Event -> bool)
    ensures SelectFrom(a + b, keep) == SelectFrom(a, keep) + SelectFrom(b, keep)
    decreases |a|
  {
    if a == [] {
      assert a + b == b;
    } else {
      assert (a + b)[1..] == a[1..] + b;
      SelectAppend(a[1..], b, keep);
      var head := if keep(a[0]) then [a[0]] else [];
      calc {
        SelectFrom(a + b, keep);
        head + SelectFrom(a[1..] + b, keep);
        head + (SelectFrom(a[1..], keep) + SelectFrom(b, keep));
        (head + SelectFrom(a[1..], keep)) + SelectFrom(b, keep);
        SelectFrom(a, keep) + SelectFrom(b, keep);
      }
    }
  }

  function Shorter(n: int, s: seq<Event>): seq<Event> {
    if n < 0 then [] else if n < |s| then s[..n] else s
  }

  lemma {:induction false} UpToIsPrefix(log: seq<Event>, id: Id, version: int)
    requires ExactVersions(log)
    ensures EventsUpTo(log, id, version) == Shorter(version, EventsOf(log, id))
    decreases |log|
  {
    if log != [] {
      var init, last := log[..|log| - 1], log[|log| - 1];
      assert log == init + [last];
      ExactPrefix(init, [last]);
      UpToIsPrefix(init, id, version);
      SelectAppend(init, [last], (e: Event) => e.aggregate == id && e.version <= version);
      assert VersionExactAt(log, |log| - 1);
      assert SelectFrom([last], (e: Event) => e.aggregate == id && e.version <= version)
          == (if last.aggregate == id && last.version <= version then [last] else []) + [];
    }
  }

  /** On an exact log the history at version v is the aggregate's first v events, and no
      duplicate or malformed version is ever reported. */
  lemma HistoryIsPrefix(log: seq<Event>, id: Id, version: int)
    requires ExactVersions(log) && version >= 0
    ensures HistoryThrough(log, id, version) == Ok(Shorter(version, EventsOf(log, id)))
  {
    UpToIsPrefix(log, id, version);
    VersionsCountUp(log, id);
    SortKeepsAscending(EventsUpTo(log, id, version), NotAfter);
    ExactVersionsArePositive(log);
  }

  lemma ShorterAppend(n: int, s: seq<Event>, t: seq<Event>)
    requires n >= 0
    ensures Shorter(n, s + t) == Shorter(n, s) <==> n <= |s| || t == []
  {
    if n <= |s| {
      assert Shorter(n, s + t) == Shorter(n, s);
    } else if t == [] {
      assert s + t == s;
    } else {
      assert |Shorter(n, s + t)| > |s|;
    }
  }

  /** Reading at a version is unaffected by later events exactly when the version had already
      been reached or the aggregate received no event. */
  lemma HistoryStability(log: seq<Event>, more: seq<Event>, id: Id, version: int)
    requires ExactVersions(log + more) && version >= 0
    ensures HistoryThrough(log + more, id, version) == HistoryThrough(log, id, version)
       <==> version <= CurrentVersion(log, id) || EventsOf(more, id) == []
  {
    ExactPrefix(log, more);
    HistoryIsPrefix(log, id, version);
    HistoryIsPrefix(log + more, id, version);
    CurrentVersionIsCount(log, id);
    EventsOfAppend(log, more, id);
    ShorterAppend(version, EventsOf(log, id), EventsOf(more, id));
  }

  /** The scan of eventsThroughVersion, with its index loop. */
  method EventsThroughVersion(log: seq<Event>, id: Id, version: int)
    returns (history: Result<seq<Event>, RuntimeError>)
    ensures history == HistoryThrough(log, id, version)
  {
    if version < 0 || exists e <- log :: e.aggregate == id && e.version < 1 {
      return Err(BAD_VERSION);
    }
    var selected := StableSort(EventsUpTo(log, id, version), NotAfter);
    var index := 1;
    while index < |selected|
      invariant 1 <= index
      invariant forall i :: 0 <= i < index - 1 && i < |selected| - 1 ==> selected[i].version < selected[i + 1].version
    {
      if selected[index].version <= selected[index - 1].version {
        assert !(selected[index - 1].version < selected[index - 1 + 1].version);
        return Err(DUPLICATE_VERSION);
      }
      index := index + 1;
    }
    return Ok(selected);
  }
}
