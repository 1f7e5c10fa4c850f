// Merging included component fragments into a host: the reference merge, and the TypeScript merger
// (src/authoring/composition.ts: componentSource, mergeIncludes, mergeStateFields). A definition's
// content beyond the names the mergers look at is one opaque text.
module Includes {
  import opened Wrappers

  datatype Named = Named(name: string, body: string)
  datatype BehaviorRule = BehaviorRule(name: string, dispatches: seq<string>, body: string)
  datatype StateFields = StateFields(computed: seq<Named>, internal: seq<Named>)

  datatype Source = Source(
    events: seq<Named>,
    behaviors: seq<BehaviorRule>,
    reducers: seq<Named>,
    identity: Option<string>,
    schema: Option<string>,
    state: Option<StateFields>)

  /** Every refusal reads the same: the messages are not modelled. */
  datatype Rejection = Rejected

  lemma OnlyRejection(error: Rejection)
    ensures error == Rejected
  {}

  function Computed(s: Source): seq<Named> {
    match s.state case None => [] case Some(state) => state.computed
  }

  function Internal(s: Source): seq<Named> {
    match s.state case None => [] case Some(state) => state.internal
  }

  function Fields(s: Source): seq<Named> {
    Computed(s) + Internal(s)
  }

  // ------------------------------------------------------------- the reference

  function Flat<T>(part: Source -> seq<T>, sources: seq<Source>): seq<T> {
    if sources == [] then [] else Flat(part, sources[..|sources| - 1]) + part(sources[|sources| - 1])
  }

  function NameOf(item: Named): string { item.name }
  function BehaviorName(rule: BehaviorRule): string { rule.name }
  function EventsIn(s: Source): seq<Named> { s.events }
  function BehaviorsIn(s: Source): seq<BehaviorRule> { s.behaviors }
  function ReducersIn(s: Source): seq<Named> { s.reducers }

  function IdentityIn(s: Source): seq<string> {
    match s.identity case None => [] case Some(value) => [value]
  }

  function SchemaIn(s: Source): seq<string> {
    match s.schema case None => [] case Some(value) => [value]
  }

  function Keys<T>(items: seq<T>, key: T -> string): (keys: seq<string>)
    ensures |keys| == |items|
    ensures forall i :: 0 <= i < |items| ==> keys[i] == key(items[i])
  {
    seq(|items|, i requires 0 <= i < |items| => key(items[i]))
  }

  function KeySet<T>(items: seq<T>, key: T -> string): set<string> {
    set i | 0 <= i < |items| :: key(items[i])
  }

  /** The items whose key the host does not declare itself. */
  function Fresh<T>(items: seq<T>, local: set<string>, key: T -> string): seq<T> {
    if items == [] then []
    else
      var last := items[|items| - 1];
      Fresh(items[..|items| - 1], local, key) + (if key(last) in local then [] else [last])
  }

  ghost predicate NoRepeats<T>(items: seq<T>, key: T -> string) {
    forall i, j :: 0 <= i < j < |items| ==> key(items[i]) != key(items[j])
  }

  function NewEvents(host: Source, fragments: seq<Source>): seq<Named> {
    Fresh(Flat(EventsIn, fragments), KeySet(host.events, NameOf), NameOf)
  }

  function NewBehaviors(host: Source, fragments: seq<Source>): seq<BehaviorRule> {
    Fresh(Flat(BehaviorsIn, fragments), KeySet(host.behaviors, BehaviorName), BehaviorName)
  }

  /** Included events and behaviors the host does not declare come from one fragment each; identity
      and schema have at most one source, the host included; no state field has two. */
  ghost predicate Mergeable(host: Source, fragments: seq<Source>) {
    && NoRepeats(NewEvents(host, fragments), NameOf)
    && NoRepeats(NewBehaviors(host, fragments), BehaviorName)
    && |IdentityIn(host) + Flat(IdentityIn, fragments)| <= 1
    && |SchemaIn(host) + Flat(SchemaIn, fragments)| <= 1
    && NoRepeats(Flat(Fields, fragments), NameOf)
    && KeySet(Flat(Fields, fragments), NameOf) !! KeySet(Fields(host), NameOf)
  }

  function Claim(claims: seq<string>): Option<string> {
    if claims == [] then None else Some(claims[0])
  }

  function Merged(host: Source, fragments: seq<Source>): Source {
    Source(
      host.events + NewEvents(host, fragments),
      host.behaviors + NewBehaviors(host, fragments),
      host.reducers + Flat(ReducersIn, fragments),
      Claim(IdentityIn(host) + Flat(IdentityIn, fragments)),
      Claim(SchemaIn(host) + Flat(SchemaIn, fragments)),
      if Flat(Fields, fragments) == [] then host.state
      else Some(StateFields(Computed(host) + Flat(Computed, fragments), Internal(host) + Flat(Internal, fragments))))
  }

  ghost function Merge(host: Source, fragments: seq<Source>): Result<Source, Rejection> {
    if Mergeable(host, fragments) then Ok(Merged(host, fragments)) else Err(Rejected)
  }

  // ------------------------------------------------------------- the reference grows by a fragment

  lemma {:induction false} FlatAppend<T>(part: Source -> seq<T>, a: seq<Source>, b: seq<Source>)
    ensures Flat(part, a + b) == Flat(part, a) + Flat(part, b)
    decreases |b|
  {
    if b == [] {
      assert a + b == a;
    } else {
      assert (a + b)[..|a + b| - 1] == a + b[..|b| - 1];
      FlatAppend(part, a, b[..|b| - 1]);
    }
  }

  lemma FlatOne<T>(part: Source -> seq<T>, s: Source)
    ensures Flat(part, [s]) == part(s)
  {
    assert [s][..0] == [];
    assert [] + part(s) == part(s);
  }

  lemma {:induction false} FreshAppend<T>(a: seq<T>, b: seq<T>, local: set<string>, key: T -> string)
    ensures Fresh(a + b, local, key) == Fresh(a, local, key) + Fresh(b, local, key)
    decreases |b|
  {
    if b == [] {
      assert a + b == a;
    } else {
      assert (a + b)[..|a + b| - 1] == a + b[..|b| - 1];
      FreshAppend(a, b[..|b| - 1], local, key);
    }
  }

  lemma NoRepeatsAppend<T>(a: seq<T>, b: seq<T>, key: T -> string)
    ensures NoRepeats(a + b, key) <==> NoRepeats(a, key) && NoRepeats(b, key) && KeySet(a, key) !! KeySet(b, key)
  {
    if NoRepeats(a + b, key) {
      forall i, j | 0 <= i < j < |a| ensures key(a[i]) != key(a[j]) { assert key((a + b)[i]) != key((a + b)[j]); }
      forall i, j | 0 <= i < j < |b| ensures key(b[i]) != key(b[j]) {
        assert key((a + b)[|a| + i]) != key((a + b)[|a| + j]);
      }
      forall i, j | 0 <= i < |a| && 0 <= j < |b| ensures key(a[i]) != key(b[j]) {
        assert key((a + b)[i]) != key((a + b)[|a| + j]);
      }
    } else {
      var i, j :| 0 <= i < j < |a + b| && key((a + b)[i]) == key((a + b)[j]);
      if i < |a| <= j {
        assert key(a[i]) in KeySet(a, key) && key(b[j - |a|]) in KeySet(b, key);
      }
    }
  }

  lemma KeySetAppend<T>(a: seq<T>, b: seq<T>, key: T -> string)
    ensures KeySet(a + b, key) == KeySet(a, key) + KeySet(b, key)
  {
    forall k ensures k in KeySet(a + b, key) <==> k in KeySet(a, key) + KeySet(b, key) {
      if k in KeySet(a, key) {
        var i :| 0 <= i < |a| && key(a[i]) == k;
        assert (a + b)[i] == a[i];
      }
      if k in KeySet(b, key) {
        var i :| 0 <= i < |b| && key(b[i]) == k;
        assert (a + b)[|a| + i] == b[i];
      }
    }
  }

  lemma MergeablePrefix(host: Source, a: seq<Source>, b: seq<Source>)
    requires Mergeable(host, a + b)
    ensures Mergeable(host, a)
  {
    hide Flat, Fresh, KeySet, NoRepeats;
    PartsAppend(host, a, b);
    NoRepeatsAppend(NewEvents(host, a), NewEvents(host, b), NameOf);
    NoRepeatsAppend(NewBehaviors(host, a), NewBehaviors(host, b), BehaviorName);
    NoRepeatsAppend(Flat(Fields, a), Flat(Fields, b), NameOf);
    KeySetAppend(Flat(Fields, a), Flat(Fields, b), NameOf);
  }

  lemma PartsAppend(host: Source, a: seq<Source>, b: seq<Source>)
    ensures NewEvents(host, a + b) == NewEvents(host, a) + NewEvents(host, b)
    ensures NewBehaviors(host, a + b) == NewBehaviors(host, a) + NewBehaviors(host, b)
    ensures Flat(ReducersIn, a + b) == Flat(ReducersIn, a) + Flat(ReducersIn, b)
    ensures Flat(IdentityIn, a + b) == Flat(IdentityIn, a) + Flat(IdentityIn, b)
    ensures Flat(SchemaIn, a + b) == Flat(SchemaIn, a) + Flat(SchemaIn, b)
    ensures Flat(Fields, a + b) == Flat(Fields, a) + Flat(Fields, b)
    ensures Flat(Computed, a + b) == Flat(Computed, a) + Flat(Computed, b)
    ensures Flat(Internal, a + b) == Flat(Internal, a) + Flat(Internal, b)
  {
    hide Flat, Fresh, KeySet;
    FlatAppend(EventsIn, a, b);
    FlatAppend(BehaviorsIn, a, b);
    FlatAppend(ReducersIn, a, b);
    FlatAppend(IdentityIn, a, b);
    FlatAppend(SchemaIn, a, b);
    FlatAppend(Fields, a, b);
    FlatAppend(Computed, a, b);
    FlatAppend(Internal, a, b);
    FreshAppend(Flat(EventsIn, a), Flat(EventsIn, b), KeySet(host.events, NameOf), NameOf);
    FreshAppend(Flat(BehaviorsIn, a), Flat(BehaviorsIn, b), KeySet(host.behaviors, BehaviorName), BehaviorName);
  }

  lemma PartsOne(host: Source, s: Source)
    ensures NewEvents(host, [s]) == Fresh(s.events, KeySet(host.events, NameOf), NameOf)
    ensures NewBehaviors(host, [s]) == Fresh(s.behaviors, KeySet(host.behaviors, BehaviorName), BehaviorName)
    ensures Flat(ReducersIn, [s]) == s.reducers
    ensures Flat(IdentityIn, [s]) == IdentityIn(s) && Flat(SchemaIn, [s]) == SchemaIn(s)
    ensures Flat(Fields, [s]) == Fields(s) && Flat(Computed, [s]) == Computed(s) && Flat(Internal, [s]) == Internal(s)
  {
    hide Flat, Fresh, KeySet;
    FlatOne(EventsIn, s);
    FlatOne(BehaviorsIn, s);
    FlatOne(ReducersIn, s);
    FlatOne(IdentityIn, s);
    FlatOne(SchemaIn, s);
    FlatOne(Fields, s);
    FlatOne(Computed, s);
    FlatOne(Internal, s);
  }

  // ------------------------------------------------------------- the TypeScript merger's loops

  /** Append the incoming items the host lacks; a key another fragment brought is a clash. */
  method AddKeyed<T>(incoming: seq<T>, key: T -> string, local: set<string>, included: map<string, string>,
                     target: seq<T>,
                     name: string) returns (added: Result<(map<string, string>, seq<T>), Rejection>)
    ensures added.Ok?
       <==> NoRepeats(Fresh(incoming, local, key), key) && KeySet(Fresh(incoming, local, key), key) !! included.Keys
    ensures added.Ok? ==> added.value.1 == target + Fresh(incoming, local, key)
    ensures added.Ok? ==> added.value.0.Keys == included.Keys + KeySet(Fresh(incoming, local, key), key)
  {
    hide Fresh, KeySet, NoRepeats;
    var origins, items := included, target;
    var i := 0;
    NothingFresh(incoming, local, key);
    while i < |incoming|
      invariant 0 <= i <= |incoming|
      invariant NoRepeats(Fresh(incoming[..i], local, key), key)
      invariant KeySet(Fresh(incoming[..i], local, key), key) !! included.Keys
      invariant items == target + Fresh(incoming[..i], local, key)
      invariant origins.Keys == included.Keys + KeySet(Fresh(incoming[..i], local, key), key)
    {
      var item := incoming[i];
      FreshGrows(incoming, i, local, key);
      if key(item) !in local {
        if key(item) in origins { return Err(Rejected); }
        origins := origins[key(item) := name];
        items := items + [item];
      }
      i := i + 1;
    }
    assert incoming[..i] == incoming;
    return Ok((origins, items));
  }

  lemma NothingFresh<T>(items: seq<T>, local: set<string>, key: T -> string)
    ensures Fresh(items[..0], local, key) == [] && NoRepeats<T>([], key) && KeySet<T>([], key) == {}
  {}

  /** One more incoming item: skipped when local, otherwise a new key that must not repeat. */
  lemma FreshGrows<T>(incoming: seq<T>, i: nat, local: set<string>, key: T -> string)
    requires i < |incoming|
    ensures var item, kept := incoming[i], Fresh(incoming[..i], local, key);
            var next, all := Fresh(incoming[..i + 1], local, key), Fresh(incoming, local, key);
            && (key(item) in local ==> next == kept)
            && (key(item) !in local ==>
                  && next == kept + [item] && KeySet(next, key) == KeySet(kept, key) + {key(item)}
                  && (NoRepeats(next, key) <==> NoRepeats(kept, key) && key(item) !in KeySet(kept, key)))
            && (NoRepeats(all, key) ==> NoRepeats(next, key)) && KeySet(next, key) <= KeySet(all, key)
  {
    hide Fresh, KeySet, NoRepeats;
    var item, kept := incoming[i], Fresh(incoming[..i], local, key);
    var rest := Fresh(incoming[i + 1..], local, key);
    assert incoming[..i + 1] == incoming[..i] + [item];
    assert incoming == incoming[..i + 1] + incoming[i + 1..];
    FreshAppend(incoming[..i], [item], local, key);
    FreshAppend(incoming[..i + 1], incoming[i + 1..], local, key);
    OneFresh(item, local, key);
    assert kept + [] == kept;
    NoRepeatsAppend(kept, [item], key);
    KeySetAppend(kept, [item], key);
    OneKey(item, key);
    NoRepeatsAppend(Fresh(incoming[..i + 1], local, key), rest, key);
    KeySetAppend(Fresh(incoming[..i + 1], local, key), rest, key);
  }

  lemma OneKey<T>(item: T, key: T -> string)
    ensures KeySet([item], key) == {key(item)} && NoRepeats([item], key)
  {
    assert [item][0] == item;
  }

  lemma OneFresh<T>(item: T, local: set<string>, key: T -> string)
    ensures Fresh([item], local, key) == if key(item) in local then [] else [item]
  {
    assert [item][..0] == [];
  }

  lemma {:induction false} NothingLocal<T>(items: seq<T>, key: T -> string)
    ensures Fresh(items, {}, key) == items
  {
    if items != [] {
      NothingLocal(items[..|items| - 1], key);
      assert items == items[..|items| - 1] + [items[|items| - 1]];
    }
  }

  /** mergeStateFields: a field name anyone declared before is a clash. */
  method MergeStateFields(incoming: seq<Named>, target: seq<Named>, origins: map<string, string>, name: string)
    returns (merged: Result<(map<string, string>, seq<Named>), Rejection>)
    ensures merged.Ok? <==> NoRepeats(incoming, NameOf) && KeySet(incoming, NameOf) !! origins.Keys
    ensures merged.Ok? ==> merged.value.1 == target + incoming
    ensures merged.Ok? ==> merged.value.0.Keys == origins.Keys + KeySet(incoming, NameOf)
  {
    hide Fresh, KeySet, NoRepeats;
    NothingLocal(incoming, NameOf);
    merged := AddKeyed(incoming, NameOf, {}, origins, target, name);
  }

  // ------------------------------------------------------------- the TypeScript merger's accumulators

  /** What the TypeScript merger mutates as it goes through the includes; its lists start with the
      host's own. */
  class Accumulator {
    const localEvents: set<string>
    const localBehaviors: set<string>
    var events: seq<Named>
    var behaviors: seq<BehaviorRule>
    var reducers: seq<Named>
    var identity: Option<string>
    var schema: Option<string>
    var computed: seq<Named>
    var internal: seq<Named>
    var includedEvents: map<string, string>
    var includedBehaviors: map<string, string>
    var fields: map<string, string>
    var stateChanged: bool

    constructor (host: Source)
      ensures Holds(host, []) && Mergeable(host, [])
    {
      hide Flat, Fresh, KeySet, NoRepeats, Claim, Computed, Internal, NewEvents, NewBehaviors, IdentityIn, SchemaIn,
           Mergeable, Fields;
      localEvents, localBehaviors := KeySet(host.events, NameOf), KeySet(host.behaviors, BehaviorName);
      events, behaviors, reducers := host.events, host.behaviors, host.reducers;
      identity, schema := host.identity, host.schema;
      computed, internal := Computed(host), Internal(host);
      includedEvents, includedBehaviors := map[], map[];
      fields := map k | k in KeySet(Computed(host), NameOf) + KeySet(Internal(host), NameOf) :: "host";
      stateChanged := false;
      new;
      EmptyParts(host);
      assert host.events + [] == host.events && host.behaviors + [] == host.behaviors;
      assert host.reducers + [] == host.reducers;
    }

    ghost predicate HoldsEvents(host: Source, fragments: seq<Source>)
      reads `events, `includedEvents
    {
      && localEvents == KeySet(host.events, NameOf)
      && events == host.events + NewEvents(host, fragments)
      && includedEvents.Keys == KeySet(NewEvents(host, fragments), NameOf)
    }

    ghost predicate HoldsBehaviors(host: Source, fragments: seq<Source>)
      reads `behaviors, `includedBehaviors
    {
      && localBehaviors == KeySet(host.behaviors, BehaviorName)
      && behaviors == host.behaviors + NewBehaviors(host, fragments)
      && includedBehaviors.Keys == KeySet(NewBehaviors(host, fragments), BehaviorName)
    }

    ghost predicate HoldsSingles(host: Source, fragments: seq<Source>)
      reads `reducers, `identity, `schema
    {
      && reducers == host.reducers + Flat(ReducersIn, fragments)
      && identity == Claim(IdentityIn(host) + Flat(IdentityIn, fragments))
      && schema == Claim(SchemaIn(host) + Flat(SchemaIn, fragments))
    }

    ghost predicate HoldsFields(host: Source, fragments: seq<Source>)
      reads `computed, `internal, `fields, `stateChanged
    {
      && computed == Computed(host) + Flat(Computed, fragments)
      && internal == Internal(host) + Flat(Internal, fragments)
      && fields.Keys == KeySet(Fields(host), NameOf) + KeySet(Flat(Fields, fragments), NameOf)
      && (stateChanged <==> Flat(Fields, fragments) != [])
    }

    /** The accumulators hold what these fragments contributed. */
    ghost predicate Holds(host: Source, fragments: seq<Source>)
      reads this
    {
      && HoldsEvents(host, fragments) && HoldsBehaviors(host, fragments)
      && HoldsSingles(host, fragments) && HoldsFields(host, fragments)
    }

    method IncludeEvents(host: Source, ghost sofar: seq<Source>, fragment: Source, name: string)
      returns (done: Result<(), Rejection>)
      requires HoldsEvents(host, sofar)
      modifies `events, `includedEvents
      ensures done.Ok? <==> EventsFit(host, sofar, fragment)
      ensures done.Ok? ==> HoldsEvents(host, sofar + [fragment])
    {
      hide Flat, Fresh, KeySet, NoRepeats, NewEvents, NewBehaviors;
      EventsStep(host, sofar, fragment);
      Associate(host.events, NewEvents(host, sofar), Fresh(fragment.events, localEvents, NameOf));
      var added :- AddKeyed(fragment.events, NameOf, localEvents, includedEvents, events, name);
      includedEvents, events := added.0, added.1;
      return Ok(());
    }

    method IncludeBehaviors(host: Source, ghost sofar: seq<Source>, fragment: Source, name: string)
      returns (done: Result<(), Rejection>)
      requires HoldsBehaviors(host, sofar)
      modifies `behaviors, `includedBehaviors
      ensures done.Ok? <==> BehaviorsFit(host, sofar, fragment)
      ensures done.Ok? ==> HoldsBehaviors(host, sofar + [fragment])
    {
      hide Flat, Fresh, KeySet, NoRepeats, NewEvents, NewBehaviors;
      BehaviorsStep(host, sofar, fragment);
      Associate(host.behaviors, NewBehaviors(host, sofar), Fresh(fragment.behaviors, localBehaviors, BehaviorName));
      var added :- AddKeyed(fragment.behaviors, BehaviorName, localBehaviors, includedBehaviors, behaviors, name);
      includedBehaviors, behaviors := added.0, added.1;
      return Ok(());
    }

    /** Reducers are all kept; identity and schema may come from one source only. */
    method IncludeSingles(ghost host: Source, ghost sofar: seq<Source>, fragment: Source)
      returns (done: Result<(), Rejection>)
      requires HoldsSingles(host, sofar)
      modifies `reducers, `identity, `schema
      ensures done.Ok? <==> SinglesFit(host, sofar, fragment)
      ensures done.Ok? ==> HoldsSingles(host, sofar + [fragment])
    {
      hide Flat, Claim, IdentityIn, SchemaIn;
      SinglesStep(host, sofar, fragment);
      Associate(host.reducers, Flat(ReducersIn, sofar), fragment.reducers);
      reducers := reducers + fragment.reducers;
      if fragment.identity.Some? {
        if identity.Some? { return Err(Rejected); }
        identity := fragment.identity;
      }
      if fragment.schema.Some? {
        if schema.Some? { return Err(Rejected); }
        schema := fragment.schema;
      }
      return Ok(());
    }

    /** Computed and then internal fields, against one map of origins. */
    method IncludeFields(ghost host: Source, ghost sofar: seq<Source>, fragment: Source, name: string)
      returns (done: Result<(), Rejection>)
      requires HoldsFields(host, sofar)
      modifies `computed, `internal, `fields, `stateChanged
      ensures done.Ok? <==> FieldsFit(host, sofar, fragment)
      ensures done.Ok? ==> HoldsFields(host, sofar + [fragment])
    {
      hide Flat, Fresh, KeySet, NoRepeats, Computed, Internal, Fields;
      FieldsStep(host, sofar, fragment);
      FieldsSplit(fragment);
      Associate(Computed(host), Flat(Computed, sofar), Computed(fragment));
      Associate(Internal(host), Flat(Internal, sofar), Internal(fragment));
      var first :- MergeStateFields(Computed(fragment), computed, fields, name);
      var second :- MergeStateFields(Internal(fragment), internal, first.0, name);
      fields, computed, internal := second.0, first.1, second.1;
      stateChanged := stateChanged || Computed(fragment) != [] || Internal(fragment) != [];
      return Ok(());
    }

    /** Merge one fragment: it succeeds exactly when the fragments so far stay mergeable with it. */
    method Include(host: Source, ghost sofar: seq<Source>, fragment: Source, name: string)
      returns (done: Result<(), Rejection>)
      requires Holds(host, sofar) && Mergeable(host, sofar)
      modifies this
      ensures done.Ok? <==> Mergeable(host, sofar + [fragment])
      ensures done.Ok? ==> Holds(host, sofar + [fragment])
    {
      hide Mergeable, EventsFit, BehaviorsFit, SinglesFit, FieldsFit, HoldsEvents, HoldsBehaviors, HoldsSingles,
           HoldsFields;
      MergeableStep(host, sofar, fragment);
      var _ :- IncludeEvents(host, sofar, fragment, name);
      var _ :- IncludeBehaviors(host, sofar, fragment, name);
      var _ :- IncludeSingles(host, sofar, fragment);
      var _ :- IncludeFields(host, sofar, fragment, name);
      return Ok(());
    }

    method Assemble(host: Source, ghost fragments: seq<Source>) returns (merged: Source)
      requires Holds(host, fragments)
      ensures merged == Merged(host, fragments)
    {
      hide Flat, Fresh, KeySet, Claim, IdentityIn, SchemaIn, NewEvents, NewBehaviors, Computed, Internal, Fields;
      merged := Source(events, behaviors, reducers, identity, schema,
                       if stateChanged then Some(StateFields(computed, internal)) else host.state);
    }
  }

  ghost predicate EventsFit(host: Source, sofar: seq<Source>, fragment: Source) {
    var added := Fresh(fragment.events, KeySet(host.events, NameOf), NameOf);
    NoRepeats(added, NameOf) && KeySet(added, NameOf) !! KeySet(NewEvents(host, sofar), NameOf)
  }

  ghost predicate BehaviorsFit(host: Source, sofar: seq<Source>, fragment: Source) {
    var added := Fresh(fragment.behaviors, KeySet(host.behaviors, BehaviorName), BehaviorName);
    NoRepeats(added, BehaviorName) && KeySet(added, BehaviorName) !! KeySet(NewBehaviors(host, sofar), BehaviorName)
  }

  ghost predicate FieldsFit(host: Source, sofar: seq<Source>, fragment: Source) {
    && NoRepeats(Fields(fragment), NameOf)
    && KeySet(Fields(fragment), NameOf) !! KeySet(Fields(host), NameOf) + KeySet(Flat(Fields, sofar), NameOf)
  }

  ghost predicate SinglesFit(host: Source, sofar: seq<Source>, fragment: Source) {
    && (fragment.identity.None? || Claim(IdentityIn(host) + Flat(IdentityIn, sofar)).None?)
    && (fragment.schema.None? || Claim(SchemaIn(host) + Flat(SchemaIn, sofar)).None?)
  }

  /** What one more fragment must satisfy. */
  lemma MergeableStep(host: Source, sofar: seq<Source>, fragment: Source)
    requires Mergeable(host, sofar)
    ensures Mergeable(host, sofar + [fragment])
       <==> EventsFit(host, sofar, fragment) && BehaviorsFit(host, sofar, fragment) && SinglesFit(host, sofar, fragment)
            && FieldsFit(host, sofar, fragment)
  {
    hide Flat, Fresh, KeySet, NoRepeats, NewEvents, NewBehaviors, Computed, Internal, Fields;
    PartsAppend(host, sofar, [fragment]);
    PartsOne(host, fragment);
    NoRepeatsAppend(NewEvents(host, sofar), NewEvents(host, [fragment]), NameOf);
    NoRepeatsAppend(NewBehaviors(host, sofar), NewBehaviors(host, [fragment]), BehaviorName);
    NoRepeatsAppend(Flat(Fields, sofar), Fields(fragment), NameOf);
    KeySetAppend(Flat(Fields, sofar), Fields(fragment), NameOf);
  }

  function Either(first: Option<string>, second: Option<string>): Option<string> {
    if first.Some? then first else second
  }

  lemma Associate<T>(a: seq<T>, b: seq<T>, c: seq<T>)
    ensures a + (b + c) == a + b + c
  {}

  lemma EventsStep(host: Source, sofar: seq<Source>, fragment: Source)
    ensures var added := Fresh(fragment.events, KeySet(host.events, NameOf), NameOf);
            && NewEvents(host, sofar + [fragment]) == NewEvents(host, sofar) + added
            && KeySet(NewEvents(host, sofar + [fragment]), NameOf)
            == KeySet(NewEvents(host, sofar), NameOf) + KeySet(added, NameOf)
  {
    hide Flat, Fresh, KeySet, NewEvents, NewBehaviors;
    PartsAppend(host, sofar, [fragment]);
    PartsOne(host, fragment);
    KeySetAppend(NewEvents(host, sofar), NewEvents(host, [fragment]), NameOf);
  }

  lemma BehaviorsStep(host: Source, sofar: seq<Source>, fragment: Source)
    ensures var added := Fresh(fragment.behaviors, KeySet(host.behaviors, BehaviorName), BehaviorName);
            && NewBehaviors(host, sofar + [fragment]) == NewBehaviors(host, sofar) + added
            && KeySet(NewBehaviors(host, sofar + [fragment]), BehaviorName)
               == KeySet(NewBehaviors(host, sofar), BehaviorName) + KeySet(added, BehaviorName)
  {
    hide Flat, Fresh, KeySet, NewEvents, NewBehaviors;
    PartsAppend(host, sofar, [fragment]);
    PartsOne(host, fragment);
    KeySetAppend(NewBehaviors(host, sofar), NewBehaviors(host, [fragment]), BehaviorName);
  }

  lemma SinglesStep(host: Source, sofar: seq<Source>, fragment: Source)
    ensures var all := sofar + [fragment];
            && Flat(ReducersIn, all) == Flat(ReducersIn, sofar) + fragment.reducers
            && Claim(IdentityIn(host) + Flat(IdentityIn, all))
               == Either(Claim(IdentityIn(host) + Flat(IdentityIn, sofar)), fragment.identity)
            && Claim(SchemaIn(host) + Flat(SchemaIn, all))
            == Either(Claim(SchemaIn(host) + Flat(SchemaIn, sofar)), fragment.schema)
  {
    hide Flat, Fresh, KeySet, NewEvents, NewBehaviors;
    PartsAppend(host, sofar, [fragment]);
    PartsOne(host, fragment);
    Associate(IdentityIn(host), Flat(IdentityIn, sofar), IdentityIn(fragment));
    Associate(SchemaIn(host), Flat(SchemaIn, sofar), SchemaIn(fragment));
  }

  lemma FieldsStep(host: Source, sofar: seq<Source>, fragment: Source)
    ensures var all := sofar + [fragment];
            && Flat(Computed, all) == Flat(Computed, sofar) + Computed(fragment)
            && Flat(Internal, all) == Flat(Internal, sofar) + Internal(fragment)
            && Flat(Fields, all) == Flat(Fields, sofar) + Fields(fragment)
            && KeySet(Flat(Fields, all), NameOf)
            == KeySet(Flat(Fields, sofar), NameOf) + KeySet(Fields(fragment), NameOf)
  {
    hide Flat, Fresh, KeySet, NewEvents, NewBehaviors, Fields;
    PartsAppend(host, sofar, [fragment]);
    PartsOne(host, fragment);
    KeySetAppend(Flat(Fields, sofar), Fields(fragment), NameOf);
  }

  lemma FieldsSplit(s: Source)
    ensures NoRepeats(Fields(s), NameOf)
       <==> NoRepeats(Computed(s), NameOf) && NoRepeats(Internal(s), NameOf)
            && KeySet(Computed(s), NameOf) !! KeySet(Internal(s), NameOf)
    ensures KeySet(Fields(s), NameOf) == KeySet(Computed(s), NameOf) + KeySet(Internal(s), NameOf)
    ensures Fields(s) == [] <==> Computed(s) == [] && Internal(s) == []
  {
    NoRepeatsAppend(Computed(s), Internal(s), NameOf);
    KeySetAppend(Computed(s), Internal(s), NameOf);
  }

  // ------------------------------------------------------------- the TypeScript merger, flat

  method MergeTypeScript(host: Source, fragments: seq<Source>) returns (merged: Result<Source, Rejection>)
    ensures merged == Merge(host, fragments)
  {
    hide Mergeable, Merged, Accumulator.Holds;
    if fragments == [] {
      MergeNothing(host);
      return Ok(host);
    }
    var acc := new Accumulator(host);
    var i := 0;
    while i < |fragments|
      invariant 0 <= i <= |fragments| && fresh(acc)
      invariant acc.Holds(host, fragments[..i]) && Mergeable(host, fragments[..i])
    {
      assert fragments[..i + 1] == fragments[..i] + [fragments[i]];
      assert fragments == fragments[..i + 1] + fragments[i + 1..];
      if Mergeable(host, fragments) { MergeablePrefix(host, fragments[..i + 1], fragments[i + 1..]); }
      var included := acc.Include(host, fragments[..i], fragments[i], "fragment");
      if included.Err? { return Err(Rejected); }
      i := i + 1;
    }
    assert fragments[..i] == fragments;
    var source := acc.Assemble(host, fragments);
    return Ok(source);
  }

  lemma EmptyParts(host: Source)
    ensures NewEvents(host, []) == [] && NewBehaviors(host, []) == [] && Flat(ReducersIn, []) == []
    ensures Claim(IdentityIn(host) + Flat(IdentityIn, [])) == host.identity
    ensures Claim(SchemaIn(host) + Flat(SchemaIn, [])) == host.schema
    ensures Computed(host) + Flat(Computed, []) == Computed(host)
            && Internal(host) + Flat(Internal, []) == Internal(host)
    ensures Flat(Fields, []) == [] && KeySet<Named>([], NameOf) == {} && KeySet<BehaviorRule>([], BehaviorName) == {}
    ensures KeySet(Fields(host), NameOf) == KeySet(Computed(host), NameOf) + KeySet(Internal(host), NameOf)
    ensures Mergeable(host, [])
  {
    KeySetAppend(Computed(host), Internal(host), NameOf);
  }

  lemma MergeNothing(host: Source)
    ensures Mergeable(host, []) && Merged(host, []) == host
  {}

  lemma PrefixMergeable(host: Source, head: seq<Source>, all: seq<Source>)
    requires head <= all
    ensures Mergeable(host, all) ==> Mergeable(host, head)
  {
    hide Mergeable;
    assert all == head + all[|head|..];
    if Mergeable(host, all) { MergeablePrefix(host, head, all[|head|..]); }
  }

  // ------------------------------------------------------------- what the merge is

  lemma {:induction false} FreshMembers<T>(items: seq<T>, local: set<string>, key: T -> string)
    ensures forall x :: x in Fresh(items, local, key) <==> x in items && key(x) !in local
  {
    if items != [] {
      FreshMembers(items[..|items| - 1], local, key);
      assert items == items[..|items| - 1] + [items[|items| - 1]];
    }
  }

  lemma {:induction false} FlatMembers<T>(part: Source -> seq<T>, sources: seq<Source>)
    ensures forall x :: x in Flat(part, sources) <==> exists i :: 0 <= i < |sources| && x in part(sources[i])
  {
    if sources != [] {
      var n := |sources| - 1;
      FlatMembers(part, sources[..n]);
      forall x ensures x in Flat(part, sources) <==> exists i :: 0 <= i < |sources| && x in part(sources[i]) {
        if i :| 0 <= i < |sources| && x in part(sources[i]) {
          if i < n { assert x in part(sources[..n][i]); }
        }
        if x in Flat(part, sources[..n]) {
          var i :| 0 <= i < n && x in part(sources[..n][i]);
          assert x in part(sources[i]);
        }
      }
    }
  }

  /** The host's declarations win: an event of the result is one of the host's or an included one of
      a type the host does not declare, and no type is declared twice. */
  lemma LocalWins(host: Source, fragments: seq<Source>)
    requires Mergeable(host, fragments) && NoRepeats(host.events, NameOf)
    ensures forall e :: e in Merged(host, fragments).events <==>
              e in host.events
              || (&& e.name !in KeySet(host.events, NameOf)
                  && exists i :: 0 <= i < |fragments| && e in EventsIn(fragments[i]))
    ensures NoRepeats(Merged(host, fragments).events, NameOf)
  {
    hide Flat, Fresh, KeySet, NoRepeats;
    var local, added := KeySet(host.events, NameOf), NewEvents(host, fragments);
    FreshMembers(Flat(EventsIn, fragments), local, NameOf);
    FlatMembers(EventsIn, fragments);
    NoRepeatsAppend(host.events, added, NameOf);
    assert local !! KeySet(added, NameOf) by {
      KeysComeFrom(added, NameOf);
    }
  }

  lemma KeysComeFrom<T>(items: seq<T>, key: T -> string)
    ensures forall k :: k in KeySet(items, key) ==> exists x :: x in items && key(x) == k
  {
    forall k | k in KeySet(items, key) ensures exists x :: x in items && key(x) == k {
      var i :| 0 <= i < |items| && key(items[i]) == k;
      assert items[i] in items;
    }
  }

  // ------------------------------------------------------------- the order of includes

  lemma TakenOut<T>(a: seq<T>, b: seq<T>, i: nat)
    requires multiset(a) == multiset(b) && a != [] && i < |b| && b[i] == a[|a| - 1]
    ensures multiset(a[..|a| - 1]) == multiset(b[..i] + b[i + 1..])
  {
    assert a == a[..|a| - 1] + [a[|a| - 1]];
    assert b == b[..i] + [b[i]] + b[i + 1..];
    assert multiset(b) == multiset(b[..i] + b[i + 1..]) + multiset{b[i]};
    assert multiset(a) == multiset(a[..|a| - 1]) + multiset{a[|a| - 1]};
    var left, right, last := multiset(a[..|a| - 1]), multiset(b[..i] + b[i + 1..]), multiset{b[i]};
    assert left == (left + last) - last && right == (right + last) - last;
  }

  lemma {:induction false} FlatPermuted<T>(part: Source -> seq<T>, a: seq<Source>, b: seq<Source>)
    requires multiset(a) == multiset(b)
    ensures multiset(Flat(part, a)) == multiset(Flat(part, b))
    decreases |a|
  {
    if a == [] {
      assert b == [] by { assert |multiset(b)| == |b|; }
    } else {
      var init, last := a[..|a| - 1], a[|a| - 1];
      assert a == init + [last];
      assert last in multiset(b);
      var i :| 0 <= i < |b| && b[i] == last;
      var rest := b[..i] + b[i + 1..];
      assert b == b[..i] + [last] + b[i + 1..];
      TakenOut(a, b, i);
      FlatPermuted(part, init, rest);
      FlatAppend(part, b[..i], b[i + 1..]);
      FlatAppend(part, b[..i] + [last], b[i + 1..]);
      FlatAppend(part, b[..i], [last]);
      FlatOne(part, last);
    }
  }

  lemma {:induction false} FreshPermuted<T>(a: seq<T>, b: seq<T>, local: set<string>, key: T -> string)
    requires multiset(a) == multiset(b)
    ensures multiset(Fresh(a, local, key)) == multiset(Fresh(b, local, key))
    decreases |a|
  {
    if a == [] {
      assert b == [] by { assert |multiset(b)| == |b|; }
    } else {
      var init, last := a[..|a| - 1], a[|a| - 1];
      assert a == init + [last];
      assert last in multiset(b);
      var i :| 0 <= i < |b| && b[i] == last;
      var rest := b[..i] + b[i + 1..];
      assert b == b[..i] + [last] + b[i + 1..];
      TakenOut(a, b, i);
      FreshPermuted(init, rest, local, key);
      FreshAppend(b[..i], b[i + 1..], local, key);
      FreshAppend(b[..i] + [last], b[i + 1..], local, key);
      FreshAppend(b[..i], [last], local, key);
      OneFresh(last, local, key);
    }
  }

  lemma {:induction false} NoRepeatsPermuted<T>(a: seq<T>, b: seq<T>, key: T -> string)
    requires multiset(a) == multiset(b) && NoRepeats(a, key)
    ensures NoRepeats(b, key) && KeySet(a, key) == KeySet(b, key)
    decreases |a|
  {
    if a == [] {
      assert b == [] by { assert |multiset(b)| == |b|; }
    } else {
      var init, last := a[..|a| - 1], a[|a| - 1];
      assert a == init + [last];
      assert last in multiset(b);
      var i :| 0 <= i < |b| && b[i] == last;
      var rest := b[..i] + b[i + 1..];
      assert b == b[..i] + [last] + b[i + 1..];
      TakenOut(a, b, i);
      NoRepeatsAppend(init, [last], key);
      NoRepeatsPermuted(init, rest, key);
      NoRepeatsAppend(b[..i], b[i + 1..], key);
      NoRepeatsAppend(b[..i] + [last], b[i + 1..], key);
      NoRepeatsAppend(b[..i], [last], key);
      KeySetAppend(init, [last], key);
      KeySetAppend(b[..i], b[i + 1..], key);
      KeySetAppend(b[..i] + [last], b[i + 1..], key);
      KeySetAppend(b[..i], [last], key);
    }
  }

  lemma OnlyOne(a: seq<string>, b: seq<string>)
    requires multiset(a) == multiset(b) && |a| <= 1
    ensures a == b
  {
    assert |multiset(a)| == |a| && |multiset(b)| == |b|;
    if |a| == 1 { assert b[0] in multiset(a); }
  }

  /** The same contributions up to the order they are listed in. */
  ghost predicate SameContent(a: Source, b: Source) {
    && multiset(a.events) == multiset(b.events)
    && multiset(a.behaviors) == multiset(b.behaviors)
    && multiset(a.reducers) == multiset(b.reducers)
    && a.identity == b.identity && a.schema == b.schema
    && (a.state.Some? <==> b.state.Some?)
    && multiset(Computed(a)) == multiset(Computed(b)) && multiset(Internal(a)) == multiset(Internal(b))
  }

  lemma PermutedParts(host: Source, a: seq<Source>, b: seq<Source>)
    requires multiset(a) == multiset(b)
    ensures multiset(NewEvents(host, a)) == multiset(NewEvents(host, b))
    ensures multiset(NewBehaviors(host, a)) == multiset(NewBehaviors(host, b))
    ensures multiset(Flat(ReducersIn, a)) == multiset(Flat(ReducersIn, b))
    ensures multiset(Flat(IdentityIn, a)) == multiset(Flat(IdentityIn, b))
    ensures multiset(Flat(SchemaIn, a)) == multiset(Flat(SchemaIn, b))
    ensures multiset(Flat(Fields, a)) == multiset(Flat(Fields, b))
    ensures multiset(Flat(Computed, a)) == multiset(Flat(Computed, b))
    ensures multiset(Flat(Internal, a)) == multiset(Flat(Internal, b))
  {
    hide Flat, Fresh, KeySet;
    FlatPermuted(EventsIn, a, b);
    FlatPermuted(BehaviorsIn, a, b);
    FlatPermuted(ReducersIn, a, b);
    FlatPermuted(IdentityIn, a, b);
    FlatPermuted(SchemaIn, a, b);
    FlatPermuted(Fields, a, b);
    FlatPermuted(Computed, a, b);
    FlatPermuted(Internal, a, b);
    FreshPermuted(Flat(EventsIn, a), Flat(EventsIn, b), KeySet(host.events, NameOf), NameOf);
    FreshPermuted(Flat(BehaviorsIn, a), Flat(BehaviorsIn, b), KeySet(host.behaviors, BehaviorName), BehaviorName);
  }

  lemma PermutedMergeable(host: Source, a: seq<Source>, b: seq<Source>)
    requires multiset(a) == multiset(b) && Mergeable(host, a)
    ensures Mergeable(host, b)
  {
    hide Flat, Fresh, KeySet, NoRepeats, NewEvents, NewBehaviors;
    PermutedParts(host, a, b);
    NoRepeatsPermuted(NewEvents(host, a), NewEvents(host, b), NameOf);
    NoRepeatsPermuted(NewBehaviors(host, a), NewBehaviors(host, b), BehaviorName);
    NoRepeatsPermuted(Flat(Fields, a), Flat(Fields, b), NameOf);
    OnlyOne(IdentityIn(host) + Flat(IdentityIn, a), IdentityIn(host) + Flat(IdentityIn, b));
    OnlyOne(SchemaIn(host) + Flat(SchemaIn, a), SchemaIn(host) + Flat(SchemaIn, b));
  }

  /** Reordering the includes changes neither whether they merge nor, beyond list order, the result. */
  lemma OrderDoesNotMatter(host: Source, a: seq<Source>, b: seq<Source>)
    requires multiset(a) == multiset(b)
    ensures Mergeable(host, a) <==> Mergeable(host, b)
    ensures Mergeable(host, a) ==> SameContent(Merged(host, a), Merged(host, b))
  {
    hide Flat, Fresh, KeySet, NoRepeats, NewEvents, NewBehaviors;
    if Mergeable(host, a) { PermutedMergeable(host, a, b); }
    if Mergeable(host, b) { PermutedMergeable(host, b, a); }
    if Mergeable(host, a) {
      PermutedParts(host, a, b);
      OnlyOne(IdentityIn(host) + Flat(IdentityIn, a), IdentityIn(host) + Flat(IdentityIn, b));
      OnlyOne(SchemaIn(host) + Flat(SchemaIn, a), SchemaIn(host) + Flat(SchemaIn, b));
      assert |multiset(Flat(Fields, a))| == |Flat(Fields, a)| && |multiset(Flat(Fields, b))| == |Flat(Fields, b)|;
    }
  }

  // ------------------------------------------------------------- nested TypeScript components

  type Parameters = string

  datatype Include = Include(component: string, parameters: Parameters)

  /** What a component's instantiation gives: its own parts and its own includes. */
  datatype Raw = Raw(source: Source, includes: seq<Include>)

  type Instantiate = (string, Parameters) -> Result<Raw, Rejection>

  /** Instantiating any of these components only includes components among them. */
  ghost predicate Closed(names: set<string>, instantiate: Instantiate) {
    forall name: string, parameters: Parameters :: name in names && instantiate(name, parameters).Ok? ==>
      forall i :: 0 <= i < |instantiate(name, parameters).value.includes| ==>
        instantiate(name, parameters).value.includes[i].component in names
  }

  /** A component with its nested includes merged in; a component already on the stack is a cycle.
      It ends because each level puts one more of finitely many names on the stack. */
  ghost function Compose(names: set<string>, instantiate: Instantiate, name: string, parameters: Parameters,
                         stack: set<string>)
    : Result<Source, Rejection>
    requires Closed(names, instantiate) && name in names && stack <= names
    decreases |names - stack|, 1, 0
  {
    if name in stack then Err(Rejected)
    else
      var raw :- instantiate(name, parameters);
      assert names - (stack + {name}) < names - stack by { assert name in names - stack; }
      Smaller(names - (stack + {name}), names - stack);
      var fragments :- ComposeAll(names, instantiate, raw.includes, stack + {name});
      Merge(raw.source, fragments)
  }

  ghost function ComposeAll(names: set<string>, instantiate: Instantiate, includes: seq<Include>, stack: set<string>)
    : Result<seq<Source>, Rejection>
    requires Closed(names, instantiate) && stack <= names
    requires forall i :: 0 <= i < |includes| ==> includes[i].component in names
    decreases |names - stack|, 2, |includes|
  {
    if includes == [] then Ok([])
    else
      var init :- ComposeAll(names, instantiate, includes[..|includes| - 1], stack);
      var last := includes[|includes| - 1];
      var fragment :- Compose(names, instantiate, last.component, last.parameters, stack);
      Ok(init + [fragment])
  }

  lemma Smaller(a: set<string>, b: set<string>)
    requires a < b
    ensures |a| < |b|
  {
    var x :| x in b && x !in a;
    assert a <= b - {x};
    SubsetSize(a, b - {x});
  }

  lemma {:induction false} SubsetSize(a: set<string>, b: set<string>)
    requires a <= b
    ensures |a| <= |b|
  {
    if a != {} {
      var x :| x in a;
      SubsetSize(a - {x}, b - {x});
    }
  }

  lemma {:induction false} ComposePrefix(names: set<string>, instantiate: Instantiate, a: seq<Include>,
                                         b: seq<Include>, stack: set<string>)
    requires Closed(names, instantiate) && stack <= names
    requires forall i :: 0 <= i < |a + b| ==> (a + b)[i].component in names
    ensures forall i :: 0 <= i < |a| ==> a[i].component in names
    ensures ComposeAll(names, instantiate, a + b, stack).Ok? ==>
            ComposeAll(names, instantiate, a, stack).Ok?
            && ComposeAll(names, instantiate, a, stack).value <= ComposeAll(names, instantiate, a + b, stack).value
    decreases |b|
  {
    hide Compose, Closed;
    forall i | 0 <= i < |a| ensures a[i].component in names { assert (a + b)[i] == a[i]; }
    if b == [] {
      assert a + b == a;
    } else {
      var init := b[..|b| - 1];
      assert (a + b)[..|a + b| - 1] == a + init;
      ComposePrefix(names, instantiate, a, init, stack);
    }
  }

  /** componentSource: instantiate, then merge the nested includes as they resolve. */
  method ComponentSource(ghost names: set<string>, instantiate: Instantiate, name: string, parameters: Parameters,
                         stack: seq<string>)
    returns (source: Result<Source, Rejection>)
    requires Closed(names, instantiate) && name in names && OnStack(stack) <= names
    ensures source == Compose(names, instantiate, name, parameters, OnStack(stack))
    decreases |names - OnStack(stack)|, 1
  {
    hide Closed, Mergeable, Merged, ComposeAll;
    if name in stack { return Err(Rejected); }
    var raw :- instantiate(name, parameters);
    IncludesKnown(names, instantiate, name, parameters);
    ghost var deeper := OnStack(stack) + {name};
    assert OnStack(stack + [name]) == deeper;
    assert names - deeper < names - OnStack(stack) by { assert name in names - OnStack(stack); }
    Smaller(names - deeper, names - OnStack(stack));
    source := MergeNested(names, instantiate, raw.source, raw.includes, stack + [name]);
  }

  function OnStack(stack: seq<string>): set<string> {
    set s | s in stack
  }

  lemma IncludesKnown(names: set<string>, instantiate: Instantiate, name: string, parameters: Parameters)
    requires Closed(names, instantiate) && name in names && instantiate(name, parameters).Ok?
    ensures forall i :: 0 <= i < |instantiate(name, parameters).value.includes| ==>
              instantiate(name, parameters).value.includes[i].component in names
  {}

  method MergeNested(ghost names: set<string>, instantiate: Instantiate, host: Source, includes: seq<Include>,
                     stack: seq<string>)
    returns (merged: Result<Source, Rejection>)
    requires Closed(names, instantiate) && OnStack(stack) <= names
    requires forall i :: 0 <= i < |includes| ==> includes[i].component in names
    ensures merged == MergeAll(host, ComposeAll(names, instantiate, includes, OnStack(stack)))
    decreases |names - OnStack(stack)|, 2
  {
    hide Closed, Mergeable, Compose, ComposeAll, Merged, Accumulator.Holds;
    NothingComposed(names, instantiate, includes, OnStack(stack));
    if includes == [] {
      MergeNothing(host);
      assert includes[..0] == includes;
      return Ok(host);
    }
    var acc := new Accumulator(host);
    ghost var fragments: seq<Source> := [];
    var i := 0;
    while i < |includes|
      invariant 0 <= i <= |includes| && fresh(acc)
      invariant ComposeAll(names, instantiate, includes[..i], OnStack(stack)) == Ok(fragments)
      invariant acc.Holds(host, fragments) && Mergeable(host, fragments)
    {
      NestedStep(names, instantiate, host, includes, i, OnStack(stack), fragments);
      var composed := ComponentSource(names, instantiate, includes[i].component, includes[i].parameters, stack);
      if composed.Err? { return Err(Rejected); }
      var included := acc.Include(host, fragments, composed.value, includes[i].component);
      if included.Err? { return Err(Rejected); }
      fragments := fragments + [composed.value];
      i := i + 1;
    }
    assert includes[..i] == includes;
    var source := acc.Assemble(host, fragments);
    return Ok(source);
  }

  lemma NothingComposed(names: set<string>, instantiate: Instantiate, includes: seq<Include>, stack: set<string>)
    requires Closed(names, instantiate) && stack <= names
    ensures ComposeAll(names, instantiate, includes[..0], stack) == Ok([])
  {}

  ghost function MergeAll(host: Source, fragments: Result<seq<Source>, Rejection>): Result<Source, Rejection> {
    match fragments case Ok(all) => Merge(host, all) case Err(e) => Err(e)
  }

  lemma NestedStep(names: set<string>, instantiate: Instantiate, host: Source, includes: seq<Include>, i: nat,
                   stack: set<string>,
                   fragments: seq<Source>)
    requires Closed(names, instantiate) && stack <= names && i < |includes|
    requires forall k :: 0 <= k < |includes| ==> includes[k].component in names
    requires ComposeAll(names, instantiate, includes[..i], stack) == Ok(fragments)
    ensures var next := Compose(names, instantiate, includes[i].component, includes[i].parameters, stack);
            var whole := MergeAll(host, ComposeAll(names, instantiate, includes, stack));
            && (next.Err? ==> whole == Err(Rejected))
            && (next.Ok? ==> ComposeAll(names, instantiate, includes[..i + 1], stack) == Ok(fragments + [next.value]))
            && (next.Ok? && !Mergeable(host, fragments + [next.value]) ==> whole == Err(Rejected))
  {
    hide Mergeable, Compose, Merged, Closed;
    var all := ComposeAll(names, instantiate, includes, stack);
    assert includes[..i + 1][..i] == includes[..i];
    assert includes == includes[..i + 1] + includes[i + 1..];
    ComposePrefix(names, instantiate, includes[..i + 1], includes[i + 1..], stack);
    if all.Err? {
      OnlyRejection(all.error);
    } else {
      PrefixMergeable(host, ComposeAll(names, instantiate, includes[..i + 1], stack).value, all.value);
    }
  }

  /** The stack only detects cycles: what composes under a stack composes the same under less of it. */
  lemma {:induction false} StackOnlyDetectsCycles(names: set<string>, instantiate: Instantiate, name: string,
                                                  parameters: Parameters,
                                                  stack: set<string>, less: set<string>)
    requires Closed(names, instantiate) && name in names && less <= stack <= names
    requires Compose(names, instantiate, name, parameters, stack).Ok?
    ensures Compose(names, instantiate, name, parameters, less) == Compose(names, instantiate, name, parameters, stack)
    decreases |names - stack|, 1, 0
  {
    hide Closed, Mergeable, Merged;
    var raw := instantiate(name, parameters).value;
    IncludesKnown(names, instantiate, name, parameters);
    assert names - (stack + {name}) < names - stack by { assert name in names - stack; }
    Smaller(names - (stack + {name}), names - stack);
    AllUnderLess(names, instantiate, raw.includes, stack + {name}, less + {name});
  }

  lemma {:induction false} AllUnderLess(names: set<string>, instantiate: Instantiate, includes: seq<Include>,
                                        stack: set<string>, less: set<string>)
    requires Closed(names, instantiate) && less <= stack <= names
    requires forall i :: 0 <= i < |includes| ==> includes[i].component in names
    requires ComposeAll(names, instantiate, includes, stack).Ok?
    ensures ComposeAll(names, instantiate, includes, less) == ComposeAll(names, instantiate, includes, stack)
    decreases |names - stack|, 2, |includes|
  {
    hide Closed, Compose;
    if includes != [] {
      var last := includes[|includes| - 1];
      AllUnderLess(names, instantiate, includes[..|includes| - 1], stack, less);
      StackOnlyDetectsCycles(names, instantiate, last.component, last.parameters, stack, less);
    }
  }
}
