// The YAML linker's include merger, over a catalog of boundaries (src/dsl/componentLinker.ts:
// mergeIncludes, mergeFragment): its own fragment step, proved against the same reference merge as
// the TypeScript merger, and so the agreement of the two.
module YamlIncludes {
  import opened Includes
  import opened Wrappers

  // ------------------------------------------------------------- the YAML merger, over a catalog

  datatype Component = Component(
    name: string, reactive: bool, nested: seq<Include>, substitute: Parameters -> Result<Source, Rejection>)

  datatype Host = Host(name: string, path: string, source: Source, includes: seq<Include>)

  predicate DispatchesKnown(behaviors: seq<BehaviorRule>, known: set<string>) {
    forall i, k :: 0 <= i < |behaviors| && 0 <= k < |behaviors[i].dispatches| ==> behaviors[i].dispatches[k] in known
  }

  /** The fragment one include stands for: a known component without reactions or includes of its
      own, whose behaviors dispatch only to known boundaries. */
  function Resolve(components: map<string, Component>, known: set<string>, entry: Include): Result<Source, Rejection> {
    if entry.component !in components then Err(Rejected)
    else
      var component := components[entry.component];
      if component.reactive || component.nested != [] then Err(Rejected)
      else
        var fragment :- component.substitute(entry.parameters);
        if DispatchesKnown(fragment.behaviors, known) then Ok(fragment) else Err(Rejected)
  }

  function ResolveAll(components: map<string, Component>, known: set<string>, entries: seq<Include>)
    : Result<seq<Source>, Rejection>
  {
    if entries == [] then Ok([])
    else
      var init :- ResolveAll(components, known, entries[..|entries| - 1]);
      var last :- Resolve(components, known, entries[|entries| - 1]);
      Ok(init + [last])
  }

  ghost function MergeHost(components: map<string, Component>, known: set<string>, host: Host): Result<Host, Rejection>
  {
    var fragments :- ResolveAll(components, known, host.includes);
    var merged :- Merge(host.source, fragments);
    Ok(host.(source := merged))
  }

  lemma {:induction false} ResolvePrefix(components: map<string, Component>, known: set<string>, a: seq<Include>,
                                         b: seq<Include>)
    ensures ResolveAll(components, known, a + b).Ok? ==>
            && ResolveAll(components, known, a).Ok?
            && ResolveAll(components, known, a).value <= ResolveAll(components, known, a + b).value
    decreases |b|
  {
    hide Resolve;
    if b == [] {
      assert a + b == a;
    } else {
      assert (a + b)[..|a + b| - 1] == a + b[..|b| - 1];
      ResolvePrefix(components, known, a, b[..|b| - 1]);
    }
  }

  // ------------------------------------------------------------- one fragment

  lemma KeyGrows<T>(items: seq<T>, i: nat, key: T -> string)
    requires i < |items|
    ensures NoRepeats(items[..i + 1], key) <==> NoRepeats(items[..i], key) && key(items[i]) !in KeySet(items[..i], key)
    ensures KeySet(items[..i + 1], key) == KeySet(items[..i], key) + {key(items[i])}
    ensures NoRepeats(items, key) ==> NoRepeats(items[..i + 1], key)
    ensures KeySet(items[..i + 1], key) <= KeySet(items, key)
  {
    hide KeySet, NoRepeats;
    assert items[..i + 1] == items[..i] + [items[i]];
    assert items == items[..i + 1] + items[i + 1..];
    OneKey(items[i], key);
    NoRepeatsAppend(items[..i], [items[i]], key);
    NoRepeatsAppend(items[..i + 1], items[i + 1..], key);
    KeySetAppend(items[..i], [items[i]], key);
    KeySetAppend(items[..i + 1], items[i + 1..], key);
  }

  /** What the linker gathers from the fragments of one host. Its lists start empty, apart from the
      state fields, and its maps remember which component brought each key. */
  class Gathering {
    const localEventTypes: set<string>
    const localBehaviorNames: set<string>
    var catalog: seq<Named>
    var behaviors: seq<BehaviorRule>
    var reducers: seq<Named>
    var includedEventTypes: map<string, string>
    var includedReducerOns: map<string, string>
    var includedBehaviorNames: map<string, string>
    var identity: Option<string>
    var schema: Option<string>
    var computed: seq<Named>
    var internal: seq<Named>
    var stateFieldSource: map<string, string>
    var stateChanged: bool

    constructor (host: Host)
      ensures Gathers(host.source, []) && Mergeable(host.source, [])
    {
      hide Flat, Fresh, KeySet, NoRepeats, Claim, Computed, Internal, NewEvents, NewBehaviors, IdentityIn, SchemaIn,
           Mergeable, Fields;
      localEventTypes := KeySet(host.source.events, NameOf);
      localBehaviorNames := KeySet(host.source.behaviors, BehaviorName);
      catalog, behaviors, reducers := [], [], [];
      includedEventTypes, includedReducerOns, includedBehaviorNames := map[], map[], map[];
      identity, schema := host.source.identity, host.source.schema;
      computed, internal := Computed(host.source), Internal(host.source);
      stateFieldSource :=
        map k | k in KeySet(Computed(host.source), NameOf) + KeySet(Internal(host.source), NameOf) :: host.name;
      stateChanged := false;
      new;
      EmptyParts(host.source);
    }

    /** The accumulators hold what these fragments contributed, and nothing of the host's lists. */
    ghost predicate Gathers(host: Source, fragments: seq<Source>)
      reads this
    {
      && GathersLists(host, fragments)
      && identity == Claim(IdentityIn(host) + Flat(IdentityIn, fragments))
      && schema == Claim(SchemaIn(host) + Flat(SchemaIn, fragments))
      && GathersFields(host, fragments)
    }

    ghost predicate GathersLists(host: Source, fragments: seq<Source>)
      reads `catalog, `behaviors, `reducers, `includedEventTypes, `includedBehaviorNames
    {
      && localEventTypes == KeySet(host.events, NameOf)
      && localBehaviorNames == KeySet(host.behaviors, BehaviorName)
      && catalog == NewEvents(host, fragments)
      && behaviors == NewBehaviors(host, fragments)
      && reducers == Flat(ReducersIn, fragments)
      && includedEventTypes.Keys == KeySet(NewEvents(host, fragments), NameOf)
      && includedBehaviorNames.Keys == KeySet(NewBehaviors(host, fragments), BehaviorName)
    }

    ghost predicate GathersFields(host: Source, fragments: seq<Source>)
      reads `computed, `internal, `stateFieldSource, `stateChanged
    {
      && computed == Computed(host) + Flat(Computed, fragments)
      && internal == Internal(host) + Flat(Internal, fragments)
      && stateFieldSource.Keys == KeySet(Fields(host), NameOf) + KeySet(Flat(Fields, fragments), NameOf)
      && (stateChanged <==> Flat(Fields, fragments) != [])
    }

    /** Event types: the host's own win, and no two fragments bring the same one. */
    method MergeEvents(incoming: seq<Named>, name: string) returns (done: Result<(), Rejection>)
      modifies `catalog, `includedEventTypes
      ensures done.Ok? <==>
                && NoRepeats(Fresh(incoming, localEventTypes, NameOf), NameOf)
                && KeySet(Fresh(incoming, localEventTypes, NameOf), NameOf) !! old(includedEventTypes.Keys)
      ensures done.Ok? ==>
                && catalog == old(catalog) + Fresh(incoming, localEventTypes, NameOf)
                && includedEventTypes.Keys
                     == old(includedEventTypes.Keys) + KeySet(Fresh(incoming, localEventTypes, NameOf), NameOf)
    {
      hide Fresh, KeySet, NoRepeats;
      NothingFresh(incoming, localEventTypes, NameOf);
      var i := 0;
      while i < |incoming|
        invariant 0 <= i <= |incoming|
        invariant NoRepeats(Fresh(incoming[..i], localEventTypes, NameOf), NameOf)
        invariant KeySet(Fresh(incoming[..i], localEventTypes, NameOf), NameOf) !! old(includedEventTypes.Keys)
        invariant catalog == old(catalog) + Fresh(incoming[..i], localEventTypes, NameOf)
        invariant includedEventTypes.Keys
               == old(includedEventTypes.Keys) + KeySet(Fresh(incoming[..i], localEventTypes, NameOf), NameOf)
      {
        var entry := incoming[i];
        FreshGrows(incoming, i, localEventTypes, NameOf);
        i := i + 1;
        if entry.name in localEventTypes { continue; }
        if entry.name in includedEventTypes { return Err(Rejected); }
        includedEventTypes := includedEventTypes[entry.name := name];
        catalog := catalog + [entry];
      }
      assert incoming[..i] == incoming;
      return Ok(());
    }

    /** Reducers have no unique key: all of them are appended. */
    method MergeReducers(incoming: seq<Named>, name: string)
      modifies `reducers, `includedReducerOns
      ensures reducers == old(reducers) + incoming
    {
      var i := 0;
      while i < |incoming|
        invariant 0 <= i <= |incoming|
        invariant reducers == old(reducers) + incoming[..i]
      {
        includedReducerOns := includedReducerOns[incoming[i].name := name];
        reducers := reducers + [incoming[i]];
        i := i + 1;
      }
    }

    method MergeBehaviors(incoming: seq<BehaviorRule>, name: string) returns (done: Result<(), Rejection>)
      modifies `behaviors, `includedBehaviorNames
      ensures done.Ok? <==>
                && NoRepeats(Fresh(incoming, localBehaviorNames, BehaviorName), BehaviorName)
                && KeySet(Fresh(incoming, localBehaviorNames, BehaviorName), BehaviorName)
                !! old(includedBehaviorNames.Keys)
      ensures done.Ok? ==>
                && behaviors == old(behaviors) + Fresh(incoming, localBehaviorNames, BehaviorName)
                && includedBehaviorNames.Keys
                     == old(includedBehaviorNames.Keys)
                        + KeySet(Fresh(incoming, localBehaviorNames, BehaviorName), BehaviorName)
    {
      hide Fresh, KeySet, NoRepeats;
      NothingFresh(incoming, localBehaviorNames, BehaviorName);
      var i := 0;
      while i < |incoming|
        invariant 0 <= i <= |incoming|
        invariant NoRepeats(Fresh(incoming[..i], localBehaviorNames, BehaviorName), BehaviorName)
        invariant KeySet(Fresh(incoming[..i], localBehaviorNames, BehaviorName), BehaviorName)
               !! old(includedBehaviorNames.Keys)
        invariant behaviors == old(behaviors) + Fresh(incoming[..i], localBehaviorNames, BehaviorName)
        invariant includedBehaviorNames.Keys
               == old(includedBehaviorNames.Keys)
                  + KeySet(Fresh(incoming[..i], localBehaviorNames, BehaviorName), BehaviorName)
      {
        var behavior := incoming[i];
        FreshGrows(incoming, i, localBehaviorNames, BehaviorName);
        i := i + 1;
        if behavior.name in localBehaviorNames { continue; }
        if behavior.name in includedBehaviorNames { return Err(Rejected); }
        includedBehaviorNames := includedBehaviorNames[behavior.name := name];
        behaviors := behaviors + [behavior];
      }
      assert incoming[..i] == incoming;
      return Ok(());
    }

    /** mergeFragment: events, then reducers, then behaviors. */
    method MergeFragment(ghost host: Source, ghost sofar: seq<Source>, fragment: Source, name: string)
      returns (done: Result<(), Rejection>)
      requires GathersLists(host, sofar)
      modifies `catalog, `behaviors, `reducers, `includedEventTypes, `includedReducerOns, `includedBehaviorNames
      ensures done.Ok? <==> EventsFit(host, sofar, fragment) && BehaviorsFit(host, sofar, fragment)
      ensures done.Ok? ==> GathersLists(host, sofar + [fragment])
    {
      hide Flat, Fresh, KeySet, NoRepeats, NewEvents, NewBehaviors;
      EventsStep(host, sofar, fragment);
      BehaviorsStep(host, sofar, fragment);
      SinglesStep(host, sofar, fragment);
      var _ :- MergeEvents(fragment.events, name);
      MergeReducers(fragment.reducers, name);
      var _ :- MergeBehaviors(fragment.behaviors, name);
      return Ok(());
    }

    /** Identity and schema may come from one source each, the host included. */
    method ComposeSingles(ghost host: Source, ghost sofar: seq<Source>, fragment: Source)
      returns (done: Result<(), Rejection>)
      requires identity == Claim(IdentityIn(host) + Flat(IdentityIn, sofar))
      requires schema == Claim(SchemaIn(host) + Flat(SchemaIn, sofar))
      modifies `identity, `schema
      ensures done.Ok? <==> SinglesFit(host, sofar, fragment)
      ensures done.Ok? ==> identity == Claim(IdentityIn(host) + Flat(IdentityIn, sofar + [fragment]))
      ensures done.Ok? ==> schema == Claim(SchemaIn(host) + Flat(SchemaIn, sofar + [fragment]))
    {
      hide Flat, Claim, IdentityIn, SchemaIn;
      SinglesStep(host, sofar, fragment);
      if fragment.identity.Some? {
        if identity.Some? { return Err(Rejected); }
        identity := fragment.identity;
      }
      if fragment.schema.Some? {
        if schema.Some? { return Err(Rejected); }
        schema := fragment.schema;
      }
      return Ok(());
    }

    /** State fields: a name that anyone declared before is a clash. */
    method ComposeComputed(incoming: seq<Named>, name: string) returns (done: Result<(), Rejection>)
      modifies `computed, `stateFieldSource, `stateChanged
      ensures done.Ok? <==> NoRepeats(incoming, NameOf) && KeySet(incoming, NameOf) !! old(stateFieldSource.Keys)
      ensures done.Ok? ==> computed == old(computed) + incoming
      ensures done.Ok? ==> (stateChanged <==> old(stateChanged) || incoming != [])
      ensures done.Ok? ==> stateFieldSource.Keys == old(stateFieldSource.Keys) + KeySet(incoming, NameOf)
    {
      hide KeySet, NoRepeats;
      EmptyKeys(incoming);
      var i := 0;
      while i < |incoming|
        invariant 0 <= i <= |incoming|
        invariant NoRepeats(incoming[..i], NameOf) && KeySet(incoming[..i], NameOf) !! old(stateFieldSource.Keys)
        invariant computed == old(computed) + incoming[..i] && (stateChanged <==> old(stateChanged) || i > 0)
        invariant stateFieldSource.Keys == old(stateFieldSource.Keys) + KeySet(incoming[..i], NameOf)
      {
        var field := incoming[i];
        KeyGrows(incoming, i, NameOf);
        if field.name in stateFieldSource { return Err(Rejected); }
        stateFieldSource := stateFieldSource[field.name := name];
        computed := computed + [field];
        stateChanged := true;
        i := i + 1;
      }
      assert incoming[..i] == incoming;
      return Ok(());
    }

    method ComposeInternal(incoming: seq<Named>, name: string) returns (done: Result<(), Rejection>)
      modifies `internal, `stateFieldSource, `stateChanged
      ensures done.Ok? <==> NoRepeats(incoming, NameOf) && KeySet(incoming, NameOf) !! old(stateFieldSource.Keys)
      ensures done.Ok? ==> internal == old(internal) + incoming
      ensures done.Ok? ==> (stateChanged <==> old(stateChanged) || incoming != [])
      ensures done.Ok? ==> stateFieldSource.Keys == old(stateFieldSource.Keys) + KeySet(incoming, NameOf)
    {
      hide KeySet, NoRepeats;
      EmptyKeys(incoming);
      var i := 0;
      while i < |incoming|
        invariant 0 <= i <= |incoming|
        invariant NoRepeats(incoming[..i], NameOf) && KeySet(incoming[..i], NameOf) !! old(stateFieldSource.Keys)
        invariant internal == old(internal) + incoming[..i] && (stateChanged <==> old(stateChanged) || i > 0)
        invariant stateFieldSource.Keys == old(stateFieldSource.Keys) + KeySet(incoming[..i], NameOf)
      {
        var field := incoming[i];
        KeyGrows(incoming, i, NameOf);
        if field.name in stateFieldSource { return Err(Rejected); }
        stateFieldSource := stateFieldSource[field.name := name];
        internal := internal + [field];
        stateChanged := true;
        i := i + 1;
      }
      assert incoming[..i] == incoming;
      return Ok(());
    }

    method ComposeState(ghost host: Source, ghost sofar: seq<Source>, fragment: Source, name: string)
      returns (done: Result<(), Rejection>)
      requires GathersFields(host, sofar)
      modifies `computed, `internal, `stateFieldSource, `stateChanged
      ensures done.Ok? <==> FieldsFit(host, sofar, fragment)
      ensures done.Ok? ==> GathersFields(host, sofar + [fragment])
    {
      hide Flat, KeySet, NoRepeats, Computed, Internal, Fields;
      FieldsStep(host, sofar, fragment);
      FieldsSplit(fragment);
      Associate(Computed(host), Flat(Computed, sofar), Computed(fragment));
      Associate(Internal(host), Flat(Internal, sofar), Internal(fragment));
      var _ :- ComposeComputed(Computed(fragment), name);
      var _ :- ComposeInternal(Internal(fragment), name);
      return Ok(());
    }

    /** Merge one fragment: it succeeds exactly when the fragments so far stay mergeable with it. */
    method Gather(ghost host: Source, ghost sofar: seq<Source>, fragment: Source, name: string)
      returns (done: Result<(), Rejection>)
      requires Gathers(host, sofar) && Mergeable(host, sofar)
      modifies this
      ensures done.Ok? <==> Mergeable(host, sofar + [fragment])
      ensures done.Ok? ==> Gathers(host, sofar + [fragment])
    {
      hide Mergeable, EventsFit, BehaviorsFit, SinglesFit, FieldsFit, GathersLists, GathersFields, Flat, Claim;
      MergeableStep(host, sofar, fragment);
      var _ :- MergeFragment(host, sofar, fragment, name);
      var _ :- ComposeSingles(host, sofar, fragment);
      var _ :- ComposeState(host, sofar, fragment, name);
      return Ok(());
    }

    /** The host's lists with the gathered ones appended, or the very host if nothing was gathered. */
    method Assemble(host: Host, ghost fragments: seq<Source>) returns (merged: Host)
      requires Gathers(host.source, fragments)
      ensures merged == host.(source := Merged(host.source, fragments))
    {
      hide Flat, Fresh, KeySet, Claim, IdentityIn, SchemaIn, NewEvents, NewBehaviors, Computed, Internal, Fields;
      var source := host.source;
      assert source.events + [] == source.events && source.behaviors + [] == source.behaviors
             && source.reducers + [] == source.reducers;
      if && catalog == [] && reducers == [] && behaviors == []
         && identity == source.identity && schema == source.schema && !stateChanged {
        return host;
      }
      return host.(source := Source(
        source.events + catalog, source.behaviors + behaviors, source.reducers + reducers, identity, schema,
        if stateChanged then Some(StateFields(computed, internal)) else source.state));
    }
  }

  lemma EmptyKeys(items: seq<Named>)
    ensures items[..0] == [] && NoRepeats<Named>([], NameOf) && KeySet<Named>([], NameOf) == {}
  {}

  // ------------------------------------------------------------- one host

  method MergeYamlHost(components: map<string, Component>, known: set<string>, host: Host)
    returns (merged: Result<Host, Rejection>)
    ensures merged == MergeHost(components, known, host)
  {
    hide Mergeable, Resolve, ResolveAll, Merged, MergeHost, Gathering.Gathers;
    NothingResolved(components, known, host);
    var gathering := new Gathering(host);
    ghost var fragments: seq<Source> := [];
    var i := 0;
    while i < |host.includes|
      invariant 0 <= i <= |host.includes| && fresh(gathering)
      invariant ResolveAll(components, known, host.includes[..i]) == Ok(fragments)
      invariant gathering.Gathers(host.source, fragments) && Mergeable(host.source, fragments)
    {
      HostStep(components, known, host, i, fragments);
      var resolved := ResolveInclude(components, known, host.includes[i]);
      if resolved.Err? { return Err(Rejected); }
      var gathered := gathering.Gather(host.source, fragments, resolved.value, host.includes[i].component);
      if gathered.Err? { return Err(Rejected); }
      fragments := fragments + [resolved.value];
      i := i + 1;
    }
    assert host.includes[..i] == host.includes;
    HostMerged(components, known, host, fragments);
    var whole := gathering.Assemble(host, fragments);
    return Ok(whole);
  }

  lemma NothingResolved(components: map<string, Component>, known: set<string>, host: Host)
    ensures ResolveAll(components, known, host.includes[..0]) == Ok([])
  {}

  lemma HostMerged(components: map<string, Component>, known: set<string>, host: Host, fragments: seq<Source>)
    requires ResolveAll(components, known, host.includes) == Ok(fragments) && Mergeable(host.source, fragments)
    ensures MergeHost(components, known, host) == Ok(host.(source := Merged(host.source, fragments)))
  {
    hide Mergeable, Merged, ResolveAll;
  }

  /** What the next include decides: the host cannot merge unless it resolves and stays mergeable. */
  lemma HostStep(components: map<string, Component>, known: set<string>, host: Host, i: nat, fragments: seq<Source>)
    requires i < |host.includes| && ResolveAll(components, known, host.includes[..i]) == Ok(fragments)
    ensures var next := Resolve(components, known, host.includes[i]);
            && (next.Err? ==> MergeHost(components, known, host) == Err(Rejected))
            && (next.Ok? ==> ResolveAll(components, known, host.includes[..i + 1]) == Ok(fragments + [next.value]))
            && (next.Ok? && !Mergeable(host.source, fragments + [next.value]) ==>
                  MergeHost(components, known, host) == Err(Rejected))
  {
    hide Mergeable, Resolve, Merged;
    var includes := host.includes;
    var all := ResolveAll(components, known, includes);
    assert includes[..i + 1][..i] == includes[..i];
    assert includes == includes[..i + 1] + includes[i + 1..];
    ResolvePrefix(components, known, includes[..i + 1], includes[i + 1..]);
    if all.Err? {
      OnlyRejection(all.error);
    } else {
      PrefixMergeable(host.source, ResolveAll(components, known, includes[..i + 1]).value, all.value);
    }
  }

  method ResolveInclude(components: map<string, Component>, known: set<string>, entry: Include)
    returns (fragment: Result<Source, Rejection>)
    ensures fragment == Resolve(components, known, entry)
  {
    if entry.component !in components { return Err(Rejected); }
    var component := components[entry.component];
    if component.reactive { return Err(Rejected); }
    if component.nested != [] { return Err(Rejected); }
    var substituted :- component.substitute(entry.parameters);
    var i := 0;
    while i < |substituted.behaviors|
      invariant 0 <= i <= |substituted.behaviors|
      invariant DispatchesKnown(substituted.behaviors[..i], known)
    {
      var targets, k := substituted.behaviors[i].dispatches, 0;
      while k < |targets|
        invariant 0 <= k <= |targets|
        invariant forall j :: 0 <= j < k ==> targets[j] in known
      {
        if targets[k] !in known { return Err(Rejected); }
        k := k + 1;
      }
      i := i + 1;
    }
    assert substituted.behaviors[..i] == substituted.behaviors;
    return Ok(substituted);
  }

  /** The live boundaries and their two indexes, all updated in place. */
  class Catalog {
    const boundaries: array<Host>
    var byName: map<string, Host>
    var byPath: map<string, Host>

    constructor (hosts: array<Host>, names: map<string, Host>, paths: map<string, Host>)
      ensures boundaries == hosts && byName == names && byPath == paths
    {
      boundaries, byName, byPath := hosts, names, paths;
    }

    /** Names and paths are unique, and both indexes hold the very boundaries of the array. */
    ghost predicate Indexed()
      reads this, boundaries
    {
      && (forall i, j :: 0 <= i < j < boundaries.Length ==>
            boundaries[i].name != boundaries[j].name && boundaries[i].path != boundaries[j].path)
      && (forall i :: 0 <= i < boundaries.Length ==>
            && boundaries[i].name in byName && byName[boundaries[i].name] == boundaries[i]
            && boundaries[i].path in byPath && byPath[boundaries[i].path] == boundaries[i])
    }

    method Replace(index: nat, merged: Host)
      requires Indexed() && index < boundaries.Length
      requires merged.name == boundaries[index].name && merged.path == boundaries[index].path
      modifies this, boundaries
      ensures Indexed() && byName.Keys == old(byName.Keys) && byPath.Keys == old(byPath.Keys)
      ensures boundaries[index] == merged
      ensures forall i :: 0 <= i < boundaries.Length && i != index ==> boundaries[i] == old(boundaries[i])
    {
      boundaries[index] := merged;
      byName := byName[merged.name := merged];
      byPath := byPath[merged.path := merged];
    }

    /** Every boundary is replaced by its merge, in the array and in both indexes, or one of them
        cannot be merged. */
    method MergeIncludes(components: map<string, Component>) returns (done: Result<(), Rejection>)
      requires Indexed()
      modifies this, boundaries
      ensures Indexed() && byName.Keys == old(byName.Keys) && byPath.Keys == old(byPath.Keys)
      ensures done.Ok? ==> forall i :: 0 <= i < boundaries.Length ==>
                MergeHost(components, old(byName.Keys), old(boundaries[..])[i]) == Ok(boundaries[i])
      ensures done.Err? ==>
                exists i :: 0 <= i < boundaries.Length
                  && MergeHost(components, old(byName.Keys), old(boundaries[..])[i]).Err?
    {
      hide MergeHost, Indexed;
      ghost var hosts := boundaries[..];
      var index := 0;
      while index < boundaries.Length
        invariant 0 <= index <= boundaries.Length
        invariant Indexed() && byName.Keys == old(byName.Keys) && byPath.Keys == old(byPath.Keys)
        invariant forall i :: 0 <= i < index ==> MergeHost(components, old(byName.Keys), hosts[i]) == Ok(boundaries[i])
        invariant forall i :: index <= i < boundaries.Length ==> boundaries[i] == hosts[i]
      {
        var host := boundaries[index];
        if host.includes != [] {
          var merged := MergeYamlHost(components, byName.Keys, host);
          if merged.Err? { return Err(Rejected); }
          MergedKeepsNames(components, byName.Keys, host);
          Replace(index, merged.value);
        } else {
          NoIncludesNoChange(components, byName.Keys, host);
        }
        index := index + 1;
      }
      return Ok(());
    }
  }

  lemma MergedKeepsNames(components: map<string, Component>, known: set<string>, host: Host)
    ensures var merged := MergeHost(components, known, host);
            merged.Ok? ==> merged.value.name == host.name && merged.value.path == host.path
  {
    hide Mergeable, Merged, ResolveAll;
  }

  lemma NoIncludesNoChange(components: map<string, Component>, known: set<string>, host: Host)
    requires host.includes == []
    ensures MergeHost(components, known, host) == Ok(host)
  {
    MergeNothing(host.source);
  }

  /** The two mergers agree: run on the same host and fragments, the TypeScript merger and the YAML
      merger succeed together, with the same source. The fragments are those the YAML merger accepts
      at all: of known components without reactions or includes, dispatching to known boundaries. */
  method MergersAgree(components: map<string, Component>, known: set<string>, host: Host, fragments: seq<Source>)
    returns (typescript: Result<Source, Rejection>, yaml: Result<Host, Rejection>)
    requires ResolveAll(components, known, host.includes) == Ok(fragments)
    ensures typescript.Ok? <==> yaml.Ok?
    ensures typescript.Ok? ==> yaml.value == host.(source := typescript.value)
    ensures typescript.Ok? <==> Mergeable(host.source, fragments)
  {
    hide Mergeable, Merged, ResolveAll;
    typescript := MergeTypeScript(host.source, fragments);
    yaml := MergeYamlHost(components, known, host);
  }
}
