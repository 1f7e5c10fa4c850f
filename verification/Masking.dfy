// Masking a response body in two ways: walking it, and compiling replace patches a forwarding
// transport applies (src/core/responsePolicies.ts: maskValues, compileMaskValuePatches; replace as
// in section 4.3 of RFC 6902). Masks are bare field names.
module Masking {
  import opened Json
  import opened Pointers
  import opened Wrappers

  const MASKED := Str("[MASKED]")

  type Path = seq<string>

  /** A JSON object never repeats a member. */
  predicate Distinct(v: Json)
    decreases v, 1
  {
    match v
    case Obj(fields) =>
      (forall i, j :: 0 <= i < j < |fields| ==> fields[i].name != fields[j].name)
      && forall i :: 0 <= i < |fields| ==> Distinct(fields[i].value)
    case Arr(items) => forall i :: 0 <= i < |items| ==> Distinct(items[i])
    case _ => true
  }

  // ------------------------------------------------------------- the walk

  /** Every masked field, at any depth, becomes the mask; nothing else changes. */
  function Mask(v: Json, bare: seq<string>): (masked: Json)
    decreases v
  {
    match v
    case Obj(fields) =>
      Obj(seq(|fields|, i requires 0 <= i < |fields| =>
        Field(fields[i].name, if fields[i].name in bare then MASKED else Mask(fields[i].value, bare))))
    case Arr(items) => Arr(seq(|items|, i requires 0 <= i < |items| => Mask(items[i], bare)))
    case _ => v
  }

  /** Where a member is, or the number of members. */
  function IndexOf(fields: Object, name: string): (at: nat)
    ensures at <= |fields|
    ensures forall i :: 0 <= i < at ==> fields[i].name != name
    ensures at < |fields| ==> fields[at].name == name
  {
    if fields == [] then 0
    else if fields[0].name == name then 0
    else 1 + IndexOf(fields[1..], name)
  }

  /** The members named in `done` hold the mask. */
  function Covered(fields: Object, done: set<string>): (covered: Object)
    ensures |covered| == |fields|
    ensures forall i :: 0 <= i < |fields| ==>
      covered[i] == Field(fields[i].name, if fields[i].name in done then MASKED else fields[i].value)
  {
    seq(|fields|, i requires 0 <= i < |fields| =>
      Field(fields[i].name, if fields[i].name in done then MASKED else fields[i].value))
  }

  function Names(bare: seq<string>): set<string> {
    set f | f in bare
  }

  lemma SetAt(fields: Object, name: string, value: Json)
    ensures var at := IndexOf(fields, name);
            at < |fields| ==> Set(fields, name, value) == fields[at := Field(name, value)]
  {
    if fields != [] && fields[0].name != name {
      SetAt(fields[1..], name, value);
      var at := IndexOf(fields[1..], name);
      assert fields == [fields[0]] + fields[1..];
      if at < |fields[1..]| {
        assert fields[at + 1 := Field(name, value)] == [fields[0]] + fields[1..][at := Field(name, value)];
      }
    }
  }

  /** The visit of transformMaskedBody: overwrite the object's own masked members, then visit every
      member, the overwritten ones included. */
  method MaskValue(v: Json, bare: seq<string>) returns (masked: Json)
    requires Distinct(v)
    ensures masked == Mask(v, bare)
    decreases v
  {
    match v {
      case Arr(items) =>
        var visited: seq<Json>, i := [], 0;
        while i < |items|
          invariant 0 <= i <= |items| && |visited| == i
          invariant forall k :: 0 <= k < i ==> visited[k] == Mask(items[k], bare)
        {
          var item := MaskValue(items[i], bare);
          visited := visited + [item];
          i := i + 1;
        }
        assert Mask(v, bare).Arr? && Mask(v, bare).items == visited;
        return Arr(visited);
      case Obj(fields) =>
        var current := OverwriteOwn(fields, bare);
        var i := 0;
        while i < |fields|
          invariant 0 <= i <= |fields| && |current| == |fields|
          invariant forall k :: 0 <= k < i ==> current[k] == Mask(v, bare).fields[k]
          invariant forall k :: i <= k < |fields| ==> current[k] == Covered(fields, Names(bare))[k]
        {
          var child := MASKED;
          if fields[i].name in bare {
            assert Mask(MASKED, bare) == MASKED;
          } else {
            child := MaskValue(current[i].value, bare);
          }
          current := current[i := Field(current[i].name, child)];
          i := i + 1;
        }
        assert current == Mask(v, bare).fields;
        return Obj(current);
      case _ => return v;
    }
  }

  method OverwriteOwn(fields: Object, bare: seq<string>) returns (current: Object)
    requires forall i, j :: 0 <= i < j < |fields| ==> fields[i].name != fields[j].name
    ensures current == Covered(fields, Names(bare))
  {
    current := fields;
    var b := 0;
    assert Names(bare[..0]) == {};
    assert Covered(fields, {}) == fields;
    while b < |bare|
      invariant 0 <= b <= |bare|
      invariant current == Covered(fields, Names(bare[..b]))
    {
      var field := bare[b];
      assert Names(bare[..b + 1]) == Names(bare[..b]) + {field};
      CoverOne(fields, Names(bare[..b]), field);
      if IndexOf(current, field) < |current| {
        current := Set(current, field, MASKED);
      }
      b := b + 1;
    }
    assert bare[..b] == bare;
  }

  lemma CoverOne(fields: Object, done: set<string>, field: string)
    requires forall i, j :: 0 <= i < j < |fields| ==> fields[i].name != fields[j].name
    ensures var covered := Covered(fields, done);
            && IndexOf(covered, field) == IndexOf(fields, field)
            && (IndexOf(fields, field) < |fields| ==> Set(covered, field, MASKED) == Covered(fields, done + {field}))
            && (IndexOf(fields, field) == |fields| ==> covered == Covered(fields, done + {field}))
            && (IndexOf(fields, field) < |fields| && fields[IndexOf(fields, field)].value == MASKED
                ==> covered == Covered(fields, done + {field}))
  {
    hide Set, Covered, IndexOf;
    var covered := Covered(fields, done);
    var at := IndexOf(covered, field);
    SameIndex(covered, fields, field);
    SetAt(covered, field, MASKED);
    if at < |fields| {
      assert Covered(fields, done + {field}) == covered[at := Field(field, MASKED)];
    } else {
      assert Covered(fields, done + {field}) == covered;
    }
  }

  // ------------------------------------------------------------- patches

  datatype Failure = PatchFailed

  predicate Digit(c: char) {
    '0' <= c <= '9'
  }

  function Number(s: string): nat
    requires forall i :: 0 <= i < |s| ==> Digit(s[i])
  {
    if s == "" then 0
    else
      assert Digit(s[|s| - 1]);
      10 * Number(s[..|s| - 1]) + (s[|s| - 1] as int - '0' as int)
  }

  /** The array index a segment names: decimal digits without a leading zero. */
  function ItemIndex(s: string): Option<nat> {
    if s != "" && (forall i :: 0 <= i < |s| ==> Digit(s[i])) && (|s| == 1 || s[0] != '0') then Some(Number(s)) else None
  }

  lemma {:induction false} SegmentNamesItem(i: nat)
    ensures ItemIndex(Digits(i)) == Some(i)
    ensures i > 0 ==> Digits(i)[0] != '0'
  {
    var s := Digits(i);
    if i >= 10 {
      SegmentNamesItem(i / 10);
      assert s[..|s| - 1] == Digits(i / 10);
      assert Number(s) == 10 * Number(s[..|s| - 1]) + i % 10;
    } else {
      assert s[..0] == "";
      assert Number(s) == 10 * Number(s[..0]) + i;
    }
  }

  /** `replace`: the target must exist; the root cannot be replaced. */
  function ReplaceAt(v: Json, path: Path, value: Json): Result<Json, Failure>
    decreases |path|
  {
    if path == [] then Err(PatchFailed)
    else
      match v
      case Obj(fields) =>
        var at := IndexOf(fields, path[0]);
        if at == |fields| then Err(PatchFailed)
        else if |path| == 1 then Ok(Obj(fields[at := Field(path[0], value)]))
        else
          var child :- ReplaceAt(fields[at].value, path[1..], value);
          Ok(Obj(fields[at := Field(path[0], child)]))
      case Arr(items) =>
        (match ItemIndex(path[0])
         case None => Err(PatchFailed)
         case Some(at) =>
           if at >= |items| then Err(PatchFailed)
           else if |path| == 1 then Ok(Arr(items[at := value]))
           else
             var child :- ReplaceAt(items[at], path[1..], value);
             Ok(Arr(items[at := child])))
      case _ => Err(PatchFailed)
  }

  function ApplyAll(v: Json, paths: seq<Path>): Result<Json, Failure>
    decreases |paths|
  {
    if paths == [] then Ok(v)
    else
      var next :- ReplaceAt(v, paths[0], MASKED);
      ApplyAll(next, paths[1..])
  }

  function Then(start: Result<Json, Failure>, paths: seq<Path>): Result<Json, Failure> {
    match start case Ok(v) => ApplyAll(v, paths) case Err(e) => Err(e)
  }

  lemma {:induction false} ApplyAppend(v: Json, a: seq<Path>, b: seq<Path>)
    ensures ApplyAll(v, a + b) == Then(ApplyAll(v, a), b)
    decreases |a|
  {
    if a == [] {
      assert a + b == b;
    } else {
      assert (a + b)[1..] == a[1..] + b;
      var next := ReplaceAt(v, a[0], MASKED);
      if next.Ok? { ApplyAppend(next.value, a[1..], b); }
    }
  }

  /** The same paths one level deeper. */
  function Under(name: string, paths: seq<Path>): (under: seq<Path>)
    ensures |under| == |paths|
    ensures forall i :: 0 <= i < |paths| ==> under[i] == [name] + paths[i]
  {
    seq(|paths|, i requires 0 <= i < |paths| => [name] + paths[i])
  }

  /** Own masked members that do not hold the mask yet, in the masks' order. */
  function OwnPaths(fields: Object, bare: seq<string>): seq<Path> {
    if bare == [] then []
    else
      var at := IndexOf(fields, bare[0]);
      (if at < |fields| && fields[at].value != MASKED then [[bare[0]]] else []) + OwnPaths(fields, bare[1..])
  }

  /** The targets compileMaskValuePatches emits, outermost first, masked members visited too. */
  function Targets(v: Json, bare: seq<string>): seq<Path>
    decreases v, 1, 0
  {
    match v
    case Obj(fields) => OwnPaths(fields, bare) + FieldTargets(v, bare, 0)
    case Arr(items) => ItemTargets(v, bare, 0)
    case _ => []
  }

  function FieldTargets(v: Json, bare: seq<string>, i: nat): seq<Path>
    requires v.Obj? && i <= |v.fields|
    decreases v, 0, |v.fields| - i
  {
    if i == |v.fields| then []
    else Under(v.fields[i].name, Targets(v.fields[i].value, bare)) + FieldTargets(v, bare, i + 1)
  }

  function ItemTargets(v: Json, bare: seq<string>, i: nat): seq<Path>
    requires v.Arr? && i <= |v.items|
    decreases v, 0, |v.items| - i
  {
    if i == |v.items| then []
    else Under(Digits(i), Targets(v.items[i], bare)) + ItemTargets(v, bare, i + 1)
  }

  // ------------------------------------------------------------- when the two agree

  /** Every masked field, at any depth, already holds the mask. */
  predicate Clear(v: Json, bare: seq<string>)
    decreases v
  {
    match v
    case Obj(fields) =>
      forall i :: 0 <= i < |fields| ==>
        (fields[i].name in bare ==> fields[i].value == MASKED) && Clear(fields[i].value, bare)
    case Arr(items) => forall i :: 0 <= i < |items| ==> Clear(items[i], bare)
    case _ => true
  }

  /** No masked field's value holds another masked field that is not already masked. */
  predicate Unnested(v: Json, bare: seq<string>)
    decreases v
  {
    match v
    case Obj(fields) =>
      forall i :: 0 <= i < |fields| ==>
        if fields[i].name in bare then Clear(fields[i].value, bare) else Unnested(fields[i].value, bare)
    case Arr(items) => forall i :: 0 <= i < |items| ==> Unnested(items[i], bare)
    case _ => true
  }

  lemma {:induction false} NoOwnPaths(fields: Object, bare: seq<string>)
    requires forall i, j :: 0 <= i < j < |fields| ==> fields[i].name != fields[j].name
    ensures OwnPaths(fields, bare) == []
       <==> forall i :: 0 <= i < |fields| && fields[i].name in bare ==> fields[i].value == MASKED
  {
    if bare != [] {
      NoOwnPaths(fields, bare[1..]);
      var at := IndexOf(fields, bare[0]);
      if at < |fields| {
        assert forall i :: 0 <= i < |fields| ==> (fields[i].name == bare[0] <==> i == at);
      }
      assert forall i :: 0 <= i < |fields| ==>
        (fields[i].name in bare <==> fields[i].name == bare[0] || fields[i].name in bare[1..]);
    }
  }

  /** Nothing is emitted for a value exactly when it is clear. */
  lemma {:induction false} NoTargets(v: Json, bare: seq<string>)
    requires Distinct(v)
    ensures Targets(v, bare) == [] <==> Clear(v, bare)
    decreases v, 1, 0
  {
    match v
    case Obj(fields) =>
      NoOwnPaths(fields, bare);
      NoFieldTargets(v, bare, 0);
    case Arr(items) => NoItemTargets(v, bare, 0);
    case _ =>
  }

  lemma {:induction false} NoFieldTargets(v: Json, bare: seq<string>, i: nat)
    requires v.Obj? && Distinct(v) && i <= |v.fields|
    ensures FieldTargets(v, bare, i) == [] <==> forall k :: i <= k < |v.fields| ==> Clear(v.fields[k].value, bare)
    decreases v, 0, |v.fields| - i
  {
    if i < |v.fields| {
      NoTargets(v.fields[i].value, bare);
      NoFieldTargets(v, bare, i + 1);
      assert |FieldTargets(v, bare, i)| == |Targets(v.fields[i].value, bare)| + |FieldTargets(v, bare, i + 1)|;
    }
  }

  lemma {:induction false} NoItemTargets(v: Json, bare: seq<string>, i: nat)
    requires v.Arr? && Distinct(v) && i <= |v.items|
    ensures ItemTargets(v, bare, i) == [] <==> forall k :: i <= k < |v.items| ==> Clear(v.items[k], bare)
    decreases v, 0, |v.items| - i
  {
    if i < |v.items| {
      NoTargets(v.items[i], bare);
      NoItemTargets(v, bare, i + 1);
      assert |ItemTargets(v, bare, i)| == |Targets(v.items[i], bare)| + |ItemTargets(v, bare, i + 1)|;
    }
  }

  ghost predicate NotRoots(paths: seq<Path>) {
    forall i :: 0 <= i < |paths| ==> paths[i] != []
  }

  lemma {:induction false} TargetsAreNotRoots(v: Json, bare: seq<string>)
    ensures NotRoots(Targets(v, bare))
  {
    match v
    case Obj(fields) =>
      OwnAreNotRoots(fields, bare);
      FieldsAreNotRoots(v, bare, 0);
    case Arr(items) => ItemsAreNotRoots(v, bare, 0);
    case _ =>
  }

  lemma {:induction false} OwnAreNotRoots(fields: Object, bare: seq<string>)
    ensures NotRoots(OwnPaths(fields, bare))
  {
    if bare != [] { OwnAreNotRoots(fields, bare[1..]); }
  }

  lemma {:induction false} FieldsAreNotRoots(v: Json, bare: seq<string>, i: nat)
    requires v.Obj? && i <= |v.fields|
    ensures NotRoots(FieldTargets(v, bare, i))
    decreases |v.fields| - i
  {
    if i < |v.fields| { FieldsAreNotRoots(v, bare, i + 1); }
  }

  lemma {:induction false} ItemsAreNotRoots(v: Json, bare: seq<string>, i: nat)
    requires v.Arr? && i <= |v.items|
    ensures NotRoots(ItemTargets(v, bare, i))
    decreases |v.items| - i
  {
    if i < |v.items| { ItemsAreNotRoots(v, bare, i + 1); }
  }

  /** Patches under one member act on that member alone. */
  lemma {:induction false} UnderField(fields: Object, i: nat, paths: seq<Path>)
    requires i < |fields| && IndexOf(fields, fields[i].name) == i
    requires NotRoots(paths)
    ensures ApplyAll(Obj(fields), Under(fields[i].name, paths))
         == (match ApplyAll(fields[i].value, paths)
             case Ok(child) => Ok(Obj(fields[i := Field(fields[i].name, child)]))
             case Err(e) => Err(e))
    decreases |paths|
  {
    var name := fields[i].name;
    if paths == [] {
      assert fields[i := Field(name, fields[i].value)] == fields;
    } else {
      var under := Under(name, paths);
      assert under[1..] == Under(name, paths[1..]);
      assert under[0][1..] == paths[0];
      var child := ReplaceAt(fields[i].value, paths[0], MASKED);
      if child.Ok? {
        var next := fields[i := Field(name, child.value)];
        SameIndex(fields, next, name);
        UnderField(next, i, paths[1..]);
        var rest := ApplyAll(child.value, paths[1..]);
        if rest.Ok? { assert next[i := Field(name, rest.value)] == fields[i := Field(name, rest.value)]; }
      }
    }
  }

  lemma {:induction false} SameIndex(a: Object, b: Object, name: string)
    requires |a| == |b| && forall i :: 0 <= i < |a| ==> a[i].name == b[i].name
    ensures IndexOf(a, name) == IndexOf(b, name)
  {
    if a != [] { SameIndex(a[1..], b[1..], name); }
  }

  lemma {:induction false} UnderItem(items: seq<Json>, i: nat, paths: seq<Path>)
    requires i < |items|
    requires NotRoots(paths)
    ensures ApplyAll(Arr(items), Under(Digits(i), paths))
         == (match ApplyAll(items[i], paths)
             case Ok(child) => Ok(Arr(items[i := child]))
             case Err(e) => Err(e))
    decreases |paths|
  {
    hide ItemIndex, Digits;
    SegmentNamesItem(i);
    if paths == [] {
      assert items[i := items[i]] == items;
    } else {
      var under := Under(Digits(i), paths);
      assert under[1..] == Under(Digits(i), paths[1..]);
      assert under[0][1..] == paths[0];
      var child := ReplaceAt(items[i], paths[0], MASKED);
      if child.Ok? {
        var next := items[i := child.value];
        UnderItem(next, i, paths[1..]);
        var rest := ApplyAll(child.value, paths[1..]);
        if rest.Ok? { assert next[i := rest.value] == items[i := rest.value]; }
      }
    }
  }

  lemma ReplaceOwn(fields: Object, done: set<string>, field: string)
    requires forall i, j :: 0 <= i < j < |fields| ==> fields[i].name != fields[j].name
    requires IndexOf(fields, field) < |fields|
    ensures ReplaceAt(Obj(Covered(fields, done)), [field], MASKED) == Ok(Obj(Covered(fields, done + {field})))
  {
    hide Set, Covered;
    CoverOne(fields, done, field);
    SetAt(Covered(fields, done), field, MASKED);
  }

  /** Patching an object's own masked members masks exactly those. */
  lemma {:induction false} OwnPathsCover(fields: Object, done: set<string>, bare: seq<string>)
    requires forall i, j :: 0 <= i < j < |fields| ==> fields[i].name != fields[j].name
    ensures ApplyAll(Obj(Covered(fields, done)), OwnPaths(fields, bare)) == Ok(Obj(Covered(fields, done + Names(bare))))
    decreases |bare|
  {
    hide Covered, Set, ReplaceAt, IndexOf;
    if bare == [] {
      assert done + Names(bare) == done;
    } else {
      var field, rest := bare[0], bare[1..];
      var at := IndexOf(fields, field);
      OwnPathsCover(fields, done + {field}, rest);
      assert done + {field} + Names(rest) == done + Names(bare);
      if at < |fields| && fields[at].value != MASKED {
        ReplaceOwn(fields, done, field);
        assert OwnPaths(fields, bare)[0] == [field];
        assert OwnPaths(fields, bare)[1..] == OwnPaths(fields, rest);
      } else {
        CoverOne(fields, done, field);
        assert OwnPaths(fields, bare) == [] + OwnPaths(fields, rest) == OwnPaths(fields, rest);
      }
    }
  }

  /** Half-way through the members: those before i are as the walk leaves them. */
  function Progress(v: Json, bare: seq<string>, i: nat): (now: Object)
    requires v.Obj? && i <= |v.fields|
    ensures |now| == |v.fields|
    ensures forall k :: 0 <= k < |now| ==>
      now[k] == (if v.fields[k].name in bare then Field(v.fields[k].name, MASKED)
                 else if k < i then Field(v.fields[k].name, Mask(v.fields[k].value, bare))
                 else v.fields[k])
  {
    seq(|v.fields|, k requires 0 <= k < |v.fields| =>
      if v.fields[k].name in bare then Field(v.fields[k].name, MASKED)
      else if k < i then Field(v.fields[k].name, Mask(v.fields[k].value, bare))
      else v.fields[k])
  }

  ghost predicate Agrees(result: Result<Json, Failure>, expected: Json, condition: bool) {
    if condition then result == Ok(expected) else result == Err(PatchFailed)
  }

  lemma {:induction false} FirstIndex(fields: Object, i: nat)
    requires i < |fields| && forall j, k :: 0 <= j < k < |fields| ==> fields[j].name != fields[k].name
    ensures IndexOf(fields, fields[i].name) == i
  {}

  /** Patches into a scalar fail. */
  lemma ScalarsFail(paths: seq<Path>)
    requires paths != [] && NotRoots(paths)
    ensures ApplyAll(MASKED, paths) == Err(PatchFailed)
  {}

  /** Applying the compiled patches masks exactly as the walk does when no masked field hides
      another; otherwise a patch reaches into a member already replaced, and fails. */
  lemma {:induction false} PatchingIsMasking(v: Json, bare: seq<string>)
    requires Distinct(v)
    ensures Agrees(ApplyAll(v, Targets(v, bare)), Mask(v, bare), Unnested(v, bare))
    decreases v, 1, 0
  {
    hide Covered;
    match v
    case Obj(fields) =>
      OwnPathsCover(fields, {}, bare);
      assert Covered(fields, {}) == fields by { CoveredParts(fields, {}, v, bare); }
      assert {} + Names(bare) == Names(bare);
      ApplyAppend(v, OwnPaths(fields, bare), FieldTargets(v, bare, 0));
      assert Covered(fields, Names(bare)) == Progress(v, bare, 0) by { CoveredParts(fields, Names(bare), v, bare); }
      FieldsPatched(v, bare, 0);
    case Arr(items) =>
      assert ItemsDone(v, bare, 0) == items;
      ItemsPatched(v, bare, 0);
    case _ =>
  }

  lemma CoveredParts(fields: Object, done: set<string>, v: Json, bare: seq<string>)
    requires v == Obj(fields)
    ensures done == {} ==> Covered(fields, done) == fields
    ensures done == Names(bare) ==> Covered(fields, done) == Progress(v, bare, 0)
  {}

  lemma {:induction false} FieldsPatched(v: Json, bare: seq<string>, i: nat)
    requires v.Obj? && Distinct(v) && i <= |v.fields|
    ensures Agrees(ApplyAll(Obj(Progress(v, bare, i)), FieldTargets(v, bare, i)), Mask(v, bare),
                   forall k :: i <= k < |v.fields| ==>
                     if v.fields[k].name in bare then Clear(v.fields[k].value, bare)
                     else Unnested(v.fields[k].value, bare))
    decreases v, 0, |v.fields| - i, 1
  {
    hide Unnested, Clear, ReplaceAt, ApplyAll, Targets, Distinct, Progress, Under;
    if i == |v.fields| {
      AllFieldsDone(v, bare);
      NothingToApply(Obj(Progress(v, bare, i)));
    } else {
      var field := v.fields[i];
      FieldPatched(v, bare, i);
      ApplyAppend(Obj(Progress(v, bare, i)), Under(field.name, Targets(field.value, bare)),
                  FieldTargets(v, bare, i + 1));
      FieldsPatched(v, bare, i + 1);
    }
  }

  lemma NothingToApply(v: Json)
    ensures ApplyAll(v, []) == Ok(v)
  {}

  lemma AllFieldsDone(v: Json, bare: seq<string>)
    requires v.Obj?
    ensures Obj(Progress(v, bare, |v.fields|)) == Mask(v, bare)
  {
    assert Progress(v, bare, |v.fields|) == Mask(v, bare).fields;
  }

  /** One member's patches take the object one member further, or fail. */
  lemma {:induction false} FieldPatched(v: Json, bare: seq<string>, i: nat)
    requires v.Obj? && Distinct(v) && i < |v.fields|
    ensures var field := v.fields[i];
            Agrees(ApplyAll(Obj(Progress(v, bare, i)), Under(field.name, Targets(field.value, bare))),
                   Obj(Progress(v, bare, i + 1)),
                   if field.name in bare then Clear(field.value, bare) else Unnested(field.value, bare))
    decreases v, 0, |v.fields| - i, 0
  {
    hide Unnested, Clear, ReplaceAt, Targets, Progress, Under, Mask;
    var now, field := Progress(v, bare, i), v.fields[i];
    var targets := Targets(field.value, bare);
    SameIndex(v.fields, now, field.name);
    FirstIndex(v.fields, i);
    TargetsAreNotRoots(field.value, bare);
    UnderField(now, i, targets);
    if field.name in bare {
      assert now[i := Field(field.name, MASKED)] == Progress(v, bare, i + 1);
      NoTargets(field.value, bare);
      if targets != [] { ScalarsFail(targets); }
    } else {
      assert now[i := Field(field.name, Mask(field.value, bare))] == Progress(v, bare, i + 1);
      PatchingIsMasking(field.value, bare);
    }
  }

  function ItemsDone(v: Json, bare: seq<string>, i: nat): (now: seq<Json>)
    requires v.Arr? && i <= |v.items|
    ensures |now| == |v.items|
    ensures forall k :: 0 <= k < |now| ==> now[k] == if k < i then Mask(v.items[k], bare) else v.items[k]
  {
    seq(|v.items|, k requires 0 <= k < |v.items| => if k < i then Mask(v.items[k], bare) else v.items[k])
  }

  lemma {:induction false} ItemsPatched(v: Json, bare: seq<string>, i: nat)
    requires v.Arr? && Distinct(v) && i <= |v.items|
    ensures Agrees(ApplyAll(Arr(ItemsDone(v, bare, i)), ItemTargets(v, bare, i)), Mask(v, bare),
                   forall k :: i <= k < |v.items| ==> Unnested(v.items[k], bare))
    decreases v, 0, |v.items| - i
  {
    hide Unnested, ReplaceAt, Digits;
    var now := ItemsDone(v, bare, i);
    if i == |v.items| {
      assert now == Mask(v, bare).items;
    } else {
      var targets := Targets(v.items[i], bare);
      TargetsAreNotRoots(v.items[i], bare);
      UnderItem(now, i, targets);
      ApplyAppend(Arr(now), Under(Digits(i), targets), ItemTargets(v, bare, i + 1));
      ItemsPatched(v, bare, i + 1);
      PatchingIsMasking(v.items[i], bare);
      assert now[i := Mask(v.items[i], bare)] == ItemsDone(v, bare, i + 1);
    }
  }

  // ------------------------------------------------------------- what masking leaves

  /** After the walk no masked field shows its value, and compiling again emits nothing. */
  lemma {:induction false} MaskedIsClear(v: Json, bare: seq<string>)
    requires Distinct(v)
    ensures Clear(Mask(v, bare), bare) && Distinct(Mask(v, bare)) && Targets(Mask(v, bare), bare) == []
    decreases v
  {
    var masked := Mask(v, bare);
    match v {
      case Obj(fields) =>
        forall i | 0 <= i < |fields|
          ensures (masked.fields[i].name in bare ==> masked.fields[i].value == MASKED)
          ensures Clear(masked.fields[i].value, bare) && Distinct(masked.fields[i].value)
        {
          MaskedIsClear(fields[i].value, bare);
        }
      case Arr(items) =>
        forall i | 0 <= i < |items| ensures Clear(masked.items[i], bare) && Distinct(masked.items[i]) {
          MaskedIsClear(items[i], bare);
        }
      case _ =>
    }
    NoTargets(masked, bare);
  }

  // ------------------------------------------------------------- patches as text

  datatype Patch = Patch(path: string, value: Json)

  function Patches(prefix: Path, targets: seq<Path>): (patches: seq<Patch>)
    ensures |patches| == |targets|
    ensures forall i :: 0 <= i < |targets| ==> patches[i] == Patch(Join(prefix + targets[i]), MASKED)
  {
    seq(|targets|, i requires 0 <= i < |targets| => Patch(Join(prefix + targets[i]), MASKED))
  }

  function ApplyPatches(v: Json, patches: seq<Patch>): Result<Json, Failure>
    decreases |patches|
  {
    if patches == [] then Ok(v)
    else
      var next :- ReplaceAt(v, Segments(patches[0].path), patches[0].value);
      ApplyPatches(next, patches[1..])
  }

  lemma {:induction false} TextIsPaths(v: Json, targets: seq<Path>)
    ensures ApplyPatches(v, Patches([], targets)) == ApplyAll(v, targets)
    decreases |targets|
  {
    hide Join, Segments;
    if targets != [] {
      assert [] + targets[0] == targets[0];
      SegmentsOfJoin(targets[0]);
      assert Patches([], targets)[1..] == Patches([], targets[1..]);
      var next := ReplaceAt(v, targets[0], MASKED);
      if next.Ok? { TextIsPaths(next.value, targets[1..]); }
    }
  }

  lemma JoinLonger(prefix: Path, segment: string)
    ensures Join(prefix + [segment]) == Join(prefix) + "/" + Escape(segment)
  {
    assert (prefix + [segment])[..|prefix|] == prefix;
  }

  lemma {:induction false} PlainSegment(i: nat)
    ensures Escape(Digits(i)) == Digits(i)
    decreases i
  {
    hide Escape;
    if i < 10 {
      EscapeOne(('0' as int + i) as char);
    } else {
      PlainSegment(i / 10);
      EscapeAppend(Digits(i / 10), [('0' as int + i % 10) as char]);
      EscapeOne(('0' as int + i % 10) as char);
    }
  }

  lemma DeeperPatches(prefix: Path, name: string, targets: seq<Path>)
    ensures Patches(prefix + [name], targets) == Patches(prefix, Under(name, targets))
  {
    forall i | 0 <= i < |targets| ensures prefix + [name] + targets[i] == prefix + Under(name, targets)[i] {}
  }

  lemma PatchesAppend(prefix: Path, a: seq<Path>, b: seq<Path>)
    ensures Patches(prefix, a + b) == Patches(prefix, a) + Patches(prefix, b)
  {}

  lemma Regroup(a: seq<Patch>, b: seq<Patch>, c: seq<Patch>)
    ensures a + (b + c) == a + b + c
  {}

  /** The visit of compileMaskValuePatches: the prefix is a pointer's text, longer at each level. */
  method VisitPatches(v: Json, bare: seq<string>, prefix: string, ghost at: Path) returns (patches: seq<Patch>)
    requires prefix == Join(at)
    ensures patches == Patches(at, Targets(v, bare))
    decreases v, 1
  {
    hide Escape, Join, Patches;
    match v {
      case Arr(items) => patches := VisitItems(v, bare, prefix, at);
      case Obj(fields) =>
        var own := OwnPatches(fields, bare, prefix, at);
        var inner := VisitFields(v, bare, prefix, at);
        PatchesAppend(at, OwnPaths(fields, bare), FieldTargets(v, bare, 0));
        patches := own + inner;
      case _ => patches := [];
    }
  }

  method VisitItems(v: Json, bare: seq<string>, prefix: string, ghost at: Path) returns (patches: seq<Patch>)
    requires v.Arr? && prefix == Join(at)
    ensures patches == Patches(at, ItemTargets(v, bare, 0))
    decreases v, 0
  {
    hide Escape, Join, Patches, Targets, Under, Digits;
    patches := [];
    var i := 0;
    while i < |v.items|
      invariant 0 <= i <= |v.items|
      invariant patches + Patches(at, ItemTargets(v, bare, i)) == Patches(at, ItemTargets(v, bare, 0))
    {
      JoinLonger(at, Digits(i));
      PlainSegment(i);
      var deeper := VisitPatches(v.items[i], bare, prefix + "/" + Digits(i), at + [Digits(i)]);
      DeeperPatches(at, Digits(i), Targets(v.items[i], bare));
      PatchesAppend(at, Under(Digits(i), Targets(v.items[i], bare)), ItemTargets(v, bare, i + 1));
      Regroup(patches, deeper, Patches(at, ItemTargets(v, bare, i + 1)));
      patches := patches + deeper;
      i := i + 1;
    }
  }

  method VisitFields(v: Json, bare: seq<string>, prefix: string, ghost at: Path) returns (patches: seq<Patch>)
    requires v.Obj? && prefix == Join(at)
    ensures patches == Patches(at, FieldTargets(v, bare, 0))
    decreases v, 0
  {
    hide Escape, Join, Patches, Targets, Under;
    patches := [];
    var i := 0;
    while i < |v.fields|
      invariant 0 <= i <= |v.fields|
      invariant patches + Patches(at, FieldTargets(v, bare, i)) == Patches(at, FieldTargets(v, bare, 0))
    {
      var name := v.fields[i].name;
      JoinLonger(at, name);
      var deeper := VisitPatches(v.fields[i].value, bare, prefix + "/" + Escape(name), at + [name]);
      DeeperPatches(at, name, Targets(v.fields[i].value, bare));
      PatchesAppend(at, Under(name, Targets(v.fields[i].value, bare)), FieldTargets(v, bare, i + 1));
      Regroup(patches, deeper, Patches(at, FieldTargets(v, bare, i + 1)));
      patches := patches + deeper;
      i := i + 1;
    }
  }

  method OwnPatches(fields: Object, bare: seq<string>, prefix: string, ghost at: Path) returns (patches: seq<Patch>)
    requires prefix == Join(at)
    ensures patches == Patches(at, OwnPaths(fields, bare))
  {
    hide Escape, Join, Patches, IndexOf;
    patches := [];
    var b := 0;
    while b < |bare|
      invariant 0 <= b <= |bare|
      invariant patches + Patches(at, OwnPaths(fields, bare[b..])) == Patches(at, OwnPaths(fields, bare))
    {
      var index := IndexOf(fields, bare[b]);
      var rest := OwnPaths(fields, bare[b + 1..]);
      assert bare[b..][1..] == bare[b + 1..];
      if index < |fields| && fields[index].value != MASKED {
        JoinLonger(at, bare[b]);
        var patch := Patch(prefix + "/" + Escape(bare[b]), MASKED);
        PatchesAppend(at, [[bare[b]]], rest);
        assert Patches(at, [[bare[b]]]) == [patch];
        Regroup(patches, [patch], Patches(at, rest));
        patches := patches + [patch];
      } else {
        assert [] + rest == rest;
      }
      b := b + 1;
    }
  }

  /** For bare masks, applying the compiled patches to the body they were compiled from gives what
      the walk gives if and only if no masked field's value holds another field still to be masked;
      otherwise applying them fails. */
  method CompileMaskValuePatches(body: Json, bare: seq<string>) returns (patches: seq<Patch>)
    requires Distinct(body)
    ensures patches == Patches([], Targets(body, bare))
    ensures Agrees(ApplyPatches(body, patches), Mask(body, bare), Unnested(body, bare))
  {
    patches := VisitPatches(body, bare, "", []);
    TextIsPaths(body, Targets(body, bare));
    PatchingIsMasking(body, bare);
  }
}
