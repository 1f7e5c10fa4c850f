// Choosing the path template an incoming path belongs to (src/contract/router.ts: matchRoute,
// staticPrefixLength). The order of strings is a parameter.
module Router {
  import opened Pointers
  import opened Sorting
  import opened Wrappers

  predicate Opens(segment: string) {
    segment != "" && segment[0] == '{'
  }

  /** A `{name}` segment stands for one or more characters; anything else for itself. */
  predicate IsParameter(segment: string) {
    Opens(segment) && segment[|segment| - 1] == '}'
  }

  predicate SegmentMatches(template: string, actual: string) {
    if IsParameter(template) then actual != "" else template == actual
  }

  predicate Matches(template: string, path: string) {
    var t, p := Split(template), Split(path);
    |t| == |p| && forall i :: 0 <= i < |t| ==> SegmentMatches(t[i], p[i])
  }

  // ------------------------------------------------------------- specificity

  /** Characters of the literal segments, one more for each. */
  function LiteralWeight(segments: seq<string>): nat {
    if segments == [] then 0
    else (if segments[0] != "" && !Opens(segments[0]) then |segments[0]| + 1 else 0) + LiteralWeight(segments[1..])
  }

  /** The length of the literal segments joined by slashes. */
  function StaticPrefixLength(template: string): nat {
    var weight := LiteralWeight(Split(template));
    if weight == 0 then 0 else weight - 1
  }

  function OpenSegments(segments: seq<string>): nat {
    if segments == [] then 0 else (if Opens(segments[0]) then 1 else 0) + OpenSegments(segments[1..])
  }

  /** Longer static prefix first, then fewer parameters, then the strings' own order. */
  predicate TriedBefore(le: (string, string) -> bool, a: string, b: string) {
    var x, y := StaticPrefixLength(a), StaticPrefixLength(b);
    var m, n := OpenSegments(Split(a)), OpenSegments(Split(b));
    x > y || (x == y && (m < n || (m == n && le(a, b))))
  }

  ghost predicate StringOrder(le: (string, string) -> bool) {
    TotalPreorder(le) && forall a, b :: le(a, b) && le(b, a) ==> a == b
  }

  function Order(le: (string, string) -> bool, templates: seq<string>): seq<string> {
    StableSort(templates, (a, b) => TriedBefore(le, a, b))
  }

  function FirstMatch(sorted: seq<string>, offers: string -> bool, path: string): Option<string> {
    if sorted == [] then None
    else if Matches(sorted[0], path) && offers(sorted[0]) then Some(sorted[0])
    else FirstMatch(sorted[1..], offers, path)
  }

  /** matchRoute: the first template, in order of specificity, that matches and offers the method. */
  method MatchRoute(templates: seq<string>, offers: string -> bool, path: string, le: (string, string) -> bool)
    returns (route: Option<string>)
    ensures route == FirstMatch(Order(le, templates), offers, path)
  {
    hide Order, Matches;
    var sorted := Order(le, templates);
    var i := 0;
    while i < |sorted|
      invariant 0 <= i <= |sorted|
      invariant FirstMatch(sorted, offers, path) == FirstMatch(sorted[i..], offers, path)
    {
      if Matches(sorted[i], path) && offers(sorted[i]) { return Some(sorted[i]); }
      i := i + 1;
    }
    return None;
  }

  lemma OrderIsTotal(le: (string, string) -> bool)
    requires StringOrder(le)
    ensures StringOrder((a, b) => TriedBefore(le, a, b))
  {
    hide StaticPrefixLength, OpenSegments;
  }

  /** What the chosen template is: the one before every other candidate. */
  lemma {:induction false} FirstMatchIsBest(sorted: seq<string>, offers: string -> bool, path: string,
                                            before: (string, string) -> bool)
    requires Ascending(sorted, before) && forall a :: before(a, a)
    ensures match FirstMatch(sorted, offers, path)
            case None => forall t <- sorted :: !(Matches(t, path) && offers(t))
            case Some(best) =>
              best in sorted && Matches(best, path) && offers(best)
              && forall t <- sorted :: Matches(t, path) && offers(t) ==> before(best, t)
  {
    hide Matches;
    if sorted != [] {
      forall i, j | 0 <= i < j < |sorted[1..]| ensures before(sorted[1..][i], sorted[1..][j]) {
        assert before(sorted[i + 1], sorted[j + 1]);
      }
      FirstMatchIsBest(sorted[1..], offers, path, before);
      forall t | t in sorted ensures t == sorted[0] || (t in sorted[1..] && before(sorted[0], t)) {
        var i :| 0 <= i < |sorted| && sorted[i] == t;
        if i > 0 { assert sorted[1..][i - 1] == t && before(sorted[0], sorted[i]); }
      }
    }
  }

  /** The order the document lists its paths in does not matter. */
  lemma RouteIgnoresListing(a: seq<string>, b: seq<string>, offers: string -> bool, path: string,
                            le: (string, string) -> bool)
    requires StringOrder(le) && multiset(a) == multiset(b)
    ensures FirstMatch(Order(le, a), offers, path) == FirstMatch(Order(le, b), offers, path)
  {
    hide TriedBefore;
    var before := (x, y) => TriedBefore(le, x, y);
    OrderIsTotal(le);
    SortSorts(a, before);
    SortSorts(b, before);
    SortedIsUnique(Order(le, a), Order(le, b), before);
  }

  // ------------------------------------------------------------- literals beat parameters

  predicate LiteralAt(segments: seq<string>, i: nat) {
    i < |segments| && !Opens(segments[i])
  }

  /** Every literal position of b is one of a's, and a has another. */
  ghost predicate MoreLiteral(a: seq<string>, b: seq<string>) {
    && (forall i: nat :: LiteralAt(b, i) ==> LiteralAt(a, i))
    && exists i: nat :: LiteralAt(a, i) && !LiteralAt(b, i)
  }

  /** Segments that open a brace close it, as OpenAPI parameters do. */
  predicate Closed(segments: seq<string>) {
    forall i :: 0 <= i < |segments| ==> Opens(segments[i]) ==> IsParameter(segments[i])
  }

  lemma {:induction false} MoreLiteralWeighs(a: seq<string>, b: seq<string>, actual: seq<string>)
    requires |a| == |b| == |actual| && Closed(a) && Closed(b)
    requires forall i :: 0 <= i < |a| ==> SegmentMatches(a[i], actual[i]) && SegmentMatches(b[i], actual[i])
    requires forall i: nat :: LiteralAt(b, i) ==> LiteralAt(a, i)
    ensures LiteralWeight(a) >= LiteralWeight(b)
    ensures OpenSegments(a) <= OpenSegments(b)
    ensures (exists i: nat :: LiteralAt(a, i) && !LiteralAt(b, i)) ==> OpenSegments(a) < OpenSegments(b)
  {
    if a != [] {
      forall i: nat | LiteralAt(b[1..], i) ensures LiteralAt(a[1..], i) {
        assert LiteralAt(b, i + 1);
      }
      MoreLiteralWeighs(a[1..], b[1..], actual[1..]);
      assert LiteralAt(b, 0) ==> LiteralAt(a, 0);
      assert SegmentMatches(a[0], actual[0]) && SegmentMatches(b[0], actual[0]);
      if i: nat :| LiteralAt(a, i) && !LiteralAt(b, i) {
        if i > 0 { assert LiteralAt(a[1..], i - 1) && !LiteralAt(b[1..], i - 1); }
      }
    }
  }

  /** The segments a template spells out. */
  function LiteralSegments(segments: seq<string>): int {
    |segments| - OpenSegments(segments)
  }

  /** When more spelled-out segments win: of two templates for one path, the one with more of them is
      tried first if and only if its static prefix is no shorter than the other's. */
  lemma MoreLiteralSegmentsWinExactly(a: string, b: string, path: string, le: (string, string) -> bool)
    requires Matches(a, path) && Matches(b, path)
    requires LiteralSegments(Split(a)) > LiteralSegments(Split(b))
    ensures TriedBefore(le, a, b) && !TriedBefore(le, b, a) <==> StaticPrefixLength(a) >= StaticPrefixLength(b)
  {}

  /** So the one literal wherever the other is, and somewhere else too, is always tried first. */
  lemma MoreLiteralWins(a: string, b: string, path: string, le: (string, string) -> bool)
    requires Matches(a, path) && Matches(b, path) && Closed(Split(a)) && Closed(Split(b))
    requires MoreLiteral(Split(a), Split(b))
    ensures TriedBefore(le, a, b) && !TriedBefore(le, b, a)
  {
    hide TriedBefore, OpenSegments;
    MoreLiteralWeighs(Split(a), Split(b), Split(path));
    MoreLiteralSegmentsWinExactly(a, b, path, le);
  }

  // ------------------------------------------------------------- what that means for routing

  /** Whatever else the document offers, b is not chosen while a is offered. */
  ghost predicate Shadows(le: (string, string) -> bool, a: string, b: string, path: string) {
    forall templates: seq<string>, offers: string -> bool ::
      a in templates && offers(a) ==> FirstMatch(Order(le, templates), offers, path) != Some(b)
  }

  lemma BestOfOffered(templates: seq<string>, offers: string -> bool, path: string, le: (string, string) -> bool,
                      a: string)
    requires StringOrder(le) && a in templates && offers(a) && Matches(a, path)
    ensures var best := FirstMatch(Order(le, templates), offers, path);
            best.Some? && best.value in templates && TriedBefore(le, best.value, a)
  {
    hide Matches, TriedBefore;
    var before := (x, y) => TriedBefore(le, x, y);
    OrderIsTotal(le);
    SortSorts(templates, before);
    assert a in multiset(templates);
    assert a in Order(le, templates);
    FirstMatchIsBest(Order(le, templates), offers, path, before);
    var best := FirstMatch(Order(le, templates), offers, path).value;
    assert best in multiset(Order(le, templates));
  }

  /** A template shadows another one for a path exactly when it is tried before it. */
  lemma ShadowsExactly(a: string, b: string, path: string, le: (string, string) -> bool)
    requires StringOrder(le) && a != b && Matches(a, path) && Matches(b, path)
    ensures Shadows(le, a, b, path) <==> TriedBefore(le, a, b)
  {
    hide Matches, TriedBefore, Order, FirstMatch;
    OrderIsTotal(le);
    var before := (x, y) => TriedBefore(le, x, y);
    assert before(a, b) == TriedBefore(le, a, b) && before(b, a) == TriedBefore(le, b, a);
    forall templates: seq<string>, offers: string -> bool | a in templates && offers(a) && TriedBefore(le, a, b)
      ensures FirstMatch(Order(le, templates), offers, path) != Some(b)
    {
      BestOfOffered(templates, offers, path, le, a);
    }
    var both, all := [a, b], (template: string) => true;
    BestOfOffered(both, all, path, le, a);
    BestOfOffered(both, all, path, le, b);
    assert FirstMatch(Order(le, both), all, path) == Some(a) || FirstMatch(Order(le, both), all, path) == Some(b);
  }

  /** Of two templates for one path, the one that spells out more segments always shadows the other
      if and only if its static prefix is no shorter. */
  lemma MoreLiteralSegmentsShadowExactly(a: string, b: string, path: string, le: (string, string) -> bool)
    requires StringOrder(le) && Matches(a, path) && Matches(b, path)
    requires LiteralSegments(Split(a)) > LiteralSegments(Split(b))
    ensures Shadows(le, a, b, path) <==> StaticPrefixLength(a) >= StaticPrefixLength(b)
  {
    hide Matches, TriedBefore, Shadows, OpenSegments, StaticPrefixLength;
    ShadowsExactly(a, b, path, le);
    MoreLiteralSegmentsWinExactly(a, b, path, le);
    AntisymmetricOrder(a, b, le);
  }

  lemma AntisymmetricOrder(a: string, b: string, le: (string, string) -> bool)
    requires StringOrder(le) && a != b
    ensures TriedBefore(le, a, b) ==> !TriedBefore(le, b, a)
  {
    hide StaticPrefixLength, OpenSegments;
  }

  /** A template with fewer literal positions, all of them the other's too, is never chosen while the
      other is offered. */
  lemma LessLiteralLoses(templates: seq<string>, offers: string -> bool, path: string, le: (string, string) -> bool,
                         a: string, b: string)
    requires StringOrder(le) && a in templates && offers(a)
    requires Matches(a, path) && Matches(b, path) && Closed(Split(a)) && Closed(Split(b))
    requires MoreLiteral(Split(a), Split(b))
    ensures FirstMatch(Order(le, templates), offers, path) != Some(b)
  {
    hide Matches, TriedBefore, MoreLiteral, Closed;
    MoreLiteralWins(a, b, path, le);
    BestOfOffered(templates, offers, path, le, a);
  }

  /** The condition fails in fact: length is counted in characters, so one long literal beats two
      short ones. */
  lemma FewerLongerLiteralsWin(le: (string, string) -> bool)
    ensures var a, b, path := "/a/b/{x}", "/{y}/{z}/cccccccc", "/a/b/cccccccc";
            && Matches(a, path) && Matches(b, path) && LiteralSegments(Split(a)) > LiteralSegments(Split(b))
            && TriedBefore(le, b, a) && !TriedBefore(le, a, b)
  {
    hide Split, LiteralWeight, OpenSegments;
    assert "" + "/" + "a" + "/" + "b" + "/" + "{x}" == "/a/b/{x}";
    assert "" + "/" + "{y}" + "/" + "{z}" + "/" + "cccccccc" == "/{y}/{z}/cccccccc";
    assert "" + "/" + "a" + "/" + "b" + "/" + "cccccccc" == "/a/b/cccccccc";
    SplitFour("", "a", "b", "{x}");
    SplitFour("", "{y}", "{z}", "cccccccc");
    SplitFour("", "a", "b", "cccccccc");
    FourWeigh("", "a", "b", "{x}");
    FourWeigh("", "{y}", "{z}", "cccccccc");
    FourOpen("", "a", "b", "{x}");
    FourOpen("", "{y}", "{z}", "cccccccc");
  }

  lemma OpenFirst(first: string, rest: seq<string>)
    ensures OpenSegments([first] + rest) == (if Opens(first) then 1 else 0) + OpenSegments(rest)
  {
    assert ([first] + rest)[1..] == rest;
  }

  lemma FourOpen(a: string, b: string, c: string, d: string)
    ensures var opens := (segment: string) => if Opens(segment) then 1 else 0;
            OpenSegments([a, b, c, d]) == opens(a) + opens(b) + opens(c) + opens(d)
  {
    hide Opens;
    OpenFirst(a, [b, c, d]);
    OpenFirst(b, [c, d]);
    OpenFirst(c, [d]);
    OpenFirst(d, []);
    assert [a] + [b, c, d] == [a, b, c, d] && [b] + [c, d] == [b, c, d] && [c] + [d] == [c, d] && [d] + [] == [d];
  }

  lemma SplitFour(a: string, b: string, c: string, d: string)
    requires '/' !in a && '/' !in b && '/' !in c && '/' !in d
    ensures Split(a + "/" + b + "/" + c + "/" + d) == [a, b, c, d]
  {
    hide Split;
    SplitPlain(a);
    SplitAppend(a, b);
    SplitAppend(a + "/" + b, c);
    SplitAppend(a + "/" + b + "/" + c, d);
  }

  function SegmentWeight(segment: string): nat {
    if segment != "" && !Opens(segment) then |segment| + 1 else 0
  }

  lemma WeighFirst(first: string, rest: seq<string>)
    ensures LiteralWeight([first] + rest) == SegmentWeight(first) + LiteralWeight(rest)
  {
    assert ([first] + rest)[1..] == rest;
  }

  lemma FourWeigh(a: string, b: string, c: string, d: string)
    ensures LiteralWeight([a, b, c, d]) == SegmentWeight(a) + SegmentWeight(b) + SegmentWeight(c) + SegmentWeight(d)
  {
    hide SegmentWeight;
    WeighFirst(a, [b, c, d]);
    WeighFirst(b, [c, d]);
    WeighFirst(c, [d]);
    WeighFirst(d, []);
    assert [a] + [b, c, d] == [a, b, c, d] && [b] + [c, d] == [b, c, d] && [c] + [d] == [c, d] && [d] + [] == [d];
  }
}
