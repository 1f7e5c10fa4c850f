// Collection reads: staged filters, sorting, offset and cursor pages, and the walk a client makes by
// following nextCursor (src/core/engine.ts: executeQuery; src/domain/query.ts). Predicates, text
// search, collation and the cursor codec are parameters; numbers are whole, infinite or not numbers.
module Paging {
  import opened Arithmetic
  import opened Domain
  import opened Json
  import opened Sorting
  import opened Wrappers

  /** One stored aggregate: its key in the state store and its state. */
  datatype Row = Row(id: Id, value: Object)

  datatype SortKey = SortKey(descending: bool, compare: (Object, Object) -> int)

  datatype Query = Query(
    inScope: Id -> bool,
    filter: Option<Object -> bool>,
    mapping: seq<(string, (Object, string) -> bool)>,
    fields: seq<(string, Object -> bool)>,
    includeDeleted: bool,
    params: seq<(string, string)>,
    isOperator: string -> bool,
    satisfies: (Object, string, string) -> bool,
    search: Option<Object -> bool>,
    sortPolicy: Option<(Object, Object) -> int>,
    sortKeys: Option<seq<SortKey>>)

  // ------------------------------------------------------------- filtering

  function Filter(rows: seq<Row>, keep: Row -> bool): (kept: seq<Row>)
    ensures forall r :: r in kept <==> r in rows && keep(r)
  {
    if rows == [] then [] else (if keep(rows[0]) then [rows[0]] else []) + Filter(rows[1..], keep)
  }

  function Param(params: seq<(string, string)>, name: string): Option<string> {
    if params == [] then None
    else if params[0].0 == name then Some(params[0].1)
    else Param(params[1..], name)
  }

  predicate Deleted(value: Object) {
    Get(value, "_deleted") == Some(Bool(true))
  }

  predicate FilterAdmits(q: Query, value: Object) {
    q.filter.Some? ==> q.filter.value(value)
  }

  predicate MappingAdmits(q: Query, value: Object) {
    forall i :: 0 <= i < |q.mapping| ==>
      match Param(q.params, q.mapping[i].0) case None => true case Some(requested) => q.mapping[i].1(value, requested)
  }

  predicate FieldsAdmit(q: Query, value: Object) {
    forall i :: 0 <= i < |q.fields| ==> Param(q.params, q.fields[i].0).Some? ==> q.fields[i].1(value)
  }

  predicate OperatorAdmits(q: Query, i: nat, value: Object)
    requires i < |q.params|
  {
    q.isOperator(q.params[i].0) ==> q.satisfies(value, q.params[i].0, q.params[i].1)
  }

  predicate SearchAdmits(q: Query, value: Object) {
    q.search.Some? ==> q.search.value(value)
  }

  /** One conjunction for everything a row must meet. */
  predicate Wanted(q: Query, row: Row) {
    && q.inScope(row.id)
    && FilterAdmits(q, row.value)
    && MappingAdmits(q, row.value)
    && FieldsAdmit(q, row.value)
    && (q.includeDeleted || !Deleted(row.value))
    && (forall i :: 0 <= i < |q.params| ==> OperatorAdmits(q, i, row.value))
    && SearchAdmits(q, row.value)
  }

  lemma {:induction false} FilterTwice(rows: seq<Row>, first: Row -> bool, second: Row -> bool, both: Row -> bool)
    requires forall r <- rows :: both(r) <==> first(r) && second(r)
    ensures Filter(Filter(rows, first), second) == Filter(rows, both)
  {
    if rows != [] {
      FilterTwice(rows[1..], first, second, both);
      var rest := Filter(rows[1..], first);
      if first(rows[0]) {
        assert ([rows[0]] + rest)[1..] == rest;
      } else {
        assert [] + rest == rest;
        assert [] + Filter(rows[1..], both) == Filter(rows[1..], both);
      }
    }
  }

  /** Narrowing the entries to the surviving rows leaves exactly those rows. */
  lemma NarrowEntries(state: seq<Row>, wide: Row -> bool, narrow: Row -> bool)
    requires forall r :: narrow(r) ==> wide(r)
    ensures var rows := Filter(state, narrow);
            Filter(Filter(state, wide), (r: Row) => r in rows) == rows
  {
    var rows := Filter(state, narrow);
    FilterTwice(state, wide, (r: Row) => r in rows, narrow);
  }

  predicate WantedBefore(q: Query, row: Row, clauses: nat)
    requires clauses <= |q.params|
  {
    && q.inScope(row.id)
    && FilterAdmits(q, row.value)
    && MappingAdmits(q, row.value)
    && FieldsAdmit(q, row.value)
    && (q.includeDeleted || !Deleted(row.value))
    && (forall i :: 0 <= i < clauses ==> OperatorAdmits(q, i, row.value))
  }

  /** The filter chain stage by stage, `entries` trailing behind `rows`, equals one filter. */
  method SelectRows(state: seq<Row>, q: Query) returns (rows: seq<Row>, entries: seq<Row>)
    ensures rows == Filter(state, (r: Row) => Wanted(q, r))
    ensures entries == rows
  {
    hide MappingAdmits, FieldsAdmit, OperatorAdmits, FilterAdmits, SearchAdmits, Deleted, Filter;
    entries := Filter(state, (r: Row) => q.inScope(r.id));
    rows := entries;
    rows := Filter(rows, (r: Row) => FilterAdmits(q, r.value));
    rows := Filter(rows, (r: Row) => MappingAdmits(q, r.value));
    rows := Filter(rows, (r: Row) => FieldsAdmit(q, r.value));
    rows := Filter(rows, (r: Row) => q.includeDeleted || !Deleted(r.value));
    EarlyStages(state, q);
    var i := 0;
    while i < |q.params|
      invariant 0 <= i <= |q.params|
      invariant rows == Filter(state, (r: Row) => WantedBefore(q, r, i))
    {
      FilterTwice(state, (r: Row) => WantedBefore(q, r, i), (r: Row) => OperatorAdmits(q, i, r.value),
                  (r: Row) => WantedBefore(q, r, i + 1));
      rows := Filter(rows, (r: Row) => OperatorAdmits(q, i, r.value));
      i := i + 1;
    }
    FilterTwice(state, (r: Row) => WantedBefore(q, r, |q.params|), (r: Row) => SearchAdmits(q, r.value),
                (r: Row) => Wanted(q, r));
    rows := Filter(rows, (r: Row) => SearchAdmits(q, r.value));
    NarrowEntries(state, (r: Row) => q.inScope(r.id), (r: Row) => Wanted(q, r));
    entries := Filter(entries, (r: Row) => r in rows);
  }

  lemma EarlyStages(state: seq<Row>, q: Query)
    ensures Filter(Filter(Filter(Filter(Filter(state, (r: Row) => q.inScope(r.id)),
                                               (r: Row) => FilterAdmits(q, r.value)),
                                        (r: Row) => MappingAdmits(q, r.value)),
                                 (r: Row) => FieldsAdmit(q, r.value)),
                          (r: Row) => q.includeDeleted || !Deleted(r.value))
         == Filter(state, (r: Row) => WantedBefore(q, r, 0))
  {
    hide MappingAdmits, FieldsAdmit, FilterAdmits, Deleted, Filter;
    var scope, filter := (r: Row) => q.inScope(r.id), (r: Row) => FilterAdmits(q, r.value);
    var mapping, fields := (r: Row) => MappingAdmits(q, r.value), (r: Row) => FieldsAdmit(q, r.value);
    var two, three, four := (r: Row) => scope(r) && filter(r), (r: Row) => scope(r) && filter(r) && mapping(r),
        (r: Row) => scope(r) && filter(r) && mapping(r) && fields(r);
    FilterTwice(state, scope, filter, two);
    FilterTwice(state, two, mapping, three);
    FilterTwice(state, three, fields, four);
    FilterTwice(state, four, (r: Row) => q.includeDeleted || !Deleted(r.value), (r: Row) => WantedBefore(q, r, 0));
  }

  // ------------------------------------------------------------- sorting

  function CompareBy(keys: seq<SortKey>, left: Object, right: Object): int {
    if keys == [] then 0
    else
      var compared := keys[0].compare(left, right);
      if compared == 0 then CompareBy(keys[1..], left, right)
      else if keys[0].descending then -compared else compared
  }

  predicate NotAfter(q: Query, left: Row, right: Row) {
    q.sortKeys.Some? ==> CompareBy(q.sortKeys.value, left.value, right.value) <= 0
  }

  function Sorted(rows: seq<Row>, q: Query): seq<Row> {
    var first := match q.sortPolicy
                 case None => rows
                 case Some(policy) => StableSort(rows, (l: Row, r: Row) => policy(l.value, r.value) <= 0);
    match q.sortKeys
    case None => first
    case Some(_) => StableSort(first, (l: Row, r: Row) => NotAfter(q, l, r))
  }

  /** A comparison that orders one column: antisymmetric and transitive. */
  ghost predicate Ordering(compare: (Object, Object) -> int) {
    && (forall a, b :: compare(a, b) == -compare(b, a))
    && (forall a, b, c :: compare(a, b) <= 0 && compare(b, c) <= 0 ==> compare(a, c) <= 0)
  }

  lemma {:induction false} CompareByFlips(keys: seq<SortKey>, a: Object, b: Object)
    requires forall k <- keys :: Ordering(k.compare)
    ensures CompareBy(keys, a, b) == -CompareBy(keys, b, a)
  {
    if keys != [] {
      assert Ordering(keys[0].compare);
      CompareByFlips(keys[1..], a, b);
    }
  }

  lemma {:induction false} CompareByChains(keys: seq<SortKey>, a: Object, b: Object, c: Object)
    requires forall k <- keys :: Ordering(k.compare)
    requires CompareBy(keys, a, b) <= 0 && CompareBy(keys, b, c) <= 0
    ensures CompareBy(keys, a, c) <= 0
  {
    if keys != [] {
      var compare := keys[0].compare;
      assert Ordering(compare);
      assert compare(a, b) == -compare(b, a) && compare(b, c) == -compare(c, b) && compare(a, c) == -compare(c, a);
      if compare(a, b) == 0 && compare(b, c) == 0 { CompareByChains(keys[1..], a, b, c); }
    }
  }

  /** With ordering columns, the result is sorted by those keys and loses no row, whatever a
      boundary's own sort policy did before. */
  lemma SortKeysSort(rows: seq<Row>, q: Query)
    requires q.sortKeys.Some?
    requires forall k <- q.sortKeys.value :: Ordering(k.compare)
    ensures multiset(Sorted(rows, q)) == multiset(rows)
    ensures forall i, j :: 0 <= i < j < |Sorted(rows, q)| ==>
              CompareBy(q.sortKeys.value, Sorted(rows, q)[i].value, Sorted(rows, q)[j].value) <= 0
  {
    hide CompareBy, Ordering;
    var le := (l: Row, r: Row) => NotAfter(q, l, r);
    forall a: Row, b: Row ensures le(a, b) || le(b, a) { CompareByFlips(q.sortKeys.value, a.value, b.value); }
    forall a: Row, b: Row, c: Row | le(a, b) && le(b, c) ensures le(a, c) {
      CompareByChains(q.sortKeys.value, a.value, b.value, c.value);
    }
    var first := match q.sortPolicy
                 case None => rows
                 case Some(policy) => StableSort(rows, (l: Row, r: Row) => policy(l.value, r.value) <= 0);
    if q.sortPolicy.Some? { SortPermutes(rows, (l: Row, r: Row) => q.sortPolicy.value(l.value, r.value) <= 0); }
    SortSorts(first, le);
    assert Sorted(rows, q) == StableSort(first, le);
    forall i, j | 0 <= i < j < |Sorted(rows, q)|
      ensures CompareBy(q.sortKeys.value, Sorted(rows, q)[i].value, Sorted(rows, q)[j].value) <= 0
    {
      assert le(Sorted(rows, q)[i], Sorted(rows, q)[j]);
    }
  }

  // ------------------------------------------------------------- one page

  datatype Amount = Whole(n: int) | Infinite(negative: bool) | NotANumber

  datatype Codec = Codec(encode: string -> string, decode: string -> Option<string>)

  ghost predicate RoundTrips(codec: Codec) {
    forall id: string :: codec.decode(codec.encode(id)) == Some(id)
  }

  datatype PageRequest = PageRequest(size: Option<Amount>, maxSize: Option<int>, offset: Amount, cursor: Option<string>)

  datatype Page = Page(items: seq<Row>, totalCount: nat, offset: nat, hasMore: bool, nextCursor: Option<string>)

  /** The number of rows a page may hold: 0 for a size that is not a number, all for one too big. */
  function PageSize(request: PageRequest, total: nat): nat {
    var requested := match request.size case None => Whole(total) case Some(size) => size;
    var base := if requested.Whole? then requested.n else total;
    var bounded :=
      match request.maxSize
      case Some(most) => if base < most then base else most
      case None =>
        match requested
        case Whole(n) => n
        case Infinite(negative) => if negative then 0 else total
        case NotANumber => 0;
    if bounded < 0 then 0 else bounded
  }

  /** How a cursor recognizes a row: its string `id`, otherwise its key in the store. */
  function SeekId(row: Row): string {
    match Get(row.value, "id") case Some(Str(id)) => id case _ => row.id
  }

  /** What a page's last row is called in nextCursor: its `id` printed, or, lacking one, the key of
      the entry at the same position of the unsorted entries. */
  function EmitId(row: Row, entry: Option<Row>, show: Json -> string): string {
    match Get(row.value, "id")
    case Some(Str(id)) => id
    case Some(Null) => (match entry case Some(e) => e.id case None => "")
    case Some(value) => show(value)
    case None => (match entry case Some(e) => e.id case None => "")
  }

  /** Position of the first row the cursor recognizes, or the number of rows. */
  function Seek(rows: seq<Row>, id: string): (at: nat)
    ensures at <= |rows|
    ensures forall i :: 0 <= i < at ==> SeekId(rows[i]) != id
    ensures at < |rows| ==> SeekId(rows[at]) == id
  {
    if rows == [] then 0
    else if SeekId(rows[0]) == id then 0
    else 1 + Seek(rows[1..], id)
  }

  function StartOf(rows: seq<Row>, request: PageRequest, codec: Codec): nat {
    match request.cursor
    case None => if request.offset.Whole? && request.offset.n >= 0 then request.offset.n else 0
    case Some(cursor) =>
      match codec.decode(cursor)
      case None => |rows|
      case Some(id) => if Seek(rows, id) < |rows| then Seek(rows, id) + 1 else 0
  }

  predicate Malformed(request: PageRequest, codec: Codec) {
    request.cursor.Some? && codec.decode(request.cursor.value).None?
  }

  function Slice(rows: seq<Row>, start: nat, size: nat): seq<Row> {
    if start >= |rows| then []
    else if start + size > |rows| then rows[start..]
    else rows[start..start + size]
  }

  function PageOf(rows: seq<Row>, entries: seq<Row>, request: PageRequest, codec: Codec, show: Json -> string): Page {
    var size, start := PageSize(request, |rows|), StartOf(rows, request, codec);
    var items := Slice(rows, start, size);
    var hasMore := !Malformed(request, codec) && start + |items| < |rows|;
    var last := start + |items| - 1;
    Page(items, |rows|, start, hasMore,
         if hasMore && items != [] then
           var entry := if 0 <= last < |entries| then Some(entries[last]) else None;
           Some(codec.encode(EmitId(items[|items| - 1], entry, show)))
         else None)
  }

  // ------------------------------------------------------------- the cursor walk

  predicate HasStringId(row: Row) {
    match Get(row.value, "id") case Some(Str(_)) => true case _ => false
  }

  ghost predicate StringIds(rows: seq<Row>) {
    forall i :: 0 <= i < |rows| ==> HasStringId(rows[i])
  }

  /** Every row has a string id and no two share one. */
  ghost predicate DistinctStringIds(rows: seq<Row>) {
    && StringIds(rows)
    && (forall i, j :: 0 <= i < j < |rows| ==> SeekId(rows[i]) != SeekId(rows[j]))
  }

  function Limit(size: int, cursor: Option<string>): PageRequest {
    PageRequest(Some(Whole(size)), None, Whole(0), cursor)
  }

  /** Pages fetched one after another: the first without a cursor, each next one with the cursor of
      a page that said there was more. */
  ghost predicate Walk(pages: seq<Page>, rows: seq<Row>, entries: seq<Row>, size: int, codec: Codec,
                       show: Json -> string)
  {
    && |pages| > 0
    && pages[0] == PageOf(rows, entries, Limit(size, None), codec, show)
    && forall i :: 0 <= i < |pages| - 1 ==>
         && pages[i].hasMore && pages[i].nextCursor.Some?
         && pages[i + 1] == PageOf(rows, entries, Limit(size, pages[i].nextCursor), codec, show)
  }

  function Items(pages: seq<Page>): seq<Row> {
    if pages == [] then [] else Items(pages[..|pages| - 1]) + pages[|pages| - 1].items
  }

  /** The page a cursor leads to starts right after the row it was made from exactly when that row
      is the first one the cursor recognizes. */
  lemma CursorAdvances(rows: seq<Row>, entries: seq<Row>, request: PageRequest, codec: Codec, show: Json -> string,
                       size: int)
    requires RoundTrips(codec) && PageOf(rows, entries, request, codec, show).nextCursor.Some?
    ensures var page := PageOf(rows, entries, request, codec, show);
            var end := page.offset + |page.items|;
            var id := EmitId(rows[end - 1], if end - 1 < |entries| then Some(entries[end - 1]) else None, show);
            && 0 < end < |rows|
            && (PageOf(rows, entries, Limit(size, page.nextCursor), codec, show).offset == end
                <==> Seek(rows, id) == end - 1)
  {
    var page := PageOf(rows, entries, request, codec, show);
    var end := page.offset + |page.items|;
    assert page.items[|page.items| - 1] == rows[end - 1];
  }

  /** What one page holds, given where it starts. */
  lemma PageFacts(rows: seq<Row>, entries: seq<Row>, request: PageRequest, codec: Codec, show: Json -> string)
    requires !Malformed(request, codec) && PageSize(request, |rows|) >= 1
    requires StartOf(rows, request, codec) < |rows| || rows == []
    ensures var page, size := PageOf(rows, entries, request, codec, show), PageSize(request, |rows|);
            && page.offset == StartOf(rows, request, codec)
            && (page.offset <= |rows| ==> rows[..page.offset] + page.items == rows[..page.offset + |page.items|])
            && (page.hasMore <==> page.offset + |page.items| < |rows|)
            && (page.hasMore ==> page.nextCursor.Some? && |page.items| == size)
            && (rows != [] ==> page.offset + |page.items| <= |rows|)
            && (rows == [] ==> page.items == [])
  {
    hide Seek, EmitId;
    var page, size := PageOf(rows, entries, request, codec, show), PageSize(request, |rows|);
    var start := StartOf(rows, request, codec);
    if start <= |rows| {
      assert rows[..start] + Slice(rows, start, size) == rows[..start + |Slice(rows, start, size)|];
    }
  }

  /** The last row of a page is the first of the rows with its id: the cursor leads on from it. */
  predicate LeadsOn(rows: seq<Row>, page: Page) {
    var end := page.offset + |page.items|;
    0 < end <= |rows| && Seek(rows, SeekId(rows[end - 1])) == end - 1
  }

  ghost predicate AllLeadOn(rows: seq<Row>, pages: seq<Page>, n: int) {
    forall k :: 0 <= k < n && k < |pages| ==> LeadsOn(rows, pages[k])
  }

  /** Where the walk stands after a page: it has returned every row up to the page's end, and exactly
      those as long as every page led on. */
  ghost predicate Stands(pages: seq<Page>, rows: seq<Row>, size: int, i: nat)
    requires i < |pages|
  {
    var page := pages[i];
    var end := page.offset + |page.items|;
    && (page.offset < |rows| || (rows == [] && i == 0)) && end <= |rows|
    && (page.hasMore <==> end < |rows|)
    && (page.hasMore ==> page.nextCursor.Some? && |page.items| == size)
    && page.offset <= i * size && (page.offset == i * size <==> AllLeadOn(rows, pages, i))
    && |Items(pages[..i + 1])| == i * size + |page.items|
    && (forall k :: 0 <= k < end ==> rows[k] in Items(pages[..i + 1]))
    && (AllLeadOn(rows, pages, i) ==> Items(pages[..i + 1]) == rows[..end])
  }

  lemma {:induction false} WalkedTo(pages: seq<Page>, rows: seq<Row>, entries: seq<Row>, size: int, codec: Codec,
                                    show: Json -> string, i: nat)
    requires Walk(pages, rows, entries, size, codec, show) && i < |pages|
    requires RoundTrips(codec) && StringIds(rows) && size >= 1
    ensures Stands(pages, rows, size, i)
    decreases i
  {
    hide PageOf, StringIds, RoundTrips, Seek, StartOf, LeadsOn;
    assert pages[..i + 1][..i] == pages[..i];
    if i == 0 {
      assert StartOf(rows, Limit(size, None), codec) == 0 by { StartsAtOffset(rows, size, codec); }
      PageFacts(rows, entries, Limit(size, None), codec, show);
      assert pages[..0] == [];
      assert Items(pages[..1]) == [] + pages[0].items;
      assert rows[..0] == [];
    } else {
      WalkedTo(pages, rows, entries, size, codec, show, i - 1);
      NextStarts(pages, rows, entries, size, codec, show, i - 1);
      var request := Limit(size, pages[i - 1].nextCursor);
      PageStarts(rows, entries, request, codec, show);
      assert pages[i - 1 + 1] == PageOf(rows, entries, request, codec, show);
      PageFacts(rows, entries, request, codec, show);
      StandsOn(pages, rows, size, i);
    }
  }

  /** One page further. */
  lemma StandsOn(pages: seq<Page>, rows: seq<Row>, size: int, i: nat)
    requires 0 < i < |pages| && Stands(pages, rows, size, i - 1) && size >= 1
    requires var page, before := pages[i], pages[i - 1];
             var end := page.offset + |page.items|;
             && before.hasMore && page.offset <= before.offset + |before.items|
             && (page.offset == before.offset + |before.items| <==> LeadsOn(rows, before))
             && page.offset < |rows| && end <= |rows| && (page.hasMore <==> end < |rows|)
             && (page.hasMore ==> page.nextCursor.Some? && |page.items| == size)
             && rows[..page.offset] + page.items == rows[..end]
    ensures Stands(pages, rows, size, i)
  {
    hide LeadsOn;
    var page, before := pages[i], pages[i - 1];
    assert pages[..i + 1][..i] == pages[..i] && pages[..i - 1 + 1] == pages[..i];
    assert Items(pages[..i + 1]) == Items(pages[..i]) + page.items;
    assert i * size == (i - 1) * size + size;
    assert AllLeadOn(rows, pages, i) <==> AllLeadOn(rows, pages, i - 1) && LeadsOn(rows, before);
    forall k | 0 <= k < page.offset + |page.items| ensures rows[k] in Items(pages[..i + 1]) {
      if k >= page.offset { assert rows[k] == (rows[..page.offset] + page.items)[k]; }
    }
  }

  lemma StartsAtOffset(rows: seq<Row>, size: int, codec: Codec)
    ensures StartOf(rows, Limit(size, None), codec) == 0
  {}

  lemma PageStarts(rows: seq<Row>, entries: seq<Row>, request: PageRequest, codec: Codec, show: Json -> string)
    ensures PageOf(rows, entries, request, codec, show).offset == StartOf(rows, request, codec)
  {}

  /** The next page starts at or before this one's end, and there exactly when this one leads on. */
  lemma NextStarts(pages: seq<Page>, rows: seq<Row>, entries: seq<Row>, size: int, codec: Codec, show: Json -> string,
                   i: nat)
    requires Walk(pages, rows, entries, size, codec, show) && i + 1 < |pages|
    requires RoundTrips(codec) && StringIds(rows) && size >= 1
    ensures var end := pages[i].offset + |pages[i].items|;
            && 0 < end < |rows| && pages[i + 1].offset <= end
            && (pages[i + 1].offset == end <==> LeadsOn(rows, pages[i]))
    ensures !Malformed(Limit(size, pages[i].nextCursor), codec)
  {
    hide PageOf, Seek, StartOf, RoundTrips;
    var request := if i == 0 then Limit(size, None) else Limit(size, pages[i - 1].nextCursor);
    assert pages[i] == PageOf(rows, entries, request, codec, show) by {
      if i > 0 { assert pages[i - 1 + 1] == PageOf(rows, entries, Limit(size, pages[i - 1].nextCursor), codec, show); }
    }
    CursorAdvances(rows, entries, request, codec, show, size);
    CursorIsWellFormed(rows, entries, request, codec, show);
    var end := pages[i].offset + |pages[i].items|;
    assert HasStringId(rows[end - 1]);
    CursorLeads(rows, entries, request, codec, show, size);
  }

  /** A cursor made from a row with a string id leads right behind the first row with that id. */
  lemma CursorLeads(rows: seq<Row>, entries: seq<Row>, request: PageRequest, codec: Codec, show: Json -> string,
                    size: int)
    requires RoundTrips(codec) && PageOf(rows, entries, request, codec, show).nextCursor.Some?
    requires var page := PageOf(rows, entries, request, codec, show);
             var end := page.offset + |page.items|;
             0 < end < |rows| && HasStringId(rows[end - 1])
    ensures var page := PageOf(rows, entries, request, codec, show);
            var end := page.offset + |page.items|;
            PageOf(rows, entries, Limit(size, page.nextCursor), codec, show).offset <= end
  {
    var page := PageOf(rows, entries, request, codec, show);
    var end := page.offset + |page.items|;
    assert page.items[|page.items| - 1] == rows[end - 1];
    assert Seek(rows, SeekId(rows[end - 1])) <= end - 1;
  }

  lemma CursorIsWellFormed(rows: seq<Row>, entries: seq<Row>, request: PageRequest, codec: Codec, show: Json -> string)
    requires RoundTrips(codec) && PageOf(rows, entries, request, codec, show).nextCursor.Some?
    ensures codec.decode(PageOf(rows, entries, request, codec, show).nextCursor.value).Some?
  {
    hide EmitId;
  }

  /** A walk that ends has returned every row. It has returned each exactly once and in order, or just
      as many as there are, if and only if the last row of every page before the final one is the first
      row with its id. */
  lemma WalkIsExactly(pages: seq<Page>, rows: seq<Row>, entries: seq<Row>, size: int, codec: Codec,
                      show: Json -> string)
    requires Walk(pages, rows, entries, size, codec, show) && !pages[|pages| - 1].hasMore
    requires RoundTrips(codec) && StringIds(rows) && size >= 1
    ensures forall r <- rows :: r in Items(pages)
    ensures |Items(pages)| == |rows| <==> AllLeadOn(rows, pages, |pages| - 1)
    ensures Items(pages) == rows <==> AllLeadOn(rows, pages, |pages| - 1)
  {
    hide StringIds, RoundTrips, PageOf, AllLeadOn;
    var n := |pages| - 1;
    WalkedTo(pages, rows, entries, size, codec, show, n);
    assert pages[..n + 1] == pages;
    assert rows[..|rows|] == rows;
  }

  lemma SeekFindsFirst(rows: seq<Row>, i: nat)
    requires i < |rows| && DistinctStringIds(rows)
    ensures Seek(rows, SeekId(rows[i])) == i
  {
    var at := Seek(rows, SeekId(rows[i]));
    assert forall j :: 0 <= j < i ==> SeekId(rows[j]) != SeekId(rows[i]);
  }

  lemma DistinctLeadOn(pages: seq<Page>, rows: seq<Row>, entries: seq<Row>, size: int, codec: Codec,
                       show: Json -> string)
    requires Walk(pages, rows, entries, size, codec, show)
    requires RoundTrips(codec) && DistinctStringIds(rows) && size >= 1
    ensures AllLeadOn(rows, pages, |pages| - 1)
  {
    hide PageOf, Seek, RoundTrips, DistinctStringIds;
    assert StringIds(rows) by { DistinctHaveIds(rows); }
    forall k | 0 <= k < |pages| - 1 ensures LeadsOn(rows, pages[k]) {
      NextStarts(pages, rows, entries, size, codec, show, k);
      SeekFindsFirst(rows, pages[k].offset + |pages[k].items| - 1);
    }
  }

  /** Where it stands when every page led on. */
  lemma StandsInOrder(pages: seq<Page>, rows: seq<Row>, size: int, i: nat)
    requires i < |pages| && Stands(pages, rows, size, i) && AllLeadOn(rows, pages, i) && size >= 1
    ensures var page := pages[i];
            var end := page.offset + |page.items|;
            && i <= page.offset && (page.offset < |rows| || (rows == [] && i == 0)) && end <= |rows|
            && (page.hasMore <==> end < |rows|) && (page.hasMore ==> page.nextCursor.Some?)
            && Items(pages[..i + 1]) == rows[..end]
  {
    hide AllLeadOn, Items;
    var offset := pages[i].offset;
    assert offset == i * size;
    MultiplyMonotone(1, size, i);
  }

  lemma WalkStarts(pages: seq<Page>, rows: seq<Row>, entries: seq<Row>, size: int, codec: Codec, show: Json -> string)
    requires Walk(pages, rows, entries, size, codec, show)
    ensures |pages| > 0
  {}

  lemma DistinctHaveIds(rows: seq<Row>)
    requires DistinctStringIds(rows)
    ensures StringIds(rows)
  {}

  /** So, following nextCursor over unchanged state, with distinct string ids and a page size of at
      least one, returns every row exactly once in order: the walk never needs more than one page per
      row and its pages, once the last says there is no more, concatenate to the whole list. */
  lemma WalkReturnsEveryRow(pages: seq<Page>, rows: seq<Row>, entries: seq<Row>, size: int, codec: Codec,
                            show: Json -> string)
    requires Walk(pages, rows, entries, size, codec, show)
    requires RoundTrips(codec) && DistinctStringIds(rows) && size >= 1
    ensures |pages| <= |rows| || (rows == [] && |pages| == 1)
    ensures Items(pages) <= rows
    ensures pages[|pages| - 1].hasMore ==> pages[|pages| - 1].nextCursor.Some?
    ensures !pages[|pages| - 1].hasMore ==> Items(pages) == rows
  {
    hide DistinctStringIds, RoundTrips, PageOf, AllLeadOn, Walk, Stands, Items;
    WalkStarts(pages, rows, entries, size, codec, show);
    var n := |pages| - 1;
    DistinctLeadOn(pages, rows, entries, size, codec, show);
    DistinctHaveIds(rows);
    WalkedTo(pages, rows, entries, size, codec, show, n);
    StandsInOrder(pages, rows, size, n);
    assert pages[..n + 1] == pages;
    assert rows[..|rows|] == rows;
  }

  /** From the store to the client: the rows walked are the wanted rows, sorted. */
  lemma WalkReturnsWantedRows(state: seq<Row>, q: Query, pages: seq<Page>, size: int, codec: Codec,
                              show: Json -> string)
    requires var wanted := Filter(state, (r: Row) => Wanted(q, r));
             && DistinctStringIds(Sorted(wanted, q)) && RoundTrips(codec) && size >= 1
             && Walk(pages, Sorted(wanted, q), wanted, size, codec, show)
             && !pages[|pages| - 1].hasMore
    ensures Items(pages) == Sorted(Filter(state, (r: Row) => Wanted(q, r)), q)
  {
    var wanted := Filter(state, (r: Row) => Wanted(q, r));
    WalkReturnsEveryRow(pages, Sorted(wanted, q), wanted, size, codec, show);
  }

  // ------------------------------------------------------------- what the side conditions are for

  /** A page size of 0 (or one that is not a number) says there is more but gives no cursor. */
  lemma EmptyPagesStop(rows: seq<Row>, entries: seq<Row>, request: PageRequest, codec: Codec, show: Json -> string)
    requires !Malformed(request, codec) && StartOf(rows, request, codec) < |rows|
    ensures var page := PageOf(rows, entries, request, codec, show);
            (page.hasMore && page.nextCursor.None?) <==> PageSize(request, |rows|) == 0
  {}

  /** Two rows with one id: following the cursor from the second leads back to the second. */
  lemma SharedIdsLoop(a: Row, b: Row, c: Row, codec: Codec, show: Json -> string)
    requires RoundTrips(codec) && HasStringId(a) && HasStringId(b) && SeekId(a) == SeekId(b)
    ensures var rows := [a, b, c];
            var second := PageOf(rows, rows, Limit(1, Some(codec.encode(SeekId(a)))), codec, show);
            && second.items == [b] && second.hasMore
            && PageOf(rows, rows, Limit(1, second.nextCursor), codec, show) == second
  {
    var rows := [a, b, c];
    assert Seek(rows, SeekId(a)) == 0;
    assert Slice(rows, 1, 1) == [b];
  }
}
