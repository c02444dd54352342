/** The list-resource binding `APIListResource`
    (src/main/java/com/testdroid/api/APIListResource.java): building a list
    URI from paging arguments, stamping fetched entities with the client and
    their self URI, probing for adjacent pages and rewriting a page cursor
    onto the resource's own path.

    The inherited HTTP fetch is not modelled: each call of `getEntity()` is
    given its outcome as a `Fetched` argument, so a Java method that fetches
    three times takes three of them, in the order Java evaluates the calls. */
module ListResource {
  import opened Wrappers
  import opened JavaLang
  import opened Envelope

  /** What the unseen `APISort` contributes: the text `serialize()` returns and
      the answer `isEmpty()` gives. */
  datatype APISort = APISort(serialized: string, isEmpty: bool)

  /** The failure the fetch throws. */
  datatype APIException = APIException(message: string)

  /** The outcome of one call of the inherited fetch. */
  datatype Fetched = Page(list: APIList) | Failed(error: APIException)
  {
    function Lists(): set<APIList> {
      if Page? then {list} else {}
    }
  }

  /** The entities a fetch hands back; none when it failed. */
  function Items(f: Fetched): seq<APIEntity>
    reads f.Lists()
  {
    if f.Page? && f.list.data.Some? then f.list.data.value else []
  }

  /** The same entities as a set: what stamping a fetch may modify. */
  function ItemSet(f: Fetched): set<APIEntity>
    reads f.Lists()
  {
    set e | e in Items(f)
  }

  /** The stamping loop walks the page's list, so a page must carry one. */
  predicate HasData(f: Fetched)
    reads f.Lists()
  {
    f.Page? ==> f.list.data.Some?
  }

  // ------------------------------------------------------------------
  // Building the list URI

  /** `getNotNullValue(obj)`: `obj.toString()`, or the empty string for null. */
  function NotNullValue<T>(o: Option<T>, toString: T -> string): (s: string)
    ensures o.None? ==> s == ""
  {
    if o.Some? then toString(o.value) else ""
  }

  function LongText(x: Option<Int64>): string {
    NotNullValue(x, LongToString)
  }

  function SearchText(search: Option<string>): string {
    NotNullValue(search, (s: string) => s)
  }

  /** The sort argument of the format call: `serialize()` of a sort, and a null
      sort printed by `%s` as the text "null". */
  function SortText(sort: Option<APISort>): string {
    if sort.Some? then sort.value.serialized else NullText
  }

  /** No paging argument is given (an empty sort counts as none). */
  predicate NoPaging(offset: Option<Int64>, limit: Option<Int64>, search: Option<string>, sort: Option<APISort>) {
    offset.None? && limit.None? && search.None? && (sort.None? || sort.value.isEmpty)
  }

  /** The four `key=value` fields of a paging query, in order. */
  function QueryFields(offset: Option<Int64>, limit: Option<Int64>, search: Option<string>, sort: Option<APISort>): seq<string> {
    ["offset=" + LongText(offset), "limit=" + LongText(limit),
     "search=" + SearchText(search), "sort=" + SortText(sort)]
  }

  /** The text `offset=%s&limit=%s&search=%s&sort=%s` fills in. */
  function PagingQuery(offset: Option<Int64>, limit: Option<Int64>, search: Option<string>, sort: Option<APISort>): string {
    "offset=" + LongText(offset) + "&" + "limit=" + LongText(limit) + "&" +
    "search=" + SearchText(search) + "&" + "sort=" + SortText(sort)
  }

  /** The resource URI the main constructor stores: the base unchanged when no
      paging argument is given, else the base, then `&` when it already has a
      query and `?` when it has none, then the paging query. */
  function ListUri(base: string, offset: Option<Int64>, limit: Option<Int64>, search: Option<string>, sort: Option<APISort>): (uri: string)
    ensures NoPaging(offset, limit, search, sort) ==> uri == base
    ensures !NoPaging(offset, limit, search, sort) ==>
              |uri| > |base| && uri[..|base|] == base &&
              uri[|base|] == (if '?' in base then '&' else '?') &&
              uri[|base| + 1..] == PagingQuery(offset, limit, search, sort)
  {
    if NoPaging(offset, limit, search, sort) then base
    else base + (if Contains(base, '?') then "&" else "?") + PagingQuery(offset, limit, search, sort)
  }

  // ------------------------------------------------------------------
  // Reading a URI back: path, query and `&`-separated fields

  /** The part of a URI before its first `?` (all of it when there is none). */
  function PathPart(s: string): (p: string)
    ensures '?' !in p
  {
    var k := IndexOf(s, '?');
    if k == -1 then s else s[..k]
  }

  /** The part of a URI from its first `?` on (empty when there is none). */
  function QueryPart(s: string): (q: string)
    ensures q == [] || q[0] == '?'
    ensures PathPart(s) + q == s
  {
    var k := IndexOf(s, '?');
    if k == -1 then [] else s[k..]
  }

  /** A URI is cut at its first `?` exactly where a `?`-free path meets a query. */
  lemma PathQuerySplit(p: string, q: string)
    requires '?' !in p
    requires q == [] || q[0] == '?'
    ensures PathPart(p + q) == p && QueryPart(p + q) == q
  {
    if q == [] {
      assert p + q == p;
    } else {
      assert p + q == p + ['?'] + q[1..];
      IndexOfAfterPrefix(p, '?', q[1..]);
    }
  }

  /** The pieces of `s` between the occurrences of `sep`. */
  function Split(s: string, sep: char): (parts: seq<string>)
    ensures |parts| >= 1
    decreases |s|
  {
    var k := IndexOf(s, sep);
    if k == -1 then [s] else [s[..k]] + Split(s[k + 1..], sep)
  }

  /** The pieces joined back with `sep` between them. */
  function Join(parts: seq<string>, sep: char): string
  {
    if |parts| == 0 then ""
    else if |parts| == 1 then parts[0]
    else parts[0] + [sep] + Join(parts[1..], sep)
  }

  lemma SplitAfterField(a: string, sep: char, rest: string)
    requires sep !in a
    ensures Split(a + [sep] + rest, sep) == [a] + Split(rest, sep)
  {
    var s := a + [sep] + rest;
    IndexOfAfterPrefix(a, sep, rest);
    assert s[..|a|] == a;
    assert s[|a| + 1..] == rest;
  }

  /** Splitting undoes joining, as long as no piece holds the separator. */
  lemma {:induction false} SplitJoin(parts: seq<string>, sep: char)
    requires |parts| >= 1
    requires forall i :: 0 <= i < |parts| ==> sep !in parts[i]
    ensures Split(Join(parts, sep), sep) == parts
  {
    if |parts| == 1 {
      assert IndexOf(parts[0], sep) == -1;
    } else {
      SplitAfterField(parts[0], sep, Join(parts[1..], sep));
      SplitJoin(parts[1..], sep);
      assert parts == [parts[0]] + parts[1..];
    }
  }

  lemma JoinFour(a: string, b: string, c: string, d: string, sep: char)
    ensures Join([a, b, c, d], sep) == a + [sep] + b + [sep] + c + [sep] + d
  {
    var f := [a, b, c, d];
    assert f[1..] == [b, c, d];
    assert f[1..][1..] == [c, d];
    assert f[1..][1..][1..] == [d];
    assert Join([c, d], sep) == c + [sep] + d;
    assert Join([b, c, d], sep) == b + [sep] + (c + [sep] + d);
    assert a + [sep] + (b + [sep] + (c + [sep] + d)) == a + [sep] + b + [sep] + c + [sep] + d;
  }

  /** The format string is the four fields joined by `&`. */
  lemma PagingQueryIsJoin(offset: Option<Int64>, limit: Option<Int64>, search: Option<string>, sort: Option<APISort>)
    ensures PagingQuery(offset, limit, search, sort) == Join(QueryFields(offset, limit, search, sort), '&')
  {
    PagingQueryRegrouped(offset, limit, search, sort);
    var f := QueryFields(offset, limit, search, sort);
    JoinFour(f[0], f[1], f[2], f[3], '&');
    assert f == [f[0], f[1], f[2], f[3]];
  }

  lemma PagingQueryRegrouped(offset: Option<Int64>, limit: Option<Int64>, search: Option<string>, sort: Option<APISort>)
    ensures PagingQuery(offset, limit, search, sort) ==
              ("offset=" + LongText(offset)) + "&" + ("limit=" + LongText(limit)) + "&" +
              ("search=" + SearchText(search)) + "&" + ("sort=" + SortText(sort))
  {
  }

  lemma LongTextHasNoAmpersand(o: Option<Int64>)
    ensures '&' !in LongText(o)
  {
    if o.Some? {
      var s := LongToString(o.value);
      assert forall i :: 0 <= i < |s| ==> s[i] != '&';
    }
  }

  /** The paging query splits at `&` into exactly its four fields, in order,
      as long as the search text and the serialized sort hold no `&`. */
  lemma PagingQueryFields(offset: Option<Int64>, limit: Option<Int64>, search: Option<string>, sort: Option<APISort>)
    requires '&' !in SearchText(search)
    requires sort.Some? ==> '&' !in sort.value.serialized
    ensures Split(PagingQuery(offset, limit, search, sort), '&') == QueryFields(offset, limit, search, sort)
  {
    LongTextHasNoAmpersand(offset);
    LongTextHasNoAmpersand(limit);
    KeyedFieldHasNoAmpersand("offset=", LongText(offset));
    KeyedFieldHasNoAmpersand("limit=", LongText(limit));
    KeyedFieldHasNoAmpersand("search=", SearchText(search));
    KeyedFieldHasNoAmpersand("sort=", SortText(sort));
    PagingQueryIsJoin(offset, limit, search, sort);
    SplitJoin(QueryFields(offset, limit, search, sort), '&');
  }

  lemma KeyedFieldHasNoAmpersand(key: string, value: string)
    requires forall i :: 0 <= i < |key| ==> key[i] != '&'
    requires '&' !in value
    ensures '&' !in key + value
  {
  }

  /** Appending a tail after `?` (no query yet) or `&` (a query already)
      leaves the path alone and extends the query. */
  lemma QueryAppended(base: string, tail: string)
    ensures var uri := base + (if '?' in base then "&" else "?") + tail;
            PathPart(uri) == PathPart(base) &&
            QueryPart(uri) == (if '?' in base then QueryPart(base) + "&" else "?") + tail
  {
    if '?' in base {
      QueryExtended(base, tail);
    } else {
      QueryStarted(base, tail);
    }
  }

  lemma QueryExtended(base: string, tail: string)
    requires '?' in base
    ensures PathPart(base + "&" + tail) == PathPart(base)
    ensures QueryPart(base + "&" + tail) == QueryPart(base) + "&" + tail
  {
    var p, q := PathPart(base), QueryPart(base);
    assert q != [];
    assert base + "&" + tail == p + (q + "&" + tail);
    PathQuerySplit(p, q + "&" + tail);
  }

  lemma QueryStarted(base: string, tail: string)
    requires '?' !in base
    ensures PathPart(base + "?" + tail) == base
    ensures QueryPart(base + "?" + tail) == "?" + tail
  {
    assert base + "?" + tail == base + ("?" + tail);
    PathQuerySplit(base, "?" + tail);
  }

  /** Adding the paging query never alters the path: the part of the URI
      before its first `?` is the base's. Without a query in the base, the
      URI's query is exactly `?` and the paging query; with one, it is the
      base's query, `&` and the paging query. */
  lemma ListUriKeepsPath(base: string, offset: Option<Int64>, limit: Option<Int64>, search: Option<string>, sort: Option<APISort>)
    requires !NoPaging(offset, limit, search, sort)
    ensures PathPart(ListUri(base, offset, limit, search, sort)) == PathPart(base)
    ensures QueryPart(ListUri(base, offset, limit, search, sort)) ==
              (if '?' in base then QueryPart(base) + "&" else "?") + PagingQuery(offset, limit, search, sort)
  {
    QueryAppended(base, PagingQuery(offset, limit, search, sort));
  }

  /** When paging is given, the URI's query carries the four paging fields, in
      order, as its last four `&`-separated fields; when the base has no query
      they are all of it. */
  lemma ListUriFields(base: string, offset: Option<Int64>, limit: Option<Int64>, search: Option<string>, sort: Option<APISort>)
    requires !NoPaging(offset, limit, search, sort)
    requires '&' !in SearchText(search)
    requires sort.Some? ==> '&' !in sort.value.serialized
    ensures var uri := ListUri(base, offset, limit, search, sort);
            Split(uri[|base| + 1..], '&') == QueryFields(offset, limit, search, sort)
  {
    PagingQueryFields(offset, limit, search, sort);
  }

  // ------------------------------------------------------------------
  // Paging probes

  /** `isNextAvailable` fetches three times (for the offset, the limit and the
      total, in that order) and unboxes each field as soon as it is read; a fetch
      happens only when the ones before it succeeded. The unboxed fields must
      be present (a null throws an uncaught NullPointerException). */
  predicate NextProbeDefined(f1: Fetched, f2: Fetched, f3: Fetched)
    reads f1.Lists(), f2.Lists(), f3.Lists()
  {
    && HasData(f1)
    && (f1.Page? ==> f1.list.offset.Some? && HasData(f2))
    && (f1.Page? && f2.Page? ==> f2.list.limit.Some? && HasData(f3))
    && (f1.Page? && f2.Page? && f3.Page? ==> f3.list.total.Some?)
  }

  /** The entities the three probe fetches stamp: only those of the fetches
      that happen. */
  function NextProbeItems(f1: Fetched, f2: Fetched, f3: Fetched): set<APIEntity>
    reads f1.Lists(), f2.Lists(), f3.Lists()
  {
    ItemSet(f1) + (if f1.Page? then ItemSet(f2) + (if f2.Page? then ItemSet(f3) else {}) else {})
  }

  /** `offset + limit < total` on Java ints: the sum wraps around in 32 bits. */
  function NextWindow(offset: Int32, limit: Int32, total: Int32): (b: bool)
    ensures InInt32Range(offset + limit) ==> (b <==> offset + limit < total)
  {
    AddInt32(offset, limit) < total
  }

  /** Java's addition can wrap: the last page of a window that ends past
      2^31 - 1 still reports a next page. */
  lemma NextWindowWraps()
    ensures NextWindow(0x7fff_ffff, 1, 0) && !(0x7fff_ffff + 1 < 0)
  {
  }

  /** The answer of `isNextAvailable`: any failed fetch gives false. */
  function NextAvailable(f1: Fetched, f2: Fetched, f3: Fetched): (b: bool)
    reads f1.Lists(), f2.Lists(), f3.Lists()
    requires NextProbeDefined(f1, f2, f3)
    ensures b ==> f1.Page? && f2.Page? && f3.Page?
    ensures f1.Page? && f2.Page? && f3.Page? ==>
              (b <==> NextWindow(f1.list.offset.value, f2.list.limit.value, f3.list.total.value))
  {
    f1.Page? && f2.Page? && f3.Page? &&
    NextWindow(f1.list.offset.value, f2.list.limit.value, f3.list.total.value)
  }

  /** When all three fetches see the same page and its window does not
      overflow, there is a next page exactly when the window ends before the
      total. */
  lemma NextAvailableOnOnePage(f: Fetched)
    requires NextProbeDefined(f, f, f) && f.Page?
    requires InInt32Range(f.list.offset.value + f.list.limit.value)
    ensures NextAvailable(f, f, f) <==> f.list.offset.value + f.list.limit.value < f.list.total.value
  {
  }

  /** What `isPreviousAvailable`'s single fetch must deliver before its offset
      is unboxed. */
  predicate PreviousProbeDefined(f: Fetched)
    reads f.Lists()
  {
    HasData(f) && (f.Page? ==> f.list.offset.Some?)
  }

  /** The answer of `isPreviousAvailable`: a positive offset; a failed fetch
      gives false. */
  function PreviousAvailable(f: Fetched): (b: bool)
    reads f.Lists()
    requires PreviousProbeDefined(f)
    ensures b ==> f.Page?
    ensures f.Page? ==> (b <==> f.list.offset.value > 0)
  {
    f.Page? && f.list.offset.value > 0
  }

  // ------------------------------------------------------------------
  // Cursor rewriting

  /** The cursor's query (from its first `?`) put onto the base's path, in place
      of any query the base had. */
  function RewriteCursor(base: string, cursor: string): (uri: string)
    requires '?' in cursor
    ensures uri == PathPart(base) + QueryPart(cursor)
    ensures '?' !in base ==> uri == base + QueryPart(cursor)
  {
    var paramIndex := IndexOf(cursor, '?');
    var origParamIndex := IndexOf(base, '?');
    if origParamIndex != -1 then base[..origParamIndex] + cursor[paramIndex..]
    else base + cursor[paramIndex..]
  }

  /** The rewritten URI has the base's path and the cursor's query. */
  lemma RewriteCursorParts(base: string, cursor: string)
    requires '?' in cursor
    ensures PathPart(RewriteCursor(base, cursor)) == PathPart(base)
    ensures QueryPart(RewriteCursor(base, cursor)) == QueryPart(cursor)
  {
    PathQuerySplit(PathPart(base), QueryPart(cursor));
  }

  /** Which of an envelope's two cursors a navigation reads. */
  datatype CursorField = NextField | PreviousField

  function Cursor(list: APIList, which: CursorField): Option<string>
    reads list
  {
    if which == NextField then list.next else list.previous
  }

  /** The fetch that supplies the cursor must deliver a page with items and
      a cursor holding `?` (without one, `substring(-1)` throws). */
  predicate CursorUsable(f: Fetched, which: CursorField)
    reads f.Lists()
  {
    HasData(f) && (f.Page? ==> Cursor(f.list, which).Some? && '?' in Cursor(f.list, which).value)
  }

  /** Since the previous page is built from the `next` cursor, whenever the two
      cursors carry different queries the resulting URI is not the one the
      `previous` cursor names. */
  lemma PreviousFromNextCursor(base: string, next: string, previous: string)
    requires '?' in next && '?' in previous
    requires QueryPart(next) != QueryPart(previous)
    ensures QueryPart(RewriteCursor(base, next)) == QueryPart(next)
    ensures RewriteCursor(base, next) != RewriteCursor(base, previous)
  {
    RewriteCursorParts(base, next);
    RewriteCursorParts(base, previous);
  }

  // ------------------------------------------------------------------
  // The resource

  class APIListResource {
    const client: APIClient?
    const resourceURI: string

    /** `APIListResource(client, resourceURI, type)`: delegates with every
        paging argument null, so the URI is kept as given. */
    constructor Plain(client: APIClient?, resourceURI: string)
      ensures this.client == client && this.resourceURI == resourceURI
    {
      this.client := client;
      this.resourceURI := ListUri(resourceURI, None, None, None, None);
    }

    /** `APIListResource(client, resourceURI, queryBuilder, type)`: the URI is
        whatever the (unseen) query builder makes of the base. */
    constructor WithQuery(client: APIClient?, resourceURI: string, build: string -> string)
      ensures this.client == client && this.resourceURI == build(resourceURI)
    {
      this.client := client;
      this.resourceURI := build(resourceURI);
    }

    /** `APIListResource(client, resourceURI, offset, limit, search, sort, type)`. */
    constructor (client: APIClient?, resourceURI: string, offset: Option<Int64>, limit: Option<Int64>,
                 search: Option<string>, sort: Option<APISort>)
      ensures this.client == client
      ensures this.resourceURI == ListUri(resourceURI, offset, limit, search, sort)
    {
      this.client := client;
      this.resourceURI := ListUri(resourceURI, offset, limit, search, sort);
    }

    /** An entity carries this resource's client and the self URI built from
        this resource's URI and "/" followed by its id (`"/null"` for a null id). */
    predicate Stamped(e: APIEntity, createUri: (string, string) -> string)
      reads e
    {
      e.client == client &&
      e.selfURI == Some(createUri(resourceURI, "/" + StringValueOf(e.id, LongToString)))
    }

    /** `getEntity()`: the fetched page is returned as it is, and each of its
        entities is stamped; ids do not change. */
    method GetEntity(f: Fetched, createUri: (string, string) -> string) returns (r: Fetched)
      requires HasData(f)
      modifies ItemSet(f)
      ensures r == f
      ensures forall e | e in Items(f) :: Stamped(e, createUri) && e.id == old(e.id)
    {
      r := f;
      if f.Page? {
        var items := f.list.data.value;
        for i := 0 to |items|
          invariant forall j :: 0 <= j < i ==> Stamped(items[j], createUri)
          invariant forall e | e in items :: e.id == old(e.id)
        {
          var item := items[i];
          item.client := client;
          item.selfURI := Some(createUri(resourceURI, "/" + StringValueOf(item.id, LongToString)));
        }
      }
    }

    /** `getTotal()`: the fetched total, or the fetch's failure. */
    method GetTotal(f: Fetched, createUri: (string, string) -> string) returns (r: Result<Option<Int32>, APIException>)
      requires HasData(f)
      modifies ItemSet(f)
      ensures f.Page? ==> r == Success(f.list.total)
      ensures f.Failed? ==> r == Failure(f.error)
      ensures forall e | e in Items(f) :: Stamped(e, createUri) && e.id == old(e.id)
    {
      var g := GetEntity(f, createUri);
      if g.Failed? {
        return Failure(g.error);
      }
      return Success(g.list.total);
    }

    /** `isNextAvailable()`: never throws; stamps the entities of each fetch it makes. */
    method IsNextAvailable(f1: Fetched, f2: Fetched, f3: Fetched, createUri: (string, string) -> string) returns (b: bool)
      requires NextProbeDefined(f1, f2, f3)
      modifies NextProbeItems(f1, f2, f3)
      ensures b == NextAvailable(f1, f2, f3)
      ensures forall e | e in NextProbeItems(f1, f2, f3) :: Stamped(e, createUri) && e.id == old(e.id)
    {
      var g1 := GetEntity(f1, createUri);
      if g1.Failed? {
        return false;
      }
      var offset := g1.list.offset.value;
      var g2 := GetEntity(f2, createUri);
      if g2.Failed? {
        return false;
      }
      var limit := g2.list.limit.value;
      var g3 := GetEntity(f3, createUri);
      if g3.Failed? {
        return false;
      }
      b := AddInt32(offset, limit) < g3.list.total.value;
    }

    /** `isPreviousAvailable()`: never throws. */
    method IsPreviousAvailable(f: Fetched, createUri: (string, string) -> string) returns (b: bool)
      requires PreviousProbeDefined(f)
      modifies ItemSet(f)
      ensures b == PreviousAvailable(f)
      ensures forall e | e in Items(f) :: Stamped(e, createUri) && e.id == old(e.id)
    {
      var g := GetEntity(f, createUri);
      if g.Failed? {
        return false;
      }
      b := g.list.offset.value > 0;
    }

    /** The resource a cursor leads to: the cursor rewritten onto this
        resource's URI, built with no paging arguments. */
    method Follow(cursor: string) returns (res: APIListResource)
      requires '?' in cursor
      ensures fresh(res)
      ensures res.client == client && res.resourceURI == RewriteCursor(resourceURI, cursor)
      ensures PathPart(res.resourceURI) == PathPart(resourceURI) && QueryPart(res.resourceURI) == QueryPart(cursor)
    {
      RewriteCursorParts(resourceURI, cursor);
      var uri := RewriteCursor(resourceURI, cursor);
      res := new APIListResource(client, uri, None, None, None, None);
    }

    /** What `getNext()` and `getPrevious()` do once they have probed and
        fetched: null when there is no such page, the fetch's failure, or the
        resource the chosen cursor of the fetched envelope leads to. */
    method FollowCursor(available: bool, g: Fetched, which: CursorField)
      returns (r: Result<APIListResource?, APIException>)
      requires available && g.Page? ==> Cursor(g.list, which).Some? && '?' in Cursor(g.list, which).value
      ensures r == Success(null) <==> !available
      ensures available && g.Failed? ==> r == Failure(g.error)
      ensures available && g.Page? ==>
                r.Success? && r.value != null && fresh(r.value) && r.value.client == client &&
                r.value.resourceURI == RewriteCursor(resourceURI, Cursor(g.list, which).value)
    {
      if !available {
        return Success(null);
      }
      if g.Failed? {
        return Failure(g.error);
      }
      var res := Follow(Cursor(g.list, which).value);
      return Success(res);
    }

    /** The fetches `getNext()` makes: the three probes, then, when they say
        there is a next page, the page that carries the cursor. */
    method ProbeNext(f1: Fetched, f2: Fetched, f3: Fetched, f4: Fetched, createUri: (string, string) -> string)
      returns (available: bool, g: Fetched)
      requires NextProbeDefined(f1, f2, f3)
      requires NextAvailable(f1, f2, f3) ==> HasData(f4)
      modifies NextProbeItems(f1, f2, f3), if NextAvailable(f1, f2, f3) then ItemSet(f4) else {}
      ensures available == NextAvailable(f1, f2, f3)
      ensures available ==> g == f4
      ensures forall e | e in ItemSet(f1) :: Stamped(e, createUri) && e.id == old(e.id)
      ensures f1.Page? ==> forall e | e in ItemSet(f2) :: Stamped(e, createUri) && e.id == old(e.id)
      ensures f1.Page? && f2.Page? ==> forall e | e in ItemSet(f3) :: Stamped(e, createUri) && e.id == old(e.id)
      ensures available ==> forall e | e in ItemSet(f4) :: Stamped(e, createUri) && e.id == old(e.id)
    {
      available := IsNextAvailable(f1, f2, f3, createUri);
      g := f4;
      if available {
        g := GetEntity(f4, createUri);
      }
    }

    /** `getNext()`: null when the probe says there is no next page; otherwise
        a new resource on this path with the `next` cursor's query, or the
        failure of the fetch that reads the cursor. */
    method GetNext(f1: Fetched, f2: Fetched, f3: Fetched, f4: Fetched, createUri: (string, string) -> string)
      returns (r: Result<APIListResource?, APIException>)
      requires NextProbeDefined(f1, f2, f3)
      requires NextAvailable(f1, f2, f3) ==> CursorUsable(f4, NextField)
      modifies NextProbeItems(f1, f2, f3), if NextAvailable(f1, f2, f3) then ItemSet(f4) else {}
      ensures r == Success(null) <==> !NextAvailable(f1, f2, f3)
      ensures NextAvailable(f1, f2, f3) && f4.Failed? ==> r == Failure(f4.error)
      ensures NextAvailable(f1, f2, f3) && f4.Page? ==>
                r.Success? && r.value != null && fresh(r.value) && r.value.client == client &&
                r.value.resourceURI == RewriteCursor(resourceURI, f4.list.next.value)
      ensures forall e | e in ItemSet(f1) :: Stamped(e, createUri)
      ensures f1.Page? ==> forall e | e in ItemSet(f2) :: Stamped(e, createUri)
      ensures f1.Page? && f2.Page? ==> forall e | e in ItemSet(f3) :: Stamped(e, createUri)
      ensures NextAvailable(f1, f2, f3) ==> forall e | e in ItemSet(f4) :: Stamped(e, createUri)
      ensures forall e | e in NextProbeItems(f1, f2, f3) :: e.id == old(e.id)
      ensures NextAvailable(f1, f2, f3) ==> forall e | e in ItemSet(f4) :: e.id == old(e.id)
    {
      var available, g := ProbeNext(f1, f2, f3, f4, createUri);
      r := FollowCursor(available, g, NextField);
    }

    /** The two fetches both versions of `getPrevious()` make: the offset
        probe, then, when it succeeds, the page that carries the cursor. */
    method ProbePrevious(f1: Fetched, f2: Fetched, createUri: (string, string) -> string)
      returns (available: bool, g: Fetched)
      requires PreviousProbeDefined(f1)
      requires PreviousAvailable(f1) ==> HasData(f2)
      modifies ItemSet(f1), if PreviousAvailable(f1) then ItemSet(f2) else {}
      ensures available == PreviousAvailable(f1)
      ensures available ==> g == f2
      ensures forall e | e in ItemSet(f1) :: Stamped(e, createUri) && e.id == old(e.id)
      ensures available ==> forall e | e in ItemSet(f2) :: Stamped(e, createUri) && e.id == old(e.id)
    {
      available := IsPreviousAvailable(f1, createUri);
      g := f2;
      if available {
        g := GetEntity(f2, createUri);
      }
    }

    /** `getPrevious()` as written: probes the offset, but then follows the
        envelope's `next` cursor. */
    method GetPrevious(f1: Fetched, f2: Fetched, createUri: (string, string) -> string)
      returns (r: Result<APIListResource?, APIException>)
      requires PreviousProbeDefined(f1)
      requires PreviousAvailable(f1) ==> CursorUsable(f2, NextField)
      modifies ItemSet(f1), if PreviousAvailable(f1) then ItemSet(f2) else {}
      ensures r == Success(null) <==> !PreviousAvailable(f1)
      ensures PreviousAvailable(f1) && f2.Failed? ==> r == Failure(f2.error)
      ensures PreviousAvailable(f1) && f2.Page? ==>
                r.Success? && r.value != null && fresh(r.value) && r.value.client == client &&
                r.value.resourceURI == RewriteCursor(resourceURI, f2.list.next.value)
      ensures forall e | e in ItemSet(f1) :: Stamped(e, createUri) && e.id == old(e.id)
      ensures PreviousAvailable(f1) ==> forall e | e in ItemSet(f2) :: Stamped(e, createUri) && e.id == old(e.id)
    {
      var available, g := ProbePrevious(f1, f2, createUri);
      r := FollowCursor(available, g, NextField);
    }

    /** `getPrevious()` as evidently intended: follows the `previous` cursor, so
        the new resource's query is that cursor's. */
    method GetPreviousIntended(f1: Fetched, f2: Fetched, createUri: (string, string) -> string)
      returns (r: Result<APIListResource?, APIException>)
      requires PreviousProbeDefined(f1)
      requires PreviousAvailable(f1) ==> CursorUsable(f2, PreviousField)
      modifies ItemSet(f1), if PreviousAvailable(f1) then ItemSet(f2) else {}
      ensures r == Success(null) <==> !PreviousAvailable(f1)
      ensures PreviousAvailable(f1) && f2.Failed? ==> r == Failure(f2.error)
      ensures PreviousAvailable(f1) && f2.Page? ==>
                r.Success? && r.value != null && fresh(r.value) && r.value.client == client &&
                PathPart(r.value.resourceURI) == PathPart(resourceURI) &&
                QueryPart(r.value.resourceURI) == QueryPart(f2.list.previous.value)
      ensures forall e | e in ItemSet(f1) :: Stamped(e, createUri) && e.id == old(e.id)
      ensures PreviousAvailable(f1) ==> forall e | e in ItemSet(f2) :: Stamped(e, createUri) && e.id == old(e.id)
    {
      var available, g := ProbePrevious(f1, f2, createUri);
      r := FollowCursor(available, g, PreviousField);
      if available && g.Page? {
        RewriteCursorParts(resourceURI, g.list.previous.value);
      }
    }
  }
}
