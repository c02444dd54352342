/** Worked instances of the list-resource rules on concrete URIs. */
module ListResourceExamples {
  import opened Wrappers
  import opened JavaLang
  import opened ListResource

  /** The fields for offset 10 and limit 5: a missing search is empty and a
      missing sort is printed as "null". */
  lemma QueryFieldsExample()
    ensures QueryFields(Some(10), Some(5), None, None) == ["offset=10", "limit=5", "search=", "sort=null"]
  {
    LongTextTen();
    assert LongText(Some(5)) == "5";
    assert SearchText(None) == "";
    assert SortText(None) == "null";
    assert "offset=" + "10" == "offset=10";
    assert "limit=" + "5" == "limit=5";
    assert "search=" + "" == "search=";
    assert "sort=" + "null" == "sort=null";
  }

  lemma LongTextTen()
    ensures LongText(Some(10)) == "10"
  {
    assert Decimal(10) == Decimal(1) + [DigitChar(0)];
  }

  /** A base without a query gets `?` and the paging query, which reads back
      as the four fields for offset 10 and limit 5. */
  lemma ListUriWithoutQueryExample()
    ensures ListUri("/items", Some(10), Some(5), None, None) == "/items" + "?" + PagingQuery(Some(10), Some(5), None, None)
    ensures Split(ListUri("/items", Some(10), Some(5), None, None)[|"/items"| + 1..], '&') ==
              ["offset=10", "limit=5", "search=", "sort=null"]
  {
    assert !Contains("/items", '?');
    ListUriFields("/items", Some(10), Some(5), None, None);
    QueryFieldsExample();
  }

  /** A base with a query gets `&` and the paging query, which reads back as
      the four fields for offset 10 and limit 5. */
  lemma ListUriWithQueryExample()
    ensures ListUri("/items?x=1", Some(10), Some(5), None, None) == "/items?x=1" + "&" + PagingQuery(Some(10), Some(5), None, None)
    ensures Split(ListUri("/items?x=1", Some(10), Some(5), None, None)[|"/items?x=1"| + 1..], '&') ==
              ["offset=10", "limit=5", "search=", "sort=null"]
  {
    assert Contains("/items?x=1", '?') by { assert "/items?x=1"[6] == '?'; }
    ListUriFields("/items?x=1", Some(10), Some(5), None, None);
    QueryFieldsExample();
  }

  /** An empty sort with nothing else leaves the base alone; a non-empty one
      does not. */
  lemma ListUriSortOnlyExample()
    ensures ListUri("/items", None, None, None, Some(APISort("", true))) == "/items"
    ensures ListUri("/items", None, None, None, Some(APISort("name_a", false))) != "/items"
  {
  }

  /** A concrete page at offset 10 whose cursors differ: the page `GetPrevious`
      leads to is the one at offset 20, not the one at offset 0. */
  lemma PreviousFromNextCursorExample()
    ensures RewriteCursor("/runs", "/runs" + "?offset=20") == "/runs" + "?offset=20"
    ensures RewriteCursor("/runs", "/runs" + "?offset=20") != RewriteCursor("/runs", "/runs" + "?offset=0")
  {
    var next, previous := "/runs" + "?offset=20", "/runs" + "?offset=0";
    assert '?' !in "/runs";
    PathQuerySplit("/runs", "?offset=20");
    PathQuerySplit("/runs", "?offset=0");
    assert QueryPart(next) != QueryPart(previous) by {
      assert QueryPart(next)[8] != QueryPart(previous)[8];
    }
    PreviousFromNextCursor("/runs", next, previous);
  }
}
