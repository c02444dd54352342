/** The page envelope `APIList` (src/main/java/com/testdroid/api/APIList.java)
    and the two collaborators it carries: the client handle and the entities
    of the page. Every Java reference field that may be null is an `Option`. */
module Envelope {
  import opened Wrappers
  import opened JavaLang

  /** The remote client handle. Its behaviour lies outside this model; only
      its identity is copied into entities. */
  class APIClient {
  }

  /** The three fields of the base class `APIEntity` that the list binding
      reads or writes: the identifier (a nullable `Long`), the owning client
      and the self URI. */
  class APIEntity {
    var id: Option<Int64>
    var client: APIClient?
    var selfURI: Option<string>
  }

  /** The eight fields of an envelope, as one value. */
  datatype ListFields = ListFields(
    next: Option<string>,
    previous: Option<string>,
    data: Option<seq<APIEntity>>,
    offset: Option<Int32>,
    limit: Option<Int32>,
    total: Option<Int32>,
    search: Option<string>,
    sort: Option<string>)

  const AllNull := ListFields(None, None, None, None, None, None, None, None)

  /** One page of a paginated collection: the cursors to the adjacent pages,
      the items, the paging window, the total count and the search and sort
      text that produced it. */
  class APIList {
    var next: Option<string>
    var previous: Option<string>
    var data: Option<seq<APIEntity>>
    var offset: Option<Int32>
    var limit: Option<Int32>
    var total: Option<Int32>
    var search: Option<string>
    var sort: Option<string>

    function Fields(): ListFields
      reads this
    {
      ListFields(next, previous, data, offset, limit, total, search, sort)
    }

    /** `new APIList()`: every field null. */
    constructor ()
      ensures Fields() == AllNull
    {
      next, previous, data := None, None, None;
      offset, limit, total := None, None, None;
      search, sort := None, None;
    }

    /** `new APIList(next, previous, data, total, search, sort)`: offset and
        limit stay null. */
    constructor WithPage(next: Option<string>, previous: Option<string>, data: Option<seq<APIEntity>>,
                         total: Option<Int32>, search: Option<string>, sort: Option<string>)
      ensures Fields() == AllNull.(next := next, previous := previous, data := data,
                                   total := total, search := search, sort := sort)
    {
      this.next := next;
      this.previous := previous;
      this.data := data;
      this.total := total;
      this.search := search;
      this.sort := sort;
      offset, limit := None, None;
    }

    function GetNext(): Option<string> reads this { next }
    function GetPrevious(): Option<string> reads this { previous }
    function GetData(): Option<seq<APIEntity>> reads this { data }
    function GetOffset(): Option<Int32> reads this { offset }
    function GetLimit(): Option<Int32> reads this { limit }
    function GetTotal(): Option<Int32> reads this { total }
    function GetSearch(): Option<string> reads this { search }
    function GetSort(): Option<string> reads this { sort }

    method SetNext(next: Option<string>)
      modifies this
      ensures Fields() == old(Fields()).(next := next)
      ensures GetNext() == next
    {
      this.next := next;
    }

    method SetPrevious(previous: Option<string>)
      modifies this
      ensures Fields() == old(Fields()).(previous := previous)
      ensures GetPrevious() == previous
    {
      this.previous := previous;
    }

    method SetData(data: Option<seq<APIEntity>>)
      modifies this
      ensures Fields() == old(Fields()).(data := data)
      ensures GetData() == data
    {
      this.data := data;
    }

    method SetOffset(offset: Option<Int32>)
      modifies this
      ensures Fields() == old(Fields()).(offset := offset)
      ensures GetOffset() == offset
    {
      this.offset := offset;
    }

    method SetLimit(limit: Option<Int32>)
      modifies this
      ensures Fields() == old(Fields()).(limit := limit)
      ensures GetLimit() == limit
    {
      this.limit := limit;
    }

    method SetTotal(total: Option<Int32>)
      modifies this
      ensures Fields() == old(Fields()).(total := total)
      ensures GetTotal() == total
    {
      this.total := total;
    }

    method SetSearch(search: Option<string>)
      modifies this
      ensures Fields() == old(Fields()).(search := search)
      ensures GetSearch() == search
    {
      this.search := search;
    }

    method SetSort(sort: Option<string>)
      modifies this
      ensures Fields() == old(Fields()).(sort := sort)
      ensures GetSort() == sort
    {
      this.sort := sort;
    }

    /** `get(index)`: the item at `index`; Java's list throws outside the range
        and a null list throws too, so callers stay inside. */
    function Get(index: int): (item: APIEntity)
      reads this
      requires data.Some? && 0 <= index < |data.value|
      ensures item in data.value && item == data.value[index]
    {
      data.value[index]
    }

    /** `isEmpty()`: the page holds no items (a null list throws). */
    function IsEmpty(): (b: bool)
      reads this
      requires data.Some?
      ensures b <==> data.value == []
    {
      |data.value| == 0
    }

    /** `hasId()`: an envelope is never addressable by an id of its own. */
    function HasId(): (b: bool)
      ensures !b
    {
      false
    }
  }
}
