# testdroid-api list binding, modelled in Dafny

This project models the pagination core of the testdroid-api Java client. It covers two classes.

- `APIListResource` wraps one page of a remote list endpoint. It builds the list URI from the paging arguments (offset, limit, search, sort). After each fetch it stamps every returned entity with the client and a self URI. It checks whether a next or previous page exists, swallowing fetch errors. It builds the adjacent page's resource by moving the page cursor's query onto its own path.
- `APIList` is the page envelope. It holds the `next` and `previous` cursors, the items, `offset`, `limit`, `total`, `search` and `sort`. It has setters, an indexed `get`, `isEmpty` and `hasId`.

Files:

- `Wrappers.dfy`: `Option` (a Java reference that may be null) and `Result` (a value, or a thrown exception).
- `JavaLang.dfy`: the Java behaviour the code relies on. It covers `int` addition with 32-bit wrap-around, `indexOf`, `contains`, `Long.toString` (with a parser that proves the round trip), and the text `null` that Java prints for a null reference.
- `Envelope.dfy`: a class each for `APIList`, `APIEntity` (its `id`, `client` and `selfURI` fields) and `APIClient`.
- `ListResource.dfy`: `APIListResource`. The URI rules are pure functions with lemmas about them. The resource is a class whose methods stamp entities in place.
- `ListResourceExamples.dfy`: worked examples on concrete URIs.

The inherited `getEntity()` does an HTTP fetch. Each call to it is modelled as an argument `Fetched = Page(list) | Failed(error)`. A Java method that fetches several times takes one argument per fetch, in Java's evaluation order. For example, `isNextAvailable` fetches three times: once each for the offset, the limit and the total. A fetch happens only when the ones before it succeeded, and the preconditions ask nothing of the fetches that never happen.

Calls into code that is not part of this model are parameters or plain values:

- `APIEntity.createUri` is a function parameter `createUri`.
- `APIQueryBuilder.build` is a function parameter of the `WithQuery` constructor.
- `APISort` is the pair of what its `serialize()` returns and what its `isEmpty()` answers.

## Model

| member | source | states |
|---|---|---|
| `ListResource.ListUri` | src/main/java/com/testdroid/api/APIListResource.java:17-24 | with no paging argument (an empty sort counts as none) the URI is the base exactly; otherwise the base is kept as a prefix, followed by `&` if the base contains `?` and by `?` if not, then the paging query |
| `ListResource.NotNullValue` | src/main/java/com/testdroid/api/APIListResource.java:113-115 | a null argument gives the empty string |
| `ListResource.PagingQueryFields` | src/main/java/com/testdroid/api/APIListResource.java:20-22 | splitting the paging query at `&` gives exactly `offset=…`, `limit=…`, `search=…`, `sort=…` in that order; a null offset, limit or search becomes empty, a null sort becomes the text `null`; this needs the search text and the serialized sort to hold no `&` |
| `ListResource.ListUriFields` | src/main/java/com/testdroid/api/APIListResource.java:20-22 | the text after the separator splits into those four fields |
| `ListResource.ListUriKeepsPath` | src/main/java/com/testdroid/api/APIListResource.java:20 | adding paging keeps the path before the first `?`. Without a base query, the URI's query is `?` plus the paging query; with one, it is the base query, `&`, then the paging query |
| `ListResource.QueryAppended` | src/main/java/com/testdroid/api/APIListResource.java:20 | appending after `?` or `&`, chosen as line 20 does, keeps the path and extends the query |
| `ListResource.SplitJoin` | src/main/java/com/testdroid/api/APIListResource.java:20 | splitting at a separator undoes joining with it when no piece holds the separator; this reads the query back |
| `ListResource.PagingQueryIsJoin` | src/main/java/com/testdroid/api/APIListResource.java:20 | the format string's output is the four fields joined by `&` |
| `ListResource.APIListResource.constructor` | src/main/java/com/testdroid/api/APIListResource.java:17-24 | the resource keeps the client, and its URI is `ListUri` of the arguments |
| `ListResource.APIListResource.Plain` | src/main/java/com/testdroid/api/APIListResource.java:9-11 | delegating with all paging arguments null keeps the URI exactly as given |
| `ListResource.APIListResource.WithQuery` | src/main/java/com/testdroid/api/APIListResource.java:13-15 | the URI is what the query builder makes of the base |
| `ListResource.APIListResource.GetEntity` | src/main/java/com/testdroid/api/APIListResource.java:26-34 | returns the fetched page or failure unchanged, so the items keep their length and order. Every item gets this resource's client and `selfURI = createUri(resourceURI, "/" + id)` (`"/null"` for a null id). Ids do not change, and only the page's items are modified |
| `ListResource.APIListResource.GetTotal` | src/main/java/com/testdroid/api/APIListResource.java:40-42 | the fetched total, or the fetch's failure; the page is stamped |
| `ListResource.NextWindow` | src/main/java/com/testdroid/api/APIListResource.java:49 | `offset + limit < total` on Java ints; when the sum fits in 32 bits this is the mathematical comparison |
| `ListResource.NextWindowWraps` | src/main/java/com/testdroid/api/APIListResource.java:49 | the sum can wrap: offset 2^31-1, limit 1, total 0 reports a next page |
| `ListResource.NextAvailable` | src/main/java/com/testdroid/api/APIListResource.java:47-54 | false whenever any of the three fetches failed; otherwise the window test on the first fetch's offset, the second's limit and the third's total |
| `ListResource.NextAvailableOnOnePage` | src/main/java/com/testdroid/api/APIListResource.java:49 | when all three fetches see one page and the sum does not overflow, the answer is `offset + limit < total` |
| `ListResource.APIListResource.IsNextAvailable` | src/main/java/com/testdroid/api/APIListResource.java:47-54 | never fails; returns `NextAvailable` of its three fetches, and stamps the items of each fetch that happens |
| `ListResource.PreviousAvailable` | src/main/java/com/testdroid/api/APIListResource.java:82-89 | false on a failed fetch; otherwise `offset > 0` |
| `ListResource.APIListResource.IsPreviousAvailable` | src/main/java/com/testdroid/api/APIListResource.java:82-89 | never fails; returns `PreviousAvailable` of its fetch and stamps the page |
| `ListResource.RewriteCursor` | src/main/java/com/testdroid/api/APIListResource.java:66-74 | for a cursor containing `?`, the result is the base's part before its first `?` followed by the cursor's part from its first `?`; a base without `?` is kept whole |
| `ListResource.RewriteCursorParts` | src/main/java/com/testdroid/api/APIListResource.java:66-74 | the rewritten URI's path is the base's path and its query is the cursor's query |
| `ListResource.APIListResource.Follow` | src/main/java/com/testdroid/api/APIListResource.java:76 | the new resource is built with all paging null, so its URI is exactly the rewritten cursor; it keeps the client |
| `ListResource.APIListResource.GetNext` | src/main/java/com/testdroid/api/APIListResource.java:62-77 | returns null exactly when `NextAvailable` is false. When it is true, a failed fourth fetch is returned as that failure, and a page gives a new resource on the `next` cursor rewritten onto this URI. Every entity of every fetch that happens ends up stamped as by `getEntity`, and its id does not change |
| `ListResource.APIListResource.GetPrevious` | src/main/java/com/testdroid/api/APIListResource.java:97-111 | returns null exactly when `PreviousAvailable` is false. Otherwise the result is the second fetch's failure, or a new resource on that envelope's `next` cursor, which is the same URI `GetNext` builds from that envelope. The entities of both fetches, where they happen, end up stamped with their ids unchanged |
| `ListResource.PreviousFromNextCursor` | src/main/java/com/testdroid/api/APIListResource.java:101-109 | when the two cursors have different queries, the URI `getPrevious` builds carries the `next` query and differs from the URI the `previous` cursor would give |
| `ListResource.APIListResource.GetPreviousIntended` | src/main/java/com/testdroid/api/APIListResource.java:97-111 | the corrected `getPrevious`: null, failure and stamping as for `GetPrevious`; for a page, the new resource has this path and exactly the `previous` cursor's query |
| `JavaLang.IndexOf` | src/main/java/com/testdroid/api/APIListResource.java:67-68 | -1 exactly when the character is absent; otherwise the position of its first occurrence |
| `JavaLang.Contains` | src/main/java/com/testdroid/api/APIListResource.java:20 | true exactly when the character occurs |
| `JavaLang.AddInt32` | src/main/java/com/testdroid/api/APIListResource.java:49 | the exact sum when it fits in 32 bits; otherwise the sum moved by exactly 2^32 up or down, which with the `Int32` result type is the one 32-bit value congruent to it modulo 2^32 |
| `JavaLang.LongToString` | src/main/java/com/testdroid/api/APIListResource.java:114 | nonempty, and made only of `-` and digits |
| `JavaLang.LongToStringRoundTrip` | src/main/java/com/testdroid/api/APIListResource.java:114 | parsing `Long.toString(x)` gives back `x` |
| `JavaLang.DecimalRoundTrip` | src/main/java/com/testdroid/api/APIListResource.java:114 | parsing the decimal digits of `n` gives back `n` |
| `JavaLang.Decimal` | src/main/java/com/testdroid/api/APIListResource.java:114 | at least one digit, only digits, and no leading zero |
| `JavaLang.StringValueOf` | src/main/java/com/testdroid/api/APIListResource.java:31 | a null reference is rendered as `null` |
| `ListResourceExamples.QueryFieldsExample` | src/main/java/com/testdroid/api/APIListResource.java:20-22 | offset 10 and limit 5 give the fields `offset=10`, `limit=5`, `search=`, `sort=null` |
| `ListResourceExamples.ListUriWithoutQueryExample` | src/main/java/com/testdroid/api/APIListResource.java:20 | `/items` is extended with `?` |
| `ListResourceExamples.ListUriWithQueryExample` | src/main/java/com/testdroid/api/APIListResource.java:20 | `/items?x=1` is extended with `&` |
| `ListResourceExamples.ListUriSortOnlyExample` | src/main/java/com/testdroid/api/APIListResource.java:19 | an empty sort with nothing else keeps the base; a non-empty sort alone does not |
| `ListResourceExamples.PreviousFromNextCursorExample` | src/main/java/com/testdroid/api/APIListResource.java:101 | on `/runs` with next `?offset=20` and previous `?offset=0`, the previous page is built from `?offset=20` |
| `Envelope.APIList.constructor` | src/main/java/com/testdroid/api/APIList.java:27 | every field is null |
| `Envelope.APIList.WithPage` | src/main/java/com/testdroid/api/APIList.java:28-35 | sets next, previous, data, total, search and sort from the arguments; offset and limit stay null |
| `Envelope.APIList.SetNext` | src/main/java/com/testdroid/api/APIList.java:42-48 | the setter changes only `next`, and afterwards the getter `Envelope.APIList.GetNext` returns the new value |
| `Envelope.APIList.SetPrevious` | src/main/java/com/testdroid/api/APIList.java:55-61 | the setter changes only `previous`, and afterwards the getter `Envelope.APIList.GetPrevious` returns the new value |
| `Envelope.APIList.SetData` | src/main/java/com/testdroid/api/APIList.java:70-76 | the setter changes only `data`, and afterwards the getter `Envelope.APIList.GetData` returns the new value |
| `Envelope.APIList.SetOffset` | src/main/java/com/testdroid/api/APIList.java:92-98 | the setter changes only `offset`, and afterwards the getter `Envelope.APIList.GetOffset` returns the new value |
| `Envelope.APIList.SetLimit` | src/main/java/com/testdroid/api/APIList.java:104-110 | the setter changes only `limit`, and afterwards the getter `Envelope.APIList.GetLimit` returns the new value |
| `Envelope.APIList.SetTotal` | src/main/java/com/testdroid/api/APIList.java:116-122 | the setter changes only `total`, and afterwards the getter `Envelope.APIList.GetTotal` returns the new value |
| `Envelope.APIList.SetSearch` | src/main/java/com/testdroid/api/APIList.java:128-134 | the setter changes only `search`, and afterwards the getter `Envelope.APIList.GetSearch` returns the new value |
| `Envelope.APIList.SetSort` | src/main/java/com/testdroid/api/APIList.java:140-146 | the setter changes only `sort`, and afterwards the getter `Envelope.APIList.GetSort` returns the new value |
| `Envelope.APIList.Get` | src/main/java/com/testdroid/api/APIList.java:79-81 | the item at the index, for an index inside the list |
| `Envelope.APIList.IsEmpty` | src/main/java/com/testdroid/api/APIList.java:84-86 | true exactly when the list has no items |
| `Envelope.APIList.HasId` | src/main/java/com/testdroid/api/APIList.java:150-152 | always false |

## Left out

- The HTTP fetch in the inherited `APIResource.getEntity()` is not modelled; `APIResource` is not part of this model. Each fetch's outcome is an argument. In particular, the model does not capture that repeated fetches may see different remote states; it only allows it.
- `APIEntity.createUri`, `APISort.serialize`/`isEmpty` and `APIQueryBuilder.build` are not part of this model. They appear as parameters, or as the values `APISort` carries.
- The type parameter `T` and its `Class<T>` argument, the unchecked casts, and the XML/JSON annotations are serialization and erasure plumbing with no behaviour here. The items are modelled as `APIEntity` objects.
- Uncaught runtime exceptions are preconditions, not modelled outcomes. These are: unboxing a null `offset`, `limit` or `total`; a null `data` list in the stamping loop, `get` or `isEmpty`; an index outside the list in `get`; a null cursor; a cursor without `?` (`substring(-1)` throws); a null element of `data`, which throws at `item.client` in the stamping loop (APIListResource.java:30), while the model's item sequence holds no null; and a null `queryBuilder` in the builder constructor (line 14), which the model's function parameter cannot be.
- A null `resourceURI` is not modelled, because the model's URI is a `string`. Java accepts it when no paging argument is given (line 19 passes it through unchanged) and throws at `resourceURI.contains` (line 20) when one is.
- `APIList.data` is modelled as an immutable sequence of entity references. The model does not capture aliasing of the Java `List` object itself, such as a caller changing the list after `setData`.
- The `Long` paging arguments are bounded to 64 bits. `Long.toString` is modelled in decimal, including the minus sign.
- `APIEntity.id` is taken to be a nullable `Long`; its declaration is not part of this model.
- `src/main/java/com/testdroid/api/APIArray.java` is not modelled. It only holds an array reference, and its `clone` delegates to the unseen `cloneBase`.
- For a call without a sort the code prints `…&sort=null`, not `…&sort=`, because `sort` reaches `%s` as null. The model follows the code (`QueryFieldsExample`).

## Findings

| source | as written | input that shows it | evidently intended | confidence | as-written member | corrected member |
|---|---|---|---|---|---|---|
| src/main/java/com/testdroid/api/APIListResource.java:101 | `getPrevious` takes its cursor from `getEntity().getNext()` | a page at offset 10 on `/runs` with next `/runs?offset=20` and previous `/runs?offset=0`: `getPrevious` leads to `/runs?offset=20` (`PreviousFromNextCursorExample`) | follow `getEntity().getPrevious()` | likely; not executed | `ListResource.APIListResource.GetPrevious` (with `ListResource.PreviousFromNextCursor`) | `ListResource.APIListResource.GetPreviousIntended` |
