# corteza-server core, modelled in Dafny

Corteza is a low-code platform server written in Go. This project models eight of its files:

- **API-gateway route store** (`store/rdbms/apigw_route.gen.go`). Searching routes normalises the filter's sort keys so that `id` is always among them. A bounded refetch loop then collects a full page with keyset paging. It asks for one row more than requested, to learn whether a next page exists. Pages fetched for a previous-page cursor are reversed in place. Finally the loop builds the cursors of the neighbouring pages.
- **Offset/limit paging** (`store/rdbms/generic_selectors.go`). An explicit offset and limit are used as given. When their wrapping unsigned sum is zero, both come from the page number and page size instead.
- **Automation-script trigger helpers** (`pkg/corredor/util.go`):
  - removing the on-manual event type in place and collecting the resource types of manual triggers;
  - building event-bus registration options;
  - JSON-encoding script arguments;
  - filtering scripts by resource and event type.
- **The namespaced file store** (`internal/store/store.go`). It has a default name scheme for originals and previews. A name check runs before every filesystem call.
- **CRM helpers** (`crm/util.go`): lenient decimal parsing and string membership.
- **SQLite function renderings** (`store/sqlite3/sql_functions.go`): an arity-checked registry of handlers and a case-insensitive function rewriter.
- **Settings auto-configuration** (`system/commands/settings.go`): a fixed sequence of "set if missing" writes of authentication settings.
- **CRM attachment uploads** (`crm/service/attachment.go`):
  - extension extraction;
  - saving the original;
  - recording image dimensions;
  - the preview resize rule (landscapes fit 320 wide, everything else 180 tall);
  - the short cuts of the openers.

The code is modelled file by file. Datatypes hold values and classes hold the objects Go shares by reference, such as triggers, scripts, attachments, the settings store and the filesystem. Loops become methods with invariants, proved against specification functions, and lemmas state what those functions promise. Go's fixed-width unsigned arithmetic is written out where it matters, in `Ints.Wrap`. Foreign calls become parameters:

- the database is an oracle from a query to its rows;
- the image libraries are their results;
- `json.Marshal` is a partial function;
- the environment, the random secret and the sniffed mimetype are inputs.

Shared pieces live in helper modules:

- `Wrappers` holds `Option` and `Result`.
- `Ints` holds the 64-bit integer types, wrap-around and decimal text.
- `Strs` holds the `strings` functions used.
- `GoPath` holds Go's slash-separated `path.Clean`, `Join`, `Dir` and `Ext`.
- `Seqs` holds sequence facts.
- `Utf8` holds the UTF-8 encoding that Go's `len` and slicing count in.

## Model

| member | source | states |
|---|---|---|
| ApigwRouteStore.ReverseAll | store/rdbms/apigw_route.gen.go:69-73 | flipping the sort keys keeps every key's column and position and negates each key's direction |
| ApigwRouteStore.RouteTable | store/rdbms/apigw_route.gen.go:434-441 | the table is `apigw_routes`, followed by ` AS <alias>` exactly when an alias is given |
| ApigwRouteStore.RouteColumns | store/rdbms/apigw_route.gen.go:446-466 | the twelve columns in declaration order, each prefixed with `alias.` when an alias is given |
| ApigwRouteStore.Encode | store/rdbms/apigw_route.gen.go:483-498 | the payload has exactly the column names as keys, and `id` and `rel_group` carry the route's id and group |
| ApigwRouteStore.ColumnsMatchEncoder | store/rdbms/apigw_route.gen.go:446-498 | the names are distinct; the unaliased columns are exactly the encoder's keys; the sortable `id` is one of them |
| ApigwRouteStore.ScanRowsMeaning | store/rdbms/apigw_route.gen.go:254-264 | scanning succeeds iff every row scans, yielding their routes in order; otherwise the first failing row's error is returned |
| ApigwRouteStore.ScanAll | store/rdbms/apigw_route.gen.go:235-264 | the oracle's error, or its rows scanned; `QueryRoutes` and `ScanRowsMeaning` state it |
| ApigwRouteStore.QueryRoutes | store/rdbms/apigw_route.gen.go:235-272 | the query's error, or every scanned route in row order; the copy loop drops none (no `check` is applied) |
| ApigwRouteStore.IdKeys | store/rdbms/apigw_route.gen.go:519-529 | one cursor key per sort key on `id`, each with the route's id; none exactly when no key is on `id` |
| ApigwRouteStore.CursorValues | store/rdbms/apigw_route.gen.go:509-538 | every key of the cursor is on `id` with the route's id, the last being the ascending fallback key that is always added; `LThen` is the sort's `Reversed()` and `ROrder` is false |
| ApigwRouteStore.CollectCursorValues | store/rdbms/apigw_route.gen.go:509-538 | the loop over the sort keys builds exactly `CursorValues` |
| ApigwRouteStore.IdKeysSnoc | store/rdbms/apigw_route.gen.go:520-528 | a sort key added at the end adds a cursor key at the end exactly when it is on `id` |
| ApigwRouteStore.HasColumnSnoc | store/rdbms/apigw_route.gen.go:57 | the extended keys contain a column iff the old keys or the new key do |
| ApigwRouteStore.Reverse | store/rdbms/apigw_route.gen.go:206-210 | the reversal has the same length and puts element `i` at position `n-1-i` |
| ApigwRouteStore.FinishPage | store/rdbms/apigw_route.gen.go:200-227 | an error or an empty page gives no routes and no cursors; otherwise routes are reversed for a previous-page cursor, the prev/next flags are swapped, and the cursors start from the first and last route |
| ApigwRouteStore.ReverseInPlace | store/rdbms/apigw_route.gen.go:208-210 | the two-index swap loop leaves the array holding the reverse of its old contents |
| ApigwRouteStore.ReversePermutes | store/rdbms/apigw_route.gen.go:206-210 | reversing keeps every element as often as before |
| ApigwRouteStore.FetchTry | store/rdbms/apigw_route.gen.go:143-197 | one try of the loop ends as the specification's step does: failed with the query's error, stopped with the truncated page and `hasNext`, or refilling with the new cursor and limit |
| ApigwRouteStore.RefetchDone | store/rdbms/apigw_route.gen.go:142-198 | a try that ends the loop gives the loop's outcome |
| ApigwRouteStore.RefetchAgain | store/rdbms/apigw_route.gen.go:142-198 | a try that goes on leaves the outcome to the remaining tries |
| ApigwRouteStore.TryQuery | store/rdbms/apigw_route.gen.go:143-153 | the cursor condition, and a wrapping `limit+1` when a limit is set; `QueryLimits` states both |
| ApigwRouteStore.RefillCursor | store/rdbms/apigw_route.gen.go:185-188 | the cursor from the last route collected, with `LThen` from the sort; `LastIsRefill` and `AgainWhenShort` state its use |
| ApigwRouteStore.TryStep | store/rdbms/apigw_route.gen.go:143-197 | one try of the loop; `DoneStep`, `AgainStep` and `FetchTry` state its outcomes |
| ApigwRouteStore.Refetch | store/rdbms/apigw_route.gen.go:142-198 | the remaining tries; `RefetchFacts` states that the loop ends well |
| ApigwRouteStore.RunLoop | store/rdbms/apigw_route.gen.go:142-198 | the whole loop; `LoopFacts` states its queries, truncation and `hasNext` |
| ApigwRouteStore.CollectPage | store/rdbms/apigw_route.gen.go:131-198 | the imperative refetch loop gives exactly the specification loop's error, page and `hasNext` |
| ApigwRouteStore.FinishFetch | store/rdbms/apigw_route.gen.go:200-227 | the code after the loop, with the in-place reversal, returns exactly `FinishPage` |
| ApigwRouteStore.FetchFullPage | store/rdbms/apigw_route.gen.go:109-228 | `fetchFullPageOfApigwRoutes` returns exactly the specified page, cursors and error |
| ApigwRouteStore.WithIdKey | store/rdbms/apigw_route.gen.go:56-62 | the result has a key on `id` and keeps the given keys as its prefix; it is unchanged when `id` is present, else an `id` key in the last key's direction is appended |
| ApigwRouteStore.SearchRoutes | store/rdbms/apigw_route.gen.go:28-97 | for every exit (filter error, cursor-sort error, order error, fetch error, success), the routes, filter and error returned; prev/next come only from the fetch, and the page cursor is cleared on success |
| ApigwRouteStore.SearchSortHasId | store/rdbms/apigw_route.gen.go:46-62 | after normalisation the sort keys include `id`, and without a page cursor the caller's keys come first, in order |
| ApigwRouteStore.NormalizedSort | store/rdbms/apigw_route.gen.go:46-62 | the sort keys taken from the cursor, or its error, then completed with `id`; `SearchSortHasId` states the result |
| ApigwRouteStore.OrderSort | store/rdbms/apigw_route.gen.go:64-73 | a copy of the keys, each flipped for a previous-page cursor as `ReverseAll` states |
| ApigwRoutePaging.CollectedSnoc | store/rdbms/apigw_route.gen.go:165 | one more query appends its routes to those collected |
| ApigwRoutePaging.IsRefillSnoc | store/rdbms/apigw_route.gen.go:172-189 | a query that was a refill stays one when later queries are added |
| ApigwRoutePaging.LastIsRefill | store/rdbms/apigw_route.gen.go:172-189 | the query of any try after the first continues from the last route collected with the limit `max(reqItems - collected, MinEnsureFetchLimit)` |
| ApigwRoutePaging.RefillRuleSnoc | store/rdbms/apigw_route.gen.go:172-189 | the refill rule survives the next query |
| ApigwRoutePaging.TryStepsFacts | store/rdbms/apigw_route.gen.go:142-198 | after a try, the refill rule still holds, the collected routes grow by the try's, and the first query is unchanged |
| ApigwRoutePaging.DoneStep | store/rdbms/apigw_route.gen.go:159-197 | a try that stops the loop leaves a well-formed outcome: `hasNext` exactly when more than `reqItems` came back, and the page truncated to `reqItems` then |
| ApigwRoutePaging.AgainStep | store/rdbms/apigw_route.gen.go:172-189 | a try that refills leaves a valid state for the next try |
| ApigwRoutePaging.RefetchFacts | store/rdbms/apigw_route.gen.go:142-198 | from any valid state the remaining tries end well, by induction on the tries left |
| ApigwRoutePaging.LoopFacts | store/rdbms/apigw_route.gen.go:142-198 | between 1 and `MaxRefetches` queries; the first uses the caller's cursor and limit and every later one is a refill; the page is everything fetched, or its first `reqItems` routes exactly when more came back |
| ApigwRoutePaging.QueryLimits | store/rdbms/apigw_route.gen.go:143-153 | the first query asks for `reqItems + 1` rows (wrapping), or sets no limit when none was requested; every refill sets a limit and a cursor condition |
| ApigwRoutePaging.UnlimitedFetchesOnce | store/rdbms/apigw_route.gen.go:167-170 | without a requested limit exactly one query runs, with no `LIMIT`, and the page is its routes with no next page |
| ApigwRoutePaging.PageBounded | store/rdbms/apigw_route.gen.go:192-197 | with a positive limit the page never holds more routes than the limit |
| ApigwRoutePaging.ErrorsAndEmptyPages | store/rdbms/apigw_route.gen.go:155-204 | a query error gives no routes, no cursors and the error; an empty result gives no routes and no cursors, even with an incoming cursor |
| ApigwRoutePaging.ReversedPage | store/rdbms/apigw_route.gen.go:206-214 | for a previous-page cursor the page is the exact reverse of the fetched order and holds the same routes; it always has a next cursor, and a previous cursor exactly when more rows came back than requested |
| ApigwRoutePaging.PageCursors | store/rdbms/apigw_route.gen.go:216-225 | the prev cursor starts from the first route with `ROrder` set and `LThen` negated; the next cursor starts from the last route with `LThen` as `Reversed()`; both use the unflipped sort keys |
| ApigwRoutePaging.ForwardPageCursors | store/rdbms/apigw_route.gen.go:216-225 | without an incoming cursor there is no prev cursor, and there is a next cursor exactly when more routes came back than requested |
| ApigwRoutePaging.After | store/rdbms/apigw_route.gen.go:143-144 | a sorted table's rows past a key: none when every id is at most the key |
| ApigwRoutePaging.AsRows | store/rdbms/apigw_route.gen.go:254-264 | a table's routes as scanned rows, one each, in order |
| ApigwRoutePaging.ScanTable | store/rdbms/apigw_route.gen.go:235-272 | on the concrete table, a query yields the routes past the cursor's id, cut to the limit |
| ApigwRoutePaging.AgainWhenShort | store/rdbms/apigw_route.gen.go:172-189 | a non-empty try that leaves the page short refills from its last route with the raised limit |
| ApigwRoutePaging.ShortFirstTry | store/rdbms/apigw_route.gen.go:172-189 | a short first fetch asks for a refill continuing from its last route |
| ApigwRoutePaging.EmptyRefill | store/rdbms/apigw_route.gen.go:159-162 | a refill that returns nothing ends the loop with the page as it was |
| ApigwRoutePaging.PastTheEnd | store/rdbms/apigw_route.gen.go:185 | on a sorted table, a refill from the last route finds nothing |
| ApigwRoutePaging.ShortSortedTable | store/rdbms/apigw_route.gen.go:142-198 | a sorted table with fewer routes than the limit comes back whole, with no next page |
| ApigwRoutePaging.FirstTryEnds | store/rdbms/apigw_route.gen.go:159-197 | an empty first fetch, or one of at least the limit, ends the loop with the first `n` routes and `hasNext` exactly when there were more |
| ApigwRoutePaging.FirstPageOfSortedTable | store/rdbms/apigw_route.gen.go:109-228 | the first page of a sorted table is its first `n` routes, with no prev cursor and a next cursor exactly when the table has more than `n` routes |
| GenericSelectors.ExplicitPagingKept | store/rdbms/generic_selectors.go:30-47 | when the wrapping sum of offset and limit is not zero, both are returned unchanged |
| GenericSelectors.CalculatePaging | store/rdbms/generic_selectors.go:30-48 | the offset and limit; `ExplicitPagingKept`, `PageBasedPaging` and `ZeroSumCases` state both cases |
| GenericSelectors.ZeroSumCases | store/rdbms/generic_selectors.go:33 | the sum wraps to zero exactly when both are zero or they add up to 2^64 |
| GenericSelectors.PageBasedPaging | store/rdbms/generic_selectors.go:33-45 | with neither value given, the limit is the page size and the offset is `(max(page,1)-1) * perPage` |
| GenericSelectors.FirstPageOffsetZero | store/rdbms/generic_selectors.go:40-44 | pages 0 and 1 both start at offset 0 |
| GenericSelectors.WrappedSumDropsOffset | store/rdbms/generic_selectors.go:33 | offset 1 with the largest limit wraps to zero, so the page-based values replace both |
| GenericSelectors.ApplyPaging | store/rdbms/generic_selectors.go:51-63 | the query gets an offset only when the computed one is positive and a limit only when the computed one is positive; the rest is kept |
| GenericSelectors.ApplyPagingIdempotent | store/rdbms/generic_selectors.go:51-63 | applying the same paging twice equals applying it once |
| GenericSelectors.FetchPaged | store/rdbms/generic_selectors.go:68-89 | the step-by-step update of the filter sets the same offset and limit that `ApplyPaging` sets |
| Corredor.Trigger.constructor | pkg/corredor/util.go:47 | a trigger holds the given event types, resource types and constraints |
| Corredor.Script.constructor | pkg/corredor/util.go:44 | a script holds the given triggers |
| Corredor.WithoutAppend | pkg/corredor/util.go:24-31 | removing an event type distributes over concatenation, so the kept ones stay in order |
| Corredor.WithoutCounts | pkg/corredor/util.go:24-31 | removal deletes every on-manual entry and keeps each other value as often as before |
| Corredor.WithoutNoOccurrence | pkg/corredor/util.go:24-31 | removing a value that is absent changes nothing |
| Corredor.Without | pkg/corredor/util.go:24-31 | the event types with every on-manual entry removed; `WithoutCounts` and `WithoutAppend` state its meaning |
| Corredor.PopOnManualEventType | pkg/corredor/util.go:23-33 | the backward delete loop leaves the event types without any `onManual`, the rest in order; it returns true iff there was one; the other fields are unchanged |
| Corredor.EventTypesOf | pkg/corredor/util.go:44-47 | the triggers' event types, position by position |
| Corredor.ResourceTypesOf | pkg/corredor/util.go:50 | the triggers' resource types, position by position |
| Corredor.ConstraintsOf | pkg/corredor/util.go:72 | the triggers' constraints, position by position |
| Corredor.ManualResourcesMembers | pkg/corredor/util.go:49-52 | a resource type is collected iff some trigger that had an on-manual event type lists it |
| Corredor.MarkAll | pkg/corredor/util.go:50-52 | the map gains every resource type of the list, mapped to true, and keeps its other entries |
| Corredor.PopStep | pkg/corredor/util.go:47-49 | popping the `i`-th trigger updates it in place, also when the same trigger appears earlier in the list, and finds something only on its first visit |
| Corredor.CollectStep | pkg/corredor/util.go:49-53 | the trigger's resource types are added exactly in the cases the collected set requires |
| Corredor.PluckManualTriggers | pkg/corredor/util.go:39-57 | every trigger of the script loses its on-manual event types in place, other fields unchanged; the map's keys are exactly the resource types of triggers that had one, all mapped to true |
| Corredor.PluckLoop | pkg/corredor/util.go:44-54 | after the loop every trigger has been popped and the map holds the collected resource types |
| Corredor.PluckStart | pkg/corredor/util.go:40-44 | before the loop no trigger is handled and the recorded types are the triggers' own |
| Corredor.PluckEnd | pkg/corredor/util.go:54-56 | after the loop the triggers and the map are as promised |
| Corredor.SliceSnoc | pkg/corredor/util.go:44 | a prefix one longer adds the next element |
| Corredor.ManualResourcesSnoc | pkg/corredor/util.go:49-53 | one more trigger adds its resource types exactly when it had an on-manual event type |
| Corredor.ManualResourcesHas | pkg/corredor/util.go:49-53 | the resource types of any manual trigger are among those collected |
| Corredor.ManualResources | pkg/corredor/util.go:49-53 | the resource types of the triggers that had on-manual; `ManualResourcesMembers` states its members |
| Corredor.MakeTriggerOpts | pkg/corredor/util.go:60-81 | the missing-events error comes first, then the missing-resources error; on success `On`, `For`, then one constraint option per constraint in order; the first failing constraint aborts with no options and the wrapped error |
| Corredor.Args.constructor | pkg/corredor/util.go:85 | the argument map holds the given entries |
| Corredor.EncodeArguments | pkg/corredor/util.go:85-94 | on a marshal error the map is unchanged and the error returned; otherwise only `key` is set, to the JSON text |
| Corredor.EncodeOnlyTouchesKey | pkg/corredor/util.go:92 | every other key keeps its presence and value |
| Corredor.ScriptFilter | pkg/corredor/util.go:97-135 | the filter function accepts a script iff each non-empty filter list shares an element with some trigger, and it never returns an error |
| Corredor.EmptyFilterAcceptsAll | pkg/corredor/util.go:99-133 | a filter with no resource and no event types accepts every script |
| Corredor.Accepts | pkg/corredor/util.go:97-135 | what the filter accepts; `ScriptFilter` computes it and `EmptyFilterAcceptsAll` and `MatchesMayComeFromDifferentTriggers` state it |
| Corredor.MatchesMayComeFromDifferentTriggers | pkg/corredor/util.go:100-131 | a script passes when one trigger matches the resource type and another the event type |
| FileStore.Fs.constructor | internal/store/store.go:14 | a new filesystem is empty and has seen no calls |
| FileStore.Fs.MkdirAll | internal/store/store.go:90 | creating the folder fails, with its error message, iff a file has its name; it records the call |
| FileStore.Fs.WriteReader | internal/store/store.go:94 | writing fails, with its error message, iff a directory has the name; otherwise the file holds the contents |
| FileStore.Fs.Remove | internal/store/store.go:103 | removing succeeds iff the file exists, and the file is then gone |
| FileStore.Fs.Open | internal/store/store.go:112 | opening succeeds iff the file exists, and yields its contents |
| FileStore.Check | internal/store/store.go:62-72 | a name is accepted iff it is non-empty and starts with `namespace + "/"`; an empty name is an error; a non-empty name with fewer UTF-8 bytes than `namespace + "/"` makes the unguarded slice panic |
| FileStore.CheckCountsBytes | internal/store/store.go:62-72 | the bounds are in bytes: under namespace `a` the two-byte `\u00e9` is refused as outside the namespace, and under namespace `\u00e9` the name `ab` makes the slice panic |
| Utf8.EncodeChar | internal/store/store.go:63-67 | one to four bytes per character, their number read off the first byte, and a single byte exactly below U+0080 |
| Utf8.DecodeEncodeChar | internal/store/store.go:63-67 | the encoded bytes carry the code point back |
| Utf8.EncodeCharInjective | internal/store/store.go:63-67 | different characters have different encodings |
| Utf8.Encode | internal/store/store.go:63-67 | a string has at least as many bytes as characters, and no bytes only when it is empty |
| Utf8.EncodeAppend | internal/store/store.go:67 | the bytes of `namespace + "/"` are those of the namespace, then those of the slash |
| Utf8.EncodePrefix | internal/store/store.go:67 | the bytes of one string begin those of another exactly when its characters begin the other |
| Utf8.AsciiLength | internal/store/store.go:63-67 | a string below U+0080 has one byte per character |
| FileStore.Store.NewWithAfero | internal/store/store.go:48-56 | the store keeps the filesystem and namespace and installs the default name functions |
| FileStore.Store.Namespace | internal/store/store.go:58-60 | returns the namespace it was built with |
| FileStore.Store.Original | internal/store/store.go:74-76 | under the default scheme, the namespace joined with `<id>.<ext>` |
| FileStore.Store.Preview | internal/store/store.go:78-80 | under the default scheme, the namespace joined with `<id>_preview.<ext>` |
| FileStore.DefOriginalFn | internal/store/store.go:39-41 | `<id>.<ext>`; `DefaultNamesAreNormal` and `DecimalHasNoSlash` state that it is a single path element |
| FileStore.DefPreviewFn | internal/store/store.go:35-37 | `<id>_preview.<ext>`; `DefaultNamesAreNormal` states that it is a single path element |
| FileStore.Store.Save | internal/store/store.go:82-95 | the outcome is `SaveOutcome` of the filesystem before the call; a name the check refuses gives the check's outcome and no filesystem call; otherwise the folder is created, then the file written, with each failure reported |
| FileStore.SaveOutcome | internal/store/store.go:82-95 | success exactly when the check accepts the name, no file has the folder's name and no directory the file's; a refused name gives the check's outcome |
| FileStore.Store.Remove | internal/store/store.go:97-104 | a refused name gives the check's outcome and no filesystem call; otherwise the file is removed |
| FileStore.Store.Open | internal/store/store.go:106-113 | a refused name gives no file and no filesystem call; otherwise the file's contents exactly when it exists |
| FileStore.DecimalHasNoSlash | internal/store/store.go:36-40 | an id in decimal has no slash and does not start with a dot |
| FileStore.DefaultNamesAreNormal | internal/store/store.go:35-41 | the default names are single path elements when the extension has no slash |
| FileStore.DefaultNamesPassCheck | internal/store/store.go:62-80 | for a clean relative namespace and a slash-free extension, the original and preview names are `<namespace>/<name>` and the check accepts both |
| FileStore.EmptyNamespaceRejectsOriginal | internal/store/store.go:67-76 | with an empty namespace the original's name lacks the leading `/` the check asks for, and is refused |
| FileStore.SaveFolderIsNamespace | internal/store/store.go:88 | the folder `Save` creates for a default name is the namespace |
| GoPath.JoinCleanRelative | internal/store/store.go:75-79 | joining a clean relative directory with a plain name puts one slash between them |
| GoPath.DirOfJoined | internal/store/store.go:88 | the directory of `dir/name` is `dir` |
| GoPath.Ext | crm/service/attachment.go:137 | `path.Ext` is empty or a dot-led suffix of the path with no further dot or slash |
| GoPath.Clean | internal/store/store.go:75-79 | `path.Clean` as `path.Join` applies it; `JoinCleanRelative` states what it gives for the store's names |
| GoPath.Join | internal/store/store.go:75-79 | `path.Join`; `JoinCleanRelative` states that a clean directory and a plain name are joined by one slash |
| GoPath.Dir | internal/store/store.go:88 | `path.Dir`; `DirOfJoined` and `SaveFolderIsNamespace` state that the folder of a default name is the namespace |
| CrmUtil.ParseUint | crm/util.go:21 | `strconv.ParseUint`: once the leading digits exceed the `uint64` range the result is the largest `uint64` with a range error, whatever follows; otherwise a whole digit string gives its value, and anything else 0 with a syntax error |
| CrmUtil.ScanDigits | crm/util.go:21 | the digit loop of `strconv.ParseUint`, whose meaning `ScanDigitsMeaning` states |
| CrmUtil.ScanDigitsMeaning | crm/util.go:21 | by induction over the loop: a range error once the leading digits exceed the `uint64` range, whatever follows; otherwise the value of a whole digit string, or a syntax error |
| CrmUtil.DigitRun | crm/util.go:21 | the number of leading digits: all of them digits, followed by a non-digit or the end |
| CrmUtil.ParseIntValue | crm/util.go:12 | `strconv.ParseInt`: sign, then `ParseUint`, a syntax error giving 0 and other values clamped to `int64`; the round-trip, clamping and zero lemmas state its results |
| CrmUtil.ParseInt64 | crm/util.go:8-14 | the empty string gives 0 |
| CrmUtil.ParseUInt64 | crm/util.go:17-23 | leading digits beyond the `uint64` range give the largest `uint64`; otherwise a digit string gives its value and anything else, the empty string included, gives 0 |
| CrmUtil.ParseUInt64RoundTrip | crm/util.go:17-23 | every `uint64` printed in base 10 parses back to itself |
| CrmUtil.ParseInt64RoundTrip | crm/util.go:8-14 | every `int64` printed in base 10 parses back to itself |
| CrmUtil.NegativeRoundTrip | crm/util.go:12-13 | a negative `int64` with its minus sign parses back to itself |
| CrmUtil.ParseErrorsGiveZero | crm/util.go:12-22 | a string that is not signed and whose leading digits stay within the `uint64` range but are followed by something else parses to 0 under both functions |
| CrmUtil.ParseInt64Clamps | crm/util.go:12-13 | a digit string beyond the `int64` range, or one whose leading digits exceed the `uint64` range whatever follows, is clamped to the nearest `int64` bound, with or without a minus sign |
| CrmUtil.OverflowBeforeSyntaxError | crm/util.go:8-23 | digits beyond the `uint64` range followed by anything give the largest `uint64`, and the `int64` bounds with or without a minus sign |
| CrmUtil.SyntaxErrorBeatsInt64Range | crm/util.go:12-13 | leading digits beyond `int64` but within `uint64`, followed by something else, give 0 with or without a minus sign |
| CrmUtil.Is | crm/util.go:26-33 | true iff `s` equals one of `matches`; false for no matches |
| Ints.DecimalRoundTrip | internal/store/store.go:36-40 | a number printed by `%d` reads back as that number |
| SqliteFunctions.Render | store/sqlite3/sql_functions.go:16-54 | a wrong argument count gives no output and the error naming the count expected and received; `now` gives `DATE('now')` with no arguments; the others wrap `aa[0].S` in their template and pass `aa[0].Args` through |
| SqliteFunctions.FormatAST | store/sqlite3/sql_functions.go:58-66 | an unknown reference is not handled and gives no output and no error; a known one is handled with its handler's result |
| SqliteFunctions.ArityErrorReportsCount | store/sqlite3/sql_functions.go:18-47 | the arity error ends with the number of arguments received, which reads back as that number |
| SqliteFunctions.RenderWrapsArgument | store/sqlite3/sql_functions.go:31-51 | a one-argument rendering is the template's prefix, the argument's SQL, then the template's closing text |
| SqliteFunctions.ClassifiedNames | store/sqlite3/sql_functions.go:69-85 | each `switch` case name is classified as its case |
| SqliteFunctions.FunctionHandler | store/sqlite3/sql_functions.go:68-89 | unknown names are returned unchanged; `DATE_ADD`, `DATE_SUB` and `STD` fail with the quoted name; `DATE_FORMAT` succeeds iff it has two arguments; the others become formatted nodes over the same arguments |
| SqliteFunctions.HandlerIgnoresCase | store/sqlite3/sql_functions.go:69 | two spellings differing only in case are handled alike |
| SqliteFunctions.UpperCaseOfRegistryNames | store/sqlite3/sql_functions.go:13-83 | the registry's lower-case names, upper-cased, are handled by the matching `switch` case |
| SqliteFunctions.UpperOf | store/sqlite3/sql_functions.go:69 | a string whose letters upper-case one by one to `t` upper-cases to `t` |
| SqliteFunctions.LongSSpellingsUnsupported | store/sqlite3/sql_functions.go:69-85 | the Unicode-aware upper-casing makes `\u017ftd` and `date_\u017fub` the unsupported `STD` and `DATE_SUB` |
| SqliteFunctions.Classify | store/sqlite3/sql_functions.go:69-85 | the `switch` on the upper-cased name; `ClassifiedNames` states each case |
| SqliteFunctions.Quote | store/sqlite3/sql_functions.go:85 | `%q` of the name, as quoted in the unsupported error |
| Ints.Wrap | store/rdbms/generic_selectors.go:33-44 | Go's unsigned 64-bit arithmetic: the value itself when in range, otherwise congruent to it modulo 2^64 |
| Ints.DecimalString | internal/store/store.go:36-40 | `%d` of a number is a non-empty digit string with no leading zero |
| Ints.Max | store/rdbms/apigw_route.gen.go:172-182 | the larger of the two, at least each of them |
| Strs.TrimLeft | crm/service/attachment.go:137 | dropping leading dots keeps a suffix, of which they were all dots, and leaves none at its start |
| Strs.TrimRight | crm/service/attachment.go:137 | dropping trailing dots keeps a prefix, after which they were all dots, and leaves none at its end |
| Strs.Trim | crm/service/attachment.go:137 | the trimmed string neither starts nor ends with a dot |
| Strs.Index | system/commands/settings.go:186 | -1 iff the substring is absent, otherwise the first character position at which it occurs; only its comparison with 0 is used, where it agrees with Go's byte position |
| Strs.IndexZeroIffPrefix | system/commands/settings.go:186 | index 0 means exactly that the string starts with the substring |
| Strs.ToUpper | store/sqlite3/sql_functions.go:69 | each character is upper-cased in place: ASCII letters, dotless i and long s map to ASCII capitals, as `unicode.ToUpper` maps them |
| SettingsAutoConfig.SettingsStore.constructor | system/commands/settings.go:169-176 | the store holds the given settings and failure profile |
| SettingsAutoConfig.SettingsStore.Get | system/commands/settings.go:176 | the lookup fails for the failing names and otherwise reports the stored value or none |
| SettingsAutoConfig.SettingsStore.Set | system/commands/settings.go:169 | the write stores the value, or fails for the failing names and stores nothing |
| SettingsAutoConfig.Console.constructor | system/commands/settings.go:164-171 | the output starts empty |
| SettingsAutoConfig.Console.Printf | system/commands/settings.go:164-171 | a print appends its message to the output |
| SettingsAutoConfig.SetOutcome | system/commands/settings.go:144-173 | a nil value writes nothing; at most the one name is written; otherwise only one error message is printed and nothing is written |
| SettingsAutoConfig.SetIfMissingOutcome | system/commands/settings.go:175-179 | an existing setting, or a lookup error, leaves everything unchanged |
| SettingsAutoConfig.SetValue | system/commands/settings.go:144-173 | the `set` closure, step by step, has exactly the effect `SetOutcome` describes |
| SettingsAutoConfig.SetIfMissing | system/commands/settings.go:175-179 | the `setIfMissing` closure has exactly the effect `SetIfMissingOutcome` describes |
| SettingsAutoConfig.RedirectUrl | system/commands/settings.go:182-201 | the redirect URL always starts with `http` and ends with the callback path |
| SettingsAutoConfig.RedirectUrlFromApiUrl | system/commands/settings.go:185-191 | a given API URL is used, with `https://` prepended exactly when it does not start with `http` |
| SettingsAutoConfig.RedirectUrlFromEnvironment | system/commands/settings.go:193-200 | without an API URL: `LETSENCRYPT_HOST` over https, else `VIRTUAL_HOST` over http, else the local host; https iff `LETSENCRYPT_HOST` is set |
| SettingsAutoConfig.GlobalString | system/commands/settings.go:210 | the stored string, or `""`; `SecureFollowsStoredRedirect` states the secure flag it decides |
| SettingsAutoConfig.RunStepsSnoc | system/commands/settings.go:175-179 | one more call applies `setIfMissing` to the result so far |
| SettingsAutoConfig.RunStepsAppend | system/commands/settings.go:182-261 | running two groups of calls is running the first, then the second |
| SettingsAutoConfig.SetIfMissingStep | system/commands/settings.go:175-179 | each call extends the run by its own step |
| SettingsAutoConfig.ConfigureSession | system/commands/settings.go:182-212 | the redirect, secret and secure-flag calls have exactly the effect of their steps |
| SettingsAutoConfig.ConfigureFrontendUrls | system/commands/settings.go:214-230 | the four frontend URL calls, made only with a frontend URL, have exactly the effect of their steps |
| SettingsAutoConfig.ConfigureDefaults | system/commands/settings.go:232-261 | the mail and flag calls have exactly the effect of their steps |
| SettingsAutoConfig.AutoConfigure | system/commands/settings.go:143-262 | `SettingsAutoConfigure` has exactly the effect of its calls run in order |
| SettingsAutoConfig.RunStepsKeepsExisting | system/commands/settings.go:175-179 | no stored setting is ever overwritten; only the names called can appear; the output only gains error messages |
| SettingsAutoConfig.NamesAppend | system/commands/settings.go:182-261 | the names of two groups are the names of each |
| SettingsAutoConfig.FrontendNames | system/commands/settings.go:214-230 | the frontend calls name the four `auth.frontend.url.*` keys, or none without a frontend URL |
| SettingsAutoConfig.DefaultNames | system/commands/settings.go:233-261 | the names the last seven calls write |
| SettingsAutoConfig.UntouchedName | system/commands/settings.go:175-179 | a name no call names keeps its presence and value |
| SettingsAutoConfig.SecureStepFollowsRedirect | system/commands/settings.go:208-212 | after later calls that leave both names alone, the secure flag still records whether the redirect URL uses https |
| SettingsAutoConfig.AutoConfigureStepsShape | system/commands/settings.go:182-261 | the command's calls are the redirect's, the secret's, the secure flag's, then the rest |
| SettingsAutoConfig.LaterStepsNames | system/commands/settings.go:214-261 | the calls after the secure flag's name neither it nor the redirect URL |
| SettingsAutoConfig.LaterKeysApart | system/commands/settings.go:182-261 | the redirect and secure keys are none of the later keys |
| SettingsAutoConfig.SecureFollowsStoredRedirect | system/commands/settings.go:208-212 | once written, `session-store-secure` is whether the redirect URL stored at the end contains `https://` |
| SettingsAutoConfig.AllYieldAppend | system/commands/settings.go:214-261 | constant-valued groups stay constant-valued when joined |
| SettingsAutoConfig.ConstantRun | system/commands/settings.go:175-179 | on a clean backend, constant-valued calls add exactly the missing names with their values |
| SettingsAutoConfig.HeadYieldsDefaults | system/commands/settings.go:182-206 | the redirect and secret calls write their default values |
| SettingsAutoConfig.FrontendYieldsDefaults | system/commands/settings.go:214-230 | each frontend URL call writes the frontend URL with its fixed suffix |
| SettingsAutoConfig.DefaultStepsYieldDefaults | system/commands/settings.go:233-261 | the mail sender falls back to `change-me@example.tld` and `Corteza Team`, and the five flags take their literal values |
| SettingsAutoConfig.SecureStepOnCleanBackend | system/commands/settings.go:208-212 | on a clean backend the secure flag is added when missing and nothing else changes |
| SettingsAutoConfig.ExtendsTrans | system/commands/settings.go:182-261 | extending twice is extending by both sets of names |
| SettingsAutoConfig.ConstantRunExtends | system/commands/settings.go:175-179 | on a clean backend, constant-valued calls extend the store by their names |
| SettingsAutoConfig.CleanRunAroundSecure | system/commands/settings.go:182-261 | on a clean backend, the run around the secure flag prints nothing and adds exactly the missing defaults and the flag |
| SettingsAutoConfig.AllYieldNames | system/commands/settings.go:182-261 | constant-valued calls name only keys with a value |
| SettingsAutoConfig.ExtendsCoversDefaults | system/commands/settings.go:175-179 | an extension covering every default keeps stored values and adds the defaults elsewhere |
| SettingsAutoConfig.MissingSettingsTakeDefaults | system/commands/settings.go:143-262 | on a clean backend the command prints nothing, each missing setting takes its value and each existing one is kept, and the secure flag is the only other name added |
| SettingsAutoConfig.DefaultValuesKeys | system/commands/settings.go:182-261 | the values that do not depend on the store are given for every call except the secure flag's |
| SettingsAutoConfig.DefaultValuesKeySet | system/commands/settings.go:182-261 | those values' keys are the redirect, secret, frontend URLs (only with a frontend URL), mail and flag keys |
| SettingsAutoConfig.SecureHasNoDefault | system/commands/settings.go:208-212 | the secure flag is the one setting whose value depends on the store |
| SettingsAutoConfig.SecureKeyDiffers | system/commands/settings.go:203-208 | `session-store-secure` is none of the other keys, `session-store-secret` included |
| SettingsAutoConfig.FrontendUrlsNeedFrontendUrl | system/commands/settings.go:214-230 | without a frontend URL the four frontend URL settings are left exactly as they were, present or absent |
| SettingsAutoConfig.FrontendKeyApart | system/commands/settings.go:215-229 | a frontend URL key is none of the session, mail or flag keys |
| CrmAttachment.Attachment.constructor | crm/service/attachment.go:106-111 | a new attachment has its id and no URLs or metadata |
| CrmAttachment.Extension | crm/service/attachment.go:137 | the trimmed extension; `ExtensionShape` states its shape |
| CrmAttachment.ExtensionShape | crm/service/attachment.go:136-137 | the stored extension has no dot and no slash, and, when non-empty, ends the dot-trimmed name after a dot |
| CrmAttachment.TrimLeftOneDot | crm/service/attachment.go:137 | trimming a dot-led extension drops just its dot |
| CrmAttachment.TrimRightNoDot | crm/service/attachment.go:137 | trimming dots from a dot-free string changes nothing |
| CrmAttachment.OriginalNamePassesCheck | crm/service/attachment.go:137-151 | the original's default name under a clean relative namespace passes the store's check, whatever the upload is called |
| CrmAttachment.PreviewResize | crm/service/attachment.go:258-264 | a landscape wider than 320 is fitted to the width; otherwise an image taller than 180 is fitted to the height; otherwise it keeps its size |
| CrmAttachment.UnresizedFits | crm/service/attachment.go:258-264 | an image left at its size fits within 320 by 180 |
| CrmAttachment.WidePortraitFitsHeight | crm/service/attachment.go:258-264 | a portrait wider than 320 is fitted to the height, not the width |
| CrmAttachment.IsAnimated | crm/service/attachment.go:230 | a GIF is animated when it loops or has more than one frame delay |
| CrmAttachment.Animated | crm/service/attachment.go:227-230 | only a GIF is recorded as animated; `ProcessImage` states where it goes |
| CrmAttachment.AttachmentService.constructor | crm/service/attachment.go:54-59 | the service keeps the store handler, possibly nil |
| CrmAttachment.AttachmentService.OpenOriginal | crm/service/attachment.go:84-90 | an empty URL gives no file and no error without touching the store; otherwise the store opens the URL |
| CrmAttachment.AttachmentService.OpenPreview | crm/service/attachment.go:92-98 | an empty preview URL gives no file and no error without touching the store; otherwise the store opens it |
| CrmAttachment.AttachmentService.Open | crm/service/attachment.go:85-97 | the shared body of both openers |
| CrmAttachment.AttachmentService.ProcessImage | crm/service/attachment.go:187-285 | non-images are left alone; a format or decode error is returned wrapped, with nothing changed; a decoded image records its size and, for a GIF, animation; the preview's metadata and URL follow the resize rule and format, and it is saved under the preview name |
| CrmAttachment.AttachmentService.Create | crm/service/attachment.go:131-168 | a nil store fails at once, changing nothing; otherwise the extension and size are recorded; a mimetype error is returned with an empty mimetype and nothing stored; the original is saved under the store's name, and the result is the save's error or else the persist's outcome, never the preview's |
| CrmAttachment.AttachmentService.SaveAndProcess | crm/service/attachment.go:150-167 | the URL and metadata are recorded; a refused name stops before the preview; the result is `CreateOutcome` of the save's outcome on the filesystem as it was and the persist's |
| CrmAttachment.AttachmentService.SaveOriginal | crm/service/attachment.go:150-154 | the original's metadata and URL are recorded and the file saved; the result is `SaveOutcome` of the filesystem as it was, with nothing saved when the check refuses the name |
| CrmAttachment.AttachmentService.ProcessImageLogged | crm/service/attachment.go:157 | image processing, whose outcome is only logged, changes neither the URL nor the original's metadata other than its image size |
| CrmAttachment.CreateOutcome | crm/service/attachment.go:151-167 | the save's error when it failed; otherwise success exactly when the persist succeeds, and its error when it does not |

## Left out

- SQL generation and database access: squirrel builders, `builders.CursorCondition`, `s.Query` and row scanning. The database is an oracle from a query to its rows, and the cursor condition is a cursor carried in the query. The route store's CRUD and lookup methods, `checkApigwRouteConstraints`, and `Count`/`FetchAll` in `generic_selectors.go` are not modelled.
- The `filter` package is not part of this model. `SortExprSet.Reversed`, `LastDescending`, `PagingCursor.Sort`, `setOrderBy` and the filter converter are abstract functions in `Backend`. A cursor is the log of its `Set` calls.
- ApigwRouteStore.HasColumn: `SortExprSet.Get` is taken as an exact match on the column name, because its code is not shown.
- `MaxRefetches` and `MinEnsureFetchLimit` are declared outside the modelled file. They are parameters of the model, with `MaxRefetches` positive.
- ApigwRouteStore.SearchRoutes: Go leaves the evaluation order of `return set, f, func() error {...}()` unspecified. The model returns the filter and routes as they are after the closure runs.
- ApigwRouteStore.QueryRoutes: the `check` argument is ignored, because the code never calls it.
- Context cancellation, and concurrent writes between refetch queries.
- The value of `onManualEventType` is declared elsewhere in the package. The model uses `"onManual"`.
- Corredor.Script.constructor: `Script.triggers` is a constant. The slice is never replaced; only the triggers it points to change.
- Corredor.MakeTriggerOpts: `eventbus.ConstraintMaker` is a parameter, and the options are opaque constructors.
- Corredor.EncodeArguments: `json.Marshal` is a partial function passed in, and its output is not modelled.
- `slice.IntersectStrings` is modelled as "the two lists share an element".
- `GenericListHandler` calls the script service, which is not part of this model.
- Go strings holding bytes that are not valid UTF-8 cannot be written down: a Dafny string is a sequence of Unicode scalar values. Byte lengths are computed by `Utf8.Encode` where Go's `len` or slicing matters.
- Strs.ToUpper: only the characters whose upper case is an ASCII letter are mapped (the ASCII lower-case letters, dotless i U+0131 and long s U+017F). Other non-ASCII letters keep their case, because Unicode's case tables are not modelled. No other character upper-cases to an ASCII letter, so the match of SqliteFunctions.FunctionHandler against its ASCII case names is decided as in Go.
- Strs.Index: positions count characters, not bytes. The model only compares the result with 0, where both agree.
- The filesystem is an in-memory map with a log of calls. File modes, permissions and afero's other error cases are not modelled.
- FileStore.Store.Save: the contents are a byte sequence, not a reader.
- Go's shared `*settings.Value` pass-through in `set` is not modelled. The command itself only passes plain strings, booleans and value functions.
- SettingsAutoConfig.AutoConfigure:
  - `os.LookupEnv` is the map `env`;
  - `string(rand.Bytes(64))` is the input `secret`;
  - `json.Marshal` is the parameter `marshal`;
  - `GetGlobalString` is taken to return the stored string, or `""` when the setting is missing or not a string.
- The Cobra command wiring in `Settings` (`system/commands/settings.go`, lines 18-141) is not modelled.
- CrmAttachment.AttachmentService.ProcessImage: these enter as the results in `ImageCodec`:
  - `imaging.FormatFromExtension`, `exiffix.Decode`, `gif.DecodeAll`, `imaging.Decode`, `imaging.Resize` and `imaging.Encode`;
  - the JPEG EXIF decode and its silent fallback to a plain decode are one decode result;
  - the resized side is the input `scaled`;
  - a failing `Seek` is not modelled.
- CrmAttachment.AttachmentService.Create:
  - the mimetype sniffed by `extractMimetype` (seeking and `http.DetectContentType`) is an input;
  - the transactional repository write is the input `persist`;
  - the fields the page and record constructors set (owner, name, kind, a fresh id) are not modelled;
  - the file system's contents after a successful save are not stated in the contract.
- `FindByID`, `Find` and `With` in `crm/service/attachment.go` delegate to the repository, which is not part of this model.
- Logging is not modelled.
- The files that give context only are not modelled, for these reasons:
  - `system/service/auth_notification.go` renders templates and sends mail;
  - `automation/automation/jsenv_handler.go` runs a JavaScript VM;
  - the generated-set tests under `system/types` and `messaging/types` cover code that is not shown;
  - `pkg/envoy` holds an integration test and a map-ordered resource;
  - `compose/types/page.go` is a plain struct.
