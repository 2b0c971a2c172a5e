# Website indexer crawler core in Dafny

This project models the core of an actor that crawls a website into records and keeps a search index of those records up to date:

- **Crawl configuration** (`src/crawler.js`, `setUpCrawler`). The selector list becomes a key→selector map. The seeds are chosen and added to the request queue. Default `<seed.url>[.*]` pseudo-URL patterns are made when none are supplied. The enqueue-links options are built, including the choice of request transform.
- **Page handling** (`src/crawler.js`). The default page function builds one record per page, with the DOM abstracted. The page-function result then goes through the type check, wrapping, filter and stamping before it is pushed to the dataset. A request that failed too many times gets a debug-only record.
- **Request transforms** (`src/crawler.js`). `omitSearchParams` and the keep-fragment transform, on a request object updated in place.
- **Index side** (`src/algolia_index.js`). `browseAll` collects batches and turns an error into an empty result. `update` turns a pages diff into at most three index operations, issued in a fixed order.

Files and modules:

- `js_values.dfy` (`JsValues`): JavaScript values, records as `map<string, Value>`, truthiness, property lookup.
- `urls.dfy` (`Urls`): search-parameter stripping, and the `Request` class the transforms mutate.
- `crawler_config.dfy` (`CrawlerConfig`): the selector map, seeds, pseudo-URL patterns and link options.
- `page_function.dfy` (`PageFunction`): the default page function, as an in-page step and an out-of-page step.
- `page_results.dfy` (`PageResults`): the result check, filter, stamping, and the failed-request record.
- `crawler.dfy` (`Crawler`): `setUpCrawler` and the two handlers. The request queue and the dataset are classes that log what they receive.
- `algolia_index.dfy` (`AlgoliaIndex`): `browseAll`, and `update` as a method on an index that logs the operations issued to it.

Notes on behaviour that the code fixes and a reader might expect otherwise:

- When `keepUrlFragment` is set, its transform is assigned after the search-parameter transform and replaces it. So with both options set, the query is NOT stripped (`CrawlerConfig.LinkOptions`, `CrawlerConfig.KeepFragmentKeepsQuery`).
- A non-empty `listOfUrls` also gets default patterns, one per URL, when no pseudo-URLs are supplied. It does not switch the default patterns off.
- The only result check is `typeof results !== 'object'`. So `null` passes the check and then throws a TypeError when the filter reads its properties. A `null` or `undefined` array element does the same. A primitive array element is silently dropped, because it has no `url`. Nothing is pushed when an error is thrown (`PageResults.ProcessOutput`).
- The guard `selectors ? … : true` is always taken, because `selectors` is at least `{}`. When `requiredAttributes` is empty, every selector key is required.
- A matched selector keyed `url` or `#debug` overrides those entries of the default record (`PageFunction.PageRecordFields`).
- When no element of a selector matched, there is no field. A join of one or more elements' HTML is empty only for a single element with empty HTML, so the `content` fallback is taken only in that case (`PageFunction.FallbackOnlyForSingleEmpty`).
- `Object.values` of a missing `pagesToAdd` or `pagesToUpdate` throws. The operations issued before the throw stay issued. Only `pagesToRemove` is guarded (`AlgoliaIndex.Plan`).
- The drop of a record by the filter is silent. The code keeps no count of dropped records.
- A required attribute is read with `result[key]`, so a name that every object inherits (`toString`, `constructor`, ...) always counts as present. A selector entry keyed `__proto__` goes to the prototype setter and adds no selector (`JsValues.Get`, `CrawlerConfig.SelectorMap`).

## Model

| member | source | states |
|---|---|---|
| `JsValues.Truthy` | src/crawler.js:102-103 | JavaScript truthiness, as used by `!result[key]` and `result.url &&`: `undefined`, `null`, `false`, `0` and `""` are falsy, every object is truthy |
| `JsValues.Get` | src/crawler.js:102-103 | `obj[key]`: an own property is read as is; a name `Object.prototype` provides reads as the inherited member; any other name reads as `undefined` |
| `JsValues.InheritedNameIsTruthy` | src/crawler.js:102 | a required attribute named after an `Object.prototype` member (`toString`, `constructor`, ...) is never missing, so it never causes a drop |
| `Urls.BeforeQuery` | src/crawler.js:36 | `split('?')[0]`: the result is a prefix of the URL, contains no `?`, and is followed in the URL by a `?` unless it is the whole URL |
| `Urls.BeforeQueryUnique` | src/crawler.js:36 | those three properties determine the result: any prefix that has them is the stripped URL |
| `Urls.NoQueryUnchanged` | src/crawler.js:36 | a URL without `?` is returned unchanged |
| `Urls.BeforeQueryIdempotent` | src/crawler.js:35-40 | stripping twice gives the same result as stripping once |
| `Urls.Request.OmitSearch` | src/crawler.js:35-40 | `url` and `uniqueKey` both become the URL before its first `?`; the keep-fragment flag is untouched |
| `Urls.Request.KeepUrlFragment` | src/crawler.js:126-129 | only `keepUrlFragment` is set; URL and unique key are unchanged |
| `Urls.Request.Apply` | src/crawler.js:124-130 | the effect of each transform choice on the request |
| `CrawlerConfig.BuildSelectors` | src/crawler.js:48-51 | a non-array `input.selectors` gives the empty map; a list gives the map produced by assigning its entries in order |
| `CrawlerConfig.SelectorMap` | src/crawler.js:48-51 | the map that assigning `selectors[key] = value` for each entry in order produces; an entry keyed `__proto__` adds no key |
| `CrawlerConfig.SelectorMapKeys` | src/crawler.js:48-51 | the selector map has exactly the keys of the list, except `__proto__` |
| `CrawlerConfig.SelectorMapLastWins` | src/crawler.js:50 | the last entry with a given key decides that key's selector (unless the key is `__proto__`), so a later duplicate overrides an earlier one |
| `CrawlerConfig.ChooseSeeds` | src/crawler.js:54-68 | the seeds are `listOfUrls` when it is present and non-empty, otherwise `startUrls` |
| `CrawlerConfig.DefaultPatterns` | src/crawler.js:57-59 | one pattern per seed, in seed order, whose `purl` is `<seed.url>[.*]` |
| `CrawlerConfig.SeedPattern` | src/crawler.js:58 | the pattern `{ purl }` made for one seed, whose `purl` is `<seed.url>[.*]` |
| `CrawlerConfig.PseudoUrls` | src/crawler.js:54-68 | supplied patterns are left unchanged; when none are supplied, the result is the default patterns of the seeds |
| `CrawlerConfig.LinkOptions` | src/crawler.js:116-130 | no enqueueing when the cascade is disabled; selector `clickableElements` or `'a'`; the given patterns; keep-fragment iff `keepUrlFragment`, search stripping iff `omitSearchParamsFromUrl` without `keepUrlFragment` |
| `CrawlerConfig.KeepFragmentKeepsQuery` | src/crawler.js:124-130 | with both URL options set, a link's URL and unique key keep their query |
| `PageFunction.Substring` | src/crawler.js:30 | `substring(0, n)` is a prefix of its input, of length `min(len, n)` |
| `PageFunction.JoinSpace` | src/crawler.js:22 | `parts.join(' ')`: the parts in order with one space between neighbours |
| `PageFunction.Htmls` | src/crawler.js:22 | the inner HTML of every matched element, in document order |
| `PageFunction.InPageValue` | src/crawler.js:22-24 | the value stored for a selector that matched: the space-joined HTML, or the first element's `content` attribute when the join is empty |
| `PageFunction.FallbackOnlyForSingleEmpty` | src/crawler.js:22-24 | the join of the matched elements' HTML is empty iff exactly one element matched and its HTML is empty |
| `PageFunction.SelectorsHtmlContent` | src/crawler.js:17-27 | an entry exists exactly for the selectors that matched an element, holding the space-joined HTML, or the first element's `content` attribute when that join is empty |
| `PageFunction.Transferred` | src/crawler.js:28 | the object `page.evaluate` hands back: the in-page entries whose value is defined |
| `PageFunction.RawFields` | src/crawler.js:17-28 | the fields that reach the page function: one per selector that matched and whose in-page value is defined |
| `PageFunction.TransferredFields` | src/crawler.js:28 | once the in-page result is transferred, the fields are those of `RawFields` |
| `PageFunction.PageRecord` | src/crawler.js:13-31 | the default record: `url` and `#debug`, then one field per transferred entry, cut to 9500 characters of its text, overriding an entry of the same key |
| `PageFunction.BuildRecord` | src/crawler.js:13-31 | the out-of-page loop builds the default record from the transferred fields |
| `PageFunction.DefaultPageFunction` | src/crawler.js:12-33 | the result is the default record of the request URL and debug descriptor, with a field for each matched selector whose in-page value is defined (`RawFields`) |
| `PageFunction.PageRecordFields` | src/crawler.js:13-31 | keys are `url`, `#debug` and the matched selectors whose in-page value is defined (`RawFields`; a single empty element without a `content` attribute gives no key). `url` is the request URL unless such a selector is keyed `url`. Every other key comes from such a selector. Each field is a prefix of `htmlToText(raw)`, at most 9500 characters, and the whole text when that fits |
| `PageResults.RequiredKeys` | src/crawler.js:99-101 | the required keys are `requiredAttributes` when that list is non-empty, otherwise the selector keys |
| `PageResults.Survives` | src/crawler.js:98-104 | the filter: the item is an object whose `url` and every required key are truthy |
| `PageResults.Stamped` | src/crawler.js:105-112 | keys are the union of the result's, the additional attributes' and `crawledBy`/`crawledAt`. `crawledBy`/`crawledAt` win over everything. Additional attributes win over the result's fields. Every other field is unchanged |
| `PageResults.Clean` | src/crawler.js:98-112 | `results.filter(valid).map(stamp)`, item by item in order |
| `PageResults.Survivors` | src/crawler.js:98-104 | the surviving positions increase, each holds a record whose `url` and required keys are truthy, and every such record's position is among them |
| `PageResults.CleanSurvivors` | src/crawler.js:98-112 | the j-th pushed record is the stamped record at the j-th surviving position, so the output is an order-preserving subsequence of the input, each record extended |
| `PageResults.CleanMembers` | src/crawler.js:98-112 | every surviving record reaches the output stamped; every output record is a surviving one, stamped |
| `PageResults.CleanAppend` | src/crawler.js:98-112 | filtering and stamping work record by record: they distribute over concatenation |
| `PageResults.Items` | src/crawler.js:97 | the items the filter visits: a single object wrapped into a one-element list, an array as it is |
| `PageResults.ProcessOutput` | src/crawler.js:93-112 | a non-`object` `typeof` is an error. Otherwise it fails iff `null`/`undefined` is among the visited items. A single object is wrapped into a one-element list and an array is used as is. Success gives the cleaned list |
| `PageResults.FailedRequestRecord` | src/crawler.js:136-138 | the failed-request record has only the key `#debug`, holding the debug descriptor |
| `PageResults.FailedRequestRecordDistinct` | src/crawler.js:105-139 | every record the page handler pushes has its own `url`, `crawledBy` and `crawledAt`, so no pushed page record equals a failed-request record |
| `Crawler.RequestQueue.AddRequest` | src/crawler.js:55 | the request is appended to the queue |
| `Crawler.AddSeeds` | src/crawler.js:62 | every seed is added to the queue, in order |
| `Crawler.Dataset.PushData` | src/crawler.js:114 | every pushed record is appended to the dataset, in order |
| `Crawler.SetUpCrawler` | src/crawler.js:42-70 | the crawler's selector map and patterns are as above. The queue receives `listOfUrls` when it is non-empty, otherwise `startUrls` |
| `Crawler.Crawler.PageFunctionOutput` | src/crawler.js:85-90 | the user page function's result when one is configured, otherwise the default page function's record |
| `Crawler.Crawler.Outcome` | src/crawler.js:93-112 | the result check, filter and stamping applied to that output, with the crawler's required keys and stamp |
| `Crawler.Crawler.Links` | src/crawler.js:116-130 | the `enqueueLinks` options built from the crawler's input and patterns |
| `Crawler.Crawler.HandlePage` | src/crawler.js:74-133 | on an error, nothing is pushed and no links are enqueued. Otherwise the cleaned list is pushed, and links are enqueued once with the built options unless the cascade is disabled. The page function is the user's when configured, else the default one |
| `Crawler.Crawler.HandleFailedRequest` | src/crawler.js:134-139 | exactly the debug-only record is pushed |
| `AlgoliaIndex.BrowseAll` | src/algolia_index.js:7-30 | query `""`, filter `crawledBy:<crawledBy>`, faceting on `crawledBy`. The result is the concatenation of all delivered batches in delivery order, or the empty list when browsing failed |
| `AlgoliaIndex.Concat` | src/algolia_index.js:18-20 | `items = items.concat(batch)` over the delivered batches: all batches joined in delivery order |
| `AlgoliaIndex.ConcatAppend` | src/algolia_index.js:18-20 | accumulation respects any split of the delivery into parts |
| `AlgoliaIndex.ConcatMembers` | src/algolia_index.js:18-20 | a record is in the result iff it is in some batch |
| `AlgoliaIndex.Values` | src/algolia_index.js:39 | `Object.values` lists the entries' values in enumeration order |
| `AlgoliaIndex.ObjectIds` | src/algolia_index.js:55 | the `objectID` of every page to remove, in value order (`undefined` when absent) |
| `AlgoliaIndex.Plan` | src/algolia_index.js:38-58 | at most three operations, in the strict order add, update, remove (so at most one of each kind). `update` fails iff `pagesToAdd` or `pagesToUpdate` is missing |
| `AlgoliaIndex.IfNonEmpty` | src/algolia_index.js:40-43 | the `if (pages.length)` guard: the operation when its pages are non-empty, no operation otherwise |
| `AlgoliaIndex.PlanAdd` | src/algolia_index.js:39-43 | the add save is issued exactly when `pagesToAdd` is non-empty, on exactly its values, with `autoGenerateObjectIDIfNotExist: true` |
| `AlgoliaIndex.PlanUpdate` | src/algolia_index.js:45-49 | the update save is issued only for a non-empty `pagesToUpdate`, on exactly its values, without the auto-ID option; it is issued whenever `update` reaches it |
| `AlgoliaIndex.PlanRemove` | src/algolia_index.js:51-57 | removal is skipped when `pagesToRemove` is absent or empty; otherwise the `objectID`s of its values are deleted, in value order |
| `AlgoliaIndex.EmptyDiffIssuesNothing` | src/algolia_index.js:38-58 | a diff whose sets are all empty issues no operation and no error |
| `AlgoliaIndex.Index.SaveObjects` | src/algolia_index.js:42 | one save operation is logged, with its objects and auto-ID option |
| `AlgoliaIndex.Index.DeleteObjects` | src/algolia_index.js:55 | one delete operation is logged, with its IDs |
| `AlgoliaIndex.Index.Update` | src/algolia_index.js:38-58 | the index log grows by exactly the plan's operations, and the error returned is the plan's |

## Left out

- Browser runtime: `injectJQuery`, `waitForElement`/`waitForSelector`, `PuppeteerCrawler` and `openRequestQueue` are I/O against the browser and storage services. The page is reduced to a selector query and a debug descriptor. The dataset and the request queue are logs.
- Retries: the crawler retries a request whose `handlePageFunction` threw, and calls `handleFailedRequestFunction` once the retries are used up. That cycle is not modelled; each handler call is one attempt. So the model does not show that an error after `pushData` (src/crawler.js:114), for example in `enqueueLinks` (src/crawler.js:131), pushes the page's records again on the retry.
- `page.evaluate` transport: the only effect modelled is that a key whose value is `undefined` (a missing `content` attribute) does not survive the transfer out of the page.
- `Apify.utils.enqueueLinks`: link extraction, pseudo-URL matching (`Apify.PseudoUrl`) and deduplication by unique key are library code. The model records only the options each call receives and the effect of the transform on a request.
- User page function: evaluating the `pageFunction` source with `new Function` is left out. Its result is an arbitrary `PageOutput`. Exceptions the user function throws are not modelled.
- `htmlToText`, `createRequestDebugInfo` and `new Date` are foreign or nondeterministic. They are parameters: a total function, a value and a timestamp.
- Crawler.Crawler.HandlePage: gives every record of one page the same `crawledAt`, whereas the source evaluates `new Date` once per record.
- Concurrency: the `Promise.map(..., { concurrency: 3 })` seeding is modelled as sequential addition, in seed order.
- Algolia client: the network behaviour of `browseObjects`, `saveObjects` and `deleteObjects`, and how object IDs are assigned, are external. What a browse delivers is an input. A failing save or delete, which would abort `update` at that call, is not modelled.
- Computing the pages diff (the add/update/remove sets) is not part of the modelled files. The diff is an input.
- Console logging.
- JavaScript numbers are integers here (no fractions, no `NaN`). `substring` counts UTF-16 code units, and the model counts Dafny characters. Flags and options stand for their truthiness.
- Objects are maps, so the enumeration order of `Object.keys` is not modelled. It does not affect the records built. The value order of a pages diff is kept, as an ordered list of entries.
- Prototypes: every object is a plain object whose prototype is `Object.prototype`. Lookup of a name that object provides and the `__proto__` setter are modelled (`JsValues.Get`, `CrawlerConfig.SelectorMap`). Objects made with another prototype or none (class instances, `Object.create(null)`), getters, and the inherited properties of primitives are not.
- Malformed configuration:
  - A `null` or `undefined` entry in `input.selectors` makes `selector.key` throw (src/crawler.js:50).
  - A primitive entry (`5`, `"h1"`, `true`), or an object entry whose `key` or `value` is not a string, does not throw. It assigns a key such as `"undefined"` with the value `undefined`, or with whatever value it holds. Such a key then becomes a required key (src/crawler.js:101) when `requiredAttributes` is empty.
  - `pseudoUrls: null` makes `pseudoUrls.length` throw (src/crawler.js:56, 63), because the default `[]` replaces only `undefined`.
  - `SelectorEntry(key: string, value: string)` and the other input types cannot express these inputs, so none of these cases is modelled.
- Algolia filter syntax: the filter is modelled as the string `crawledBy:` followed by the name (`AlgoliaIndex.BrowseAll`). How Algolia parses it is not. The name is not quoted at src/algolia_index.js:14, so a name containing a space or a filter keyword such as `OR` presumably does not select that crawler's records. Any resulting error is caught (src/algolia_index.js:26-29), which gives an empty snapshot.
