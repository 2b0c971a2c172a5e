/** `setUpCrawler` (src/crawler.js:42-143): the crawler it configures, the
    seeding of the request queue, and the two handlers it installs, with the
    request queue and the dataset modelled as logs of what they receive. */
module Crawler {
  import opened JsValues
  import opened CrawlerConfig
  import opened PageFunction
  import opened PageResults

  /** The destructured crawler input. Flags stand for their truthiness; an
      absent `pseudoUrls` is the empty list, an absent `requiredAttributes`
      the empty list, absent `additionalPageAttrs` the empty object. */
  datatype CrawlerInput = CrawlerInput(
    startUrls: seq<Seed>,
    listOfUrls: Option<seq<Seed>>,
    selectors: SelectorsInput,
    pseudoUrls: seq<PseudoUrlSpec>,
    additionalPageAttrs: Record,
    omitSearchParamsFromUrl: bool,
    keepUrlFragment: bool,
    clickableElements: Option<string>,
    usePageFunction: bool,
    crawlerName: Value,
    requiredAttributes: seq<string>,
    disableCrawlerCascade: bool)

  /** The request queue, as the sequence of requests added to it. */
  class RequestQueue {
    var requests: seq<Seed>

    constructor ()
      ensures requests == []
    {
      requests := [];
    }

    method AddRequest(r: Seed)
      modifies this
      ensures requests == old(requests) + [r]
    {
      requests := requests + [r];
    }
  }

  /** The default dataset, as the sequence of records pushed to it. */
  class Dataset {
    var items: seq<Record>

    constructor ()
      ensures items == []
    {
      items := [];
    }

    /** `Apify.pushData(records)`: every record is appended, in order. */
    method PushData(records: seq<Record>)
      modifies this
      ensures items == old(items) + records
    {
      items := items + records;
    }
  }

  /** What the handlers read from the visited page: the selector query
      (jQuery's `$`) and the request debug descriptor. */
  datatype Page = Page(query: string -> seq<Element>, debugInfo: Value)

  /** Adds every seed to the queue, one after another. */
  method AddSeeds(queue: RequestQueue, seeds: seq<Seed>)
    modifies queue
    ensures queue.requests == old(queue.requests) + seeds
  {
    for i := 0 to |seeds|
      invariant queue.requests == old(queue.requests) + seeds[..i]
    {
      queue.AddRequest(seeds[i]);
      assert seeds[..i + 1] == seeds[..i] + [seeds[i]];
    }
    assert seeds[..|seeds|] == seeds;
  }

  class Crawler {
    const input: CrawlerInput
    const selectors: map<string, string>
    const pseudoUrls: seq<PseudoUrlSpec>
    const queue: RequestQueue
    const dataset: Dataset
    /** The options of every `enqueueLinks` call made so far. */
    var enqueued: seq<EnqueueOptions>

    constructor (input: CrawlerInput, selectors: map<string, string>, pseudoUrls: seq<PseudoUrlSpec>,
                 queue: RequestQueue, dataset: Dataset)
      ensures this.input == input && this.selectors == selectors && this.pseudoUrls == pseudoUrls
      ensures this.queue == queue && this.dataset == dataset && enqueued == []
    {
      this.input := input;
      this.selectors := selectors;
      this.pseudoUrls := pseudoUrls;
      this.queue := queue;
      this.dataset := dataset;
      enqueued := [];
    }

    /** The page function's result for a page: the user page function's result
        when one is configured, the default page function's record otherwise. */
    function PageFunctionOutput(requestUrl: string, page: Page, userOutput: PageOutput,
                                htmlToText: string -> string): PageOutput
    {
      if input.usePageFunction then userOutput
      else Single(Obj(PageRecord(requestUrl, page.debugInfo, RawFields(selectors, page.query), htmlToText)))
    }

    /** What `handlePageFunction` makes of that result: an error, or the
        records to push. */
    function Outcome(requestUrl: string, page: Page, userOutput: PageOutput,
                     htmlToText: string -> string, now: int): Result<seq<Record>>
    {
      ProcessOutput(PageFunctionOutput(requestUrl, page, userOutput, htmlToText),
                    RequiredKeys(input.requiredAttributes, selectors),
                    Stamp(input.additionalPageAttrs, input.crawlerName, now))
    }

    /** The link-enqueueing call this crawler makes after a page, if any. */
    function Links(): Option<EnqueueOptions> {
      LinkOptions(input.disableCrawlerCascade, input.clickableElements,
                  input.omitSearchParamsFromUrl, input.keepUrlFragment, pseudoUrls)
    }

    /** `handlePageFunction`: runs the page function, rejects a result of the
        wrong type before anything is pushed, pushes the cleaned records, and
        then enqueues links unless the cascade is disabled. */
    method HandlePage(requestUrl: string, page: Page, userOutput: PageOutput,
                      htmlToText: string -> string, now: int)
      returns (err: Option<PageError>)
      modifies this, dataset
      ensures var r := Outcome(requestUrl, page, userOutput, htmlToText, now);
        && (r.Err? ==> err == Some(r.error) && dataset.items == old(dataset.items) && enqueued == old(enqueued))
        && (r.Ok? && Links().None? ==>
              err == None && dataset.items == old(dataset.items) + r.value && enqueued == old(enqueued))
        && (r.Ok? && Links().Some? ==>
              err == None && dataset.items == old(dataset.items) + r.value && enqueued == old(enqueued) + [Links().value])
    {
      var results: PageOutput;
      if input.usePageFunction {
        results := userOutput;
      } else {
        var record := DefaultPageFunction(requestUrl, page.debugInfo, selectors, page.query, htmlToText);
        results := Single(Obj(record));
      }
      var cleaned := ProcessOutput(results, RequiredKeys(input.requiredAttributes, selectors),
                                   Stamp(input.additionalPageAttrs, input.crawlerName, now));
      if cleaned.Err? {
        return Some(cleaned.error);
      }
      dataset.PushData(cleaned.value);
      var opts := Links();
      if opts.Some? {
        enqueued := enqueued + [opts.value];
      }
      err := None;
    }

    /** `handleFailedRequestFunction`: pushes the debug-only record. */
    method HandleFailedRequest(debugInfo: Value)
      modifies dataset
      ensures dataset.items == old(dataset.items) + [FailedRequestRecord(debugInfo)]
    {
      dataset.PushData([FailedRequestRecord(debugInfo)]);
    }
  }

  /** `setUpCrawler`: builds the selector map, adds the seeds to the queue —
      a non-empty `listOfUrls` replacing `startUrls` — and keeps the supplied
      pseudo-URLs, or makes one `<seed.url>[.*]` pattern per seed when none
      are supplied. */
  method SetUpCrawler(input: CrawlerInput, queue: RequestQueue, dataset: Dataset) returns (c: Crawler)
    modifies queue
    ensures fresh(c) && c.input == input && c.queue == queue && c.dataset == dataset && c.enqueued == []
    ensures input.selectors.NotAList? ==> c.selectors == map[]
    ensures input.selectors.SelectorList? ==> c.selectors == SelectorMap(input.selectors.entries)
    ensures input.listOfUrls.Some? && |input.listOfUrls.value| > 0 ==>
      queue.requests == old(queue.requests) + input.listOfUrls.value
    ensures input.listOfUrls.None? || |input.listOfUrls.value| == 0 ==>
      queue.requests == old(queue.requests) + input.startUrls
    ensures |input.pseudoUrls| > 0 ==> c.pseudoUrls == input.pseudoUrls
    ensures |input.pseudoUrls| == 0 ==>
      c.pseudoUrls == DefaultPatterns(ChooseSeeds(input.startUrls, input.listOfUrls))
  {
    var selectors := BuildSelectors(input.selectors);
    var seeds := ChooseSeeds(input.startUrls, input.listOfUrls);
    AddSeeds(queue, seeds);
    var patterns := PseudoUrls(seeds, input.pseudoUrls);
    c := new Crawler(input, selectors, patterns, queue, dataset);
  }
}
