/** The configuration that `setUpCrawler` derives from its input before any page
    is visited (src/crawler.js:42-70, 116-130): the selector map, the seeds, the
    pseudo-URL patterns and the options handed to link enqueueing. */
module CrawlerConfig {
  import opened JsValues
  import Urls

  /** One `{ key, value }` entry of `input.selectors`. */
  datatype SelectorEntry = SelectorEntry(key: string, value: string)

  /** `input.selectors`: an array, or anything else (absent, an object, ...). */
  datatype SelectorsInput = SelectorList(entries: seq<SelectorEntry>) | NotAList

  /** The key-to-selector map that assigning every entry in order produces.
      Assigning a selector string to `__proto__` reaches the prototype setter,
      which ignores it, so such an entry adds no key. */
  function SelectorMap(entries: seq<SelectorEntry>): map<string, string>
    decreases |entries|
  {
    if entries == [] then map[]
    else
      var last := entries[|entries| - 1];
      var m := SelectorMap(entries[..|entries| - 1]);
      if last.key == PROTO_KEY then m else m[last.key := last.value]
  }

  /** The selector map has exactly the keys of the list, except `__proto__`. */
  lemma {:induction false} SelectorMapKeys(entries: seq<SelectorEntry>)
    ensures SelectorMap(entries).Keys == set e | e in entries && e.key != PROTO_KEY :: e.key
    decreases |entries|
  {
    if entries != [] {
      var init := entries[..|entries| - 1];
      var last := entries[|entries| - 1];
      SelectorMapKeys(init);
      assert entries == init + [last];
      if last.key == PROTO_KEY {
        assert (set e | e in entries && e.key != PROTO_KEY :: e.key)
          == (set e | e in init && e.key != PROTO_KEY :: e.key);
      } else {
        assert (set e | e in entries && e.key != PROTO_KEY :: e.key)
          == (set e | e in init && e.key != PROTO_KEY :: e.key) + {last.key};
      }
    }
  }

  /** An entry that no later entry shares its key with decides that key's
      selector, unless the key is `__proto__`: a later duplicate overrides an
      earlier one. */
  lemma {:induction false} SelectorMapLastWins(entries: seq<SelectorEntry>, i: nat)
    requires i < |entries|
    requires forall j :: i < j < |entries| ==> entries[j].key != entries[i].key
    ensures entries[i].key != PROTO_KEY ==>
      entries[i].key in SelectorMap(entries) && SelectorMap(entries)[entries[i].key] == entries[i].value
    decreases |entries|
  {
    if i < |entries| - 1 {
      SelectorMapLastWins(entries[..|entries| - 1], i);
    }
  }

  /** Fills the selector map by one assignment per entry; a non-array
      `input.selectors` leaves it empty. An assignment to `__proto__` has no
      effect on the map. */
  method BuildSelectors(input: SelectorsInput) returns (selectors: map<string, string>)
    ensures input.NotAList? ==> selectors == map[]
    ensures input.SelectorList? ==> selectors == SelectorMap(input.entries)
  {
    selectors := map[];
    if input.SelectorList? {
      var entries := input.entries;
      for i := 0 to |entries|
        invariant selectors == SelectorMap(entries[..i])
      {
        assert entries[..i + 1][..i] == entries[..i];
        if entries[i].key != PROTO_KEY {
          selectors := selectors[entries[i].key := entries[i].value];
        }
      }
      assert entries[..|entries|] == entries;
    }
  }

  /** A seed request from `startUrls` or `listOfUrls`. */
  datatype Seed = Seed(url: string)

  /** A `{ purl }` pseudo-URL pattern. */
  datatype PseudoUrlSpec = PseudoUrlSpec(purl: string)

  /** A non-empty `listOfUrls` replaces `startUrls` as the seeds. */
  function ChooseSeeds(startUrls: seq<Seed>, listOfUrls: Option<seq<Seed>>): seq<Seed> {
    if listOfUrls.Some? && |listOfUrls.value| > 0 then listOfUrls.value else startUrls
  }

  /** The pattern that matches the seed URL followed by anything. */
  function SeedPattern(seed: Seed): PseudoUrlSpec {
    PseudoUrlSpec(seed.url + "[.*]")
  }

  /** The patterns used when none are supplied: one `<seed.url>[.*]` per seed,
      in seed order. */
  function DefaultPatterns(seeds: seq<Seed>): (patterns: seq<PseudoUrlSpec>)
    ensures |patterns| == |seeds|
    ensures forall i :: 0 <= i < |seeds| ==> patterns[i].purl == seeds[i].url + "[.*]"
  {
    seq(|seeds|, i requires 0 <= i < |seeds| => SeedPattern(seeds[i]))
  }

  /** Supplied patterns are kept as they are; when none are supplied, one
      pattern is pushed per seed. */
  method PseudoUrls(seeds: seq<Seed>, supplied: seq<PseudoUrlSpec>) returns (patterns: seq<PseudoUrlSpec>)
    ensures |supplied| > 0 ==> patterns == supplied
    ensures |supplied| == 0 ==> patterns == DefaultPatterns(seeds)
  {
    patterns := supplied;
    if |patterns| == 0 {
      for i := 0 to |seeds|
        invariant patterns == DefaultPatterns(seeds[..i])
      {
        patterns := patterns + [SeedPattern(seeds[i])];
      }
      assert seeds[..|seeds|] == seeds;
    }
  }

  /** The options that `enqueueLinks` is called with. */
  datatype EnqueueOptions = EnqueueOptions(
    selector: string,
    pseudoUrls: seq<PseudoUrlSpec>,
    transform: Urls.Transform)

  /** The link-enqueueing options built after a page is pushed, or `None` when
      the crawler cascade is disabled. The keep-fragment transform is assigned
      after, and so replaces, search-parameter stripping. */
  function LinkOptions(
    disableCrawlerCascade: bool,
    clickableElements: Option<string>,
    omitSearchParamsFromUrl: bool,
    keepUrlFragment: bool,
    pseudoUrls: seq<PseudoUrlSpec>): (o: Option<EnqueueOptions>)
    ensures o.None? <==> disableCrawlerCascade
    ensures o.Some? && (clickableElements.None? || clickableElements.value == "") ==> o.value.selector == "a"
    ensures o.Some? && clickableElements.Some? && clickableElements.value != "" ==>
      o.value.selector == clickableElements.value
    ensures o.Some? ==> o.value.pseudoUrls == pseudoUrls
    ensures o.Some? ==> (o.value.transform == Urls.KeepFragment <==> keepUrlFragment)
    ensures o.Some? ==> (o.value.transform == Urls.OmitSearchParams <==> omitSearchParamsFromUrl && !keepUrlFragment)
    ensures o.Some? ==> (o.value.transform == Urls.NoTransform <==> !omitSearchParamsFromUrl && !keepUrlFragment)
  {
    if disableCrawlerCascade then None
    else
      var selector := if clickableElements.Some? && clickableElements.value != "" then clickableElements.value else "a";
      var t := if omitSearchParamsFromUrl then Urls.OmitSearchParams else Urls.NoTransform;
      var t' := if keepUrlFragment then Urls.KeepFragment else t;
      Some(EnqueueOptions(selector, pseudoUrls, t'))
  }

  /** With both URL options set, a discovered link keeps its query: the
      keep-fragment transform leaves URL and unique key untouched. */
  method KeepFragmentKeepsQuery(clickableElements: Option<string>, pseudoUrls: seq<PseudoUrlSpec>, link: Urls.Request)
    modifies link
    ensures link.url == old(link.url) && link.uniqueKey == old(link.uniqueKey) && link.keepUrlFragment
  {
    var o := LinkOptions(false, clickableElements, true, true, pseudoUrls);
    link.Apply(o.value.transform);
  }
}
