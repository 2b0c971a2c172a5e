/** The default page function (src/crawler.js:12-33), with the DOM abstracted:
    a selector query returns the sequence of matched elements, and
    `htmlToText` and the request debug descriptor are taken as parameters. */
module PageFunction {
  import opened JsValues

  /** A matched element: its inner HTML and its `content` attribute
      (`None` when the attribute is absent). */
  datatype Element = Element(html: string, content: Option<string>)

  /** Every stored field is cut to this many characters. */
  const MAX_FIELD_LENGTH: nat := 9500

  /** `parts.join(' ')`. */
  function JoinSpace(parts: seq<string>): string {
    if |parts| == 0 then ""
    else if |parts| == 1 then parts[0]
    else parts[0] + " " + JoinSpace(parts[1..])
  }

  /** The inner HTML of every matched element, in document order. */
  function Htmls(elements: seq<Element>): (hs: seq<string>)
    ensures |hs| == |elements|
    ensures forall i :: 0 <= i < |elements| ==> hs[i] == elements[i].html
  {
    seq(|elements|, i requires 0 <= i < |elements| => elements[i].html)
  }

  /** `s.substring(0, n)`. */
  function Substring(s: string, n: nat): (r: string)
    ensures r <= s
    ensures |r| == if |s| <= n then |s| else n
  {
    if |s| <= n then s else s[..n]
  }

  /** The value the in-page code stores for a selector that matched `elements`:
      the space-joined inner HTML, or, when that join is empty, the `content`
      attribute of the first element. */
  function InPageValue(elements: seq<Element>): Option<string>
    requires |elements| > 0
  {
    var joined := JoinSpace(Htmls(elements));
    if joined != "" then Some(joined) else elements[0].content
  }

  /** The join of one or more parts is empty only for a single empty part, so the
      `content` fallback is taken only when exactly one element matched and its
      inner HTML is empty. */
  lemma FallbackOnlyForSingleEmpty(elements: seq<Element>)
    requires |elements| > 0
    ensures JoinSpace(Htmls(elements)) == "" <==> |elements| == 1 && elements[0].html == ""
  {
    var hs := Htmls(elements);
    if |hs| > 1 {
      assert JoinSpace(hs) == hs[0] + " " + JoinSpace(hs[1..]);
      assert |JoinSpace(hs)| > 0;
    }
  }

  /** The fields that reach the page function from the page: one per selector
      that matched at least one element and whose in-page value is defined
      (an `undefined` property does not survive the transfer out of the page). */
  function RawFields(selectors: map<string, string>, query: string -> seq<Element>): map<string, string> {
    map k | k in selectors && |query(selectors[k])| > 0 && InPageValue(query(selectors[k])).Some?
      :: InPageValue(query(selectors[k])).value
  }

  /** `getSelectorsHTMLContent`, run inside the page: one entry per selector that
      matched, holding the space-joined inner HTML, replaced by the `content`
      attribute when the join is empty. */
  method SelectorsHtmlContent(selectors: map<string, string>, query: string -> seq<Element>)
    returns (result: map<string, Option<string>>)
    ensures forall k :: k in result <==> k in selectors && |query(selectors[k])| > 0
    ensures forall k :: k in result ==> result[k] == InPageValue(query(selectors[k]))
  {
    result := map[];
    var todo := selectors.Keys;
    while todo != {}
      invariant todo <= selectors.Keys
      invariant forall k :: k in result <==> k in selectors && k !in todo && |query(selectors[k])| > 0
      invariant forall k :: k in result ==> result[k] == InPageValue(query(selectors[k]))
      decreases |todo|
    {
      var key :| key in todo;
      var elements := query(selectors[key]);
      if |elements| > 0 {
        result := result[key := Some(JoinSpace(Htmls(elements)))];
      }
      if |elements| > 0 && result[key] == Some("") {
        result := result[key := elements[0].content];
      }
      todo := todo - {key};
    }
  }

  /** The object returned by `page.evaluate`: entries whose value is `undefined`
      are dropped in the transfer. */
  function Transferred(inPage: map<string, Option<string>>): map<string, string> {
    map k | k in inPage && inPage[k].Some? :: inPage[k].value
  }

  /** What the in-page code returns, once transferred, is RawFields. */
  lemma TransferredFields(selectors: map<string, string>, query: string -> seq<Element>, inPage: map<string, Option<string>>)
    requires forall k :: k in inPage <==> k in selectors && |query(selectors[k])| > 0
    requires forall k :: k in inPage ==> inPage[k] == InPageValue(query(selectors[k]))
    ensures Transferred(inPage) == RawFields(selectors, query)
  {
    var t, r := Transferred(inPage), RawFields(selectors, query);
    assert t.Keys == r.Keys;
    forall k | k in t ensures t[k] == r[k] { }
  }

  /** The record the default page function builds from the transferred fields
      `raw`: `url` and `#debug` first, then one text field per entry of `raw`,
      which overrides an entry of the same key. */
  function PageRecord(requestUrl: string, debugInfo: Value, raw: map<string, string>, htmlToText: string -> string): Record {
    map["url" := Str(requestUrl), "#debug" := debugInfo]
      + map k | k in raw :: Str(Substring(htmlToText(raw[k]), MAX_FIELD_LENGTH))
  }

  /** A record with PageRecord's keys and values is PageRecord. */
  lemma PageRecordFrom(requestUrl: string, debugInfo: Value, raw: map<string, string>, htmlToText: string -> string, result: Record)
    requires result.Keys == {"url", "#debug"} + raw.Keys
    requires forall k :: k in result && k !in raw ==>
      result[k] == map["url" := Str(requestUrl), "#debug" := debugInfo][k]
    requires forall k :: k in raw ==> result[k] == Str(Substring(htmlToText(raw[k]), MAX_FIELD_LENGTH))
    ensures result == PageRecord(requestUrl, debugInfo, raw, htmlToText)
  {
    var expected := PageRecord(requestUrl, debugInfo, raw, htmlToText);
    assert result.Keys == expected.Keys;
    forall k | k in result ensures result[k] == expected[k] { }
  }

  /** What the built record holds: `url` is the request URL unless a matched
      selector is keyed `url`; every other key comes from a matched selector;
      each field is a prefix of the text of its raw value, at most 9500
      characters long, and the whole text when that fits. */
  lemma PageRecordFields(
    requestUrl: string,
    debugInfo: Value,
    selectors: map<string, string>,
    query: string -> seq<Element>,
    htmlToText: string -> string)
    ensures var raw := RawFields(selectors, query);
      var result := PageRecord(requestUrl, debugInfo, raw, htmlToText);
      && result.Keys == {"url", "#debug"} + raw.Keys
      && ("url" !in raw ==> result["url"] == Str(requestUrl))
      && ("#debug" !in raw ==> result["#debug"] == debugInfo)
      && (forall k :: k in result && k != "url" && k != "#debug" ==>
            k in selectors && |query(selectors[k])| > 0)
      && forall k :: k in raw ==>
           && result[k].Str?
           && result[k].s <= htmlToText(raw[k])
           && |result[k].s| <= MAX_FIELD_LENGTH
           && (|htmlToText(raw[k])| <= MAX_FIELD_LENGTH ==> result[k].s == htmlToText(raw[k]))
           && (|htmlToText(raw[k])| > MAX_FIELD_LENGTH ==> |result[k].s| == MAX_FIELD_LENGTH)
  {
  }

  /** The second half of the default page function, outside the page: starts
      from `url` and `#debug` and stores each transferred field as text, cut to
      9500 characters. */
  method BuildRecord(requestUrl: string, debugInfo: Value, selectorsHtml: map<string, string>, htmlToText: string -> string)
    returns (result: Record)
    ensures result == PageRecord(requestUrl, debugInfo, selectorsHtml, htmlToText)
  {
    result := map["url" := Str(requestUrl), "#debug" := debugInfo];
    var todo := selectorsHtml.Keys;
    while todo != {}
      invariant todo <= selectorsHtml.Keys
      invariant result.Keys == {"url", "#debug"} + (selectorsHtml.Keys - todo)
      invariant forall k :: k in result && k !in selectorsHtml ==>
        result[k] == map["url" := Str(requestUrl), "#debug" := debugInfo][k]
      invariant forall k :: k in selectorsHtml && k !in todo ==>
        result[k] == Str(Substring(htmlToText(selectorsHtml[k]), MAX_FIELD_LENGTH))
      decreases |todo|
    {
      var key :| key in todo;
      result := result[key := Str(Substring(htmlToText(selectorsHtml[key]), MAX_FIELD_LENGTH))];
      todo := todo - {key};
    }
    PageRecordFrom(requestUrl, debugInfo, selectorsHtml, htmlToText, result);
  }

  /** The default page function: the record of the request URL, its debug
      descriptor and the matched selectors' text, cut to 9500 characters. */
  method DefaultPageFunction(
    requestUrl: string,
    debugInfo: Value,
    selectors: map<string, string>,
    query: string -> seq<Element>,
    htmlToText: string -> string)
    returns (result: Record)
    ensures result == PageRecord(requestUrl, debugInfo, RawFields(selectors, query), htmlToText)
  {
    var inPage := SelectorsHtmlContent(selectors, query);
    TransferredFields(selectors, query, inPage);
    result := BuildRecord(requestUrl, debugInfo, Transferred(inPage), htmlToText);
  }
}
