/** The request transforms that the crawler hands to link enqueueing:
    `omitSearchParams` (src/crawler.js:35-40) and the keep-fragment transform
    (src/crawler.js:125-130). */
module Urls {

  /** `u.split('?')[0]`: the part of `u` before its first '?'. The three
      ensures clauses determine the result uniquely (see BeforeQueryUnique). */
  function BeforeQuery(u: string): (r: string)
    ensures r <= u
    ensures '?' !in r
    ensures |r| < |u| ==> u[|r|] == '?'
  {
    if u == [] || u[0] == '?' then [] else [u[0]] + BeforeQuery(u[1..])
  }

  /** The part before the first '?' is the only prefix that stops at a '?'
      (or at the end) and contains none itself. */
  lemma {:induction false} BeforeQueryUnique(u: string, r: string)
    requires r <= u && '?' !in r
    requires |r| < |u| ==> u[|r|] == '?'
    ensures r == BeforeQuery(u)
  {
    if u != [] && u[0] != '?' {
      assert r != [];
      assert r[1..] <= u[1..] && '?' !in r[1..];
      BeforeQueryUnique(u[1..], r[1..]);
      assert r == [u[0]] + r[1..];
    }
  }

  /** A URL without a '?' is left as it is. */
  lemma NoQueryUnchanged(u: string)
    requires '?' !in u
    ensures BeforeQuery(u) == u
  {
    BeforeQueryUnique(u, u);
  }

  /** Stripping the search parameters twice is the same as stripping them once. */
  lemma BeforeQueryIdempotent(u: string)
    ensures BeforeQuery(BeforeQuery(u)) == BeforeQuery(u)
  {
    NoQueryUnchanged(BeforeQuery(u));
  }

  /** Which `transformRequestFunction` link enqueueing receives. */
  datatype Transform = NoTransform | OmitSearchParams | KeepFragment

  /** The request options that link enqueueing builds for a discovered link and
      passes through the transform, which updates them in place. */
  class Request {
    var url: string
    var uniqueKey: string
    var keepUrlFragment: bool

    /** Link enqueueing does not give a new request a unique key before the
        transform; the library derives it from the URL later. Starting with
        the URL itself is a choice of this model, so "the unique key is
        unchanged" speaks only about what the transform does. */
    constructor (url: string)
      ensures this.url == url && uniqueKey == url && !keepUrlFragment
    {
      this.url := url;
      this.uniqueKey := url;
      this.keepUrlFragment := false;
    }

    /** `omitSearchParams`: URL and unique key both become the URL without its
        search parameters. */
    method OmitSearch()
      modifies this
      ensures url == uniqueKey == BeforeQuery(old(url))
      ensures '?' !in url
      ensures keepUrlFragment == old(keepUrlFragment)
    {
      var urlWithoutParams := BeforeQuery(url);
      url := urlWithoutParams;
      uniqueKey := urlWithoutParams;
    }

    /** The keep-fragment transform: only the flag changes. */
    method KeepUrlFragment()
      modifies this
      ensures keepUrlFragment
      ensures url == old(url) && uniqueKey == old(uniqueKey)
    {
      keepUrlFragment := true;
    }

    /** Runs the chosen transform on this request. */
    method Apply(t: Transform)
      modifies this
      ensures t == NoTransform ==> unchanged(this)
      ensures t == OmitSearchParams ==>
        url == uniqueKey == BeforeQuery(old(url)) && keepUrlFragment == old(keepUrlFragment)
      ensures t == KeepFragment ==>
        url == old(url) && uniqueKey == old(uniqueKey) && keepUrlFragment
    {
      match t
      case NoTransform =>
      case OmitSearchParams => OmitSearch();
      case KeepFragment => KeepUrlFragment();
    }
  }
}
