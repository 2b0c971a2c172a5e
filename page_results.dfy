/** What `handlePageFunction` does with a page function's result before it is
    pushed to the dataset (src/crawler.js:93-112): the type check, the wrapping
    of a single object, the filter on `url` and the required attributes, and
    the stamping with the additional attributes, `crawledBy` and `crawledAt`.
    Also the record written for a request that failed too often
    (src/crawler.js:134-139). */
module PageResults {
  import opened JsValues

  /** One element of the page function's result. Property lookup on a
      `Primitive` (a number, a string, a boolean) finds no `url`; on a
      `Nullish` one (`null`, `undefined`) it throws. */
  datatype Item = Obj(fields: Record) | Nullish | Primitive

  /** The value the page function resolves to: a non-array value whose `typeof`
      is `'object'` (which includes `null`), an array, or a value of another
      type, named by its `typeof`. */
  datatype PageOutput = Single(item: Item) | Many(items: seq<Item>) | NotObject(typeName: string)

  datatype PageError =
    | InvalidResultType(typeName: string)  // "Page function must return Object or Array"
    | NullPropertyAccess                   // the TypeError of reading a property of null

  datatype Result<+T> = Ok(value: T) | Err(error: PageError)

  /** The keys every surviving record must hold: `requiredAttributes` when that
      list is non-empty, the selector keys otherwise. */
  function RequiredKeys(requiredAttributes: seq<string>, selectors: map<string, string>): (keys: set<string>)
    ensures |requiredAttributes| > 0 ==> forall k :: k in keys <==> k in requiredAttributes
    ensures |requiredAttributes| == 0 ==> keys == selectors.Keys
  {
    if |requiredAttributes| > 0 then set k | k in requiredAttributes else selectors.Keys
  }

  /** The filter: a record survives when its `url` and every required key hold
      a truthy value. */
  predicate Survives(item: Item, required: set<string>) {
    && item.Obj?
    && Truthy(Get(item.fields, "url"))
    && forall k :: k in required ==> Truthy(Get(item.fields, k))
  }

  /** What is merged into every surviving record. */
  datatype Stamp = Stamp(additionalPageAttrs: Record, crawlerName: Value, crawledAt: int)

  /** `{ ...result, ...additionalPageAttrs, crawledBy, crawledAt }`: later
      spreads win, so the additional attributes override the page function's
      fields and `crawledBy`/`crawledAt` override both. */
  function Stamped(r: Record, st: Stamp): (s: Record)
    ensures s.Keys == r.Keys + st.additionalPageAttrs.Keys + {"crawledBy", "crawledAt"}
    ensures s["crawledBy"] == st.crawlerName && s["crawledAt"] == Time(st.crawledAt)
    ensures forall k :: k in st.additionalPageAttrs && k != "crawledBy" && k != "crawledAt" ==>
      s[k] == st.additionalPageAttrs[k]
    ensures forall k :: k in r && k !in st.additionalPageAttrs && k != "crawledBy" && k != "crawledAt" ==>
      s[k] == r[k]
  {
    r + st.additionalPageAttrs + map["crawledBy" := st.crawlerName, "crawledAt" := Time(st.crawledAt)]
  }

  /** `results.filter(valid).map(stamp)`. */
  function Clean(items: seq<Item>, required: set<string>, st: Stamp): seq<Record>
    decreases |items|
  {
    if items == [] then []
    else
      var last := items[|items| - 1];
      Clean(items[..|items| - 1], required, st) + (if Survives(last, required) then [Stamped(last.fields, st)] else [])
  }

  /** The positions of the surviving items: increasing, each a surviving item,
      and every surviving item's position among them. */
  function Survivors(items: seq<Item>, required: set<string>): (idx: seq<nat>)
    ensures forall j :: 0 <= j < |idx| ==> idx[j] < |items| && Survives(items[idx[j]], required)
    ensures forall j1, j2 :: 0 <= j1 < j2 < |idx| ==> idx[j1] < idx[j2]
    ensures forall i :: 0 <= i < |items| && Survives(items[i], required) ==> i in idx
    decreases |items|
  {
    if items == [] then []
    else
      var n := |items| - 1;
      var idx0 := Survivors(items[..n], required);
      assert forall j :: 0 <= j < |idx0| ==> items[idx0[j]] == items[..n][idx0[j]];
      assert forall i :: 0 <= i < n ==> items[i] == items[..n][i];
      idx0 + (if Survives(items[n], required) then [n] else [])
  }

  /** Cleaning works item by item: it distributes over concatenation. */
  lemma {:induction false} CleanAppend(a: seq<Item>, b: seq<Item>, required: set<string>, st: Stamp)
    ensures Clean(a + b, required, st) == Clean(a, required, st) + Clean(b, required, st)
    decreases |b|
  {
    if b != [] {
      var init := b[..|b| - 1];
      assert (a + b)[..|a + b| - 1] == a + init;
      CleanAppend(a, init, required, st);
    } else {
      assert a + b == a;
    }
  }

  /** The output is an order-preserving subsequence of the input, each record
      extended by the stamp: its j-th record is the stamped item at the j-th
      surviving position (Survivors). */
  lemma {:induction false} CleanSurvivors(items: seq<Item>, required: set<string>, st: Stamp)
    ensures |Clean(items, required, st)| == |Survivors(items, required)|
    ensures forall j :: 0 <= j < |Survivors(items, required)| ==>
      Clean(items, required, st)[j] == Stamped(items[Survivors(items, required)[j]].fields, st)
    decreases |items|
  {
    if items != [] {
      var n := |items| - 1;
      var init := items[..n];
      CleanSurvivors(init, required, st);
      var idx0 := Survivors(init, required);
      assert forall j :: 0 <= j < |idx0| ==> items[idx0[j]] == init[idx0[j]];
    }
  }

  /** Every surviving item reaches the output stamped, and every output record
      is a surviving item, stamped. */
  lemma CleanMembers(items: seq<Item>, required: set<string>, st: Stamp)
    ensures forall i :: 0 <= i < |items| && Survives(items[i], required) ==>
      Stamped(items[i].fields, st) in Clean(items, required, st)
    ensures forall r :: r in Clean(items, required, st) ==>
      exists i :: 0 <= i < |items| && Survives(items[i], required) && r == Stamped(items[i].fields, st)
  {
    CleanSurvivors(items, required, st);
    var idx := Survivors(items, required);
    var out := Clean(items, required, st);
    forall i | 0 <= i < |items| && Survives(items[i], required)
      ensures Stamped(items[i].fields, st) in out
    {
      var j :| 0 <= j < |idx| && idx[j] == i;
      assert out[j] == Stamped(items[i].fields, st);
    }
    forall r | r in out
      ensures exists i :: 0 <= i < |items| && Survives(items[i], required) && r == Stamped(items[i].fields, st)
    {
      var j :| 0 <= j < |out| && out[j] == r;
      assert Survives(items[idx[j]], required);
    }
  }

  /** The items the filter visits: a single object is wrapped into a
      one-element list; an array is used as it is. */
  function Items(out: PageOutput): seq<Item>
    requires !out.NotObject?
  {
    if out.Single? then [out.item] else out.items
  }

  /** The result check, filter and stamping. A result whose `typeof` is not
      `'object'` is rejected; `null` passes that check and then fails the
      property access of the filter, as does any nullish array element;
      otherwise the cleaned list is what gets pushed. */
  function ProcessOutput(out: PageOutput, required: set<string>, st: Stamp): (r: Result<seq<Record>>)
    ensures out.NotObject? ==> r == Err(InvalidResultType(out.typeName))
    ensures !out.NotObject? ==> (r.Err? <==> Nullish in Items(out))
    ensures !out.NotObject? && r.Err? ==> r.error == NullPropertyAccess
    ensures !out.NotObject? && r.Ok? ==> r.value == Clean(Items(out), required, st)
    ensures out.Single? && out.item.Obj? ==>
      r == Ok(if Survives(out.item, required) then [Stamped(out.item.fields, st)] else [])
  {
    match out
    case NotObject(typeName) => Err(InvalidResultType(typeName))
    case Single(item) =>
      assert [item][..0] == [];
      assert Clean([item], required, st)
        == Clean([], required, st) + (if Survives(item, required) then [Stamped(item.fields, st)] else []);
      assert Clean([item], required, st) == (if Survives(item, required) then [Stamped(item.fields, st)] else []);
      if item.Nullish? then Err(NullPropertyAccess) else Ok(Clean([item], required, st))
    case Many(items) =>
      if Nullish in items then Err(NullPropertyAccess) else Ok(Clean(items, required, st))
  }

  /** The record pushed for a request that failed too many times: only the
      request debug descriptor. */
  function FailedRequestRecord(debugInfo: Value): (r: Record)
    ensures r.Keys == {"#debug"}
    ensures r["#debug"] == debugInfo
  {
    map["#debug" := debugInfo]
  }

  /** Page records and failed-request records are told apart in the dataset:
      every record the page handler pushes has its own `url`, `crawledBy` and
      `crawledAt`, so none of them is a failed-request record. */
  lemma FailedRequestRecordDistinct(debugInfo: Value, items: seq<Item>, required: set<string>, st: Stamp)
    ensures forall r :: r in Clean(items, required, st) ==> "url" in r && "crawledBy" in r && "crawledAt" in r
    ensures FailedRequestRecord(debugInfo) !in Clean(items, required, st)
  {
    CleanMembers(items, required, st);
  }
}
