/** The Algolia side (src/algolia_index.js): reading back every record a
    crawler owns (`browseAll`) and applying a precomputed diff as index
    operations (`update`). The remote index is modelled as the log of the
    operations issued to it. */
module AlgoliaIndex {
  import opened JsValues

  /** The parameters `browseAll` passes to `browseObjects`. */
  datatype BrowseParams = BrowseParams(query: string, filters: string, attributesForFaceting: seq<string>)

  /** What browsing delivers: the batches handed to the `batch` callback, in
      delivery order, and whether the call then failed. */
  datatype BrowseResponse = BrowseResponse(batches: seq<seq<Record>>, failed: bool)

  /** The filter that selects the records of one crawler. */
  const FILTER_PREFIX := "crawledBy:"

  /** All batches, concatenated in delivery order. */
  function Concat(batches: seq<seq<Record>>): seq<Record>
    decreases |batches|
  {
    if batches == [] then []
    else Concat(batches[..|batches| - 1]) + batches[|batches| - 1]
  }

  /** Concatenation respects the split of the delivery into parts. */
  lemma {:induction false} ConcatAppend(a: seq<seq<Record>>, b: seq<seq<Record>>)
    ensures Concat(a + b) == Concat(a) + Concat(b)
    decreases |b|
  {
    if b == [] {
      assert a + b == a;
    } else {
      var init := b[..|b| - 1];
      assert (a + b)[..|a + b| - 1] == a + init;
      ConcatAppend(a, init);
    }
  }

  /** Nothing is dropped and nothing is invented: a record is in the
      concatenation exactly when it is in some batch. */
  lemma {:induction false} ConcatMembers(batches: seq<seq<Record>>, r: Record)
    ensures r in Concat(batches) <==> exists i :: 0 <= i < |batches| && r in batches[i]
    decreases |batches|
  {
    if batches != [] {
      var n := |batches| - 1;
      ConcatMembers(batches[..n], r);
      assert forall i :: 0 <= i < n ==> batches[..n][i] == batches[i];
    }
  }

  /** `browseAll`: browses with an empty query, filtered to `crawledBy:<crawledBy>`
      and faceting on `crawledBy`; the records of all batches are accumulated in
      delivery order, and a failure makes the result the empty list. */
  method BrowseAll(crawledBy: string, response: BrowseResponse) returns (params: BrowseParams, items: seq<Record>)
    ensures params.query == ""
    ensures params.filters == FILTER_PREFIX + crawledBy
    ensures params.attributesForFaceting == ["crawledBy"]
    ensures response.failed ==> items == []
    ensures !response.failed ==> items == Concat(response.batches)
  {
    params := BrowseParams("", FILTER_PREFIX + crawledBy, ["crawledBy"]);
    items := [];
    var batches := response.batches;
    for i := 0 to |batches|
      invariant items == Concat(batches[..i])
    {
      assert batches[..i + 1][..i] == batches[..i];
      items := items + batches[i];
    }
    assert batches[..|batches|] == batches;
    if response.failed {
      return params, [];
    }
  }

  /** A JavaScript object holding pages, as its entries in enumeration order
      (the order `Object.values` lists them in). */
  datatype Pages = Pages(entries: seq<(string, Record)>)

  /** `Object.values(pages)`. */
  function Values(pages: Pages): (vs: seq<Record>)
    ensures |vs| == |pages.entries|
    ensures forall i :: 0 <= i < |vs| ==> vs[i] == pages.entries[i].1
  {
    seq(|pages.entries|, i requires 0 <= i < |pages.entries| => pages.entries[i].1)
  }

  /** `pages.map(item => item.objectID)`. */
  function ObjectIds(pages: seq<Record>): (ids: seq<Value>)
    ensures |ids| == |pages|
    ensures forall i :: 0 <= i < |ids| ==> ids[i] == Get(pages[i], "objectID")
  {
    seq(|pages|, i requires 0 <= i < |pages| => Get(pages[i], "objectID"))
  }

  /** The diff to apply; an absent (`undefined` or `null`) member is `None`. */
  datatype PagesDiff = PagesDiff(pagesToAdd: Option<Pages>, pagesToUpdate: Option<Pages>, pagesToRemove: Option<Pages>)

  /** An operation issued to the index. */
  datatype IndexOp =
    | SaveObjects(objects: seq<Record>, autoGenerateObjectIDIfNotExist: bool)
    | DeleteObjects(objectIds: seq<Value>)

  /** `Object.values` of an absent member throws a TypeError. */
  datatype UpdateError = ValuesOfMissing(member: string)

  /** The operations `update` issues for a diff, and the error it ends with.
      The add save comes first, then the update save, then the delete; each is
      skipped when its set is empty. */
  datatype UpdatePlan = UpdatePlan(ops: seq<IndexOp>, error: Option<UpdateError>)

  /** Position of an operation kind in the fixed order add, update, remove. */
  function Rank(op: IndexOp): nat {
    match op
    case SaveObjects(_, auto) => if auto then 0 else 1
    case DeleteObjects(_) => 2
  }

  /** The `if (pages.length)` guard in front of each operation. */
  function IfNonEmpty(objects: seq<Record>, op: IndexOp): seq<IndexOp> {
    if |objects| > 0 then [op] else []
  }

  /** What `update` does for a diff: at most one operation of each kind, in
      the order add, update, remove; it fails exactly when `pagesToAdd` or
      `pagesToUpdate` is missing, and a missing `pagesToAdd` fails it before
      any operation. */
  function Plan(diff: PagesDiff): (p: UpdatePlan)
    ensures |p.ops| <= 3
    ensures forall i, j :: 0 <= i < j < |p.ops| ==> Rank(p.ops[i]) < Rank(p.ops[j])
    ensures p.error.None? <==> diff.pagesToAdd.Some? && diff.pagesToUpdate.Some?
    ensures diff.pagesToAdd.None? ==> p == UpdatePlan([], Some(ValuesOfMissing("pagesToAdd")))
  {
    match diff.pagesToAdd
    case None => UpdatePlan([], Some(ValuesOfMissing("pagesToAdd")))
    case Some(add) =>
      var adds := IfNonEmpty(Values(add), SaveObjects(Values(add), true));
      match diff.pagesToUpdate
      case None => UpdatePlan(adds, Some(ValuesOfMissing("pagesToUpdate")))
      case Some(upd) =>
        var updates := IfNonEmpty(Values(upd), SaveObjects(Values(upd), false));
        var removes :=
          if diff.pagesToRemove.None? then []
          else
            var rem := Values(diff.pagesToRemove.value);
            IfNonEmpty(rem, DeleteObjects(ObjectIds(rem)));
        UpdatePlan(adds + updates + removes, None)
  }

  /** The add save: issued only for a non-empty `pagesToAdd`, on exactly its
      values, with automatic object IDs. */
  lemma PlanAdd(diff: PagesDiff)
    ensures forall op :: op in Plan(diff).ops && Rank(op) == 0 ==>
      diff.pagesToAdd.Some? && |Values(diff.pagesToAdd.value)| > 0
      && op == SaveObjects(Values(diff.pagesToAdd.value), true)
    ensures diff.pagesToAdd.Some? && |Values(diff.pagesToAdd.value)| > 0 ==>
      SaveObjects(Values(diff.pagesToAdd.value), true) in Plan(diff).ops
  {
  }

  /** The update save: issued only for a non-empty `pagesToUpdate`, on exactly
      its values, without automatic object IDs. */
  lemma PlanUpdate(diff: PagesDiff)
    ensures forall op :: op in Plan(diff).ops && Rank(op) == 1 ==>
      diff.pagesToUpdate.Some? && |Values(diff.pagesToUpdate.value)| > 0
      && op == SaveObjects(Values(diff.pagesToUpdate.value), false)
    ensures diff.pagesToAdd.Some? && diff.pagesToUpdate.Some? && |Values(diff.pagesToUpdate.value)| > 0 ==>
      SaveObjects(Values(diff.pagesToUpdate.value), false) in Plan(diff).ops
  {
  }

  /** The delete: skipped when `pagesToRemove` is absent or empty, otherwise on
      the `objectID`s of its values, in value order. */
  lemma PlanRemove(diff: PagesDiff)
    ensures forall op :: op in Plan(diff).ops && Rank(op) == 2 ==>
      diff.pagesToRemove.Some? && |Values(diff.pagesToRemove.value)| > 0
      && op == DeleteObjects(ObjectIds(Values(diff.pagesToRemove.value)))
    ensures diff.pagesToAdd.Some? && diff.pagesToUpdate.Some? && diff.pagesToRemove.Some?
      && |Values(diff.pagesToRemove.value)| > 0
      ==> DeleteObjects(ObjectIds(Values(diff.pagesToRemove.value))) in Plan(diff).ops
  {
  }

  /** A diff whose sets are all empty issues no operation. */
  lemma EmptyDiffIssuesNothing(diff: PagesDiff)
    requires diff.pagesToAdd.Some? && |diff.pagesToAdd.value.entries| == 0
    requires diff.pagesToUpdate.Some? && |diff.pagesToUpdate.value.entries| == 0
    requires diff.pagesToRemove.None? || |diff.pagesToRemove.value.entries| == 0
    ensures Plan(diff) == UpdatePlan([], None)
  {
  }

  /** The remote index, as the log of operations issued to it. */
  class Index {
    var log: seq<IndexOp>

    constructor ()
      ensures log == []
    {
      log := [];
    }

    /** `index.saveObjects(objects, { autoGenerateObjectIDIfNotExist })`. */
    method SaveObjects(objects: seq<Record>, autoGenerateObjectIDIfNotExist: bool)
      modifies this
      ensures log == old(log) + [IndexOp.SaveObjects(objects, autoGenerateObjectIDIfNotExist)]
    {
      log := log + [IndexOp.SaveObjects(objects, autoGenerateObjectIDIfNotExist)];
    }

    /** `index.deleteObjects(objectIds)`. */
    method DeleteObjects(objectIds: seq<Value>)
      modifies this
      ensures log == old(log) + [IndexOp.DeleteObjects(objectIds)]
    {
      log := log + [IndexOp.DeleteObjects(objectIds)];
    }

    /** `update`: issues the add save, the update save and the delete, each
        only when its set is non-empty; a missing `pagesToAdd` or
        `pagesToUpdate` throws once the operations before it are issued. */
    method Update(diff: PagesDiff) returns (err: Option<UpdateError>)
      modifies this
      ensures log == old(log) + Plan(diff).ops
      ensures err == Plan(diff).error
    {
      if diff.pagesToAdd.None? {
        return Some(ValuesOfMissing("pagesToAdd"));
      }
      var pagesToAdd := Values(diff.pagesToAdd.value);
      if |pagesToAdd| > 0 {
        SaveObjects(pagesToAdd, true);
      }
      if diff.pagesToUpdate.None? {
        return Some(ValuesOfMissing("pagesToUpdate"));
      }
      var pagesToUpdate := Values(diff.pagesToUpdate.value);
      if |pagesToUpdate| > 0 {
        SaveObjects(pagesToUpdate, false);
      }
      if diff.pagesToRemove.Some? {
        var pagesToRemove := Values(diff.pagesToRemove.value);
        if |pagesToRemove| > 0 {
          DeleteObjects(ObjectIds(pagesToRemove));
        }
      }
      err := None;
    }
  }
}
