/** The page plan shared by every fetcher (Project02/Spotify/SpotifyFetcher.cs,
    Project01/Spotify/SpotifyFetcher.cs, Project03/Yelp/YelpFetcher.cs) and the two merge
    policies found there: ordered and fail-as-a-whole (`Task.WhenAll`), or a bag that
    swallows failed pages (`ConcurrentBag` + `CountdownEvent`). Each page request is an
    abstract function of the offset; the model runs the jobs one after another. */
module Pagination {
  import opened Results

  /** `limitSize`, and the literal 50 of the album fetchers. */
  const PageSize: int := 50

  /** The part of one upstream response the fetchers use (`FetchResult<T>`). */
  datatype Page<T> = Page(total: int, items: seq<T>)

  /** The upstream at a fixed query: offset to page, or the exception's message. */
  type PageSource<T> = int -> Result<Page<T>>

  /** `(int)Math.Ceiling((double)(total - 50) / 50)` extra requests when `total > 50`. */
  function RequestCount(total: int): (n: nat)
    ensures total <= PageSize ==> n == 0
    ensures total > PageSize ==> n >= 1 && (n - 1) * PageSize < total - PageSize <= n * PageSize
  {
    if total <= PageSize then 0 else (total - PageSize + PageSize - 1) / PageSize
  }

  /** The offsets of the extra requests: `i * 50` for `i = 1 .. RequestCount(total)`. */
  function ExtraOffsets(total: int): (offsets: seq<int>)
    ensures |offsets| == RequestCount(total)
    ensures forall i :: 0 <= i < |offsets| ==> offsets[i] == (i + 1) * PageSize
  {
    seq(RequestCount(total), i => (i + 1) * PageSize)
  }

  /** Together with the first page at offset 0, the planned 50-wide windows are
      increasing, disjoint, all start below `total`, and cover `[0, total)`. */
  lemma PlanCoversTotal(total: int)
    ensures forall i :: 0 <= i < |ExtraOffsets(total)| ==> PageSize <= ExtraOffsets(total)[i] < total
    ensures forall i, j :: 0 <= i < j < |ExtraOffsets(total)| ==>
      ExtraOffsets(total)[i] + PageSize <= ExtraOffsets(total)[j]
    ensures total > PageSize ==> ExtraOffsets(total)[|ExtraOffsets(total)| - 1] + PageSize >= total
    ensures forall x :: PageSize <= x < total ==>
      && 0 <= x / PageSize - 1 < |ExtraOffsets(total)|
      && ExtraOffsets(total)[x / PageSize - 1] <= x < ExtraOffsets(total)[x / PageSize - 1] + PageSize
  {
    var offsets := ExtraOffsets(total);
    var n := |offsets|;
    forall i | 0 <= i < n
      ensures PageSize <= offsets[i] < total
    {
      assert offsets[i] == (i + 1) * PageSize <= n * PageSize;
    }
    forall x | PageSize <= x < total
      ensures 0 <= x / PageSize - 1 < n
    {
      assert (x / PageSize) * PageSize <= x;
      assert x - PageSize < n * PageSize;
    }
  }

  predicate AllSucceed<T>(source: PageSource<T>, offsets: seq<int>)
  {
    forall i :: 0 <= i < |offsets| ==> source(offsets[i]).Ok?
  }

  /** The items of the pages at `offsets`, concatenated in offset order. */
  function ConcatPages<T>(source: PageSource<T>, offsets: seq<int>): seq<T>
    requires AllSucceed(source, offsets)
  {
    if offsets == [] then []
    else ConcatPages(source, offsets[..|offsets| - 1]) + source(offsets[|offsets| - 1]).value.items
  }

  /** The message of the first failing page in offset order. */
  function FirstError<T>(source: PageSource<T>, offsets: seq<int>): string
    requires !AllSucceed(source, offsets)
  {
    if source(offsets[0]).Err? then source(offsets[0]).error else FirstError(source, offsets[1..])
  }

  /** The multiset of the items of every page at `offsets` that succeeded. */
  function SucceededItems<T>(source: PageSource<T>, offsets: seq<int>): multiset<T>
  {
    if offsets == [] then multiset{}
    else
      SucceededItems(source, offsets[..|offsets| - 1])
      + match source(offsets[|offsets| - 1])
        case Ok(page) => multiset(page.items)
        case Err(_) => multiset{}
  }

  /** What Project02's `FetchAll*` returns: the first page's items, then every extra
      page's items in offset order; any failure fails the whole call. */
  function InOrder<T>(source: PageSource<T>): Result<seq<T>>
  {
    match source(0)
    case Err(e) => Err(e)
    case Ok(first) =>
      if first.total <= PageSize then Ok(first.items)
      else if AllSucceed(source, ExtraOffsets(first.total)) then
        Ok(first.items + ConcatPages(source, ExtraOffsets(first.total)))
      else Err(FirstError(source, ExtraOffsets(first.total)))
  }

  /** What the bag fetchers return, as a multiset: a failure of the first page
      propagates; later failures only lose that page's items. */
  function AsBag<T>(source: PageSource<T>): Result<multiset<T>>
  {
    match source(0)
    case Err(e) => Err(e)
    case Ok(first) => Ok(multiset(first.items) + SucceededItems(source, ExtraOffsets(first.total)))
  }

  /** The concatenation of a bag's lists (`SelectMany`), in the order the model added them. */
  function Flatten<T>(batches: seq<seq<T>>): seq<T>
  {
    if batches == [] then [] else Flatten(batches[..|batches| - 1]) + batches[|batches| - 1]
  }

  lemma {:induction false} FirstErrorAt<T>(source: PageSource<T>, offsets: seq<int>, k: nat)
    requires k < |offsets| && source(offsets[k]).Err?
    requires forall j :: 0 <= j < k ==> source(offsets[j]).Ok?
    ensures !AllSucceed(source, offsets) && FirstError(source, offsets) == source(offsets[k]).error
  {
    if k > 0 {
      FirstErrorAt(source, offsets[1..], k - 1);
    }
  }

  /** `AllSucceed` split at either end of the offset list. */
  lemma AllSucceedEnds<T>(source: PageSource<T>, offsets: seq<int>)
    requires offsets != []
    ensures AllSucceed(source, offsets)
        <==> AllSucceed(source, offsets[..|offsets| - 1]) && source(offsets[|offsets| - 1]).Ok?
    ensures AllSucceed(source, offsets) <==> source(offsets[0]).Ok? && AllSucceed(source, offsets[1..])
  {
    assert forall i :: 0 <= i < |offsets| - 1 ==> offsets[..|offsets| - 1][i] == offsets[i];
    assert forall i :: 1 <= i < |offsets| ==> offsets[1..][i - 1] == offsets[i];
  }

  /** Sources that agree on a list of offsets succeed and fail on it alike. */
  lemma {:induction false} AgreeingSucceed<T>(s1: PageSource<T>, s2: PageSource<T>, offsets: seq<int>)
    requires forall i :: 0 <= i < |offsets| ==> s1(offsets[i]) == s2(offsets[i])
    ensures AllSucceed(s1, offsets) == AllSucceed(s2, offsets)
    ensures !AllSucceed(s1, offsets) ==> FirstError(s1, offsets) == FirstError(s2, offsets)
  {
    if offsets != [] {
      assert forall i :: 1 <= i < |offsets| ==> offsets[1..][i - 1] == offsets[i];
      AgreeingSucceed(s1, s2, offsets[1..]);
      AllSucceedEnds(s1, offsets);
      AllSucceedEnds(s2, offsets);
    }
  }

  /** Sources that agree on a list of offsets give the same items there. */
  lemma {:induction false} AgreeingItems<T>(s1: PageSource<T>, s2: PageSource<T>, offsets: seq<int>)
    requires forall i :: 0 <= i < |offsets| ==> s1(offsets[i]) == s2(offsets[i])
    ensures AllSucceed(s1, offsets) && AllSucceed(s2, offsets) ==> ConcatPages(s1, offsets) == ConcatPages(s2, offsets)
    ensures SucceededItems(s1, offsets) == SucceededItems(s2, offsets)
  {
    if offsets != [] {
      var init := offsets[..|offsets| - 1];
      assert forall i :: 0 <= i < |init| ==> init[i] == offsets[i];
      AgreeingItems(s1, s2, init);
      AllSucceedEnds(s1, offsets);
      AllSucceedEnds(s2, offsets);
    }
  }

  /** The ordered fetch requests nothing but page 0 and the planned offsets, and takes the
      total from page 0 alone: two upstreams that agree there give the same result. With
      `total <= 50` the plan is empty, so only page 0 matters. */
  lemma InOrderReadsOnlyPlan<T>(s1: PageSource<T>, s2: PageSource<T>)
    requires s1(0) == s2(0)
    requires s1(0).Ok? ==> forall o :: o in ExtraOffsets(s1(0).value.total) ==> s1(o) == s2(o)
    ensures InOrder(s1) == InOrder(s2)
  {
    if s1(0).Ok? {
      var offsets := ExtraOffsets(s1(0).value.total);
      assert forall i :: 0 <= i < |offsets| ==> offsets[i] in offsets;
      AgreeingSucceed(s1, s2, offsets);
      AgreeingItems(s1, s2, offsets);
    }
  }

  /** The same for the bag fetch. */
  lemma AsBagReadsOnlyPlan<T>(s1: PageSource<T>, s2: PageSource<T>)
    requires s1(0) == s2(0)
    requires s1(0).Ok? ==> forall o :: o in ExtraOffsets(s1(0).value.total) ==> s1(o) == s2(o)
    ensures AsBag(s1) == AsBag(s2)
  {
    if s1(0).Ok? {
      var offsets := ExtraOffsets(s1(0).value.total);
      assert forall i :: 0 <= i < |offsets| ==> offsets[i] in offsets;
      AgreeingSucceed(s1, s2, offsets);
      AgreeingItems(s1, s2, offsets);
    }
  }

  /** When no page fails, the bag holds exactly the items of the ordered result. */
  lemma {:induction false} SucceededItemsOfConcat<T>(source: PageSource<T>, offsets: seq<int>)
    requires AllSucceed(source, offsets)
    ensures SucceededItems(source, offsets) == multiset(ConcatPages(source, offsets))
  {
    if offsets != [] {
      var init := offsets[..|offsets| - 1];
      assert AllSucceed(source, init);
      SucceededItemsOfConcat(source, init);
    }
  }

  /** The two policies agree, up to order, whenever the ordered one succeeds. */
  lemma BagAgreesWithInOrder<T>(source: PageSource<T>)
    requires InOrder(source).Ok?
    ensures AsBag(source) == Ok(multiset(InOrder(source).value))
  {
    var first := source(0).value;
    var offsets := ExtraOffsets(first.total);
    if first.total <= PageSize {
      assert offsets == [];
      assert multiset(first.items) + multiset{} == multiset(first.items);
    } else {
      SucceededItemsOfConcat(source, offsets);
    }
  }

  /** Page 0 and the extra offsets: every request a fetch makes for this total. */
  function PlannedOffsets(total: int): seq<int>
  {
    [0] + ExtraOffsets(total)
  }

  /** The items `[offset, offset + 50)` of `all`, cut at its end. */
  function Window<T>(all: seq<T>, offset: int): seq<T>
    requires 0 <= offset <= |all|
  {
    all[offset .. if offset + PageSize <= |all| then offset + PageSize else |all|]
  }

  /** An upstream that holds the result list `all` and answers every planned request with
      the true total and the matching window. */
  ghost predicate Serves<T>(source: PageSource<T>, all: seq<T>)
  {
    forall o :: o in PlannedOffsets(|all|) ==>
      0 <= o <= |all| && source(o) == Ok(Page(|all|, Window(all, o)))
  }

  lemma {:induction false} ConcatOfServedPrefix<T>(source: PageSource<T>, all: seq<T>, j: nat)
    requires Serves(source, all) && |all| > PageSize
    requires j <= |ExtraOffsets(|all|)|
    ensures AllSucceed(source, ExtraOffsets(|all|)[..j])
    ensures (j + 1) * PageSize <= |all| ==> ConcatPages(source, ExtraOffsets(|all|)[..j]) == all[PageSize .. (j + 1) * PageSize]
    ensures (j + 1) * PageSize > |all| ==> ConcatPages(source, ExtraOffsets(|all|)[..j]) == all[PageSize ..]
  {
    if j > 0 {
      var offsets := ExtraOffsets(|all|);
      ConcatOfServedPrefix(source, all, j - 1);
      var o := offsets[j - 1];
      assert o == j * PageSize < |all|;
      assert PlannedOffsets(|all|)[j] == o;
      assert source(o) == Ok(Page(|all|, Window(all, o)));
      ConcatPagesSnoc(source, offsets, j - 1);
      var hi := if (j + 1) * PageSize <= |all| then (j + 1) * PageSize else |all|;
      SliceJoin(all, PageSize, o, hi);
    }
  }

  /** Fan-out completeness: against a consistent upstream the ordered fetch returns the
      whole result list, each item once and in order. */
  lemma InOrderReassembles<T>(source: PageSource<T>, all: seq<T>)
    requires Serves(source, all)
    ensures InOrder(source) == Ok(all)
  {
    assert PlannedOffsets(|all|)[0] == 0;
    var offsets := ExtraOffsets(|all|);
    if |all| <= PageSize {
      assert source(0) == Ok(Page(|all|, all[0..|all|]));
      assert all[0..|all|] == all;
    } else {
      assert source(0) == Ok(Page(|all|, all[0..PageSize]));
      ServedPlanReassembles(source, all);
      assert InOrder(source) == Ok(all[0..PageSize] + ConcatPages(source, offsets));
      assert all[0..PageSize] + all[PageSize..] == all;
    }
  }

  lemma ServedPlanReassembles<T>(source: PageSource<T>, all: seq<T>)
    requires Serves(source, all) && |all| > PageSize
    ensures AllSucceed(source, ExtraOffsets(|all|))
    ensures ConcatPages(source, ExtraOffsets(|all|)) == all[PageSize..]
  {
    var offsets := ExtraOffsets(|all|);
    ConcatOfServedPrefix(source, all, |offsets|);
    assert offsets[..|offsets|] == offsets;
    assert (|offsets| + 1) * PageSize >= |all|;
    if (|offsets| + 1) * PageSize == |all| {
      assert all[PageSize .. (|offsets| + 1) * PageSize] == all[PageSize..];
    }
  }

  /** Fan-out completeness for the bag fetch: every item, with its multiplicity. */
  lemma AsBagReassembles<T>(source: PageSource<T>, all: seq<T>)
    requires Serves(source, all)
    ensures AsBag(source) == Ok(multiset(all))
  {
    InOrderReassembles(source, all);
    BagAgreesWithInOrder(source);
  }

  /** The `for` loop of the ordered fetchers: one request per extra offset, in order. */
  method RequestExtraPages<T>(source: PageSource<T>, requests: nat) returns (tasks: seq<Result<Page<T>>>)
    ensures |tasks| == requests
    ensures forall j :: 0 <= j < requests ==> tasks[j] == source((j + 1) * PageSize)
  {
    tasks := [];
    var i := 1;
    while i <= requests
      invariant 1 <= i <= requests + 1
      invariant |tasks| == i - 1
      invariant forall j :: 0 <= j < |tasks| ==> tasks[j] == source((j + 1) * PageSize)
    {
      var offset := i * PageSize;
      tasks := tasks + [source(offset)];
      i := i + 1;
    }
  }

  /** Project02/Spotify/SpotifyFetcher.cs `FetchAllTracks`: request page 0, plan from its
      total, queue the extra requests in a `for` loop, `await Task.WhenAll`, then append
      each page's items in task order. */
  method FetchAllInOrder<T>(source: PageSource<T>) returns (r: Result<seq<T>>)
    ensures r == InOrder(source)
  {
    var initial := source(0);
    if initial.Err? {
      return Err(initial.error);
    }
    var total := initial.value.total;
    var all := initial.value.items;
    if total <= PageSize {
      return Ok(all);
    }
    var remaining := total - PageSize;
    var requests := (remaining + PageSize - 1) / PageSize;
    ghost var offsets := ExtraOffsets(total);

    var tasks := RequestExtraPages(source, requests);
    assert requests == RequestCount(total);
    assert forall j :: 0 <= j < |tasks| ==> tasks[j] == source(offsets[j]);

    var k := 0;
    while k < |tasks|
      invariant 0 <= k <= |tasks|
      invariant forall j :: 0 <= j < k ==> tasks[j].Ok?
    {
      if tasks[k].Err? {
        FirstErrorAt(source, offsets, k);
        return Err(tasks[k].error);
      }
      k := k + 1;
    }

    k := 0;
    while k < |tasks|
      invariant 0 <= k <= |tasks|
      invariant AllSucceed(source, offsets[..k])
      invariant all == initial.value.items + ConcatPages(source, offsets[..k])
    {
      ConcatPagesSnoc(source, offsets, k);
      all := all + tasks[k].value.items;
      k := k + 1;
    }
    assert offsets[..k] == offsets;
    return Ok(all);
  }

  lemma SliceJoin<T>(s: seq<T>, lo: int, mid: int, hi: int)
    requires 0 <= lo <= mid <= hi <= |s|
    ensures s[lo..mid] + s[mid..hi] == s[lo..hi]
  {
  }

  /** One more offset whose page succeeded appends that page's items. */
  lemma ConcatPagesSnoc<T>(source: PageSource<T>, offsets: seq<int>, k: nat)
    requires k < |offsets| && AllSucceed(source, offsets[..k]) && source(offsets[k]).Ok?
    ensures AllSucceed(source, offsets[..k + 1])
    ensures ConcatPages(source, offsets[..k + 1]) == ConcatPages(source, offsets[..k]) + source(offsets[k]).value.items
  {
    assert offsets[..k + 1][..k] == offsets[..k];
  }

  lemma FlattenSnoc<T>(batches: seq<seq<T>>, batch: seq<T>)
    ensures Flatten(batches + [batch]) == Flatten(batches) + batch
  {
    assert (batches + [batch])[..|batches|] == batches;
  }

  /** One more offset adds the items of its page, when that page succeeded. */
  lemma SucceededItemsSnoc<T>(source: PageSource<T>, offsets: seq<int>, i: nat)
    requires i < |offsets|
    ensures SucceededItems(source, offsets[..i + 1]) == SucceededItems(source, offsets[..i])
      + if source(offsets[i]).Ok? then multiset(source(offsets[i]).value.items) else multiset{}
  {
    assert offsets[..i + 1][..i] == offsets[..i];
  }

  /** The jobs of the bag fetchers, one per extra offset: each adds its page's items to
      the bag or swallows its failure, and signals the countdown either way; the loop ends
      when the countdown reaches zero. */
  method RunBagJobs<T>(source: PageSource<T>, total: int, requests: nat, bag: seq<seq<T>>)
    returns (result: seq<seq<T>>)
    requires requests == RequestCount(total)
    ensures multiset(Flatten(result)) == multiset(Flatten(bag)) + SucceededItems(source, ExtraOffsets(total))
  {
    ghost var offsets := ExtraOffsets(total);
    result := bag;
    assert offsets[..0] == [];
    var countdown: nat := requests;
    var i := 1;
    while i <= requests
      invariant 1 <= i <= requests + 1
      invariant countdown == requests - (i - 1)
      invariant multiset(Flatten(result)) == multiset(Flatten(bag)) + SucceededItems(source, offsets[..i - 1])
    {
      var offset := i * PageSize;
      SucceededItemsSnoc(source, offsets, i - 1);
      var batch := source(offset);
      if batch.Ok? {
        FlattenSnoc(result, batch.value.items);
        result := result + [batch.value.items];
      }
      countdown := countdown - 1;
      i := i + 1;
    }
    assert countdown == 0;
    assert offsets[..i - 1] == offsets;
  }

  /** Project01/Spotify/SpotifyFetcher.cs and Project03/Yelp/YelpFetcher.cs: request page 0
      (its failure propagates), plan from its total, run one job per extra offset that adds
      its page to the bag or swallows its failure and always signals the countdown, wait
      for the countdown, then flatten the bag. */
  method FetchAllIntoBag<T>(source: PageSource<T>) returns (r: Result<seq<T>>)
    ensures r.Ok? <==> source(0).Ok?
    ensures r.Err? ==> r.error == source(0).error
    ensures r.Ok? ==> AsBag(source) == Ok(multiset(r.value))
  {
    var initial := source(0);
    if initial.Err? {
      return Err(initial.error);
    }
    var total := initial.value.total;
    var result: seq<seq<T>> := [initial.value.items];
    assert Flatten(result) == initial.value.items by {
      assert result[..0] == [];
    }
    if total <= PageSize {
      assert ExtraOffsets(total) == [];
      assert SucceededItems(source, ExtraOffsets(total)) == multiset{};
      assert multiset(initial.value.items) + multiset{} == multiset(initial.value.items);
      return Ok(Flatten(result));
    }
    var remaining := total - PageSize;
    var requests := (remaining + PageSize - 1) / PageSize;
    result := RunBagJobs(source, total, requests, result);
    return Ok(Flatten(result));
  }
}
