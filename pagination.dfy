/** backend/app/models/api.py: `PaginatedResponse.paginate`, one page of a result
    list with links to its neighbours. */
module Pagination {
  import opened Wrappers
  import opened Text

  /** The response body: the full count, the neighbour links and this page's items. */
  datatype Page<T> = Page(count: nat, next: Option<string>, previous: Option<string>, results: seq<T>)

  function Min(a: int, b: int): int {
    if a <= b then a else b
  }

  function Max(a: int, b: int): int {
    if a <= b then b else a
  }

  /** Python's slice `xs[start:end]` for `0 <= start <= end`: clamped to the list. */
  function Slice<T>(xs: seq<T>, start: nat, end: nat): (r: seq<T>)
    requires start <= end
    ensures |r| == Max(0, Min(end, |xs|) - start)
    ensures forall k :: 0 <= k < |r| ==> r[k] == xs[start + k]
  {
    if start >= |xs| then [] else xs[start..Min(end, |xs|)]
  }

  /** `f"{base_url}?page={page}&pageSize={pageSize}"` */
  function PageLink(baseUrl: string, page: nat, pageSize: nat): string {
    baseUrl + "?page=" + NatToString(page) + "&pageSize=" + NatToString(pageSize)
  }

  /** `PaginatedResponse.paginate(results, page, pageSize, url)` */
  function Paginate<T>(results: seq<T>, page: nat, pageSize: nat, url: string): (p: Page<T>)
    ensures p.count == |results|
    ensures p.next.Some? <==> page * pageSize + pageSize < |results|
    ensures p.previous.Some? <==> page > 0
  {
    var count := |results|;
    var start := page * pageSize;
    var end := start + pageSize;
    var baseUrl := BeforeFirst(url, '?');
    var next := if end < count then Some(PageLink(baseUrl, page + 1, pageSize)) else None;
    var previous := if page > 0 then Some(PageLink(baseUrl, page - 1, pageSize)) else None;
    Page(count, next, previous, Slice(results, start, end))
  }

  // ------------------------------------------------------------ properties

  /** The page holds the `pageSize` items starting at `page * pageSize`, cut short
      at the end of the list, and nothing past the end. */
  lemma PageContents<T>(results: seq<T>, page: nat, pageSize: nat, url: string)
    ensures var p := Paginate(results, page, pageSize, url);
      |p.results| == Max(0, Min(pageSize, |results| - page * pageSize))
      && forall k :: 0 <= k < |p.results| ==> p.results[k] == results[page * pageSize + k]
  {
  }

  /** A page that links onwards is full. */
  lemma NextMeansFullPage<T>(results: seq<T>, page: nat, pageSize: nat, url: string)
    requires Paginate(results, page, pageSize, url).next.Some?
    ensures |Paginate(results, page, pageSize, url).results| == pageSize
  {
    PageContents(results, page, pageSize, url);
  }

  /** Past the end of the list the page is empty, yet it still links back. */
  lemma PastTheEndLinksBack<T>(results: seq<T>, page: nat, pageSize: nat, url: string)
    requires page > 0 && page * pageSize >= |results|
    ensures Paginate(results, page, pageSize, url).results == []
    ensures Paginate(results, page, pageSize, url).next == None
    ensures Paginate(results, page, pageSize, url).previous.Some?
  {
  }

  /** The links keep the request's path and drop its query, and name the
      neighbouring page with the same page size. */
  lemma LinksNameNeighbours<T>(results: seq<T>, page: nat, pageSize: nat, url: string)
    ensures var p := Paginate(results, page, pageSize, url);
      (p.next.Some? ==> p.next.value == PageLink(BeforeFirst(url, '?'), page + 1, pageSize))
      && (p.previous.Some? ==> p.previous.value == PageLink(BeforeFirst(url, '?'), page - 1, pageSize))
  {
  }

  /** Cutting at the first `?` of a path that has none followed by `?` and a query
      gives back the path. */
  lemma {:induction false} BeforeFirstOfQuery(baseUrl: string, query: string)
    requires '?' !in baseUrl
    ensures BeforeFirst(baseUrl + "?" + query, '?') == baseUrl
  {
    if baseUrl != [] {
      assert (baseUrl + "?" + query)[1..] == baseUrl[1..] + "?" + query;
      BeforeFirstOfQuery(baseUrl[1..], query);
    }
  }

  /** Following a link and paginating again keeps the same path: links never pile
      up query strings. */
  lemma LinkKeepsPath(url: string, page: nat, pageSize: nat)
    ensures BeforeFirst(PageLink(BeforeFirst(url, '?'), page, pageSize), '?') == BeforeFirst(url, '?')
  {
    var b := BeforeFirst(url, '?');
    var q := "page=" + NatToString(page) + "&pageSize=" + NatToString(pageSize);
    assert PageLink(b, page, pageSize) == b + "?" + q;
    BeforeFirstOfQuery(b, q);
  }

  /** The page number in a link reads back as the page it names. */
  lemma LinkPageReadsBack(baseUrl: string, page: nat, pageSize: nat)
    ensures var digits := NatToString(page);
      PageLink(baseUrl, page, pageSize) == baseUrl + "?page=" + digits + "&pageSize=" + NatToString(pageSize)
      && DecimalValue(digits) == page
  {
    DecimalRoundTrip(page);
  }

  /** The items of pages `0 .. k-1`, one after the other. */
  function PagesUpTo<T>(results: seq<T>, k: nat, pageSize: nat, url: string): seq<T> {
    if k == 0 then [] else PagesUpTo(results, k - 1, pageSize, url) + Paginate(results, k - 1, pageSize, url).results
  }

  /** A page is the slice of the list between its clamped bounds. */
  lemma PageIsSlice<T>(results: seq<T>, page: nat, pageSize: nat, url: string, start: nat)
    requires start == page * pageSize
    ensures Paginate(results, page, pageSize, url).results == results[Min(start, |results|)..Min(start + pageSize, |results|)]
  {
  }

  lemma PreviousPageStart(k: nat, pageSize: nat)
    requires k > 0
    ensures 0 <= (k - 1) * pageSize && k * pageSize == (k - 1) * pageSize + pageSize
  {
  }

  lemma SplitPrefix<T>(xs: seq<T>, i: nat, j: nat)
    requires i <= j <= |xs|
    ensures xs[..j] == xs[..i] + xs[i..j]
  {
  }

  /** With a positive page size the first `k` pages are disjoint and together list
      the first `k * pageSize` items, in their original order. */
  lemma {:induction false} PagesTileThePrefix<T>(results: seq<T>, k: nat, pageSize: nat, url: string)
    requires pageSize > 0
    ensures PagesUpTo(results, k, pageSize, url) == results[..Min(k * pageSize, |results|)]
  {
    if k > 0 {
      PagesTileThePrefix(results, k - 1, pageSize, url);
      PreviousPageStart(k, pageSize);
      var start := (k - 1) * pageSize;
      PageIsSlice(results, k - 1, pageSize, url, start);
      SplitPrefix(results, Min(start, |results|), Min(start + pageSize, |results|));
    }
  }
}
