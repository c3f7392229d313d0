/** Pages of results (internal/resource/pagination.go). */
module Paging {
  import opened Prelude

  const DEFAULT_PAGE_SIZE := 20
  const MAX_PAGE_SIZE := 100

  datatype PageOptions = PageOptions(number: int, size: int)

  datatype Pagination = Pagination(current: int, previous: Option<int>, next: Option<int>, totalPages: int, totalCount: int)

  datatype Page<T> = Page(items: seq<T>, meta: Pagination)

  function Normalize(o: PageOptions): (r: PageOptions)
    ensures 1 <= r.number && 1 <= r.size <= MAX_PAGE_SIZE
    ensures 1 <= o.number && 1 <= o.size <= MAX_PAGE_SIZE ==> r == o
    ensures r.number == if o.number < 1 then 1 else o.number
    ensures r.size == if o.size <= 0 then 20 else if o.size > 100 then 100 else o.size
  {
    var number := if o.number < 1 then 1 else o.number;
    var size := if o.size <= 0 then DEFAULT_PAGE_SIZE else o.size;
    PageOptions(number, if size > MAX_PAGE_SIZE then MAX_PAGE_SIZE else size)
  }

  /** Division rounded up; the source goes through floating point. */
  function Ceiling(count: nat, size: int): nat
    requires size > 0
  {
    if count % size == 0 then count / size else count / size + 1
  }

  function NewPagination(o: PageOptions, count: nat): Pagination
    requires o.size > 0
  {
    var total := Max(1, Ceiling(count, o.size));
    Pagination(o.number,
               if o.number > 1 then Some(o.number - 1) else None,
               if o.number < total then Some(o.number + 1) else None,
               total, count)
  }

  /** With no count, `resources` is the full result set; with one, it is the segment that
      was asked for and the count is the size of the full set. */
  function NewPage<T>(resources: seq<T>, opts: PageOptions, count: Option<nat>): Page<T> {
    var o := Normalize(opts);
    if count.Some? then Page(resources, NewPagination(o, count.value))
    else
      var end := Product(o.size, o.number);
      var upTo := if |resources| > end then resources[..end] else resources;
      var start := Offset(o);
      Page(if start > |upTo| then [] else upTo[start..], NewPagination(o, |resources|))
  }

  function Offset(o: PageOptions): nat
    requires o.number >= 1 && o.size >= 1
  {
    Product(o.size, o.number - 1)
  }

  function Product(a: nat, b: nat): nat { a * b }

  lemma ProductStep(a: nat, b: nat)
    requires b >= 1
    ensures Product(a, b) == Product(a, b - 1) + a
  {
  }

  /** What a query with LIMIT and OFFSET returns. */
  function Segment<T>(list: seq<T>, opts: PageOptions): seq<T> {
    var o := Normalize(opts);
    var rest := list[Min(Offset(o), |list|)..];
    rest[..Min(o.size, |rest|)]
  }

  lemma SliceAgrees<T>(list: seq<T>, start: nat, size: nat)
    ensures var end := start + size;
            var upTo := if |list| > end then list[..end] else list;
            var rest := list[Min(start, |list|)..];
            (if start > |upTo| then [] else upTo[start..]) == rest[..Min(size, |rest|)]
  {
  }

  /** Paging in the database and paging a full list give the same page. */
  lemma SegmentAgrees<T>(list: seq<T>, opts: PageOptions)
    ensures NewPage(Segment(list, opts), opts, Some(|list|)) == NewPage(list, opts, None)
  {
    var o := Normalize(opts);
    var start := Offset(o);
    ProductStep(o.size, o.number);
    SliceAgrees(list, start, o.size);
    assert NewPage(list, opts, None).items == Segment(list, opts);
  }

  /** The first n pages, one after the other. */
  function FirstPages<T>(list: seq<T>, size: int, n: nat): seq<T> {
    if n == 0 then [] else FirstPages(list, size, n - 1) + NewPage(list, PageOptions(n, size), None).items
  }

  lemma PageItems<T>(list: seq<T>, size: int, n: int)
    requires 1 <= size <= MAX_PAGE_SIZE && n >= 1
    ensures Product(size, n) == Product(size, n - 1) + size
    ensures NewPage(list, PageOptions(n, size), None).items ==
            list[Min(Product(size, n - 1), |list|)..Min(Product(size, n), |list|)]
  {
    var start := Product(size, n - 1);
    ProductStep(size, n);
    SegmentAgrees(list, PageOptions(n, size));
    SliceAgrees(list, start, size);
  }

  lemma {:induction false} FirstPagesCover<T>(list: seq<T>, size: int, n: nat)
    requires 1 <= size <= MAX_PAGE_SIZE
    ensures FirstPages(list, size, n) == list[..Min(Product(size, n), |list|)]
  {
    if n > 0 {
      FirstPagesCover(list, size, n - 1);
      PageItems(list, size, n);
      Glue(list, Min(Product(size, n - 1), |list|), Min(Product(size, n), |list|));
    }
  }

  lemma Glue<T>(list: seq<T>, a: nat, b: nat)
    requires a <= b <= |list|
    ensures list[..a] + list[a..b] == list[..b]
  {
  }

  lemma CeilingIsLeast(count: nat, size: int)
    requires size > 0
    ensures size * Ceiling(count, size) >= count && (count > 0 ==> size * (Ceiling(count, size) - 1) < count)
  {
    assert count == size * (count / size) + count % size;
  }

  lemma PastTheEnd<T>(list: seq<T>, size: int, n: int, total: int)
    requires 1 <= size <= MAX_PAGE_SIZE && n > total >= 1 && size * total >= |list|
    ensures NewPage(list, PageOptions(n, size), None).items == []
  {
    MulMonotone(size, total, n - 1);
    PageItems(list, size, n);
  }

  lemma MulMonotone(a: int, b: int, c: int)
    requires a >= 0 && b <= c
    ensures a * b <= a * c
  {
    assert a * c - a * b == a * (c - b);
  }

  /** The pages partition the list: put together they are the list, there is one page for
      an empty list and otherwise no more pages than needed, and there is a next page
      exactly when there are more pages. */
  lemma PagesPartition<T>(list: seq<T>, size: int, n: int)
    requires 1 <= size <= MAX_PAGE_SIZE && n >= 1
    ensures var meta := NewPage(list, PageOptions(n, size), None).meta;
            && meta.totalPages >= 1 && meta.totalCount == |list| && meta.current == n
            && FirstPages(list, size, meta.totalPages) == list
            && size * meta.totalPages >= |list| && (list != [] ==> size * (meta.totalPages - 1) < |list|)
            && (meta.next == if n < meta.totalPages then Some(n + 1) else None)
            && (meta.previous == if n > 1 then Some(n - 1) else None)
            && (n > meta.totalPages ==> NewPage(list, PageOptions(n, size), None).items == [])
  {
    var meta := NewPagination(PageOptions(n, size), |list|);
    MetaOf(list, size, n);
    EnoughPages(list, size, n);
    if n > meta.totalPages {
      PastTheEnd(list, size, n, meta.totalPages);
    }
  }

  lemma MetaOf<T>(list: seq<T>, size: int, n: int)
    requires 1 <= size <= MAX_PAGE_SIZE && n >= 1
    ensures NewPage(list, PageOptions(n, size), None).meta == NewPagination(PageOptions(n, size), |list|)
  {
  }

  lemma EnoughPages<T>(list: seq<T>, size: int, n: int)
    requires 1 <= size <= MAX_PAGE_SIZE
    ensures var total := NewPagination(PageOptions(n, size), |list|).totalPages;
            && size * total >= |list| && (list != [] ==> size * (total - 1) < |list|)
            && FirstPages(list, size, total) == list
  {
    var total := NewPagination(PageOptions(n, size), |list|).totalPages;
    TotalPages(|list|, size);
    FirstPagesCover(list, size, total);
    assert list[..|list|] == list;
  }

  lemma TotalPages(count: nat, size: int)
    requires size > 0
    ensures var total := Max(1, Ceiling(count, size));
            size * total >= count && (count > 0 ==> size * (total - 1) < count)
  {
    CeilingIsLeast(count, size);
  }

  /** fn serves the pages of a list, in either of the two ways, when it does not fail. */
  ghost predicate Serves<T>(fn: PageOptions -> Result<Page<T>>, list: seq<T>) {
    forall o :: fn(o).Ok? ==> fn(o).value == NewPage(list, o, None) || fn(o).value == NewPage(Segment(list, o), o, Some(|list|))
  }

  datatype Listing<T> = All(items: seq<T>) | FetchFailed(error: string) | InfinitePagination

  /** The pages that ListAll asks for. */
  predicate Asked<T>(list: seq<T>, o: PageOptions) {
    o.size == MAX_PAGE_SIZE && (o.number == 0 || (o.number > 1 && MAX_PAGE_SIZE * (o.number - 1) < |list|))
  }

  /** ListAll terminates and returns the whole list, unless fetching one of its pages fails;
      it never reports infinite pagination. */
  method ListAll<T>(fn: PageOptions -> Result<Page<T>>, ghost list: seq<T>) returns (r: Listing<T>)
    requires Serves(fn, list)
    ensures r.All? ==> r.items == list
    ensures r.FetchFailed? ==> exists o :: Asked(list, o) && fn(o) == Err(r.error)
    ensures !r.InfinitePagination?
    ensures (forall o :: Asked(list, o) ==> fn(o).Ok?) ==> r == All(list)
  {
    var opts := PageOptions(0, MAX_PAGE_SIZE);
    var all := [];
    var lastNextPage := 0;
    while true
      invariant opts.size == MAX_PAGE_SIZE && 0 <= opts.number == lastNextPage && (opts.number == 0 || opts.number > 1)
      invariant var done := MAX_PAGE_SIZE * (Max(opts.number, 1) - 1);
                (done == 0 || done < |list|) && all == list[..done]
      decreases |list| - MAX_PAGE_SIZE * opts.number
    {
      var fetched := fn(opts);
      if fetched.Err? {
        assert Asked(list, opts);
        return FetchFailed(fetched.error);
      }
      var page := fetched.value;
      SegmentAgrees(list, opts);
      assert page == NewPage(list, opts, None);
      CeilingIsLeast(|list|, MAX_PAGE_SIZE);
      ghost var done := MAX_PAGE_SIZE * (Max(opts.number, 1) - 1);
      assert page.items == list[done..Min(done + MAX_PAGE_SIZE, |list|)];
      all := all + page.items;
      assert all == list[..Min(done + MAX_PAGE_SIZE, |list|)];
      if page.meta.next == None {
        assert Min(done + MAX_PAGE_SIZE, |list|) == |list|;
        assert all == list;
        break;
      }
      if page.meta.next.value == lastNextPage {
        return InfinitePagination; // never reached
      }
      opts := opts.(number := page.meta.next.value);
      lastNextPage := page.meta.next.value;
    }
    return All(all);
  }
}
