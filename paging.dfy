// Pagination of listings: a request whose page and page size are clamped on
// assignment, the offset it asks the repository to skip, and the result
// envelope with its page count and previous/next flags.

module Paging {
  import opened Common

  const MinInt32: int := -0x8000_0000
  const MaxInt32: int := 0x7fff_ffff

  /** C#'s `int`. */
  type Int32 = x: int | MinInt32 <= x <= MaxInt32

  /** Unchecked 32-bit two's-complement arithmetic: the value modulo 2^32,
      read back as a signed number. */
  function Wrap32(x: int): (r: Int32)
    ensures (r - x) % 0x1_0000_0000 == 0
    ensures MinInt32 <= x <= MaxInt32 ==> r == x
  {
    (x - MinInt32) % 0x1_0000_0000 + MinInt32
  }

  const DefaultPage: Int32 := 1
  const DefaultPageSize: Int32 := 20
  const MaxPageSize: Int32 := 100

  /** The `Page` setter: values below 1 become 1. */
  function ClampPage(v: Int32): Int32
  {
    if v < 1 then 1 else v
  }

  /** The `PageSize` setter: above 100 becomes 100, below 1 becomes 1. */
  function ClampPageSize(v: Int32): Int32
  {
    if v > MaxPageSize then MaxPageSize else if v < 1 then 1 else v
  }

  /** Clamping lands in range, keeps in-range values and is idempotent. */
  lemma ClampFacts(v: Int32)
    ensures 1 <= ClampPage(v) && (v >= 1 <==> ClampPage(v) == v)
    ensures 1 <= ClampPageSize(v) <= MaxPageSize && (1 <= v <= MaxPageSize <==> ClampPageSize(v) == v)
    ensures ClampPage(ClampPage(v)) == ClampPage(v) && ClampPageSize(ClampPageSize(v)) == ClampPageSize(v)
  {
  }

  /** `(Page - 1) * PageSize` as the source computes it, in unchecked 32-bit
      arithmetic. */
  function SkipAsWritten(page: Int32, pageSize: Int32): Int32
  {
    Wrap32(Wrap32(page - 1) * pageSize)
  }

  /** The offset without wrap-around: the number of items on earlier pages. */
  function SkipOf(page: int, pageSize: int): (r: int)
    ensures page >= 1 && pageSize >= 0 ==> r >= 0
  {
    (page - 1) * pageSize
  }

  /** Within its range the as-written offset agrees with the intended one. */
  lemma SkipAgreesWhenItFits(page: Int32, pageSize: Int32)
    requires page >= 1 && MinInt32 <= SkipOf(page, pageSize) <= MaxInt32
    ensures SkipAsWritten(page, pageSize) == SkipOf(page, pageSize)
  {
  }

  /** The as-written offset is always congruent to the intended one modulo
      2^32. */
  lemma SkipCongruent(page: Int32, pageSize: Int32)
    ensures (SkipAsWritten(page, pageSize) - SkipOf(page, pageSize)) % 0x1_0000_0000 == 0
  {
    var m := 0x1_0000_0000;
    var a := Wrap32(page - 1);
    var k := (a - (page - 1)) / m;
    assert a == (page - 1) + k * m;
    assert a * pageSize == (page - 1) * pageSize + (k * pageSize) * m;
    var w := Wrap32(a * pageSize);
    var k2 := (w - a * pageSize) / m;
    assert w == a * pageSize + k2 * m;
    assert w - SkipOf(page, pageSize) == (k * pageSize + k2) * m;
  }

  /** A clamped request can still produce a negative offset: page 21474838
      with 100 per page wraps past 2^31. */
  lemma SkipOverflows()
    ensures var page, size := 21474838, 100;
      page == ClampPage(page) && size == ClampPageSize(size)
      && SkipOf(page, size) == 2147483700 && SkipAsWritten(page, size) == -2147483596
  {
    assert Wrap32(21474837) == 21474837;
    assert Wrap32(2147483700) == -2147483596;
  }

  /** Page p of size s holds exactly the items at positions
      Skip(p) .. Skip(p + 1) - 1, so the pages tile the listing. */
  lemma PagesTile(i: nat, p: int, s: int)
    requires s >= 1 && p >= 1
    ensures SkipOf(p, s) <= i < SkipOf(p + 1, s) <==> p == i / s + 1
  {
    var q := i / s;
    assert q * s <= i < (q + 1) * s;
    if p <= q {
      assert p * s <= q * s;
    } else if p >= q + 2 {
      assert (p - 1) * s >= (q + 1) * s;
    }
  }

  lemma SkipExample()
    ensures SkipOf(3, 10) == 20 && SkipAsWritten(3, 10) == 20
  {
  }

  class PagedRequest {
    var page: Int32
    var pageSize: Int32
    var sortBy: Option<string>
    var sortDescending: bool
    var search: Option<string>
    var activeOnly: bool

    ghost predicate Valid()
      reads this
    {
      1 <= page && 1 <= pageSize <= MaxPageSize
    }

    constructor ()
      ensures page == DefaultPage && pageSize == DefaultPageSize && activeOnly
      ensures sortBy == None && !sortDescending && search == None
      ensures Valid() && Skip() == 0
    {
      page := DefaultPage;
      pageSize := DefaultPageSize;
      sortBy := None;
      sortDescending := false;
      search := None;
      activeOnly := true;
    }

    method SetPage(value: Int32)
      modifies this
      ensures page == ClampPage(value)
      ensures pageSize == old(pageSize) && sortBy == old(sortBy) && sortDescending == old(sortDescending)
      ensures search == old(search) && activeOnly == old(activeOnly)
      ensures old(Valid()) ==> Valid()
    {
      page := if value < 1 then 1 else value;
    }

    method SetPageSize(value: Int32)
      modifies this
      ensures pageSize == ClampPageSize(value)
      ensures page == old(page) && sortBy == old(sortBy) && sortDescending == old(sortDescending)
      ensures search == old(search) && activeOnly == old(activeOnly)
      ensures old(Valid()) ==> Valid()
    {
      pageSize := if value > MaxPageSize then MaxPageSize else if value < 1 then 1 else value;
    }

    /** The offset the repository skips, `(Page - 1) * PageSize` in
        unchecked 32-bit arithmetic: the number of items on earlier pages
        whenever that fits in an `int`, and congruent to it modulo 2^32
        always. */
    function Skip(): (r: Int32)
      reads this
      ensures MinInt32 <= SkipOf(page, pageSize) <= MaxInt32 ==> r == SkipOf(page, pageSize)
      ensures (r - SkipOf(page, pageSize)) % 0x1_0000_0000 == 0
    {
      SkipCongruent(page, pageSize);
      if 1 <= page && MinInt32 <= SkipOf(page, pageSize) <= MaxInt32 then
        SkipAgreesWhenItFits(page, pageSize);
        SkipAsWritten(page, pageSize)
      else SkipAsWritten(page, pageSize)
    }
  }

  /** The source's `Math.Ceiling` on an exact quotient. */
  function Ceiling(x: real): int
  {
    -((-x).Floor)
  }

  /** Rounded-up quotient of a total by a page size. */
  function PageCount(total: int, size: int): int
    requires size != 0
  {
    Ceiling(total as real / size as real)
  }

  datatype PagedResult<T> = PagedResult(items: seq<T>, totalCount: Int32, page: Int32, pageSize: Int32)
  {
    /** A page size of 0 divides by zero in floating point and is excluded. */
    function TotalPages(): int
      requires pageSize != 0
    {
      PageCount(totalCount, pageSize)
    }

    predicate HasPreviousPage()
    {
      page > 1
    }

    predicate HasNextPage()
      requires pageSize != 0
    {
      page < TotalPages()
    }
  }

  /** An empty result; page 1 of size 20 unless given. */
  function Empty<T>(page: Int32 := 1, pageSize: Int32 := 20): PagedResult<T>
  {
    PagedResult([], 0, page, pageSize)
  }

  /** Wraps an already paged list with the request's page and size. */
  function From<T>(items: seq<T>, totalCount: Int32, request: PagedRequest): (r: PagedResult<T>)
    reads request
    ensures r.items == items && r.totalCount == totalCount
    ensures r.page == request.page && r.pageSize == request.pageSize
    ensures request.Valid() ==> 1 <= r.page && 1 <= r.pageSize <= MaxPageSize
  {
    PagedResult(items, totalCount, request.page, request.pageSize)
  }

  /** A result wrapped from a request the setters maintain has a positive
      page size, so its page count is defined, and it has a next page iff
      items remain after its own page. */
  lemma FromHasNextPageIffItemsRemain(items: seq<int>, totalCount: Int32, request: PagedRequest)
    requires request.Valid() && totalCount >= 0
    ensures From(items, totalCount, request).pageSize >= 1
    ensures var r := From(items, totalCount, request);
      r.HasNextPage() <==> r.page * r.pageSize < r.totalCount
  {
    HasNextPageIffItemsRemain(From(items, totalCount, request));
  }

  lemma DivideBounds(a: real, b: real, p: real)
    requires p > 0.0 && a <= b * p
    ensures a / p <= b
  {
    assert b - a / p == (b * p - a) / p;
  }

  lemma DivideBoundsStrict(a: real, b: real, p: real)
    requires p > 0.0 && b * p < a
    ensures b < a / p
  {
    assert a / p - b == (a - b * p) / p;
  }

  /** The page count is the integer ceiling (t + s - 1) / s. */
  lemma TotalPagesIsCeiling(t: nat, s: int)
    requires s >= 1
    ensures PageCount(t, s) == (t + s - 1) / s
  {
    var c := (t + s - 1) / s;
    assert c * s <= t + s - 1 < (c + 1) * s;
    var x := t as real / s as real;
    DivideBounds(t as real, c as real, s as real);
    DivideBoundsStrict(t as real, (c - 1) as real, s as real);
    assert (c - 1) as real < x <= c as real;
    assert (-x).Floor == -c;
  }

  /** For a non-empty listing the last page is partly or exactly full:
      (pages - 1) * size < total <= pages * size. */
  lemma LastPageIsPartlyFull(r: PagedResult<int>)
    requires r.pageSize >= 1 && r.totalCount > 0
    ensures (r.TotalPages() - 1) * r.pageSize < r.totalCount <= r.TotalPages() * r.pageSize
  {
    TotalPagesIsCeiling(r.totalCount, r.pageSize);
  }

  /** Integer core of the next-page test: a page lies before the ceiling
      of t / s exactly when its last position lies before t. */
  lemma BeforeCeiling(page: int, t: nat, s: int)
    requires s >= 1
    ensures page < (t + s - 1) / s <==> page * s < t
  {
    var c := (t + s - 1) / s;
    assert c * s <= t + s - 1 < (c + 1) * s;
    if page < c {
      assert page * s <= (c - 1) * s;
    } else {
      assert page * s >= c * s;
    }
  }

  /** There is a next page exactly when items remain beyond this one. */
  lemma HasNextPageIffItemsRemain(r: PagedResult<int>)
    requires r.pageSize >= 1 && r.totalCount >= 0
    ensures r.HasNextPage() <==> r.page * r.pageSize < r.totalCount
  {
    TotalPagesIsCeiling(r.totalCount, r.pageSize);
    BeforeCeiling(r.page, r.totalCount, r.pageSize);
  }

  /** An empty result has no pages and no next page. */
  lemma EmptyFacts(page: Int32, pageSize: Int32)
    requires pageSize != 0
    ensures Empty<int>(page, pageSize).TotalPages() == 0
    ensures !Empty<int>(page, pageSize).HasNextPage() <==> page >= 0
    ensures Empty<int>(page, pageSize).HasPreviousPage() <==> page > 1
    ensures var e := Empty<int>();
      e.page == DefaultPage && e.pageSize == DefaultPageSize && e.items == [] && e.totalCount == 0
      && e.TotalPages() == 0 && !e.HasNextPage() && !e.HasPreviousPage()
  {
    assert 0 as real / pageSize as real == 0.0;
  }

  lemma PageCountExample()
    ensures PageCount(25, 10) == 3
    ensures var r: PagedResult<int> := PagedResult([], 25, 3, 10); r.HasPreviousPage() && !r.HasNextPage()
  {
    TotalPagesIsCeiling(25, 10);
  }
}
