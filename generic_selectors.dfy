/** store/rdbms/generic_selectors.go: offset/limit paging. Explicit offset and limit win; when
    their (wrapping, unsigned) sum is zero they are derived from page and page size. */
module GenericSelectors {
  import opened Ints
  import opened Wrappers

  /** `rh.PageFilter`, with Go's 64-bit `uint` fields. */
  datatype PageFilter = PageFilter(page: uint64, perPage: uint64, offset: uint64, limit: uint64)

  /** The paging clauses of a `squirrel.SelectBuilder`; `Offset`/`Limit` set them. */
  datatype SelectBuilder = SelectBuilder(base: string, offset: Option<uint64>, limit: Option<uint64>)

  /** `calculatePaging`: (offset, limit). The zero test is on the wrapping `uint` sum. */
  function CalculatePaging(p: PageFilter): (r: (uint64, uint64))
  {
    if Wrap(p.offset + p.limit) == 0 then
      var l := if p.perPage > 0 then p.perPage else p.limit;
      var page := if p.page < 1 then 1 else p.page;
      (Wrap((page - 1) * p.perPage), l)
    else
      (p.offset, p.limit)
  }

  /** An explicit offset or limit is returned unchanged, unless their sum wraps to zero. */
  lemma ExplicitPagingKept(p: PageFilter)
    requires Wrap(p.offset + p.limit) != 0
    ensures CalculatePaging(p) == (p.offset, p.limit)
  {
  }

  /** The sum wraps to zero exactly when both are zero or they add up to 2^64. */
  lemma ZeroSumCases(p: PageFilter)
    ensures Wrap(p.offset + p.limit) == 0 <==>
      (p.offset == 0 && p.limit == 0) || p.offset + p.limit == TWO_TO_THE_64
  {
  }

  /** With neither offset nor limit given, the limit is the page size and the offset skips the
      preceding pages (page 0 counts as page 1). */
  lemma PageBasedPaging(p: PageFilter)
    requires p.offset == 0 && p.limit == 0
    requires (Max(p.page, 1) - 1) * p.perPage < TWO_TO_THE_64
    ensures CalculatePaging(p) == ((Max(p.page, 1) - 1) * p.perPage, p.perPage)
  {
    var skipped: nat := Max(p.page, 1) - 1;
    var x := skipped * p.perPage;
    assert 0 <= x;
    assert Wrap(x) == x;
    assert Wrap(p.offset + p.limit) == 0;
  }

  /** Page 0 and page 1 both start at offset 0. */
  lemma FirstPageOffsetZero(p: PageFilter)
    requires Wrap(p.offset + p.limit) == 0 && p.page <= 1
    ensures CalculatePaging(p).0 == 0
  {
  }

  /** An offset of 1 with the largest limit wraps the sum to zero: both are then replaced by the
      page-based values, so the offset given is dropped. */
  lemma WrappedSumDropsOffset()
    ensures CalculatePaging(PageFilter(0, 0, 1, MAX_UINT64)) == (0, MAX_UINT64)
    ensures CalculatePaging(PageFilter(3, 10, 1, MAX_UINT64)) == (20, 10)
  {
  }

  /** `ApplyPaging`: sets an offset only when it is positive, and a limit only when it is positive. */
  function ApplyPaging(q: SelectBuilder, p: PageFilter): (r: SelectBuilder)
    ensures r.base == q.base
    ensures var (o, l) := CalculatePaging(p);
      r.offset == (if o > 0 then Some(o) else q.offset) && r.limit == (if l > 0 then Some(l) else q.limit)
  {
    var (o, l) := CalculatePaging(p);
    var q1 := if o > 0 then q.(offset := Some(o)) else q;
    if l > 0 then q1.(limit := Some(l)) else q1
  }

  /** Applying the same paging twice is applying it once. */
  lemma ApplyPagingIdempotent(q: SelectBuilder, p: PageFilter)
    ensures ApplyPaging(ApplyPaging(q, p), p) == ApplyPaging(q, p)
  {
  }

  /** The query `FetchPaged` hands to `FetchAll`: its own step-by-step update of the filter
      yields the same offset and limit that `calculatePaging` computes. */
  method FetchPaged(q: SelectBuilder, p: PageFilter) returns (r: SelectBuilder)
    ensures r == ApplyPaging(q, p)
  {
    var f := p;
    if Wrap(f.limit + f.offset) == 0 {
      if f.perPage > 0 {
        f := f.(limit := f.perPage);
      }
      if f.page < 1 {
        f := f.(page := 1);
      }
      f := f.(offset := Wrap((f.page - 1) * f.perPage));
    }
    r := q;
    if f.limit > 0 {
      r := r.(limit := Some(f.limit));
    }
    if f.offset > 0 {
      r := r.(offset := Some(f.offset));
    }
  }
}
