/**
 * Page/limit query parameters of the link listings. Three identical copies
 * exist (`linkQueryParams`, and `ShorteningQueryParams` in both link
 * persistence files); both fields are 64-bit unsigned integers, so the
 * offset product wraps.
 */
module Pagination {
  import opened Wrappers

  const UintLimit: nat := 0x1_0000_0000_0000_0000

  predicate IsUint(n: nat) { n < UintLimit }

  datatype QueryParams = QueryParams(page: nat, limit: nat)

  const DefaultLimit: nat := 10

  /** `Offset`: rows to skip, 0 before the first page, otherwise `(page-1)*limit` in `uint` arithmetic. */
  function Offset(q: QueryParams): (o: nat)
    ensures IsUint(o)
    ensures q.page < 1 ==> o == 0
    ensures q.page >= 1 && (q.page - 1) * q.limit < UintLimit ==> o == (q.page - 1) * q.limit
  {
    if q.page < 1 then 0 else ((q.page - 1) * q.limit) % UintLimit
  }

  /** Without wrap-around, consecutive pages tile the listing: page p+1 starts `limit` rows after page p. */
  lemma PagesTile(q: QueryParams)
    requires q.page >= 1 && q.page * q.limit < UintLimit
    ensures Offset(QueryParams(q.page + 1, q.limit)) == Offset(q) + q.limit
    ensures Offset(QueryParams(1, q.limit)) == 0
  {
    assert (q.page - 1) * q.limit <= q.page * q.limit;
  }

  /** The product wraps: a page far enough out starts at row 0 again. */
  lemma OffsetWraps()
    ensures Offset(QueryParams(0x8000_0000_0000_0001, 2)) == 0
  {
  }

  /** `New…QueryParams`: a missing or zero page becomes 1, a missing or zero limit becomes 10. */
  function NewQueryParams(page: Option<nat>, limit: Option<nat>): (q: QueryParams)
    ensures q.page >= 1 && q.limit >= 1
    ensures page.Some? && page.value > 0 ==> q.page == page.value
    ensures page.None? || page.value == 0 ==> q.page == 1
    ensures limit.Some? && limit.value > 0 ==> q.limit == limit.value
    ensures limit.None? || limit.value == 0 ==> q.limit == DefaultLimit
  {
    var p := if page.Some? && page.value > 0 then page.value else 1;
    var l := if limit.Some? && limit.value > 0 then limit.value else DefaultLimit;
    QueryParams(p, l)
  }

  /** Constructed parameters never take the `page < 1` branch: the first page starts at row 0. */
  lemma DefaultsStartAtZero(limit: Option<nat>)
    ensures Offset(NewQueryParams(None, limit)) == 0
    ensures Offset(NewQueryParams(Some(0), limit)) == 0
  {
  }
}
