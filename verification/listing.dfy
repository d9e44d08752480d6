/** Query-string handling shared by the paged list endpoints: `parseInt(x) || default`,
    the `skip` offset and the pagination block of the response. `parseInt` itself is
    outside the model: a query value comes in as the integer it parses to, or None for
    NaN and for a missing value. */
module Listing {
  import opened Wrappers
  import opened Seqs

  /** `parseInt(query.x) || default`: NaN and 0 fall back to the default. */
  function PageParam(parsed: Option<int>, default: int): (r: int)
    requires default != 0
    ensures r != 0
    ensures PresentNumber(parsed) ==> r == parsed.value
    ensures !PresentNumber(parsed) ==> r == default
  {
    if parsed.Some? && parsed.value != 0 then parsed.value else default
  }

  /** `(page - 1) * limit`; the store refuses a negative skip. */
  function Skip(page: int, limit: int): (s: int)
    ensures page >= 1 && limit >= 0 ==> s >= 0
    ensures page <= 1 && limit <= 0 ==> s >= 0
    ensures page == 1 ==> s == 0
  {
    (page - 1) * limit
  }

  /** `skip` and `take` as the store applies them to an ordered list: a non-negative take
      counts from the front; a negative take -n counts from the end, giving at most n rows
      that end `skip` rows before the end, still in the list's order. */
  function Window<T>(s: seq<T>, skip: nat, take: int): (r: seq<T>)
    ensures take >= 0 ==> r == Page(s, skip, take)
    ensures take < 0 ==> r == PageFromEnd(s, skip, -take)
    ensures take >= 0 ==> |r| <= take
    ensures take < 0 ==> |r| <= -take
  {
    if take >= 0 then Page(s, skip, take) else PageFromEnd(s, skip, -take)
  }

  /** A window of an ordered list is ordered, and holds only elements of the list. */
  lemma WindowOfSorted<T>(s: seq<T>, skip: nat, take: int, key: T -> int)
    requires SortedBy(s, key)
    ensures SortedBy(Window(s, skip, take), key)
    ensures forall i :: 0 <= i < |Window(s, skip, take)| ==> Window(s, skip, take)[i] in s
  {
    if take >= 0 {
      PageOfSorted(s, skip, take, key);
    } else {
      PageFromEndOfSorted(s, skip, -take, key);
    }
  }

  /** The `pagination` block of a list response. */
  datatype Pagination = Pagination(total: nat, page: int, limit: int, totalPages: int)

  /** `{ total, page, limit, totalPages: Math.ceil(total / limit) }`: the page count is the
      least integer not below total / limit. For a positive limit the pages are just
      enough to hold every row; for a negative limit it is zero or negative. */
  function Paginate(total: nat, page: int, limit: int): (p: Pagination)
    requires limit != 0
    ensures p.total == total && p.page == page && p.limit == limit
    ensures limit > 0 ==> p.totalPages * limit >= total && (p.totalPages - 1) * limit < total
    ensures limit < 0 ==> p.totalPages * limit <= total && (p.totalPages - 1) * limit > total
    ensures limit > 0 ==> (total == 0 <==> p.totalPages == 0)
    ensures limit < 0 ==> p.totalPages <= 0
  {
    if limit > 0 then Pagination(total, page, limit, PageCount(total, limit))
    else
      CeilOverNegative(total, limit);
      Pagination(total, page, limit, -(total / -limit))
  }

  /** `Math.ceil(total / limit)` for a negative limit is minus the floor of total / -limit. */
  lemma CeilOverNegative(total: nat, limit: int)
    requires limit < 0
    ensures var c := -(total / -limit);
      c * limit <= total && (c - 1) * limit > total && c <= 0
  {
    var n, q := -limit, total / -limit;
    assert total == q * n + total % n;
    assert q * n <= total < q * n + n;
    assert -q * limit == q * n;
    assert (-q - 1) * limit == q * n + n;
  }
}
