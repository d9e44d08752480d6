/** The sales list (GET /api/sales): a `where` filter built field by field, then the
    matching sales newest first, one page of them, and the count of all matches. The
    clock is a parameter; the joined customer, user and items of each row are not
    carried in the model's response. */
module SalesList {
  import opened Wrappers
  import opened Text
  import opened Seqs
  import opened Schema
  import opened AuthUtils
  import opened Listing

  /** `setHours(getHours() - 24)` on a timeline without daylight-saving jumps. */
  const DayMs: int := 86_400_000

  const DefaultPage: int := 1
  const DefaultLimit: int := 20

  /** The query string, `page` and `limit` already through `parseInt`. */
  datatype SalesQuery = SalesQuery(
    page: Option<int>, limit: Option<int>, search: Option<string>, status: Option<string>)

  /** The `where` object: a lower bound on `createdAt`, a search text, a status text. */
  datatype SaleWhere = SaleWhere(createdFrom: Option<int>, search: Option<string>, status: Option<string>)

  datatype SalesPage = SalesPage(data: seq<Sale>, pagination: Pagination)

  /** Builds `where` as the handler does: employees get the 24-hour window, a non-empty
      search and a non-empty status are added when given. */
  method BuildSaleWhere(role: Role, search: Option<string>, status: Option<string>, now: int)
    returns (w: SaleWhere)
    ensures w.createdFrom.Some? <==> role == EMPLOYEE
    ensures w.createdFrom.Some? ==> w.createdFrom.value == now - DayMs
    ensures w.search.Some? <==> PresentText(search)
    ensures w.search.Some? ==> w.search == search
    ensures w.status.Some? <==> PresentText(status)
    ensures w.status.Some? ==> w.status == status
  {
    w := SaleWhere(None, None, None);
    if role == EMPLOYEE {
      w := w.(createdFrom := Some(now - DayMs));
    }
    if search.Some? && search.value != "" {
      w := w.(search := search);
    }
    if status.Some? && status.value != "" {
      w := w.(status := status);
    }
  }

  /** The customer a sale points to (the `customer` relation). */
  function CustomerOf(customers: seq<Customer>, id: nat): (c: Option<Customer>)
    ensures c.Some? ==> c.value in customers && c.value.id == id
    ensures c.None? ==> forall i :: 0 <= i < |customers| ==> customers[i].id != id
  {
    match FirstIndex(customers, CustomerId, id)
    case None => None
    case Some(k) => Some(customers[k])
  }

  /** The `OR` of the search: the text occurs in the invoice number or in the customer's
      first name, last name or phone. */
  predicate SearchMatches(sale: Sale, customer: Option<Customer>, text: string) {
    || Contains(sale.invoiceNumber, text)
    || (customer.Some? &&
         (Contains(customer.value.firstName, text) || Contains(customer.value.lastName, text)
          || Contains(customer.value.phone, text)))
  }

  predicate InWindow(w: SaleWhere, sale: Sale) {
    w.createdFrom.None? || sale.createdAt >= w.createdFrom.value
  }

  predicate SearchOk(w: SaleWhere, sale: Sale, customers: seq<Customer>) {
    w.search.None? || SearchMatches(sale, CustomerOf(customers, sale.customerId), w.search.value)
  }

  predicate StatusOk(w: SaleWhere, sale: Sale) {
    w.status.None? || StatusName(sale.status) == w.status.value
  }

  /** The conditions present in `where`, all of them at once. */
  predicate Matches(w: SaleWhere, sale: Sale, customers: seq<Customer>) {
    InWindow(w, sale) && SearchOk(w, sale, customers) && StatusOk(w, sale)
  }

  /** `orderBy: { createdAt: "desc" }` as an ascending key. */
  function NewestFirst(s: Sale): int { -s.createdAt }

  /** The matching sales, newest first. */
  function Ordered(sales: seq<Sale>, customers: seq<Customer>, w: SaleWhere): (r: seq<Sale>)
    ensures SortedBy(r, NewestFirst)
    ensures forall i :: 0 <= i < |r| ==> Matches(w, r[i], customers)
    ensures forall x :: multiset(r)[x] == if Matches(w, x, customers) then multiset(sales)[x] else 0
  {
    var matching := Filter(sales, s => Matches(w, s, customers));
    var r := SortBy(matching, NewestFirst);
    assert forall i :: 0 <= i < |r| ==> r[i] in multiset(matching);
    r
  }

  /** `findMany` with skip/take plus `count`: the store refuses a negative skip and a
      status that is not one of the enum's values (a thrown error); otherwise the page is
      the store's window of the ordered matches (a negative limit counts from the end),
      and the total counts every match. */
  function ListSales(sales: seq<Sale>, customers: seq<Customer>, w: SaleWhere, page: int, limit: int)
    : (r: Result<SalesPage>)
    requires limit != 0
    ensures r.Err? <==> Skip(page, limit) < 0 || (w.status.Some? && ParseStatus(w.status.value).None?)
    ensures r.Err? ==> r.error == HttpError(500, StoreRejected)
    ensures r.Ok? ==>
      && var data := r.value.data;
      && |data| <= (if limit > 0 then limit else -limit)
      && r.value.pagination == Paginate(|Ordered(sales, customers, w)|, page, limit)
      && data == Window(Ordered(sales, customers, w), Skip(page, limit), limit)
      && (forall i :: 0 <= i < |data| ==>
            data[i] in sales && InWindow(w, data[i]) && SearchOk(w, data[i], customers) && StatusOk(w, data[i]))
      && (forall i, j :: 0 <= i < j < |data| ==> data[i].createdAt >= data[j].createdAt)
  {
    if Skip(page, limit) < 0 || (w.status.Some? && ParseStatus(w.status.value).None?) then
      Err(HttpError(500, StoreRejected))
    else
      var ordered := Ordered(sales, customers, w);
      PageOfOrdered(sales, customers, w, Skip(page, limit), limit);
      Ok(SalesPage(Window(ordered, Skip(page, limit), limit), Paginate(|ordered|, page, limit)))
  }

  /** Every sale in a window of the ordered matches is a stored sale meeting each condition,
      and the window runs from the newest to the oldest. */
  lemma PageOfOrdered(sales: seq<Sale>, customers: seq<Customer>, w: SaleWhere, skip: nat, take: int)
    ensures var data := Window(Ordered(sales, customers, w), skip, take);
      && (forall i :: 0 <= i < |data| ==>
            data[i] in sales && InWindow(w, data[i]) && SearchOk(w, data[i], customers) && StatusOk(w, data[i]))
      && (forall i, j :: 0 <= i < j < |data| ==> data[i].createdAt >= data[j].createdAt)
  {
    var ordered := Ordered(sales, customers, w);
    var data := Window(ordered, skip, take);
    WindowOfSorted(ordered, skip, take, NewestFirst);
    forall i | 0 <= i < |data|
      ensures data[i] in sales && InWindow(w, data[i]) && SearchOk(w, data[i], customers) && StatusOk(w, data[i])
    {
      assert data[i] in ordered;
      assert multiset(ordered)[data[i]] > 0;
    }
    forall i, j | 0 <= i < j < |data| ensures data[i].createdAt >= data[j].createdAt {
      assert NewestFirst(data[i]) <= NewestFirst(data[j]);
    }
  }

  /** GET /api/sales: authentication first, then the defaults `page || 1` and `limit || 20`,
      the `where` object, and the listing. */
  method SalesIndex(caller: Option<JwtPayload>, query: SalesQuery, sales: seq<Sale>, customers: seq<Customer>, now: int)
    returns (r: Result<SalesPage>)
    ensures caller.None? ==> r == Err(HttpError(401, LoginRequired))
    ensures caller.Some? ==>
      r == ListSales(sales, customers,
                     SaleWhere(if caller.value.role == EMPLOYEE then Some(now - DayMs) else None,
                               TextOrNull(query.search), TextOrNull(query.status)),
                     PageParam(query.page, DefaultPage), PageParam(query.limit, DefaultLimit))
  {
    var auth := RequireAuth(caller);
    if auth.Err? {
      return Err(auth.error);
    }
    var user := auth.value;
    var page := PageParam(query.page, DefaultPage);
    var limit := PageParam(query.limit, DefaultLimit);
    var w := BuildSaleWhere(user.role, query.search, query.status, now);
    r := ListSales(sales, customers, w, page, limit);
  }

  /** An employee only ever sees sales from the last 24 hours. */
  lemma EmployeeSeesOneDay(sales: seq<Sale>, customers: seq<Customer>, search: Option<string>,
                           status: Option<string>, now: int, page: int, limit: int)
    requires limit != 0
    ensures var r := ListSales(sales, customers, SaleWhere(Some(now - DayMs), search, status), page, limit);
      r.Ok? ==> forall i :: 0 <= i < |r.value.data| ==> r.value.data[i].createdAt >= now - DayMs
  {
  }

  /** With no window, search or status, every sale counts: an administrator's total is
      the whole table. */
  lemma UnfilteredCountsAll(sales: seq<Sale>, customers: seq<Customer>, page: int, limit: int)
    requires limit != 0
    ensures var r := ListSales(sales, customers, SaleWhere(None, None, None), page, limit);
      r.Ok? ==> r.value.pagination.total == |sales|
  {
    var ordered := Ordered(sales, customers, SaleWhere(None, None, None));
    assert multiset(ordered) == multiset(sales);
    assert |multiset(ordered)| == |ordered|;
  }

  /** A matching sale is on some page: with the first page and a limit at least the total,
      the page holds every match. */
  lemma BigFirstPageHoldsAll(sales: seq<Sale>, customers: seq<Customer>, w: SaleWhere, limit: int, x: Sale)
    requires limit > 0 && !(w.status.Some? && ParseStatus(w.status.value).None?)
    requires limit >= |sales| && x in sales && Matches(w, x, customers)
    ensures ListSales(sales, customers, w, 1, limit).Ok?
    ensures x in ListSales(sales, customers, w, 1, limit).value.data
  {
    var ordered := Ordered(sales, customers, w);
    assert multiset(sales)[x] > 0;
    assert multiset(ordered)[x] > 0;
    assert |multiset(ordered)| == |ordered|;
    assert |ordered| <= |sales| by {
      assert multiset(ordered) <= multiset(sales);
      assert |multiset(sales)| == |sales|;
    }
    assert Window(ordered, 0, limit) == Page(ordered, 0, limit) == ordered;
  }

  /** A negative limit on the first page lists the oldest matches: the last n of the
      newest-first order, still newest first, and reports no positive page count. */
  lemma NegativeLimitTakesFromEnd(sales: seq<Sale>, customers: seq<Customer>, w: SaleWhere, n: int)
    requires n > 0 && !(w.status.Some? && ParseStatus(w.status.value).None?)
    ensures var r := ListSales(sales, customers, w, 1, -n);
      var ordered := Ordered(sales, customers, w);
      && r.Ok?
      && r.value.data == (if |ordered| <= n then ordered else ordered[|ordered| - n..])
      && r.value.pagination.totalPages <= 0
  {
    var ordered := Ordered(sales, customers, w);
    assert Skip(1, -n) == 0;
    var data := Window(ordered, 0, -n);
    assert ListSales(sales, customers, w, 1, -n) == Ok(SalesPage(data, Paginate(|ordered|, 1, -n)));
    LastOnes(ordered, n);
  }
}
