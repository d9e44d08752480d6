/** The product list (GET /api/products): active products matching a search and a
    category, newest first, one page of them; the "low-stock" filter is applied to the
    page after paging, and every row gets its two stock flags. The joined category of each
    row is not carried in the model's response. */
module ProductList {
  import opened Wrappers
  import opened Text
  import opened Seqs
  import opened Schema
  import opened AuthUtils
  import opened Listing

  const DefaultPage: int := 1
  const DefaultLimit: int := 100
  const LowStockFilter: string := "low-stock"

  /** The query string; `page`, `limit` and `categoryId` already through `parseInt`
      (None for a missing value and for NaN). */
  datatype ProductQuery = ProductQuery(
    page: Option<int>, limit: Option<int>, search: Option<string>,
    categoryId: Option<int>, filter: Option<string>)

  /** The `where` object beyond its fixed `isActive: true`. */
  datatype ProductWhere = ProductWhere(search: Option<string>, categoryId: Option<int>)

  /** A product as the endpoint returns it. */
  datatype ProductView = ProductView(product: Product, isLowStock: bool, isOutOfStock: bool)

  datatype ProductPage = ProductPage(data: seq<ProductView>, pagination: Pagination)

  /** Builds `where`: a non-empty search and a non-zero category are added when given. */
  method BuildProductWhere(search: Option<string>, categoryId: Option<int>) returns (w: ProductWhere)
    ensures w.search.Some? <==> PresentText(search)
    ensures w.search.Some? ==> w.search == search
    ensures w.categoryId.Some? <==> PresentNumber(categoryId)
    ensures w.categoryId.Some? ==> w.categoryId == categoryId
  {
    w := ProductWhere(None, None);
    if search.Some? && search.value != "" {
      w := w.(search := search);
    }
    if categoryId.Some? && categoryId.value != 0 {
      w := w.(categoryId := categoryId);
    }
  }

  /** Active, the search text in the name or the (present) description, and the category. */
  predicate ProductMatches(w: ProductWhere, p: Product) {
    && p.isActive
    && (w.search.None? || Contains(p.name, w.search.value)
        || (p.description.Some? && Contains(p.description.value, w.search.value)))
    && (w.categoryId.None? || p.categoryId as int == w.categoryId.value)
  }

  function ProductNewestFirst(p: Product): int { -p.createdAt }

  /** The matching products, newest first. */
  function OrderedProducts(products: seq<Product>, w: ProductWhere): (r: seq<Product>)
    ensures SortedBy(r, ProductNewestFirst)
    ensures forall i :: 0 <= i < |r| ==> ProductMatches(w, r[i])
    ensures forall x :: multiset(r)[x] == if ProductMatches(w, x) then multiset(products)[x] else 0
  {
    var matching := Filter(products, p => ProductMatches(w, p));
    var r := SortBy(matching, ProductNewestFirst);
    assert forall i :: 0 <= i < |r| ==> r[i] in multiset(matching);
    r
  }

  /** The response row with its flags. */
  function View(p: Product): ProductView {
    ProductView(p, p.stock <= p.minStock, p.stock == 0)
  }

  /** `products.map(...)`: one response row per product, in order. */
  function Views(rows: seq<Product>): (r: seq<ProductView>)
    ensures |r| == |rows|
    ensures forall i :: 0 <= i < |rows| ==> r[i] == View(rows[i])
  {
    seq(|rows|, i requires 0 <= i < |rows| => View(rows[i]))
  }

  /** Every row of a page, filtered or not, is a matching product from the table. */
  lemma RowsComeFromMatches(all: seq<Product>, w: ProductWhere, skip: nat, limit: int, lowOnly: bool)
    ensures var window := Window(OrderedProducts(all, w), skip, limit);
      var rows := if lowOnly then Filter(window, LowOnStock) else window;
      forall i :: 0 <= i < |rows| ==> rows[i] in all && ProductMatches(w, rows[i])
  {
    var ordered := OrderedProducts(all, w);
    var window := Window(ordered, skip, limit);
    WindowOfSorted(ordered, skip, limit, ProductNewestFirst);
    var rows := if lowOnly then Filter(window, LowOnStock) else window;
    forall i | 0 <= i < |rows| ensures rows[i] in all && ProductMatches(w, rows[i]) {
      if lowOnly {
        assert multiset(rows)[rows[i]] > 0;
        assert rows[i] in window;
      }
      assert rows[i] in ordered;
      assert multiset(ordered)[rows[i]] > 0;
    }
  }

  /** `findMany` with `skip`/`take` over the ordered matches, then (for "low-stock") the
      filter, then the response rows: the window's rows, narrowed to the low-stock ones when
      asked, each an active product of the table with its flags. */
  method PageRows(all: seq<Product>, w: ProductWhere, skip: nat, limit: int, lowOnly: bool)
    returns (data: seq<ProductView>)
    ensures var window := Window(OrderedProducts(all, w), skip, limit);
      var rows := if lowOnly then Filter(window, LowOnStock) else window;
      && |data| == |rows| <= (if limit > 0 then limit else -limit)
      && (forall i :: 0 <= i < |rows| ==> data[i] == View(rows[i]))
    ensures forall i :: 0 <= i < |data| ==>
      var v := data[i];
      && v.product in all && v.product.isActive
      && (v.isLowStock <==> v.product.stock <= v.product.minStock)
      && (v.isOutOfStock <==> v.product.stock == 0)
      && (lowOnly ==> v.isLowStock)
  {
    var ordered := OrderedProducts(all, w);
    var products := Window(ordered, skip, limit);
    if lowOnly {
      products := Filter(products, LowOnStock);
    }
    RowsComeFromMatches(all, w, skip, limit, lowOnly);
    data := Views(products);
    forall i | 0 <= i < |data|
      ensures data[i].product in all && data[i].product.isActive
      ensures lowOnly ==> data[i].isLowStock
    {
      assert data[i] == View(products[i]) && ProductMatches(w, products[i]);
    }
  }

  /** GET /api/products. The page is taken from the ordered matches; when the filter is
      "low-stock" the page is then narrowed to its low-stock rows (so it may hold fewer
      than `limit` rows, or none, although later pages hold low-stock rows); `total` counts
      all matches without that filter. The store refuses a negative skip; a negative limit
      takes its rows from the end of the order. */
  method ProductsIndex(caller: Option<JwtPayload>, query: ProductQuery, all: seq<Product>)
    returns (r: Result<ProductPage>)
    ensures caller.None? ==> r == Err(HttpError(401, LoginRequired))
    ensures caller.Some? ==>
      (r.Err? <==> Skip(PageParam(query.page, DefaultPage), PageParam(query.limit, DefaultLimit)) < 0)
    ensures caller.Some? && r.Err? ==> r.error == HttpError(500, StoreRejected)
    ensures r.Ok? ==>
      && var page, limit := PageParam(query.page, DefaultPage), PageParam(query.limit, DefaultLimit);
         var w := ProductWhere(TextOrNull(query.search),
                               if PresentNumber(query.categoryId) then query.categoryId else None);
         var window := Window(OrderedProducts(all, w), Skip(page, limit), limit);
         var rows := if query.filter == Some(LowStockFilter) then Filter(window, LowOnStock) else window;
         && r.value.pagination == Paginate(|OrderedProducts(all, w)|, page, limit)
         && |r.value.data| == |rows| <= (if limit > 0 then limit else -limit)
         && (forall i :: 0 <= i < |rows| ==> r.value.data[i] == View(rows[i]))
    ensures r.Ok? ==> forall i :: 0 <= i < |r.value.data| ==>
      var v := r.value.data[i];
      && v.product in all && v.product.isActive
      && (v.isLowStock <==> v.product.stock <= v.product.minStock)
      && (v.isOutOfStock <==> v.product.stock == 0)
      && (query.filter == Some(LowStockFilter) ==> v.isLowStock)
  {
    var auth := RequireAuth(caller);
    if auth.Err? {
      return Err(auth.error);
    }
    var page := PageParam(query.page, DefaultPage);
    var limit := PageParam(query.limit, DefaultLimit);
    var w := BuildProductWhere(query.search, query.categoryId);
    assert w == ProductWhere(TextOrNull(query.search),
                             if PresentNumber(query.categoryId) then query.categoryId else None);
    var skip := Skip(page, limit);
    if skip < 0 {
      return Err(HttpError(500, StoreRejected));
    }
    var data := PageRows(all, w, skip, limit, query.filter == Some(LowStockFilter));
    r := Ok(ProductPage(data, Paginate(|OrderedProducts(all, w)|, page, limit)));
  }

  /** Paging before filtering loses rows: with a limit of 1, a newest product that is
      well stocked fills page 1, so the low-stock page 1 is empty although an older
      low-stock product exists, and `total` still counts both. */
  lemma LowStockPageCanBeEmpty(newest: Product, stale: Product)
    requires newest.isActive && stale.isActive
    requires newest.createdAt > stale.createdAt
    requires newest.stock > newest.minStock && stale.stock <= stale.minStock
    ensures var ordered := OrderedProducts([stale, newest], ProductWhere(None, None));
      && |ordered| == 2
      && Filter(Window(ordered, Skip(1, 1), 1), LowOnStock) == []
      && stale in ordered && LowOnStock(stale)
  {
    var ordered := OrderedProducts([stale, newest], ProductWhere(None, None));
    NewestFirstOfTwo(ordered, newest, stale);
    assert Window(ordered, 0, 1) == Page(ordered, 0, 1) == [newest];
    assert Filter([newest], LowOnStock) == Filter([], LowOnStock);
  }

  /** The two products, newest first. */
  lemma NewestFirstOfTwo(ordered: seq<Product>, newest: Product, stale: Product)
    requires newest.createdAt > stale.createdAt
    requires SortedBy(ordered, ProductNewestFirst)
    requires multiset(ordered) == multiset([stale, newest])
    ensures ordered == [newest, stale]
  {
    assert |ordered| == |multiset(ordered)| == 2;
    assert ordered == [ordered[0], ordered[1]];
    assert multiset{ordered[0], ordered[1]} == multiset{stale, newest};
    assert ProductNewestFirst(ordered[0]) <= ProductNewestFirst(ordered[1]);
  }
}
