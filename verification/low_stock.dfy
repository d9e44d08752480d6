/** The low-stock list (GET /api/products/low-stock): the active products in ascending
    order of stock, narrowed to those at or below their minimum, at most twenty of them.
    The price conversions of the response change no value here, and the joined category is
    not carried. */
module LowStock {
  import opened Wrappers
  import opened Seqs
  import opened Schema
  import opened AuthUtils

  const MaxRows: nat := 20

  /** `orderBy: { stock: "asc" }`. */
  function StockKey(p: Product): int { p.stock }

  /** Every qualifying product, in the order the store returns the active ones. */
  function Candidates(all: seq<Product>): (r: seq<Product>)
    ensures SortedBy(r, StockKey)
    ensures forall x :: multiset(r)[x] == if x.isActive && LowOnStock(x) then multiset(all)[x] else 0
  {
    var active := SortBy(Filter(all, ActiveProduct), StockKey);
    FilterKeepsOrder(active, LowOnStock, StockKey);
    Filter(active, LowOnStock)
  }

  /** `.filter(p => p.stock <= p.minStock).slice(0, 20)` over the active products by stock:
      at most twenty active low-stock products from the table, lowest stock first, and
      exactly the first min(20, n) of the n candidates. */
  function LowStockList(all: seq<Product>): (r: seq<Product>)
    ensures |r| == Min(MaxRows, |Candidates(all)|)
    ensures r == Candidates(all)[..|r|]
    ensures forall i :: 0 <= i < |r| ==> r[i] in all && r[i].isActive && LowOnStock(r[i])
    ensures forall i, j :: 0 <= i < j < |r| ==> r[i].stock <= r[j].stock
  {
    var c := Candidates(all);
    var r := c[..Min(MaxRows, |c|)];
    forall i | 0 <= i < |r| ensures r[i] in all && r[i].isActive && LowOnStock(r[i]) {
      assert r[i] == c[i];
      assert multiset(c)[c[i]] > 0;
    }
    forall i, j | 0 <= i < j < |r| ensures r[i].stock <= r[j].stock {
      assert StockKey(c[i]) <= StockKey(c[j]);
    }
    r
  }

  /** GET /api/products/low-stock. */
  function LowStockIndex(caller: Option<JwtPayload>, all: seq<Product>): (r: Result<seq<Product>>)
    ensures caller.None? ==> r == Err(HttpError(401, LoginRequired))
    ensures caller.Some? ==> r == Ok(LowStockList(all))
  {
    match RequireAuth(caller)
    case Err(e) => Err(e)
    case Ok(_) => Ok(LowStockList(all))
  }

  /** No qualifying product is passed over: one left out means the list is full and every
      listed product has at most its stock. */
  lemma NoneSkipped(all: seq<Product>, q: Product)
    requires q in all && q.isActive && LowOnStock(q)
    requires q !in LowStockList(all)
    ensures |LowStockList(all)| == MaxRows
    ensures forall i :: 0 <= i < MaxRows ==> LowStockList(all)[i].stock <= q.stock
  {
    var c := Candidates(all);
    var r := LowStockList(all);
    assert multiset(all)[q] > 0;
    assert multiset(c)[q] > 0;
    assert q in c;
    var k :| 0 <= k < |c| && c[k] == q;
    assert |r| == MaxRows;
    forall i | 0 <= i < MaxRows ensures r[i].stock <= q.stock {
      assert r[i] == c[i];
      assert StockKey(c[i]) <= StockKey(c[k]);
    }
  }

  /** With twenty or fewer qualifying products, all of them are listed. */
  lemma FewCandidatesAllListed(all: seq<Product>, q: Product)
    requires |Candidates(all)| <= MaxRows
    requires q in all && q.isActive && LowOnStock(q)
    ensures q in LowStockList(all)
  {
    var c := Candidates(all);
    assert multiset(all)[q] > 0;
    assert multiset(c)[q] > 0;
    assert LowStockList(all) == c;
  }
}
