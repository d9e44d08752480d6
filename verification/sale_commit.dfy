/** The sale endpoint (POST /api/sales): validate the body, then in one transaction create
    the sale, one sale item per body line and decrement the stock of every product sold,
    then read the sale back. Totals and prices are taken from the body as they are; stock
    is not checked, so it may go negative. A store error anywhere inside the transaction
    rolls every write back. */
module SaleCommit {
  import opened Wrappers
  import opened Seqs
  import opened Schema
  import opened Database
  import opened AuthUtils
  import Cart

  /** One element of `body.items`; `kind` is the free-form `type` string. */
  datatype SaleLine = SaleLine(kind: string, itemId: nat, quantity: int, price: int, total: int)

  /** The request body; every field may be absent. */
  datatype SaleBody = SaleBody(
    customerId: Option<nat>, items: Option<seq<SaleLine>>, promotionId: Option<nat>,
    subtotal: Option<int>, discount: Option<real>, total: Option<real>,
    status: Option<string>, notes: Option<string>)

  /** The sale as the endpoint returns it, with its items. */
  datatype SaleDetail = SaleDetail(sale: Sale, items: seq<SaleItem>)

  const ProductKind: string := "product"
  const ServiceKind: string := "service"

  /** `!body.customerId || !body.items || body.items.length === 0`. */
  predicate BodyIncomplete(body: SaleBody) {
    body.customerId.None? || body.customerId.value == 0 || body.items.None? || body.items.value == []
  }

  /** `status: body.status || "UNPAID"`, as the store's enum column accepts it. */
  function StatusOf(status: Option<string>): (r: Option<SaleStatus>)
    ensures !PresentText(status) ==> r == Some(UNPAID)
    ensures PresentText(status) ==> r == ParseStatus(status.value)
  {
    if PresentText(status) then ParseStatus(status.value) else Some(UNPAID)
  }

  /** `discount: body.discount || 0`. */
  function DiscountOf(discount: Option<real>): (r: real)
    ensures discount.Some? ==> r == discount.value
    ensures discount.None? ==> r == 0.0
  {
    if discount.Some? && discount.value != 0.0 then discount.value else 0.0
  }

  /** `promotionId: body.promotionId || null`. */
  function PromotionOf(promotionId: Option<nat>): (r: Option<nat>)
    ensures r.Some? <==> promotionId.Some? && promotionId.value != 0
    ensures r.Some? ==> r == promotionId
  {
    if promotionId.Some? && promotionId.value != 0 then promotionId else None
  }

  /** The sale row `tx.sale.create` is asked to write, or None when a required column
      (subtotal, total) is missing or the status is not one of the enum's values. */
  function SaleRow(id: nat, invoice: string, body: SaleBody, userId: nat, now: int): (r: Option<Sale>)
    requires !BodyIncomplete(body)
    ensures r.Some? <==> body.subtotal.Some? && body.total.Some? && StatusOf(body.status).Some?
    ensures r.Some? ==>
      && r.value.id == id && r.value.invoiceNumber == invoice
      && r.value.customerId == body.customerId.value && r.value.userId == userId
      && r.value.subtotal == body.subtotal.value && r.value.total == body.total.value
      && r.value.discount == DiscountOf(body.discount)
      && r.value.promotionId == PromotionOf(body.promotionId)
      && r.value.notes == TextOrNull(body.notes)
      && r.value.status == StatusOf(body.status).value
      && r.value.createdAt == now
  {
    var status := StatusOf(body.status);
    if body.subtotal.None? || body.total.None? || status.None? then None
    else Some(Sale(id, invoice, body.customerId.value, userId, PromotionOf(body.promotionId),
                   body.subtotal.value, DiscountOf(body.discount), body.total.value,
                   status.value, TextOrNull(body.notes), now))
  }

  /** The sale item written for one line: a "product" line sets only productId, a
      "service" line only serviceId, any other type neither. */
  function LineItem(id: nat, saleId: nat, line: SaleLine): (it: SaleItem)
    ensures it.id == id && it.saleId == saleId
    ensures it.quantity == line.quantity && it.price == line.price && it.total == line.total
    ensures it.productId == (if line.kind == ProductKind then Some(line.itemId) else None)
    ensures it.serviceId == (if line.kind == ServiceKind then Some(line.itemId) else None)
    ensures !(it.productId.Some? && it.serviceId.Some?)
  {
    SaleItem(id, saleId,
             if line.kind == ProductKind then Some(line.itemId) else None,
             if line.kind == ServiceKind then Some(line.itemId) else None,
             line.quantity, line.price, line.total)
  }

  /** The sale items a request writes, in request order, with consecutive ids from firstId. */
  function SaleItemsFor(saleId: nat, firstId: nat, lines: seq<SaleLine>): (r: seq<SaleItem>)
    ensures |r| == |lines|
    ensures forall i :: 0 <= i < |lines| ==> r[i] == LineItem(firstId + i, saleId, lines[i])
  {
    seq(|lines|, i requires 0 <= i < |lines| => LineItem(firstId + i, saleId, lines[i]))
  }

  /** The total quantity the lines sell of product p. */
  function ProductQuantity(lines: seq<SaleLine>, p: nat): int {
    if lines == [] then 0
    else
      var last := lines[|lines| - 1];
      ProductQuantity(lines[..|lines| - 1], p)
        + (if last.kind == ProductKind && last.itemId == p then last.quantity else 0)
  }

  /** The product table after the decrements: each product loses what the lines sell of it. */
  function Decremented(products: seq<Product>, lines: seq<SaleLine>): (r: seq<Product>)
    ensures |r| == |products|
    ensures forall j :: 0 <= j < |products| ==>
      r[j] == products[j].(stock := products[j].stock - ProductQuantity(lines, products[j].id))
  {
    seq(|products|, j requires 0 <= j < |products| =>
      products[j].(stock := products[j].stock - ProductQuantity(lines, products[j].id)))
  }

  /** Every line names a row the store can link it to: a product line an existing
      product, a service line an existing service. */
  predicate LinesLinkable(lines: seq<SaleLine>, products: nat, services: nat) {
    forall i :: 0 <= i < |lines| ==>
      (lines[i].kind == ProductKind ==> Refers(lines[i].itemId, products))
      && (lines[i].kind == ServiceKind ==> Refers(lines[i].itemId, services))
  }

  /** The sale row is accepted by the store: the foreign keys exist and the invoice number
      is not already used. */
  predicate SaleAccepted(sale: Sale, sales: seq<Sale>, customers: nat, users: nat, promotions: nat) {
    Refers(sale.customerId, customers) && Refers(sale.userId, users)
    && RefersOpt(sale.promotionId, promotions) && !Taken(sales, InvoiceNumber, sale.invoiceNumber)
  }

  /** The items of one sale, as `include: { items }` reads them: every stored item of that
      sale and no other, in the order they were written (ascending id in a store whose
      ids are sequential). */
  function ItemsOfSale(items: seq<SaleItem>, saleId: nat): (r: seq<SaleItem>)
    ensures |r| <= |items|
    ensures forall i :: 0 <= i < |r| ==> r[i].saleId == saleId
    ensures forall x {:trigger multiset(r)[x]} :: multiset(r)[x] == if x.saleId == saleId then multiset(items)[x] else 0
    ensures SortedBy(items, SaleItemId) ==> SortedBy(r, SaleItemId)
  {
    if items == [] then []
    else
      var init, last := items[..|items| - 1], items[|items| - 1];
      var rest := ItemsOfSale(init, saleId);
      ItemsOfSaleStep(items, saleId, rest);
      if last.saleId == saleId then rest + [last] else rest
  }

  /** The last stored item extends the items read from the ones before it. */
  lemma ItemsOfSaleStep(items: seq<SaleItem>, saleId: nat, rest: seq<SaleItem>)
    requires items != []
    requires forall x {:trigger multiset(rest)[x]} ::
      multiset(rest)[x] == (if x.saleId == saleId then multiset(items[..|items| - 1])[x] else 0)
    requires SortedBy(items[..|items| - 1], SaleItemId) ==> SortedBy(rest, SaleItemId)
    ensures var last := items[|items| - 1];
      var r := if last.saleId == saleId then rest + [last] else rest;
      && (forall x {:trigger multiset(r)[x]} :: multiset(r)[x] == if x.saleId == saleId then multiset(items)[x] else 0)
      && (SortedBy(items, SaleItemId) ==> SortedBy(r, SaleItemId))
  {
    var init, last := items[..|items| - 1], items[|items| - 1];
    assert items == init + [last];
    assert multiset(items) == multiset(init) + multiset{last};
    assert forall x :: x in rest ==> x in init by {
      forall x | x in rest ensures x in init {
        assert multiset(rest)[x] > 0;
      }
    }
    SortedSubsequenceStep(init, last, rest, SaleItemId);
  }

  /** `findUnique({ where: { id } })` with the sale's items: null when no row has that id. */
  function FindSale(sales: seq<Sale>, items: seq<SaleItem>, id: nat): (r: Option<SaleDetail>)
    ensures r.Some? <==> exists i :: 0 <= i < |sales| && sales[i].id == id
    ensures r.Some? ==> r.value.sale.id == id && r.value.sale in sales
    ensures r.Some? ==> r.value.items == ItemsOfSale(items, id)
  {
    match FirstIndex(sales, SaleId, id)
    case None => None
    case Some(k) => Some(SaleDetail(sales[k], ItemsOfSale(items, id)))
  }

  // ---------------------------------------------------------------- lemmas

  /** One more line changes the sold quantity of its own product only. */
  lemma ProductQuantityStep(lines: seq<SaleLine>, i: nat, p: nat)
    requires i < |lines|
    ensures ProductQuantity(lines[..i + 1], p) == ProductQuantity(lines[..i], p)
      + (if lines[i].kind == ProductKind && lines[i].itemId == p then lines[i].quantity else 0)
  {
    assert lines[..i + 1][..i] == lines[..i];
  }

  /** A product no product line names keeps its stock. */
  lemma {:induction false} ProductQuantityUnsold(lines: seq<SaleLine>, p: nat)
    requires forall i :: 0 <= i < |lines| ==> !(lines[i].kind == ProductKind && lines[i].itemId == p)
    ensures ProductQuantity(lines, p) == 0
  {
    if lines != [] {
      ProductQuantityUnsold(lines[..|lines| - 1], p);
    }
  }

  /** The decrement is a sum over the lines, so it does not depend on their order: a product's
      stock drops by the same amount whichever way the cashier listed the lines. */
  lemma {:induction false} ProductQuantityAppend(a: seq<SaleLine>, b: seq<SaleLine>, p: nat)
    ensures ProductQuantity(a + b, p) == ProductQuantity(a, p) + ProductQuantity(b, p)
  {
    if b == [] {
      assert a + b == a;
    } else {
      assert (a + b)[..|a + b| - 1] == a + b[..|b| - 1];
      ProductQuantityAppend(a, b[..|b| - 1], p);
    }
  }

  lemma ProductQuantitySwap(a: seq<SaleLine>, b: seq<SaleLine>, p: nat)
    ensures ProductQuantity(a + b, p) == ProductQuantity(b + a, p)
  {
    ProductQuantityAppend(a, b, p);
    ProductQuantityAppend(b, a, p);
  }

  /** Items appended after rows of other sales are exactly the new sale's items. */
  lemma {:induction false} ItemsOfSaleAppend(old_: seq<SaleItem>, new_: seq<SaleItem>, saleId: nat)
    requires forall i :: 0 <= i < |old_| ==> old_[i].saleId != saleId
    requires forall i :: 0 <= i < |new_| ==> new_[i].saleId == saleId
    ensures ItemsOfSale(old_ + new_, saleId) == new_
  {
    if new_ == [] {
      assert old_ + new_ == old_;
      ItemsOfSaleNone(old_, saleId);
    } else {
      assert (old_ + new_)[..|old_ + new_| - 1] == old_ + new_[..|new_| - 1];
      ItemsOfSaleAppend(old_, new_[..|new_| - 1], saleId);
    }
  }

  lemma {:induction false} ItemsOfSaleNone(items: seq<SaleItem>, saleId: nat)
    requires forall i :: 0 <= i < |items| ==> items[i].saleId != saleId
    ensures ItemsOfSale(items, saleId) == []
  {
    if items != [] {
      ItemsOfSaleNone(items[..|items| - 1], saleId);
    }
  }

  /** In a store whose ids are sequential, the row just appended is the one found by its id. */
  lemma FindAppended(sales: seq<Sale>, items: seq<SaleItem>, sale: Sale)
    requires SequentialIds(sales, SaleId) && sale.id == |sales| + 1
    ensures FindSale(sales + [sale], items, sale.id) == Some(SaleDetail(sale, ItemsOfSale(items, sale.id)))
  {
    var s := sales + [sale];
    assert forall j :: 0 <= j < |sales| ==> SaleId(s[j]) != sale.id;
    assert SaleId(s[|sales|]) == sale.id;
  }

  /** Reading the sale back after the commit finds the new row with exactly its own items:
      every older item belongs to an older sale. */
  lemma ReadBack(sales: seq<Sale>, items: seq<SaleItem>, sale: Sale, added: seq<SaleItem>)
    requires SequentialIds(sales, SaleId) && sale.id == |sales| + 1
    requires forall j :: 0 <= j < |items| ==> items[j].saleId < sale.id
    requires forall j :: 0 <= j < |added| ==> added[j].saleId == sale.id
    ensures FindSale(sales + [sale], items + added, sale.id) == Some(SaleDetail(sale, added))
  {
    FindAppended(sales, items + added, sale);
    ItemsOfSaleAppend(items, added, sale.id);
  }

  /** One more line adds its own sale item at the end. */
  lemma SaleItemsStep(saleId: nat, firstId: nat, lines: seq<SaleLine>, i: nat)
    requires i < |lines|
    ensures SaleItemsFor(saleId, firstId, lines[..i + 1])
         == SaleItemsFor(saleId, firstId, lines[..i]) + [LineItem(firstId + i, saleId, lines[i])]
  {
  }

  /** One more line decrements its own product only: the one whose id it names, which in a
      table of sequential ids sits at position id - 1. */
  lemma DecrementStep(products: seq<Product>, lines: seq<SaleLine>, i: nat)
    requires SequentialIds(products, ProductId) && i < |lines|
    requires lines[i].kind == ProductKind ==> Refers(lines[i].itemId, |products|)
    ensures var before := Decremented(products, lines[..i]);
      Decremented(products, lines[..i + 1])
        == if lines[i].kind == ProductKind
           then before[lines[i].itemId - 1 := before[lines[i].itemId - 1].(stock := before[lines[i].itemId - 1].stock - lines[i].quantity)]
           else before
  {
    forall p | 0 <= p < |products| {
      ProductQuantityStep(lines, i, products[p].id);
    }
    if lines[i].kind == ProductKind {
      assert products[lines[i].itemId - 1].id == lines[i].itemId;
    }
  }

  /** Whether the first i + 1 lines can be linked is decided by the first i and line i; a
      line that cannot be linked spoils the whole list. */
  lemma LinkableStep(lines: seq<SaleLine>, i: nat, products: nat, services: nat)
    requires i < |lines|
    ensures var ok := (lines[i].kind == ProductKind ==> Refers(lines[i].itemId, products))
                      && (lines[i].kind == ServiceKind ==> Refers(lines[i].itemId, services));
      && (LinesLinkable(lines[..i + 1], products, services)
          <==> LinesLinkable(lines[..i], products, services) && ok)
      && (!ok ==> !LinesLinkable(lines, products, services))
  {
    var head := lines[..i + 1];
    assert forall j :: 0 <= j < i ==> head[j] == lines[..i][j];
    assert head[i] == lines[i];
  }

  /** One loop step of the transaction keeps the written items and the product table in
      step with the lines handled so far. */
  lemma WriteStep(
    lines: seq<SaleLine>, i: nat, saleId: nat, firstItemId: nat,
    saleItems: seq<SaleItem>, products: seq<Product>, items: seq<SaleItem>, stock: seq<Product>)
    requires SequentialIds(products, ProductId) && i < |lines|
    requires lines[i].kind == ProductKind ==> Refers(lines[i].itemId, |products|)
    requires items == saleItems + SaleItemsFor(saleId, firstItemId, lines[..i])
    requires stock == Decremented(products, lines[..i])
    ensures items + [LineItem(firstItemId + i, saleId, lines[i])]
         == saleItems + SaleItemsFor(saleId, firstItemId, lines[..i + 1])
    ensures lines[i].kind == ProductKind ==>
      var k := lines[i].itemId - 1;
      0 <= k < |stock| &&
      stock[k := stock[k].(stock := stock[k].stock - lines[i].quantity)] == Decremented(products, lines[..i + 1])
    ensures lines[i].kind != ProductKind ==> stock == Decremented(products, lines[..i + 1])
  {
    SaleItemsStep(saleId, firstItemId, lines, i);
    DecrementStep(products, lines, i);
  }

  // ---------------------------------------------------------------- the handler

  /** The loop of the transaction: for each line in order, write its sale item and, for a
      product line, decrement that product's stock. The store refuses an item whose product
      or service does not exist, which aborts the whole transaction (None). */
  method WriteLines(
    lines: seq<SaleLine>, saleId: nat, firstItemId: nat,
    saleItems: seq<SaleItem>, products: seq<Product>, services: nat)
    returns (r: Option<(seq<SaleItem>, seq<Product>)>)
    requires SequentialIds(products, ProductId)
    ensures r.Some? <==> LinesLinkable(lines, |products|, services)
    ensures r.Some? ==> r.value.0 == saleItems + SaleItemsFor(saleId, firstItemId, lines)
    ensures r.Some? ==> r.value.1 == Decremented(products, lines)
  {
    var items := saleItems;
    var stock := products;
    var i := 0;
    while i < |lines|
      invariant 0 <= i <= |lines|
      invariant LinesLinkable(lines[..i], |products|, services)
      invariant items == saleItems + SaleItemsFor(saleId, firstItemId, lines[..i])
      invariant stock == Decremented(products, lines[..i])
    {
      var line := lines[i];
      LinkableStep(lines, i, |products|, services);
      if (line.kind == ProductKind && !Refers(line.itemId, |stock|))
         || (line.kind == ServiceKind && !Refers(line.itemId, services)) {
        return None;
      }
      WriteStep(lines, i, saleId, firstItemId, saleItems, products, items, stock);
      items := items + [LineItem(firstItemId + i, saleId, line)];
      if line.kind == ProductKind {
        var k := line.itemId - 1;
        stock := stock[k := stock[k].(stock := stock[k].stock - line.quantity)];
      }
      assert stock == Decremented(products, lines[..i + 1]);
      i := i + 1;
    }
    assert lines[..|lines|] == lines;
    return Some((items, stock));
  }

  /** What the transaction writes when it commits. */
  datatype Written = Written(sale: Sale, saleItems: seq<SaleItem>, products: seq<Product>)

  /** The handler as one state-to-state function over the tables it touches: the error it
      fails with, or the sale row and the new item and product tables. Authentication comes
      first, then the body check, then whatever the store refuses. */
  function PlanSale(
    sales: seq<Sale>, saleItems: seq<SaleItem>, products: seq<Product>,
    customers: nat, users: nat, promotions: nat, services: nat,
    caller: Option<JwtPayload>, body: SaleBody, invoice: string, now: int): (r: Result<Written>)
    ensures caller.None? ==> r == Err(HttpError(401, LoginRequired))
    ensures caller.Some? && BodyIncomplete(body) ==> r == Err(HttpError(400, CustomerAndItemsRequired))
    ensures r.Ok? ==> caller.Some? && !BodyIncomplete(body)
    ensures caller.Some? && !BodyIncomplete(body) ==>
      var row := SaleRow(|sales| + 1, invoice, body, caller.value.userId, now);
      (r.Ok? <==> row.Some? && SaleAccepted(row.value, sales, customers, users, promotions)
                  && LinesLinkable(body.items.value, |products|, services))
    ensures caller.Some? && !BodyIncomplete(body) && r.Err? ==> r.error == HttpError(500, StoreRejected)
    ensures r.Ok? ==>
      && SaleRow(|sales| + 1, invoice, body, caller.value.userId, now) == Some(r.value.sale)
      && SaleAccepted(r.value.sale, sales, customers, users, promotions)
      && LinesLinkable(body.items.value, |products|, services)
    ensures r.Ok? ==>
      && r.value.saleItems == saleItems + SaleItemsFor(|sales| + 1, |saleItems| + 1, body.items.value)
      && r.value.products == Decremented(products, body.items.value)
  {
    match RequireAuth(caller)
    case Err(e) => Err(e)
    case Ok(user) =>
      if BodyIncomplete(body) then Err(HttpError(400, CustomerAndItemsRequired))
      else
        var row := SaleRow(|sales| + 1, invoice, body, user.userId, now);
        if row.None? || !SaleAccepted(row.value, sales, customers, users, promotions)
           || !LinesLinkable(body.items.value, |products|, services)
        then Err(HttpError(500, StoreRejected))
        else Ok(Written(row.value,
                        saleItems + SaleItemsFor(|sales| + 1, |saleItems| + 1, body.items.value),
                        Decremented(products, body.items.value)))
  }

  /** A committed sale keeps the store consistent. */
  lemma PlanKeepsConsistent(
    customers: seq<Customer>, users: seq<User>, categories: seq<Category>,
    products: seq<Product>, services: seq<Service>, promotions: seq<Promotion>,
    sales: seq<Sale>, saleItems: seq<SaleItem>, settings: seq<ClinicSettings>,
    caller: Option<JwtPayload>, body: SaleBody, invoice: string, now: int, w: Written)
    requires Consistent(customers, users, categories, products, services, promotions, sales, saleItems, settings)
    requires PlanSale(sales, saleItems, products, |customers|, |users|, |promotions|, |services|,
                      caller, body, invoice, now) == Ok(w)
    ensures Consistent(customers, users, categories, w.products, services, promotions,
                       sales + [w.sale], w.saleItems, settings)
  {
    var lines := body.items.value;
    AppendKeepsUnique(sales, InvoiceNumber, w.sale);
    var added := SaleItemsFor(w.sale.id, |saleItems| + 1, lines);
    forall i | 0 <= i < |w.saleItems|
      ensures SaleItemRefsValid(w.saleItems[i], |sales| + 1, |w.products|, |services|)
    {
      if i >= |saleItems| {
        assert w.saleItems[i] == added[i - |saleItems|];
      } else {
        assert SaleItemRefsValid(saleItems[i], |sales|, |products|, |services|);
      }
    }
  }

  /** After a commit, reading the sale back finds it with exactly the items just written. */
  lemma PlanReadBack(
    sales: seq<Sale>, saleItems: seq<SaleItem>, products: seq<Product>,
    customers: nat, users: nat, promotions: nat, services: nat,
    caller: Option<JwtPayload>, body: SaleBody, invoice: string, now: int, w: Written)
    requires SequentialIds(sales, SaleId)
    requires forall i :: 0 <= i < |saleItems| ==> Refers(saleItems[i].saleId, |sales|)
    requires PlanSale(sales, saleItems, products, customers, users, promotions, services,
                      caller, body, invoice, now) == Ok(w)
    ensures FindSale(sales + [w.sale], w.saleItems, w.sale.id)
        == Some(SaleDetail(w.sale, SaleItemsFor(w.sale.id, |saleItems| + 1, body.items.value)))
  {
    ReadBack(sales, saleItems, w.sale, SaleItemsFor(w.sale.id, |saleItems| + 1, body.items.value));
  }

  /** The handler's steps up to the commit, on the tables' values: authentication, the
      body check, the sale row, then the item loop on the transaction's own copies. */
  method Transaction(
    sales: seq<Sale>, saleItems: seq<SaleItem>, products: seq<Product>,
    customers: nat, users: nat, promotions: nat, services: nat,
    caller: Option<JwtPayload>, body: SaleBody, invoice: string, now: int)
    returns (r: Result<Written>)
    requires SequentialIds(products, ProductId)
    ensures r == PlanSale(sales, saleItems, products, customers, users, promotions, services,
                          caller, body, invoice, now)
  {
    var auth := RequireAuth(caller);
    if auth.Err? {
      return Err(auth.error);
    }
    var user := auth.value;
    if body.customerId.None? || body.customerId.value == 0 || body.items.None? || body.items.value == [] {
      return Err(HttpError(400, CustomerAndItemsRequired));
    }
    var lines := body.items.value;

    // tx.sale.create
    var row := SaleRow(|sales| + 1, invoice, body, user.userId, now);
    if row.None? || !SaleAccepted(row.value, sales, customers, users, promotions) {
      return Err(HttpError(500, StoreRejected));
    }

    // the item loop with its stock decrements
    var written := WriteLines(lines, |sales| + 1, |saleItems| + 1, saleItems, products, services);
    if written.None? {
      return Err(HttpError(500, StoreRejected));
    }
    return Ok(Written(row.value, written.value.0, written.value.1));
  }

  /** POST /api/sales. The caller is what `getUserFromEvent` found; the invoice date parts,
      the random draw and the clock are parameters. The handler does what `PlanSale` says:
      on failure the store is unchanged, on success the three tables take their new values
      and the response holds the sale as read back. */
  method CommitSale(
    db: Database, caller: Option<JwtPayload>, body: SaleBody,
    year: nat, monthIndex: nat, day: nat, u: real, now: int)
    returns (r: Result<Option<SaleDetail>>)
    requires db.Valid() && 0.0 <= u < 1.0
    modifies db`sales, db`saleItems, db`products
    ensures db.Valid()
    ensures var plan := PlanSale(old(db.sales), old(db.saleItems), old(db.products),
                                 |db.customers|, |db.users|, |db.promotions|, |db.services|,
                                 caller, body, GenerateInvoiceNumber(year, monthIndex, day, u), now);
      && (plan.Err? ==> r == Err(plan.error) && unchanged(db))
      && (plan.Ok? ==>
            && db.sales == old(db.sales) + [plan.value.sale]
            && db.saleItems == plan.value.saleItems
            && db.products == plan.value.products
            && r == Ok(Some(SaleDetail(plan.value.sale,
                                       SaleItemsFor(plan.value.sale.id, |old(db.saleItems)| + 1, body.items.value)))))
  {
    var invoice := GenerateInvoiceNumber(year, monthIndex, day, u);
    var outcome := Transaction(db.sales, db.saleItems, db.products,
                               |db.customers|, |db.users|, |db.promotions|, |db.services|,
                               caller, body, invoice, now);
    if outcome.Err? {
      return Err(outcome.error);
    }
    var w := outcome.value;
    CommitFacts(db.customers, db.users, db.categories, db.products, db.services,
                db.promotions, db.sales, db.saleItems, db.settings, caller, body, invoice, now, w);
    WriteTables(db, db.sales + [w.sale], w.saleItems, w.products);
    r := Ok(FindSale(db.sales, db.saleItems, w.sale.id));
  }

  /** The transaction's writes land together: the sale, item and product tables take their
      new values, and the store stays consistent. */
  method WriteTables(db: Database, sales: seq<Sale>, saleItems: seq<SaleItem>, products: seq<Product>)
    requires Consistent(db.customers, db.users, db.categories, products, db.services,
                        db.promotions, sales, saleItems, db.settings)
    modifies db`sales, db`saleItems, db`products
    ensures db.sales == sales && db.saleItems == saleItems && db.products == products
    ensures db.Valid()
  {
    db.sales, db.saleItems, db.products := sales, saleItems, products;
  }

  /** What the commit leaves behind, on the tables' values: a consistent store in which the
      new sale reads back with exactly the items just written. */
  lemma CommitFacts(
    customers: seq<Customer>, users: seq<User>, categories: seq<Category>,
    products: seq<Product>, services: seq<Service>, promotions: seq<Promotion>,
    sales: seq<Sale>, saleItems: seq<SaleItem>, settings: seq<ClinicSettings>,
    caller: Option<JwtPayload>, body: SaleBody, invoice: string, now: int, w: Written)
    requires Consistent(customers, users, categories, products, services, promotions, sales, saleItems, settings)
    requires PlanSale(sales, saleItems, products, |customers|, |users|, |promotions|, |services|,
                      caller, body, invoice, now) == Ok(w)
    ensures Consistent(customers, users, categories, w.products, services, promotions,
                       sales + [w.sale], w.saleItems, settings)
    ensures FindSale(sales + [w.sale], w.saleItems, w.sale.id)
         == Some(SaleDetail(w.sale, SaleItemsFor(w.sale.id, |saleItems| + 1, body.items.value)))
  {
    assert forall i :: 0 <= i < |saleItems| ==> Refers(saleItems[i].saleId, |sales|) by {
      forall i | 0 <= i < |saleItems| ensures Refers(saleItems[i].saleId, |sales|) {
        assert SaleItemRefsValid(saleItems[i], |sales|, |products|, |services|);
      }
    }
    PlanReadBack(sales, saleItems, products, |customers|, |users|, |promotions|, |services|,
                 caller, body, invoice, now, w);
    PlanKeepsConsistent(customers, users, categories, products, services, promotions,
                        sales, saleItems, settings, caller, body, invoice, now, w);
  }

  // ---------------------------------------------------------------- properties of a commit

  /** Each product's stock drops by exactly the quantity the lines sell of it; products
      nobody sold keep their stock, even when the result is negative nothing stops it. */
  lemma StockDropsBySoldQuantity(products: seq<Product>, lines: seq<SaleLine>, j: nat)
    requires j < |products|
    ensures Decremented(products, lines)[j].stock == products[j].stock - ProductQuantity(lines, products[j].id)
    ensures (forall i :: 0 <= i < |lines| ==> !(lines[i].kind == ProductKind && lines[i].itemId == products[j].id))
            ==> Decremented(products, lines)[j] == products[j]
    ensures Decremented(products, lines)[j].(stock := products[j].stock) == products[j]
  {
    if forall i :: 0 <= i < |lines| ==> !(lines[i].kind == ProductKind && lines[i].itemId == products[j].id) {
      ProductQuantityUnsold(lines, products[j].id);
    }
  }

  /** No sufficiency check: selling more than the stock leaves a negative stock. */
  lemma OversellGoesNegative(products: seq<Product>, lines: seq<SaleLine>, j: nat)
    requires j < |products| && ProductQuantity(lines, products[j].id) > products[j].stock
    ensures Decremented(products, lines)[j].stock < 0
  {
  }

  /** The line type the cart sends: "product" or "service". */
  function KindName(kind: Cart.LineKind): (s: string)
    ensures s == ProductKind || s == ServiceKind
    ensures s == ProductKind <==> kind == Cart.ProductLine
  {
    match kind
    case ProductLine => ProductKind
    case ServiceLine => ServiceKind
  }

  function CartLine(d: Cart.CartLineData): SaleLine {
    SaleLine(KindName(d.kind), d.itemId, d.quantity, d.price, d.total)
  }

  /** The body a point-of-sale page would post: the cart snapshot plus the chosen customer,
      status and notes. The page itself is not part of this model; this is the body
      `getCartData` is shaped for, field by field. */
  function BodyFromCart(data: Cart.CartData, customerId: Option<nat>, status: Option<string>, notes: Option<string>): (b: SaleBody)
    ensures b.items.Some? && |b.items.value| == |data.items|
    ensures forall i :: 0 <= i < |data.items| ==> b.items.value[i] == CartLine(data.items[i])
    ensures b.subtotal == Some(data.subtotal) && b.discount == Some(data.discount) && b.total == Some(data.total)
    ensures b.promotionId == data.promotionId
    ensures b.customerId == customerId && b.status == status && b.notes == notes
  {
    SaleBody(customerId, Some(seq(|data.items|, i requires 0 <= i < |data.items| => CartLine(data.items[i]))),
             data.promotionId, Some(data.subtotal), Some(data.discount), Some(data.total), status, notes)
  }

  function SaleItemTotal(it: SaleItem): int { it.total }

  lemma {:induction false} ItemTotalsMatch(saleId: nat, firstId: nat, data: seq<Cart.CartLineData>, lines: seq<SaleLine>)
    requires |lines| == |data|
    requires forall i :: 0 <= i < |data| ==> lines[i] == CartLine(data[i])
    ensures SumBy(SaleItemsFor(saleId, firstId, lines), SaleItemTotal) == SumBy(data, Cart.LineDataTotal)
  {
    if lines != [] {
      var n := |lines| - 1;
      assert SaleItemsFor(saleId, firstId, lines)[..n] == SaleItemsFor(saleId, firstId, lines[..n]);
      ItemTotalsMatch(saleId, firstId, data[..n], lines[..n]);
    }
  }

  /** A sale posted from a cart is internally consistent: its items' totals add up to its
      subtotal, its total is the subtotal less the discount (floored at zero), and each
      item's total is its price times its quantity. The handler itself checks none of this. */
  lemma CartSaleConsistent(
    items: seq<Cart.CartItem>, promotion: Option<Promotion>,
    customerId: Option<nat>, status: Option<string>, notes: Option<string>,
    saleId: nat, invoice: string, userId: nat, now: int, firstId: nat)
    requires Cart.WellFormed(items)
    requires !BodyIncomplete(BodyFromCart(Cart.GetCartData(items, promotion), customerId, status, notes))
    requires StatusOf(status).Some?
    ensures var body := BodyFromCart(Cart.GetCartData(items, promotion), customerId, status, notes);
      var sale := SaleRow(saleId, invoice, body, userId, now);
      var added := SaleItemsFor(saleId, firstId, body.items.value);
      && sale.Some?
      && SumBy(added, SaleItemTotal) == sale.value.subtotal
      && sale.value.total == (if sale.value.subtotal as real - sale.value.discount > 0.0
                              then sale.value.subtotal as real - sale.value.discount else 0.0)
      && (forall i :: 0 <= i < |added| ==> added[i].total == added[i].price * added[i].quantity)
  {
    var data := Cart.GetCartData(items, promotion);
    var body := BodyFromCart(data, customerId, status, notes);
    ItemTotalsMatch(saleId, firstId, data.items, body.items.value);
    var added := SaleItemsFor(saleId, firstId, body.items.value);
    forall i | 0 <= i < |added| ensures added[i].total == added[i].price * added[i].quantity {
      assert Cart.LineWellFormed(items[i]);
    }
  }
}
