/** The point-of-sale cart: one shared list of lines and at most one promotion. Lines
    are keyed "product-<id>" or "service-<id>"; every line's total is its price times its
    quantity; the subtotal, discount, total and item count are recomputed from the lines
    on every read. */
module Cart {
  import opened Wrappers
  import opened Text
  import opened Seqs
  import opened Schema

  datatype LineKind = ProductLine | ServiceLine

  /** The fields of a product the cart reads; `stock` may be missing. */
  datatype ProductInput = ProductInput(id: nat, name: string, price: int, stock: Option<int>)

  datatype ServiceInput = ServiceInput(id: nat, name: string, price: int)

  /** One cart line. `stock` is the product's stock when the line was created (services
      have none). */
  datatype CartItem = CartItem(
    id: string, kind: LineKind, itemId: nat, name: string,
    price: int, quantity: int, total: int, stock: Option<int>)

  /** What an operation reports: `{ success: true }` or the "not enough stock" failure. */
  datatype CartReply = Done | InsufficientStock

  function KindPrefix(kind: LineKind): string {
    match kind
    case ProductLine => "product-"
    case ServiceLine => "service-"
  }

  /** The line id `${type}-${id}`. */
  function LineKey(kind: LineKind, itemId: nat): string {
    KindPrefix(kind) + NatToString(itemId)
  }

  /** Two different (type, item) pairs never share a line id. */
  lemma LineKeyInjective(k1: LineKind, i1: nat, k2: LineKind, i2: nat)
    ensures LineKey(k1, i1) == LineKey(k2, i2) ==> k1 == k2 && i1 == i2
  {
    if LineKey(k1, i1) == LineKey(k2, i2) {
      var a, b := LineKey(k1, i1), LineKey(k2, i2);
      assert a[..8] == KindPrefix(k1) && b[..8] == KindPrefix(k2);
      assert a[8..] == NatToString(i1) && b[8..] == NatToString(i2);
      NatToStringInjective(i1, i2);
    }
  }

  function LineOf(it: CartItem): (LineKind, nat) { (it.kind, it.itemId) }
  function LineIdOf(it: CartItem): string { it.id }
  function LineTotal(it: CartItem): int { it.total }
  function LineQuantity(it: CartItem): int { it.quantity }

  ghost predicate LineWellFormed(it: CartItem) {
    && it.id == LineKey(it.kind, it.itemId)
    && it.quantity >= 1
    && it.total == it.price * it.quantity
    && (it.kind == ServiceLine ==> it.stock.None?)
  }

  /** The cart invariant: well-formed lines, at most one line per (type, item). */
  ghost predicate WellFormed(items: seq<CartItem>) {
    && (forall i {:trigger LineWellFormed(items[i])} :: 0 <= i < |items| ==> LineWellFormed(items[i]))
    && (forall i, j :: 0 <= i < j < |items| ==> LineOf(items[i]) != LineOf(items[j]))
  }

  /** In a well-formed cart the line ids are distinct, so looking a line up by id finds
      the only line with that id. */
  lemma LineIdsUnique(items: seq<CartItem>)
    requires WellFormed(items)
    ensures forall i, j :: 0 <= i < j < |items| ==> items[i].id != items[j].id
  {
    forall i, j | 0 <= i < j < |items| ensures items[i].id != items[j].id {
      assert LineWellFormed(items[i]) && LineWellFormed(items[j]);
      LineKeyInjective(items[i].kind, items[i].itemId, items[j].kind, items[j].itemId);
    }
  }

  // ---------------------------------------------------------------- derived values

  /** `subtotal`: the sum of the line totals. */
  function Subtotal(items: seq<CartItem>): int {
    SumBy(items, LineTotal)
  }

  /** `itemCount`: the sum of the line quantities. */
  function ItemCount(items: seq<CartItem>): int {
    SumBy(items, LineQuantity)
  }

  /** `discount`: nothing without a promotion, the percentage of the subtotal for a
      percent promotion, else the flat amount, which is not capped by the subtotal. */
  function Discount(items: seq<CartItem>, promotion: Option<Promotion>): (d: real)
    ensures promotion.None? ==> d == 0.0
    ensures promotion.Some? && promotion.value.isPercent ==>
      d * 100.0 == (Subtotal(items) as real) * (promotion.value.discount as real)
    ensures promotion.Some? && !promotion.value.isPercent ==> d == promotion.value.discount as real
  {
    if promotion.None? then 0.0
    else if promotion.value.isPercent then
      (Subtotal(items) as real) * (promotion.value.discount as real) / 100.0
    else promotion.value.discount as real
  }

  /** `total`: `Math.max(0, subtotal - discount)`; never negative, and the plain difference
      whenever the discount does not exceed the subtotal. */
  function Total(items: seq<CartItem>, promotion: Option<Promotion>): (t: real)
    ensures t >= 0.0
    ensures t >= (Subtotal(items) as real) - Discount(items, promotion)
    ensures t == 0.0 || t == (Subtotal(items) as real) - Discount(items, promotion)
  {
    var diff := (Subtotal(items) as real) - Discount(items, promotion);
    if diff > 0.0 then diff else 0.0
  }

  /** A percent promotion of at most 100% on a non-negative subtotal takes off no more
      than the subtotal, so the total is exactly the difference. */
  lemma PercentDiscountWithinSubtotal(items: seq<CartItem>, promotion: Promotion)
    requires promotion.isPercent && 0 <= promotion.discount <= 100
    requires Subtotal(items) >= 0
    ensures 0.0 <= Discount(items, Some(promotion)) <= Subtotal(items) as real
    ensures Total(items, Some(promotion)) == (Subtotal(items) as real) - Discount(items, Some(promotion))
  {
    var s, p := Subtotal(items) as real, promotion.discount as real;
    var d := Discount(items, Some(promotion));
    assert d * 100.0 == s * p;
    ScaledWithin(s, p);
    assert 0.0 <= d * 100.0 <= s * 100.0;
  }

  lemma ScaledWithin(s: real, p: real)
    requires 0.0 <= s && 0.0 <= p <= 100.0
    ensures 0.0 <= s * p <= s * 100.0
  {
    assert s * (100.0 - p) >= 0.0;
  }

  /** In a cart whose prices are not negative, the subtotal is not negative either. */
  lemma SubtotalNonNegative(items: seq<CartItem>)
    requires WellFormed(items)
    requires forall i :: 0 <= i < |items| ==> items[i].price >= 0
    ensures Subtotal(items) >= 0
  {
    forall i | 0 <= i < |items| ensures LineTotal(items[i]) >= 0 {
      assert LineWellFormed(items[i]);
    }
    SumByNonNegative(items, LineTotal);
  }

  /** A cart line for a product added for the first time. */
  function NewProductLine(product: ProductInput): CartItem {
    CartItem(LineKey(ProductLine, product.id), ProductLine, product.id, product.name,
             product.price, 1, product.price, product.stock)
  }

  function NewServiceLine(service: ServiceInput): CartItem {
    CartItem(LineKey(ServiceLine, service.id), ServiceLine, service.id, service.name,
             service.price, 1, service.price, None)
  }

  /** The line with its quantity set to q and its total recomputed. */
  function WithQuantity(it: CartItem, q: int): CartItem {
    it.(quantity := q, total := it.price * q)
  }

  /** `product.stock && existing.quantity >= product.stock`: a missing or zero stock sets no cap. */
  predicate AtStockCap(stock: Option<int>, quantity: int) {
    stock.Some? && stock.value != 0 && quantity >= stock.value
  }

  /** `item.stock && quantity > item.stock`. */
  predicate AboveStock(stock: Option<int>, quantity: int) {
    stock.Some? && stock.value != 0 && quantity > stock.value
  }

  // ---------------------------------------------------------------- invariant lemmas

  lemma AppendNewLine(items: seq<CartItem>, line: CartItem)
    requires WellFormed(items) && LineWellFormed(line)
    requires forall j :: 0 <= j < |items| ==> LineOf(items[j]) != LineOf(line)
    ensures WellFormed(items + [line])
  {
  }

  lemma UpdateLine(items: seq<CartItem>, k: nat, line: CartItem)
    requires WellFormed(items) && k < |items| && LineWellFormed(line)
    requires LineOf(line) == LineOf(items[k])
    ensures WellFormed(items[k := line])
  {
    var r := items[k := line];
    forall i, j | 0 <= i < j < |r| ensures LineOf(r[i]) != LineOf(r[j]) {
      assert LineOf(r[i]) == LineOf(items[i]) && LineOf(r[j]) == LineOf(items[j]);
    }
  }

  lemma SpliceLine(items: seq<CartItem>, k: nat)
    requires WellFormed(items) && k < |items|
    ensures WellFormed(items[..k] + items[k + 1..])
  {
    var r := items[..k] + items[k + 1..];
    assert forall i :: 0 <= i < |r| ==> r[i] == if i < k then items[i] else items[i + 1];
  }

  /** Raising a line's quantity by one adds one to the item count and the line's price to
      the subtotal. */
  lemma IncrementEffect(items: seq<CartItem>, k: nat)
    requires WellFormed(items) && k < |items|
    ensures ItemCount(items[k := WithQuantity(items[k], items[k].quantity + 1)]) == ItemCount(items) + 1
    ensures Subtotal(items[k := WithQuantity(items[k], items[k].quantity + 1)]) == Subtotal(items) + items[k].price
  {
    var line := WithQuantity(items[k], items[k].quantity + 1);
    assert LineWellFormed(items[k]);
    SumByUpdate(items, k, line, LineQuantity);
    SumByUpdate(items, k, line, LineTotal);
  }

  /** Appending a line adds its quantity and total. */
  lemma AppendEffect(items: seq<CartItem>, line: CartItem)
    ensures ItemCount(items + [line]) == ItemCount(items) + line.quantity
    ensures Subtotal(items + [line]) == Subtotal(items) + line.total
  {
    assert (items + [line])[..|items|] == items;
  }

  // ---------------------------------------------------------------- the cart

  class Cart {
    var items: seq<CartItem>
    var promotion: Option<Promotion>

    ghost predicate Valid()
      reads this
    {
      WellFormed(items)
    }

    constructor ()
      ensures Valid() && items == [] && promotion.None?
    {
      items := [];
      promotion := None;
    }

    /** `existing.quantity++`, with the line's total recomputed: line k gains one unit. */
    method BumpLine(k: nat)
      requires Valid() && k < |items|
      modifies this`items
      ensures Valid()
      ensures items == old(items)[k := WithQuantity(old(items)[k], old(items)[k].quantity + 1)]
      ensures ItemCount(items) == ItemCount(old(items)) + 1
    {
      assert LineWellFormed(items[k]);
      var line := WithQuantity(items[k], items[k].quantity + 1);
      IncrementEffect(items, k);
      UpdateLine(items, k, line);
      items := items[k := line];
    }

    /** `items.value.push(line)` for a product or service the cart has no line for yet. */
    method PushLine(line: CartItem)
      requires Valid() && LineWellFormed(line)
      requires forall j :: 0 <= j < |items| ==> LineOf(items[j]) != LineOf(line)
      modifies this`items
      ensures Valid() && items == old(items) + [line]
      ensures ItemCount(items) == ItemCount(old(items)) + line.quantity
    {
      AppendEffect(items, line);
      AppendNewLine(items, line);
      items := items + [line];
    }

    /** `addProduct`: the product's existing line gains one unit unless the product's stock
        caps it (the cart is then unchanged); a first add appends a line of one unit
        without looking at stock. Either way there is still one line per product. */
    method AddProduct(product: ProductInput) returns (reply: CartReply)
      requires Valid()
      modifies this`items
      ensures Valid() && promotion == old(promotion)
      ensures var k := FirstIndex(old(items), LineOf, (ProductLine, product.id));
        && (k.None? ==> reply == Done && items == old(items) + [NewProductLine(product)])
        && (k.Some? && AtStockCap(product.stock, old(items)[k.value].quantity) ==>
              reply == InsufficientStock && items == old(items))
        && (k.Some? && !AtStockCap(product.stock, old(items)[k.value].quantity) ==>
              reply == Done
              && items == old(items)[k.value := WithQuantity(old(items)[k.value], old(items)[k.value].quantity + 1)])
      ensures reply == Done ==> ItemCount(items) == ItemCount(old(items)) + 1
      ensures reply == InsufficientStock ==> items == old(items)
    {
      var k := FirstIndex(items, LineOf, (ProductLine, product.id));
      if k.Some? {
        var existing := items[k.value];
        if AtStockCap(product.stock, existing.quantity) {
          return InsufficientStock;
        }
        BumpLine(k.value);
      } else {
        PushLine(NewProductLine(product));
      }
      reply := Done;
    }

    /** `addService`: like `addProduct` but with no stock cap, so it always succeeds. */
    method AddService(service: ServiceInput) returns (reply: CartReply)
      requires Valid()
      modifies this`items
      ensures Valid() && promotion == old(promotion) && reply == Done
      ensures var k := FirstIndex(old(items), LineOf, (ServiceLine, service.id));
        && (k.None? ==> items == old(items) + [NewServiceLine(service)])
        && (k.Some? ==>
              items == old(items)[k.value := WithQuantity(old(items)[k.value], old(items)[k.value].quantity + 1)])
      ensures ItemCount(items) == ItemCount(old(items)) + 1
    {
      var k := FirstIndex(items, LineOf, (ServiceLine, service.id));
      if k.Some? {
        BumpLine(k.value);
      } else {
        PushLine(NewServiceLine(service));
      }
      reply := Done;
    }

    /** `removeItem`: the line with that id goes, the others stay in order; an unknown id
        changes nothing. */
    method RemoveItem(id: string)
      requires Valid()
      modifies this
      ensures Valid() && promotion == old(promotion)
      ensures items == RemoveFirst(old(items), LineIdOf, id)
      ensures FirstIndex(old(items), LineIdOf, id).None? ==> items == old(items)
    {
      RemoveFirstIsSplice(items, LineIdOf, id);
      var index := FirstIndex(items, LineIdOf, id);
      if index.Some? {
        SpliceLine(items, index.value);
        items := items[..index.value] + items[index.value + 1..];
      }
    }

    /** `updateQuantity`: for a known line, a quantity of zero or less removes it (and the
        call returns nothing), a quantity above the line's recorded non-zero stock is refused
        with the line unchanged, anything else becomes the line's quantity. An unknown id
        changes nothing and reports success. */
    method UpdateQuantity(id: string, quantity: int) returns (reply: Option<CartReply>)
      requires Valid()
      modifies this
      ensures Valid() && promotion == old(promotion)
      ensures var k := FirstIndex(old(items), LineIdOf, id);
        && (k.None? ==> reply == Some(Done) && items == old(items))
        && (k.Some? && quantity <= 0 ==>
              reply.None? && items == old(items)[..k.value] + old(items)[k.value + 1..])
        && (k.Some? && quantity > 0 && AboveStock(old(items)[k.value].stock, quantity) ==>
              reply == Some(InsufficientStock) && items == old(items))
        && (k.Some? && quantity > 0 && !AboveStock(old(items)[k.value].stock, quantity) ==>
              reply == Some(Done) && items == old(items)[k.value := WithQuantity(old(items)[k.value], quantity)])
    {
      var k := FirstIndex(items, LineIdOf, id);
      if k.Some? {
        if quantity <= 0 {
          RemoveFirstIsSplice(items, LineIdOf, id);
          RemoveItem(id);
          return None;
        }
        var item := items[k.value];
        if item.stock.Some? && item.stock.value != 0 && quantity > item.stock.value {
          return Some(InsufficientStock);
        }
        assert LineWellFormed(item);
        UpdateLine(items, k.value, WithQuantity(item, quantity));
        items := items[k.value := WithQuantity(item, quantity)];
      }
      return Some(Done);
    }

    /** `clearCart`: no lines and no promotion. */
    method ClearCart()
      modifies this
      ensures Valid() && items == [] && promotion.None?
      ensures Subtotal(items) == 0 && ItemCount(items) == 0 && Total(items, promotion) == 0.0
    {
      items := [];
      promotion := None;
    }

    /** `setPromotion`: replaces the promotion, whatever it is. */
    method SetPromotion(p: Option<Promotion>)
      modifies this
      ensures items == old(items) && promotion == p
    {
      promotion := p;
    }
  }

  // ---------------------------------------------------------------- checkout snapshot

  /** One line of the checkout payload. */
  datatype CartLineData = CartLineData(kind: LineKind, itemId: nat, quantity: int, price: int, total: int)

  /** The payload `getCartData` builds for the sale endpoint. */
  datatype CartData = CartData(
    items: seq<CartLineData>, subtotal: int, discount: real, total: real,
    promotionId: Option<nat>)

  function LineData(it: CartItem): CartLineData {
    CartLineData(it.kind, it.itemId, it.quantity, it.price, it.total)
  }

  function LineDataTotal(d: CartLineData): int { d.total }

  /** `getCartData`: the lines in order with their type, item, quantity, price and total,
      the three amounts as the cart computes them, and the promotion's id (a missing
      promotion or an id of 0 gives null). */
  function GetCartData(items: seq<CartItem>, promotion: Option<Promotion>): (d: CartData)
    ensures |d.items| == |items|
    ensures forall i :: 0 <= i < |items| ==> d.items[i] == LineData(items[i])
    ensures d.subtotal == SumBy(d.items, LineDataTotal) == Subtotal(items)
    ensures d.discount == Discount(items, promotion)
    ensures d.total == Total(items, promotion) && d.total >= 0.0
    ensures d.promotionId.Some? <==> promotion.Some? && promotion.value.id != 0
    ensures d.promotionId.Some? ==> d.promotionId.value == promotion.value.id
  {
    var lines := seq(|items|, i requires 0 <= i < |items| => LineData(items[i]));
    SnapshotTotals(items, lines);
    CartData(lines, Subtotal(items), Discount(items, promotion), Total(items, promotion),
             if promotion.Some? && promotion.value.id != 0 then Some(promotion.value.id) else None)
  }

  lemma {:induction false} SnapshotTotals(items: seq<CartItem>, lines: seq<CartLineData>)
    requires |lines| == |items|
    requires forall i :: 0 <= i < |items| ==> lines[i] == LineData(items[i])
    ensures SumBy(lines, LineDataTotal) == Subtotal(items)
  {
    if items != [] {
      SnapshotTotals(items[..|items| - 1], lines[..|lines| - 1]);
    }
  }
}
