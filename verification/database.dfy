/** The relational store behind the handlers: one sequence per table, in insertion
    order. Ids are autoincrement (row i has id i + 1; the core never deletes a row), the
    unique columns hold distinct values, and every foreign key names an existing row.
    A write that would break a unique or foreign key is refused by the store, which the
    handlers see as a thrown error. */
module Database {
  import opened Wrappers
  import opened Schema

  ghost predicate UniqueBy<T>(rows: seq<T>, key: T -> string) {
    forall i, j :: 0 <= i < j < |rows| ==> key(rows[i]) != key(rows[j])
  }

  /** A foreign key into a table of n rows with autoincrement ids. */
  predicate Refers(id: nat, n: nat) {
    1 <= id <= n
  }

  predicate RefersOpt(id: Option<nat>, n: nat) {
    id.None? || Refers(id.value, n)
  }

  function Phone(c: Customer): string { c.phone }
  function Username(u: User): string { u.username }
  function CategoryName(c: Category): string { c.name }
  function InvoiceNumber(s: Sale): string { s.invoiceNumber }

  /** Whether some row already has this key (`findUnique` on a unique column). */
  predicate Taken<T>(rows: seq<T>, key: T -> string, k: string) {
    exists i :: 0 <= i < |rows| && key(rows[i]) == k
  }

  /** Appending a row with a fresh key keeps the column unique. */
  lemma AppendKeepsUnique<T>(rows: seq<T>, key: T -> string, row: T)
    requires UniqueBy(rows, key) && !Taken(rows, key, key(row))
    ensures UniqueBy(rows + [row], key)
  {
    var r := rows + [row];
    forall i, j | 0 <= i < j < |r| ensures key(r[i]) != key(r[j]) {
      if j == |rows| {
        assert key(rows[i]) != key(row);
      }
    }
  }

  ghost predicate SaleRefsValid(s: Sale, customers: nat, users: nat, promotions: nat) {
    Refers(s.customerId, customers) && Refers(s.userId, users) && RefersOpt(s.promotionId, promotions)
  }

  ghost predicate SaleItemRefsValid(it: SaleItem, sales: nat, products: nat, services: nat) {
    Refers(it.saleId, sales) && RefersOpt(it.productId, products) && RefersOpt(it.serviceId, services)
  }

  /** The store's invariant, over the nine tables. */
  ghost predicate Consistent(
    customers: seq<Customer>, users: seq<User>, categories: seq<Category>,
    products: seq<Product>, services: seq<Service>, promotions: seq<Promotion>,
    sales: seq<Sale>, saleItems: seq<SaleItem>, settings: seq<ClinicSettings>)
  {
    && SequentialIds(customers, CustomerId)
    && SequentialIds(users, UserId)
    && SequentialIds(categories, CategoryId)
    && SequentialIds(products, ProductId)
    && SequentialIds(services, ServiceId)
    && SequentialIds(promotions, PromotionId)
    && SequentialIds(sales, SaleId)
    && SequentialIds(saleItems, SaleItemId)
    && SequentialIds(settings, SettingsId)
    && UniqueBy(customers, Phone)
    && UniqueBy(users, Username)
    && UniqueBy(categories, CategoryName)
    && UniqueBy(sales, InvoiceNumber)
    && (forall i :: 0 <= i < |products| ==> Refers(products[i].categoryId, |categories|))
    && (forall i :: 0 <= i < |sales| ==>
          SaleRefsValid(sales[i], |customers|, |users|, |promotions|))
    && (forall i :: 0 <= i < |saleItems| ==>
          SaleItemRefsValid(saleItems[i], |sales|, |products|, |services|))
  }

  class Database {
    var customers: seq<Customer>
    var users: seq<User>
    var categories: seq<Category>
    var products: seq<Product>
    var services: seq<Service>
    var promotions: seq<Promotion>
    var sales: seq<Sale>
    var saleItems: seq<SaleItem>
    var settings: seq<ClinicSettings>

    ghost predicate Valid()
      reads this
    {
      Consistent(customers, users, categories, products, services, promotions,
                 sales, saleItems, settings)
    }

    constructor ()
      ensures Valid()
      ensures customers == [] && users == [] && categories == [] && products == []
      ensures services == [] && promotions == [] && sales == [] && saleItems == []
      ensures settings == []
    {
      customers, users, categories, products := [], [], [], [];
      services, promotions, sales, saleItems, settings := [], [], [], [], [];
    }
  }
}
