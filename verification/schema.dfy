/** The rows the handlers read and write. Timestamps are milliseconds on the server's
    local timeline; money is whole kip, except the sale discount and total, which the
    cart computes with a percentage and may therefore be fractional. */
module Schema {
  import opened Wrappers

  datatype Role = ADMIN | EMPLOYEE

  function RoleName(r: Role): string {
    match r
    case ADMIN => "ADMIN"
    case EMPLOYEE => "EMPLOYEE"
  }

  /** The store accepts only the enum's own spellings. */
  function ParseRole(s: string): (r: Option<Role>)
    ensures r.Some? ==> RoleName(r.value) == s
    ensures forall x :: RoleName(x) == s ==> r == Some(x)
  {
    if s == "ADMIN" then Some(ADMIN)
    else if s == "EMPLOYEE" then Some(EMPLOYEE)
    else None
  }

  datatype SaleStatus = PAID | UNPAID | TRANSFER

  function StatusName(st: SaleStatus): string {
    match st
    case PAID => "PAID"
    case UNPAID => "UNPAID"
    case TRANSFER => "TRANSFER"
  }

  function ParseStatus(s: string): (r: Option<SaleStatus>)
    ensures r.Some? ==> StatusName(r.value) == s
    ensures forall x :: StatusName(x) == s ==> r == Some(x)
  {
    if s == "PAID" then Some(PAID)
    else if s == "UNPAID" then Some(UNPAID)
    else if s == "TRANSFER" then Some(TRANSFER)
    else None
  }

  datatype Customer = Customer(
    id: nat, firstName: string, lastName: string, phone: string,
    address: Option<string>, createdAt: int)

  datatype User = User(
    id: nat, username: string, password: string, name: string,
    role: Role, isActive: bool, createdAt: int)

  datatype Category = Category(id: nat, name: string, unit: string, createdAt: int)

  datatype Product = Product(
    id: nat, name: string, description: Option<string>, price: int, costPrice: int,
    stock: int, minStock: int, categoryId: nat, isActive: bool, createdAt: int)

  datatype Service = Service(
    id: nat, name: string, description: Option<string>, price: int,
    isActive: bool, createdAt: int)

  datatype Promotion = Promotion(
    id: nat, name: string, description: Option<string>, discount: int, isPercent: bool,
    startDate: int, endDate: int, isActive: bool, createdAt: int)

  datatype Sale = Sale(
    id: nat, invoiceNumber: string, customerId: nat, userId: nat,
    promotionId: Option<nat>, subtotal: int, discount: real, total: real,
    status: SaleStatus, notes: Option<string>, createdAt: int)

  /** One line of a sale; the store does not force exactly one of productId and serviceId. */
  datatype SaleItem = SaleItem(
    id: nat, saleId: nat, productId: Option<nat>, serviceId: Option<nat>,
    quantity: int, price: int, total: int)

  datatype ClinicSettings = ClinicSettings(
    id: nat, name: string, subtitle: string, logo: Option<string>)

  /** The row id is its autoincrement position: row i (from 0) has id i + 1. */
  ghost predicate SequentialIds<T>(rows: seq<T>, id: T -> nat) {
    forall i :: 0 <= i < |rows| ==> id(rows[i]) == i + 1
  }

  function CustomerId(c: Customer): nat { c.id }
  function UserId(u: User): nat { u.id }
  function CategoryId(c: Category): nat { c.id }
  function ProductId(p: Product): nat { p.id }
  function ServiceId(s: Service): nat { s.id }
  function PromotionId(p: Promotion): nat { p.id }
  function SaleId(s: Sale): nat { s.id }
  function SaleItemId(s: SaleItem): nat { s.id }
  function SettingsId(s: ClinicSettings): nat { s.id }

  /** `Number(sale.total)`. */
  function SaleTotal(s: Sale): real { s.total }

  /** A product is low on stock when its stock is at most its minimum (`stock <= minStock`). */
  predicate LowOnStock(p: Product) {
    p.stock <= p.minStock
  }

  predicate ActiveProduct(p: Product) {
    p.isActive
  }
}
