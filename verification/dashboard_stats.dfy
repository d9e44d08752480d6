/** The dashboard figures (GET /api/dashboard/stats): the date ranges of today, this week
    (Sunday to Saturday) and this month, built by stepping `Date` values; the number of
    active products low on stock; and sale counts and revenue sums, each sum 0 when the
    store's aggregate is null. The clock reading comes in as its local year, month and day. */
module DashboardStats {
  import opened Wrappers
  import opened Seqs
  import opened Schema
  import opened Calendar
  import opened AuthUtils

  datatype Ranges = Ranges(
    startOfToday: int, endOfToday: int,
    startOfThisWeek: int, endOfThisWeek: int,
    startOfThisMonth: int, endOfThisMonth: int)

  /** The six bounds in calendar terms: today runs from midnight to the last millisecond
      before the next midnight, the week from the Sunday on or before today through the
      Saturday after it, the month from its first day through its last. */
  function RangesOf(year: int, month: int, date: int): Ranges
    requires 0 <= month < 12
  {
    var today := MakeDay(year, month, date);
    var sunday := today - Weekday(today);
    Ranges(MakeTime(today, 0), MakeTime(today + 1, 0) - 1,
           MakeTime(sunday, 0), MakeTime(sunday + 7, 0) - 1,
           MakeTime(MakeDay(year, month, 1), 0),
           MakeTime(MakeDay(year, month, DaysInMonth(year, month)) + 1, 0) - 1)
  }

  /** What the six bounds mean: today is one whole day, the week runs from a Sunday through
      the Saturday after it and holds today, the month runs from its first day through its
      last and holds today. */
  lemma RangesOfBounds(year: int, month: int, date: int)
    requires 0 <= month < 12 && 1 <= date <= DaysInMonth(year, month)
    ensures var r := RangesOf(year, month, date);
      && r.startOfToday == MakeTime(MakeDay(year, month, date), 0)
      && r.endOfToday == r.startOfToday + DayMs - 1
      && DayOf(r.startOfThisWeek) <= DayOf(r.startOfToday) < DayOf(r.startOfThisWeek) + 7
      && r.startOfThisWeek == MakeTime(DayOf(r.startOfToday) - Weekday(DayOf(r.startOfToday)), 0)
      && r.startOfThisWeek == MakeTime(DayOf(r.startOfThisWeek), 0)
      && WeekdayOf(r.startOfThisWeek) == 0
      && r.endOfThisWeek == MakeTime(DayOf(r.startOfThisWeek) + 7, 0) - 1
      && WeekdayOf(r.endOfThisWeek) == 6
      && r.startOfThisMonth == MakeTime(MakeDay(year, month, 1), 0)
      && r.endOfThisMonth == MakeTime(MakeDay(year, month, DaysInMonth(year, month)) + 1, 0) - 1
      && r.startOfThisWeek <= r.startOfToday <= r.endOfToday <= r.endOfThisWeek
      && r.startOfThisMonth <= r.startOfToday && r.endOfToday <= r.endOfThisMonth
  {
    var today := MakeDay(year, month, date);
    var sunday := today - Weekday(today);
    EndOfDay(today, 0);
    EndOfDay(sunday, 0);
    BackToSunday(today);
    EndOfDay(sunday + 6, DayMs - 1);
  }

  /** The six bounds, computed step by step as the handler mutates its `Date` values. */
  method DateRanges(year: int, month: int, date: int) returns (r: Ranges)
    requires 0 <= month < 12 && 1 <= date <= DaysInMonth(year, month)
    ensures r == RangesOf(year, month, date)
  {
    var today := MakeDay(year, month, date);
    var startOfToday := MakeTime(today, 0);
    var endOfToday := startOfToday;
    endOfToday := SetHours(endOfToday, 23, 59, 59, 999);
    EndOfDay(today, 0);

    var startOfThisWeek := startOfToday;
    startOfThisWeek := AddDays(startOfThisWeek, -WeekdayOf(startOfThisWeek));
    var sunday := today - Weekday(today);
    assert startOfThisWeek == MakeTime(sunday, 0);

    var endOfThisWeek := startOfThisWeek;
    endOfThisWeek := AddDays(endOfThisWeek, 6);
    assert endOfThisWeek == MakeTime(sunday + 6, 0);
    EndOfDay(sunday + 6, 0);
    endOfThisWeek := SetHours(endOfThisWeek, 23, 59, 59, 999);

    var startOfThisMonth := MakeTime(MakeDay(year, month, 1), 0);

    var endOfThisMonth := MakeTime(MakeDay(year, month + 1, 0), 0);
    LastDayOfMonth(year, month);
    EndOfDay(MakeDay(year, month + 1, 0), 0);
    endOfThisMonth := SetHours(endOfThisMonth, 23, 59, 59, 999);

    r := Ranges(startOfToday, endOfToday, startOfThisWeek, endOfThisWeek, startOfThisMonth, endOfThisMonth);
  }

  /** `allProducts.filter(p => p.stock <= p.minStock).length` over the active products. */
  function LowStockCount(products: seq<Product>): (n: nat)
    ensures n <= |Filter(products, ActiveProduct)| <= |products|
  {
    |Filter(Filter(products, ActiveProduct), LowOnStock)|
  }

  predicate Between(s: Sale, from: int, to: int) {
    from <= s.createdAt <= to
  }

  /** `aggregate({ _sum: { total } })`: null over no rows, the sum otherwise. */
  function AggregateSum(rows: seq<Sale>): (r: Option<real>)
    ensures r.None? <==> rows == []
    ensures r.Some? ==> r.value == SumByReal(rows, SaleTotal)
  {
    if rows == [] then None else Some(SumByReal(rows, SaleTotal))
  }

  /** `Number(x._sum.total || 0)`. */
  function OrZero(sum: Option<real>): (r: real)
    ensures sum.None? ==> r == 0.0
    ensures sum.Some? ==> r == sum.value
  {
    if sum.Some? && sum.value != 0.0 then sum.value else 0.0
  }

  /** The sales whose `createdAt` lies in [from, to]. */
  function InRange(sales: seq<Sale>, from: int, to: int): (r: seq<Sale>)
    ensures |r| <= |sales|
    ensures forall i :: 0 <= i < |r| ==> from <= r[i].createdAt <= to
    ensures forall x :: multiset(r)[x] == if from <= x.createdAt <= to then multiset(sales)[x] else 0
  {
    Filter(sales, s => Between(s, from, to))
  }

  /** A revenue figure is the plain sum of the totals in its range; a null aggregate
      (no sale in range) reads as 0. */
  lemma RevenueIsSum(sales: seq<Sale>, from: int, to: int)
    ensures OrZero(AggregateSum(InRange(sales, from, to))) == SumByReal(InRange(sales, from, to), SaleTotal)
  {
  }

  datatype Stats = Stats(
    totalSales: nat, totalRevenue: real, totalCustomers: nat, lowStockProducts: nat,
    todayRevenue: real, weekRevenue: real, monthRevenue: real)

  /** GET /api/dashboard/stats, given the ranges of the current day. */
  function Dashboard(caller: Option<JwtPayload>, sales: seq<Sale>, customers: seq<Customer>,
                     products: seq<Product>, r: Ranges): (s: Result<Stats>)
    ensures caller.None? ==> s == Err(HttpError(401, LoginRequired))
    ensures caller.Some? ==> s.Ok?
    ensures s.Ok? ==>
      && s.value.totalSales == |sales| && s.value.totalCustomers == |customers|
      && s.value.lowStockProducts == LowStockCount(products)
      && s.value.totalRevenue == SumByReal(sales, SaleTotal)
      && s.value.todayRevenue == SumByReal(InRange(sales, r.startOfToday, r.endOfToday), SaleTotal)
      && s.value.weekRevenue == SumByReal(InRange(sales, r.startOfThisWeek, r.endOfThisWeek), SaleTotal)
      && s.value.monthRevenue == SumByReal(InRange(sales, r.startOfThisMonth, r.endOfThisMonth), SaleTotal)
  {
    match RequireAuth(caller)
    case Err(e) => Err(e)
    case Ok(_) =>
      Ok(Stats(|sales|, OrZero(AggregateSum(sales)), |customers|, LowStockCount(products),
               OrZero(AggregateSum(InRange(sales, r.startOfToday, r.endOfToday))),
               OrZero(AggregateSum(InRange(sales, r.startOfThisWeek, r.endOfThisWeek))),
               OrZero(AggregateSum(InRange(sales, r.startOfThisMonth, r.endOfThisMonth)))))
  }

  /** GET /api/dashboard/stats as a whole: authentication, then the ranges of the day the
      clock reads (its local year, month and day), then the figures over those ranges. */
  method StatsIndex(caller: Option<JwtPayload>, sales: seq<Sale>, customers: seq<Customer>,
                    products: seq<Product>, year: int, month: int, date: int)
    returns (s: Result<Stats>)
    requires 0 <= month < 12 && 1 <= date <= DaysInMonth(year, month)
    ensures caller.None? ==> s == Err(HttpError(401, LoginRequired))
    ensures caller.Some? ==> s.Ok? && s == Dashboard(caller, sales, customers, products, RangesOf(year, month, date))
  {
    var auth := RequireAuth(caller);
    if auth.Err? {
      return Err(auth.error);
    }
    var r := DateRanges(year, month, date);
    s := Dashboard(caller, sales, customers, products, r);
  }

  /** The low-stock count is exactly the number of active products with stock at or
      below their minimum, so it never exceeds the number of active products. */
  lemma LowStockCountExact(products: seq<Product>, p: Product)
    ensures LowStockCount(products) <= |Filter(products, ActiveProduct)|
    ensures p in Filter(Filter(products, ActiveProduct), LowOnStock) <==> p in products && p.isActive && LowOnStock(p)
  {
    FilterMembership(products, ActiveProduct, p);
    FilterMembership(Filter(products, ActiveProduct), LowOnStock, p);
  }
}
