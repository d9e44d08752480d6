/** The revenue report (GET /api/reports/revenue, admins only): the paid sales of a date
    window, oldest first, grouped by a period key into a `Map` that keeps its keys in
    first-insertion order, with the overall revenue, count and average. The calendar
    reading of an instant (local for the year, month and week keys, UTC for the daily key)
    comes in as two functions, since it depends on the server's time zone. Amounts are
    exact reals. */
module RevenueReport {
  import opened Wrappers
  import opened Text
  import opened Seqs
  import opened Schema
  import opened Calendar
  import opened AuthUtils

  const DefaultPeriod: string := "daily"
  const Yearly: string := "yearly"
  const Monthly: string := "monthly"
  const Weekly: string := "weekly"
  const LookbackDays: int := 30

  // ---------------------------------------------------------------- period keys

  /** A calendar date as `getFullYear()`, `getMonth()` (from 0) and `getDate()` read it. */
  datatype Civil = Civil(year: int, month: int, date: int)

  /** c is a valid date and it is the day of instant t. */
  predicate DateOf(t: int, c: Civil) {
    && 0 <= c.month < 12 && 1 <= c.date <= DaysInMonth(c.year, c.month)
    && DayOf(t) == MakeDay(c.year, c.month, c.date)
  }

  /** `n.toString()` for any integer. */
  function IntToString(n: int): string {
    if n < 0 then "-" + NatToString(-n) else NatToString(n)
  }

  /** The text of an integer starts with a minus sign exactly when it is negative, and the
      rest is a run of digits that reads back as its magnitude. */
  lemma IntToStringReadsBack(n: int)
    ensures var s := IntToString(n);
      && |s| >= 1 && (s[0] == '-' <==> n < 0)
      && var digits := if n < 0 then s[1..] else s;
         && |digits| >= 1 && AllDigits(digits)
         && DigitsValue(digits) == (if n < 0 then -n else n)
  {
    var magnitude := if n < 0 then -n else n;
    NatToStringRoundTrip(magnitude);
    if n < 0 {
      assert IntToString(n)[1..] == NatToString(magnitude);
    }
  }

  /** `String(n).padStart(2, "0")`. */
  function Pad2(n: int): string {
    PadStart(IntToString(n), 2, '0')
  }

  /** `Math.ceil`. */
  function Ceil(x: real): (n: int)
    ensures x <= n as real < x + 1.0
  {
    -((-x).Floor)
  }

  /** The week number of the weekly key: days since January 1 (with the fraction of the
      current day), plus January 1's weekday, plus one, over seven, rounded up. */
  function WeekOfYear(t: int, c: Civil): int {
    var oneJan := MakeDay(c.year, 0, 1);
    Ceil(((t - MakeTime(oneJan, 0)) as real / DayMs as real + Weekday(oneJan) as real + 1.0) / 7.0)
  }

  /** The year part of `toISOString()`: four digits, or a sign and six digits outside 0..9999. */
  function IsoYear(y: int): string {
    if 0 <= y <= 9999 then PadStart(NatToString(y), 4, '0')
    else if y < 0 then "-" + PadStart(NatToString(-y), 6, '0')
    else "+" + PadStart(NatToString(y), 6, '0')
  }

  /** The group key of a sale created at t, for each period; any other period is daily,
      the date part of `toISOString()`. */
  function PeriodKey(period: string, t: int, local: Civil, utc: Civil): string {
    if period == Yearly then YearlyKey(local)
    else if period == Monthly then MonthlyKey(local)
    else if period == Weekly then WeeklyKey(t, local)
    else DailyKey(utc)
  }

  /** `getFullYear().toString()`. */
  function YearlyKey(local: Civil): string {
    IntToString(local.year)
  }

  /** `${getFullYear()}-${String(getMonth() + 1).padStart(2, "0")}`. */
  function MonthlyKey(local: Civil): string {
    IntToString(local.year) + "-" + Pad2(local.month + 1)
  }

  /** `${getFullYear()}-W${String(week).padStart(2, "0")}`. */
  function WeeklyKey(t: int, local: Civil): string {
    IntToString(local.year) + "-W" + Pad2(WeekOfYear(t, local))
  }

  /** `toISOString().split("T")[0]`: the UTC date as YYYY-MM-DD. */
  function DailyKey(utc: Civil): string {
    IsoYear(utc.year) + "-" + Pad2(utc.month + 1) + "-" + Pad2(utc.date)
  }

  /** The week number of a valid date is between 1 and 54, so its key part has two digits. */
  lemma WeekInRange(t: int, c: Civil)
    requires DateOf(t, c)
    ensures 1 <= WeekOfYear(t, c) <= 54
  {
    var oneJan := MakeDay(c.year, 0, 1);
    DayOfYearBounds(c.year, c.month, c.date);
    var elapsed := t - MakeTime(oneJan, 0);
    assert t == DayOf(t) * DayMs + t % DayMs;
    assert 0 <= elapsed < 366 * DayMs;
    var days := elapsed as real / DayMs as real;
    assert 0.0 <= days < 366.0;
    var x := (days + Weekday(oneJan) as real + 1.0) / 7.0;
    assert 0.0 < x < 54.0;
  }

  /** `toString()` of distinct integers differ. */
  lemma IntToStringInjective(m: int, n: int)
    requires IntToString(m) == IntToString(n)
    ensures m == n
  {
    if m < 0 && n < 0 {
      assert NatToString(-m) == IntToString(m)[1..] == IntToString(n)[1..] == NatToString(-n);
      NatToStringInjective(-m, -n);
    } else if m >= 0 && n >= 0 {
      NatToStringInjective(m, n);
    } else {
      assert false;
    }
  }

  /** Two sales fall in the same monthly group exactly when they are in the same local
      calendar month. */
  lemma MonthlyKeySeparatesMonths(c1: Civil, c2: Civil)
    requires 0 <= c1.month < 12 && 0 <= c2.month < 12
    ensures MonthlyKey(c1) == MonthlyKey(c2) <==> c1.year == c2.year && c1.month == c2.month
  {
    if MonthlyKey(c1) == MonthlyKey(c2) {
      MonthlyKeyParts(c1);
      MonthlyKeyParts(c2);
      IntToStringInjective(c1.year, c2.year);
    }
  }

  /** A monthly key ends in the two month digits after a dash; before the dash is the year. */
  lemma MonthlyKeyParts(c: Civil)
    requires 0 <= c.month < 12
    ensures var k := MonthlyKey(c);
      && |k| >= 3
      && k[..|k| - 3] == IntToString(c.year)
      && AllDigits(k[|k| - 2..]) && DigitsValue(k[|k| - 2..]) == c.month + 1
  {
    assert MonthlyKey(c) == IntToString(c.year) + "-" + Pad2(c.month + 1);
    TwoDigitMonth(c.month);
    DashedParts(IntToString(c.year), Pad2(c.month + 1));
  }

  /** The parts of `head + "-" + tail` with a two-character tail, counted from the end. */
  lemma DashedParts(head: string, tail: string)
    requires |tail| == 2 && AllDigits(tail)
    ensures var k := head + "-" + tail;
      && |k| >= 3 && k[..|k| - 3] == head && k[|k| - 2..] == tail
      && AllDigits(k[|k| - 2..]) && DigitsValue(k[|k| - 2..]) == DigitsValue(tail)
  {
    var k := head + "-" + tail;
    assert k[..|k| - 3] == head;
    assert k[|k| - 2..] == tail;
  }

  /** The month part of a key: two digits worth the month number from 1. */
  lemma TwoDigitMonth(m: int)
    requires 0 <= m < 12
    ensures |Pad2(m + 1)| == 2 && AllDigits(Pad2(m + 1)) && DigitsValue(Pad2(m + 1)) == m + 1
  {
    assert Pow10(2) == 100;
    assert IntToString(m + 1) == NatToString(m + 1);
    PaddedNumber(m + 1, 2);
  }

  /** Two sales fall in the same yearly group exactly when their local years agree. */
  lemma YearlyKeySeparatesYears(c1: Civil, c2: Civil)
    ensures YearlyKey(c1) == YearlyKey(c2) <==> c1.year == c2.year
  {
    if YearlyKey(c1) == YearlyKey(c2) {
      IntToStringInjective(c1.year, c2.year);
    }
  }

  // ---------------------------------------------------------------- grouping

  /** A sale reduced to what grouping uses: its key and `Number(sale.total)`. */
  datatype Entry = Entry(key: string, amount: real)

  /** One entry of the result: `{ period, revenue, count }`. */
  datatype Group = Group(period: string, revenue: real, count: nat)

  function Period(g: Group): string { g.period }
  function GroupCount(g: Group): int { g.count }
  function GroupRevenue(g: Group): real { g.revenue }
  function Amount(e: Entry): real { e.amount }

  function Periods(groups: seq<Group>): (r: seq<string>)
    ensures |r| == |groups|
    ensures forall i :: 0 <= i < |groups| ==> r[i] == groups[i].period
  {
    seq(|groups|, i requires 0 <= i < |groups| => groups[i].period)
  }

  predicate UniquePeriods(groups: seq<Group>) {
    forall i, j :: 0 <= i < j < |groups| ==> groups[i].period != groups[j].period
  }

  /** `current.revenue += amount; current.count += 1`. */
  function Bump(g: Group, amount: real): Group {
    g.(revenue := g.revenue + amount, count := g.count + 1)
  }

  /** One step of the loop: the group of the entry's key is bumped in place, or a fresh
      `{ revenue: 0, count: 0 }` is bumped and set at the end of the map. */
  function AddSale(groups: seq<Group>, e: Entry): seq<Group> {
    match FirstIndex(groups, Period, e.key)
    case None => groups + [Bump(Group(e.key, 0.0, 0), e.amount)]
    case Some(i) => groups[i := Bump(groups[i], e.amount)]
  }

  /** The map after the loop has seen all entries, in its iteration order. */
  function GroupEntries(entries: seq<Entry>): seq<Group> {
    if entries == [] then []
    else AddSale(GroupEntries(entries[..|entries| - 1]), entries[|entries| - 1])
  }

  /** How many entries carry key k. */
  function CountKey(entries: seq<Entry>, k: string): nat {
    if entries == [] then 0
    else CountKey(entries[..|entries| - 1], k) + if entries[|entries| - 1].key == k then 1 else 0
  }

  /** The amounts of the entries carrying key k, summed. */
  function AmountOfKey(entries: seq<Entry>, k: string): real {
    if entries == [] then 0.0
    else AmountOfKey(entries[..|entries| - 1], k) + if entries[|entries| - 1].key == k then entries[|entries| - 1].amount else 0.0
  }

  /** The distinct keys, each where it first occurs. */
  function KeysInOrder(entries: seq<Entry>): seq<string> {
    if entries == [] then []
    else
      var earlier := KeysInOrder(entries[..|entries| - 1]);
      var k := entries[|entries| - 1].key;
      if k in earlier then earlier else earlier + [k]
  }

  lemma {:induction false} NoCountNoAmount(entries: seq<Entry>, k: string)
    requires CountKey(entries, k) == 0
    ensures AmountOfKey(entries, k) == 0.0
  {
    if entries != [] {
      NoCountNoAmount(entries[..|entries| - 1], k);
    }
  }

  /** What the grouping invariant says about a map built from some entries. */
  ghost predicate GroupsOf(entries: seq<Entry>, g: seq<Group>) {
    && Periods(g) == KeysInOrder(entries)
    && UniquePeriods(g)
    && (forall i :: 0 <= i < |g| ==>
          g[i].count == CountKey(entries, g[i].period) && g[i].revenue == AmountOfKey(entries, g[i].period))
    && (forall k :: k in Periods(g) <==> CountKey(entries, k) > 0)
  }

  /** Appending an entry adds to the count and sum of its own key only. */
  lemma AppendEntry(entries: seq<Entry>, e: Entry)
    ensures forall k :: CountKey(entries + [e], k) == CountKey(entries, k) + if e.key == k then 1 else 0
    ensures forall k :: AmountOfKey(entries + [e], k) == AmountOfKey(entries, k) + if e.key == k then e.amount else 0.0
    ensures KeysInOrder(entries + [e]) == if e.key in KeysInOrder(entries) then KeysInOrder(entries) else KeysInOrder(entries) + [e.key]
  {
    var all := entries + [e];
    assert all[..|all| - 1] == entries;
  }

  /** Bumping the group that already holds the entry's key keeps the invariant. */
  lemma BumpKeepsGroups(entries: seq<Entry>, g: seq<Group>, e: Entry, j: nat)
    requires GroupsOf(entries, g)
    requires j < |g| && g[j].period == e.key
    ensures GroupsOf(entries + [e], g[j := Bump(g[j], e.amount)])
  {
    var g' := g[j := Bump(g[j], e.amount)];
    AppendEntry(entries, e);
    assert Periods(g') == Periods(g);
    assert e.key in Periods(g) by {
      assert Periods(g)[j] == e.key;
    }
    forall i | 0 <= i < |g'|
      ensures g'[i].count == CountKey(entries + [e], g'[i].period)
      ensures g'[i].revenue == AmountOfKey(entries + [e], g'[i].period)
    {
      if i != j {
        assert g[i].period != g[j].period;
      }
    }
  }

  /** Appending a group for a key not seen before keeps the invariant. */
  lemma AppendKeepsGroups(entries: seq<Entry>, g: seq<Group>, e: Entry)
    requires GroupsOf(entries, g)
    requires e.key !in Periods(g)
    ensures GroupsOf(entries + [e], g + [Bump(Group(e.key, 0.0, 0), e.amount)])
  {
    var all := entries + [e];
    var g' := g + [Bump(Group(e.key, 0.0, 0), e.amount)];
    AppendEntry(entries, e);
    NoCountNoAmount(entries, e.key);
    assert Periods(g') == Periods(g) + [e.key];
    assert Periods(g') == KeysInOrder(all);
    assert UniquePeriods(g') by {
      forall i, j | 0 <= i < j < |g'| ensures g'[i].period != g'[j].period {
        if j == |g| {
          assert Periods(g)[i] == g[i].period;
        }
      }
    }
    forall i | 0 <= i < |g'|
      ensures g'[i].count == CountKey(all, g'[i].period)
      ensures g'[i].revenue == AmountOfKey(all, g'[i].period)
    {
      if i < |g| {
        assert g'[i] == g[i] && Periods(g)[i] != e.key;
      }
    }
    forall k ensures k in Periods(g') <==> CountKey(all, k) > 0 {
    }
  }

  /** One loop step keeps the grouping invariant. */
  lemma AddSaleKeepsGroups(entries: seq<Entry>, g: seq<Group>, e: Entry)
    requires GroupsOf(entries, g)
    ensures GroupsOf(entries + [e], AddSale(g, e))
  {
    match FirstIndex(g, Period, e.key)
    case Some(j) =>
      BumpKeepsGroups(entries, g, e, j);
    case None =>
      assert forall i :: 0 <= i < |g| ==> Periods(g)[i] != e.key;
      AppendKeepsGroups(entries, g, e);
  }

  /** The grouped map has one entry per distinct key, in first-occurrence order, and each
      entry counts and sums exactly the sales carrying its key. */
  lemma {:induction false} GroupedExactly(entries: seq<Entry>)
    ensures GroupsOf(entries, GroupEntries(entries))
  {
    if entries != [] {
      var init := entries[..|entries| - 1];
      GroupedExactly(init);
      AddSaleKeepsGroups(init, GroupEntries(init), entries[|entries| - 1]);
      assert init + [entries[|entries| - 1]] == entries;
    }
  }

  /** The counts add up to the number of sales and the revenues to their total. */
  lemma {:induction false} GroupedTotals(entries: seq<Entry>)
    ensures SumBy(GroupEntries(entries), GroupCount) == |entries|
    ensures SumByReal(GroupEntries(entries), GroupRevenue) == SumByReal(entries, Amount)
  {
    if entries != [] {
      var init := entries[..|entries| - 1];
      var e := entries[|entries| - 1];
      var g := GroupEntries(init);
      GroupedTotals(init);
      match FirstIndex(g, Period, e.key)
      case Some(j) =>
        SumByUpdate(g, j, Bump(g[j], e.amount), GroupCount);
        SumByRealUpdate(g, j, Bump(g[j], e.amount), GroupRevenue);
      case None =>
        var started := Bump(Group(e.key, 0.0, 0), e.amount);
        SumByAppend(g, [started], GroupCount);
        SumByRealAppend(g, [started], GroupRevenue);
        assert [started][..0] == [];
    }
  }

  // ---------------------------------------------------------------- the loop

  /** The entry of each sale, in order. */
  function EntriesOf(rows: seq<Sale>, period: string, local: int -> Civil, utc: int -> Civil): (r: seq<Entry>)
    ensures |r| == |rows|
    ensures forall i :: 0 <= i < |rows| ==> r[i].amount == rows[i].total
  {
    seq(|rows|, i requires 0 <= i < |rows| =>
      Entry(PeriodKey(period, rows[i].createdAt, local(rows[i].createdAt), utc(rows[i].createdAt)), rows[i].total))
  }

  lemma {:induction false} EntriesSum(rows: seq<Sale>, period: string, local: int -> Civil, utc: int -> Civil)
    ensures SumByReal(EntriesOf(rows, period, local, utc), Amount) == SumByReal(rows, SaleTotal)
  {
    if rows != [] {
      var init := rows[..|rows| - 1];
      assert EntriesOf(rows, period, local, utc)[..|rows| - 1] == EntriesOf(init, period, local, utc);
      EntriesSum(init, period, local, utc);
    }
  }

  /** The `for (const sale of sales)` loop over a `Map` held as a sequence of groups. */
  method GroupByPeriod(rows: seq<Sale>, period: string, local: int -> Civil, utc: int -> Civil)
    returns (grouped: seq<Group>)
    ensures grouped == GroupEntries(EntriesOf(rows, period, local, utc))
  {
    ghost var entries := EntriesOf(rows, period, local, utc);
    grouped := [];
    for i := 0 to |rows|
      invariant grouped == GroupEntries(entries[..i])
    {
      ghost var before := grouped;
      var sale := rows[i];
      var key := PeriodKey(period, sale.createdAt, local(sale.createdAt), utc(sale.createdAt));
      var found := FirstIndex(grouped, Period, key);
      var current := if found.Some? then grouped[found.value] else Group(key, 0.0, 0);
      ghost var fetched := current;
      current := current.(revenue := current.revenue + sale.total);
      current := current.(count := current.count + 1);
      assert current == Bump(fetched, sale.total);
      if found.Some? {
        grouped := grouped[found.value := current];
      } else {
        grouped := grouped + [current];
      }
      assert entries[i] == Entry(key, sale.total);
      assert grouped == AddSale(before, entries[i]);
      assert entries[..i + 1][..i] == entries[..i];
    }
    assert entries[..|rows|] == entries;
  }

  // ---------------------------------------------------------------- the endpoint

  /** The query; a non-empty `startDate` or `endDate` already read as an instant. */
  datatype ReportQuery = ReportQuery(period: Option<string>, startDate: Option<int>, endDate: Option<int>)

  datatype Summary = Summary(totalRevenue: real, totalCount: nat, avgPerSale: real)

  datatype Report = Report(report: seq<Group>, summary: Summary)

  /** The window: from `startDate`, or thirty days before now; to the last millisecond of
      the day of `endDate`, or of today. */
  function WindowStart(query: ReportQuery, now: int): int {
    if query.startDate.Some? then query.startDate.value else AddDays(now, -LookbackDays)
  }

  function WindowEnd(query: ReportQuery, now: int): int {
    SetHours(if query.endDate.Some? then query.endDate.value else now, 23, 59, 59, 999)
  }

  predicate Reported(s: Sale, from: int, to: int) {
    s.status == PAID && from <= s.createdAt <= to
  }

  function CreatedAt(s: Sale): int { s.createdAt }

  /** `findMany({ where: { status: "PAID", createdAt: { gte, lte } }, orderBy: { createdAt: "asc" } })`. */
  function ReportedSales(sales: seq<Sale>, from: int, to: int): (r: seq<Sale>)
    ensures forall x :: multiset(r)[x] == if Reported(x, from, to) then multiset(sales)[x] else 0
    ensures forall i, j :: 0 <= i < j < |r| ==> r[i].createdAt <= r[j].createdAt
  {
    var r := SortBy(Filter(sales, s => Reported(s, from, to)), CreatedAt);
    assert forall i, j :: 0 <= i < j < |r| ==> CreatedAt(r[i]) <= CreatedAt(r[j]);
    r
  }

  /** `totalCount > 0 ? totalRevenue / totalCount : 0`. */
  function Average(total: real, count: nat): (r: real)
    ensures count > 0 ==> r * count as real == total
    ensures count == 0 ==> r == 0.0
  {
    if count > 0 then total / count as real else 0.0
  }

  /** GET /api/reports/revenue. */
  method RevenueIndex(caller: Option<JwtPayload>, query: ReportQuery, sales: seq<Sale>, now: int,
                      local: int -> Civil, utc: int -> Civil)
    returns (r: Result<Report>)
    ensures r.Err? <==> RequireAdmin(caller).Err?
    ensures r.Err? ==> r.error == RequireAdmin(caller).error
    ensures r.Ok? ==>
      var rows := ReportedSales(sales, WindowStart(query, now), WindowEnd(query, now));
      var entries := EntriesOf(rows, TextOr(query.period, DefaultPeriod), local, utc);
      && r.value.report == GroupEntries(entries)
      && GroupsOf(entries, r.value.report)
      && r.value.summary.totalCount == |rows|
      && r.value.summary.totalRevenue == SumByReal(rows, SaleTotal)
      && SumBy(r.value.report, GroupCount) == r.value.summary.totalCount
      && SumByReal(r.value.report, GroupRevenue) == r.value.summary.totalRevenue
      && r.value.summary.avgPerSale == Average(r.value.summary.totalRevenue, |rows|)
  {
    var auth := RequireAdmin(caller);
    if auth.Err? {
      return Err(auth.error);
    }
    var period := TextOr(query.period, DefaultPeriod);
    var startDate := if query.startDate.Some? then query.startDate.value else AddDays(now, -LookbackDays);
    var endDate := if query.endDate.Some? then query.endDate.value else now;
    endDate := SetHours(endDate, 23, 59, 59, 999);
    var rows := ReportedSales(sales, startDate, endDate);
    var grouped := GroupByPeriod(rows, period, local, utc);
    var totalRevenue := SumByReal(rows, SaleTotal);
    var totalCount := |rows|;
    ghost var entries := EntriesOf(rows, period, local, utc);
    GroupedExactly(entries);
    GroupedTotals(entries);
    EntriesSum(rows, period, local, utc);
    r := Ok(Report(grouped, Summary(totalRevenue, totalCount, Average(totalRevenue, totalCount))));
  }
}
