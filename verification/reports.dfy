/**
 * The reports page (js/reports.js): the date range of a reporting period, the ledger
 * entries inside it, their totals, their totals per sub-period, and the per-product
 * sales performance with its ranking.
 */
module Reports {
  import opened Wrappers
  import opened Entities
  import opened Calendar
  import Seqs
  import Buckets
  import Dashboard

  // ---------------------------------------------------------------------------
  // Reporting periods
  // ---------------------------------------------------------------------------

  /** The period selector; `OtherPeriod` is any value the selector does not know. */
  datatype Period = DayPeriod | WeekPeriod | MonthPeriod | QuarterPeriod | YearPeriod | CustomPeriod | OtherPeriod

  /** Inclusive bounds, in local milliseconds. */
  datatype Range = Range(start: int, end: int)

  /** The day on which the period that contains `now` starts (the custom range starts a month back). */
  function StartDay(period: Period, now: Civil): int
  {
    var y, m, d := now.year, now.month, now.day;
    match period
    case DayPeriod => DayNumber(y, m, d)
    case WeekPeriod => DayNumber(y, m, d - Weekday(now))
    case MonthPeriod => DayNumber(y, m, 1)
    case QuarterPeriod => DayNumber(y, (m / 3) * 3, 1)
    case YearPeriod => DayNumber(y, 0, 1)
    case CustomPeriod => DayNumber(y, m - 1, 1)
    case OtherPeriod => DayNumber(y, m, 1)
  }

  /** `calculateDateRange`: from midnight of the start day up to the clock reading `now`. */
  function DateRange(period: Period, now: Civil): (r: Range)
    ensures r.end == Instant(now)
    ensures r.start == Midnight(StartDay(period, now))
  {
    Range(Midnight(StartDay(period, now)), Instant(now))
  }

  /** Every period starts on or before today, so its range is never empty. */
  lemma StartNotAfterNow(period: Period, now: Civil)
    requires ValidCivil(now)
    ensures StartDay(period, now) <= DayOf(now)
    ensures DateRange(period, now).start <= DateRange(period, now).end
  {
    StartDayNotAfterToday(period, now);
    InstantWithinDay(now);
    assert Midnight(StartDay(period, now)) <= Midnight(DayOf(now));
  }

  lemma StartDayNotAfterToday(period: Period, now: Civil)
    requires ValidCivil(now)
    ensures StartDay(period, now) <= DayOf(now)
  {
    var y, m := now.year, now.month;
    match period
    case QuarterPeriod => DayNumberMonotoneInMonth(y, (m / 3) * 3, m, 1);
    case YearPeriod => DayNumberMonotoneInMonth(y, 0, m, 1);
    case CustomPeriod => PreviousMonthStart(y, m);
    case _ =>
  }

  /** The week starts on the Sunday of the current week. */
  lemma WeekStartsOnSunday(now: Civil)
    ensures (StartDay(WeekPeriod, now) + 4) % 7 == 0
    ensures DayOf(now) - 6 <= StartDay(WeekPeriod, now) <= DayOf(now)
  {
    var n := DayOf(now);
    var w := Weekday(now);
    assert StartDay(WeekPeriod, now) == n - w;
    assert n + 4 == 7 * ((n + 4) / 7) + w;
    assert n - w + 4 == 7 * ((n + 4) / 7);
  }

  /** The month starts on day 1 of the current month; the quarter on day 1 of its first month. */
  lemma MonthAndQuarterStarts(now: Civil)
    requires ValidCivil(now)
    ensures StartDay(MonthPeriod, now) == DayOf(now) - (now.day - 1)
    ensures var qm := (now.month / 3) * 3;
      qm % 3 == 0 && qm <= now.month < qm + 3 && StartDay(QuarterPeriod, now) == DayNumber(now.year, qm, 1)
    ensures StartDay(YearPeriod, now) == DayNumber(now.year, 0, 1)
  {
    var m := now.month;
    assert m / 12 == 0 && m % 12 == m;
    var qm := (m / 3) * 3;
    assert 0 <= m / 3 < 4;
    assert qm <= m < qm + 3;
  }

  // ---------------------------------------------------------------------------
  // The entries of a period
  // ---------------------------------------------------------------------------

  function Within(r: Range): Transaction -> bool
  {
    (t: Transaction) => r.start <= Instant(t.date) <= r.end
  }

  /** `filterTransactionsByDateRange`: the entries dated inside the range, in ledger order. */
  function InRange(ts: seq<Transaction>, r: Range): (kept: seq<Transaction>)
    ensures forall k :: 0 <= k < |kept| ==> r.start <= Instant(kept[k].date) <= r.end
  {
    var kept := Seqs.Filter(ts, Within(r));
    assert forall k :: 0 <= k < |kept| ==> Within(r)(kept[k]);
    kept
  }

  /** An entry is kept, as often as it occurs, exactly when its date is inside the range. */
  lemma InRangeKeeps(ts: seq<Transaction>, r: Range, t: Transaction)
    ensures multiset(InRange(ts, r))[t] == if r.start <= Instant(t.date) <= r.end then multiset(ts)[t] else 0
  {
    Seqs.FilterCount(ts, Within(r), t);
  }

  // ---------------------------------------------------------------------------
  // Totals
  // ---------------------------------------------------------------------------

  /** What the crafted items of a craft entry cost, at today's item cost; unknown items count nothing. */
  function CraftCost(items: seq<TxItem>, cs: seq<CraftedItem>): real
  {
    if |items| == 0 then 0.0
    else
      var it := items[|items| - 1];
      CraftCost(items[..|items| - 1], cs)
      + match FindCrafted(cs, it.id)
        case Some(j) => cs[j].cost * it.quantity as real
        case None => 0.0
  }

  /** What one entry adds to revenue: a sale's recorded total. */
  function TxRevenue(t: Transaction): real
  {
    if t.kind == Sale then t.totalValue else 0.0
  }

  /** What one entry adds to costs: a purchase's total, or the cost of what a craft produced. */
  function TxCost(t: Transaction, cs: seq<CraftedItem>): real
  {
    match t.kind
    case Sale => 0.0
    case Purchase => t.totalValue
    case Craft => CraftCost(t.items, cs)
  }

  function TotalCosts(ts: seq<Transaction>, cs: seq<CraftedItem>): real
  {
    if |ts| == 0 then 0.0 else TotalCosts(ts[..|ts| - 1], cs) + TxCost(ts[|ts| - 1], cs)
  }

  lemma RevenueIsSales(ts: seq<Transaction>)
    ensures Dashboard.TotalRevenue(ts) == if |ts| == 0 then 0.0
            else Dashboard.TotalRevenue(ts[..|ts| - 1]) + TxRevenue(ts[|ts| - 1])
  {
  }

  /** The figures of `updateSummaryMetrics`. */
  datatype Metrics = Metrics(revenue: real, costs: real, netProfit: real, profitMargin: real)

  /** The inner loop over the lines of a craft entry. */
  method CraftItemsCost(items: seq<TxItem>, cs: seq<CraftedItem>) returns (cost: real)
    ensures cost == CraftCost(items, cs)
  {
    cost := 0.0;
    for j := 0 to |items|
      invariant cost == CraftCost(items[..j], cs)
    {
      Seqs.PrefixSnoc(items, j);
      match FindCrafted(cs, items[j].id) {
        case Some(k) => cost := cost + cs[k].cost * items[j].quantity as real;
        case None =>
      }
    }
    assert items[..|items|] == items;
  }

  /**
   * `updateSummaryMetrics`: sales are revenue, purchases and crafts are costs; the margin is
   * the net profit as a percentage of revenue, and 0 when there is no positive revenue.
   */
  method SummaryMetrics(ts: seq<Transaction>, cs: seq<CraftedItem>) returns (m: Metrics)
    ensures m.revenue == Dashboard.TotalRevenue(ts) && m.costs == TotalCosts(ts, cs)
    ensures m.netProfit == m.revenue - m.costs
    ensures m.revenue > 0.0 ==> m.profitMargin * m.revenue == m.netProfit * 100.0
    ensures m.revenue <= 0.0 ==> m.profitMargin == 0.0
  {
    var revenue, costs := SumFlows(ts, cs);
    var net := revenue - costs;
    var margin := 0.0;
    if revenue > 0.0 {
      margin := net / revenue * 100.0;
      MarginScales(net, revenue);
    }
    m := Metrics(revenue, costs, net, margin);
  }

  /** The loop of `calculateSummaryMetrics`: sales into revenue, purchases and crafts into costs. */
  method SumFlows(ts: seq<Transaction>, cs: seq<CraftedItem>) returns (revenue: real, costs: real)
    ensures revenue == Dashboard.TotalRevenue(ts) && costs == TotalCosts(ts, cs)
  {
    revenue, costs := 0.0, 0.0;
    for i := 0 to |ts|
      invariant revenue == Dashboard.TotalRevenue(ts[..i]) && costs == TotalCosts(ts[..i], cs)
    {
      Seqs.PrefixSnoc(ts, i);
      RevenueIsSales(ts[..i + 1]);
      var t := ts[i];
      match t.kind {
        case Sale => revenue := revenue + t.totalValue;
        case Purchase => costs := costs + t.totalValue;
        case Craft =>
          var c := CraftItemsCost(t.items, cs);
          costs := costs + c;
      }
    }
    assert ts[..|ts|] == ts;
  }

  lemma MarginScales(net: real, revenue: real)
    requires revenue > 0.0
    ensures net / revenue * 100.0 * revenue == net * 100.0
  {
  }

  // ---------------------------------------------------------------------------
  // Totals per sub-period
  // ---------------------------------------------------------------------------

  /**
   * The sub-period an entry is grouped under. The page renders these as locale date strings
   * (hour of the day, weekday, day of the month, month name, full date); the quarter view
   * uses "Month 1" to "Month 3".
   */
  datatype GroupKey =
    | HourOf(year: int, month: int, day: int, hour: int)
    | WeekdayOf(weekday: int)
    | DayOfMonth(day: int)
    | MonthOfQuarter(n: int)
    | MonthOf(month: int)
    | DateOf(year: int, month: int, day: int)

  function KeyOf(period: Period, c: Civil): GroupKey
  {
    match period
    case DayPeriod => HourOf(c.year, c.month, c.day, c.msOfDay / 3600000)
    case WeekPeriod => WeekdayOf(Weekday(c))
    case MonthPeriod => DayOfMonth(c.day)
    case QuarterPeriod => MonthOfQuarter(c.month % 3 + 1)
    case YearPeriod => MonthOf(c.month)
    case _ => DateOf(c.year, c.month, c.day)
  }

  /** Within one quarter the three months get the keys "Month 1" to "Month 3", one each. */
  lemma QuarterKeysSeparateMonths(c1: Civil, c2: Civil)
    requires ValidCivil(c1) && ValidCivil(c2) && c1.year == c2.year && c1.month / 3 == c2.month / 3
    ensures 1 <= KeyOf(QuarterPeriod, c1).n <= 3
    ensures KeyOf(QuarterPeriod, c1) == KeyOf(QuarterPeriod, c2) <==> c1.month == c2.month
  {
  }

  /** Revenue and costs of a group. */
  datatype Flow = Flow(revenue: real, costs: real)

  function FlowPlus(a: Flow, b: Flow): Flow { Flow(a.revenue + b.revenue, a.costs + b.costs) }

  const NoFlow := Flow(0.0, 0.0)

  function FlowOf(period: Period, cs: seq<CraftedItem>): Transaction -> (GroupKey, Flow)
  {
    (t: Transaction) => (KeyOf(period, t.date), Flow(TxRevenue(t), TxCost(t, cs)))
  }

  /** `groupTransactionsByDate`, as a value: one group per key in order of first appearance. */
  function Grouped(period: Period, ts: seq<Transaction>, cs: seq<CraftedItem>): seq<Buckets.Bucket<GroupKey, Flow>>
  {
    Buckets.AddAll([], Seqs.Map(ts, FlowOf(period, cs)), NoFlow, FlowPlus)
  }

  /** The loop of `groupTransactionsByDate`: find or open the entry's group, then add to it. */
  method GroupTransactionsByDate(ts: seq<Transaction>, period: Period, cs: seq<CraftedItem>)
    returns (groups: seq<Buckets.Bucket<GroupKey, Flow>>)
    ensures groups == Grouped(period, ts, cs)
  {
    groups := [];
    for i := 0 to |ts|
      invariant groups == Grouped(period, ts[..i], cs)
    {
      Seqs.PrefixSnoc(ts, i);
      GroupedSnoc(period, ts[..i], ts[i], cs);
      groups := AddToGroup(groups, period, ts[i], cs);
    }
    assert ts[..|ts|] == ts;
  }

  /** One pass of that loop: the entry's revenue and costs go to the group of its key. */
  method AddToGroup(groups: seq<Buckets.Bucket<GroupKey, Flow>>, period: Period, t: Transaction, cs: seq<CraftedItem>)
    returns (out: seq<Buckets.Bucket<GroupKey, Flow>>)
    ensures out == Buckets.Add(groups, KeyOf(period, t.date), Flow(TxRevenue(t), TxCost(t, cs)), NoFlow, FlowPlus)
  {
    var key := KeyOf(period, t.date);
    var add := Flow(0.0, 0.0);
    match t.kind {
      case Sale => add := Flow(t.totalValue, 0.0);
      case Purchase => add := Flow(0.0, t.totalValue);
      case Craft =>
        var c := CraftItemsCost(t.items, cs);
        add := Flow(0.0, c);
    }
    var found := FirstIndex(Buckets.Keys(groups), key);
    if found.Some? {
      out := groups[found.value := Buckets.Bucket(key, FlowPlus(groups[found.value].value, add))];
    } else {
      out := groups + [Buckets.Bucket(key, FlowPlus(NoFlow, add))];
    }
  }

  /** Grouping one more entry adds its flow to the groups of the entries before it. */
  lemma GroupedSnoc(period: Period, ts: seq<Transaction>, t: Transaction, cs: seq<CraftedItem>)
    ensures Grouped(period, ts + [t], cs)
         == Buckets.Add(Grouped(period, ts, cs), KeyOf(period, t.date), Flow(TxRevenue(t), TxCost(t, cs)), NoFlow, FlowPlus)
  {
    Seqs.MapConcat(ts, [t], FlowOf(period, cs));
    Buckets.AddAllSnoc([], Seqs.Map(ts, FlowOf(period, cs)), FlowOf(period, cs)(t), NoFlow, FlowPlus);
  }

  function RevenueSum(gs: seq<Buckets.Bucket<GroupKey, Flow>>): real
  {
    if |gs| == 0 then 0.0 else RevenueSum(gs[..|gs| - 1]) + gs[|gs| - 1].value.revenue
  }

  function CostsSum(gs: seq<Buckets.Bucket<GroupKey, Flow>>): real
  {
    if |gs| == 0 then 0.0 else CostsSum(gs[..|gs| - 1]) + gs[|gs| - 1].value.costs
  }

  lemma {:induction false} SumsUpdate(gs: seq<Buckets.Bucket<GroupKey, Flow>>, i: nat, b: Buckets.Bucket<GroupKey, Flow>)
    requires i < |gs|
    ensures RevenueSum(gs[i := b]) == RevenueSum(gs) - gs[i].value.revenue + b.value.revenue
    ensures CostsSum(gs[i := b]) == CostsSum(gs) - gs[i].value.costs + b.value.costs
  {
    var n := |gs| - 1;
    assert gs[i := b][..n] == if i == n then gs[..n] else gs[..n][i := b];
    if i < n {
      SumsUpdate(gs[..n], i, b);
    }
  }

  lemma SumsAdd(gs: seq<Buckets.Bucket<GroupKey, Flow>>, key: GroupKey, f: Flow)
    ensures var gs' := Buckets.Add(gs, key, f, NoFlow, FlowPlus);
      RevenueSum(gs') == RevenueSum(gs) + f.revenue && CostsSum(gs') == CostsSum(gs) + f.costs
  {
    match FirstIndex(Buckets.Keys(gs), key)
    case Some(i) =>
      SumsUpdate(gs, i, Buckets.Bucket(key, FlowPlus(gs[i].value, f)));
    case None =>
      assert (gs + [Buckets.Bucket(key, FlowPlus(NoFlow, f))])[..|gs|] == gs;
  }

  /** Every entry falls in one group, so the groups add up to the summary totals. */
  lemma {:induction false} GroupsAddUp(period: Period, ts: seq<Transaction>, cs: seq<CraftedItem>)
    ensures RevenueSum(Grouped(period, ts, cs)) == Dashboard.TotalRevenue(ts)
    ensures CostsSum(Grouped(period, ts, cs)) == TotalCosts(ts, cs)
  {
    if |ts| > 0 {
      var init := ts[..|ts| - 1];
      var t := ts[|ts| - 1];
      GroupsAddUp(period, init, cs);
      Seqs.SplitLast(ts);
      GroupedSnoc(period, init, t, cs);
      SumsAdd(Grouped(period, init, cs), KeyOf(period, t.date), Flow(TxRevenue(t), TxCost(t, cs)));
      RevenueIsSales(ts);
    }
  }

  /** One group per sub-period met, in order of first appearance, and each holds the revenue and costs of its entries. */
  lemma GroupsDescribe(period: Period, ts: seq<Transaction>, cs: seq<CraftedItem>)
    ensures var flows := Seqs.Map(ts, FlowOf(period, cs));
      var gs := Grouped(period, ts, cs);
      Buckets.DistinctKeys(gs) && Buckets.Covers(flows, gs) && Buckets.Sums(flows, gs, NoFlow, FlowPlus)
    ensures Buckets.Keys(Grouped(period, ts, cs)) == Seqs.Dedup(Buckets.KeysOf(Seqs.Map(ts, FlowOf(period, cs))))
  {
    Buckets.AddAllDescribes(Seqs.Map(ts, FlowOf(period, cs)), NoFlow, FlowPlus);
  }

  // ---------------------------------------------------------------------------
  // Product performance
  // ---------------------------------------------------------------------------

  /** Revenue, units sold and profit of one product. */
  datatype Perf = Perf(revenue: real, unitsSold: int, profit: real)

  function PerfPlus(a: Perf, b: Perf): Perf
  {
    Perf(a.revenue + b.revenue, a.unitsSold + b.unitsSold, a.profit + b.profit)
  }

  const NoPerf := Perf(0.0, 0, 0.0)

  /** Today's cost of a crafted item, 0 when it is not in the inventory. */
  function CurrentCost(cs: seq<CraftedItem>, id: Id): real
  {
    match FindCrafted(cs, id)
    case Some(j) => cs[j].cost
    case None => 0.0
  }

  /** What one sale line adds: its takings, its units, and its takings less the units' cost. */
  function LineFigures(cs: seq<CraftedItem>, it: TxItem): Perf
  {
    var revenue := it.value * it.quantity as real;
    Perf(revenue, it.quantity, revenue - CurrentCost(cs, it.id) * it.quantity as real)
  }

  function LinePerf(cs: seq<CraftedItem>): TxItem -> (Id, Perf)
  {
    (it: TxItem) => (it.id, LineFigures(cs, it))
  }

  /** The lines of the sales, in ledger order. */
  function SaleLines(ts: seq<Transaction>): seq<TxItem>
  {
    if |ts| == 0 then []
    else SaleLines(ts[..|ts| - 1]) + (if ts[|ts| - 1].kind == Sale then ts[|ts| - 1].items else [])
  }

  /** The ids of the products on the sale lines, in ledger order. */
  function SaleIds(ts: seq<Transaction>): (ids: seq<Id>)
    ensures |ids| == |SaleLines(ts)| && forall j :: 0 <= j < |ids| ==> ids[j] == SaleLines(ts)[j].id
  {
    Seqs.Map(SaleLines(ts), (it: TxItem) => it.id)
  }

  /** `calculateProductPerformance`, as a value: one entry per product sold, in order of first sale. */
  function Performance(ts: seq<Transaction>, cs: seq<CraftedItem>): seq<Buckets.Bucket<Id, Perf>>
  {
    Buckets.AddAll([], Seqs.Map(SaleLines(ts), LinePerf(cs)), NoPerf, PerfPlus)
  }

  /** The loops of `calculateProductPerformance`: over the sales, then over their lines. */
  method CalculateProductPerformance(ts: seq<Transaction>, cs: seq<CraftedItem>)
    returns (perf: seq<Buckets.Bucket<Id, Perf>>)
    ensures perf == Performance(ts, cs)
  {
    perf := [];
    for i := 0 to |ts|
      invariant perf == Performance(ts[..i], cs)
    {
      Seqs.PrefixSnoc(ts, i);
      assert SaleLines(ts[..i + 1]) == SaleLines(ts[..i]) + (if ts[i].kind == Sale then ts[i].items else []);
      if ts[i].kind == Sale {
        perf := AddSaleLines(perf, SaleLines(ts[..i]), ts[i].items, cs);
      } else {
        assert SaleLines(ts[..i + 1]) == SaleLines(ts[..i]);
      }
    }
    assert ts[..|ts|] == ts;
  }

  /** The inner loop: add the lines of one sale to the entries built from the lines before it. */
  method AddSaleLines(perf: seq<Buckets.Bucket<Id, Perf>>, before: seq<TxItem>, items: seq<TxItem>, cs: seq<CraftedItem>)
    returns (out: seq<Buckets.Bucket<Id, Perf>>)
    requires perf == Buckets.AddAll([], Seqs.Map(before, LinePerf(cs)), NoPerf, PerfPlus)
    ensures out == Buckets.AddAll([], Seqs.Map(before + items, LinePerf(cs)), NoPerf, PerfPlus)
  {
    out := perf;
    assert before + items[..0] == before;
    for j := 0 to |items|
      invariant out == Buckets.AddAll([], Seqs.Map(before + items[..j], LinePerf(cs)), NoPerf, PerfPlus)
    {
      ghost var done := before + items[..j];
      PerfStep(done, items[j], cs);
      Seqs.AppendPrefixSnoc(before, items, j);
      out := AddSaleLine(out, items[j], cs);
    }
    assert items[..|items|] == items;
  }

  /** One line: open the product's entry if it has none, then add the line's figures to it. */
  method AddSaleLine(perf: seq<Buckets.Bucket<Id, Perf>>, it: TxItem, cs: seq<CraftedItem>)
    returns (out: seq<Buckets.Bucket<Id, Perf>>)
    ensures out == Buckets.Add(perf, it.id, LineFigures(cs, it), NoPerf, PerfPlus)
  {
    var cost := CurrentCost(cs, it.id);
    var revenue := it.value * it.quantity as real;
    var line := Perf(revenue, it.quantity, revenue - cost * it.quantity as real);
    assert line == LineFigures(cs, it);
    var found := FirstIndex(Buckets.Keys(perf), it.id);
    if found.Some? {
      out := perf[found.value := Buckets.Bucket(it.id, PerfPlus(perf[found.value].value, line))];
    } else {
      out := perf + [Buckets.Bucket(it.id, PerfPlus(NoPerf, line))];
    }
  }

  lemma PerfStep(lines: seq<TxItem>, it: TxItem, cs: seq<CraftedItem>)
    ensures Buckets.AddAll([], Seqs.Map(lines + [it], LinePerf(cs)), NoPerf, PerfPlus)
         == Buckets.Add(Buckets.AddAll([], Seqs.Map(lines, LinePerf(cs)), NoPerf, PerfPlus),
                        it.id, LineFigures(cs, it), NoPerf, PerfPlus)
  {
    Seqs.MapConcat(lines, [it], LinePerf(cs));
    Buckets.AddAllSnoc([], Seqs.Map(lines, LinePerf(cs)), (it.id, LineFigures(cs, it)), NoPerf, PerfPlus);
  }

  /** One entry per product sold, in order of first sale, each holding the sums over that product's sale lines. */
  lemma PerformanceDescribes(ts: seq<Transaction>, cs: seq<CraftedItem>)
    ensures var lines := Seqs.Map(SaleLines(ts), LinePerf(cs));
      var ps := Performance(ts, cs);
      Buckets.DistinctKeys(ps) && Buckets.Covers(lines, ps) && Buckets.Sums(lines, ps, NoPerf, PerfPlus)
    ensures Buckets.Keys(Performance(ts, cs)) == Seqs.Dedup(SaleIds(ts))
  {
    assert Buckets.KeysOf(Seqs.Map(SaleLines(ts), LinePerf(cs))) == SaleIds(ts);
    Buckets.AddAllDescribes(Seqs.Map(SaleLines(ts), LinePerf(cs)), NoPerf, PerfPlus);
  }

  /** Figures whose profit is their revenue less unit cost `c` times the units sold. */
  predicate Balanced(p: Perf, c: real)
  {
    p.profit == p.revenue - c * p.unitsSold as real
  }

  /** A product's profit is its revenue less today's unit cost times the units sold. */
  lemma {:induction false} PerfBalances(items: seq<TxItem>, cs: seq<CraftedItem>, id: Id)
    ensures Balanced(Buckets.SumFor(Seqs.Map(items, LinePerf(cs)), id, NoPerf, PerfPlus), CurrentCost(cs, id))
  {
    if |items| > 0 {
      var init := items[..|items| - 1];
      var it := items[|items| - 1];
      PerfBalances(init, cs, id);
      PerfSumSnoc(items, cs, id);
      if it.id == id {
        LineBalances(Buckets.SumFor(Seqs.Map(init, LinePerf(cs)), id, NoPerf, PerfPlus), cs, it);
      }
    } else {
      assert Balanced(NoPerf, CurrentCost(cs, id));
    }
  }

  /** A product's sums over some lines: those over all but the last, plus the last line if it is the product's. */
  lemma PerfSumSnoc(items: seq<TxItem>, cs: seq<CraftedItem>, id: Id)
    requires |items| > 0
    ensures var it := items[|items| - 1];
      var s := Buckets.SumFor(Seqs.Map(items[..|items| - 1], LinePerf(cs)), id, NoPerf, PerfPlus);
      Buckets.SumFor(Seqs.Map(items, LinePerf(cs)), id, NoPerf, PerfPlus)
        == if it.id == id then PerfPlus(s, LineFigures(cs, it)) else s
  {
    var flows := Seqs.Map(items, LinePerf(cs));
    assert flows[..|items| - 1] == Seqs.Map(items[..|items| - 1], LinePerf(cs));
    assert flows[|items| - 1] == (items[|items| - 1].id, LineFigures(cs, items[|items| - 1]));
  }

  /** Adding a sale line of the product keeps its figures balanced. */
  lemma LineBalances(s: Perf, cs: seq<CraftedItem>, it: TxItem)
    requires Balanced(s, CurrentCost(cs, it.id))
    ensures Balanced(PerfPlus(s, LineFigures(cs, it)), CurrentCost(cs, it.id))
  {
    var c := CurrentCost(cs, it.id);
    assert c * (s.unitsSold + it.quantity) as real == c * s.unitsSold as real + c * it.quantity as real;
  }

  // ---------------------------------------------------------------------------
  // Ranking
  // ---------------------------------------------------------------------------

  /** The ranking comparator: the higher revenue first. */
  predicate EarnsMore(a: Buckets.Bucket<Id, Perf>, b: Buckets.Bucket<Id, Perf>)
  {
    a.value.revenue >= b.value.revenue
  }

  /** The product rankings: the entries sorted by descending revenue, ties in first-sale order. */
  function Rankings(ps: seq<Buckets.Bucket<Id, Perf>>): (r: seq<Buckets.Bucket<Id, Perf>>)
    ensures multiset(r) == multiset(ps)
  {
    Seqs.SortBy(ps, EarnsMore)
  }

  /** `updateTopProductsChart`: the first `maxItems` of the ranking. */
  function TopProducts(ps: seq<Buckets.Bucket<Id, Perf>>, maxItems: nat): (top: seq<Buckets.Bucket<Id, Perf>>)
    ensures |top| == if maxItems < |ps| then maxItems else |ps|
  {
    var r := Rankings(ps);
    r[..if maxItems < |r| then maxItems else |r|]
  }

  lemma EarnsMoreIsPreorder()
    ensures Seqs.Total(EarnsMore) && Seqs.Transitive(EarnsMore)
  {
  }

  /**
   * The ranking is in descending revenue, ties keep their order, and no product left out of
   * the top list earned more than one in it.
   */
  lemma RankingsOrdered(ps: seq<Buckets.Bucket<Id, Perf>>, k: Buckets.Bucket<Id, Perf>, maxItems: nat)
    ensures Seqs.SortedBy(Rankings(ps), EarnsMore)
    ensures Seqs.Ties(Rankings(ps), k, EarnsMore) == Seqs.Ties(ps, k, EarnsMore)
    ensures var r := Rankings(ps); var top := TopProducts(ps, maxItems);
      forall i, j :: 0 <= i < |top| <= j < |r| ==> top[i].value.revenue >= r[j].value.revenue
  {
    EarnsMoreIsPreorder();
    Seqs.SortBySorted(ps, EarnsMore);
    Seqs.SortByStable(ps, k, EarnsMore);
  }
}
