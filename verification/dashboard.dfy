/**
 * The dashboard figures (js/app/dashboard-helpers.js): ledger totals over the
 * transaction history, the stock valuation, and the low-stock and negative-margin
 * warnings.
 */
module Dashboard {
  import opened Wrappers
  import opened Entities
  import Calendar
  import Seqs

  // ---------------------------------------------------------------------------
  // Ledger totals
  // ---------------------------------------------------------------------------

  predicate IsSale(t: Transaction) { t.kind == Sale }

  /** `calculateTotalRevenue`: the recorded totals of the sales, summed in ledger order. */
  function TotalRevenue(ts: seq<Transaction>): real
  {
    if |ts| == 0 then 0.0
    else TotalRevenue(ts[..|ts| - 1]) + (if IsSale(ts[|ts| - 1]) then ts[|ts| - 1].totalValue else 0.0)
  }

  lemma {:induction false} TotalRevenueConcat(a: seq<Transaction>, b: seq<Transaction>)
    ensures TotalRevenue(a + b) == TotalRevenue(a) + TotalRevenue(b)
  {
    if |b| > 0 {
      Seqs.ConcatDropLast(a, b);
      TotalRevenueConcat(a, b[..|b| - 1]);
    } else {
      assert a + b == a;
    }
  }

  /** Only sales count: the revenue of the ledger is the revenue of its sales. */
  lemma {:induction false} TotalRevenueOfSales(ts: seq<Transaction>)
    ensures TotalRevenue(ts) == TotalRevenue(Seqs.Filter(ts, IsSale))
  {
    if |ts| > 0 {
      var init := ts[..|ts| - 1];
      TotalRevenueOfSales(init);
      var last := ts[|ts| - 1];
      assert ts == init + [last];
      Seqs.FilterSnoc(init, last, IsSale);
      if IsSale(last) {
        TotalRevenueConcat(Seqs.Filter(init, IsSale), [last]);
        assert [last][..0] == [];
        assert TotalRevenue([last]) == last.totalValue;
      } else {
        assert Seqs.Filter(ts, IsSale) == Seqs.Filter(init, IsSale);
      }
    }
  }

  /** Units over a list of transaction lines. */
  function Units(items: seq<TxItem>): int
  {
    if |items| == 0 then 0 else Units(items[..|items| - 1]) + items[|items| - 1].quantity
  }

  /** `calculateTotalOrders`: units sold over all sales. */
  function TotalOrders(ts: seq<Transaction>): int
  {
    if |ts| == 0 then 0
    else TotalOrders(ts[..|ts| - 1]) + (if IsSale(ts[|ts| - 1]) then Units(ts[|ts| - 1].items) else 0)
  }

  lemma {:induction false} TotalOrdersConcat(a: seq<Transaction>, b: seq<Transaction>)
    ensures TotalOrders(a + b) == TotalOrders(a) + TotalOrders(b)
  {
    if |b| > 0 {
      Seqs.ConcatDropLast(a, b);
      TotalOrdersConcat(a, b[..|b| - 1]);
    } else {
      assert a + b == a;
    }
  }

  /** With no negative quantity recorded, the order count is not negative. */
  lemma {:induction false} UnitsNonNegative(items: seq<TxItem>)
    requires forall k :: 0 <= k < |items| ==> items[k].quantity >= 0
    ensures Units(items) >= 0
  {
    if |items| > 0 {
      UnitsNonNegative(items[..|items| - 1]);
    }
  }

  /**
   * The profit of one sale as `calculateTotalProfit` adds it up: for each line whose item is
   * in the crafted inventory, the line's unit price less the cost of all its units.
   */
  function SaleProfitAsWritten(items: seq<TxItem>, cs: seq<CraftedItem>): real
  {
    if |items| == 0 then 0.0
    else
      var it := items[|items| - 1];
      SaleProfitAsWritten(items[..|items| - 1], cs)
      + match FindCrafted(cs, it.id)
        case Some(j) => it.value - cs[j].cost * it.quantity as real
        case None => 0.0
  }

  function TotalProfitAsWritten(ts: seq<Transaction>, cs: seq<CraftedItem>): real
  {
    if |ts| == 0 then 0.0
    else TotalProfitAsWritten(ts[..|ts| - 1], cs)
         + (if IsSale(ts[|ts| - 1]) then SaleProfitAsWritten(ts[|ts| - 1].items, cs) else 0.0)
  }

  /** The profit of one line: what its units sold for less what they cost; unknown items count nothing. */
  function LineProfit(it: TxItem, cs: seq<CraftedItem>): real
  {
    match FindCrafted(cs, it.id)
    case Some(j) => it.value * it.quantity as real - cs[j].cost * it.quantity as real
    case None => 0.0
  }

  /** The profit of one sale, with the unit price multiplied by the quantity as sale lines record it. */
  function SaleProfit(items: seq<TxItem>, cs: seq<CraftedItem>): real
  {
    if |items| == 0 then 0.0
    else SaleProfit(items[..|items| - 1], cs) + LineProfit(items[|items| - 1], cs)
  }

  /** The total profit of the sales, each line counted at its quantity. */
  function TotalProfit(ts: seq<Transaction>, cs: seq<CraftedItem>): real
  {
    if |ts| == 0 then 0.0
    else TotalProfit(ts[..|ts| - 1], cs) + (if IsSale(ts[|ts| - 1]) then SaleProfit(ts[|ts| - 1].items, cs) else 0.0)
  }

  /** One sale of two swords at 10 each, costing 4 each: the dashboard shows 2 where 12 was made. */
  lemma ProfitAsWrittenUndercounts()
    ensures var cs := [CraftedItem("sword", "Sword", 0, 4.0, 10.0, "weapons")];
            var ts := [Transaction(1, Sale, Calendar.Civil(2024, 0, 1, 0), [TxItem("sword", "Sword", 2, 10.0)], 20.0)];
            TotalProfitAsWritten(ts, cs) == 2.0 && TotalProfit(ts, cs) == 12.0
  {
    var cs := [CraftedItem("sword", "Sword", 0, 4.0, 10.0, "weapons")];
    var items := [TxItem("sword", "Sword", 2, 10.0)];
    var ts := [Transaction(1, Sale, Calendar.Civil(2024, 0, 1, 0), items, 20.0)];
    assert CraftedIds(cs) == ["sword"];
    assert FindCrafted(cs, "sword") == Some(0);
    assert items[..0] == [] && ts[..0] == [];
    assert SaleProfitAsWritten(items, cs) == 10.0 - 4.0 * 2.0;
    assert SaleProfit(items, cs) == 10.0 * 2.0 - 4.0 * 2.0;
  }

  /** The two agree exactly when nothing was sold in more than one unit per line. */
  lemma {:induction false} SaleProfitOfSingleUnits(items: seq<TxItem>, cs: seq<CraftedItem>)
    requires forall k :: 0 <= k < |items| ==> items[k].quantity == 1
    ensures SaleProfitAsWritten(items, cs) == SaleProfit(items, cs)
  {
    if |items| > 0 {
      SaleProfitOfSingleUnits(items[..|items| - 1], cs);
    }
  }

  lemma {:induction false} TotalProfitOfSingleUnits(ts: seq<Transaction>, cs: seq<CraftedItem>)
    requires forall i, k :: 0 <= i < |ts| && 0 <= k < |ts[i].items| ==> ts[i].items[k].quantity == 1
    ensures TotalProfitAsWritten(ts, cs) == TotalProfit(ts, cs)
  {
    if |ts| > 0 {
      TotalProfitOfSingleUnits(ts[..|ts| - 1], cs);
      SaleProfitOfSingleUnits(ts[|ts| - 1].items, cs);
    }
  }

  // ---------------------------------------------------------------------------
  // Stock valuation
  // ---------------------------------------------------------------------------

  /** Materials are valued at cost. */
  function MaterialsValue(ms: seq<Material>): real
  {
    if |ms| == 0 then 0.0 else MaterialsValue(ms[..|ms| - 1]) + ms[|ms| - 1].Value()
  }

  /** Crafted items are valued at their selling value. */
  function CraftedValue(cs: seq<CraftedItem>): real
  {
    if |cs| == 0 then 0.0 else CraftedValue(cs[..|cs| - 1]) + cs[|cs| - 1].TotalValue()
  }

  lemma {:induction false} MaterialsValueNonNegative(ms: seq<Material>)
    requires forall k :: 0 <= k < |ms| ==> ms[k].quantity >= 0 && ms[k].cost >= 0.0
    ensures MaterialsValue(ms) >= 0.0
  {
    if |ms| > 0 {
      MaterialsValueNonNegative(ms[..|ms| - 1]);
      var m := ms[|ms| - 1];
      assert m.quantity as real >= 0.0;
    }
  }

  lemma {:induction false} CraftedValueNonNegative(cs: seq<CraftedItem>)
    requires forall k :: 0 <= k < |cs| ==> cs[k].quantity >= 0 && cs[k].value >= 0.0
    ensures CraftedValue(cs) >= 0.0
  {
    if |cs| > 0 {
      CraftedValueNonNegative(cs[..|cs| - 1]);
      var c := cs[|cs| - 1];
      assert c.quantity as real >= 0.0;
    }
  }

  /** `calculateInventoryValue`: the two running sums over the inventories. */
  method InventoryValue(ms: seq<Material>, cs: seq<CraftedItem>) returns (total: real)
    ensures total == MaterialsValue(ms) + CraftedValue(cs)
  {
    total := 0.0;
    for i := 0 to |ms|
      invariant total == MaterialsValue(ms[..i])
    {
      Seqs.PrefixSnoc(ms, i);
      total := total + ms[i].quantity as real * ms[i].cost;
    }
    assert ms[..|ms|] == ms;
    ghost var base := total;
    for i := 0 to |cs|
      invariant total == base + CraftedValue(cs[..i])
    {
      Seqs.PrefixSnoc(cs, i);
      total := total + cs[i].quantity as real * cs[i].value;
    }
    assert cs[..|cs|] == cs;
  }

  // ---------------------------------------------------------------------------
  // Warnings
  // ---------------------------------------------------------------------------

  datatype StockKind = MaterialStock | CraftedStock

  datatype LowStockRow = LowStockRow(name: string, quantity: int, kind: StockKind)

  function MaterialRow(m: Material): LowStockRow { LowStockRow(m.name, m.quantity, MaterialStock) }

  function CraftedRow(c: CraftedItem): LowStockRow { LowStockRow(c.name, c.quantity, CraftedStock) }

  function LowMaterial(threshold: int): Material -> bool { (m: Material) => m.quantity <= threshold }

  function LowCrafted(threshold: int): CraftedItem -> bool { (c: CraftedItem) => c.quantity <= threshold }

  /** The materials at or under the threshold, then the crafted items, each in inventory order. */
  function LowStockRows(ms: seq<Material>, cs: seq<CraftedItem>, threshold: int): seq<LowStockRow>
  {
    Seqs.Map(Seqs.Filter(ms, LowMaterial(threshold)), MaterialRow)
    + Seqs.Map(Seqs.Filter(cs, LowCrafted(threshold)), CraftedRow)
  }

  /** Every row is at or under the threshold, and a record is listed as often as it occurs exactly when it is. */
  lemma LowStockRowsListed(ms: seq<Material>, cs: seq<CraftedItem>, threshold: int, m: Material, c: CraftedItem)
    ensures forall k :: 0 <= k < |LowStockRows(ms, cs, threshold)| ==> LowStockRows(ms, cs, threshold)[k].quantity <= threshold
    ensures multiset(Seqs.Filter(ms, LowMaterial(threshold)))[m] == if m.quantity <= threshold then multiset(ms)[m] else 0
    ensures multiset(Seqs.Filter(cs, LowCrafted(threshold)))[c] == if c.quantity <= threshold then multiset(cs)[c] else 0
  {
    LowStockRowsUnder(ms, cs, threshold);
    Seqs.FilterCount(ms, LowMaterial(threshold), m);
    Seqs.FilterCount(cs, LowCrafted(threshold), c);
  }

  lemma LowStockRowsUnder(ms: seq<Material>, cs: seq<CraftedItem>, threshold: int)
    ensures forall k :: 0 <= k < |LowStockRows(ms, cs, threshold)| ==> LowStockRows(ms, cs, threshold)[k].quantity <= threshold
  {
    var fm := Seqs.Filter(ms, LowMaterial(threshold));
    var fc := Seqs.Filter(cs, LowCrafted(threshold));
    var a: seq<LowStockRow> := Seqs.Map(fm, MaterialRow);
    var b: seq<LowStockRow> := Seqs.Map(fc, CraftedRow);
    assert LowStockRows(ms, cs, threshold) == a + b;
    forall k | 0 <= k < |a + b|
      ensures (a + b)[k].quantity <= threshold
    {
      if k < |a| {
        assert LowMaterial(threshold)(fm[k]);
      } else {
        assert (a + b)[k] == b[k - |a|];
        assert LowCrafted(threshold)(fc[k - |a|]);
      }
    }
  }

  /** `checkLowStockItems`: two scans pushing onto a fresh list. */
  method CheckLowStockItems(ms: seq<Material>, cs: seq<CraftedItem>, threshold: int) returns (rows: seq<LowStockRow>)
    ensures rows == LowStockRows(ms, cs, threshold)
  {
    var low := ScanMaterials(ms, threshold);
    var lowCrafted := ScanCrafted(cs, threshold);
    rows := low + lowCrafted;
  }

  /** The first scan of `checkLowStockItems`: the materials at or under the threshold. */
  method ScanMaterials(ms: seq<Material>, threshold: int) returns (rows: seq<LowStockRow>)
    ensures rows == Seqs.Map(Seqs.Filter(ms, LowMaterial(threshold)), MaterialRow)
  {
    rows := [];
    for i := 0 to |ms|
      invariant rows == Seqs.Map(Seqs.Filter(ms[..i], LowMaterial(threshold)), MaterialRow)
    {
      Seqs.PrefixSnoc(ms, i);
      Seqs.FilterSnoc(ms[..i], ms[i], LowMaterial(threshold));
      if ms[i].quantity <= threshold {
        Seqs.MapConcat(Seqs.Filter(ms[..i], LowMaterial(threshold)), [ms[i]], MaterialRow);
        rows := rows + [MaterialRow(ms[i])];
      }
    }
    assert ms[..|ms|] == ms;
  }

  /** The second scan of `checkLowStockItems`: the crafted items at or under the threshold. */
  method ScanCrafted(cs: seq<CraftedItem>, threshold: int) returns (rows: seq<LowStockRow>)
    ensures rows == Seqs.Map(Seqs.Filter(cs, LowCrafted(threshold)), CraftedRow)
  {
    rows := [];
    for i := 0 to |cs|
      invariant rows == Seqs.Map(Seqs.Filter(cs[..i], LowCrafted(threshold)), CraftedRow)
    {
      Seqs.PrefixSnoc(cs, i);
      Seqs.FilterSnoc(cs[..i], cs[i], LowCrafted(threshold));
      if cs[i].quantity <= threshold {
        Seqs.MapConcat(Seqs.Filter(cs[..i], LowCrafted(threshold)), [cs[i]], CraftedRow);
        rows := rows + [CraftedRow(cs[i])];
      }
    }
    assert cs[..|cs|] == cs;
  }

  datatype MarginRow = MarginRow(name: string, margin: real, price: real, cost: real)

  function MarginRowOf(c: CraftedItem): MarginRow { MarginRow(c.name, c.value - c.cost, c.value, c.cost) }

  predicate SellsAtLoss(c: CraftedItem) { c.value - c.cost < 0.0 }

  /** The crafted items selling under cost, in inventory order. */
  function NegativeMarginRows(cs: seq<CraftedItem>): (rows: seq<MarginRow>)
    ensures forall k :: 0 <= k < |rows| ==> rows[k].margin < 0.0 && rows[k].margin == rows[k].price - rows[k].cost
  {
    var f := Seqs.Filter(cs, SellsAtLoss);
    assert forall k :: 0 <= k < |f| ==> SellsAtLoss(f[k]);
    Seqs.Map(f, MarginRowOf)
  }

  /** `checkNegativeProfitMargins`: one scan pushing onto a fresh list. */
  method CheckNegativeProfitMargins(cs: seq<CraftedItem>) returns (rows: seq<MarginRow>)
    ensures rows == NegativeMarginRows(cs)
  {
    rows := [];
    for i := 0 to |cs|
      invariant rows == Seqs.Map(Seqs.Filter(cs[..i], SellsAtLoss), MarginRowOf)
    {
      Seqs.PrefixSnoc(cs, i);
      Seqs.FilterSnoc(cs[..i], cs[i], SellsAtLoss);
      if cs[i].value - cs[i].cost < 0.0 {
        Seqs.MapConcat(Seqs.Filter(cs[..i], SellsAtLoss), [cs[i]], MarginRowOf);
        rows := rows + [MarginRowOf(cs[i])];
      }
    }
    assert cs[..|cs|] == cs;
  }

  /** An item is flagged, as often as it occurs, exactly when it sells under cost. */
  lemma NegativeMarginsFlagged(cs: seq<CraftedItem>, c: CraftedItem)
    ensures multiset(Seqs.Filter(cs, SellsAtLoss))[c] == if c.value < c.cost then multiset(cs)[c] else 0
  {
    Seqs.FilterCount(cs, SellsAtLoss, c);
  }
}
