/**
 * Client contracts (js/contracts.js): a contract asks for quantities of crafted items;
 * from it the shop derives the materials it needs, its cost and revenue, a production
 * plan of queued jobs, and whether it can be fulfilled from current stock.
 */
module Contracts {
  import opened Wrappers
  import opened Entities
  import Seqs
  import opened Crafting
  import Jobs
  import Store

  /** Thirty days in milliseconds: the plan's timeline for a contract without a deadline. */
  const DefaultLeadTime: int := 30 * 24 * 60 * 60 * 1000

  datatype ContractStatus = PendingContract | InProgress | CompletedContract | Failed

  /** One ordered item: `quantity` units of the item with recipe `itemId`. */
  datatype ContractLine = ContractLine(itemId: Id, quantity: int)

  function Max0(x: int): (m: int)
    ensures m >= 0 && m >= x && (m == 0 || m == x)
  {
    if x > 0 then x else 0
  }

  // ---------------------------------------------------------------------------
  // Material requirements
  // ---------------------------------------------------------------------------

  /** One ingredient line of one ordered item, scaled by the ordered quantity. */
  datatype Need = Need(id: Id, required: int)

  /** The lines a recipe contributes for an ordered item. */
  function LineNeeds(r: Recipe, line: ContractLine): (ns: seq<Need>)
    ensures |ns| == |r.ingredients|
    ensures forall k :: 0 <= k < |ns| ==>
      ns[k] == Need(r.ingredients[k].id, r.ingredients[k].quantity * line.quantity)
  {
    seq(|r.ingredients|, k requires 0 <= k < |r.ingredients| =>
      Need(r.ingredients[k].id, r.ingredients[k].quantity * line.quantity))
  }

  /** Every need of a contract, item by item; an item without a recipe contributes nothing. */
  function Needs(rs: seq<Recipe>, lines: seq<ContractLine>): seq<Need>
  {
    if |lines| == 0 then []
    else
      var last := lines[|lines| - 1];
      Needs(rs, lines[..|lines| - 1])
      + match FindRecipe(rs, last.itemId)
        case Some(i) => LineNeeds(rs[i], last)
        case None => []
  }

  /** One entry of the requirements table, keyed by ingredient id. */
  datatype Requirement = Requirement(id: Id, name: string, requiredQuantity: int, currentInventory: int,
                                     needToProduce: int)

  function RequirementIds(reqs: seq<Requirement>): (ids: seq<Id>)
    ensures |ids| == |reqs| && forall k :: 0 <= k < |reqs| ==> ids[k] == reqs[k].id
  {
    seq(|reqs|, k requires 0 <= k < |reqs| => reqs[k].id)
  }

  /** The display name of an ingredient: the record's name, or the id when it is in neither inventory. */
  function NameOf(ms: seq<Material>, cs: seq<CraftedItem>, id: Id): string
  {
    match Resolve(ms, cs, id)
    case AsMaterial(i) => ms[i].name
    case AsCrafted(j) => cs[j].name
    case Unresolved => id
  }

  /** Account one need in the table: accumulate the required quantity and the per-line shortfall. */
  function Tally(ms: seq<Material>, cs: seq<CraftedItem>, reqs: seq<Requirement>, n: Need): seq<Requirement>
  {
    var stock := StockOf(ms, cs, n.id);
    var more := Max0(n.required - stock);
    match FirstIndex(RequirementIds(reqs), n.id)
    case Some(k) =>
      reqs[k := reqs[k].(name := NameOf(ms, cs, n.id),
                         requiredQuantity := reqs[k].requiredQuantity + n.required,
                         currentInventory := stock,
                         needToProduce := reqs[k].needToProduce + more)]
    case None =>
      reqs + [Requirement(n.id, NameOf(ms, cs, n.id), n.required, stock, more)]
  }

  /** Account the needs one after the other, starting from table `reqs`. */
  function TallyOnto(ms: seq<Material>, cs: seq<CraftedItem>, reqs: seq<Requirement>, ns: seq<Need>): seq<Requirement>
  {
    if |ns| == 0 then reqs else Tally(ms, cs, TallyOnto(ms, cs, reqs, ns[..|ns| - 1]), ns[|ns| - 1])
  }

  lemma {:induction false} TallyOntoConcat(ms: seq<Material>, cs: seq<CraftedItem>, reqs: seq<Requirement>,
                                           a: seq<Need>, b: seq<Need>)
    ensures TallyOnto(ms, cs, reqs, a + b) == TallyOnto(ms, cs, TallyOnto(ms, cs, reqs, a), b)
    decreases |b|
  {
    if |b| == 0 {
      assert a + b == a;
    } else {
      Seqs.ConcatDropLast(a, b);
      TallyOntoConcat(ms, cs, reqs, a, b[..|b| - 1]);
    }
  }

  /** `contract.calculateMaterialRequirements()`, as a value. */
  function Requirements(ms: seq<Material>, cs: seq<CraftedItem>, rs: seq<Recipe>, lines: seq<ContractLine>): seq<Requirement>
  {
    TallyOnto(ms, cs, [], Needs(rs, lines))
  }

  /** Total required quantity of `id` over the needs. */
  function SumRequired(ns: seq<Need>, id: Id): int
  {
    if |ns| == 0 then 0
    else SumRequired(ns[..|ns| - 1], id) + (if ns[|ns| - 1].id == id then ns[|ns| - 1].required else 0)
  }

  /** Sum over the needs for `id` of what each one, on its own, lacks from stock. */
  function SumShortfall(ms: seq<Material>, cs: seq<CraftedItem>, ns: seq<Need>, id: Id): (t: int)
    ensures t >= 0
  {
    if |ns| == 0 then 0
    else SumShortfall(ms, cs, ns[..|ns| - 1], id)
         + (if ns[|ns| - 1].id == id then Max0(ns[|ns| - 1].required - StockOf(ms, cs, id)) else 0)
  }

  predicate DistinctIds(reqs: seq<Requirement>)
  {
    forall a, b :: 0 <= a < b < |reqs| ==> reqs[a].id != reqs[b].id
  }

  /** The table has an entry for exactly the ids that some need names. */
  predicate Covers(ns: seq<Need>, reqs: seq<Requirement>)
  {
    (forall j :: 0 <= j < |ns| ==> ns[j].id in RequirementIds(reqs))
    && (forall k :: 0 <= k < |reqs| ==> exists j :: 0 <= j < |ns| && ns[j].id == reqs[k].id)
  }

  /** Each entry holds the name, the total required, the stock and the summed per-need shortfall. */
  predicate EntriesSum(ms: seq<Material>, cs: seq<CraftedItem>, ns: seq<Need>, reqs: seq<Requirement>)
  {
    forall k :: 0 <= k < |reqs| ==>
      reqs[k].name == NameOf(ms, cs, reqs[k].id)
      && reqs[k].requiredQuantity == SumRequired(ns, reqs[k].id)
      && reqs[k].currentInventory == StockOf(ms, cs, reqs[k].id)
      && reqs[k].needToProduce == SumShortfall(ms, cs, ns, reqs[k].id)
  }

  predicate TableDescribes(ms: seq<Material>, cs: seq<CraftedItem>, ns: seq<Need>, reqs: seq<Requirement>)
  {
    DistinctIds(reqs) && Covers(ns, reqs) && EntriesSum(ms, cs, ns, reqs)
  }

  lemma SumsOfAbsent(ms: seq<Material>, cs: seq<CraftedItem>, ns: seq<Need>, id: Id)
    requires forall j :: 0 <= j < |ns| ==> ns[j].id != id
    ensures SumRequired(ns, id) == 0 && SumShortfall(ms, cs, ns, id) == 0
  {
    if |ns| > 0 {
      SumsOfAbsent(ms, cs, ns[..|ns| - 1], id);
    }
  }

  lemma TallyStepIds(ms: seq<Material>, cs: seq<CraftedItem>, ns: seq<Need>, prev: seq<Requirement>)
    requires |ns| > 0 && DistinctIds(prev) && Covers(ns[..|ns| - 1], prev)
    ensures var reqs := Tally(ms, cs, prev, ns[|ns| - 1]);
      DistinctIds(reqs) && Covers(ns, reqs)
  {
    var init := ns[..|ns| - 1];
    var n := ns[|ns| - 1];
    var reqs := Tally(ms, cs, prev, n);
    assert forall j :: 0 <= j < |init| ==> init[j] == ns[j];
    match FirstIndex(RequirementIds(prev), n.id)
    case Some(k) =>
      assert RequirementIds(reqs) == RequirementIds(prev);
      forall k' | 0 <= k' < |reqs|
        ensures exists j :: 0 <= j < |ns| && ns[j].id == reqs[k'].id
      {
        var j :| 0 <= j < |init| && init[j].id == prev[k'].id;
        assert ns[j].id == reqs[k'].id;
      }
    case None =>
      assert RequirementIds(reqs) == RequirementIds(prev) + [n.id];
      forall k' | 0 <= k' < |reqs|
        ensures exists j :: 0 <= j < |ns| && ns[j].id == reqs[k'].id
      {
        if k' < |prev| {
          var j :| 0 <= j < |init| && init[j].id == prev[k'].id;
          assert ns[j].id == reqs[k'].id;
        } else {
          assert ns[|ns| - 1].id == reqs[k'].id;
        }
      }
  }

  lemma TallyStepEntries(ms: seq<Material>, cs: seq<CraftedItem>, ns: seq<Need>, prev: seq<Requirement>)
    requires |ns| > 0 && DistinctIds(prev) && Covers(ns[..|ns| - 1], prev) && EntriesSum(ms, cs, ns[..|ns| - 1], prev)
    ensures EntriesSum(ms, cs, ns, Tally(ms, cs, prev, ns[|ns| - 1]))
  {
    var found := FirstIndex(RequirementIds(prev), ns[|ns| - 1].id);
    if found.Some? {
      TallyEntriesMerged(ms, cs, ns, prev, found.value);
    } else {
      TallyEntriesAppended(ms, cs, ns, prev);
    }
  }

  /** A need whose id already has an entry: only that entry changes, by the need's amounts. */
  lemma TallyEntriesMerged(ms: seq<Material>, cs: seq<CraftedItem>, ns: seq<Need>, prev: seq<Requirement>, k: nat)
    requires |ns| > 0 && DistinctIds(prev) && EntriesSum(ms, cs, ns[..|ns| - 1], prev)
    requires FirstIndex(RequirementIds(prev), ns[|ns| - 1].id) == Some(k)
    ensures EntriesSum(ms, cs, ns, Tally(ms, cs, prev, ns[|ns| - 1]))
  {
    var reqs := Tally(ms, cs, prev, ns[|ns| - 1]);
    forall k' | 0 <= k' < |reqs|
      ensures reqs[k'].requiredQuantity == SumRequired(ns, reqs[k'].id)
      ensures reqs[k'].needToProduce == SumShortfall(ms, cs, ns, reqs[k'].id)
    {
      if k' != k {
        assert prev[k'].id != prev[k].id;
      }
    }
  }

  /** A need whose id has no entry yet: a fresh entry goes at the back, the others keep their sums. */
  lemma TallyEntriesAppended(ms: seq<Material>, cs: seq<CraftedItem>, ns: seq<Need>, prev: seq<Requirement>)
    requires |ns| > 0 && Covers(ns[..|ns| - 1], prev) && EntriesSum(ms, cs, ns[..|ns| - 1], prev)
    requires FirstIndex(RequirementIds(prev), ns[|ns| - 1].id) == None
    ensures EntriesSum(ms, cs, ns, Tally(ms, cs, prev, ns[|ns| - 1]))
  {
    var init := ns[..|ns| - 1];
    var n := ns[|ns| - 1];
    forall j | 0 <= j < |init|
      ensures init[j].id != n.id
    {
      assert init[j].id in RequirementIds(prev);
    }
    SumsOfAbsent(ms, cs, init, n.id);
  }

  function NeedIds(ns: seq<Need>): (ids: seq<Id>)
    ensures |ids| == |ns| && forall j :: 0 <= j < |ns| ==> ids[j] == ns[j].id
  {
    seq(|ns|, j requires 0 <= j < |ns| => ns[j].id)
  }

  /** Accounting a need keeps the ids when its id has an entry, and appends its id otherwise. */
  lemma TallyIds(ms: seq<Material>, cs: seq<CraftedItem>, reqs: seq<Requirement>, n: Need)
    ensures RequirementIds(Tally(ms, cs, reqs, n))
         == if n.id in RequirementIds(reqs) then RequirementIds(reqs) else RequirementIds(reqs) + [n.id]
  {
  }

  /** The table's ids are the needs' ids, each once, in order of first appearance. */
  lemma {:induction false} TallyIdsInOrder(ms: seq<Material>, cs: seq<CraftedItem>, ns: seq<Need>)
    ensures RequirementIds(TallyOnto(ms, cs, [], ns)) == Seqs.Dedup(NeedIds(ns))
  {
    if |ns| > 0 {
      var init := ns[..|ns| - 1];
      TallyIdsInOrder(ms, cs, init);
      assert NeedIds(ns)[..|ns| - 1] == NeedIds(init);
      TallyIds(ms, cs, TallyOnto(ms, cs, [], init), ns[|ns| - 1]);
    }
  }

  /**
   * The table has one entry per ingredient id, in order of first appearance; each entry
   * holds the total required, the stock on hand, and the sum of the per-need shortfalls.
   */
  lemma {:induction false} TallyDescribes(ms: seq<Material>, cs: seq<CraftedItem>, ns: seq<Need>)
    ensures TableDescribes(ms, cs, ns, TallyOnto(ms, cs, [], ns))
    ensures RequirementIds(TallyOnto(ms, cs, [], ns)) == Seqs.Dedup(NeedIds(ns))
  {
    TallyIdsInOrder(ms, cs, ns);
    if |ns| > 0 {
      var prev := TallyOnto(ms, cs, [], ns[..|ns| - 1]);
      TallyDescribes(ms, cs, ns[..|ns| - 1]);
      TallyStepIds(ms, cs, ns, prev);
      TallyStepEntries(ms, cs, ns, prev);
    }
  }

  /** The inner loop of `calculateMaterialRequirements`: tally the ingredient lines of one ordered item. */
  method TallyLine(ms: seq<Material>, cs: seq<CraftedItem>, reqs: seq<Requirement>, recipe: Recipe, line: ContractLine)
    returns (out: seq<Requirement>)
    ensures out == TallyOnto(ms, cs, reqs, LineNeeds(recipe, line))
  {
    ghost var ns := LineNeeds(recipe, line);
    out := reqs;
    var j := 0;
    while j < |recipe.ingredients|
      invariant 0 <= j <= |recipe.ingredients|
      invariant out == TallyOnto(ms, cs, reqs, ns[..j])
    {
      var ing := recipe.ingredients[j];
      out := TallyNeed(ms, cs, out, Need(ing.id, ing.quantity * line.quantity));
      Seqs.PrefixSnoc(ns, j);
      j := j + 1;
    }
    assert ns[..j] == ns;
  }

  /** One step of that loop: account a single need in the table. */
  method TallyNeed(ms: seq<Material>, cs: seq<CraftedItem>, reqs: seq<Requirement>, n: Need)
    returns (out: seq<Requirement>)
    ensures out == Tally(ms, cs, reqs, n)
  {
    var stock := StockOf(ms, cs, n.id);
    var display := NameOf(ms, cs, n.id);
    var found := FirstIndex(RequirementIds(reqs), n.id);
    if found.Some? {
      var k := found.value;
      out := reqs[k := reqs[k].(name := display,
                                requiredQuantity := reqs[k].requiredQuantity + n.required,
                                currentInventory := stock,
                                needToProduce := reqs[k].needToProduce + Max0(n.required - stock))];
    } else {
      out := reqs + [Requirement(n.id, display, n.required, stock, Max0(n.required - stock))];
    }
  }

  /** The contract's shortfall table: every entry that still needs producing or buying. */
  datatype ContractShortage = ContractShortage(name: string, required: int, inStock: int, needToProduce: int)

  function Shortages(reqs: seq<Requirement>): (r: seq<ContractShortage>)
    ensures |r| <= |reqs|
    ensures r == [] <==> forall k :: 0 <= k < |reqs| ==> reqs[k].needToProduce <= 0
  {
    if |reqs| == 0 then []
    else
      var e := reqs[|reqs| - 1];
      Shortages(reqs[..|reqs| - 1])
      + (if e.needToProduce > 0 then [ContractShortage(e.name, e.requiredQuantity, e.currentInventory, e.needToProduce)] else [])
  }

  lemma {:induction false} ShortfallZero(ms: seq<Material>, cs: seq<CraftedItem>, ns: seq<Need>, id: Id)
    ensures SumShortfall(ms, cs, ns, id) == 0 <==>
            forall j :: 0 <= j < |ns| && ns[j].id == id ==> ns[j].required <= StockOf(ms, cs, id)
  {
    if |ns| > 0 {
      var init := ns[..|ns| - 1];
      ShortfallZero(ms, cs, init, id);
      assert forall j :: 0 <= j < |init| ==> init[j] == ns[j];
    }
  }

  /** Every need, taken on its own, is covered by the stock of its ingredient. */
  predicate EachNeedCovered(ms: seq<Material>, cs: seq<CraftedItem>, ns: seq<Need>)
  {
    forall j :: 0 <= j < |ns| ==> ns[j].required <= StockOf(ms, cs, ns[j].id)
  }

  lemma TableFeasible(ms: seq<Material>, cs: seq<CraftedItem>, ns: seq<Need>, reqs: seq<Requirement>)
    requires Covers(ns, reqs) && EntriesSum(ms, cs, ns, reqs)
    ensures (forall k :: 0 <= k < |reqs| ==> reqs[k].needToProduce <= 0) <==> EachNeedCovered(ms, cs, ns)
  {
    if forall k :: 0 <= k < |reqs| ==> reqs[k].needToProduce <= 0 {
      forall j | 0 <= j < |ns|
        ensures ns[j].required <= StockOf(ms, cs, ns[j].id)
      {
        var id := ns[j].id;
        assert id in RequirementIds(reqs);
        var k :| 0 <= k < |reqs| && RequirementIds(reqs)[k] == id;
        ShortfallZero(ms, cs, ns, id);
      }
    }
    if EachNeedCovered(ms, cs, ns) {
      forall k | 0 <= k < |reqs|
        ensures reqs[k].needToProduce <= 0
      {
        ShortfallZero(ms, cs, ns, reqs[k].id);
      }
    }
  }

  /** The loop of `validateContractFeasibility()` that collects every entry still to produce. */
  method ListShortages(reqs: seq<Requirement>) returns (shortages: seq<ContractShortage>)
    ensures shortages == Shortages(reqs)
  {
    shortages := [];
    var i := 0;
    while i < |reqs|
      invariant 0 <= i <= |reqs|
      invariant shortages == Shortages(reqs[..i])
    {
      var e := reqs[i];
      Seqs.PrefixSnoc(reqs, i);
      if e.needToProduce > 0 {
        shortages := shortages + [ContractShortage(e.name, e.requiredQuantity, e.currentInventory, e.needToProduce)];
      }
      i := i + 1;
    }
    assert reqs[..i] == reqs;
  }

  /** The loop of `startContractProduction()` that hands every planned job to the production queue. */
  method EnqueuePlan(shop: Store.Shop, plan: seq<ProductionItem>, now: int)
    modifies shop
    ensures shop.queue == old(shop.queue) + Store.Enqueued(plan, now)
    ensures shop.materials == old(shop.materials) && shop.crafted == old(shop.crafted)
    ensures shop.recipes == old(shop.recipes) && shop.prices == old(shop.prices) && shop.history == old(shop.history)
  {
    var i := 0;
    while i < |plan|
      invariant 0 <= i <= |plan|
      invariant shop.queue == old(shop.queue) + Store.Enqueued(plan[..i], now)
      invariant shop.materials == old(shop.materials) && shop.crafted == old(shop.crafted)
      invariant shop.recipes == old(shop.recipes) && shop.prices == old(shop.prices) && shop.history == old(shop.history)
    {
      shop.AddToProductionQueue(plan[i], now);
      Seqs.PrefixSnoc(plan, i);
      i := i + 1;
    }
    assert plan[..i] == plan;
  }

  /**
   * A contract is judged feasible exactly when every ingredient line of every ordered
   * item, taken on its own, is covered by stock.
   */
  lemma FeasibleIffEachNeedCovered(ms: seq<Material>, cs: seq<CraftedItem>, rs: seq<Recipe>, lines: seq<ContractLine>)
    ensures Shortages(Requirements(ms, cs, rs, lines)) == [] <==> EachNeedCovered(ms, cs, Needs(rs, lines))
  {
    TallyFeasible(ms, cs, Needs(rs, lines));
  }

  /** The tally of any needs has no shortage exactly when each need, on its own, is covered by stock. */
  lemma TallyFeasible(ms: seq<Material>, cs: seq<CraftedItem>, ns: seq<Need>)
    ensures Shortages(TallyOnto(ms, cs, [], ns)) == [] <==> EachNeedCovered(ms, cs, ns)
  {
    var reqs := TallyOnto(ms, cs, [], ns);
    TallyDescribes(ms, cs, ns);
    TableFeasible(ms, cs, ns, reqs);
  }

  /**
   * Because each line is checked on its own, two orders of a blade needing 3 iron each
   * pass against 5 iron in stock although the contract needs 6.
   */
  lemma FeasibleThoughShortInTotal()
    ensures var ms := [Material("iron", "Iron", 5, 1.0, "raw")];
            var rs := [Recipe("blade", "Blade", 1, 5, [Ingredient("iron", 3)], 10.0)];
            var lines := [ContractLine("blade", 1), ContractLine("blade", 1)];
            var reqs := Requirements(ms, [], rs, lines);
            Shortages(reqs) == [] && |reqs| == 1 && reqs[0].requiredQuantity == 6 && reqs[0].currentInventory == 5
  {
    var ms := [Material("iron", "Iron", 5, 1.0, "raw")];
    var rs := [Recipe("blade", "Blade", 1, 5, [Ingredient("iron", 3)], 10.0)];
    var lines := [ContractLine("blade", 1), ContractLine("blade", 1)];
    assert RecipeIds(rs) == ["blade"];
    assert MaterialIds(ms) == ["iron"];
    assert StockOf(ms, [], "iron") == 5;
    assert lines[..1] == [ContractLine("blade", 1)];
    assert lines[..1][..0] == [];
    var one := LineNeeds(rs[0], ContractLine("blade", 1));
    assert one == [Need("iron", 3)];
    assert Needs(rs, lines[..1]) == [Need("iron", 3)];
    var ns := Needs(rs, lines);
    assert ns == [Need("iron", 3), Need("iron", 3)];
    assert ns[..1] == [Need("iron", 3)];
    assert ns[..1][..0] == [];
    var none: seq<CraftedItem> := [];
    assert NameOf(ms, none, "iron") == "Iron";
    var first := TallyOnto(ms, none, [], ns[..1]);
    assert TallyOnto(ms, none, [], ns[..1][..0]) == [];
    assert first == Tally(ms, none, [], Need("iron", 3));
    assert first == [Requirement("iron", "Iron", 3, 5, 0)];
    assert RequirementIds(first) == ["iron"];
    assert TallyOnto(ms, [], [], ns) == Tally(ms, [], first, Need("iron", 3));
    assert TallyOnto(ms, [], [], ns) == [Requirement("iron", "Iron", 6, 5, 0)];
  }

  // ---------------------------------------------------------------------------
  // Financials and the production plan
  // ---------------------------------------------------------------------------

  /** Production cost of one ordered item; nothing when it has no recipe. */
  function ItemCost(ms: seq<Material>, cs: seq<CraftedItem>, rs: seq<Recipe>, line: ContractLine): real
  {
    var found := FindRecipe(rs, line.itemId);
    if found.Some? then BatchCost(ms, cs, rs[found.value], line.quantity) else 0.0
  }

  /** Sale value of one ordered item; nothing when it has no recipe. */
  function ItemRevenue(rs: seq<Recipe>, line: ContractLine): real
  {
    var found := FindRecipe(rs, line.itemId);
    if found.Some? then SaleValue(rs[found.value], line.quantity) else 0.0
  }

  function ItemsCost(ms: seq<Material>, cs: seq<CraftedItem>, rs: seq<Recipe>, lines: seq<ContractLine>): real
  {
    if |lines| == 0 then 0.0
    else ItemsCost(ms, cs, rs, lines[..|lines| - 1]) + ItemCost(ms, cs, rs, lines[|lines| - 1])
  }

  function ItemsRevenue(rs: seq<Recipe>, lines: seq<ContractLine>): real
  {
    if |lines| == 0 then 0.0
    else ItemsRevenue(rs, lines[..|lines| - 1]) + ItemRevenue(rs, lines[|lines| - 1])
  }

  /** The body of the summing loop of `calculateFinancials`: one ordered item. */
  method ItemTotal(ms: seq<Material>, cs: seq<CraftedItem>, rs: seq<Recipe>, line: ContractLine)
    returns (cost: real, revenue: real)
    ensures cost == ItemCost(ms, cs, rs, line) && revenue == ItemRevenue(rs, line)
  {
    var found := FindRecipe(rs, line.itemId);
    if found.Some? {
      var r := rs[found.value];
      var c := ComputeCost(ms, cs, r);
      cost := Times(c, line.quantity);
      revenue := SaleValue(r, line.quantity);
    } else {
      cost, revenue := 0.0, 0.0;
    }
  }

  /** The summing loop of `calculateFinancials`: cost and sale value of the ordered items with a recipe. */
  method ItemTotals(ms: seq<Material>, cs: seq<CraftedItem>, rs: seq<Recipe>, items: seq<ContractLine>)
    returns (totalCost: real, totalRevenue: real)
    ensures totalCost == ItemsCost(ms, cs, rs, items)
    ensures totalRevenue == ItemsRevenue(rs, items)
  {
    totalCost := 0.0;
    totalRevenue := 0.0;
    var i := 0;
    while i < |items|
      invariant 0 <= i <= |items|
      invariant totalCost == ItemsCost(ms, cs, rs, items[..i])
      invariant totalRevenue == ItemsRevenue(rs, items[..i])
    {
      Seqs.PrefixSnoc(items, i);
      var c, v := ItemTotal(ms, cs, rs, items[i]);
      totalCost := totalCost + c;
      totalRevenue := totalRevenue + v;
      i := i + 1;
    }
    assert items[..i] == items;
  }

  /** What `calculateFinancials` reports; the margin is absent when there is no revenue to divide by. */
  datatype Financials = Financials(totalCost: real, totalRevenue: real, netProfit: real, profitMargin: Option<real>)

  /** The job for an ordered item: urgent with the deadline as timeline when there is one, else normal in 30 days. */
  function PlanJob(id: int, line: ContractLine, deadline: Option<int>, now: int): (p: ProductionItem)
    ensures p.id == id && p.itemId == line.itemId && p.status == Pending
    ensures line.quantity != 0 ==> p.quantity == line.quantity
    ensures p.priority == Urgent <==> deadline.Some?
    ensures p.timeline == if deadline.Some? then deadline.value else now + DefaultLeadTime
  {
    NewProductionItem(id, line.itemId, line.quantity,
                      Some(if deadline.Some? then Urgent else NormalPriority),
                      if deadline.Some? then deadline.value else now + DefaultLeadTime,
                      Some(Pending))
  }

  /** `generateProductionPlan()`: one job per ordered item with a recipe, numbered from `idBase`. */
  function Plan(rs: seq<Recipe>, lines: seq<ContractLine>, deadline: Option<int>, now: int, idBase: int): (p: seq<ProductionItem>)
    ensures |p| <= |lines|
    ensures forall k :: 0 <= k < |p| ==> p[k].id == idBase + k && p[k].status == Pending
    ensures forall k :: 0 <= k < |p| ==> FindRecipe(rs, p[k].itemId).Some?
  {
    if |lines| == 0 then []
    else
      var last := lines[|lines| - 1];
      var init := Plan(rs, lines[..|lines| - 1], deadline, now, idBase);
      PlanStep(rs, init, last, deadline, now, idBase)
  }

  /** The plan after one more ordered line: a job for it when its item has a recipe. */
  function PlanStep(rs: seq<Recipe>, prev: seq<ProductionItem>, line: ContractLine, deadline: Option<int>, now: int, idBase: int): seq<ProductionItem>
  {
    if FindRecipe(rs, line.itemId).Some? then prev + [PlanJob(idBase + |prev|, line, deadline, now)] else prev
  }

  /** The ordered lines whose item has a recipe. */
  function HasRecipe(rs: seq<Recipe>): ContractLine -> bool
  {
    (line: ContractLine) => FindRecipe(rs, line.itemId).Some?
  }

  /** Job `k` of `p` is the job for line `k` of `kept`, numbered `idBase + k`. */
  predicate JobPerLine(p: seq<ProductionItem>, kept: seq<ContractLine>, deadline: Option<int>, now: int, idBase: int)
  {
    |p| == |kept| && forall k :: 0 <= k < |p| ==> p[k] == PlanJob(idBase + k, kept[k], deadline, now)
  }

  /** The plan holds one job per ordered line with a recipe, in line order, and no other job. */
  lemma {:induction false} PlanFollowsLines(rs: seq<Recipe>, lines: seq<ContractLine>, deadline: Option<int>, now: int, idBase: int)
    ensures JobPerLine(Plan(rs, lines, deadline, now, idBase), Seqs.Filter(lines, HasRecipe(rs)), deadline, now, idBase)
  {
    if |lines| > 0 {
      var init := lines[..|lines| - 1];
      var last := lines[|lines| - 1];
      PlanFollowsLines(rs, init, deadline, now, idBase);
      var prev := Plan(rs, init, deadline, now, idBase);
      var kept := Seqs.Filter(init, HasRecipe(rs));
      assert Seqs.Filter(lines, HasRecipe(rs)) == kept + (if HasRecipe(rs)(last) then [last] else []);
      if HasRecipe(rs)(last) {
        var p := prev + [PlanJob(idBase + |prev|, last, deadline, now)];
        assert Plan(rs, lines, deadline, now, idBase) == p;
        forall k | 0 <= k < |p|
          ensures p[k] == PlanJob(idBase + k, (kept + [last])[k], deadline, now)
        {
          if k < |prev| {
            assert p[k] == prev[k];
          }
        }
      }
    }
  }

  lemma PlanPrefixStep(rs: seq<Recipe>, lines: seq<ContractLine>, i: nat, deadline: Option<int>, now: int, idBase: int)
    requires i < |lines|
    ensures Plan(rs, lines[..i + 1], deadline, now, idBase)
         == PlanStep(rs, Plan(rs, lines[..i], deadline, now, idBase), lines[i], deadline, now, idBase)
  {
    Seqs.PrefixSnoc(lines, i);
  }

  /** One step of `generateProductionPlan()`: a job for the line when its item has a recipe. */
  method PlanLine(rs: seq<Recipe>, plan: seq<ProductionItem>, line: ContractLine, deadline: Option<int>, now: int, idBase: int)
    returns (out: seq<ProductionItem>)
    ensures out == PlanStep(rs, plan, line, deadline, now, idBase)
  {
    out := plan;
    var found := FindRecipe(rs, line.itemId);
    if found.Some? {
      var job := NewProductionItem(idBase + |plan|, line.itemId, line.quantity,
                                   Some(if deadline.Some? then Urgent else NormalPriority),
                                   if deadline.Some? then deadline.value else now + DefaultLeadTime,
                                   Some(Pending));
      out := plan + [job];
    }
  }

  function JobsCost(ms: seq<Material>, cs: seq<CraftedItem>, rs: seq<Recipe>, ps: seq<ProductionItem>): real
  {
    if |ps| == 0 then 0.0
    else JobsCost(ms, cs, rs, ps[..|ps| - 1]) + Jobs.EstimatedCost(ms, cs, rs, ps[|ps| - 1])
  }

  function JobsValue(rs: seq<Recipe>, ps: seq<ProductionItem>): real
  {
    if |ps| == 0 then 0.0
    else JobsValue(rs, ps[..|ps| - 1]) + Jobs.EstimatedValue(rs, ps[|ps| - 1])
  }

  lemma JobsCostSnoc(ms: seq<Material>, cs: seq<CraftedItem>, rs: seq<Recipe>, ps: seq<ProductionItem>, p: ProductionItem)
    ensures JobsCost(ms, cs, rs, ps + [p]) == JobsCost(ms, cs, rs, ps) + Jobs.EstimatedCost(ms, cs, rs, p)
  {
    assert (ps + [p])[..|ps + [p]| - 1] == ps;
  }

  lemma JobsValueSnoc(rs: seq<Recipe>, ps: seq<ProductionItem>, p: ProductionItem)
    ensures JobsValue(rs, ps + [p]) == JobsValue(rs, ps) + Jobs.EstimatedValue(rs, p)
  {
    assert (ps + [p])[..|ps + [p]| - 1] == ps;
  }

  /** The job planned for an ordered item estimates that item's cost. */
  lemma PlanJobCost(ms: seq<Material>, cs: seq<CraftedItem>, rs: seq<Recipe>, i: nat,
                    id: int, line: ContractLine, deadline: Option<int>, now: int)
    requires line.quantity != 0 && FindRecipe(rs, line.itemId) == Some(i)
    ensures Jobs.EstimatedCost(ms, cs, rs, PlanJob(id, line, deadline, now)) == ItemCost(ms, cs, rs, line)
  {
    assert Jobs.JobRecipe(rs, PlanJob(id, line, deadline, now)) == Some(rs[i]);
  }

  /** The job planned for an ordered item estimates that item's revenue. */
  lemma PlanJobValue(rs: seq<Recipe>, i: nat, id: int, line: ContractLine, deadline: Option<int>, now: int)
    requires line.quantity != 0 && FindRecipe(rs, line.itemId) == Some(i)
    ensures Jobs.EstimatedValue(rs, PlanJob(id, line, deadline, now)) == ItemRevenue(rs, line)
  {
    assert Jobs.JobRecipe(rs, PlanJob(id, line, deadline, now)) == Some(rs[i]);
  }

  /** The plan for `lines` extends the plan for all but the last line by that line's job, if it has a recipe. */
  lemma PlanSnoc(rs: seq<Recipe>, lines: seq<ContractLine>, deadline: Option<int>, now: int, idBase: int)
    requires |lines| > 0
    ensures var prev := Plan(rs, lines[..|lines| - 1], deadline, now, idBase);
            var last := lines[|lines| - 1];
            Plan(rs, lines, deadline, now, idBase)
              == if FindRecipe(rs, last.itemId).Some? then prev + [PlanJob(idBase + |prev|, last, deadline, now)] else prev
  {
  }

  /**
   * The plan's job cost estimates add up to the contract's item cost, when no ordered
   * quantity is zero (a zero would become a job of one).
   */
  lemma {:induction false} PlanMatchesCost(ms: seq<Material>, cs: seq<CraftedItem>, rs: seq<Recipe>,
                                           lines: seq<ContractLine>, deadline: Option<int>, now: int, idBase: int)
    requires forall k :: 0 <= k < |lines| ==> lines[k].quantity != 0
    ensures JobsCost(ms, cs, rs, Plan(rs, lines, deadline, now, idBase)) == ItemsCost(ms, cs, rs, lines)
  {
    if |lines| > 0 {
      var init := lines[..|lines| - 1];
      var last := lines[|lines| - 1];
      var prev := Plan(rs, init, deadline, now, idBase);
      PlanMatchesCost(ms, cs, rs, init, deadline, now, idBase);
      assert ItemsCost(ms, cs, rs, lines) == ItemsCost(ms, cs, rs, init) + ItemCost(ms, cs, rs, last);
      PlanCostStep(ms, cs, rs, lines, deadline, now, idBase);
    }
  }

  /** One step of `PlanMatchesCost`: the last ordered item adds its own cost to the plan's estimate. */
  lemma PlanCostStep(ms: seq<Material>, cs: seq<CraftedItem>, rs: seq<Recipe>,
                     lines: seq<ContractLine>, deadline: Option<int>, now: int, idBase: int)
    requires |lines| > 0 && lines[|lines| - 1].quantity != 0
    ensures JobsCost(ms, cs, rs, Plan(rs, lines, deadline, now, idBase))
         == JobsCost(ms, cs, rs, Plan(rs, lines[..|lines| - 1], deadline, now, idBase)) + ItemCost(ms, cs, rs, lines[|lines| - 1])
  {
    var last := lines[|lines| - 1];
    var prev := Plan(rs, lines[..|lines| - 1], deadline, now, idBase);
    var found := FindRecipe(rs, last.itemId);
    PlanSnoc(rs, lines, deadline, now, idBase);
    if found.Some? {
      var job := PlanJob(idBase + |prev|, last, deadline, now);
      JobsCostSnoc(ms, cs, rs, prev, job);
      PlanJobCost(ms, cs, rs, found.value, idBase + |prev|, last, deadline, now);
    }
  }

  /** Likewise the plan's job value estimates add up to the contract's item revenue. */
  lemma {:induction false} PlanMatchesRevenue(rs: seq<Recipe>, lines: seq<ContractLine>,
                                              deadline: Option<int>, now: int, idBase: int)
    requires forall k :: 0 <= k < |lines| ==> lines[k].quantity != 0
    ensures JobsValue(rs, Plan(rs, lines, deadline, now, idBase)) == ItemsRevenue(rs, lines)
  {
    if |lines| > 0 {
      var init := lines[..|lines| - 1];
      PlanMatchesRevenue(rs, init, deadline, now, idBase);
      assert ItemsRevenue(rs, lines) == ItemsRevenue(rs, init) + ItemRevenue(rs, lines[|lines| - 1]);
      PlanRevenueStep(rs, lines, deadline, now, idBase);
    }
  }

  /** One step of `PlanMatchesRevenue`: the last ordered item adds its own revenue to the plan's estimate. */
  lemma PlanRevenueStep(rs: seq<Recipe>, lines: seq<ContractLine>, deadline: Option<int>, now: int, idBase: int)
    requires |lines| > 0 && lines[|lines| - 1].quantity != 0
    ensures JobsValue(rs, Plan(rs, lines, deadline, now, idBase))
         == JobsValue(rs, Plan(rs, lines[..|lines| - 1], deadline, now, idBase)) + ItemRevenue(rs, lines[|lines| - 1])
  {
    var last := lines[|lines| - 1];
    var prev := Plan(rs, lines[..|lines| - 1], deadline, now, idBase);
    var found := FindRecipe(rs, last.itemId);
    PlanSnoc(rs, lines, deadline, now, idBase);
    if found.Some? {
      var job := PlanJob(idBase + |prev|, last, deadline, now);
      JobsValueSnoc(rs, prev, job);
      PlanJobValue(rs, found.value, idBase + |prev|, last, deadline, now);
    }
  }

  // ---------------------------------------------------------------------------
  // The contract object
  // ---------------------------------------------------------------------------

  class Contract {
    var id: int
    var name: string
    var client: string
    var items: seq<ContractLine>
    var deadline: Option<int>
    /** The contract-specific extra cost; 0 when none was given. */
    var additionalCosts: real
    var status: ContractStatus
    var createdAt: int
    var completedAt: Option<int>

    /** A new contract starts pending, stamped with its creation instant. */
    constructor (id: int, name: string, client: string, items: seq<ContractLine>, deadline: Option<int>,
                 additionalCosts: real, now: int)
      ensures this.id == id && this.name == name && this.client == client && this.items == items
      ensures this.deadline == deadline && this.additionalCosts == additionalCosts
      ensures status == PendingContract && createdAt == now && completedAt == None
    {
      this.id := id;
      this.name := name;
      this.client := client;
      this.items := items;
      this.deadline := deadline;
      this.additionalCosts := additionalCosts;
      status := PendingContract;
      createdAt := now;
      completedAt := None;
    }

    /** `calculateMaterialRequirements()`: tally every ingredient line of every ordered item that has a recipe. */
    method CalculateMaterialRequirements(shop: Store.Shop) returns (reqs: seq<Requirement>)
      ensures reqs == Requirements(shop.materials, shop.crafted, shop.recipes, items)
      ensures TableDescribes(shop.materials, shop.crafted, Needs(shop.recipes, items), reqs)
    {
      var ms, cs, rs := shop.materials, shop.crafted, shop.recipes;
      reqs := [];
      var i := 0;
      while i < |items|
        invariant 0 <= i <= |items|
        invariant reqs == TallyOnto(ms, cs, [], Needs(rs, items[..i]))
      {
        var line := items[i];
        Seqs.PrefixSnoc(items, i);
        match FindRecipe(rs, line.itemId) {
          case None =>
            assert Needs(rs, items[..i + 1]) == Needs(rs, items[..i]);
          case Some(ri) =>
            assert Needs(rs, items[..i + 1]) == Needs(rs, items[..i]) + LineNeeds(rs[ri], line);
            TallyOntoConcat(ms, cs, [], Needs(rs, items[..i]), LineNeeds(rs[ri], line));
            reqs := TallyLine(ms, cs, reqs, rs[ri], line);
        }
        i := i + 1;
      }
      assert items[..i] == items;
      TallyDescribes(ms, cs, Needs(rs, items));
    }

    /** `calculateFinancials()`: item cost plus the extra cost, item revenue, and their difference. */
    method CalculateFinancials(shop: Store.Shop) returns (f: Financials)
      ensures f.totalCost == ItemsCost(shop.materials, shop.crafted, shop.recipes, items) + additionalCosts
      ensures f.totalRevenue == ItemsRevenue(shop.recipes, items)
      ensures f.netProfit == f.totalRevenue - f.totalCost
      ensures f.profitMargin.None? <==> f.totalRevenue == 0.0
      ensures f.profitMargin.Some? ==> f.profitMargin.value * f.totalRevenue == f.netProfit * 100.0
    {
      var totalCost, totalRevenue := ItemTotals(shop.materials, shop.crafted, shop.recipes, items);
      totalCost := totalCost + additionalCosts;
      var net := totalRevenue - totalCost;
      if totalRevenue == 0.0 {
        f := Financials(totalCost, totalRevenue, net, None);
      } else {
        f := Financials(totalCost, totalRevenue, net, Some(net / totalRevenue * 100.0));
      }
    }

    /** `generateProductionPlan()`: one pending job per ordered item with a recipe. */
    method GenerateProductionPlan(shop: Store.Shop, now: int, idBase: int) returns (plan: seq<ProductionItem>)
      ensures plan == Plan(shop.recipes, items, deadline, now, idBase)
    {
      var rs := shop.recipes;
      plan := [];
      var i := 0;
      while i < |items|
        invariant 0 <= i <= |items|
        invariant plan == Plan(rs, items[..i], deadline, now, idBase)
      {
        PlanPrefixStep(rs, items, i, deadline, now, idBase);
        plan := PlanLine(rs, plan, items[i], deadline, now, idBase);
        i := i + 1;
      }
      assert items[..i] == items;
    }

    /** `validateContractFeasibility()`: the contract can be fulfilled when no requirement needs producing. */
    method ValidateContractFeasibility(shop: Store.Shop) returns (canFulfill: bool, shortages: seq<ContractShortage>)
      ensures shortages == Shortages(Requirements(shop.materials, shop.crafted, shop.recipes, items))
      ensures canFulfill <==> shortages == []
      ensures canFulfill <==> EachNeedCovered(shop.materials, shop.crafted, Needs(shop.recipes, items))
    {
      var reqs := CalculateMaterialRequirements(shop);
      shortages := ListShortages(reqs);
      canFulfill := |shortages| == 0;
      FeasibleIffEachNeedCovered(shop.materials, shop.crafted, shop.recipes, items);
    }

    /** `updateStatus()`: set the status; completing stamps the completion instant. */
    method UpdateStatus(newStatus: ContractStatus, now: int)
      modifies this
      ensures status == newStatus
      ensures completedAt == if newStatus == CompletedContract then Some(now) else old(completedAt)
      ensures id == old(id) && name == old(name) && client == old(client) && items == old(items)
      ensures deadline == old(deadline) && additionalCosts == old(additionalCosts) && createdAt == old(createdAt)
    {
      status := newStatus;
      if newStatus == CompletedContract {
        completedAt := Some(now);
      }
    }
  }

  /** An item row of the new-contract form; a quantity that does not parse is `None`. */
  datatype FormLine = FormLine(itemId: Id, quantity: Option<int>)

  /** The rows the form keeps: an item chosen and a positive quantity. */
  function KeptLines(rows: seq<FormLine>): (lines: seq<ContractLine>)
    ensures |lines| <= |rows|
    ensures forall k :: 0 <= k < |lines| ==> lines[k].itemId != "" && lines[k].quantity > 0
    ensures forall k :: 0 <= k < |rows| && rows[k].itemId != "" && rows[k].quantity.Some? && rows[k].quantity.value > 0 ==>
              ContractLine(rows[k].itemId, rows[k].quantity.value) in lines
  {
    if |rows| == 0 then []
    else
      var row := rows[|rows| - 1];
      KeptLines(rows[..|rows| - 1])
      + if row.itemId != "" && row.quantity.Some? && row.quantity.value > 0
        then [ContractLine(row.itemId, row.quantity.value)] else []
  }

  /** A row the form keeps. */
  predicate KeptRow(row: FormLine)
  {
    row.itemId != "" && row.quantity.Some? && row.quantity.value > 0
  }

  function KeepsRow(): FormLine -> bool
  {
    (row: FormLine) => KeptRow(row)
  }

  /** The ordered item a kept row stands for. */
  function RowLine(row: FormLine): ContractLine
  {
    ContractLine(row.itemId, if row.quantity.Some? then row.quantity.value else 0)
  }

  /** The kept lines are exactly the kept rows, one line per row, in row order. */
  lemma {:induction false} KeptLinesAreKeptRows(rows: seq<FormLine>)
    ensures KeptLines(rows) == Seqs.Map(Seqs.Filter(rows, KeepsRow()), RowLine)
  {
    if |rows| > 0 {
      var init := rows[..|rows| - 1];
      var row := rows[|rows| - 1];
      KeptLinesAreKeptRows(init);
      Seqs.SplitLast(rows);
      Seqs.FilterSnoc(init, row, KeepsRow());
      Seqs.MapConcat(Seqs.Filter(init, KeepsRow()), if KeptRow(row) then [row] else [], RowLine);
    }
  }

  /** The contract list (`window.contracts`) and the contract-manager actions on it. */
  class ContractBook {
    var contracts: seq<Contract>

    constructor ()
      ensures contracts == []
    {
      contracts := [];
    }

    /** `addContract()`: the contract goes to the end of the list. */
    method AddContract(c: Contract)
      modifies this
      ensures contracts == old(contracts) + [c]
    {
      contracts := contracts + [c];
    }

    /**
     * `addNewContract()`: a name and a client are required, and at least one row with an
     * item and a positive quantity; the new contract is pending and has no extra cost.
     */
    method AddNewContract(name: string, client: string, deadline: Option<int>, rows: seq<FormLine>, now: int)
      returns (res: Result<Contract, string>)
      modifies this
      ensures name == "" || client == "" || KeptLines(rows) == [] <==> res.Failure?
      ensures res.Failure? ==> contracts == old(contracts)
      ensures res.Success? ==>
        contracts == old(contracts) + [res.value] && fresh(res.value)
        && res.value.items == KeptLines(rows) && res.value.status == PendingContract
        && res.value.id == now && res.value.name == name && res.value.client == client
        && res.value.deadline == deadline && res.value.additionalCosts == 0.0
    {
      if name == "" || client == "" {
        return Failure("Contract name and client are required");
      }
      var lines := [];
      var i := 0;
      while i < |rows|
        invariant 0 <= i <= |rows|
        invariant lines == KeptLines(rows[..i])
      {
        var row := rows[i];
        assert rows[..i + 1][..i] == rows[..i];
        if row.itemId != "" && row.quantity.Some? && row.quantity.value > 0 {
          lines := lines + [ContractLine(row.itemId, row.quantity.value)];
        }
        i := i + 1;
      }
      assert rows[..i] == rows;
      if |lines| == 0 {
        return Failure("At least one contract item is required");
      }
      var c := new Contract(now, name, client, lines, deadline, 0.0, now);
      AddContract(c);
      res := Success(c);
    }

    /**
     * `startContractProduction()`: an infeasible contract changes nothing; once confirmed,
     * a feasible one has its plan appended to the production queue and goes in progress.
     */
    method StartContractProduction(c: Contract, shop: Store.Shop, confirmed: bool, now: int)
      returns (started: bool)
      modifies c, shop
      ensures started <==>
        (confirmed && Shortages(Requirements(old(shop.materials), old(shop.crafted), old(shop.recipes), old(c.items))) == [])
      ensures started ==>
        shop.queue == old(shop.queue) + Store.Enqueued(Plan(old(shop.recipes), old(c.items), old(c.deadline), now, now), now)
        && c.status == InProgress
      ensures !started ==> shop.queue == old(shop.queue) && c.status == old(c.status)
      ensures !started ==> unchanged(c) && unchanged(shop)
      ensures c.items == old(c.items) && c.deadline == old(c.deadline)
      ensures c.id == old(c.id) && c.name == old(c.name) && c.client == old(c.client)
      ensures c.additionalCosts == old(c.additionalCosts) && c.createdAt == old(c.createdAt)
      ensures c.completedAt == old(c.completedAt)
      ensures shop.materials == old(shop.materials) && shop.crafted == old(shop.crafted)
      ensures shop.recipes == old(shop.recipes) && shop.prices == old(shop.prices) && shop.history == old(shop.history)
    {
      var canFulfill, _ := c.ValidateContractFeasibility(shop);
      if !canFulfill || !confirmed {
        return false;
      }
      var plan := c.GenerateProductionPlan(shop, now, now);
      EnqueuePlan(shop, plan, now);
      c.UpdateStatus(InProgress, now);
      started := true;
    }
  }
}
