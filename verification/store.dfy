/**
 * The shop's global state (the arrays of js/data.js) as one object whose fields the
 * data-manipulation functions update in place: crafting, production start, adding and
 * removing stock, recipes, prices and queued jobs, and the import functions that
 * rebuild a list through the record constructors.
 */
module Store {
  import opened Wrappers
  import opened Entities
  import opened Crafting
  import Calendar
  import Jobs

  /** The two inventories, as crafting sees them. */
  datatype Stock = Stock(materials: seq<Material>, crafted: seq<CraftedItem>)

  // ---------------------------------------------------------------------------
  // Specification of crafting
  // ---------------------------------------------------------------------------

  /** Take one ingredient line out of stock, from the record the lookup finds. */
  function ConsumeOne(s: Stock, ing: Ingredient, q: int): (r: Stock)
    ensures |r.materials| == |s.materials| && |r.crafted| == |s.crafted|
  {
    var need := ing.quantity * q;
    match Resolve(s.materials, s.crafted, ing.id)
    case AsMaterial(i) =>
      s.(materials := s.materials[i := s.materials[i].(quantity := s.materials[i].quantity - need)])
    case AsCrafted(j) =>
      s.(crafted := s.crafted[j := s.crafted[j].(quantity := s.crafted[j].quantity - need)])
    case Unresolved => s
  }

  /** Take every ingredient line out of stock, first line first. */
  function ConsumeAll(s: Stock, ings: seq<Ingredient>, q: int): (r: Stock)
    ensures |r.materials| == |s.materials| && |r.crafted| == |s.crafted|
    decreases |ings|
  {
    if |ings| == 0 then s else ConsumeAll(ConsumeOne(s, ings[0], q), ings[1..], q)
  }

  /** Two stocks with the same records apart from quantities. */
  predicate SameRecords(s: Stock, t: Stock)
  {
    |s.materials| == |t.materials| && |s.crafted| == |t.crafted|
    && (forall i :: 0 <= i < |s.materials| ==>
          s.materials[i] == t.materials[i].(quantity := s.materials[i].quantity))
    && (forall j :: 0 <= j < |s.crafted| ==>
          s.crafted[j] == t.crafted[j].(quantity := s.crafted[j].quantity))
  }

  lemma SameRecordsIds(s: Stock, t: Stock)
    requires SameRecords(s, t)
    ensures MaterialIds(s.materials) == MaterialIds(t.materials)
    ensures CraftedIds(s.crafted) == CraftedIds(t.crafted)
  {
  }

  lemma SameRecordsLookups(s: Stock, t: Stock, id: Id)
    requires SameRecords(s, t)
    ensures Resolve(s.materials, s.crafted, id) == Resolve(t.materials, t.crafted, id)
    ensures UnitPrice(s.materials, s.crafted, id) == UnitPrice(t.materials, t.crafted, id)
  {
    SameRecordsIds(s, t);
  }

  lemma SameRecordsTransitive(s: Stock, t: Stock, u: Stock)
    requires SameRecords(s, t) && SameRecords(t, u)
    ensures SameRecords(s, u)
  {
  }

  lemma ConsumeOneKeepsRecords(s: Stock, ing: Ingredient, q: int)
    ensures SameRecords(ConsumeOne(s, ing, q), s)
  {
  }

  /** Consumption changes quantities only: every record keeps its id, name, price and category. */
  lemma {:induction false} ConsumeAllKeepsRecords(s: Stock, ings: seq<Ingredient>, q: int)
    ensures SameRecords(ConsumeAll(s, ings, q), s)
    decreases |ings|
  {
    if |ings| > 0 {
      var s1 := ConsumeOne(s, ings[0], q);
      ConsumeOneKeepsRecords(s, ings[0], q);
      ConsumeAllKeepsRecords(s1, ings[1..], q);
      SameRecordsTransitive(ConsumeAll(s1, ings[1..], q), s1, s);
    } else {
      assert SameRecords(s, s);
    }
  }

  lemma ConsumeStep(s: Stock, ings: seq<Ingredient>, i: int, q: int)
    requires 0 <= i < |ings|
    ensures ConsumeAll(s, ings[i..], q) == ConsumeAll(ConsumeOne(s, ings[i], q), ings[i + 1..], q)
  {
    assert ings[i..][0] == ings[i];
    assert ings[i..][1..] == ings[i + 1..];
  }

  /** Total quantity that the lines with id `id` ask for, per craft. */
  function Demand(ings: seq<Ingredient>, id: Id): int
  {
    if |ings| == 0 then 0
    else (if ings[0].id == id then ings[0].quantity else 0) + Demand(ings[1..], id)
  }

  /** `q` crafts demand the first line's share of `q` crafts and the rest's. */
  lemma DemandStep(ings: seq<Ingredient>, id: Id, q: int)
    requires |ings| > 0
    ensures Demand(ings, id) * q == (if ings[0].id == id then ings[0].quantity * q else 0) + Demand(ings[1..], id) * q
  {
    var b := Demand(ings[1..], id);
    if ings[0].id == id {
      assert (ings[0].quantity + b) * q == ings[0].quantity * q + b * q;
    }
  }

  lemma ConsumeOneMaterial(s: Stock, ing: Ingredient, q: int, i: int)
    requires 0 <= i < |s.materials|
    ensures ConsumeOne(s, ing, q).materials[i].quantity ==
            s.materials[i].quantity
            - (if FindMaterial(s.materials, s.materials[i].id) == Some(i) && ing.id == s.materials[i].id
               then ing.quantity * q else 0)
  {
  }

  lemma ConsumeOneCrafted(s: Stock, ing: Ingredient, q: int, j: int)
    requires 0 <= j < |s.crafted|
    ensures ConsumeOne(s, ing, q).crafted[j].quantity ==
            s.crafted[j].quantity
            - (if Resolve(s.materials, s.crafted, s.crafted[j].id) == AsCrafted(j) && ing.id == s.crafted[j].id
               then ing.quantity * q else 0)
  {
  }

  /**
   * Crafting draws the whole demand for an id from the FIRST material with that id;
   * every other material keeps its quantity.
   */
  lemma {:induction false} ConsumeAllMaterial(s: Stock, ings: seq<Ingredient>, q: int, i: int)
    requires 0 <= i < |s.materials|
    ensures ConsumeAll(s, ings, q).materials[i].quantity ==
            s.materials[i].quantity
            - (if FindMaterial(s.materials, s.materials[i].id) == Some(i) then Demand(ings, s.materials[i].id) * q else 0)
    decreases |ings|
  {
    if |ings| > 0 {
      var s1 := ConsumeOne(s, ings[0], q);
      var id := s.materials[i].id;
      ConsumeOneKeepsRecords(s, ings[0], q);
      SameRecordsIds(s1, s);
      assert s1.materials[i].id == id;
      ConsumeOneMaterial(s, ings[0], q, i);
      ConsumeAllMaterial(s1, ings[1..], q, i);
      DemandStep(ings, id, q);
    }
  }

  /**
   * A crafted item is drawn on only when it is the first with its id and no material
   * has that id; it then loses the whole demand.
   */
  lemma {:induction false} ConsumeAllCrafted(s: Stock, ings: seq<Ingredient>, q: int, j: int)
    requires 0 <= j < |s.crafted|
    ensures ConsumeAll(s, ings, q).crafted[j].quantity ==
            s.crafted[j].quantity
            - (if Resolve(s.materials, s.crafted, s.crafted[j].id) == AsCrafted(j)
               then Demand(ings, s.crafted[j].id) * q else 0)
    decreases |ings|
  {
    if |ings| > 0 {
      var s1 := ConsumeOne(s, ings[0], q);
      var id := s.crafted[j].id;
      ConsumeOneKeepsRecords(s, ings[0], q);
      assert s1.crafted[j].id == id;
      SameRecordsLookups(s1, s, id);
      ConsumeOneCrafted(s, ings[0], q, j);
      ConsumeAllCrafted(s1, ings[1..], q, j);
      DemandStep(ings, id, q);
    }
  }

  /** Add the output of `q` crafts to the first crafted item with the recipe's id, or list a new one. */
  function Produce(cs: seq<CraftedItem>, r: Recipe, q: int, unitCost: real): (r': seq<CraftedItem>)
    ensures FindCrafted(cs, r.id).Some? ==>
      var j := FindCrafted(cs, r.id).value;
      |r'| == |cs| && r'[j] == cs[j].(quantity := cs[j].quantity + r.outputQuantity * q)
      && forall i :: 0 <= i < |cs| && i != j ==> r'[i] == cs[i]
    ensures FindCrafted(cs, r.id).None? ==>
      r' == cs + [CraftedItem(r.id, r.name, r.outputQuantity * q, unitCost, r.value, "crafted")]
  {
    match FindCrafted(cs, r.id)
    case Some(j) => cs[j := cs[j].(quantity := cs[j].quantity + r.outputQuantity * q)]
    case None => cs + [NewCraftedItem(r.id, r.name, r.outputQuantity * q, unitCost, r.value, "crafted")]
  }

  /** What `recipe.craft(q)` reports. */
  datatype CraftResult = CraftResult(id: Id, name: string, quantity: int, cost: real, value: real, profit: real)

  /**
   * The report of `q` crafts of a recipe whose one craft costs `cost`: the units made,
   * the cost, the sale value and the profit (`recipe.profit`) of all `q` crafts.
   */
  function Report(r: Recipe, q: int, cost: real): CraftResult
  {
    CraftResult(r.id, r.name, r.outputQuantity * q, Times(cost, q), SaleValue(r, q),
                Times(r.value * r.outputQuantity as real - cost, q))
  }

  /** The report of `q` crafts, priced at the stock the recipe was crafted from. */
  function Outcome(s: Stock, r: Recipe, q: int): CraftResult
  {
    Report(r, q, Cost(s.materials, s.crafted, r.ingredients))
  }

  /** The reported profit is the reported value less the reported cost. */
  lemma OutcomeBalances(s: Stock, r: Recipe, q: int)
    ensures Outcome(s, r, q).profit == Outcome(s, r, q).value - Outcome(s, r, q).cost
  {
    TimesDistributes(r.value * r.outputQuantity as real, Cost(s.materials, s.crafted, r.ingredients), q);
  }

  /** Ingredient lines with pairwise distinct ids. */
  predicate DistinctLines(ings: seq<Ingredient>)
  {
    forall a, b :: 0 <= a < b < |ings| ==> ings[a].id != ings[b].id
  }

  lemma {:induction false} DemandOfDistinct(ings: seq<Ingredient>, k: int)
    requires DistinctLines(ings) && 0 <= k < |ings|
    ensures Demand(ings, ings[k].id) == ings[k].quantity
  {
    if k == 0 {
      DemandAbsent(ings[1..], ings[0].id);
    } else {
      DemandOfDistinct(ings[1..], k - 1);
    }
  }

  lemma {:induction false} DemandAbsent(ings: seq<Ingredient>, id: Id)
    requires forall k :: 0 <= k < |ings| ==> ings[k].id != id
    ensures Demand(ings, id) == 0
  {
    if |ings| > 0 {
      DemandAbsent(ings[1..], id);
    }
  }

  /**
   * When no id appears on two lines and the recipe can be crafted, every material
   * keeps a non-negative quantity.
   */
  lemma CraftKeepsMaterialsNonNegative(s: Stock, ings: seq<Ingredient>, q: int, i: int)
    requires DistinctLines(ings) && CanCraft(s.materials, s.crafted, ings, q)
    requires 0 <= i < |s.materials| && s.materials[i].quantity >= 0
    ensures ConsumeAll(s, ings, q).materials[i].quantity >= 0
  {
    var id := s.materials[i].id;
    var after := ConsumeAll(s, ings, q).materials[i].quantity;
    var first := FindMaterial(s.materials, id) == Some(i);
    ConsumeAllMaterial(s, ings, q, i);
    assert after == s.materials[i].quantity - (if first then Demand(ings, id) * q else 0);
    if first {
      if exists k :: 0 <= k < |ings| && ings[k].id == id {
        var k :| 0 <= k < |ings| && ings[k].id == id;
        DemandOfDistinct(ings, k);
        assert Resolve(s.materials, s.crafted, id) == AsMaterial(i);
        assert IngredientAvailable(s.materials, s.crafted, ings[k], q);
        assert s.materials[i].quantity >= Demand(ings, id) * q;
        assert after >= 0;
      } else {
        DemandAbsent(ings, id);
        assert Demand(ings, id) * q == 0 * q == 0;
      }
    } else {
      assert after >= 0;
    }
  }

  /**
   * `canCraft` checks each line on its own, so two lines drawing on one material can
   * both pass and together overdraw it: 3 in stock, two lines of 2.
   */
  lemma RepeatedLineOverdraws()
    ensures var s := Stock([Material("iron", "Iron", 3, 1.0, "raw")], []);
            var ings := [Ingredient("iron", 2), Ingredient("iron", 2)];
            CanCraft(s.materials, s.crafted, ings, 1) && ConsumeAll(s, ings, 1).materials[0].quantity == -1
  {
    var s := Stock([Material("iron", "Iron", 3, 1.0, "raw")], []);
    var ings := [Ingredient("iron", 2), Ingredient("iron", 2)];
    assert MaterialIds(s.materials) == ["iron"];
    assert Resolve(s.materials, s.crafted, "iron") == AsMaterial(0);
    ConsumeAllMaterial(s, ings, 1, 0);
    assert Demand(ings, "iron") == 4 by {
      assert ings[1..] == [Ingredient("iron", 2)];
      assert ings[1..][1..] == [];
    }
  }

  // ---------------------------------------------------------------------------
  // The shop
  // ---------------------------------------------------------------------------

  /** A ledger line for an item. */
  function CraftTransaction(txId: int, now: Calendar.Civil, o: CraftResult): (t: Transaction)
    ensures t.kind == Craft && t.totalValue == o.value && |t.items| == 1
    ensures t.items[0].id == o.id && t.items[0].quantity == o.quantity && t.items[0].value == o.value
  {
    Transaction(txId, Craft, now, [TxItem(o.id, o.name, o.quantity, o.value)], o.value)
  }

  /** Changes to a queued job; a field left `None` keeps its value. */
  datatype JobUpdate = JobUpdate(itemId: Option<Id>, quantity: Option<int>, priority: Option<Priority>,
                                 timeline: Option<int>, status: Option<QueueStatus>)

  function ApplyJobUpdate(p: ProductionItem, u: JobUpdate): (p': ProductionItem)
    ensures p'.id == p.id
    ensures p'.itemId == (if u.itemId.Some? then u.itemId.value else p.itemId)
    ensures p'.quantity == (if u.quantity.Some? then u.quantity.value else p.quantity)
    ensures p'.priority == (if u.priority.Some? then u.priority.value else p.priority)
    ensures p'.timeline == (if u.timeline.Some? then u.timeline.value else p.timeline)
    ensures p'.status == (if u.status.Some? then u.status.value else p.status)
  {
    p.(itemId := if u.itemId.Some? then u.itemId.value else p.itemId,
       quantity := if u.quantity.Some? then u.quantity.value else p.quantity,
       priority := if u.priority.Some? then u.priority.value else p.priority,
       timeline := if u.timeline.Some? then u.timeline.value else p.timeline,
       status := if u.status.Some? then u.status.value else p.status)
  }

  /** `importInventoryData`: every material rebuilt through its constructor. */
  function ImportedMaterials(ms: seq<Material>): (r: seq<Material>)
    ensures |r| == |ms|
    ensures forall i :: 0 <= i < |ms| ==> r[i].category != "" && r[i] == ms[i].(category := r[i].category)
    ensures forall i :: 0 <= i < |ms| && ms[i].category != "" ==> r[i] == ms[i]
    ensures forall i :: 0 <= i < |ms| && ms[i].category == "" ==> r[i].category == "raw"
  {
    seq(|ms|, i requires 0 <= i < |ms| =>
      NewMaterial(ms[i].id, ms[i].name, ms[i].quantity, ms[i].cost, ms[i].category))
  }

  function ImportedCrafted(cs: seq<CraftedItem>): (r: seq<CraftedItem>)
    ensures |r| == |cs|
    ensures forall i :: 0 <= i < |cs| ==> r[i].category != "" && r[i] == cs[i].(category := r[i].category)
    ensures forall i :: 0 <= i < |cs| && cs[i].category != "" ==> r[i] == cs[i]
    ensures forall i :: 0 <= i < |cs| && cs[i].category == "" ==> r[i].category == "misc"
  {
    seq(|cs|, i requires 0 <= i < |cs| =>
      NewCraftedItem(cs[i].id, cs[i].name, cs[i].quantity, cs[i].cost, cs[i].value, cs[i].category))
  }

  function ImportedRecipes(rs: seq<Recipe>): (r: seq<Recipe>)
    ensures |r| == |rs|
    ensures forall i :: 0 <= i < |rs| ==> r[i].outputQuantity != 0 && r[i].craftingTime != 0
    ensures forall i :: 0 <= i < |rs| ==>
      r[i] == rs[i].(outputQuantity := r[i].outputQuantity, craftingTime := r[i].craftingTime)
    ensures forall i :: 0 <= i < |rs| && rs[i].outputQuantity != 0 && rs[i].craftingTime != 0 ==> r[i] == rs[i]
    ensures forall i :: 0 <= i < |rs| ==>
      r[i].outputQuantity == (if rs[i].outputQuantity == 0 then 1 else rs[i].outputQuantity)
    ensures forall i :: 0 <= i < |rs| ==>
      r[i].craftingTime == (if rs[i].craftingTime == 0 then 5 else rs[i].craftingTime)
  {
    seq(|rs|, i requires 0 <= i < |rs| =>
      NewRecipe(rs[i].id, rs[i].name, rs[i].outputQuantity, rs[i].craftingTime, rs[i].ingredients, rs[i].value))
  }

  /** A queue entry as `importProductionData` rebuilds it; an absent priority or status is passed as `None`. */
  datatype QueueRecord = QueueRecord(id: int, itemId: Id, quantity: int, priority: Option<Priority>,
                                     timeline: int, status: Option<QueueStatus>)

  function ImportedQueue(ps: seq<QueueRecord>): (r: seq<ProductionItem>)
    ensures |r| == |ps|
    ensures forall i :: 0 <= i < |ps| ==> r[i].quantity != 0 && r[i].id == ps[i].id && r[i].itemId == ps[i].itemId
    ensures forall i :: 0 <= i < |ps| ==> r[i].timeline == ps[i].timeline
    ensures forall i :: 0 <= i < |ps| && ps[i].quantity != 0 ==> r[i].quantity == ps[i].quantity
    ensures forall i :: 0 <= i < |ps| && ps[i].quantity == 0 ==> r[i].quantity == 1
    ensures forall i :: 0 <= i < |ps| ==>
      r[i].priority == (if ps[i].priority.Some? then ps[i].priority.value else NormalPriority)
    ensures forall i :: 0 <= i < |ps| ==>
      r[i].status == (if ps[i].status.Some? then ps[i].status.value else Pending)
  {
    seq(|ps|, i requires 0 <= i < |ps| =>
      NewProductionItem(ps[i].id, ps[i].itemId, ps[i].quantity, ps[i].priority, ps[i].timeline, ps[i].status))
  }

  /** Importing an exported list gives it back once it has been through the constructors. */
  lemma ImportIdempotent(ms: seq<Material>, cs: seq<CraftedItem>, rs: seq<Recipe>)
    ensures ImportedMaterials(ImportedMaterials(ms)) == ImportedMaterials(ms)
    ensures ImportedCrafted(ImportedCrafted(cs)) == ImportedCrafted(cs)
    ensures ImportedRecipes(ImportedRecipes(rs)) == ImportedRecipes(rs)
  {
  }

  function Forgotten(qs: seq<ProductionItem>, id: int): (r: seq<ProductionItem>)
    ensures FindQueueItem(qs, id).None? ==> r == qs
    ensures FindQueueItem(qs, id).Some? ==>
      var k := FindQueueItem(qs, id).value;
      |r| == |qs| - 1
      && (forall i :: 0 <= i < k ==> r[i] == qs[i])
      && (forall i :: k <= i < |r| ==> r[i] == qs[i + 1])
  {
    match FindQueueItem(qs, id)
    case None => qs
    case Some(k) => qs[..k] + qs[k + 1..]
  }

  /** A job as the queue stores it: one without an id (0) takes the fresh id. */
  function Enqueue(p: ProductionItem, freshId: int): (p': ProductionItem)
    ensures p'.id != 0 || freshId == 0
    ensures p.id != 0 ==> p' == p
    ensures p.id == 0 ==> p' == p.(id := freshId)
  {
    if p.id == 0 then p.(id := freshId) else p
  }

  function Enqueued(ps: seq<ProductionItem>, freshId: int): (r: seq<ProductionItem>)
    ensures |r| == |ps| && forall k :: 0 <= k < |ps| ==> r[k] == Enqueue(ps[k], freshId)
  {
    seq(|ps|, k requires 0 <= k < |ps| => Enqueue(ps[k], freshId))
  }

  lemma EnqueuedAppend(ps: seq<ProductionItem>, p: ProductionItem, freshId: int)
    ensures Enqueued(ps + [p], freshId) == Enqueued(ps, freshId) + [Enqueue(p, freshId)]
  {
  }

  class Shop {
    var materials: seq<Material>
    var crafted: seq<CraftedItem>
    var recipes: seq<Recipe>
    var prices: seq<PriceRecord>
    var queue: seq<ProductionItem>
    var history: seq<Transaction>

    /** Every stored recipe went through the constructor, so none yields zero units. */
    predicate Valid()
      reads this
    {
      forall k :: 0 <= k < |recipes| ==> recipes[k].outputQuantity != 0
    }

    /** The empty shop the application starts from before any data is loaded. */
    constructor ()
      ensures Valid()
      ensures materials == [] && crafted == [] && recipes == [] && prices == [] && queue == [] && history == []
    {
      materials, crafted, recipes, prices, queue, history := [], [], [], [], [], [];
    }

    function Stocks(): Stock
      reads this
    {
      Stock(materials, crafted)
    }

    /**
     * `recipe.craft(q)`: refuse when `canCraft` fails; otherwise take the ingredients out
     * of stock line by line, add the output to the crafted inventory and report the craft.
     */
    method Craft(r: Recipe, q: int) returns (res: Result<CraftResult, string>)
      requires r.outputQuantity != 0
      modifies this
      ensures var pre := old(Stocks());
        if CanCraft(pre.materials, pre.crafted, r.ingredients, q) then
          var after := ConsumeAll(pre, r.ingredients, q);
          res == Success(Outcome(pre, r, q))
          && materials == after.materials
          && crafted == Produce(after.crafted, r, q, UnitCost(pre.materials, pre.crafted, r))
        else
          res.Failure? && materials == old(materials) && crafted == old(crafted)
      ensures recipes == old(recipes) && prices == old(prices) && queue == old(queue) && history == old(history)
    {
      var ok := CheckCanCraft(materials, crafted, r, q);
      if !ok {
        return Failure("Cannot craft " + r.name + ": insufficient materials");
      }
      ghost var pre := Stocks();
      TakeIngredients(r.ingredients, q);
      ConsumedPricing(pre, r, q);
      var cost := ComputeCost(materials, crafted, r);
      var unitCost := cost / r.outputQuantity as real;
      assert unitCost == UnitCost(pre.materials, pre.crafted, r);
      StoreOutput(r, q, unitCost);
      cost := ComputeCost(materials, crafted, r);
      assert cost == Cost(pre.materials, pre.crafted, r.ingredients);
      res := Success(Report(r, q, cost));
    }

    /** The consuming loop of `recipe.craft`: every line is taken out of stock in turn. */
    method TakeIngredients(ings: seq<Ingredient>, q: int)
      modifies this
      ensures Stocks() == ConsumeAll(old(Stocks()), ings, q)
      ensures recipes == old(recipes) && prices == old(prices) && queue == old(queue) && history == old(history)
    {
      var i := 0;
      while i < |ings|
        invariant 0 <= i <= |ings|
        invariant ConsumeAll(Stocks(), ings[i..], q) == ConsumeAll(old(Stocks()), ings, q)
        invariant recipes == old(recipes) && prices == old(prices) && queue == old(queue) && history == old(history)
      {
        ghost var before := Stocks();
        TakeLine(ings[i], q);
        ConsumeStep(before, ings, i, q);
        i := i + 1;
      }
      assert ings[i..] == [];
    }

    /** One pass of the consuming loop of `recipe.craft`: take one line out of stock. */
    method TakeLine(ing: Ingredient, q: int)
      modifies this
      ensures Stocks() == ConsumeOne(old(Stocks()), ing, q)
      ensures recipes == old(recipes) && prices == old(prices) && queue == old(queue) && history == old(history)
    {
      var need := ing.quantity * q;
      match Resolve(materials, crafted, ing.id) {
        case AsMaterial(k) =>
          materials := materials[k := materials[k].(quantity := materials[k].quantity - need)];
        case AsCrafted(k) =>
          crafted := crafted[k := crafted[k].(quantity := crafted[k].quantity - need)];
        case Unresolved =>
      }
    }

    /**
     * The output step of `recipe.craft`: add to the first crafted item with the recipe's
     * id, or list a new one. Every ingredient being in stock, the recipe's cost is unchanged.
     */
    method StoreOutput(r: Recipe, q: int, unitCost: real)
      requires AllResolved(Stocks(), r.ingredients)
      modifies this
      ensures crafted == Produce(old(crafted), r, q, unitCost)
      ensures Cost(materials, crafted, r.ingredients) == old(Cost(materials, crafted, r.ingredients))
      ensures materials == old(materials)
      ensures recipes == old(recipes) && prices == old(prices) && queue == old(queue) && history == old(history)
    {
      ghost var before := Stocks();
      match FindCrafted(crafted, r.id) {
        case Some(j) =>
          crafted := crafted[j := crafted[j].(quantity := crafted[j].quantity + r.outputQuantity * q)];
          assert crafted == Produce(before.crafted, r, q, unitCost);
          assert SameRecords(Stocks(), before);
          PricesKept(before, Stocks(), r);
        case None =>
          var item := NewCraftedItem(r.id, r.name, r.outputQuantity * q, unitCost, r.value, "crafted");
          crafted := crafted + [item];
          assert crafted == Produce(before.crafted, r, q, unitCost);
          AppendKeepsPrices(before, item, r.ingredients);
      }
    }

    /**
     * `productionItem.startProduction()` for the job at position `k`: refuse when its recipe
     * is unknown or cannot be crafted; otherwise craft it, mark the job completed and
     * record one craft transaction for the whole output.
     */
    method StartProduction(k: nat, now: Calendar.Civil, txId: int) returns (res: Result<CraftResult, string>)
      requires Valid() && k < |queue|
      modifies this
      ensures Valid()
      ensures var job := old(queue[k]);
        match FindRecipe(old(recipes), job.itemId)
        case None =>
          res.Failure? && materials == old(materials) && crafted == old(crafted)
          && queue == old(queue) && history == old(history)
        case Some(ri) =>
          var r := old(recipes[ri]);
          var pre := old(Stocks());
          if !CanCraft(pre.materials, pre.crafted, r.ingredients, job.quantity) then
            res.Failure? && materials == old(materials) && crafted == old(crafted)
            && queue == old(queue) && history == old(history)
          else
            var after := ConsumeAll(pre, r.ingredients, job.quantity);
            res == Success(Outcome(pre, r, job.quantity))
            && materials == after.materials
            && crafted == Produce(after.crafted, r, job.quantity, UnitCost(pre.materials, pre.crafted, r))
            && queue == old(queue)[k := job.(status := Completed)]
            && history == old(history) + [CraftTransaction(txId, now, res.value)]
      ensures res.Success? <==>
              Jobs.MaterialsStatusOf(old(materials), old(crafted), old(recipes), old(queue[k])) == Jobs.ReadyToCraft
      ensures recipes == old(recipes) && prices == old(prices)
    {
      var job := queue[k];
      Jobs.ReadyIffCraftable(materials, crafted, recipes, job);
      match FindRecipe(recipes, job.itemId) {
        case None =>
          return Failure("Recipe not found for " + job.itemId);
        case Some(ri) =>
          var r := recipes[ri];
          var ok := CheckCanCraft(materials, crafted, r, job.quantity);
          if !ok {
            return Failure("Cannot produce " + r.name + ": insufficient materials");
          }
          res := Craft(r, job.quantity);
          queue := queue[k := queue[k].(status := Completed)];
          history := history + [CraftTransaction(txId, now, res.value)];
      }
    }

    /** `addMaterial`: merge into the first material with the id (add quantity, take the new cost), else list it. */
    method AddMaterial(m: Material)
      modifies this
      ensures match FindMaterial(old(materials), m.id)
        case Some(i) =>
          materials == old(materials)[i := old(materials[i]).(quantity := old(materials[i].quantity) + m.quantity,
                                                              cost := m.cost)]
        case None => materials == old(materials) + [m]
      ensures crafted == old(crafted) && recipes == old(recipes) && prices == old(prices)
      ensures queue == old(queue) && history == old(history)
    {
      match FindMaterial(materials, m.id) {
        case Some(i) =>
          materials := materials[i := materials[i].(quantity := materials[i].quantity + m.quantity, cost := m.cost)];
        case None =>
          materials := materials + [m];
      }
    }

    /** `removeMaterial`: fails when the material is unknown or holds less than asked. */
    method RemoveMaterial(id: Id, quantity: int) returns (res: Result<Material, string>)
      modifies this
      ensures match FindMaterial(old(materials), id)
        case None => res.Failure? && materials == old(materials)
        case Some(i) =>
          if old(materials[i].quantity) < quantity then res.Failure? && materials == old(materials)
          else materials == old(materials)[i := old(materials[i]).(quantity := old(materials[i].quantity) - quantity)]
               && res == Success(materials[i])
      ensures crafted == old(crafted) && recipes == old(recipes) && prices == old(prices)
      ensures queue == old(queue) && history == old(history)
    {
      match FindMaterial(materials, id) {
        case None =>
          return Failure("Material not found: " + id);
        case Some(i) =>
          if materials[i].quantity < quantity {
            return Failure("Insufficient quantity of " + materials[i].name);
          }
          materials := materials[i := materials[i].(quantity := materials[i].quantity - quantity)];
          res := Success(materials[i]);
      }
    }

    /** `addCraftedItem`: merge (add quantity, take the new cost and value), else list it. */
    method AddCraftedItem(c: CraftedItem)
      modifies this
      ensures match FindCrafted(old(crafted), c.id)
        case Some(i) =>
          crafted == old(crafted)[i := old(crafted[i]).(quantity := old(crafted[i].quantity) + c.quantity,
                                                        cost := c.cost, value := c.value)]
        case None => crafted == old(crafted) + [c]
      ensures materials == old(materials) && recipes == old(recipes) && prices == old(prices)
      ensures queue == old(queue) && history == old(history)
    {
      match FindCrafted(crafted, c.id) {
        case Some(i) =>
          crafted := crafted[i := crafted[i].(quantity := crafted[i].quantity + c.quantity, cost := c.cost, value := c.value)];
        case None =>
          crafted := crafted + [c];
      }
    }

    /** `removeCraftedItem`: fails when the item is unknown or holds less than asked. */
    method RemoveCraftedItem(id: Id, quantity: int) returns (res: Result<CraftedItem, string>)
      modifies this
      ensures match FindCrafted(old(crafted), id)
        case None => res.Failure? && crafted == old(crafted)
        case Some(i) =>
          if old(crafted[i].quantity) < quantity then res.Failure? && crafted == old(crafted)
          else crafted == old(crafted)[i := old(crafted[i]).(quantity := old(crafted[i].quantity) - quantity)]
               && res == Success(crafted[i])
      ensures materials == old(materials) && recipes == old(recipes) && prices == old(prices)
      ensures queue == old(queue) && history == old(history)
    {
      match FindCrafted(crafted, id) {
        case None =>
          return Failure("Item not found: " + id);
        case Some(i) =>
          if crafted[i].quantity < quantity {
            return Failure("Insufficient quantity of " + crafted[i].name);
          }
          crafted := crafted[i := crafted[i].(quantity := crafted[i].quantity - quantity)];
          res := Success(crafted[i]);
      }
    }

    /** `addRecipe`: a recipe with a known id replaces the first one wholesale, else it is listed. */
    method AddRecipe(r: Recipe)
      requires Valid() && r.outputQuantity != 0
      modifies this
      ensures Valid()
      ensures match FindRecipe(old(recipes), r.id)
        case Some(i) => recipes == old(recipes)[i := r]
        case None => recipes == old(recipes) + [r]
      ensures materials == old(materials) && crafted == old(crafted) && prices == old(prices)
      ensures queue == old(queue) && history == old(history)
    {
      match FindRecipe(recipes, r.id) {
        case Some(i) => recipes := recipes[i := r];
        case None => recipes := recipes + [r];
      }
    }

    /** `removeRecipe`: drop the first recipe with the id; reports whether there was one. */
    method RemoveRecipe(id: Id) returns (removed: bool)
      requires Valid()
      modifies this
      ensures Valid()
      ensures removed <==> FindRecipe(old(recipes), id).Some?
      ensures match FindRecipe(old(recipes), id)
        case Some(i) => recipes == old(recipes[..i]) + old(recipes[i + 1..])
        case None => recipes == old(recipes)
      ensures materials == old(materials) && crafted == old(crafted) && prices == old(prices)
      ensures queue == old(queue) && history == old(history)
    {
      match FindRecipe(recipes, id) {
        case Some(i) =>
          recipes := recipes[..i] + recipes[i + 1..];
          removed := true;
        case None =>
          removed := false;
      }
    }

    /** `updatePrice`: set the price and stamp it with `now`, creating the record if needed. */
    method UpdatePrice(id: Id, price: real, now: int)
      modifies this
      ensures match FindPrice(old(prices), id)
        case Some(i) => prices == old(prices)[i := PriceRecord(id, price, now)]
        case None => prices == old(prices) + [PriceRecord(id, price, now)]
      ensures FindPrice(prices, id).Some? && prices[FindPrice(prices, id).value] == PriceRecord(id, price, now)
      ensures materials == old(materials) && crafted == old(crafted) && recipes == old(recipes)
      ensures queue == old(queue) && history == old(history)
    {
      match FindPrice(prices, id) {
        case Some(i) =>
          prices := prices[i := prices[i].(price := price, lastUpdated := now)];
          assert PriceIds(prices) == PriceIds(old(prices));
        case None =>
          prices := prices + [PriceRecord(id, price, now)];
          assert PriceIds(prices) == PriceIds(old(prices)) + [id];
          FirstIndexAppend(PriceIds(old(prices)), id, id);
      }
    }

    /** `addToProductionQueue`: a job without an id (0) gets the fresh id; the job goes to the back. */
    method AddToProductionQueue(p: ProductionItem, freshId: int)
      modifies this
      ensures queue == old(queue) + [Enqueue(p, freshId)]
      ensures materials == old(materials) && crafted == old(crafted) && recipes == old(recipes)
      ensures prices == old(prices) && history == old(history)
    {
      var item := p;
      if item.id == 0 {
        item := item.(id := freshId);
      }
      queue := queue + [item];
    }

    /** `removeFromProductionQueue`: drop the first job with the id; reports whether there was one. */
    method RemoveFromProductionQueue(id: int) returns (removed: bool)
      modifies this
      ensures removed <==> FindQueueItem(old(queue), id).Some?
      ensures queue == Forgotten(old(queue), id)
      ensures materials == old(materials) && crafted == old(crafted) && recipes == old(recipes)
      ensures prices == old(prices) && history == old(history)
    {
      match FindQueueItem(queue, id) {
        case Some(i) =>
          queue := queue[..i] + queue[i + 1..];
          removed := true;
        case None =>
          removed := false;
      }
    }

    /** `updateProductionQueueItem`: overwrite the given fields of the first job with the id. */
    method UpdateProductionQueueItem(id: int, u: JobUpdate) returns (found: bool)
      modifies this
      ensures found <==> FindQueueItem(old(queue), id).Some?
      ensures match FindQueueItem(old(queue), id)
        case Some(i) => queue == old(queue)[i := ApplyJobUpdate(old(queue[i]), u)]
        case None => queue == old(queue)
      ensures materials == old(materials) && crafted == old(crafted) && recipes == old(recipes)
      ensures prices == old(prices) && history == old(history)
    {
      match FindQueueItem(queue, id) {
        case Some(i) =>
          queue := queue[i := ApplyJobUpdate(queue[i], u)];
          found := true;
        case None =>
          found := false;
      }
    }

    /** `importInventoryData`: a list that is present replaces the inventory, rebuilt through the constructors. */
    method ImportInventoryData(ms: Option<seq<Material>>, cs: Option<seq<CraftedItem>>)
      modifies this
      ensures materials == (if ms.Some? then ImportedMaterials(ms.value) else old(materials))
      ensures crafted == (if cs.Some? then ImportedCrafted(cs.value) else old(crafted))
      ensures recipes == old(recipes) && prices == old(prices) && queue == old(queue) && history == old(history)
    {
      if ms.Some? {
        materials := ImportedMaterials(ms.value);
      }
      if cs.Some? {
        crafted := ImportedCrafted(cs.value);
      }
    }

    /** `importRecipeData`: the recipe list is replaced, every recipe rebuilt through the constructor. */
    method ImportRecipeData(rs: seq<Recipe>)
      modifies this
      ensures Valid()
      ensures recipes == ImportedRecipes(rs)
      ensures materials == old(materials) && crafted == old(crafted) && prices == old(prices)
      ensures queue == old(queue) && history == old(history)
    {
      recipes := ImportedRecipes(rs);
    }

    /** `importProductionData`: the queue is replaced, every job rebuilt through the constructor. */
    method ImportProductionData(ps: seq<QueueRecord>)
      modifies this
      ensures queue == ImportedQueue(ps)
      ensures materials == old(materials) && crafted == old(crafted) && recipes == old(recipes)
      ensures prices == old(prices) && history == old(history)
    {
      queue := ImportedQueue(ps);
    }

    /** `importTransactionHistory`: the ledger is replaced by the imported one. */
    method ImportTransactionHistory(ts: seq<Transaction>)
      modifies this
      ensures history == ts
      ensures materials == old(materials) && crafted == old(crafted) && recipes == old(recipes)
      ensures prices == old(prices) && queue == old(queue)
    {
      history := ts;
    }
  }

  /** Consumption leaves every unit price, hence the recipe's cost, as it was. */
  lemma PricesKept(pre: Stock, post: Stock, r: Recipe)
    requires SameRecords(post, pre)
    ensures Cost(post.materials, post.crafted, r.ingredients) == Cost(pre.materials, pre.crafted, r.ingredients)
  {
    forall k | 0 <= k < |r.ingredients|
      ensures UnitPrice(pre.materials, pre.crafted, r.ingredients[k].id) == UnitPrice(post.materials, post.crafted, r.ingredients[k].id)
    {
      SameRecordsLookups(post, pre, r.ingredients[k].id);
    }
    CostSamePrices(pre.materials, pre.crafted, post.materials, post.crafted, r.ingredients);
  }

  /** Every ingredient line names a material or a crafted item. */
  predicate AllResolved(s: Stock, ings: seq<Ingredient>)
  {
    forall k :: 0 <= k < |ings| ==> !Resolve(s.materials, s.crafted, ings[k].id).Unresolved?
  }

  lemma CraftableIsResolved(s: Stock, ings: seq<Ingredient>, q: int)
    requires CanCraft(s.materials, s.crafted, ings, q)
    ensures AllResolved(s, ings)
  {
    forall k | 0 <= k < |ings|
      ensures !Resolve(s.materials, s.crafted, ings[k].id).Unresolved?
    {
      assert IngredientAvailable(s.materials, s.crafted, ings[k], q);
    }
  }

  lemma ResolvedKept(s: Stock, t: Stock, ings: seq<Ingredient>)
    requires AllResolved(s, ings) && SameRecords(t, s)
    ensures AllResolved(t, ings)
  {
    forall k | 0 <= k < |ings|
      ensures !Resolve(t.materials, t.crafted, ings[k].id).Unresolved?
    {
      SameRecordsLookups(t, s, ings[k].id);
    }
  }

  /** Consuming the lines of a craftable recipe leaves its cost, and every ingredient, in place. */
  lemma ConsumedPricing(pre: Stock, r: Recipe, q: int)
    requires CanCraft(pre.materials, pre.crafted, r.ingredients, q)
    ensures var c := ConsumeAll(pre, r.ingredients, q);
      Cost(c.materials, c.crafted, r.ingredients) == Cost(pre.materials, pre.crafted, r.ingredients)
      && AllResolved(c, r.ingredients)
  {
    var c := ConsumeAll(pre, r.ingredients, q);
    ConsumeAllKeepsRecords(pre, r.ingredients, q);
    CraftableIsResolved(pre, r.ingredients, q);
    ResolvedKept(pre, c, r.ingredients);
    PricesKept(pre, c, r);
  }

  /**
   * Listing a new crafted item does not reprice a recipe whose ingredients are all in
   * stock: the new item comes after every record a lookup could already find.
   */
  lemma AppendKeepsPrices(s: Stock, c: CraftedItem, ings: seq<Ingredient>)
    requires AllResolved(s, ings)
    ensures Cost(s.materials, s.crafted + [c], ings) == Cost(s.materials, s.crafted, ings)
  {
    forall k | 0 <= k < |ings|
      ensures UnitPrice(s.materials, s.crafted, ings[k].id) == UnitPrice(s.materials, s.crafted + [c], ings[k].id)
    {
      var id := ings[k].id;
      assert CraftedIds(s.crafted + [c]) == CraftedIds(s.crafted) + [c.id];
      FirstIndexAppend(CraftedIds(s.crafted), c.id, id);
    }
    CostSamePrices(s.materials, s.crafted, s.materials, s.crafted + [c], ings);
  }
}
