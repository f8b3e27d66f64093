/**
 * The production page (js/production.js): the calculator's stock check and summary,
 * the queue form, the queue display order, editing and deleting queued jobs, and the
 * guard in front of starting a job.
 */
module Production {
  import opened Wrappers
  import opened Entities
  import opened Crafting
  import Calendar
  import Jobs
  import Store
  import Seqs

  // ---------------------------------------------------------------------------
  // The calculator
  // ---------------------------------------------------------------------------

  /** One line of the calculator's stock list: what is on hand against what `q` crafts take. */
  datatype StockLine = StockLine(name: string, onHand: int, required: int, sufficient: bool)

  /** The stock line for one ingredient; an ingredient in neither inventory shows its id and 0 on hand. */
  function StockLineFor(ms: seq<Material>, cs: seq<CraftedItem>, ing: Ingredient, q: int): (l: StockLine)
    ensures l.required == ing.quantity * q
    ensures l.onHand == StockOf(ms, cs, ing.id)
    ensures l.sufficient <==> l.onHand >= l.required
    ensures Resolve(ms, cs, ing.id).Unresolved? ==> l.name == ing.id && l.onHand == 0
  {
    var need := ing.quantity * q;
    match Resolve(ms, cs, ing.id)
    case AsMaterial(i) => StockLine(ms[i].name, ms[i].quantity, need, ms[i].quantity >= need)
    case AsCrafted(j) => StockLine(cs[j].name, cs[j].quantity, need, cs[j].quantity >= need)
    case Unresolved => StockLine(ing.id, 0, need, 0 >= need)
  }

  /** `updateInventoryStatus`: one stock line per ingredient, in recipe order. */
  function InventoryStatus(ms: seq<Material>, cs: seq<CraftedItem>, r: Recipe, q: int): (ls: seq<StockLine>)
    ensures |ls| == |r.ingredients|
    ensures forall k :: 0 <= k < |ls| ==> ls[k] == StockLineFor(ms, cs, r.ingredients[k], q)
  {
    seq(|r.ingredients|, k requires 0 <= k < |r.ingredients| => StockLineFor(ms, cs, r.ingredients[k], q))
  }

  /**
   * The calculator's verdict agrees with `canCraft` on a stocked ingredient; an ingredient
   * that is stocked nowhere can still read "Sufficient" when nothing of it is needed.
   */
  lemma SufficientIffAvailable(ms: seq<Material>, cs: seq<CraftedItem>, ing: Ingredient, q: int)
    ensures !Resolve(ms, cs, ing.id).Unresolved? ==>
      (StockLineFor(ms, cs, ing, q).sufficient <==> IngredientAvailable(ms, cs, ing, q))
    ensures Resolve(ms, cs, ing.id).Unresolved? ==>
      (StockLineFor(ms, cs, ing, q).sufficient <==> ing.quantity * q <= 0) && !IngredientAvailable(ms, cs, ing, q)
  {
  }

  /** Every line sufficient and every ingredient stocked somewhere is exactly `canCraft`. */
  lemma AllSufficientIffCanCraft(ms: seq<Material>, cs: seq<CraftedItem>, r: Recipe, q: int)
    ensures (forall k :: 0 <= k < |r.ingredients| ==>
               InventoryStatus(ms, cs, r, q)[k].sufficient && !Resolve(ms, cs, r.ingredients[k].id).Unresolved?)
            <==> CanCraft(ms, cs, r.ingredients, q)
  {
    var ls := InventoryStatus(ms, cs, r, q);
    forall k | 0 <= k < |r.ingredients|
      ensures (ls[k].sufficient && !Resolve(ms, cs, r.ingredients[k].id).Unresolved?)
              <==> IngredientAvailable(ms, cs, r.ingredients[k], q)
    {
      SufficientIffAvailable(ms, cs, r.ingredients[k], q);
    }
  }

  /** What `updateProductionSummary` shows for `q` crafts. */
  datatype Summary = Summary(totalCost: real, totalValue: real, profit: real, minutes: int)

  function ProductionSummary(ms: seq<Material>, cs: seq<CraftedItem>, r: Recipe, q: int): (s: Summary)
    ensures s.profit == s.totalValue - s.totalCost
  {
    var totalCost := BatchCost(ms, cs, r, q);
    var totalValue := SaleValue(r, q);
    Summary(totalCost, totalValue, totalValue - totalCost, r.craftingTime * q)
  }

  /** The summary forecasts exactly what crafting reports, and what a queued job of `q` estimates. */
  lemma SummaryForecastsCraft(ms: seq<Material>, cs: seq<CraftedItem>, r: Recipe, q: int)
    ensures var s := ProductionSummary(ms, cs, r, q);
            var o := Store.Outcome(Store.Stock(ms, cs), r, q);
            s.totalCost == o.cost && s.totalValue == o.value && s.profit == o.profit
  {
    Store.OutcomeBalances(Store.Stock(ms, cs), r, q);
  }

  lemma SummaryMatchesJob(ms: seq<Material>, cs: seq<CraftedItem>, rs: seq<Recipe>, p: ProductionItem)
    requires FindRecipe(rs, p.itemId).Some?
    ensures var s := ProductionSummary(ms, cs, rs[FindRecipe(rs, p.itemId).value], p.quantity);
            s.totalCost == Jobs.EstimatedCost(ms, cs, rs, p) && s.totalValue == Jobs.EstimatedValue(rs, p)
            && s.profit == Jobs.EstimatedProfit(ms, cs, rs, p) && s.minutes == Jobs.EstimatedTime(rs, p)
  {
    assert Jobs.JobRecipe(rs, p) == Some(rs[FindRecipe(rs, p.itemId).value]);
  }

  // ---------------------------------------------------------------------------
  // The queue form
  // ---------------------------------------------------------------------------

  /** Why the form is refused, if it is: no recipe chosen, no positive quantity, or no valid date. */
  function FormError(recipeId: Id, quantity: int, timeline: Option<int>): (e: Option<string>)
    ensures e.None? <==> recipeId != "" && quantity > 0 && timeline.Some?
  {
    if recipeId == "" then Some("Please select a recipe.")
    else if quantity <= 0 then Some("Quantity must be greater than zero.")
    else if timeline.None? then Some("Please enter a valid date.")
    else None
  }

  /**
   * `addToProductionQueue` of the production page: a refused form leaves the queue as it
   * was; otherwise one job, numbered with the clock reading `now`, goes to the back.
   * An invalid date is `None`.
   */
  method AddJobFromForm(shop: Store.Shop, recipeId: Id, quantity: int, priority: Priority,
                        timeline: Option<int>, now: int) returns (res: Result<ProductionItem, string>)
    modifies shop
    ensures res.Failure? <==> FormError(recipeId, quantity, timeline).Some?
    ensures res.Failure? ==> shop.queue == old(shop.queue)
    ensures res.Success? ==>
      res.value == ProductionItem(now, recipeId, quantity, priority, timeline.value, Pending)
      && shop.queue == old(shop.queue) + [res.value]
    ensures shop.materials == old(shop.materials) && shop.crafted == old(shop.crafted)
    ensures shop.recipes == old(shop.recipes) && shop.prices == old(shop.prices) && shop.history == old(shop.history)
  {
    var e := FormError(recipeId, quantity, timeline);
    if e.Some? {
      return Failure(e.value);
    }
    var job := NewProductionItem(now, recipeId, quantity, Some(priority), timeline.value, None);
    shop.queue := shop.queue + [job];
    res := Success(job);
  }

  // ---------------------------------------------------------------------------
  // The queue display
  // ---------------------------------------------------------------------------

  /** Urgent first, then high, then normal. */
  function Rank(p: Priority): (n: nat)
    ensures n <= 2
    ensures (n == 0 <==> p == Urgent) && (n == 1 <==> p == HighPriority) && (n == 2 <==> p == NormalPriority)
  {
    match p
    case Urgent => 0
    case HighPriority => 1
    case NormalPriority => 2
  }

  /** The display comparator: by rank, then by the earlier timeline. */
  predicate ShownBefore(a: ProductionItem, b: ProductionItem)
  {
    Rank(a.priority) < Rank(b.priority) || (Rank(a.priority) == Rank(b.priority) && a.timeline <= b.timeline)
  }

  lemma ShownBeforeIsPreorder()
    ensures Seqs.Total(ShownBefore) && Seqs.Transitive(ShownBefore)
  {
  }

  /** The sorted copy of the queue; the queue itself keeps its order. */
  function DisplayOrder(qs: seq<ProductionItem>): (r: seq<ProductionItem>)
    ensures multiset(r) == multiset(qs)
  {
    Seqs.SortBy(qs, ShownBefore)
  }

  predicate NotCompleted(p: ProductionItem) { p.status != Completed }

  /** The rows of the queue table: the display order with the completed jobs skipped. */
  function DisplayedRows(qs: seq<ProductionItem>): (r: seq<ProductionItem>)
    ensures forall k :: 0 <= k < |r| ==> r[k].status != Completed
  {
    Seqs.Filter(DisplayOrder(qs), NotCompleted)
  }

  /**
   * The rows are in display order, hold every job that is not completed as often as the
   * queue does and no completed one, and jobs that tie keep their queue order.
   */
  lemma DisplayedRowsProperties(qs: seq<ProductionItem>, k: ProductionItem)
    ensures Seqs.SortedBy(DisplayedRows(qs), ShownBefore)
    ensures forall p :: multiset(DisplayedRows(qs))[p] == if p.status == Completed then 0 else multiset(qs)[p]
    ensures Seqs.Ties(DisplayOrder(qs), k, ShownBefore) == Seqs.Ties(qs, k, ShownBefore)
  {
    ShownBeforeIsPreorder();
    Seqs.SortBySorted(qs, ShownBefore);
    Seqs.FilterSorted(DisplayOrder(qs), NotCompleted, ShownBefore);
    forall p ensures multiset(DisplayedRows(qs))[p] == if p.status == Completed then 0 else multiset(qs)[p]
    {
      Seqs.FilterCount(DisplayOrder(qs), NotCompleted, p);
    }
    Seqs.SortByStable(qs, k, ShownBefore);
  }

  // ---------------------------------------------------------------------------
  // Editing, deleting and starting queued jobs
  // ---------------------------------------------------------------------------

  /**
   * `updateProductionItem`: for the first job with the id, a positive quantity and a valid
   * date overwrite its quantity, priority and timeline; anything else changes nothing.
   */
  method UpdateProductionItem(shop: Store.Shop, id: int, quantity: int, priority: Priority, timeline: Option<int>)
    returns (updated: bool)
    modifies shop
    ensures updated <==> FindQueueItem(old(shop.queue), id).Some? && quantity > 0 && timeline.Some?
    ensures updated ==>
      var i := FindQueueItem(old(shop.queue), id).value;
      shop.queue == old(shop.queue)[i := old(shop.queue[i]).(quantity := quantity, priority := priority,
                                                             timeline := timeline.value)]
    ensures !updated ==> shop.queue == old(shop.queue)
    ensures shop.materials == old(shop.materials) && shop.crafted == old(shop.crafted)
    ensures shop.recipes == old(shop.recipes) && shop.prices == old(shop.prices) && shop.history == old(shop.history)
  {
    if FindQueueItem(shop.queue, id).None? || quantity <= 0 || timeline.None? {
      return false;
    }
    updated := shop.UpdateProductionQueueItem(id, Store.JobUpdate(None, Some(quantity), Some(priority), timeline, None));
  }

  /** The queue without any job carrying the id, the others in order. */
  function OtherThan(id: int): ProductionItem -> bool
  {
    (p: ProductionItem) => p.id != id
  }

  function Without(qs: seq<ProductionItem>, id: int): (r: seq<ProductionItem>)
    ensures forall k :: 0 <= k < |r| ==> r[k].id != id
  {
    Seqs.Filter(qs, OtherThan(id))
  }

  /** Deleting keeps every other job as often as the queue held it. */
  lemma WithoutKeepsOthers(qs: seq<ProductionItem>, id: int, p: ProductionItem)
    ensures multiset(Without(qs, id))[p] == if p.id == id then 0 else multiset(qs)[p]
  {
    Seqs.FilterCount(qs, OtherThan(id), p);
  }

  /**
   * Deleting by filter and the store's `removeFromProductionQueue` (first match only) agree
   * whenever the id occurs at most once; with a repeated id the filter drops every copy.
   */
  lemma WithoutIsForgottenWhenUnique(qs: seq<ProductionItem>, id: int)
    requires forall i, j :: 0 <= i < j < |qs| && qs[i].id == id ==> qs[j].id != id
    ensures Without(qs, id) == Store.Forgotten(qs, id)
  {
    if FindQueueItem(qs, id).None? {
      assert QueueIds(qs) == seq(|qs|, k requires 0 <= k < |qs| => qs[k].id);
      Seqs.FilterAll(qs, OtherThan(id));
    } else {
      WithoutOneCopy(qs, id, FindQueueItem(qs, id).value);
    }
  }

  lemma WithoutOneCopy(qs: seq<ProductionItem>, id: int, i: nat)
    requires i < |qs| && qs[i].id == id
    requires forall k :: 0 <= k < |qs| && k != i ==> qs[k].id != id
    ensures Without(qs, id) == qs[..i] + qs[i + 1..]
  {
    var keep := OtherThan(id);
    var before, after := qs[..i], qs[i + 1..];
    assert qs == before + [qs[i]] + after;
    calc {
      Without(qs, id);
      Seqs.Filter(before + [qs[i]] + after, keep);
      { Seqs.FilterConcat(before + [qs[i]], after, keep);
        Seqs.FilterConcat(before, [qs[i]], keep); }
      Seqs.Filter(before, keep) + Seqs.Filter([qs[i]], keep) + Seqs.Filter(after, keep);
      { Seqs.FilterAll(before, keep); Seqs.FilterAll(after, keep); Seqs.FilterNone([qs[i]], keep); }
      before + [] + after;
      { assert before + [] == before; }
      before + after;
    }
  }

  /** `deleteProductionItem`: the queue is replaced by its filtered copy. */
  method DeleteProductionItem(shop: Store.Shop, id: int)
    modifies shop
    ensures shop.queue == Without(old(shop.queue), id)
    ensures shop.materials == old(shop.materials) && shop.crafted == old(shop.crafted)
    ensures shop.recipes == old(shop.recipes) && shop.prices == old(shop.prices) && shop.history == old(shop.history)
  {
    shop.queue := Without(shop.queue, id);
  }

  /**
   * `startProduction` of the production page, confirmed: a job that is not in the queue is
   * ignored, a job whose materials are not ready is refused; otherwise the job is started.
   */
  method StartJob(shop: Store.Shop, id: int, now: Calendar.Civil, txId: int)
    returns (res: Result<Store.CraftResult, string>)
    requires shop.Valid()
    modifies shop
    ensures shop.Valid()
    ensures res.Success? <==>
      FindQueueItem(old(shop.queue), id).Some?
      && Jobs.MaterialsStatusOf(old(shop.materials), old(shop.crafted), old(shop.recipes),
                                old(shop.queue[FindQueueItem(shop.queue, id).value])) == Jobs.ReadyToCraft
    ensures res.Failure? ==>
      shop.materials == old(shop.materials) && shop.crafted == old(shop.crafted)
      && shop.queue == old(shop.queue) && shop.history == old(shop.history)
    ensures res.Success? ==>
      var k := FindQueueItem(old(shop.queue), id).value;
      var job := old(shop.queue[k]);
      FindRecipe(old(shop.recipes), job.itemId).Some?
      && var r := old(shop.recipes)[FindRecipe(old(shop.recipes), job.itemId).value];
      var pre := old(shop.Stocks());
      var after := Store.ConsumeAll(pre, r.ingredients, job.quantity);
      res.value == Store.Outcome(pre, r, job.quantity)
      && shop.materials == after.materials
      && shop.crafted == Store.Produce(after.crafted, r, job.quantity, UnitCost(pre.materials, pre.crafted, r))
      && shop.queue == old(shop.queue)[k := job.(status := Completed)]
      && shop.history == old(shop.history) + [Store.CraftTransaction(txId, now, res.value)]
    ensures shop.recipes == old(shop.recipes) && shop.prices == old(shop.prices)
  {
    match FindQueueItem(shop.queue, id) {
      case None =>
        return Failure("No such job");
      case Some(k) =>
        if Jobs.MaterialsStatusOf(shop.materials, shop.crafted, shop.recipes, shop.queue[k]) != Jobs.ReadyToCraft {
          return Failure("Cannot start production: insufficient materials.");
        }
        res := shop.StartProduction(k, now, txId);
    }
  }
}
