/**
 * What a queued production job shows before it is started (the `ProductionItem`
 * getters of js/data.js): its recipe, estimates for the whole job, and whether the
 * materials for it are on hand.
 */
module Jobs {
  import opened Wrappers
  import opened Entities
  import opened Crafting

  /** The job's recipe: the first recipe with the job's item id. */
  function JobRecipe(rs: seq<Recipe>, p: ProductionItem): (r: Option<Recipe>)
    ensures r.Some? <==> FindRecipe(rs, p.itemId).Some?
    ensures r.Some? ==> r.value.id == p.itemId && r.value in rs
    ensures r.Some? ==> r.value == rs[FindRecipe(rs, p.itemId).value]
  {
    match FindRecipe(rs, p.itemId)
    case Some(i) => Some(rs[i])
    case None => None
  }

  /** The recipe's name, or the bare item id when the recipe is gone. */
  function JobName(rs: seq<Recipe>, p: ProductionItem): string
  {
    match JobRecipe(rs, p)
    case Some(r) => r.name
    case None => p.itemId
  }

  function EstimatedCost(ms: seq<Material>, cs: seq<CraftedItem>, rs: seq<Recipe>, p: ProductionItem): real
  {
    match JobRecipe(rs, p)
    case Some(r) => BatchCost(ms, cs, r, p.quantity)
    case None => 0.0
  }

  function EstimatedValue(rs: seq<Recipe>, p: ProductionItem): real
  {
    match JobRecipe(rs, p)
    case Some(r) => SaleValue(r, p.quantity)
    case None => 0.0
  }

  function EstimatedProfit(ms: seq<Material>, cs: seq<CraftedItem>, rs: seq<Recipe>, p: ProductionItem): real
  {
    EstimatedValue(rs, p) - EstimatedCost(ms, cs, rs, p)
  }

  /** Minutes for the whole job. */
  function EstimatedTime(rs: seq<Recipe>, p: ProductionItem): int
  {
    match JobRecipe(rs, p)
    case Some(r) => r.craftingTime * p.quantity
    case None => 0
  }

  /** A job's profit is its recipe's profit per craft times the job quantity; a job without a recipe estimates nothing. */
  lemma EstimatedProfitScales(ms: seq<Material>, cs: seq<CraftedItem>, rs: seq<Recipe>, p: ProductionItem)
    ensures match JobRecipe(rs, p)
      case Some(r) => EstimatedProfit(ms, cs, rs, p) == Profit(ms, cs, r) * p.quantity as real
                      && EstimatedTime(rs, p) == r.craftingTime * p.quantity
      case None => EstimatedProfit(ms, cs, rs, p) == 0.0 && EstimatedTime(rs, p) == 0 && JobName(rs, p) == p.itemId
  {
    match JobRecipe(rs, p)
    case Some(r) =>
      var c := Cost(ms, cs, r.ingredients);
      var v := r.value * r.outputQuantity as real;
      assert v * p.quantity as real - c * p.quantity as real == (v - c) * p.quantity as real;
    case None =>
  }

  datatype MaterialsStatus = Unknown | ReadyToCraft | Missing

  /** 'unknown' without a recipe, 'ready' when nothing is missing for the whole job, else 'missing'. */
  function MaterialsStatusOf(ms: seq<Material>, cs: seq<CraftedItem>, rs: seq<Recipe>, p: ProductionItem): MaterialsStatus
  {
    match JobRecipe(rs, p)
    case None => Unknown
    case Some(r) => if MissingMaterials(ms, cs, r.ingredients, p.quantity) == [] then ReadyToCraft else Missing
  }

  /** The shortages for the whole job; none are listed for a job without a recipe. */
  function JobMissing(ms: seq<Material>, cs: seq<CraftedItem>, rs: seq<Recipe>, p: ProductionItem): seq<Shortage>
  {
    match JobRecipe(rs, p)
    case None => []
    case Some(r) => MissingMaterials(ms, cs, r.ingredients, p.quantity)
  }

  /** A job is ready exactly when its recipe exists and can be crafted the job's number of times. */
  lemma ReadyIffCraftable(ms: seq<Material>, cs: seq<CraftedItem>, rs: seq<Recipe>, p: ProductionItem)
    ensures MaterialsStatusOf(ms, cs, rs, p) == ReadyToCraft <==>
            JobRecipe(rs, p).Some? && CanCraft(ms, cs, JobRecipe(rs, p).value.ingredients, p.quantity)
    ensures MaterialsStatusOf(ms, cs, rs, p) == Missing <==> JobMissing(ms, cs, rs, p) != []
  {
    if JobRecipe(rs, p).Some? {
      CanCraftIffNoShortage(ms, cs, JobRecipe(rs, p).value.ingredients, p.quantity);
    }
  }
}
