/**
 * The inventory page (js/inventory.js): editing the two stock lists, pushing recipe
 * unit costs into the crafted items, the per-list summaries and the table filter.
 */
module Inventory {
  import opened Wrappers
  import opened Entities
  import opened Crafting
  import Store
  import Dashboard
  import Seqs
  import Text

  /** Which list a form acts on: 'material', or anything else for the crafted items. */
  datatype ItemType = MaterialType | CraftedType

  // ---------------------------------------------------------------------------
  // Pushing unit costs into the crafted items
  // ---------------------------------------------------------------------------

  predicate AllProduce(rs: seq<Recipe>)
  {
    forall k :: 0 <= k < |rs| ==> rs[k].outputQuantity != 0
  }

  /** One recipe: the first crafted item with the recipe's id takes the recipe's unit cost. */
  function PushCost(ms: seq<Material>, cs: seq<CraftedItem>, r: Recipe): seq<CraftedItem>
    requires r.outputQuantity != 0
  {
    match FindCrafted(cs, r.id)
    case Some(j) => cs[j := cs[j].(cost := UnitCost(ms, cs, r))]
    case None => cs
  }

  /** The recipes one after the other, each seeing the costs the earlier ones wrote. */
  function CostsPushed(ms: seq<Material>, cs: seq<CraftedItem>, rs: seq<Recipe>): seq<CraftedItem>
    requires AllProduce(rs)
  {
    if |rs| == 0 then cs else PushCost(ms, CostsPushed(ms, cs, rs[..|rs| - 1]), rs[|rs| - 1])
  }

  /** `updateCraftedItemsCost`: the loop over the recipes, writing each unit cost in place. */
  method UpdateCraftedItemsCost(shop: Store.Shop)
    requires shop.Valid()
    modifies shop
    ensures shop.crafted == CostsPushed(old(shop.materials), old(shop.crafted), old(shop.recipes))
    ensures shop.materials == old(shop.materials) && shop.recipes == old(shop.recipes)
    ensures shop.prices == old(shop.prices) && shop.queue == old(shop.queue) && shop.history == old(shop.history)
    ensures shop.Valid()
  {
    ghost var cs0 := shop.crafted;
    var rs := shop.recipes;
    for k := 0 to |rs|
      invariant shop.recipes == rs && shop.materials == old(shop.materials) && shop.prices == old(shop.prices)
      invariant shop.queue == old(shop.queue) && shop.history == old(shop.history)
      invariant shop.crafted == CostsPushed(shop.materials, cs0, rs[..k])
    {
      Seqs.PrefixSnoc(rs, k);
      var r := rs[k];
      var found := FindCrafted(shop.crafted, r.id);
      if found.Some? {
        var total := ComputeCost(shop.materials, shop.crafted, r);
        shop.crafted := shop.crafted[found.value := shop.crafted[found.value].(cost := total / r.outputQuantity as real)];
      }
    }
    assert rs[..|rs|] == rs;
  }

  /** Position of the last recipe with the id. */
  function LastRecipeFor(rs: seq<Recipe>, id: Id): (n: Option<nat>)
    ensures n.Some? ==> n.value < |rs| && rs[n.value].id == id
    ensures n.Some? ==> forall k :: n.value < k < |rs| ==> rs[k].id != id
    ensures n.None? <==> forall k :: 0 <= k < |rs| ==> rs[k].id != id
  {
    if |rs| == 0 then None
    else if rs[|rs| - 1].id == id then Some(|rs| - 1)
    else LastRecipeFor(rs[..|rs| - 1], id)
  }

  /** The same crafted records apart from their costs. */
  predicate SameButCost(cs: seq<CraftedItem>, cs': seq<CraftedItem>)
  {
    |cs'| == |cs| && forall k :: 0 <= k < |cs| ==> cs'[k] == cs[k].(cost := cs'[k].cost)
  }

  /** Costs are never read when costing a recipe: a crafted ingredient is priced at its value. */
  lemma SameButCostPrices(ms: seq<Material>, cs: seq<CraftedItem>, cs': seq<CraftedItem>, r: Recipe)
    requires SameButCost(cs, cs') && r.outputQuantity != 0
    ensures CraftedIds(cs') == CraftedIds(cs)
    ensures UnitCost(ms, cs', r) == UnitCost(ms, cs, r)
  {
    assert CraftedIds(cs') == CraftedIds(cs);
    CostSamePrices(ms, cs, ms, cs', r.ingredients);
  }

  /** What a crafted record ends up as: the unit cost of the last recipe with its id, if it is the first record with that id. */
  function Pushed(ms: seq<Material>, cs: seq<CraftedItem>, rs: seq<Recipe>, k: nat): CraftedItem
    requires AllProduce(rs) && k < |cs|
  {
    match LastRecipeFor(rs, cs[k].id)
    case Some(n) => if FindCrafted(cs, cs[k].id) == Some(k) then cs[k].(cost := UnitCost(ms, cs, rs[n])) else cs[k]
    case None => cs[k]
  }

  /**
   * Whatever the order of the recipes, each crafted item that is the first with its id ends
   * with the unit cost of the last recipe of that id; every other record is untouched.
   */
  lemma {:induction false} CostsPushedDescribes(ms: seq<Material>, cs: seq<CraftedItem>, rs: seq<Recipe>)
    requires AllProduce(rs)
    ensures SameButCost(cs, CostsPushed(ms, cs, rs))
    ensures forall k :: 0 <= k < |cs| ==> CostsPushed(ms, cs, rs)[k] == Pushed(ms, cs, rs, k)
  {
    if |rs| > 0 {
      var init := rs[..|rs| - 1];
      var r := rs[|rs| - 1];
      CostsPushedDescribes(ms, cs, init);
      var prev := CostsPushed(ms, cs, init);
      SameButCostPrices(ms, cs, prev, r);
      PushStep(ms, cs, init, r, prev);
      assert rs == init + [r];
    }
  }

  lemma PushStep(ms: seq<Material>, cs: seq<CraftedItem>, init: seq<Recipe>, r: Recipe, prev: seq<CraftedItem>)
    requires AllProduce(init) && r.outputQuantity != 0
    requires SameButCost(cs, prev) && CraftedIds(prev) == CraftedIds(cs) && UnitCost(ms, prev, r) == UnitCost(ms, cs, r)
    requires forall k :: 0 <= k < |cs| ==> prev[k] == Pushed(ms, cs, init, k)
    ensures AllProduce(init + [r])
    ensures SameButCost(cs, PushCost(ms, prev, r))
    ensures forall k :: 0 <= k < |cs| ==> PushCost(ms, prev, r)[k] == Pushed(ms, cs, init + [r], k)
  {
    var rs := init + [r];
    assert rs[..|rs| - 1] == init;
    forall k | 0 <= k < |cs|
      ensures PushCost(ms, prev, r)[k] == Pushed(ms, cs, rs, k)
    {
      if r.id != cs[k].id {
        assert LastRecipeFor(rs, cs[k].id) == LastRecipeFor(init, cs[k].id);
      }
    }
  }

  /** Running the update a second time changes nothing. */
  lemma CostsPushedIdempotent(ms: seq<Material>, cs: seq<CraftedItem>, rs: seq<Recipe>)
    requires AllProduce(rs)
    ensures CostsPushed(ms, CostsPushed(ms, cs, rs), rs) == CostsPushed(ms, cs, rs)
  {
    var once := CostsPushed(ms, cs, rs);
    CostsPushedDescribes(ms, cs, rs);
    CostsPushedDescribes(ms, once, rs);
    assert CraftedIds(once) == CraftedIds(cs);
    forall k | 0 <= k < |cs|
      ensures Pushed(ms, once, rs, k) == once[k]
    {
      match LastRecipeFor(rs, cs[k].id)
      case Some(n) =>
        SameButCostPrices(ms, cs, once, rs[n]);
      case None =>
    }
  }

  // ---------------------------------------------------------------------------
  // Adding, editing and deleting records
  // ---------------------------------------------------------------------------

  /** The id is used by a material or by a crafted item. */
  predicate IdTaken(ms: seq<Material>, cs: seq<CraftedItem>, id: Id)
  {
    FindMaterial(ms, id).Some? || FindCrafted(cs, id).Some?
  }

  /** Each id names at most one record across the two lists. */
  predicate DistinctStockIds(ms: seq<Material>, cs: seq<CraftedItem>)
  {
    (forall a, b :: 0 <= a < b < |ms| ==> ms[a].id != ms[b].id)
    && (forall a, b :: 0 <= a < b < |cs| ==> cs[a].id != cs[b].id)
    && (forall a, b :: 0 <= a < |ms| && 0 <= b < |cs| ==> ms[a].id != cs[b].id)
  }

  /**
   * `addInventoryItem`: an empty name or id, or an id already used in either list, is
   * refused with no change; otherwise the new record goes to the end of the chosen list.
   */
  method AddInventoryItem(shop: Store.Shop, itemType: ItemType, name: string, id: Id, quantity: int,
                          cost: real, value: real, category: string) returns (added: bool)
    modifies shop
    ensures added <==> name != "" && id != "" && !IdTaken(old(shop.materials), old(shop.crafted), id)
    ensures added && itemType == MaterialType ==>
      shop.materials == old(shop.materials) + [NewMaterial(id, name, quantity, cost, category)]
      && shop.crafted == old(shop.crafted)
    ensures added && itemType == CraftedType ==>
      shop.crafted == old(shop.crafted) + [NewCraftedItem(id, name, quantity, cost, value, category)]
      && shop.materials == old(shop.materials)
    ensures !added ==> shop.materials == old(shop.materials) && shop.crafted == old(shop.crafted)
    ensures shop.recipes == old(shop.recipes) && shop.prices == old(shop.prices)
    ensures shop.queue == old(shop.queue) && shop.history == old(shop.history)
  {
    if name == "" || id == "" {
      return false;
    }
    if FindMaterial(shop.materials, id).Some? || FindCrafted(shop.crafted, id).Some? {
      return false;
    }
    if itemType == MaterialType {
      shop.materials := shop.materials + [NewMaterial(id, name, quantity, cost, category)];
    } else {
      shop.crafted := shop.crafted + [NewCraftedItem(id, name, quantity, cost, value, category)];
    }
    added := true;
  }

  /** The duplicate check keeps every id on at most one record. */
  lemma AddKeepsIdsDistinct(ms: seq<Material>, cs: seq<CraftedItem>, m: Material, c: CraftedItem)
    requires DistinctStockIds(ms, cs)
    ensures !IdTaken(ms, cs, m.id) ==> DistinctStockIds(ms + [m], cs)
    ensures !IdTaken(ms, cs, c.id) ==> DistinctStockIds(ms, cs + [c])
  {
    assert forall a :: 0 <= a < |ms| ==> ms[a].id in MaterialIds(ms);
    assert forall b :: 0 <= b < |cs| ==> cs[b].id in CraftedIds(cs);
  }

  /**
   * `updateInventoryItem`: an empty name is refused; otherwise the first record with the id
   * in the chosen list takes the form's name, quantity, cost and category (and value, for a
   * crafted item). An unknown id changes nothing.
   */
  method UpdateInventoryItem(shop: Store.Shop, id: Id, itemType: ItemType, name: string, quantity: int,
                             cost: real, value: real, category: string) returns (updated: bool)
    modifies shop
    ensures updated <==> name != "" && (if itemType == MaterialType then FindMaterial(old(shop.materials), id).Some?
                                        else FindCrafted(old(shop.crafted), id).Some?)
    ensures updated && itemType == MaterialType ==>
      var i := FindMaterial(old(shop.materials), id).value;
      shop.materials == old(shop.materials)[i := old(shop.materials[i]).(name := name, quantity := quantity,
                                                                         cost := cost, category := category)]
    ensures updated && itemType == CraftedType ==>
      var j := FindCrafted(old(shop.crafted), id).value;
      shop.crafted == old(shop.crafted)[j := old(shop.crafted[j]).(name := name, quantity := quantity, cost := cost,
                                                                    value := value, category := category)]
    ensures !updated || itemType == CraftedType ==> shop.materials == old(shop.materials)
    ensures !updated || itemType == MaterialType ==> shop.crafted == old(shop.crafted)
    ensures MaterialIds(shop.materials) == MaterialIds(old(shop.materials))
    ensures CraftedIds(shop.crafted) == CraftedIds(old(shop.crafted))
    ensures shop.recipes == old(shop.recipes) && shop.prices == old(shop.prices)
    ensures shop.queue == old(shop.queue) && shop.history == old(shop.history)
  {
    if name == "" {
      return false;
    }
    if itemType == MaterialType {
      var found := FindMaterial(shop.materials, id);
      if found.None? {
        return false;
      }
      var i := found.value;
      shop.materials := shop.materials[i := shop.materials[i].(name := name, quantity := quantity,
                                                               cost := cost, category := category)];
      assert MaterialIds(shop.materials) == MaterialIds(old(shop.materials));
    } else {
      var found := FindCrafted(shop.crafted, id);
      if found.None? {
        return false;
      }
      var j := found.value;
      shop.crafted := shop.crafted[j := shop.crafted[j].(name := name, quantity := quantity, cost := cost,
                                                         value := value, category := category)];
      assert CraftedIds(shop.crafted) == CraftedIds(old(shop.crafted));
    }
    updated := true;
  }

  function MaterialOtherThan(id: Id): Material -> bool { (m: Material) => m.id != id }

  function CraftedOtherThan(id: Id): CraftedItem -> bool { (c: CraftedItem) => c.id != id }

  /** `deleteInventoryItem`: the chosen list keeps the records with other ids, in order. */
  method DeleteInventoryItem(shop: Store.Shop, id: Id, itemType: ItemType)
    modifies shop
    ensures itemType == MaterialType ==>
      shop.materials == Seqs.Filter(old(shop.materials), MaterialOtherThan(id)) && shop.crafted == old(shop.crafted)
    ensures itemType == CraftedType ==>
      shop.crafted == Seqs.Filter(old(shop.crafted), CraftedOtherThan(id)) && shop.materials == old(shop.materials)
    ensures shop.recipes == old(shop.recipes) && shop.prices == old(shop.prices)
    ensures shop.queue == old(shop.queue) && shop.history == old(shop.history)
  {
    if itemType == MaterialType {
      shop.materials := Seqs.Filter(shop.materials, MaterialOtherThan(id));
    } else {
      shop.crafted := Seqs.Filter(shop.crafted, CraftedOtherThan(id));
    }
  }

  /** After a delete no record has the id, and every other record is kept as often as it was. */
  lemma DeleteRemovesEveryCopy(ms: seq<Material>, cs: seq<CraftedItem>, id: Id, m: Material, c: CraftedItem)
    ensures FindMaterial(Seqs.Filter(ms, MaterialOtherThan(id)), id).None?
    ensures FindCrafted(Seqs.Filter(cs, CraftedOtherThan(id)), id).None?
    ensures multiset(Seqs.Filter(ms, MaterialOtherThan(id)))[m] == if m.id == id then 0 else multiset(ms)[m]
    ensures multiset(Seqs.Filter(cs, CraftedOtherThan(id)))[c] == if c.id == id then 0 else multiset(cs)[c]
  {
    var ms' := Seqs.Filter(ms, MaterialOtherThan(id));
    var cs' := Seqs.Filter(cs, CraftedOtherThan(id));
    assert forall k :: 0 <= k < |ms'| ==> MaterialOtherThan(id)(ms'[k]);
    assert forall k :: 0 <= k < |cs'| ==> CraftedOtherThan(id)(cs'[k]);
    assert id !in MaterialIds(ms');
    assert id !in CraftedIds(cs');
    Seqs.FilterCount(ms, MaterialOtherThan(id), m);
    Seqs.FilterCount(cs, CraftedOtherThan(id), c);
  }

  /** `updateMaterialQuantity`: the first material with the id takes the new quantity. */
  method UpdateMaterialQuantity(shop: Store.Shop, id: Id, quantity: int) returns (updated: bool)
    modifies shop
    ensures updated <==> FindMaterial(old(shop.materials), id).Some?
    ensures updated ==> var i := FindMaterial(old(shop.materials), id).value;
      shop.materials == old(shop.materials)[i := old(shop.materials[i]).(quantity := quantity)]
    ensures !updated ==> shop.materials == old(shop.materials)
    ensures shop.crafted == old(shop.crafted) && shop.recipes == old(shop.recipes) && shop.prices == old(shop.prices)
    ensures shop.queue == old(shop.queue) && shop.history == old(shop.history)
  {
    var found := FindMaterial(shop.materials, id);
    if found.None? {
      return false;
    }
    shop.materials := shop.materials[found.value := shop.materials[found.value].(quantity := quantity)];
    updated := true;
  }

  /** `updateCraftedItemQuantity`: the first crafted item with the id takes the new quantity. */
  method UpdateCraftedItemQuantity(shop: Store.Shop, id: Id, quantity: int) returns (updated: bool)
    modifies shop
    ensures updated <==> FindCrafted(old(shop.crafted), id).Some?
    ensures updated ==> var i := FindCrafted(old(shop.crafted), id).value;
      shop.crafted == old(shop.crafted)[i := old(shop.crafted[i]).(quantity := quantity)]
    ensures !updated ==> shop.crafted == old(shop.crafted)
    ensures shop.materials == old(shop.materials) && shop.recipes == old(shop.recipes) && shop.prices == old(shop.prices)
    ensures shop.queue == old(shop.queue) && shop.history == old(shop.history)
  {
    var found := FindCrafted(shop.crafted, id);
    if found.None? {
      return false;
    }
    shop.crafted := shop.crafted[found.value := shop.crafted[found.value].(quantity := quantity)];
    updated := true;
  }

  /**
   * `updateMaterialCost`: the first material with the id takes the new cost, then the
   * recipe unit costs are pushed into the crafted items again.
   */
  method UpdateMaterialCost(shop: Store.Shop, id: Id, cost: real) returns (updated: bool)
    requires shop.Valid()
    modifies shop
    ensures shop.Valid()
    ensures updated <==> FindMaterial(old(shop.materials), id).Some?
    ensures updated ==> var i := FindMaterial(old(shop.materials), id).value;
      shop.materials == old(shop.materials)[i := old(shop.materials[i]).(cost := cost)]
      && shop.crafted == CostsPushed(shop.materials, old(shop.crafted), old(shop.recipes))
    ensures !updated ==> shop.materials == old(shop.materials) && shop.crafted == old(shop.crafted)
    ensures shop.recipes == old(shop.recipes) && shop.prices == old(shop.prices)
    ensures shop.queue == old(shop.queue) && shop.history == old(shop.history)
  {
    var found := FindMaterial(shop.materials, id);
    if found.None? {
      return false;
    }
    shop.materials := shop.materials[found.value := shop.materials[found.value].(cost := cost)];
    UpdateCraftedItemsCost(shop);
    updated := true;
  }

  // ---------------------------------------------------------------------------
  // Summaries
  // ---------------------------------------------------------------------------

  /** The figures under a list: record count, units on hand, and stock value. */
  datatype StockSummary = StockSummary(types: int, units: int, value: real)

  function MaterialUnits(ms: seq<Material>): int
  {
    if |ms| == 0 then 0 else MaterialUnits(ms[..|ms| - 1]) + ms[|ms| - 1].quantity
  }

  function CraftedUnits(cs: seq<CraftedItem>): int
  {
    if |cs| == 0 then 0 else CraftedUnits(cs[..|cs| - 1]) + cs[|cs| - 1].quantity
  }

  /** `updateInventorySummary` for materials: valued at cost. */
  function MaterialsSummary(ms: seq<Material>): StockSummary
  {
    StockSummary(|ms|, MaterialUnits(ms), Dashboard.MaterialsValue(ms))
  }

  /** `updateInventorySummary` for crafted items: valued at their selling value. */
  function CraftedSummary(cs: seq<CraftedItem>): StockSummary
  {
    StockSummary(|cs|, CraftedUnits(cs), Dashboard.CraftedValue(cs))
  }

  function Plus(a: StockSummary, b: StockSummary): StockSummary
  {
    StockSummary(a.types + b.types, a.units + b.units, a.value + b.value)
  }

  /** The summary of two lists put together is the sum of their summaries. */
  lemma {:induction false} MaterialsSummaryConcat(a: seq<Material>, b: seq<Material>)
    ensures MaterialsSummary(a + b) == Plus(MaterialsSummary(a), MaterialsSummary(b))
  {
    if |b| > 0 {
      Seqs.ConcatDropLast(a, b);
      MaterialsSummaryConcat(a, b[..|b| - 1]);
    } else {
      assert a + b == a;
    }
  }

  lemma {:induction false} CraftedSummaryConcat(a: seq<CraftedItem>, b: seq<CraftedItem>)
    ensures CraftedSummary(a + b) == Plus(CraftedSummary(a), CraftedSummary(b))
  {
    if |b| > 0 {
      Seqs.ConcatDropLast(a, b);
      CraftedSummaryConcat(a, b[..|b| - 1]);
    } else {
      assert a + b == a;
    }
  }

  /** The two summary values add up to the dashboard's inventory value. */
  lemma SummariesMakeInventoryValue(ms: seq<Material>, cs: seq<CraftedItem>)
    ensures MaterialsSummary(ms).value + CraftedSummary(cs).value == Dashboard.MaterialsValue(ms) + Dashboard.CraftedValue(cs)
  {
  }

  // ---------------------------------------------------------------------------
  // Table filter
  // ---------------------------------------------------------------------------

  /** `filterInventoryTable`: the name contains the search term, ignoring case, and the category matches. */
  predicate RowVisible(name: string, category: string, search: string, categoryFilter: string)
  {
    Text.Contains(Text.Lower(name), Text.Lower(search)) && (categoryFilter == "all" || category == categoryFilter)
  }

  /** A row is shown exactly when the lower-cased term occurs in the lower-cased name and the category passes. */
  lemma RowVisibleIff(name: string, category: string, search: string, categoryFilter: string)
    ensures RowVisible(name, category, search, categoryFilter)
        <==> (exists i :: Text.OccursAt(Text.Lower(name), Text.Lower(search), i))
             && (categoryFilter == "all" || category == categoryFilter)
    ensures search == "" ==> (RowVisible(name, category, search, categoryFilter) <==> categoryFilter == "all" || category == categoryFilter)
  {
    Text.ContainsIffSubstring(Text.Lower(name), Text.Lower(search));
    if search == "" {
      assert Text.OccursAt(Text.Lower(name), Text.Lower(search), 0);
    }
  }
}
