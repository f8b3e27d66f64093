/**
 * The recipe page (js/recipes.js): adding, editing, repricing and deleting recipes,
 * changing one ingredient quantity, and the price the edit-price dialog recommends.
 */
module Recipes {
  import opened Wrappers
  import opened Entities
  import opened Crafting
  import Store
  import Seqs
  import Pricing
  import Inventory

  // ---------------------------------------------------------------------------
  // Ingredient rows of the recipe forms
  // ---------------------------------------------------------------------------

  /** A form row counts when an ingredient is selected and its quantity is positive. */
  predicate Usable(row: Ingredient)
  {
    row.id != "" && row.quantity > 0
  }

  /** The loop over the ingredient rows: the usable ones, in row order. */
  method CollectIngredients(rows: seq<Ingredient>) returns (ings: seq<Ingredient>)
    ensures ings == Seqs.Filter(rows, Usable)
  {
    ings := [];
    for k := 0 to |rows|
      invariant ings == Seqs.Filter(rows[..k], Usable)
    {
      Seqs.PrefixSnoc(rows, k);
      Seqs.FilterSnoc(rows[..k], rows[k], Usable);
      if rows[k].id != "" && rows[k].quantity > 0 {
        ings := ings + [rows[k]];
      }
    }
    assert rows[..|rows|] == rows;
  }

  /** Exactly the usable rows are kept, each as often as it was entered. */
  lemma CollectedRows(rows: seq<Ingredient>, row: Ingredient)
    ensures forall k :: 0 <= k < |Seqs.Filter(rows, Usable)| ==> Usable(Seqs.Filter(rows, Usable)[k])
    ensures multiset(Seqs.Filter(rows, Usable))[row] == if Usable(row) then multiset(rows)[row] else 0
  {
    Seqs.FilterCount(rows, Usable, row);
  }

  // ---------------------------------------------------------------------------
  // Adding a recipe
  // ---------------------------------------------------------------------------

  /** Why `addNewRecipe` refuses its form, if it does: checked in the order the page checks. */
  function AddRecipeError(rs: seq<Recipe>, name: string, id: Id, rows: seq<Ingredient>): (e: Option<string>)
    ensures e.None? <==> name != "" && id != "" && FindRecipe(rs, id).None? && Seqs.Filter(rows, Usable) != []
  {
    if name == "" || id == "" then Some("Name and ID are required")
    else if FindRecipe(rs, id).Some? then Some("A recipe with this ID already exists")
    else if Seqs.Filter(rows, Usable) == [] then Some("At least one ingredient is required")
    else None
  }

  /**
   * `addNewRecipe`: refuse an empty name or id, a known id, or a form without usable
   * ingredients, changing nothing; otherwise list the recipe built by the constructor and
   * record its price, stamped `now`.
   */
  method AddNewRecipe(shop: Store.Shop, name: string, id: Id, outputQuantity: int, value: real,
                      craftingTime: int, rows: seq<Ingredient>, now: int) returns (res: Result<Recipe, string>)
    requires shop.Valid()
    modifies shop
    ensures shop.Valid()
    ensures res.Failure? <==> AddRecipeError(old(shop.recipes), name, id, rows).Some?
    ensures res.Failure? ==>
      res.error == AddRecipeError(old(shop.recipes), name, id, rows).value
      && shop.recipes == old(shop.recipes) && shop.prices == old(shop.prices)
    ensures res.Success? ==>
      res.value == NewRecipe(id, name, outputQuantity, craftingTime, Seqs.Filter(rows, Usable), value)
      && shop.recipes == old(shop.recipes) + [res.value]
      && (match FindPrice(old(shop.prices), id)
          case Some(i) => shop.prices == old(shop.prices)[i := PriceRecord(id, value, now)]
          case None => shop.prices == old(shop.prices) + [PriceRecord(id, value, now)])
    ensures shop.materials == old(shop.materials) && shop.crafted == old(shop.crafted)
    ensures shop.queue == old(shop.queue) && shop.history == old(shop.history)
  {
    if name == "" || id == "" {
      return Failure("Name and ID are required");
    }
    if FindRecipe(shop.recipes, id).Some? {
      return Failure("A recipe with this ID already exists");
    }
    var ings := CollectIngredients(rows);
    if |ings| == 0 {
      return Failure("At least one ingredient is required");
    }
    var r := NewRecipe(id, name, outputQuantity, craftingTime, ings, value);
    shop.recipes := shop.recipes + [r];
    shop.UpdatePrice(id, value, now);
    res := Success(r);
  }

  /** A recipe that was added can be found by its id afterwards, and it is the only one with it. */
  lemma AddedRecipeFound(rs: seq<Recipe>, r: Recipe)
    requires FindRecipe(rs, r.id).None?
    ensures FindRecipe(rs + [r], r.id) == Some(|rs|)
    ensures forall k :: 0 <= k < |rs| ==> rs[k].id != r.id
  {
    assert RecipeIds(rs + [r]) == RecipeIds(rs) + [r.id];
    FirstIndexAppend(RecipeIds(rs), r.id, r.id);
    assert forall k :: 0 <= k < |rs| ==> rs[k].id in RecipeIds(rs);
  }

  // ---------------------------------------------------------------------------
  // Editing a recipe
  // ---------------------------------------------------------------------------

  /** The fields the edit form overwrites, as the page writes them, bypassing the constructor. */
  function EditedAsWritten(r: Recipe, name: string, outputQuantity: int, value: real, craftingTime: int,
                           ings: seq<Ingredient>): (r': Recipe)
    ensures r'.id == r.id && r'.outputQuantity == outputQuantity
  {
    r.(name := name, outputQuantity := outputQuantity, value := value, craftingTime := craftingTime,
       ingredients := ings)
  }

  /**
   * `updateRecipe` as written accepts an output quantity of 0 from the edit form. The
   * recipe then costs its one iron bar over zero units: JavaScript's division gives
   * Infinity, and the next cost push writes that into the sword's cost.
   */
  lemma EditStoresZeroOutput()
    ensures var ms := [Material("iron", "Iron Bar", 10, 2.0, "raw")];
      var r := Recipe("sword", "Sword", 1, 5, [Ingredient("iron", 1)], 10.0);
      var r' := EditedAsWritten(r, "Sword", 0, 10.0, 5, r.ingredients);
      r.outputQuantity != 0 && !Inventory.AllProduce([r'])
      && Cost(ms, [], r'.ingredients) == 2.0
      && Pricing.Divide(Cost(ms, [], r'.ingredients), r'.outputQuantity as real) == Pricing.PlusInfinity
  {
    var ms := [Material("iron", "Iron Bar", 10, 2.0, "raw")];
    var ings := [Ingredient("iron", 1)];
    assert ings[..0] == [];
    assert MaterialIds(ms) == ["iron"];
    assert FindMaterial(ms, "iron") == Some(0);
    assert UnitPrice(ms, [], "iron") == 2.0;
    assert LineCost(ms, [], ings[0]) == 2.0;
    assert Cost(ms, [], ings) == Cost(ms, [], []) + LineCost(ms, [], ings[0]);
    assert Cost(ms, [], ings) == 2.0;
    var r' := EditedAsWritten(Recipe("sword", "Sword", 1, 5, ings, 10.0), "Sword", 0, 10.0, 5, ings);
    assert [r'][0].outputQuantity == 0;
  }

  /** Why the corrected `updateRecipe` refuses its form, if it does. */
  function EditRecipeError(rs: seq<Recipe>, id: Id, name: string, outputQuantity: int, rows: seq<Ingredient>): (e: Option<string>)
    ensures e.None? <==> FindRecipe(rs, id).Some? && name != "" && outputQuantity >= 1 && Seqs.Filter(rows, Usable) != []
  {
    if FindRecipe(rs, id).None? then Some("Recipe not found")
    else if name == "" then Some("Name is required")
    else if outputQuantity < 1 then Some("Output quantity must be at least 1")
    else if Seqs.Filter(rows, Usable) == [] then Some("At least one ingredient is required")
    else None
  }

  /**
   * `updateRecipe`, with the output quantity held to the form's minimum of 1: refuse an
   * unknown id, an empty name, an output below 1 or a form without usable ingredients;
   * otherwise overwrite the first recipe with the id, record its price and push the unit
   * costs into the crafted items.
   */
  method UpdateRecipe(shop: Store.Shop, id: Id, name: string, outputQuantity: int, value: real,
                      craftingTime: int, rows: seq<Ingredient>, now: int) returns (res: Result<Recipe, string>)
    requires shop.Valid()
    modifies shop
    ensures shop.Valid()
    ensures res.Failure? <==> EditRecipeError(old(shop.recipes), id, name, outputQuantity, rows).Some?
    ensures res.Failure? ==>
      shop.recipes == old(shop.recipes) && shop.crafted == old(shop.crafted) && shop.prices == old(shop.prices)
    ensures res.Success? ==>
      var i := FindRecipe(old(shop.recipes), id).value;
      res.value == EditedAsWritten(old(shop.recipes[i]), name, outputQuantity, value, craftingTime, Seqs.Filter(rows, Usable))
      && shop.recipes == old(shop.recipes)[i := res.value]
      && shop.crafted == Inventory.CostsPushed(shop.materials, old(shop.crafted), shop.recipes)
      && FindPrice(shop.prices, id).Some? && shop.prices[FindPrice(shop.prices, id).value] == PriceRecord(id, value, now)
      && (match FindPrice(old(shop.prices), id)
          case Some(j) => shop.prices == old(shop.prices)[j := PriceRecord(id, value, now)]
          case None => shop.prices == old(shop.prices) + [PriceRecord(id, value, now)])
    ensures shop.materials == old(shop.materials) && shop.queue == old(shop.queue) && shop.history == old(shop.history)
  {
    var found := FindRecipe(shop.recipes, id);
    if found.None? {
      return Failure("Recipe not found");
    }
    if name == "" {
      return Failure("Name is required");
    }
    if outputQuantity < 1 {
      return Failure("Output quantity must be at least 1");
    }
    var ings := CollectIngredients(rows);
    if |ings| == 0 {
      return Failure("At least one ingredient is required");
    }
    var i := found.value;
    var r := EditedAsWritten(shop.recipes[i], name, outputQuantity, value, craftingTime, ings);
    shop.recipes := shop.recipes[i := r];
    shop.UpdatePrice(id, value, now);
    Inventory.UpdateCraftedItemsCost(shop);
    res := Success(r);
  }

  /** The corrected edit keeps every recipe producing, so every unit cost stays a division by a non-zero count. */
  lemma EditKeepsOutput(rs: seq<Recipe>, i: nat, name: string, outputQuantity: int, value: real,
                        craftingTime: int, ings: seq<Ingredient>)
    requires Inventory.AllProduce(rs) && i < |rs| && outputQuantity >= 1
    ensures Inventory.AllProduce(rs[i := EditedAsWritten(rs[i], name, outputQuantity, value, craftingTime, ings)])
  {
  }

  // ---------------------------------------------------------------------------
  // Price, delete and ingredient quantity
  // ---------------------------------------------------------------------------

  /**
   * `updateRecipePrice`: the first recipe with the id takes the new value, its price is
   * recorded, and the unit costs are pushed again. An unknown id changes nothing.
   */
  method UpdateRecipePrice(shop: Store.Shop, id: Id, price: real, now: int) returns (updated: bool)
    requires shop.Valid()
    modifies shop
    ensures shop.Valid()
    ensures updated <==> FindRecipe(old(shop.recipes), id).Some?
    ensures !updated ==>
      shop.recipes == old(shop.recipes) && shop.crafted == old(shop.crafted) && shop.prices == old(shop.prices)
    ensures updated ==>
      var i := FindRecipe(old(shop.recipes), id).value;
      shop.recipes == old(shop.recipes)[i := old(shop.recipes[i]).(value := price)]
      && shop.crafted == Inventory.CostsPushed(shop.materials, old(shop.crafted), shop.recipes)
      && FindPrice(shop.prices, id).Some? && shop.prices[FindPrice(shop.prices, id).value] == PriceRecord(id, price, now)
      && (match FindPrice(old(shop.prices), id)
          case Some(j) => shop.prices == old(shop.prices)[j := PriceRecord(id, price, now)]
          case None => shop.prices == old(shop.prices) + [PriceRecord(id, price, now)])
    ensures shop.materials == old(shop.materials) && shop.queue == old(shop.queue) && shop.history == old(shop.history)
  {
    var found := FindRecipe(shop.recipes, id);
    if found.None? {
      return false;
    }
    var i := found.value;
    shop.recipes := shop.recipes[i := shop.recipes[i].(value := price)];
    shop.UpdatePrice(id, price, now);
    Inventory.UpdateCraftedItemsCost(shop);
    updated := true;
  }

  /** A recipe's sale value does not enter its unit cost: repricing leaves every unit cost as it was. */
  lemma RepriceKeepsUnitCost(ms: seq<Material>, cs: seq<CraftedItem>, r: Recipe, price: real)
    requires r.outputQuantity != 0
    ensures UnitCost(ms, cs, r.(value := price)) == UnitCost(ms, cs, r)
  {
  }

  function RecipeOtherThan(id: Id): Recipe -> bool { (r: Recipe) => r.id != id }

  /** `deleteRecipe`: the recipes with other ids, in order. */
  method DeleteRecipe(shop: Store.Shop, id: Id)
    requires shop.Valid()
    modifies shop
    ensures shop.Valid()
    ensures shop.recipes == Seqs.Filter(old(shop.recipes), RecipeOtherThan(id))
    ensures shop.materials == old(shop.materials) && shop.crafted == old(shop.crafted) && shop.prices == old(shop.prices)
    ensures shop.queue == old(shop.queue) && shop.history == old(shop.history)
  {
    var kept := Seqs.Filter(shop.recipes, RecipeOtherThan(id));
    forall k | 0 <= k < |kept|
      ensures kept[k].outputQuantity != 0
    {
      DeleteKeepsRecipes(shop.recipes, id, kept[k]);
      assert kept[k] in multiset(kept);
    }
    shop.recipes := kept;
  }

  /** After a delete no recipe has the id, and every other recipe is kept as often as it was. */
  lemma DeleteKeepsRecipes(rs: seq<Recipe>, id: Id, r: Recipe)
    ensures FindRecipe(Seqs.Filter(rs, RecipeOtherThan(id)), id).None?
    ensures multiset(Seqs.Filter(rs, RecipeOtherThan(id)))[r] == if r.id == id then 0 else multiset(rs)[r]
  {
    var kept := Seqs.Filter(rs, RecipeOtherThan(id));
    assert forall k :: 0 <= k < |kept| ==> RecipeOtherThan(id)(kept[k]);
    assert id !in RecipeIds(kept);
    Seqs.FilterCount(rs, RecipeOtherThan(id), r);
  }

  function IngredientIds(ings: seq<Ingredient>): (ids: seq<Id>)
    ensures |ids| == |ings| && forall k :: 0 <= k < |ings| ==> ids[k] == ings[k].id
  {
    seq(|ings|, k requires 0 <= k < |ings| => ings[k].id)
  }

  /**
   * `updateRecipeIngredient`: in the first recipe with the id, the first ingredient line
   * with the ingredient id takes the new quantity, then the unit costs are pushed again.
   * An unknown recipe or ingredient changes nothing.
   */
  method UpdateRecipeIngredient(shop: Store.Shop, recipeId: Id, ingredientId: Id, quantity: int) returns (updated: bool)
    requires shop.Valid()
    modifies shop
    ensures shop.Valid()
    ensures updated <==>
      (FindRecipe(old(shop.recipes), recipeId).Some?
       && FirstIndex(IngredientIds(old(shop.recipes)[FindRecipe(old(shop.recipes), recipeId).value].ingredients),
                     ingredientId).Some?)
    ensures !updated ==> shop.recipes == old(shop.recipes) && shop.crafted == old(shop.crafted)
    ensures updated ==>
      var i := FindRecipe(old(shop.recipes), recipeId).value;
      var ings := old(shop.recipes[i].ingredients);
      var n := FirstIndex(IngredientIds(ings), ingredientId).value;
      shop.recipes == old(shop.recipes)[i := old(shop.recipes[i]).(ingredients := ings[n := Ingredient(ingredientId, quantity)])]
      && shop.crafted == Inventory.CostsPushed(shop.materials, old(shop.crafted), shop.recipes)
    ensures shop.materials == old(shop.materials) && shop.prices == old(shop.prices)
    ensures shop.queue == old(shop.queue) && shop.history == old(shop.history)
  {
    var found := FindRecipe(shop.recipes, recipeId);
    if found.None? {
      return false;
    }
    var i := found.value;
    var ings := shop.recipes[i].ingredients;
    var line := FirstIndex(IngredientIds(ings), ingredientId);
    if line.None? {
      return false;
    }
    var n := line.value;
    shop.recipes := shop.recipes[i := shop.recipes[i].(ingredients := ings[n := ings[n].(quantity := quantity)])];
    Inventory.UpdateCraftedItemsCost(shop);
    updated := true;
  }

  /**
   * Changing one line's quantity changes the recipe's cost by the difference of that line's
   * cost alone; the line's cost moves by its unit price times the change in quantity.
   */
  lemma IngredientChangeCost(ms: seq<Material>, cs: seq<CraftedItem>, ings: seq<Ingredient>, n: nat, quantity: int)
    requires n < |ings|
    ensures var ings' := ings[n := ings[n].(quantity := quantity)];
      Cost(ms, cs, ings') == Cost(ms, cs, ings) - LineCost(ms, cs, ings[n]) + LineCost(ms, cs, ings'[n])
  {
    var ings' := ings[n := ings[n].(quantity := quantity)];
    CostAt(ms, cs, ings, n);
    CostAt(ms, cs, ings', n);
    UpdateKeepsSides(ings, n, ings'[n]);
  }

  lemma UpdateKeepsSides<T>(s: seq<T>, n: nat, y: T)
    requires n < |s|
    ensures s[n := y][..n] == s[..n] && s[n := y][n + 1..] == s[n + 1..] && s[n := y][n] == y
  {
  }

  /** The cost of a bill of materials split around its line `n`. */
  lemma CostAt(ms: seq<Material>, cs: seq<CraftedItem>, ings: seq<Ingredient>, n: nat)
    requires n < |ings|
    ensures Cost(ms, cs, ings) == Cost(ms, cs, ings[..n]) + (LineCost(ms, cs, ings[n]) + Cost(ms, cs, ings[n + 1..]))
  {
    assert ings == ings[..n] + ([ings[n]] + ings[n + 1..]);
    CostAround(ms, cs, ings[..n], ings[n], ings[n + 1..]);
  }

  /** The cost of a bill of materials split around one line. */
  lemma CostAround(ms: seq<Material>, cs: seq<CraftedItem>, a: seq<Ingredient>, x: Ingredient, b: seq<Ingredient>)
    ensures Cost(ms, cs, a + ([x] + b)) == Cost(ms, cs, a) + (LineCost(ms, cs, x) + Cost(ms, cs, b))
  {
    CostConcat(ms, cs, a, [x] + b);
    CostConcat(ms, cs, [x], b);
    assert [x][..0] == [];
  }

  lemma LineCostChange(ms: seq<Material>, cs: seq<CraftedItem>, x: Ingredient, quantity: int)
    ensures LineCost(ms, cs, x.(quantity := quantity))
         == LineCost(ms, cs, x) + UnitPrice(ms, cs, x.id) * (quantity - x.quantity) as real
  {
    Distribute(UnitPrice(ms, cs, x.id), quantity as real, x.quantity as real);
  }

  lemma Distribute(p: real, r: real, r0: real)
    ensures p * r == p * r0 + p * (r - r0)
  {
  }

  // ---------------------------------------------------------------------------
  // The edit-price dialog
  // ---------------------------------------------------------------------------

  /** The dialog's recommendation as written: the unit cost marked up by the "target profit margin". */
  function MarkupPrice(unitCost: real, marginPercent: real): (p: real)
    ensures p - unitCost == unitCost * marginPercent / 100.0
  {
    unitCost * (1.0 + marginPercent / 100.0)
  }

  /** At the default 30% the markup price of a 10.00 item is 13.00, whose margin on price is 300/13, not 30. */
  lemma MarkupFallsShortOfMargin()
    ensures MarkupPrice(10.0, 30.0) == 13.0
    ensures Pricing.MarginPercent(13.0, 10.0) == 300.0 / 13.0
    ensures Pricing.MarginPercent(MarkupPrice(10.0, 30.0), 10.0) < 30.0
  {
  }

  /**
   * The price whose margin on price is the target, as the pricing calculator computes it;
   * `None` for a target of 100% or more, which no price reaches.
   */
  function MarginPrice(unitCost: real, marginPercent: real): (p: Option<real>)
    ensures p.Some? <==> marginPercent < 100.0
  {
    if marginPercent < 100.0 then Some(unitCost / (1.0 - marginPercent / 100.0)) else None
  }

  /** For a positive cost, no price has a margin on price of 100% or more, so `None` loses nothing. */
  lemma NoPriceReachesWholeMargin(unitCost: real, p: real)
    requires unitCost > 0.0
    ensures Pricing.MarginPercent(p, unitCost) < 100.0
  {
    if p > 0.0 {
      var m := Pricing.MarginPercent(p, unitCost);
      assert m * p == (p - unitCost) * 100.0;
      assert m * p < 100.0 * p;
      Pricing.CancelPositiveStrict(m, 100.0, p);
    }
  }

  /** For a positive cost, the corrected recommendation shows exactly the target margin. */
  lemma MarginPriceHitsTarget(unitCost: real, marginPercent: real)
    requires unitCost > 0.0 && marginPercent < 100.0
    ensures var p := MarginPrice(unitCost, marginPercent).value;
      p > 0.0 && Pricing.MarginPercent(p, unitCost) == marginPercent
      && Pricing.BasePrice(unitCost, Some(marginPercent)) == Pricing.Finite(p)
  {
    var d := 1.0 - marginPercent / 100.0;
    var p := unitCost / d;
    assert p * d == unitCost;
    assert p > 0.0;
    var m := Pricing.MarginPercent(p, unitCost);
    assert m * p == (p - unitCost) * 100.0;
    assert (p - unitCost) * 100.0 == p * marginPercent;
    Pricing.CancelPositive(m, marginPercent, p);
    Pricing.CancelPositive(marginPercent, m, p);
  }
}
