/**
 * What a recipe needs and what it is worth (the `Recipe` getters of js/data.js).
 * Every ingredient id is looked up first among the materials and, only when no
 * material has it, among the crafted items; a material therefore shadows a crafted
 * item with the same id. A material is priced at its cost, a crafted item at its
 * sale value.
 */
module Crafting {
  import opened Wrappers
  import opened Entities
  import Seqs

  /** Where an ingredient id is found: the first material with it, else the first crafted item. */
  datatype Resolution = AsMaterial(i: nat) | AsCrafted(i: nat) | Unresolved

  function Resolve(ms: seq<Material>, cs: seq<CraftedItem>, id: Id): (r: Resolution)
    ensures r.AsMaterial? ==> r.i < |ms| && ms[r.i].id == id && forall k :: 0 <= k < r.i ==> ms[k].id != id
    ensures r.AsCrafted? ==> r.i < |cs| && cs[r.i].id == id && forall k :: 0 <= k < r.i ==> cs[k].id != id
    ensures r.AsCrafted? ==> forall k :: 0 <= k < |ms| ==> ms[k].id != id
    ensures r.Unresolved? <==> (forall k :: 0 <= k < |ms| ==> ms[k].id != id) && (forall k :: 0 <= k < |cs| ==> cs[k].id != id)
  {
    match FindMaterial(ms, id)
    case Some(i) => AsMaterial(i)
    case None =>
      match FindCrafted(cs, id)
      case Some(j) => AsCrafted(j)
      case None => Unresolved
  }

  /** The price an ingredient is costed at: material cost, crafted-item value, or nothing. */
  function UnitPrice(ms: seq<Material>, cs: seq<CraftedItem>, id: Id): real
  {
    match Resolve(ms, cs, id)
    case AsMaterial(i) => ms[i].cost
    case AsCrafted(j) => cs[j].value
    case Unresolved => 0.0
  }

  /** The quantity on hand of an ingredient, 0 when it is in neither inventory. */
  function StockOf(ms: seq<Material>, cs: seq<CraftedItem>, id: Id): int
  {
    match Resolve(ms, cs, id)
    case AsMaterial(i) => ms[i].quantity
    case AsCrafted(j) => cs[j].quantity
    case Unresolved => 0
  }

  function LineCost(ms: seq<Material>, cs: seq<CraftedItem>, ing: Ingredient): real
  {
    UnitPrice(ms, cs, ing.id) * ing.quantity as real
  }

  /** Cost of one craft: the ingredient lines summed left to right. */
  function Cost(ms: seq<Material>, cs: seq<CraftedItem>, ings: seq<Ingredient>): real
  {
    if |ings| == 0 then 0.0
    else Cost(ms, cs, ings[..|ings| - 1]) + LineCost(ms, cs, ings[|ings| - 1])
  }

  /** The cost is additive over the bill of materials. */
  lemma {:induction false} CostConcat(ms: seq<Material>, cs: seq<CraftedItem>, a: seq<Ingredient>, b: seq<Ingredient>)
    ensures Cost(ms, cs, a + b) == Cost(ms, cs, a) + Cost(ms, cs, b)
    decreases |b|
  {
    if |b| > 0 {
      Seqs.ConcatDropLast(a, b);
      CostConcat(ms, cs, a, b[..|b| - 1]);
    } else {
      assert a + b == a;
    }
  }

  /** The cost sees only the unit prices of the ingredient ids, never the stock levels. */
  lemma {:induction false} CostSamePrices(ms: seq<Material>, cs: seq<CraftedItem>, ms': seq<Material>,
                                          cs': seq<CraftedItem>, ings: seq<Ingredient>)
    requires forall k :: 0 <= k < |ings| ==> UnitPrice(ms, cs, ings[k].id) == UnitPrice(ms', cs', ings[k].id)
    ensures Cost(ms, cs, ings) == Cost(ms', cs', ings)
  {
    if |ings| > 0 {
      CostSamePrices(ms, cs, ms', cs', ings[..|ings| - 1]);
    }
  }

  /** `recipe.cost`, computed by the getter's loop. */
  method ComputeCost(ms: seq<Material>, cs: seq<CraftedItem>, r: Recipe) returns (total: real)
    ensures total == Cost(ms, cs, r.ingredients)
  {
    total := 0.0;
    var i := 0;
    while i < |r.ingredients|
      invariant 0 <= i <= |r.ingredients|
      invariant total == Cost(ms, cs, r.ingredients[..i])
    {
      var c := PriceLine(ms, cs, r.ingredients[i]);
      total := total + c;
      Seqs.PrefixSnoc(r.ingredients, i);
      i := i + 1;
    }
    assert r.ingredients[..i] == r.ingredients;
  }

  /** One pass of that loop: the line's price times its quantity, nothing for an unknown id. */
  method PriceLine(ms: seq<Material>, cs: seq<CraftedItem>, ing: Ingredient) returns (c: real)
    ensures c == LineCost(ms, cs, ing)
  {
    match Resolve(ms, cs, ing.id) {
      case AsMaterial(k) =>
        c := ms[k].cost * ing.quantity as real;
      case AsCrafted(k) =>
        c := cs[k].value * ing.quantity as real;
      case Unresolved =>
        c := 0.0;
    }
  }

  /** `recipe.unitCost`: the cost of one crafted unit. */
  function UnitCost(ms: seq<Material>, cs: seq<CraftedItem>, r: Recipe): real
    requires r.outputQuantity != 0
  {
    Cost(ms, cs, r.ingredients) / r.outputQuantity as real
  }

  /** An amount per craft taken for `quantity` crafts. */
  function Times(x: real, quantity: int): real
  {
    x * quantity as real
  }

  lemma TimesDistributes(a: real, b: real, quantity: int)
    ensures Times(a - b, quantity) == Times(a, quantity) - Times(b, quantity)
  {
    assert (a - b) * quantity as real == a * quantity as real - b * quantity as real;
  }

  /** What `quantity` crafts of recipe `r` cost in ingredients. */
  function BatchCost(ms: seq<Material>, cs: seq<CraftedItem>, r: Recipe, quantity: int): real
  {
    Times(Cost(ms, cs, r.ingredients), quantity)
  }

  /** What `quantity` crafts of recipe `r` sell for: its value per unit times the units made. */
  function SaleValue(r: Recipe, quantity: int): real
  {
    Times(r.value * r.outputQuantity as real, quantity)
  }

  /** `recipe.profit`: the value of one craft's whole output less its cost. */
  function Profit(ms: seq<Material>, cs: seq<CraftedItem>, r: Recipe): real
  {
    r.value * r.outputQuantity as real - Cost(ms, cs, r.ingredients)
  }

  function UnitProfit(ms: seq<Material>, cs: seq<CraftedItem>, r: Recipe): real
    requires r.outputQuantity != 0
  {
    r.value - UnitCost(ms, cs, r)
  }

  /** `recipe.profitMargin`: unit profit as a percentage of the unit value, 0 for a recipe with no value. */
  function ProfitMargin(ms: seq<Material>, cs: seq<CraftedItem>, r: Recipe): real
    requires r.outputQuantity != 0
  {
    if r.value == 0.0 then 0.0 else UnitProfit(ms, cs, r) / r.value * 100.0
  }

  /** The profit of a craft is the unit profit times the output quantity. */
  lemma ProfitPerUnit(ms: seq<Material>, cs: seq<CraftedItem>, r: Recipe)
    requires r.outputQuantity != 0
    ensures Profit(ms, cs, r) == r.outputQuantity as real * UnitProfit(ms, cs, r)
  {
    PerUnitBack(r.value, Cost(ms, cs, r.ingredients), r.outputQuantity as real);
  }

  lemma PerUnitBack(v: real, c: real, o: real)
    requires o != 0.0
    ensures v * o - c == o * (v - c / o)
  {
    assert o * (c / o) == c;
  }

  /** For a recipe with a positive value, the margin is positive exactly when the unit profit is. */
  lemma MarginSign(ms: seq<Material>, cs: seq<CraftedItem>, r: Recipe)
    requires r.outputQuantity != 0 && r.value > 0.0
    ensures ProfitMargin(ms, cs, r) > 0.0 <==> UnitProfit(ms, cs, r) > 0.0
    ensures ProfitMargin(ms, cs, r) < 0.0 <==> UnitProfit(ms, cs, r) < 0.0
  {
  }

  // ---------------------------------------------------------------------------
  // Can the recipe be crafted `q` times, and what is missing if not
  // ---------------------------------------------------------------------------

  /** One ingredient line is covered: it is in stock, at least `quantity * q` of it. */
  predicate IngredientAvailable(ms: seq<Material>, cs: seq<CraftedItem>, ing: Ingredient, q: int)
  {
    match Resolve(ms, cs, ing.id)
    case AsMaterial(i) => ms[i].quantity >= ing.quantity * q
    case AsCrafted(j) => cs[j].quantity >= ing.quantity * q
    case Unresolved => false
  }

  /** `recipe.canCraft(q)`: every ingredient line, checked on its own, is covered. */
  predicate CanCraft(ms: seq<Material>, cs: seq<CraftedItem>, ings: seq<Ingredient>, q: int)
  {
    forall k :: 0 <= k < |ings| ==> IngredientAvailable(ms, cs, ings[k], q)
  }

  /** `recipe.canCraft(q)` with the getter's early exit. */
  method CheckCanCraft(ms: seq<Material>, cs: seq<CraftedItem>, r: Recipe, q: int) returns (ok: bool)
    ensures ok <==> CanCraft(ms, cs, r.ingredients, q)
  {
    var i := 0;
    while i < |r.ingredients|
      invariant 0 <= i <= |r.ingredients|
      invariant forall k :: 0 <= k < i ==> IngredientAvailable(ms, cs, r.ingredients[k], q)
    {
      var ing := r.ingredients[i];
      match Resolve(ms, cs, ing.id) {
        case AsMaterial(k) =>
          if ms[k].quantity < ing.quantity * q {
            return false;
          }
        case AsCrafted(k) =>
          if cs[k].quantity < ing.quantity * q {
            return false;
          }
        case Unresolved =>
          return false;
      }
      i := i + 1;
    }
    return true;
  }

  /** One row of `getMissingMaterials`. */
  datatype Shortage = Shortage(id: Id, name: string, required: int, available: int, missing: int)

  /** The shortage of one ingredient line: none when covered; an unknown id is reported under its own id. */
  function MissingFor(ms: seq<Material>, cs: seq<CraftedItem>, ing: Ingredient, q: int): (r: seq<Shortage>)
    ensures r == [] <==> IngredientAvailable(ms, cs, ing, q)
    ensures forall s :: s in r ==> s.id == ing.id && s.required == ing.quantity * q
    ensures forall s :: s in r ==> s.missing == s.required - s.available && s.available == StockOf(ms, cs, ing.id)
    ensures forall s :: s in r && !Resolve(ms, cs, ing.id).Unresolved? ==> s.missing > 0
  {
    var required := ing.quantity * q;
    match Resolve(ms, cs, ing.id)
    case AsMaterial(i) =>
      if ms[i].quantity < required
      then [Shortage(ms[i].id, ms[i].name, required, ms[i].quantity, required - ms[i].quantity)]
      else []
    case AsCrafted(j) =>
      if cs[j].quantity < required
      then [Shortage(cs[j].id, cs[j].name, required, cs[j].quantity, required - cs[j].quantity)]
      else []
    case Unresolved =>
      [Shortage(ing.id, ing.id, required, 0, required)]
  }

  /** `recipe.getMissingMaterials(q)`: the shortages in ingredient order, at most one per line. */
  function MissingMaterials(ms: seq<Material>, cs: seq<CraftedItem>, ings: seq<Ingredient>, q: int): (r: seq<Shortage>)
    ensures |r| <= |ings|
    ensures forall s :: s in r ==> s.missing == s.required - s.available
  {
    if |ings| == 0 then []
    else MissingMaterials(ms, cs, ings[..|ings| - 1], q) + MissingFor(ms, cs, ings[|ings| - 1], q)
  }

  /** A recipe can be crafted exactly when it has no shortage. */
  lemma {:induction false} CanCraftIffNoShortage(ms: seq<Material>, cs: seq<CraftedItem>, ings: seq<Ingredient>, q: int)
    ensures CanCraft(ms, cs, ings, q) <==> MissingMaterials(ms, cs, ings, q) == []
  {
    if |ings| > 0 {
      var init := ings[..|ings| - 1];
      CanCraftIffNoShortage(ms, cs, init, q);
      assert CanCraft(ms, cs, ings, q) <==>
        CanCraft(ms, cs, init, q) && IngredientAvailable(ms, cs, ings[|ings| - 1], q) by {
        if CanCraft(ms, cs, init, q) && IngredientAvailable(ms, cs, ings[|ings| - 1], q) {
          forall k | 0 <= k < |ings|
            ensures IngredientAvailable(ms, cs, ings[k], q)
          {
            if k < |ings| - 1 {
              assert ings[k] == init[k];
            }
          }
        }
      }
    }
  }

  /** An ingredient in neither inventory blocks the craft whatever the quantity. */
  lemma UnknownIngredientBlocks(ms: seq<Material>, cs: seq<CraftedItem>, ings: seq<Ingredient>, q: int, k: int)
    requires 0 <= k < |ings| && Resolve(ms, cs, ings[k].id).Unresolved?
    ensures !CanCraft(ms, cs, ings, q)
  {
  }

  /** `recipe.getMissingMaterials(q)`, computed by its loop. */
  method GetMissingMaterials(ms: seq<Material>, cs: seq<CraftedItem>, r: Recipe, q: int) returns (missing: seq<Shortage>)
    ensures missing == MissingMaterials(ms, cs, r.ingredients, q)
  {
    missing := [];
    var i := 0;
    while i < |r.ingredients|
      invariant 0 <= i <= |r.ingredients|
      invariant missing == MissingMaterials(ms, cs, r.ingredients[..i], q)
    {
      var row := MissingLine(ms, cs, r.ingredients[i], q);
      Seqs.PrefixSnoc(r.ingredients, i);
      missing := missing + row;
      i := i + 1;
    }
    assert r.ingredients[..i] == r.ingredients;
  }

  /** One pass of that loop: the shortage row of one ingredient line, if it is short. */
  method MissingLine(ms: seq<Material>, cs: seq<CraftedItem>, ing: Ingredient, q: int) returns (row: seq<Shortage>)
    ensures row == MissingFor(ms, cs, ing, q)
  {
    var required := ing.quantity * q;
    row := [];
    match Resolve(ms, cs, ing.id) {
      case AsMaterial(k) =>
        if ms[k].quantity < required {
          row := [Shortage(ms[k].id, ms[k].name, required, ms[k].quantity, required - ms[k].quantity)];
        }
      case AsCrafted(k) =>
        if cs[k].quantity < required {
          row := [Shortage(cs[k].id, cs[k].name, required, cs[k].quantity, required - cs[k].quantity)];
        }
      case Unresolved =>
        row := [Shortage(ing.id, ing.id, required, 0, required)];
    }
  }
}
