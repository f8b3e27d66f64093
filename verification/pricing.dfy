/**
 * The pricing page (js/pricing.js): the recommended price for a crafted item, the
 * margin shown next to each price and its colour class, the price update, and the
 * savings of a bundle.
 */
module Pricing {
  import opened Wrappers
  import opened Entities
  import Store

  // ---------------------------------------------------------------------------
  // JavaScript numbers where they leave the reals
  // ---------------------------------------------------------------------------

  /** A JavaScript number: a finite value, an infinity or NaN. */
  datatype Num = Finite(x: real) | PlusInfinity | MinusInfinity | NaN

  /** JavaScript division: by zero it gives an infinity of the dividend's sign, or NaN for 0/0. */
  function Divide(a: real, b: real): (q: Num)
    ensures b != 0.0 ==> q == Finite(a / b)
    ensures b == 0.0 ==> (q == PlusInfinity <==> a > 0.0) && (q == MinusInfinity <==> a < 0.0) && (q == NaN <==> a == 0.0)
  {
    if b != 0.0 then Finite(a / b)
    else if a > 0.0 then PlusInfinity
    else if a < 0.0 then MinusInfinity
    else NaN
  }

  /** `Math.min(a, b)` with `b` finite. */
  function Min(a: Num, b: real): (m: Num)
    ensures a.Finite? ==> m.Finite? && m.x <= a.x && m.x <= b && (m.x == a.x || m.x == b)
    ensures a == PlusInfinity ==> m == Finite(b)
    ensures a == MinusInfinity ==> m == MinusInfinity
    ensures a == NaN ==> m == NaN
  {
    match a
    case Finite(x) => Finite(if x <= b then x else b)
    case PlusInfinity => Finite(b)
    case MinusInfinity => MinusInfinity
    case NaN => NaN
  }

  /** `Math.max(a, b)` with `b` finite. */
  function Max(a: Num, b: real): (m: Num)
    ensures a.Finite? ==> m.Finite? && m.x >= a.x && m.x >= b && (m.x == a.x || m.x == b)
    ensures a == PlusInfinity ==> m == PlusInfinity
    ensures a == MinusInfinity ==> m == Finite(b)
    ensures a == NaN ==> m == NaN
  {
    match a
    case Finite(x) => Finite(if x >= b then x else b)
    case PlusInfinity => PlusInfinity
    case MinusInfinity => Finite(b)
    case NaN => NaN
  }

  // ---------------------------------------------------------------------------
  // Recommended price
  // ---------------------------------------------------------------------------

  /** A competitor price the recommendation reacts to: positive and more than 10% above cost. */
  predicate Undercuttable(cost: real, competitor: Option<real>)
  {
    competitor.Some? && competitor.value > 0.0 && competitor.value > cost * 1.1
  }

  /** The markup price: cost divided by one less the target margin. */
  function BasePrice(cost: real, marginPercent: Option<real>): Num
  {
    match marginPercent
    case Some(p) => Divide(cost, 1.0 - p / 100.0)
    case None => NaN
  }

  /**
   * `calculateRecommendedPrice`: the markup price, lowered to 95% of a competitor price that
   * is more than 10% above cost, then raised to at least 5% above cost. An empty form field
   * is `None` (it parses to NaN).
   */
  function RecommendedPrice(cost: real, marginPercent: Option<real>, competitor: Option<real>): (p: Num)
    ensures p != MinusInfinity
    ensures p.Finite? ==> p.x >= cost * 1.05
    ensures marginPercent.Some? && marginPercent.value != 100.0 ==> p.Finite?
    ensures marginPercent.None? ==> p == NaN
  {
    var base := BasePrice(cost, marginPercent);
    var undercut := if Undercuttable(cost, competitor) then Min(base, competitor.value * 0.95) else base;
    Max(undercut, cost * 1.05)
  }

  /** Without a competitor to undercut, a target margin of at least 1/21 gives the markup price itself. */
  lemma RecommendedIsMarkup(cost: real, marginPercent: real, competitor: Option<real>)
    requires cost >= 0.0 && 100.0 / 21.0 <= marginPercent < 100.0
    requires !Undercuttable(cost, competitor)
    ensures RecommendedPrice(cost, Some(marginPercent), competitor) == Finite(cost / (1.0 - marginPercent / 100.0))
  {
    var d := 1.0 - marginPercent / 100.0;
    assert 0.0 < d <= 20.0 / 21.0;
    assert cost / d * d == cost;
    assert cost / d >= cost * 1.05 by {
      assert cost * 1.05 * d <= cost * 1.05 * (20.0 / 21.0) == cost;
    }
  }

  /** With a competitor to undercut and a cost that is not negative, the recommendation is below the competitor. */
  lemma RecommendedBelowCompetitor(cost: real, marginPercent: Option<real>, competitor: Option<real>)
    requires cost >= 0.0 && Undercuttable(cost, competitor)
    ensures var p := RecommendedPrice(cost, marginPercent, competitor);
      p.Finite? ==> p.x < competitor.value
  {
  }

  /** A target margin of 100% makes the markup price infinite; only a competitor brings it back. */
  lemma WholeMarginIsUnbounded(cost: real, competitor: Option<real>)
    requires cost > 0.0
    ensures var p := RecommendedPrice(cost, Some(100.0), competitor);
      if Undercuttable(cost, competitor) then p.Finite? && p.x < competitor.value else p == PlusInfinity
  {
  }

  // ---------------------------------------------------------------------------
  // Margin and its colour class
  // ---------------------------------------------------------------------------

  /** The displayed margin: profit as a percentage of the price, and 0 for a price that is not positive. */
  function MarginPercent(value: real, cost: real): (m: real)
    ensures value > 0.0 ==> m * value == (value - cost) * 100.0
    ensures value <= 0.0 ==> m == 0.0
    ensures value > 0.0 ==> (m < 0.0 <==> cost > value)
  {
    if value > 0.0 then (value - cost) / value * 100.0 else 0.0
  }

  /**
   * `toFixed(1)`: the number of tenths, rounding half away from zero (the sign is taken
   * first, then the magnitude is rounded half up).
   */
  function Tenths(x: real): (n: int)
    ensures (x * 10.0 - 0.5 < n as real <= x * 10.0 + 0.5)
         || (x < 0.0 && n as real == x * 10.0 - 0.5)
    ensures x >= 0.0 ==> n >= 0
    ensures x <= 0.0 ==> n <= 0
  {
    if x >= 0.0 then (x * 10.0 + 0.5).Floor else -((-x * 10.0 + 0.5).Floor)
  }

  datatype MarginClass = ProfitNegative | ProfitWarning | ProfitPositive

  /** The class of a margin, judged on its one-decimal display: below 0, below 15, or at least 15. */
  function ClassOf(margin: real): MarginClass
  {
    var n := Tenths(margin);
    if n < 0 then ProfitNegative else if n < 150 then ProfitWarning else ProfitPositive
  }

  /**
   * Because the class is read back from the rounded display, the boundaries sit half a
   * tenth below 0 and below 15: -0.04% is a warning, 14.95% is already positive.
   */
  lemma ClassBoundaries(margin: real)
    ensures ClassOf(margin) == ProfitNegative <==> margin <= -0.05
    ensures ClassOf(margin) == ProfitPositive <==> margin >= 14.95
    ensures ClassOf(margin) == ProfitWarning <==> -0.05 < margin < 14.95
  {
    if margin >= 0.0 {
      assert margin * 10.0 + 0.5 >= 150.0 <==> margin >= 14.95;
    } else {
      assert -margin * 10.0 + 0.5 >= 1.0 <==> margin <= -0.05;
    }
  }

  /** An item sold below cost is always shown as loss-making once the loss reaches half a tenth of a percent. */
  lemma LossShownNegative(value: real, cost: real)
    requires value > 0.0 && cost >= value * 1.0005
    ensures ClassOf(MarginPercent(value, cost)) == ProfitNegative
  {
    var m := MarginPercent(value, cost);
    LossMarginBound(m, value, cost);
    ClassBoundaries(m);
  }

  /** The margin equation alone bounds a loss of half a tenth of a percent. */
  lemma LossMarginBound(m: real, value: real, cost: real)
    requires value > 0.0 && m * value == (value - cost) * 100.0 && cost >= value * 1.0005
    ensures m <= -0.05
  {
    assert (value - cost) * 100.0 <= -0.05 * value;
    assert m * value <= -0.05 * value;
    CancelPositive(m, -0.05, value);
  }

  lemma CancelPositive(a: real, b: real, c: real)
    requires c > 0.0 && a * c <= b * c
    ensures a <= b
  {
  }

  lemma CancelPositiveStrict(a: real, b: real, c: real)
    requires c > 0.0 && a * c < b * c
    ensures a < b
  {
  }

  // ---------------------------------------------------------------------------
  // Price update
  // ---------------------------------------------------------------------------

  /**
   * `updateItemPrice` and `quickUpdateItemPrice`: for a known crafted item, set its price
   * and record it in the price list stamped `now`; an unknown id changes nothing.
   */
  method SetItemPrice(shop: Store.Shop, id: Id, price: real, now: int) returns (updated: bool)
    modifies shop
    ensures updated <==> FindCrafted(old(shop.crafted), id).Some?
    ensures !updated ==> shop.crafted == old(shop.crafted) && shop.prices == old(shop.prices)
    ensures updated ==>
      var j := FindCrafted(old(shop.crafted), id).value;
      shop.crafted == old(shop.crafted)[j := old(shop.crafted[j]).(value := price)]
      && FindPrice(shop.prices, id).Some? && shop.prices[FindPrice(shop.prices, id).value] == PriceRecord(id, price, now)
      && (match FindPrice(old(shop.prices), id)
          case Some(i) => shop.prices == old(shop.prices)[i := PriceRecord(id, price, now)]
          case None => shop.prices == old(shop.prices) + [PriceRecord(id, price, now)])
    ensures shop.materials == old(shop.materials) && shop.recipes == old(shop.recipes)
    ensures shop.queue == old(shop.queue) && shop.history == old(shop.history)
  {
    var found := FindCrafted(shop.crafted, id);
    if found.None? {
      return false;
    }
    var j := found.value;
    shop.crafted := shop.crafted[j := shop.crafted[j].(value := price)];
    shop.UpdatePrice(id, price, now);
    updated := true;
  }

  /** The new price is what the item sells for and what its price record says; the ids stay put. */
  lemma PriceUpdateAgrees(cs: seq<CraftedItem>, ps: seq<PriceRecord>, id: Id, price: real, now: int)
    requires FindCrafted(cs, id).Some?
    ensures var j := FindCrafted(cs, id).value;
      var cs' := cs[j := cs[j].(value := price)];
      var ps' := match FindPrice(ps, id)
        case Some(i) => ps[i := PriceRecord(id, price, now)]
        case None => ps + [PriceRecord(id, price, now)];
      CraftedIds(cs') == CraftedIds(cs) && FindCrafted(cs', id) == Some(j) && cs'[j].value == price
      && FindPrice(ps', id).Some? && ps'[FindPrice(ps', id).value].price == price
  {
    var j := FindCrafted(cs, id).value;
    var cs' := cs[j := cs[j].(value := price)];
    assert CraftedIds(cs') == CraftedIds(cs);
    match FindPrice(ps, id)
    case Some(i) =>
      assert PriceIds(ps[i := PriceRecord(id, price, now)]) == PriceIds(ps);
    case None =>
      assert PriceIds(ps + [PriceRecord(id, price, now)]) == PriceIds(ps) + [id];
      FirstIndexAppend(PriceIds(ps), id, id);
  }

  // ---------------------------------------------------------------------------
  // Bundles
  // ---------------------------------------------------------------------------

  /** The savings of a bundle, as a percentage of its regular price. */
  function BundleSavings(regularPrice: real, bundlePrice: real): (s: Num)
  {
    match Divide(regularPrice - bundlePrice, regularPrice)
    case Finite(f) => Finite(f * 100.0)
    case other => other
  }

  /** For a positive regular price, paying the bundle price saves exactly the stated percentage. */
  lemma BundleSavingsRecoverPrice(regularPrice: real, bundlePrice: real)
    requires regularPrice > 0.0
    ensures var s := BundleSavings(regularPrice, bundlePrice);
      s.Finite? && bundlePrice == regularPrice * (1.0 - s.x / 100.0)
      && (0.0 <= bundlePrice <= regularPrice ==> 0.0 <= s.x <= 100.0)
  {
    var f := (regularPrice - bundlePrice) / regularPrice;
    assert f * regularPrice == regularPrice - bundlePrice;
    if 0.0 <= bundlePrice <= regularPrice {
      assert 0.0 <= f * regularPrice <= regularPrice;
    }
  }
}
