/**
 * The records of the shop (js/data.js): materials, crafted items, recipes, production
 * jobs, ledger transactions and price records, the defaults their constructors apply,
 * and the lookups by id that every other part of the engine goes through.
 */
module Entities {
  import opened Wrappers
  import Calendar

  type Id = string

  // ---------------------------------------------------------------------------
  // Stock status, shared by materials and crafted items
  // ---------------------------------------------------------------------------

  datatype StockStatus = Out | Low | Normal

  /** 'out' when nothing is left, 'low' at or under the configured threshold, else 'normal'. */
  function StockStatusOf(quantity: int, threshold: int): (s: StockStatus)
    ensures s == Out <==> quantity <= 0
    ensures s == Low <==> 0 < quantity <= threshold
    ensures s == Normal <==> 0 < quantity && threshold < quantity
  {
    if quantity <= 0 then Out
    else if quantity <= threshold then Low
    else Normal
  }

  // ---------------------------------------------------------------------------
  // Inventory records
  // ---------------------------------------------------------------------------

  datatype Material = Material(id: Id, name: string, quantity: int, cost: real, category: string)
  {
    /** Stock value of the material: quantity at unit cost. */
    function Value(): real { quantity as real * cost }

    function Status(threshold: int): StockStatus { StockStatusOf(quantity, threshold) }
  }

  datatype CraftedItem = CraftedItem(id: Id, name: string, quantity: int, cost: real, value: real, category: string)
  {
    /** Stock value of the item: quantity at sale value. */
    function TotalValue(): real { quantity as real * value }

    function Profit(): real { value - cost }

    /** Profit as a percentage of the sale value; 0 for an item with no sale value. */
    function ProfitMargin(): real
    {
      if value == 0.0 then 0.0 else Profit() / value * 100.0
    }

    function Status(threshold: int): StockStatus { StockStatusOf(quantity, threshold) }
  }

  /** One line of a bill of materials: `quantity` units of item `id` per craft. */
  datatype Ingredient = Ingredient(id: Id, quantity: int)

  datatype Recipe = Recipe(id: Id, name: string, outputQuantity: int, craftingTime: int,
                           ingredients: seq<Ingredient>, value: real)

  datatype Priority = NormalPriority | HighPriority | Urgent

  datatype QueueStatus = Pending | Ready | Completed | Cancelled

  /** A queued crafting job; `timeline` is the scheduled instant. */
  datatype ProductionItem = ProductionItem(id: int, itemId: Id, quantity: int, priority: Priority,
                                           timeline: int, status: QueueStatus)

  datatype TxType = Sale | Purchase | Craft

  /** One line of a ledger entry; for a sale `value` is the unit price. */
  datatype TxItem = TxItem(id: Id, name: string, quantity: int, value: real)

  datatype Transaction = Transaction(id: int, kind: TxType, date: Calendar.Civil,
                                     items: seq<TxItem>, totalValue: real)

  /** The pricing record kept per item id; `lastUpdated` is the instant of the last change. */
  datatype PriceRecord = PriceRecord(id: Id, price: real, lastUpdated: int)

  // ---------------------------------------------------------------------------
  // Constructor defaults (the `x || default` arguments of the record classes)
  // ---------------------------------------------------------------------------

  /** A new material: an empty category falls back to 'raw'. */
  function NewMaterial(id: Id, name: string, quantity: int, cost: real, category: string): (m: Material)
    ensures m.id == id && m.name == name && m.quantity == quantity && m.cost == cost
    ensures m.category != ""
    ensures category != "" ==> m.category == category
    ensures category == "" ==> m.category == "raw"
  {
    Material(id, name, quantity, cost, if category == "" then "raw" else category)
  }

  /** A new crafted item: an empty category falls back to 'misc'. */
  function NewCraftedItem(id: Id, name: string, quantity: int, cost: real, value: real,
                          category: string): (c: CraftedItem)
    ensures c.id == id && c.name == name && c.quantity == quantity && c.cost == cost && c.value == value
    ensures c.category != ""
    ensures category != "" ==> c.category == category
    ensures category == "" ==> c.category == "misc"
  {
    CraftedItem(id, name, quantity, cost, value, if category == "" then "misc" else category)
  }

  /** A new recipe: an output quantity of 0 becomes 1 and a crafting time of 0 becomes 5 minutes. */
  function NewRecipe(id: Id, name: string, outputQuantity: int, craftingTime: int,
                     ingredients: seq<Ingredient>, value: real): (r: Recipe)
    ensures r.outputQuantity != 0 && r.craftingTime != 0
    ensures outputQuantity != 0 ==> r.outputQuantity == outputQuantity
    ensures craftingTime != 0 ==> r.craftingTime == craftingTime
    ensures outputQuantity == 0 ==> r.outputQuantity == 1
    ensures craftingTime == 0 ==> r.craftingTime == 5
    ensures r.id == id && r.name == name && r.ingredients == ingredients && r.value == value
  {
    Recipe(id, name, if outputQuantity == 0 then 1 else outputQuantity,
           if craftingTime == 0 then 5 else craftingTime, ingredients, value)
  }

  /** A new production job: quantity 0 becomes 1, priority defaults to normal and status to pending. */
  function NewProductionItem(id: int, itemId: Id, quantity: int, priority: Option<Priority>,
                             timeline: int, status: Option<QueueStatus>): (p: ProductionItem)
    ensures p.quantity != 0
    ensures quantity != 0 ==> p.quantity == quantity
    ensures quantity == 0 ==> p.quantity == 1
    ensures p.priority == (if priority.Some? then priority.value else NormalPriority)
    ensures p.status == (if status.Some? then status.value else Pending)
    ensures p.id == id && p.itemId == itemId && p.timeline == timeline
  {
    ProductionItem(id, itemId, if quantity == 0 then 1 else quantity,
                   if priority.Some? then priority.value else NormalPriority, timeline,
                   if status.Some? then status.value else Pending)
  }

  // ---------------------------------------------------------------------------
  // Lookups by id: `Array.prototype.find` returns the FIRST record with the id
  // ---------------------------------------------------------------------------

  /** Position of the first occurrence of `k` in `keys`. */
  function FirstIndex<K(==)>(keys: seq<K>, k: K): (r: Option<nat>)
    ensures r.Some? ==> r.value < |keys| && keys[r.value] == k
    ensures r.Some? ==> forall j :: 0 <= j < r.value ==> keys[j] != k
    ensures r.None? <==> k !in keys
  {
    if |keys| == 0 then None
    else if keys[0] == k then Some(0)
    else match FirstIndex(keys[1..], k)
      case None => None
      case Some(i) => Some(i + 1)
  }

  // The id column of each record list. The record types share no common supertype, so
  // each list has its own projection, and the lookups below are `FirstIndex` over it.

  function MaterialIds(ms: seq<Material>): (ids: seq<Id>)
    ensures |ids| == |ms| && forall i :: 0 <= i < |ms| ==> ids[i] == ms[i].id
  {
    seq(|ms|, i requires 0 <= i < |ms| => ms[i].id)
  }

  function CraftedIds(cs: seq<CraftedItem>): (ids: seq<Id>)
    ensures |ids| == |cs| && forall i :: 0 <= i < |cs| ==> ids[i] == cs[i].id
  {
    seq(|cs|, i requires 0 <= i < |cs| => cs[i].id)
  }

  function RecipeIds(rs: seq<Recipe>): (ids: seq<Id>)
    ensures |ids| == |rs| && forall i :: 0 <= i < |rs| ==> ids[i] == rs[i].id
  {
    seq(|rs|, i requires 0 <= i < |rs| => rs[i].id)
  }

  function PriceIds(ps: seq<PriceRecord>): (ids: seq<Id>)
    ensures |ids| == |ps| && forall i :: 0 <= i < |ps| ==> ids[i] == ps[i].id
  {
    seq(|ps|, i requires 0 <= i < |ps| => ps[i].id)
  }

  function QueueIds(qs: seq<ProductionItem>): (ids: seq<int>)
    ensures |ids| == |qs| && forall i :: 0 <= i < |qs| ==> ids[i] == qs[i].id
  {
    seq(|qs|, i requires 0 <= i < |qs| => qs[i].id)
  }

  function FindMaterial(ms: seq<Material>, id: Id): Option<nat> { FirstIndex(MaterialIds(ms), id) }
  function FindCrafted(cs: seq<CraftedItem>, id: Id): Option<nat> { FirstIndex(CraftedIds(cs), id) }
  function FindRecipe(rs: seq<Recipe>, id: Id): Option<nat> { FirstIndex(RecipeIds(rs), id) }
  function FindPrice(ps: seq<PriceRecord>, id: Id): Option<nat> { FirstIndex(PriceIds(ps), id) }
  function FindQueueItem(qs: seq<ProductionItem>, id: int): Option<nat> { FirstIndex(QueueIds(qs), id) }

  /** Appending a record with a different id leaves a lookup where it was. */
  lemma {:induction false} FirstIndexAppend<K>(keys: seq<K>, x: K, k: K)
    ensures FirstIndex(keys + [x], k) == if k in keys then FirstIndex(keys, k)
                                         else if x == k then Some(|keys|) else None
  {
    if |keys| > 0 {
      assert (keys + [x])[1..] == keys[1..] + [x];
      if keys[0] != k {
        FirstIndexAppend(keys[1..], x, k);
      }
    }
  }
}
