# Blacksmith shop bookkeeping engine, in Dafny

This project models the bookkeeping core of the NSRP blacksmith tool, a browser application
that runs the books of a RedM blacksmith business. The shop keeps:

- two stock lists: materials, valued at cost, and crafted items, valued at their sale value;
- recipes: bills of materials with an output quantity, a crafting time and a sale value;
- a price list;
- a production queue of crafting jobs;
- a ledger of sale, purchase and craft transactions;
- client contracts.

The model covers what the pages compute from that state and how they change it:

- recipe cost and feasibility, crafting and starting a production job;
- the store's add, remove and update operations, and the import functions;
- contract requirements, financials, production plan and feasibility verdict;
- the production queue form, display order, edit and delete;
- the report totals, per-period groups and per-product performance with its ranking;
- the recommended price, the margin colour class and price updates;
- the dashboard totals and warnings;
- the inventory and recipe edit rules.

Module layout, one module per file:

- `Entities`: records, constructor defaults and lookups by id.
- `Crafting`: recipe getters, `canCraft` and `getMissingMaterials`.
- `Jobs`: production-job getters.
- `Store`: the shop's global arrays as one class `Shop` with in-place methods.
- `Contracts`, `Production`, `Reports`, `Pricing`, `Dashboard`, `Inventory`, `Recipes`: one page each.
- `Calendar`, `Buckets`, `Seqs`, `Text`, `Wrappers`: support for dates, keyed accumulation, filter and stable sort, strings, and `Option`/`Result`.

Money is `real`; quantities are `int`. Where JavaScript leaves the reals (division by zero, an
empty form field), `Pricing.Num` carries `Infinity` and `NaN` explicitly. The clock, the
`Date.now()` ids and the confirm dialogs are parameters (`now`, `freshId`, `confirmed`).

## Model

| member | source | states |
|---|---|---|
| Entities.StockStatusOf | js/data.js:24-28 | 'out' iff quantity ≤ 0, 'low' iff 0 < quantity ≤ threshold, 'normal' iff above the threshold; the same rule serves materials and crafted items (js/data.js:55-59) |
| Entities.NewMaterial | js/data.js:12-18 | the constructor keeps every field; an empty category becomes 'raw' and any other is kept |
| Entities.NewCraftedItem | js/data.js:33-40 | the constructor keeps every field; an empty category becomes 'misc' and any other is kept |
| Entities.NewRecipe | js/data.js:64-71 | an output quantity of 0 becomes 1 and a crafting time of 0 becomes 5; everything else is kept |
| Entities.NewProductionItem | js/data.js:247-254 | quantity 0 becomes 1, an absent priority is normal, an absent status is pending |
| Entities.FirstIndex | js/data.js:339-357 | the find-by-id lookups return the first record with the id, and nothing exactly when no record has it |
| Entities.FirstIndexAppend | js/data.js:339-357 | appending a record with another id leaves every lookup where it was |
| Crafting.Resolve | js/data.js:76-87 | an ingredient id resolves to the first material with it, else the first crafted item, else to nothing; a material shadows a crafted item |
| Crafting.ComputeCost | js/data.js:73-90 | the getter's loop sums, line by line, material cost × quantity, crafted-item value × quantity, or 0 for an unresolved id |
| Crafting.CostConcat | js/data.js:73-90 | the cost is additive over a split bill of materials |
| Crafting.CostSamePrices | js/data.js:73-90 | the cost depends only on the unit prices of the ingredient ids, not on stock levels |
| Crafting.ProfitPerUnit | js/data.js:92-102 | profit = output quantity × unit profit, with unit cost = cost / output quantity |
| Crafting.MarginSign | js/data.js:104-107 | for a positive value the margin has the sign of the unit profit |
| Crafting.CheckCanCraft | js/data.js:110-132 | the early-exit loop answers true iff every ingredient line is resolved and in stock at quantity × q |
| Crafting.MissingFor | js/data.js:135-179 | a line yields a shortage iff it is not covered; required = quantity × q, missing = required − available, available is the stock (0 when unresolved) |
| Crafting.CanCraftIffNoShortage | js/data.js:110-179 | `canCraft(q)` holds iff `getMissingMaterials(q)` is empty |
| Crafting.UnknownIngredientBlocks | js/data.js:118-127 | an ingredient in neither inventory makes `canCraft` false for every quantity |
| Crafting.GetMissingMaterials | js/data.js:135-179 | the loop lists the shortages in ingredient order |
| Jobs.JobRecipe | js/data.js:256-263 | a job's recipe is the first recipe with its item id, and there is one exactly when such a recipe exists |
| Jobs.EstimatedProfitScales | js/data.js:265-298 | a job estimates its recipe's profit and time per craft times its quantity; without a recipe it estimates 0 and shows its item id |
| Jobs.ReadyIffCraftable | js/data.js:279-293 | 'ready' iff the recipe exists and can be crafted the job's number of times; 'missing' iff the job lists shortages |
| Store.ConsumeAllKeepsRecords | js/data.js:188-207 | crafting changes quantities only: every record keeps id, name, price and category |
| Store.ConsumeAllMaterial | js/data.js:188-207 | a material loses the whole demand for its id × q when it is the first with that id, and nothing otherwise |
| Store.ConsumeAllCrafted | js/data.js:188-207 | a crafted item loses the demand × q only when it is the first with its id and no material has that id |
| Store.DemandOfDistinct | js/data.js:188-207 | with distinct ingredient ids, the demand for a line's id is exactly that line's quantity |
| Store.CraftKeepsMaterialsNonNegative | js/data.js:183-207 | with distinct ingredient ids, a craftable recipe leaves every non-negative material quantity non-negative |
| Store.RepeatedLineOverdraws | js/data.js:110-132 | two lines of the same id both pass the per-line check and overdraw the stock to −1 |
| Store.Produce | js/data.js:209-216 | the first crafted item with the recipe id rises by output × q and every other item is kept; with none, a new item is listed with the unit cost, the value and category 'crafted' |
| Store.OutcomeBalances | js/data.js:219-226 | the reported profit is the reported value less the reported cost |
| Store.CraftTransaction | js/data.js:317-332 | the ledger entry is a craft with one line whose quantity and value are the craft's, and whose total is the craft's value |
| Store.ApplyJobUpdate | js/data.js:477-484 | each of the five updatable fields takes the update's value when given and keeps its old value otherwise |
| Store.ImportedMaterials | js/data.js:494-506 | imported materials keep every field, except that an empty category becomes 'raw' |
| Store.ImportedCrafted | js/data.js:494-506 | imported crafted items keep every field, except that an empty category becomes 'misc' |
| Store.ImportedRecipes | js/data.js:512-523 | imported recipes keep every field, except that an output of 0 becomes 1 and a crafting time of 0 becomes 5 |
| Store.ImportedQueue | js/data.js:529-540 | every imported job keeps id, item id and timeline; a quantity of 0 becomes 1 and any other is kept; an absent priority is normal and an absent status pending, a given one is kept |
| Store.ImportIdempotent | js/data.js:494-523 | importing an already imported list changes nothing |
| Store.Forgotten | js/data.js:468-475 | removing a job drops exactly the first entry with the id and keeps the others in order; an unknown id changes nothing |
| Store.Enqueue | js/data.js:458-466 | a job without an id (0) is stored with the fresh id and otherwise unchanged; a job with an id is stored as given |
| Store.ConsumedPricing | js/data.js:188-216 | consuming the lines of a craftable recipe leaves its cost unchanged and every ingredient resolvable |
| Store.AppendKeepsPrices | js/data.js:209-216 | listing a new crafted item does not reprice a recipe whose ingredients are all in stock |
| Store.Shop.constructor | js/data.js:559 | the ledger starts empty before any data is loaded |
| Store.Shop.Craft | js/data.js:182-227 | `craft(q)` fails with no change when `canCraft` fails; otherwise stock is consumed line by line, the output is stored and the report returned |
| Store.Shop.TakeIngredients | js/data.js:188-207 | the consuming loop leaves exactly the stock `ConsumeAll` describes |
| Store.Shop.StoreOutput | js/data.js:209-216 | the output step updates only the crafted list and keeps the recipe's cost |
| Store.Shop.StartProduction | js/data.js:301-335 | a missing or uncraftable recipe fails with no change; otherwise the craft happens, the job is completed and one craft entry is appended |
| Store.Shop.AddMaterial | js/data.js:360-372 | a known id gets the quantity added and the new cost; otherwise the material is appended |
| Store.Shop.RemoveMaterial | js/data.js:374-386 | an unknown id or too little stock fails with no change; otherwise the quantity drops by exactly the amount |
| Store.Shop.AddCraftedItem | js/data.js:388-401 | the first crafted item with the id gains the quantity and takes the new cost and value, with every other field and record kept; an unknown id appends the item; the other lists are unchanged |
| Store.Shop.RemoveCraftedItem | js/data.js:403-415 | an unknown id or too little stock fails with no change; otherwise the quantity drops by exactly the amount |
| Store.Shop.AddRecipe | js/data.js:417-428 | a known id replaces the first recipe with it; otherwise the recipe is appended |
| Store.Shop.RemoveRecipe | js/data.js:430-437 | the first recipe with the id is removed; reports whether there was one |
| Store.Shop.UpdatePrice | js/data.js:439-456 | the price record for the id is overwritten or appended, stamped `now` |
| Store.Shop.AddToProductionQueue | js/data.js:458-466 | the job goes to the back of the queue |
| Store.Shop.RemoveFromProductionQueue | js/data.js:468-475 | the first job with the id is removed |
| Store.Shop.UpdateProductionQueueItem | js/data.js:477-484 | the first job with the id takes the given fields; an unknown id changes nothing |
| Store.Shop.ImportInventoryData | js/data.js:494-506 | a present list replaces the inventory, rebuilt through the constructors |
| Store.Shop.ImportRecipeData | js/data.js:512-523 | the recipe list is replaced, rebuilt through the constructor |
| Store.Shop.ImportProductionData | js/data.js:529-540 | the queue is replaced, rebuilt through the constructor |
| Store.Shop.ImportTransactionHistory | js/data.js:546-556 | the ledger is replaced by the imported one |
| Contracts.LineNeeds | js/contracts.js:41-42 | an ordered item needs each ingredient line of its recipe scaled by the ordered quantity |
| Contracts.TallyDescribes | js/contracts.js:29-69 | one requirement per ingredient id, the ids in order of first appearance (`Seqs.Dedup`), each holding the total required, the stock, and the sum of per-line shortfalls max(0, required − stock) |
| Contracts.TallyLine | js/contracts.js:38-66 | the inner loop tallies one ordered item's lines onto the table |
| Contracts.ShortfallZero | js/contracts.js:58-64 | the summed shortfall of an id is 0 iff every line for it is covered on its own |
| Contracts.FeasibleIffEachNeedCovered | js/contracts.js:143-162 | a contract is feasible iff every ingredient line of every ordered item is covered by stock on its own |
| Contracts.FeasibleThoughShortInTotal | js/contracts.js:58-64 | two orders needing 3 iron each pass against 5 iron although 6 are needed |
| Contracts.Shortages | js/contracts.js:143-162 | the shortage list is empty iff no requirement has something to produce |
| Contracts.ItemTotals | js/contracts.js:75-100 | the loop sums recipe cost × quantity and value × output × quantity over the items with a recipe |
| Contracts.PlanJob | js/contracts.js:113-137 | a pending job for the item: urgent with the deadline as timeline when there is one, else normal in 30 days |
| Contracts.Plan | js/contracts.js:113-137 | every job is numbered idBase + its position, pending, and for an item with a recipe; no more jobs than lines |
| Contracts.PlanFollowsLines | js/contracts.js:113-137 | job k of the plan is the job for the k-th ordered line whose item has a recipe: one job per such line, in line order, and no other |
| Contracts.PlanMatchesCost | js/contracts.js:75-137 | the plan's job cost estimates add up to the contract's item cost |
| Contracts.PlanMatchesRevenue | js/contracts.js:75-137 | the plan's job value estimates add up to the contract's item revenue |
| Contracts.Contract.constructor | js/contracts.js:13-23 | a new contract is pending, stamped `now`, with no completion instant |
| Contracts.Contract.CalculateMaterialRequirements | js/contracts.js:29-69 | the method's table is the tally of all needs, and that table describes them |
| Contracts.Contract.CalculateFinancials | js/contracts.js:75-106 | cost = item cost + extra cost, revenue = item revenue, net = revenue − cost; the margin is net/revenue × 100, absent for zero revenue |
| Contracts.Contract.GenerateProductionPlan | js/contracts.js:113-137 | the method builds exactly `Plan` |
| Contracts.ListShortages | js/contracts.js:145-156 | the shortage list is exactly the requirements with something left to produce, in table order |
| Contracts.Contract.ValidateContractFeasibility | js/contracts.js:143-162 | canFulfill iff every line is covered; the shortages are exactly the requirements with something to produce |
| Contracts.Contract.UpdateStatus | js/contracts.js:168-174 | the status is always set; the completion instant only when completing |
| Contracts.KeptLines | js/contracts.js:326-339 | every kept line has an item and a positive quantity, and every such row is kept |
| Contracts.KeptLinesAreKeptRows | js/contracts.js:326-339 | the kept lines are exactly the rows with an item and a positive quantity, one line per row, in row order |
| Contracts.ContractBook.AddContract | js/contracts.js:364-394 | the contract goes to the end of the list |
| Contracts.ContractBook.AddNewContract | js/contracts.js:310-358 | a missing name or client, or no usable row, is refused with no change; otherwise a pending contract with the kept rows is appended |
| Contracts.EnqueuePlan | js/contracts.js:665-671 | every planned job is appended to the queue in plan order through `addToProductionQueue`; the rest of the shop is unchanged |
| Contracts.ContractBook.StartContractProduction | js/contracts.js:635-686 | an infeasible or unconfirmed contract leaves the contract and the shop unchanged; otherwise the plan is appended to the queue and the contract goes in progress with its other fields kept |
| Production.StockLineFor | js/production.js:183-196 | a stock line shows the stock (0 when unknown), the requirement quantity × q, and 'sufficient' iff stock ≥ requirement |
| Production.InventoryStatus | js/production.js:174-200 | one stock line per ingredient, in recipe order |
| Production.SufficientIffAvailable | js/production.js:183-196 | 'sufficient' agrees with `canCraft`'s line check for stocked ingredients; an unknown one is 'sufficient' only when nothing is needed |
| Production.AllSufficientIffCanCraft | js/production.js:174-200 | every line sufficient and stocked iff `canCraft` |
| Production.ProductionSummary | js/production.js:215-218 | profit = value − cost in the summary |
| Production.SummaryForecastsCraft | js/production.js:207-231 | the summary's cost, value and profit are what crafting reports |
| Production.SummaryMatchesJob | js/production.js:207-231 | the summary equals a queued job's estimates, minutes included |
| Production.FormError | js/production.js:250-275 | the form is refused iff no recipe, no positive quantity or no valid date |
| Production.AddJobFromForm | js/production.js:236-286 | a refused form leaves the queue unchanged; otherwise exactly one pending job is appended |
| Production.Rank | js/production.js:299-305 | urgent 0, high 1, normal 2 |
| Production.ShownBeforeIsPreorder | js/production.js:299-305 | the display comparator is total and transitive |
| Production.DisplayOrder | js/production.js:299-305 | the display order is a permutation of the queue |
| Production.DisplayedRowsProperties | js/production.js:299-310 | the rows are sorted by rank then timeline, hold every job that is not completed as often as the queue does, and keep the queue order among ties |
| Production.UpdateProductionItem | js/production.js:489-520 | a positive quantity and valid date overwrite quantity, priority and timeline of the first job with the id; otherwise nothing changes |
| Production.WithoutKeepsOthers | js/production.js:550 | deleting keeps every other job as often as it occurred and drops every job with the id |
| Production.WithoutIsForgottenWhenUnique | js/production.js:548-557 | with the id at most once, the page's filter and the store's remove agree |
| Production.DeleteProductionItem | js/production.js:548-557 | the queue becomes its filtered copy |
| Production.StartJob | js/production.js:389-434 | succeeds iff the job exists and its materials are ready; then the stock is consumed, the output stored, the job completed, one craft entry appended after the old history, and the craft report returned; otherwise nothing changes |
| Reports.DateRange | js/reports.js:75-107 | the range ends now and starts at midnight of the period's first day |
| Reports.StartNotAfterNow | js/reports.js:75-107 | every period starts on or before today, so start ≤ end |
| Reports.WeekStartsOnSunday | js/reports.js:83-86 | the week starts on the Sunday of the current week |
| Reports.MonthAndQuarterStarts | js/reports.js:88-97 | the month starts on day 1, the quarter on day 1 of month ⌊m/3⌋×3, the year on 1 January |
| Reports.InRange | js/reports.js:115-120 | every kept entry is dated inside the inclusive range |
| Reports.InRangeKeeps | js/reports.js:115-120 | an entry is kept, as often as it occurs, iff its date is inside the range |
| Reports.CraftItemsCost | js/reports.js:136-143 | the inner loop sums crafted-item cost × quantity over the resolvable lines |
| Reports.SummaryMetrics | js/reports.js:126-171 | revenue is the sales' totals, costs the purchases' totals plus craft costs, net = revenue − costs, margin = net/revenue × 100 or 0 for no positive revenue |
| Reports.SumFlows | js/reports.js:128-145 | the loop adds up the sales as revenue and the purchases plus the crafted items at today's cost as costs |
| Reports.QuarterKeysSeparateMonths | js/reports.js:260-262 | within a quarter the keys are "Month 1" to "Month 3", one per month |
| Reports.GroupTransactionsByDate | js/reports.js:242-294 | the loop builds exactly the grouped flows |
| Reports.GroupsAddUp | js/reports.js:242-294 | the groups' revenue and costs add up to the summary totals |
| Reports.GroupsDescribe | js/reports.js:242-294 | one group per key met, in order of first appearance, each holding the revenue and costs of its entries |
| Reports.CalculateProductPerformance | js/reports.js:369-396 | the loops build exactly the per-product figures of the sale lines |
| Reports.AddSaleLines | js/reports.js:374-391 | the inner loop extends the figures by one sale's lines |
| Reports.AddSaleLine | js/reports.js:375-390 | one line opens the product's entry if needed, then adds its revenue, units and profit |
| Reports.PerformanceDescribes | js/reports.js:369-396 | one entry per product sold, in order of first sale, holding the sums over that product's sale lines |
| Reports.PerfBalances | js/reports.js:383-390 | a product's profit is its revenue less today's unit cost × units sold |
| Reports.Rankings | js/reports.js:413-414 | the ranking is a permutation of the products |
| Reports.TopProducts | js/reports.js:314-316 | the top list has min(maxItems, count) entries |
| Reports.EarnsMoreIsPreorder | js/reports.js:413-414 | the revenue comparator is total and transitive |
| Reports.RankingsOrdered | js/reports.js:314-316 | the ranking is by descending revenue, ties keep the order of the performance table (first-sale order, by PerformanceDescribes); nothing left out earned more than anything shown |
| Pricing.Divide | js/pricing.js:158 | JavaScript division: the quotient, or an infinity of the dividend's sign, or NaN for 0/0 |
| Pricing.RecommendedPrice | js/pricing.js:141-173 | never −Infinity, at least cost × 1.05 when finite, finite for a margin other than 100, NaN without a margin |
| Pricing.RecommendedIsMarkup | js/pricing.js:158-169 | without a competitor to undercut and a margin of at least 1/21, the price is cost/(1 − margin) |
| Pricing.RecommendedBelowCompetitor | js/pricing.js:161-166 | with a competitor to undercut, a finite recommendation is below the competitor price |
| Pricing.WholeMarginIsUnbounded | js/pricing.js:158-169 | a 100% margin gives +Infinity unless a competitor caps it |
| Pricing.MarginPercent | js/pricing.js:121-131 | margin × value = (value − cost) × 100 for a positive value, else 0; negative iff sold below cost |
| Pricing.Tenths | js/pricing.js:225-232 | `toFixed(1)` rounds to the nearest tenth, half away from zero |
| Pricing.ClassBoundaries | js/pricing.js:225-232 | read from the rounded display, negative iff margin ≤ −0.05, positive iff margin ≥ 14.95, warning in between |
| Pricing.LossShownNegative | js/pricing.js:121-131 | a loss of at least 0.05% of the price is always shown negative |
| Pricing.SetItemPrice | js/pricing.js:178-202 | a known item takes the price as its value and its price record is upserted; an unknown id changes nothing (also js/pricing.js:337-356) |
| Pricing.PriceUpdateAgrees | js/pricing.js:192-195 | after the update the item sells for the price and its record says the price |
| Pricing.BundleSavingsRecoverPrice | js/pricing.js:447 | savings% = (regular − bundle)/regular × 100, so bundle = regular × (1 − savings/100), within 0..100 for a bundle price within 0..regular |
| Dashboard.TotalRevenueOfSales | js/app/dashboard-helpers.js:107-117 | the revenue of the ledger is the sum of the sales' totals only |
| Dashboard.TotalRevenueConcat | js/app/dashboard-helpers.js:107-117 | revenue is additive over the ledger |
| Dashboard.TotalOrdersConcat | js/app/dashboard-helpers.js:166-176 | the order count is additive over the ledger |
| Dashboard.UnitsNonNegative | js/app/dashboard-helpers.js:166-176 | with no negative quantity the unit count is not negative |
| Dashboard.ProfitAsWrittenUndercounts | js/app/dashboard-helpers.js:123-140 | as written, two swords sold at 10 costing 4 show a profit of 2 where 12 was made |
| Dashboard.TotalProfitOfSingleUnits | js/app/dashboard-helpers.js:123-140 | the written and the corrected profit agree when every line sells one unit |
| Dashboard.MaterialsValueNonNegative | js/app/dashboard-helpers.js:146-160 | materials with non-negative quantity and cost have non-negative value |
| Dashboard.CraftedValueNonNegative | js/app/dashboard-helpers.js:146-160 | crafted items with non-negative quantity and value have non-negative value |
| Dashboard.InventoryValue | js/app/dashboard-helpers.js:146-160 | the running sums give Σ quantity × cost over materials plus Σ quantity × value over crafted items |
| Dashboard.LowStockRowsListed | js/app/dashboard-helpers.js:182-208 | every row is at or under the threshold, and each record is listed as often as it occurs exactly when it is |
| Dashboard.CheckLowStockItems | js/app/dashboard-helpers.js:182-208 | the two scans list the low materials, then the low crafted items, each in order |
| Dashboard.NegativeMarginRows | js/app/dashboard-helpers.js:214-231 | every row has margin = value − cost < 0 |
| Dashboard.CheckNegativeProfitMargins | js/app/dashboard-helpers.js:214-231 | the scan builds exactly the negative-margin rows |
| Dashboard.NegativeMarginsFlagged | js/app/dashboard-helpers.js:214-231 | an item is flagged, as often as it occurs, iff it sells under cost |
| Inventory.UpdateCraftedItemsCost | js/inventory.js:318-329 | the loop writes each recipe's unit cost into the first crafted item with its id, and changes nothing else |
| Inventory.CostsPushedDescribes | js/inventory.js:318-325 | whatever the recipe order, the first crafted item of an id ends with the unit cost of the last recipe of that id; every other field and record is untouched |
| Inventory.CostsPushedIdempotent | js/inventory.js:318-325 | running the update twice changes nothing more |
| Inventory.SameButCostPrices | js/data.js:84 | writing costs into crafted items never changes a recipe's unit cost, because crafted ingredients are priced at their value |
| Inventory.AddInventoryItem | js/inventory.js:410-452 | an empty name or id, or an id used in either list, is refused with no change; otherwise one record is appended to the chosen list only |
| Inventory.AddKeepsIdsDistinct | js/inventory.js:424-428 | the duplicate check keeps every id on at most one record across both lists |
| Inventory.UpdateInventoryItem | js/inventory.js:532-578 | the first record with the id takes name, quantity, cost and category (and value for crafted items); an unknown id or empty name changes nothing |
| Inventory.DeleteInventoryItem | js/inventory.js:609-629 | the chosen list keeps the records with other ids, in order; the other list is untouched |
| Inventory.DeleteRemovesEveryCopy | js/inventory.js:610-622 | afterwards no record has the id, and every other record is kept as often as it was |
| Inventory.UpdateMaterialQuantity | js/inventory.js:240-261 | the first material with the id takes the quantity; an unknown id changes nothing |
| Inventory.UpdateCraftedItemQuantity | js/inventory.js:294-310 | the first crafted item with the id takes the quantity and nothing else changes; an unknown id changes nothing |
| Inventory.UpdateMaterialCost | js/inventory.js:267-288 | the first material with the id takes the cost, then the unit costs are pushed again |
| Inventory.MaterialsSummaryConcat | js/inventory.js:204-234 | the material summary (count, units, Σ quantity × cost) is additive over the list |
| Inventory.CraftedSummaryConcat | js/inventory.js:204-234 | the crafted summary (count, units, Σ quantity × value) is additive over the list |
| Inventory.RowVisibleIff | js/inventory.js:657-660 | a row is shown iff the lower-cased term occurs in the lower-cased name and the category filter is 'all' or equal |
| Text.Slug | js/inventory.js:402 | the generated id is no longer than the name |
| Text.SlugIsSlug | js/inventory.js:402 | a generated id has no whitespace and no capitals (also js/recipes.js:433) |
| Text.SlugIdempotent | js/inventory.js:402 | generating an id from a generated id changes nothing |
| Text.SlugCollapsesRun | js/inventory.js:402 | a whole whitespace run becomes one dash |
| Text.SlugWithoutSpaces | js/inventory.js:402 | a name without whitespace is only lower-cased |
| Text.ContainsIffSubstring | js/inventory.js:658 | `includes` holds iff the term occurs at some position |
| Recipes.CollectIngredients | js/recipes.js:518-533 | the loop keeps exactly the rows with an id and a positive quantity, in row order |
| Recipes.CollectedRows | js/recipes.js:518-533 | each usable row is kept as often as it was entered, and no other |
| Recipes.AddRecipeError | js/recipes.js:503-533 | the form is refused iff the name or id is empty, the id is taken, or no row is usable |
| Recipes.AddNewRecipe | js/recipes.js:494-556 | a refused form changes nothing; otherwise exactly one recipe is appended and its price upserted |
| Recipes.AddedRecipeFound | js/recipes.js:536-549 | an added recipe is found by its id afterwards, and it is the only one with that id |
| Recipes.EditRecipeError | js/recipes.js:683-719 | the corrected edit is refused iff the recipe is unknown, the name empty, the output below 1 or no row usable |
| Recipes.UpdateRecipe | js/recipes.js:683-739 | the first recipe with the id takes the form's fields, its price record is updated in place or appended with every other record kept, and the unit costs are pushed; a refused form changes nothing |
| Recipes.EditKeepsOutput | js/recipes.js:722-735 | the corrected edit keeps every recipe producing at least one unit |
| Recipes.UpdateRecipePrice | js/recipes.js:810-832 | the first recipe with the id takes the value, its price record is updated in place or appended with every other record kept, and costs pushed; an unknown id changes nothing |
| Recipes.RepriceKeepsUnitCost | js/recipes.js:810-832 | repricing a recipe leaves its unit cost unchanged |
| Recipes.DeleteRecipe | js/recipes.js:858-867 | the recipes with other ids remain, in order |
| Recipes.DeleteKeepsRecipes | js/recipes.js:860 | afterwards no recipe has the id, and every other recipe is kept as often as it was |
| Recipes.UpdateRecipeIngredient | js/recipes.js:244-265 | only the first matching line of the first matching recipe takes the quantity and costs are pushed; an unknown recipe or ingredient changes nothing |
| Recipes.IngredientChangeCost | js/recipes.js:250-258 | changing one line's quantity changes the recipe cost by that line's cost difference alone |
| Recipes.LineCostChange | js/recipes.js:250-258 | a line's cost moves by its unit price × the change in quantity |
| Recipes.MarkupPrice | js/recipes.js:756 | the dialog's price exceeds the unit cost by cost × margin/100 (also js/recipes.js:787) |
| Recipes.MarkupFallsShortOfMargin | js/recipes.js:787 | at 30% the markup price of 10 is 13, whose margin on price is 300/13 < 30 |
| Recipes.MarginPrice | js/pricing.js:158 | a price is given exactly when the target margin on price is below 100% |
| Recipes.NoPriceReachesWholeMargin | js/pricing.js:121-131 | for a positive cost no price has a margin on price of 100% or more, so the refused targets are unreachable |
| Recipes.MarginPriceHitsTarget | js/pricing.js:121-131 | for a positive cost that price shows exactly the target margin and equals the pricing page's base price |

## Left out

- Rendering, `innerHTML` templates, event wiring and modal dialogs; a confirm dialog is the `confirmed` parameter.
- Local storage, JSON import and export files and the file reader (js/app/dataManagement.js); the import functions of js/data.js are modelled on already parsed lists.
- Navigation, theme, tabs and alerts (js/app.js, js/app/core.js, js/app/helpers.js), and `toFixed` strings other than the margin class.
- The demo ledger generator, which depends on `Math.random`; the CSV download, the export and print stubs, and the sample bundles.
- `Date.now()` ids and the clock: they are parameters.
- NaN from `parseInt`/`parseFloat` on a malformed field: inputs are already numbers. The exceptions are an invalid date and an empty competitor price, which are `None`.
- Binary floating point: money is exact `real`, so `toFixed(1)` rounding is modelled on reals, not on doubles.
- `toLowerCase` and the id slug: only ASCII capitals are lower-cased. `\s` is the full JavaScript whitespace class.
- Reports.KeyOf: group keys are a datatype, not the locale strings of `toLocaleDateString`. Two different dates never share a key unless the source would give them the same string for that period.
- Reports.GroupTransactionsByDate: JavaScript's object key order (integer-like keys first) is not modelled; groups are in order of first appearance.
- Contracts.TallyDescribes: the requirement table is a JavaScript object keyed by ingredient id, whose integer-like keys (such as "42") come first in ascending order; the model keeps every id in order of first appearance.
- Reports.PerformanceDescribes: the same object key order applies to the product-performance table, so the model's first-sale order, and with it the tie order of Reports.RankingsOrdered, holds for ids that are not integer-like.
- Contracts.Contract.CalculateFinancials: with zero revenue the source computes the margin as `net / 0 * 100` (NaN or ±Infinity) and formats it with `toFixed(2)`; the model returns `None` there.
- Reports.DateRange: local time has no daylight-saving shifts; an instant is local milliseconds.
- Store.Shop.Craft: records are values, so aliasing between a stored record and a caller's copy is not modelled.
- The global name clash between `addToProductionQueue` in js/data.js and in js/production.js: both are modelled (Store.Shop.AddToProductionQueue and Production.AddJobFromForm). Which one a page calls depends on script load order, which is not part of this model.
- Store.ApplyJobUpdate: an update names only itemId, quantity, priority, timeline and status; `Object.assign` in the source would also overwrite an `id` or any other property the update object carries, which the model does not represent.
- Contracts.ContractBook.StartContractProduction: only the confirmed branch adds to the queue; the dialog text is left out.
- Recipes.UpdateRecipe: models the corrected edit (output at least 1, see Findings); an unknown id is a failure result rather than a silent return, with the same unchanged state.

## Findings

| source | as written | input that shows it | evidently intended | confidence | as-written member | corrected member |
|---|---|---|---|---|---|---|
| js/app/dashboard-helpers.js:133 | a sale line adds `item.value − cost × quantity`: the unit price is not multiplied by the quantity | one sale of 2 swords at 10 each, costing 4 each: profit shown 2, made 12 | `item.value × quantity − cost × quantity`, as the reports page computes it | high, not executed | Dashboard.ProfitAsWrittenUndercounts | Dashboard.TotalProfitOfSingleUnits |
| js/recipes.js:690-735 | the edit form's output quantity is stored without a check, so 0 passes (the field's `min="1"` is not enforced) | iron at cost 2, sword recipe of 1 iron edited to output 0: unit cost 2/0 = Infinity is pushed into the sword's cost | output quantity at least 1, as the form's minimum and the constructor's default say | high, not executed | Recipes.EditStoresZeroOutput | Recipes.EditKeepsOutput |
| js/recipes.js:756-787 | the dialog labelled "Target Profit Margin" recommends cost × (1 + margin), a markup on cost | unit cost 10 at the default 30%: price 13, whose margin on price is 23.08% | cost/(1 − margin), the margin on price the pricing page uses | medium, not executed | Recipes.MarkupFallsShortOfMargin | Recipes.MarginPriceHitsTarget |
