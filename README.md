# Order fulfilment core of marjane-refacto-java, in Dafny

This project models the order-fulfilment core of the Spring service
`marjane-refacto-java`.

- `processOrder(orderId)` loads an order and walks its item set.
- For each product it parses the category label (`ProductType.from`), looks up
  the stock rule registered for that category (`ProductRuleFactory.getStrategy`)
  and runs the rule on the product.
- There are three rules:
  - NORMAL sells one unit and saves, or sends a delay notice.
  - EXPIRABLE sells while there is stock and the product is unexpired, and
    otherwise hands the product on to expiry handling.
  - SEASONAL sells only strictly inside the season with stock, and otherwise
    hands the product on to seasonal handling.
- The first exception aborts the loop. Nothing done before it is rolled back.

Modules, one per source file plus shared ones:

- `Wrappers`: `Option` (Java `null`), `Result` (a call that returns or throws)
  and `Status` (a `void` call that returns or throws).
- `Errors`: one constructor per exception the core raises.
- `ProductTypes`: the enum, ASCII upper-casing, `valueOf` and `from`.
- `Products`: the mutable `Product` entity as a class, its `ProductState`
  snapshot, and the collaborators as a `Collaborators` class. The
  collaborators are the product repository and the product service. Their
  `calls` field logs every `save`, `notifyDelay`, `handleExpiredProduct` and
  `handleSeasonalProduct` call, in order.
- `NormalProductStrategy`, `ExpirableProductRule`, `SeasonalProductStrategy`:
  each rule as a value-level function `Outcome` (new state plus calls made),
  and as an imperative `Process` method over a `Product`, proved to realise
  `Outcome` exactly.
- `ProductProcessing`: the `IProductProcessing` interface as a `Strategy`
  datatype with one constructor per implementation, dispatched by `match`.
- `ProductRuleFactory`: the registry built by `Collectors.toMap` and its
  lookup.
- `OrderRuns`: the loop on the value level for any list of per-item outcomes.
  Items are processed in order until one fails. The failing item and all after
  it keep their state.
- `OrderProcessingService`: `processOrder` as an imperative loop over the
  items, proved to leave every product and the call log exactly as the value
  level `RunItems` describes. The properties of the order pass are stated as
  lemmas about `RunItems`.

Modelling choices:

- Dates are day numbers (`int`).
- "Today" (`LocalDate.now()`) is an explicit parameter.
- A date comparison `d.isAfter(today)` is `d > today`.
- A null date that a rule dereferences raises `MissingDate(field)`, the
  NullPointerException. The short-circuit reads of the source are kept:
  - the expiry date is read only when there is stock;
  - the season end is read only when today is after the season start.
- A null label raises `InvalidLabel(MissingLabel)`, the NullPointerException
  from `toUpperCase`. A label that names no category raises
  `InvalidLabel(UnknownCategory(name))`.
- The order's item `Set` is a `seq<Product>` giving one iteration order, with
  no product listed twice (`Distinct`).
- The order repository is a `map<int, Order>`.

## Model

| member | source | states |
|---|---|---|
| ProductTypes.ValueOf | api/src/main/java/com/nimbleways/springboilerplate/enums/ProductType.java:5-10 | succeeds exactly when the name is one of the three declared names, and returns the constant with that name; otherwise fails with the unknown name |
| ProductTypes.ToUpper | api/src/main/java/com/nimbleways/springboilerplate/enums/ProductType.java:10 | upper-casing keeps the length, leaves no lower-case ASCII letter, turns each lower-case ASCII letter into its capital and leaves every other character as it is |
| ProductTypes.From | api/src/main/java/com/nimbleways/springboilerplate/enums/ProductType.java:9-11 | a null label fails with its own error; otherwise succeeds exactly when the upper-cased label is a declared name, returns the category of that name, and on failure reports the upper-cased name |
| ProductTypes.ExactlyThreeCategories | api/src/main/java/com/nimbleways/springboilerplate/enums/ProductType.java:5-7 | `values()` lists exactly three categories, each once, in the order NORMAL, SEASONAL, EXPIRABLE, and every category is among them |
| ProductTypes.NameIsUpperCase | api/src/main/java/com/nimbleways/springboilerplate/enums/ProductType.java:5-7 | the declared names are unaffected by upper-casing |
| ProductTypes.FromName | api/src/main/java/com/nimbleways/springboilerplate/enums/ProductType.java:10 | round trip: parsing a category's name gives that category |
| ProductTypes.FromIgnoresCase | api/src/main/java/com/nimbleways/springboilerplate/enums/ProductType.java:10 | a label parses to `t` if and only if it spells `t`'s name in some mix of cases |
| ProductTypes.FromCaseVariants | api/src/main/java/com/nimbleways/springboilerplate/enums/ProductType.java:10 | two labels equal up to case parse to the same result, success or failure |
| ProductTypes.EmptyLabelIsUnknown | api/src/main/java/com/nimbleways/springboilerplate/enums/ProductType.java:10 | the empty label fails as an unknown category name |
| Products.Product.SetAvailable | api/src/main/java/com/nimbleways/springboilerplate/services/implementations/product/NormalProductStrategy.java:24 | the stock counter takes the new value and no other field of the product changes |
| Products.Collaborators.Save | api/src/main/java/com/nimbleways/springboilerplate/services/implementations/product/NormalProductStrategy.java:25 | exactly one save call about the product is appended to the log |
| Products.Collaborators.NotifyDelay | api/src/main/java/com/nimbleways/springboilerplate/services/implementations/product/NormalProductStrategy.java:27 | exactly one delay notice with the lead time is appended to the log |
| Products.Collaborators.HandleExpiredProduct | api/src/main/java/com/nimbleways/springboilerplate/services/implementations/product/ExpirableProductRule.java:33 | exactly one expiry hand-off about the product is appended to the log; the product itself is not changed (see "Left out") |
| Products.Collaborators.HandleSeasonalProduct | api/src/main/java/com/nimbleways/springboilerplate/services/implementations/product/SeasonalProductStrategy.java:34 | exactly one seasonal hand-off about the product is appended to the log; the product itself is not changed (see "Left out") |
| NormalProductStrategy.Outcome | api/src/main/java/com/nimbleways/springboilerplate/services/implementations/product/NormalProductStrategy.java:22-29 | saves exactly when there is stock, and then lowers the stock by one; sends a delay notice with the lead time exactly when there is no stock but a positive lead time; with neither stock nor lead time makes no call and changes nothing; at most one call; only the stock may change; a non-negative stock stays non-negative |
| NormalProductStrategy.Process | api/src/main/java/com/nimbleways/springboilerplate/services/implementations/product/NormalProductStrategy.java:22-29 | the product ends in `Outcome`'s state and exactly `Outcome`'s calls are appended to the log |
| ExpirableProductRule.Outcome | api/src/main/java/com/nimbleways/springboilerplate/services/implementations/product/ExpirableProductRule.java:24-35 | fails exactly when there is stock and no expiry date; otherwise makes exactly one call: a save with the stock lowered by one when there is stock and the expiry day is strictly after today, and otherwise an expiry hand-off with the product unchanged (so an item expiring today, or one out of stock, goes to expiry handling); only the stock may change; a non-negative stock stays non-negative |
| ExpirableProductRule.Process | api/src/main/java/com/nimbleways/springboilerplate/services/implementations/product/ExpirableProductRule.java:24-35 | realises `Outcome`: on failure nothing changes and nothing is called; on success the product holds `Outcome`'s state and exactly its calls are appended |
| SeasonalProductStrategy.InSeason | api/src/main/java/com/nimbleways/springboilerplate/services/implementations/product/SeasonalProductStrategy.java:26-28 | fails on a missing start date; fails on a missing end date exactly when today is after the start; otherwise true exactly when today lies strictly between start and end |
| SeasonalProductStrategy.Outcome | api/src/main/java/com/nimbleways/springboilerplate/services/implementations/product/SeasonalProductStrategy.java:24-36 | fails exactly when `InSeason` fails, with its error; otherwise makes exactly one call: a save with the stock lowered by one when in season with stock, and otherwise a seasonal hand-off with the product unchanged; only the stock may change; a non-negative stock stays non-negative |
| SeasonalProductStrategy.Process | api/src/main/java/com/nimbleways/springboilerplate/services/implementations/product/SeasonalProductStrategy.java:24-36 | realises `Outcome`: on failure nothing changes and nothing is called; on success the product holds `Outcome`'s state and exactly its calls are appended |
| ProductProcessing.Strategy.GetType | api/src/main/java/com/nimbleways/springboilerplate/services/implementations/product/NormalProductStrategy.java:31-34 | over the `getType` declarations of all three rules (NormalProductStrategy.java:31-34, SeasonalProductStrategy.java:38-41, ExpirableProductRule.java:37-40): each implementation declares its own category and only that one: NORMAL exactly for the normal rule, SEASONAL exactly for the seasonal rule, EXPIRABLE exactly for the expirable rule |
| ProductProcessing.Strategy.Outcome | api/src/main/java/com/nimbleways/springboilerplate/services/implementations/product/IProductProcessing.java:8 | for every implementation: at most one call, only the stock may change, the stock drops by one exactly when the call is a save and is otherwise unchanged, a non-negative stock stays non-negative, and only a missing date can make a rule fail (never the NORMAL rule) |
| ProductProcessing.Strategy.Process | api/src/main/java/com/nimbleways/springboilerplate/services/implementations/product/IProductProcessing.java:8 | dispatching `process` realises the implementation's `Outcome` |
| ProductProcessing.GetTypeInjective | api/src/main/java/com/nimbleways/springboilerplate/services/implementations/product/NormalProductStrategy.java:31-34 | over the `getType` declarations of all three rules (NormalProductStrategy.java:31-34, SeasonalProductStrategy.java:38-41, ExpirableProductRule.java:37-40): different implementations declare different types (NORMAL, SEASONAL, EXPIRABLE) |
| ProductProcessing.RuleOf | api/src/main/java/com/nimbleways/springboilerplate/services/implementations/product/NormalProductStrategy.java:31-34 | over the `getType` declarations of all three rules (NormalProductStrategy.java:31-34, SeasonalProductStrategy.java:38-41, ExpirableProductRule.java:37-40): the shipped implementation chosen for a category declares that category |
| ProductProcessing.RuleOfGetType | api/src/main/java/com/nimbleways/springboilerplate/services/implementations/product/NormalProductStrategy.java:31-34 | over the `getType` declarations of all three rules (NormalProductStrategy.java:31-34, SeasonalProductStrategy.java:38-41, ExpirableProductRule.java:37-40): each shipped implementation is the one chosen for the type it declares |
| ProductRuleFactory.Collect | api/src/main/java/com/nimbleways/springboilerplate/services/implementations/product/ProductRuleFactory.java:16-20 | collecting succeeds exactly when no type is declared twice, the collected ones included; the result keys every strategy by its own type and its key set is the collected keys plus the declared types; a failure names a type declared twice |
| ProductRuleFactory.Build | api/src/main/java/com/nimbleways/springboilerplate/services/implementations/product/ProductRuleFactory.java:15-21 | the registry is built exactly when no two strategies declare the same type; its key set is exactly the set of declared types, each entry keyed by its own type; otherwise it fails with a duplicate-key error naming a type declared twice |
| ProductRuleFactory.RuleFactory.GetStrategy | api/src/main/java/com/nimbleways/springboilerplate/services/implementations/product/ProductRuleFactory.java:23-29 | succeeds exactly when the type is registered, and then returns a registered strategy whose declared type is the requested one; otherwise fails with "no strategy for type" |
| ProductRuleFactory.ShippedStrategiesCoverEveryType | api/src/main/java/com/nimbleways/springboilerplate/services/implementations/product/ProductRuleFactory.java:15-29 | with the three shipped rules registered in any order, building succeeds and lookup succeeds for every category |
| OrderRuns.RunFrom | api/src/main/java/com/nimbleways/springboilerplate/services/implementations/order/OrderProcessingService.java:28-35 | a pass from position `i` yields one final state for each item from `i` on |
| OrderRuns.FirstFailure | api/src/main/java/com/nimbleways/springboilerplate/services/implementations/order/OrderProcessingService.java:28-35 | the first failing position from `i` on: every outcome before it succeeds, and the one at it fails when it is inside the list |
| OrderRuns.RunFromVerdict | api/src/main/java/com/nimbleways/springboilerplate/services/implementations/order/OrderProcessingService.java:28-35 | a pass fails exactly when some outcome fails, and then with the first failing item's error |
| OrderRuns.RunFromStateAt | api/src/main/java/com/nimbleways/springboilerplate/services/implementations/order/OrderProcessingService.java:28-35 | an item before the first failure ends in its rule's new state; the failing item and those after it keep their old state (no rollback, no further processing) |
| OrderRuns.RunFromCallsAt | api/src/main/java/com/nimbleways/springboilerplate/services/implementations/order/OrderProcessingService.java:28-35 | for distinct items, the calls about an item are exactly its rule's calls when it comes before the first failure, and none otherwise |
| OrderRuns.RunFromNoCalls | api/src/main/java/com/nimbleways/springboilerplate/services/implementations/order/OrderProcessingService.java:28-35 | a pass makes no call about a product it does not process |
| OrderRuns.CallsForConcat | api/src/main/java/com/nimbleways/springboilerplate/services/implementations/order/OrderProcessingService.java:28-35 | the calls about one product in two consecutive logs are its calls in the first followed by its calls in the second |
| OrderProcessingService.ItemStep | api/src/main/java/com/nimbleways/springboilerplate/services/implementations/order/OrderProcessingService.java:30-34 | one item: an unparsable label fails with the label error, a category with no registered strategy fails with "no strategy", and a success makes at most one call, changes only the stock, lowers it by one exactly when it saves, and otherwise the rule itself leaves the product unchanged |
| OrderProcessingService.ItemStepRunsCategoryRule | api/src/main/java/com/nimbleways/springboilerplate/services/implementations/order/OrderProcessingService.java:30-34 | when the label parses to a category with a registered strategy, the item's step is exactly the outcome of that category's own rule |
| OrderProcessingService.RunItems | api/src/main/java/com/nimbleways/springboilerplate/services/implementations/order/OrderProcessingService.java:28-35 | the for-loop over the items as a value: one final state per item; its verdict, states and calls are characterised by `RunItemsOutcome`, `RunItemsCalls` and `RunIndependentOfOrder`, and `ProcessItems` is proved to end exactly in it |
| OrderProcessingService.FirstFailing | api/src/main/java/com/nimbleways/springboilerplate/services/implementations/order/OrderProcessingService.java:28-35 | the first item whose step fails: every item before it succeeds, and it fails when inside the list |
| OrderProcessingService.RunItemsOutcome | api/src/main/java/com/nimbleways/springboilerplate/services/implementations/order/OrderProcessingService.java:28-37 | a pass succeeds exactly when no item fails, and otherwise fails with the first failing item's error; the items before it hold their rule's new state, and it and all after it are untouched (no rollback) |
| OrderProcessingService.RunSucceedsIffEveryItemDoes | api/src/main/java/com/nimbleways/springboilerplate/services/implementations/order/OrderProcessingService.java:28-37 | a pass succeeds if and only if every item's step succeeds |
| OrderProcessingService.EmptyOrderSucceeds | api/src/main/java/com/nimbleways/springboilerplate/services/implementations/order/OrderProcessingService.java:28-37 | an order without items succeeds with no call, whatever strategies the registry holds |
| OrderProcessingService.UnknownLabelAborts | api/src/main/java/com/nimbleways/springboilerplate/services/implementations/order/OrderProcessingService.java:30 | an item whose label names no category, reached after successful items, aborts the pass with the unknown-name error and leaves itself and later items untouched |
| OrderProcessingService.RunItemsCalls | api/src/main/java/com/nimbleways/springboilerplate/services/implementations/order/OrderProcessingService.java:28-35 | each item is processed at most once: the calls about an item before the first failure are exactly its rule's calls, later items get none, and products outside the order get none |
| OrderProcessingService.RunChangesOnlyStock | api/src/main/java/com/nimbleways/springboilerplate/services/implementations/order/OrderProcessingService.java:28-35 | a pass changes no field but the stock, lowers each stock by at most one, and never drives a non-negative stock negative |
| OrderProcessingService.StepsSucceedAlike | api/src/main/java/com/nimbleways/springboilerplate/services/implementations/order/OrderProcessingService.java:28-35 | if every step succeeds on one listing of products, every step succeeds on a listing of some of the same products in the same states |
| OrderProcessingService.RunIndependentOfOrder | api/src/main/java/com/nimbleways/springboilerplate/services/implementations/order/OrderProcessingService.java:28-35 | two iteration orders of the same item set give the same verdict, and on success the same final state and the same calls for every product |
| OrderProcessingService.ProcessItem | api/src/main/java/com/nimbleways/springboilerplate/services/implementations/order/OrderProcessingService.java:30-34 | the loop body realises `ItemStep` on the product: on failure nothing changes and nothing is called |
| OrderProcessingService.ProcessAt | api/src/main/java/com/nimbleways/springboilerplate/services/implementations/order/OrderProcessingService.java:30-34 | processing one item of the set changes no other item |
| OrderProcessingService.LoopTurn | api/src/main/java/com/nimbleways/springboilerplate/services/implementations/order/OrderProcessingService.java:28-35 | one loop turn keeps the loop invariant relating the products and the log to `RunFrom`, or stops with the pass's failure |
| OrderProcessingService.ProcessItems | api/src/main/java/com/nimbleways/springboilerplate/services/implementations/order/OrderProcessingService.java:28-35 | the loop leaves every product in the state `RunItems` gives, appends exactly `RunItems`'s calls to the log, and reports its failure, including after an abort part-way |
| OrderProcessingService.ProcessOrder | api/src/main/java/com/nimbleways/springboilerplate/services/implementations/order/OrderProcessingService.java:23-38 | an unknown id fails with "Order not found" and calls nothing; otherwise the products and the log end as `RunItems` describes, and the result is the order's own id when no item failed, else the first failing item's error |

## Left out

- The internals of `ProductService` and `NotificationService` are not part of
  this model, because their source is not shown. The model records each call
  to them, and each repository `save`, in `Collaborators.calls`. The
  collaborators are inactive: they change no product.
- Products.Collaborators.HandleSeasonalProduct: leaves the product it is handed
  untouched, whereas the product service's seasonal handling may change it
  (its tests show the stock set to 0 after the season ends) and saves and
  notifies on its own. A state the model reports after a seasonal hand-off is
  the state the rule handed on, not the product's final state.
- Products.Collaborators.HandleExpiredProduct: leaves the product it is handed
  untouched, whereas the product service's expiry handling may change it (its
  tests show the stock lowered by one for a stocked, unexpired product) and
  saves and notifies on its own. A state the model reports after an expiry
  hand-off is the state the rule handed on, not the product's final state.
- OrderProcessingService.RunChangesOnlyStock: "only the stock changes" and
  "at most one less" cover the rules' own writes only, not what the product
  service does to a product handed on to it. The same holds for the final
  states stated by `ItemStep`, `RunItemsOutcome`, `ProcessItems` and
  `ProcessOrder` on the hand-off paths.
- Persistence: the order repository is a map, and `save` is only logged.
- The clock: "today" is a day number passed in, and dates are day numbers. No
  calendar arithmetic is modelled.
- OrderProcessingService.RunIndependentOfOrder: one day number serves the
  whole pass. The source reads the clock in every rule call, once in the
  expiry rule and twice in the seasonal rule, so a pass that crosses midnight
  can see two days, even within one seasonal item. Order independence is
  proved only under the single-day reading.
- Upper-casing is ASCII only. Java's `toUpperCase` also maps non-ASCII
  letters, for example dotless `ı` (U+0131) to `I` and long `ſ` (U+017F) to
  `S`, so labels such as "expırable" or "ſeasonal" parse in the program but
  not in the model. Under a Turkish locale `i` becomes `İ`, so "expirable"
  fails in the program there while the model accepts it.
- Null boxed `Integer` fields on `Product` (unboxing exceptions) are not
  modelled, because the entity source is not shown. `available` and
  `leadTime` are plain integers.
- Product ids and other entity fields are not modelled. A product is
  identified by its object reference.
- The Spring wiring is not modelled: annotations, constructor injection, the
  injected strategy list and the HTTP controller.
- `IProductProcessing` is a datatype with one constructor per shipped
  implementation, so the model cannot express other implementations.
- `ProductRuleFactory.RuleFactory.GetStrategy` is read-only by construction,
  because the registry is an immutable value. No separate "map unchanged"
  lemma is stated.
- The item `Set` is a sequence of distinct products in one iteration order.
  Order independence is proved over any two such sequences.
- The `for` loop of `processOrder` is split into the helper methods
  `ProcessItem`, `ProcessAt`, `LoopTurn` and `ProcessItems`. The helpers carry
  ghost bookkeeping that the source does not have.
- Integers are unbounded, not 32-bit. No overflow is reachable in the
  source: every rule decrements the stock only after checking that it is
  positive.
