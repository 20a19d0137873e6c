/**
 * The order-fulfilment orchestrator: load the order, and for every item parse
 * its category label, look up the strategy for it and run that strategy on the
 * item. The first failure aborts the pass; nothing already done is rolled back.
 */
module OrderProcessingService {
  import opened Wrappers
  import opened ProductTypes
  import opened Errors
  import opened Products
  import opened ProductProcessing
  import opened ProductRuleFactory
  import opened OrderRuns

  /** An order: its id and its items, listed in the iteration order of the item set. */
  datatype Order = Order(id: int, items: seq<Product>)

  /** What a successful pass returns: the processed order's id only. */
  datatype ProcessOrderResponse = ProcessOrderResponse(id: int)

  /** The current states of the items, position by position. */
  function States(items: seq<Product>): (ss: seq<ProductState>)
    reads items
    ensures |ss| == |items|
    ensures forall i :: 0 <= i < |items| ==> ss[i] == items[i].State()
  {
    if items == [] then [] else [items[0].State()] + States(items[1..])
  }

  /**
   * One loop iteration on the value level: `ProductType.from(p.getType())`,
   * then `getStrategy(type)`, then that strategy's `process`.
   */
  function ItemStep(factory: RuleFactory, s: ProductState, today: int): (r: Result<Step, Error>)
    requires factory.Valid()
    ensures From(s.productType).Failure? ==> r == Failure(InvalidLabel(From(s.productType).error))
    ensures From(s.productType).Success? && From(s.productType).value !in factory.strategyMap ==>
              r == Failure(NoStrategyForType(From(s.productType).value))
    ensures r.Success? ==> |r.value.effects| <= 1 && OnlyStockChanged(s, r.value.state)
    ensures r.Success? ==> (r.value.state.available == s.available - 1 <==> r.value.effects == [Save])
    ensures r.Success? ==> (r.value.effects != [Save] ==> r.value.state == s)
  {
    match From(s.productType)
    case Failure(e) => Failure(InvalidLabel(e))
    case Success(t) =>
      match factory.GetStrategy(t)
      case Failure(e) => Failure(e)
      case Success(strategy) => strategy.Outcome(s, today)
  }

  /**
   * The rule that runs on an item is the one for its label's category: when the
   * label parses to `t` and a strategy is registered for `t`, the step is the
   * outcome of `t`'s own rule.
   */
  lemma ItemStepRunsCategoryRule(factory: RuleFactory, s: ProductState, today: int)
    requires factory.Valid()
    requires From(s.productType).Success? && From(s.productType).value in factory.strategyMap
    ensures ItemStep(factory, s, today) == RuleOf(From(s.productType).value).Outcome(s, today)
  {
    var t := From(s.productType).value;
    RuleOfGetType(factory.GetStrategy(t).value);
  }

  /** The value-level outcome of every item's step, position by position. */
  function Outcomes(factory: RuleFactory, states: seq<ProductState>, today: int): (rs: seq<Result<Step, Error>>)
    requires factory.Valid()
    ensures |rs| == |states|
    ensures forall j :: 0 <= j < |states| ==> rs[j] == ItemStep(factory, states[j], today)
  {
    if states == [] then [] else [ItemStep(factory, states[0], today)] + Outcomes(factory, states[1..], today)
  }

  /**
   * The whole loop of `processOrder` on the value level: item `j` of `items`
   * starts in state `states[j]`.
   */
  function RunItems(factory: RuleFactory, items: seq<Product>, states: seq<ProductState>, today: int): (run: Run)
    requires factory.Valid() && |items| == |states|
    ensures |run.states| == |states|
  {
    RunFrom(items, states, Outcomes(factory, states, today), 0)
  }

  /** The position of the first item whose step fails, or the number of items when none does. */
  function FirstFailing(factory: RuleFactory, states: seq<ProductState>, today: int): (k: nat)
    requires factory.Valid()
    ensures k <= |states|
    ensures forall j :: 0 <= j < k ==> ItemStep(factory, states[j], today).Success?
    ensures k < |states| ==> ItemStep(factory, states[k], today).Failure?
  {
    FirstFailure(Outcomes(factory, states, today), 0)
  }

  /**
   * What a pass leaves behind: the items before the first failing one hold their
   * rule's new state, that item and all after it are untouched, and the pass
   * fails with that item's error, or succeeds when no item fails.
   */
  lemma RunItemsOutcome(factory: RuleFactory, items: seq<Product>, states: seq<ProductState>, today: int)
    requires factory.Valid() && |items| == |states|
    ensures var run, k := RunItems(factory, items, states, today), FirstFailing(factory, states, today);
      && (run.failure.None? <==> k == |states|)
      && (k < |states| ==> run.failure == Some(ItemStep(factory, states[k], today).error))
      && forall j :: 0 <= j < |states| ==>
           run.states[j] == if j < k then ItemStep(factory, states[j], today).value.state else states[j]
  {
    var outcomes := Outcomes(factory, states, today);
    RunFromVerdict(items, states, outcomes, 0);
    forall j | 0 <= j < |states| {
      RunFromStateAt(items, states, outcomes, 0, j);
    }
  }

  /** A pass succeeds exactly when every item's step succeeds. */
  lemma RunSucceedsIffEveryItemDoes(factory: RuleFactory, items: seq<Product>, states: seq<ProductState>, today: int)
    requires factory.Valid() && |items| == |states|
    ensures RunItems(factory, items, states, today).failure.None? <==>
              forall j :: 0 <= j < |states| ==> ItemStep(factory, states[j], today).Success?
  {
    RunFromVerdict(items, states, Outcomes(factory, states, today), 0);
  }

  /** An order without items succeeds whatever the registry holds, and calls nothing. */
  lemma EmptyOrderSucceeds(factory1: RuleFactory, factory2: RuleFactory, today: int)
    requires factory1.Valid() && factory2.Valid()
    ensures RunItems(factory1, [], [], today) == RunItems(factory2, [], [], today) == Run([], [], None)
  {
  }

  /**
   * An item whose label names no category aborts the pass when every item
   * before it went through: the error is the unknown upper-cased name, and
   * that item and all after it are left as they were.
   */
  lemma UnknownLabelAborts(factory: RuleFactory, items: seq<Product>, states: seq<ProductState>,
                           today: int, k: nat)
    requires factory.Valid() && |items| == |states| && k < |states|
    requires forall j :: 0 <= j < k ==> ItemStep(factory, states[j], today).Success?
    requires states[k].productType.Some? && From(states[k].productType).Failure?
    ensures var run := RunItems(factory, items, states, today);
      && run.failure == Some(InvalidLabel(UnknownCategory(ToUpper(states[k].productType.value))))
      && forall j :: k <= j < |states| ==> run.states[j] == states[j]
  {
    assert FirstFailing(factory, states, today) == k;
    RunItemsOutcome(factory, items, states, today);
  }

  /**
   * Each item is processed at most once: the calls about a processed item are
   * exactly its rule's calls, an item at or after the failing one gets no call,
   * and no product outside the order gets any.
   */
  lemma RunItemsCalls(factory: RuleFactory, items: seq<Product>, states: seq<ProductState>, today: int)
    requires factory.Valid() && |items| == |states| && Distinct(items)
    ensures var run, k := RunItems(factory, items, states, today), FirstFailing(factory, states, today);
      && (forall j :: 0 <= j < |items| ==>
            CallsFor(run.calls, items[j]) ==
              if j < k then Calls(items[j], ItemStep(factory, states[j], today).value.effects) else [])
      && (forall p :: p !in items ==> CallsFor(run.calls, p) == [])
  {
    var outcomes := Outcomes(factory, states, today);
    forall j | 0 <= j < |items| {
      RunFromCallsAt(items, states, outcomes, 0, j);
    }
    forall p | p !in items {
      RunFromNoCalls(items, states, outcomes, 0, p);
    }
  }

  /**
   * A pass never drives a non-negative stock negative, lowers each stock by at
   * most one, and changes no field but the stock.
   */
  lemma RunChangesOnlyStock(factory: RuleFactory, items: seq<Product>, states: seq<ProductState>, today: int)
    requires factory.Valid() && |items| == |states|
    ensures var run := RunItems(factory, items, states, today);
      forall j :: 0 <= j < |states| ==>
        && OnlyStockChanged(states[j], run.states[j])
        && (run.states[j].available == states[j].available
            || run.states[j].available == states[j].available - 1)
        && (states[j].available >= 0 ==> run.states[j].available >= 0)
  {
    RunItemsOutcome(factory, items, states, today);
  }

  /** When every step succeeds on one listing, every step succeeds on a reordering. */
  lemma StepsSucceedAlike(factory: RuleFactory, today: int,
                          items1: seq<Product>, states1: seq<ProductState>,
                          items2: seq<Product>, states2: seq<ProductState>)
    requires factory.Valid() && |items1| == |states1| && |items2| == |states2|
    requires forall p :: p in items2 ==> p in items1
    requires forall i, j :: 0 <= i < |items1| && 0 <= j < |items2| && items1[i] == items2[j] ==>
               states1[i] == states2[j]
    ensures (forall i :: 0 <= i < |states1| ==> ItemStep(factory, states1[i], today).Success?) ==>
              forall j :: 0 <= j < |states2| ==> ItemStep(factory, states2[j], today).Success?
  {
    forall j | 0 <= j < |states2| && (forall i :: 0 <= i < |states1| ==> ItemStep(factory, states1[i], today).Success?)
      ensures ItemStep(factory, states2[j], today).Success?
    {
      assert items2[j] in items1;
      var i :| 0 <= i < |items1| && items1[i] == items2[j];
      assert states1[i] == states2[j];
    }
  }

  /**
   * The iteration order of the item set does not matter to a pass that
   * succeeds: listing the same products with the same starting states in
   * another order gives the same verdict, the same final state for each
   * product and the same calls about each product.
   */
  lemma RunIndependentOfOrder(factory: RuleFactory, today: int,
                              items1: seq<Product>, states1: seq<ProductState>,
                              items2: seq<Product>, states2: seq<ProductState>)
    requires factory.Valid() && |items1| == |states1| && |items2| == |states2|
    requires Distinct(items1) && Distinct(items2)
    requires forall p :: p in items1 <==> p in items2
    requires forall i, j :: 0 <= i < |items1| && 0 <= j < |items2| && items1[i] == items2[j] ==>
               states1[i] == states2[j]
    ensures var run1, run2 := RunItems(factory, items1, states1, today), RunItems(factory, items2, states2, today);
      && (run1.failure.None? <==> run2.failure.None?)
      && (run1.failure.None? ==>
            && (forall i, j :: 0 <= i < |items1| && 0 <= j < |items2| && items1[i] == items2[j] ==>
                  run1.states[i] == run2.states[j])
            && (forall p :: CallsFor(run1.calls, p) == CallsFor(run2.calls, p)))
  {
    RunSucceedsIffEveryItemDoes(factory, items1, states1, today);
    RunSucceedsIffEveryItemDoes(factory, items2, states2, today);
    StepsSucceedAlike(factory, today, items1, states1, items2, states2);
    StepsSucceedAlike(factory, today, items2, states2, items1, states1);
    if RunItems(factory, items1, states1, today).failure.None? {
      ReorderedStatesAgree(factory, today, items1, states1, items2, states2);
      ReorderedCallsAgree(factory, today, items1, states1, items2, states2);
    }
  }

  /** Two successful passes over reorderings leave each product in the same state. */
  lemma ReorderedStatesAgree(factory: RuleFactory, today: int,
                             items1: seq<Product>, states1: seq<ProductState>,
                             items2: seq<Product>, states2: seq<ProductState>)
    requires factory.Valid() && |items1| == |states1| && |items2| == |states2|
    requires forall i, j :: 0 <= i < |items1| && 0 <= j < |items2| && items1[i] == items2[j] ==>
               states1[i] == states2[j]
    requires RunItems(factory, items1, states1, today).failure.None?
    requires RunItems(factory, items2, states2, today).failure.None?
    ensures var run1, run2 := RunItems(factory, items1, states1, today), RunItems(factory, items2, states2, today);
      forall i, j :: 0 <= i < |items1| && 0 <= j < |items2| && items1[i] == items2[j] ==>
        run1.states[i] == run2.states[j]
  {
    RunItemsOutcome(factory, items1, states1, today);
    RunItemsOutcome(factory, items2, states2, today);
  }

  /** Two successful passes over reorderings make the same calls about each product. */
  lemma ReorderedCallsAgree(factory: RuleFactory, today: int,
                            items1: seq<Product>, states1: seq<ProductState>,
                            items2: seq<Product>, states2: seq<ProductState>)
    requires factory.Valid() && |items1| == |states1| && |items2| == |states2|
    requires Distinct(items1) && Distinct(items2)
    requires forall p :: p in items1 <==> p in items2
    requires forall i, j :: 0 <= i < |items1| && 0 <= j < |items2| && items1[i] == items2[j] ==>
               states1[i] == states2[j]
    requires RunItems(factory, items1, states1, today).failure.None?
    requires RunItems(factory, items2, states2, today).failure.None?
    ensures forall p :: CallsFor(RunItems(factory, items1, states1, today).calls, p)
                        == CallsFor(RunItems(factory, items2, states2, today).calls, p)
  {
    var run1, run2 := RunItems(factory, items1, states1, today), RunItems(factory, items2, states2, today);
    RunItemsOutcome(factory, items1, states1, today);
    RunItemsOutcome(factory, items2, states2, today);
    RunItemsCalls(factory, items1, states1, today);
    RunItemsCalls(factory, items2, states2, today);
    forall p ensures CallsFor(run1.calls, p) == CallsFor(run2.calls, p) {
      if p in items1 {
        var i :| 0 <= i < |items1| && items1[i] == p;
        assert p in items2;
        var j :| 0 <= j < |items2| && items2[j] == p;
        assert states1[i] == states2[j];
      }
    }
  }

  /**
   * The body of the loop of `processOrder` for item `p`: parse its label, look
   * up the strategy for the category and run it on `p`.
   */
  method ProcessItem(factory: RuleFactory, p: Product, today: int, env: Collaborators)
    returns (status: Status<Error>)
    requires factory.Valid()
    modifies p, env
    ensures Applied(ItemStep(factory, old(p.State()), today), p, old(p.State()), p.State(),
                    old(env.calls), env.calls, status)
  {
    var parsed := From(p.productType);
    if parsed.Failure? {
      return Fail(InvalidLabel(parsed.error));
    }
    var strategy := factory.GetStrategy(parsed.value);
    if strategy.Failure? {
      return Fail(strategy.error);
    }
    status := strategy.value.Process(p, today, env);
  }

  /** One turn of the loop, on item `i` of a set of items: no other item changes. */
  method ProcessAt(factory: RuleFactory, items: seq<Product>, i: nat, today: int, env: Collaborators)
    returns (status: Status<Error>)
    requires factory.Valid() && Distinct(items) && i < |items|
    modifies items[i], env
    ensures Applied(ItemStep(factory, old(items[i].State()), today), items[i], old(items[i].State()),
                    items[i].State(), old(env.calls), env.calls, status)
    ensures States(items) == old(States(items))[i := items[i].State()]
  {
    assert forall j :: 0 <= j < |items| && j != i ==> items[j] != items[i];
    status := ProcessItem(factory, items[i], today, env);
  }

  /**
   * One turn of the loop of `processOrder` with its ghost bookkeeping: the
   * items before `i` hold `done`, the calls so far are `logged`, and `total` is
   * the whole pass; on success the done part grows by item `i`.
   */
  method LoopTurn(factory: RuleFactory, items: seq<Product>, i: nat, today: int, env: Collaborators,
                  ghost initial: seq<ProductState>, ghost done: seq<ProductState>,
                  ghost outcomes: seq<Result<Step, Error>>,
                  ghost calls0: seq<Call>, ghost logged: seq<Call>, ghost total: Run)
    returns (status: Status<Error>, ghost done': seq<ProductState>, ghost logged': seq<Call>)
    requires factory.Valid() && Distinct(items) && Aligned(items, initial, outcomes) && i == |done| < |items|
    requires outcomes == Outcomes(factory, initial, today)
    requires States(items) == done + initial[i..]
    requires env.calls == calls0 + logged
    requires total == Prepend(done, logged, RunFrom(items, initial, outcomes, i))
    modifies items[i], env
    ensures status.Fail? ==>
      && States(items) == done + initial[i..]
      && env.calls == calls0 + logged
      && total == Run(done + initial[i..], logged, Some(status.error))
    ensures status.Pass? ==>
      && |done'| == i + 1
      && States(items) == done' + initial[i + 1..]
      && env.calls == calls0 + logged'
      && total == Prepend(done', logged', RunFrom(items, initial, outcomes, i + 1))
  {
    assert items[i].State() == initial[i] by {
      assert States(items)[i] == (done + initial[i..])[i];
    }
    ghost var current := done + initial[i..];
    ghost var outcome := outcomes[i];
    status := ProcessAt(factory, items, i, today, env);
    assert States(items) == current[i := items[i].State()];
    if status.Fail? {
      assert current[i] == initial[i];
      LoopStops(items, initial, outcomes, i, done, logged, total);
      return status, done, logged;
    }
    ghost var step := outcome.value;
    assert items[i].State() == step.state;
    LoopAdvances(items, initial, outcomes, i, done, logged, total);
    done' := done + [step.state];
    logged' := logged + Calls(items[i], step.effects);
  }

  /**
   * The loop of `processOrder` over `items`: the product states and the
   * collaborator log end up exactly as `RunItems` describes, including after a
   * failure part-way, and the failure is reported.
   */
  method ProcessItems(factory: RuleFactory, items: seq<Product>, today: int, env: Collaborators)
    returns (failure: Option<Error>)
    requires factory.Valid() && Distinct(items)
    modifies items, env
    ensures var run := RunItems(factory, items, old(States(items)), today);
      && States(items) == run.states
      && env.calls == old(env.calls) + run.calls
      && failure == run.failure
  {
    ghost var initial := States(items);
    ghost var calls0 := env.calls;
    ghost var done: seq<ProductState> := [];
    ghost var logged: seq<Call> := [];
    ghost var outcomes := Outcomes(factory, initial, today);
    ghost var total := RunItems(factory, items, initial, today);
    LoopStarts(items, initial, outcomes);
    var i := 0;
    while i < |items|
      invariant 0 <= i <= |items| && |done| == i
      invariant States(items) == done + initial[i..]
      invariant env.calls == calls0 + logged
      invariant total == Prepend(done, logged, RunFrom(items, initial, outcomes, i))
    {
      var status;
      status, done, logged := LoopTurn(factory, items, i, today, env, initial, done, outcomes, calls0, logged, total);
      if status.Fail? {
        return Some(status.error);
      }
      i := i + 1;
    }
    LoopEnds(items, initial, outcomes, done, logged, total);
    failure := None;
  }

  /**
   * `processOrder(orderId)`: loads the order from `orders`, runs the loop over
   * its items with the registry `factory` on day `today`, and returns the order's
   * id, or the failure that stopped the loop.
   */
  method ProcessOrder(orders: map<int, Order>, factory: RuleFactory, orderId: int, today: int,
                      env: Collaborators)
    returns (r: Result<ProcessOrderResponse, Error>)
    requires factory.Valid()
    requires orderId in orders ==> Distinct(orders[orderId].items)
    modifies (if orderId in orders then orders[orderId].items else []), env
    ensures orderId !in orders ==> r == Failure(OrderNotFound) && env.calls == old(env.calls)
    ensures orderId in orders ==>
      var order := orders[orderId];
      var run := RunItems(factory, order.items, old(States(order.items)), today);
      && States(order.items) == run.states
      && env.calls == old(env.calls) + run.calls
      && r == (if run.failure.None? then Success(ProcessOrderResponse(order.id))
               else Failure(run.failure.value))
  {
    if orderId !in orders {
      return Failure(OrderNotFound);
    }
    var order := orders[orderId];
    var failure := ProcessItems(factory, order.items, today, env);
    if failure.Some? {
      return Failure(failure.value);
    }
    r := Success(ProcessOrderResponse(order.id));
  }
}
