/**
 * The product entity that the rules update in place, and the collaborators
 * (product repository and product service) whose calls the rules make.
 * Dates are day numbers; "today" is passed to the rules explicitly.
 */
module Products {
  import opened Wrappers
  import opened Errors

  /** A snapshot of every field of a product. */
  datatype ProductState = ProductState(
    available: int,
    leadTime: int,
    name: string,
    productType: Option<string>,
    expiryDate: Option<int>,
    seasonStartDate: Option<int>,
    seasonEndDate: Option<int>)

  /** The persistent product entity, mutated in place by the fulfilment rules. */
  class Product {
    var available: int
    var leadTime: int
    var name: string
    var productType: Option<string>
    var expiryDate: Option<int>
    var seasonStartDate: Option<int>
    var seasonEndDate: Option<int>

    constructor (leadTime: int, available: int, productType: Option<string>, name: string,
                 expiryDate: Option<int>, seasonStartDate: Option<int>, seasonEndDate: Option<int>)
      ensures State() == ProductState(available, leadTime, name, productType,
                                      expiryDate, seasonStartDate, seasonEndDate)
    {
      this.available := available;
      this.leadTime := leadTime;
      this.name := name;
      this.productType := productType;
      this.expiryDate := expiryDate;
      this.seasonStartDate := seasonStartDate;
      this.seasonEndDate := seasonEndDate;
    }

    /** The current values of all fields. */
    function State(): ProductState
      reads this
    {
      ProductState(available, leadTime, name, productType, expiryDate, seasonStartDate, seasonEndDate)
    }

    /** `setAvailable`: the stock counter changes and no other field does. */
    method SetAvailable(n: int)
      modifies this
      ensures State() == old(State()).(available := n)
    {
      available := n;
    }
  }

  /** One collaborator call a rule makes about the product it was given. */
  datatype Effect =
    | Save                       // productRepository.save(p)
    | NotifyDelay(leadTime: int) // productService.notifyDelay(leadTime, p)
    | HandleExpiredProduct       // productService.handleExpiredProduct(p)
    | HandleSeasonalProduct      // productService.handleSeasonalProduct(p)

  /** A recorded collaborator call: which product, and what was asked. */
  datatype Call = Call(product: Product, effect: Effect)

  /** The calls a rule makes about `p`, in order. */
  function Calls(p: Product, effects: seq<Effect>): (cs: seq<Call>)
    ensures |cs| == |effects|
    ensures forall i :: 0 <= i < |cs| ==> cs[i] == Call(p, effects[i])
  {
    if effects == [] then [] else [Call(p, effects[0])] + Calls(p, effects[1..])
  }

  /** What one rule application does on the value level: the new state and the calls made. */
  datatype Step = Step(state: ProductState, effects: seq<Effect>)

  /** Only the stock counter may differ between `before` and `after`. */
  predicate OnlyStockChanged(before: ProductState, after: ProductState) {
    after == before.(available := after.available)
  }

  /**
   * The product repository and the product service, as far as the rules see them:
   * every call is recorded, in order. What the service does with a product is not
   * part of this model.
   */
  class Collaborators {
    var calls: seq<Call>

    constructor ()
      ensures calls == []
    {
      calls := [];
    }

    method Save(p: Product)
      modifies this
      ensures calls == old(calls) + [Call(p, Effect.Save)]
    {
      calls := calls + [Call(p, Effect.Save)];
    }

    method NotifyDelay(leadTime: int, p: Product)
      modifies this
      ensures calls == old(calls) + [Call(p, Effect.NotifyDelay(leadTime))]
    {
      calls := calls + [Call(p, Effect.NotifyDelay(leadTime))];
    }

    method HandleExpiredProduct(p: Product)
      modifies this
      ensures calls == old(calls) + [Call(p, Effect.HandleExpiredProduct)]
    {
      calls := calls + [Call(p, Effect.HandleExpiredProduct)];
    }

    method HandleSeasonalProduct(p: Product)
      modifies this
      ensures calls == old(calls) + [Call(p, Effect.HandleSeasonalProduct)]
    {
      calls := calls + [Call(p, Effect.HandleSeasonalProduct)];
    }
  }

  /**
   * A run of a rule on `p` realised the value-level result `r`: on failure nothing
   * changed and nothing was called; on success the product holds the step's state
   * and exactly the step's calls were appended.
   */
  ghost predicate Applied(r: Result<Step, Error>, p: Product, before: ProductState, after: ProductState,
                          callsBefore: seq<Call>, callsAfter: seq<Call>, status: Status<Error>)
  {
    match r
    case Failure(e) => status == Fail(e) && after == before && callsAfter == callsBefore
    case Success(step) =>
      status == Pass && after == step.state && callsAfter == callsBefore + Calls(p, step.effects)
  }
}
