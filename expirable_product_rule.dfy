/** The stock rule for EXPIRABLE products: sell while in stock and unexpired. */
module ExpirableProductRule {
  import opened Wrappers
  import opened Errors
  import opened Products

  /** The fast path applies: there is stock, and the expiry day lies strictly after today. */
  predicate Sellable(s: ProductState, today: int) {
    s.available > 0 && s.expiryDate.Some? && s.expiryDate.value > today
  }

  /**
   * What the rule does to a product in state `s` on day `today`. The expiry date
   * is read only when there is stock, and reading a missing one fails.
   */
  function Outcome(s: ProductState, today: int): (r: Result<Step, Error>)
    ensures r.Failure? <==> s.available > 0 && s.expiryDate.None?
    ensures r.Failure? ==> r.error == MissingDate(ExpiryDate)
    ensures r.Success? ==> |r.value.effects| == 1 && OnlyStockChanged(s, r.value.state)
    ensures r.Success? ==> (r.value.effects == [Save] <==> Sellable(s, today))
    ensures r.Success? ==> (r.value.effects == [HandleExpiredProduct] <==> !Sellable(s, today))
    ensures r.Success? && Sellable(s, today) ==> r.value.state.available == s.available - 1
    ensures r.Success? && !Sellable(s, today) ==> r.value.state == s
    ensures r.Success? && s.available >= 0 ==> r.value.state.available >= 0
  {
    if s.available > 0 then
      match s.expiryDate
      case None => Failure(MissingDate(ExpiryDate))
      case Some(expiry) =>
        if expiry > today then Success(Step(s.(available := s.available - 1), [Save]))
        else Success(Step(s, [HandleExpiredProduct]))
    else
      Success(Step(s, [HandleExpiredProduct]))
  }

  /** `process(p)`: applies the rule to `p` in place and makes its call. */
  method Process(p: Product, today: int, env: Collaborators) returns (status: Status<Error>)
    modifies p, env
    ensures Applied(Outcome(old(p.State()), today), p, old(p.State()), p.State(),
                    old(env.calls), env.calls, status)
  {
    var sellable := false;
    if p.available > 0 {
      if p.expiryDate.None? {
        return Fail(MissingDate(ExpiryDate));
      }
      sellable := p.expiryDate.value > today;
    }
    if sellable {
      p.SetAvailable(p.available - 1);
      env.Save(p);
    } else {
      env.HandleExpiredProduct(p);
    }
    return Pass;
  }
}
