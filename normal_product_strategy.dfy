/** The stock rule for NORMAL products: sell from stock, or warn of a delay. */
module NormalProductStrategy {
  import opened Products

  /**
   * What the rule does to a product in state `s`: with stock it sells one unit
   * and saves; without stock and with a positive lead time it sends a delay
   * notice; otherwise it does nothing.
   */
  function Outcome(s: ProductState): (o: Step)
    ensures OnlyStockChanged(s, o.state)
    ensures |o.effects| <= 1
    ensures o.effects == [Save] <==> s.available > 0
    ensures o.effects == [Save] ==> o.state.available == s.available - 1
    ensures o.effects != [Save] ==> o.state == s
    ensures o.effects == [NotifyDelay(s.leadTime)] <==> s.available <= 0 && s.leadTime > 0
    ensures s.available <= 0 && s.leadTime <= 0 ==> o.effects == []
    ensures s.available >= 0 ==> o.state.available >= 0
  {
    if s.available > 0 then Step(s.(available := s.available - 1), [Save])
    else if s.leadTime > 0 then Step(s, [NotifyDelay(s.leadTime)])
    else Step(s, [])
  }

  /** `process(p)`: applies the rule to `p` in place and makes its calls. */
  method Process(p: Product, env: Collaborators)
    modifies p, env
    ensures p.State() == Outcome(old(p.State())).state
    ensures env.calls == old(env.calls) + Calls(p, Outcome(old(p.State())).effects)
  {
    if p.available > 0 {
      p.SetAvailable(p.available - 1);
      env.Save(p);
    } else if p.leadTime > 0 {
      env.NotifyDelay(p.leadTime, p);
    }
  }
}
