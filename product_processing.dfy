/**
 * The `IProductProcessing` interface: a strategy has a declared type and a
 * `process` operation. The three implementations are the constructors; calls
 * dispatch by `match`.
 */
module ProductProcessing {
  import opened Wrappers
  import opened ProductTypes
  import opened Errors
  import opened Products
  import NormalProductStrategy
  import ExpirableProductRule
  import SeasonalProductStrategy

  datatype Strategy = Normal | Seasonal | Expirable {

    /** `getType()`: the category each implementation declares. */
    function GetType(): (t: ProductType)
      ensures Normal? <==> t == NORMAL
      ensures Seasonal? <==> t == SEASONAL
      ensures Expirable? <==> t == EXPIRABLE
    {
      match this
      case Normal => NORMAL
      case Seasonal => SEASONAL
      case Expirable => EXPIRABLE
    }

    /** The value-level effect of `process` under this strategy. */
    function Outcome(s: ProductState, today: int): (r: Result<Step, Error>)
      ensures r.Success? ==> |r.value.effects| <= 1 && OnlyStockChanged(s, r.value.state)
      ensures r.Success? ==> (r.value.state.available == s.available - 1 <==> r.value.effects == [Save])
      ensures r.Success? ==> (r.value.effects != [Save] ==> r.value.state == s)
      ensures r.Success? && s.available >= 0 ==> r.value.state.available >= 0
      ensures r.Failure? ==> r.error.MissingDate? && !Normal?
    {
      match this
      case Normal => Success(NormalProductStrategy.Outcome(s))
      case Seasonal => SeasonalProductStrategy.Outcome(s, today)
      case Expirable => ExpirableProductRule.Outcome(s, today)
    }

    /** `process(p)`: runs the implementation's rule on `p`. */
    method Process(p: Product, today: int, env: Collaborators) returns (status: Status<Error>)
      modifies p, env
      ensures Applied(Outcome(old(p.State()), today), p, old(p.State()), p.State(),
                      old(env.calls), env.calls, status)
    {
      match this
      case Normal =>
        NormalProductStrategy.Process(p, env);
        status := Pass;
      case Seasonal =>
        status := SeasonalProductStrategy.Process(p, today, env);
      case Expirable =>
        status := ExpirableProductRule.Process(p, today, env);
    }
  }

  /** The shipped implementation that declares category `t`. */
  function RuleOf(t: ProductType): (s: Strategy)
    ensures s.GetType() == t
  {
    match t
    case NORMAL => Normal
    case SEASONAL => Seasonal
    case EXPIRABLE => Expirable
  }

  /** A strategy is the shipped implementation of the type it declares. */
  lemma {:induction false} RuleOfGetType(s: Strategy)
    ensures RuleOf(s.GetType()) == s
  {
    GetTypeInjective(RuleOf(s.GetType()), s);
  }

  /** Different implementations declare different types. */
  lemma GetTypeInjective(a: Strategy, b: Strategy)
    ensures a.GetType() == b.GetType() <==> a == b
  {
  }
}
