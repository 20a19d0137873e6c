/** The stock rule for SEASONAL products: sell only strictly inside the season. */
module SeasonalProductStrategy {
  import opened Wrappers
  import opened Errors
  import opened Products

  /**
   * The `inSeason` flag: today lies strictly after the start day and strictly
   * before the end day. The start is always read; the end only when today is
   * after the start. Reading a missing date fails.
   */
  function InSeason(s: ProductState, today: int): (r: Result<bool, Error>)
    ensures r == Failure(MissingDate(SeasonStartDate)) <==> s.seasonStartDate.None?
    ensures r == Failure(MissingDate(SeasonEndDate)) <==>
              s.seasonStartDate.Some? && today > s.seasonStartDate.value && s.seasonEndDate.None?
    ensures r.Success? <==>
              s.seasonStartDate.Some? && (today > s.seasonStartDate.value ==> s.seasonEndDate.Some?)
    ensures r.Success? ==>
              (r.value <==> s.seasonStartDate.value < today && today < s.seasonEndDate.value)
  {
    match s.seasonStartDate
    case None => Failure(MissingDate(SeasonStartDate))
    case Some(start) =>
      if today > start then
        match s.seasonEndDate
        case None => Failure(MissingDate(SeasonEndDate))
        case Some(end) => Success(today < end)
      else
        Success(false)
  }

  /** The fast path applies: strictly in season, with stock. */
  predicate Sellable(s: ProductState, today: int)
    requires InSeason(s, today).Success?
  {
    InSeason(s, today).value && s.available > 0
  }

  /** What the rule does to a product in state `s` on day `today`. */
  function Outcome(s: ProductState, today: int): (r: Result<Step, Error>)
    ensures r.Failure? <==> InSeason(s, today).Failure?
    ensures r.Failure? ==> r.error == InSeason(s, today).error
    ensures r.Success? ==> |r.value.effects| == 1 && OnlyStockChanged(s, r.value.state)
    ensures r.Success? ==> (r.value.effects == [Save] <==> Sellable(s, today))
    ensures r.Success? ==> (r.value.effects == [HandleSeasonalProduct] <==> !Sellable(s, today))
    ensures r.Success? && Sellable(s, today) ==> r.value.state.available == s.available - 1
    ensures r.Success? && !Sellable(s, today) ==> r.value.state == s
    ensures r.Success? && s.available >= 0 ==> r.value.state.available >= 0
  {
    match InSeason(s, today)
    case Failure(e) => Failure(e)
    case Success(inSeason) =>
      if inSeason && s.available > 0 then Success(Step(s.(available := s.available - 1), [Save]))
      else Success(Step(s, [HandleSeasonalProduct]))
  }

  /** `process(p)`: computes `inSeason`, then applies the rule to `p` in place. */
  method Process(p: Product, today: int, env: Collaborators) returns (status: Status<Error>)
    modifies p, env
    ensures Applied(Outcome(old(p.State()), today), p, old(p.State()), p.State(),
                    old(env.calls), env.calls, status)
  {
    if p.seasonStartDate.None? {
      return Fail(MissingDate(SeasonStartDate));
    }
    var inSeason := false;
    if today > p.seasonStartDate.value {
      if p.seasonEndDate.None? {
        return Fail(MissingDate(SeasonEndDate));
      }
      inSeason := today < p.seasonEndDate.value;
    }
    if inSeason && p.available > 0 {
      p.SetAvailable(p.available - 1);
      env.Save(p);
    } else {
      env.HandleSeasonalProduct(p);
    }
    return Pass;
  }
}
