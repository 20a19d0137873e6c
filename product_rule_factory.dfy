/**
 * The registry from category to strategy. It is built once from the list of
 * strategies, keyed by each one's declared type, and never changes afterwards.
 */
module ProductRuleFactory {
  import opened Wrappers
  import opened ProductTypes
  import opened Errors
  import opened ProductProcessing

  type StrategyMap = map<ProductType, Strategy>

  /** Every entry is stored under the type its strategy declares. */
  predicate KeyedByType(m: StrategyMap) {
    forall t | t in m :: m[t].GetType() == t
  }

  /** The types declared by a list of strategies. */
  function TypesOf(strategies: seq<Strategy>): set<ProductType> {
    set s | s in strategies :: s.GetType()
  }

  /** No two strategies in the list declare the same type. */
  predicate DistinctTypes(strategies: seq<Strategy>) {
    forall i, j :: 0 <= i < j < |strategies| ==> strategies[i].GetType() != strategies[j].GetType()
  }

  /** Two different positions of the list declare `t`. */
  ghost predicate DeclaredTwice(strategies: seq<Strategy>, t: ProductType) {
    exists i, j :: 0 <= i < j < |strategies| && strategies[i].GetType() == t && strategies[j].GetType() == t
  }

  lemma TypesOfCons(strategies: seq<Strategy>)
    requires strategies != []
    ensures TypesOf(strategies) == {strategies[0].GetType()} + TypesOf(strategies[1..])
  {
    assert forall s :: s in strategies <==> s == strategies[0] || s in strategies[1..];
  }

  lemma DistinctTypesCons(strategies: seq<Strategy>)
    requires strategies != []
    ensures DistinctTypes(strategies) <==>
              DistinctTypes(strategies[1..]) && strategies[0].GetType() !in TypesOf(strategies[1..])
  {
    var t, tail := strategies[0].GetType(), strategies[1..];
    if DistinctTypes(strategies) {
      forall s | s in tail ensures s.GetType() != t {
        var j :| 0 <= j < |tail| && tail[j] == s;
        assert strategies[j + 1] == s;
      }
    }
    if DistinctTypes(tail) && t !in TypesOf(tail) {
      forall i, j | 0 <= i < j < |strategies|
        ensures strategies[i].GetType() != strategies[j].GetType()
      {
        assert strategies[j] == tail[j - 1];
        if i > 0 {
          assert strategies[i] == tail[i - 1];
        }
      }
    }
  }

  lemma DeclaredTwiceCons(strategies: seq<Strategy>, t: ProductType)
    requires strategies != []
    requires DeclaredTwice(strategies[1..], t)
             || (strategies[0].GetType() == t && t in TypesOf(strategies[1..]))
    ensures DeclaredTwice(strategies, t)
  {
    var tail := strategies[1..];
    if DeclaredTwice(tail, t) {
      var i, j :| 0 <= i < j < |tail| && tail[i].GetType() == t && tail[j].GetType() == t;
      assert strategies[i + 1] == tail[i] && strategies[j + 1] == tail[j];
    } else {
      var s :| s in tail && s.GetType() == t;
      var j :| 0 <= j < |tail| && tail[j] == s;
      assert strategies[j + 1] == s;
    }
  }

  /**
   * `Collectors.toMap(getType, s -> s)` continued from the entries `acc` already
   * collected: each strategy is put under its type, and a type seen a second
   * time stops the collection with an error.
   */
  function Collect(acc: StrategyMap, rest: seq<Strategy>): (r: Result<StrategyMap, Error>)
    requires KeyedByType(acc)
    ensures r.Success? <==> DistinctTypes(rest) && acc.Keys !! TypesOf(rest)
    ensures r.Success? ==> KeyedByType(r.value) && r.value.Keys == acc.Keys + TypesOf(rest)
    ensures r.Failure? ==> r.error.DuplicateStrategy?
    ensures r.Failure? ==>
              (r.error.productType in acc && r.error.productType in TypesOf(rest))
              || DeclaredTwice(rest, r.error.productType)
    decreases |rest|
  {
    if rest == [] then Success(acc)
    else
      var t := rest[0].GetType();
      TypesOfCons(rest);
      if t in acc then Failure(DuplicateStrategy(t))
      else
        var r := Collect(acc[t := rest[0]], rest[1..]);
        DistinctTypesCons(rest);
        if r.Failure? && r.error.productType !in acc then
          DeclaredTwiceCons(rest, r.error.productType);
          r
        else
          r
  }

  /** The registry: a map from category to the strategy that declared it. */
  datatype RuleFactory = RuleFactory(strategyMap: StrategyMap) {

    predicate Valid() {
      KeyedByType(strategyMap)
    }

    /**
     * `getStrategy(type)`: the strategy registered for `t`, or an
     * IllegalArgumentException when none declared it.
     */
    function GetStrategy(t: ProductType): (r: Result<Strategy, Error>)
      requires Valid()
      ensures r.Success? <==> t in strategyMap.Keys
      ensures r.Success? ==> r.value.GetType() == t && r.value in strategyMap.Values
      ensures r.Failure? ==> r.error == NoStrategyForType(t)
    {
      if t in strategyMap then Success(strategyMap[t]) else Failure(NoStrategyForType(t))
    }
  }

  /** The constructor `ProductRuleFactory(strategies)`. */
  function Build(strategies: seq<Strategy>): (r: Result<RuleFactory, Error>)
    ensures r.Success? <==> DistinctTypes(strategies)
    ensures r.Success? ==> r.value.Valid() && r.value.strategyMap.Keys == TypesOf(strategies)
    ensures r.Failure? ==> r.error.DuplicateStrategy? && DeclaredTwice(strategies, r.error.productType)
  {
    match Collect(map[], strategies)
    case Success(m) => Success(RuleFactory(m))
    case Failure(e) => Failure(e)
  }

  /**
   * With the three shipped strategies registered, in whatever order, the
   * registry is built and every category has its strategy.
   */
  lemma {:induction false} ShippedStrategiesCoverEveryType(strategies: seq<Strategy>)
    requires multiset(strategies) == multiset{Normal, Seasonal, Expirable}
    ensures Build(strategies).Success?
    ensures forall t :: Build(strategies).value.GetStrategy(t).Success?
  {
    assert |strategies| == 3 by {
      assert |multiset(strategies)| == |strategies|;
    }
    assert Normal in strategies && Seasonal in strategies && Expirable in strategies by {
      assert Normal in multiset(strategies) && Seasonal in multiset(strategies)
        && Expirable in multiset(strategies);
    }
    assert DistinctTypes(strategies);
    ghost var m := Build(strategies).value.strategyMap;
    forall t ensures t in m.Keys {
      match t
      case NORMAL => assert Normal.GetType() == t;
      case SEASONAL => assert Seasonal.GetType() == t;
      case EXPIRABLE => assert Expirable.GetType() == t;
    }
  }
}
