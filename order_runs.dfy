/**
 * The loop of `processOrder` on the value level, for any list of per-item
 * outcomes: items are processed in order until one fails; the failing item and
 * every item after it keep their states, and nothing done before is rolled back.
 */
module OrderRuns {
  import opened Wrappers
  import opened Errors
  import opened Products

  /** The items form a set: no product is listed twice. */
  predicate Distinct(items: seq<Product>) {
    forall i, j :: 0 <= i < j < |items| ==> items[i] != items[j]
  }

  /** The result of a pass over a list of items: final states, calls made, and the failure if any. */
  datatype Run = Run(states: seq<ProductState>, calls: seq<Call>, failure: Option<Error>)

  /** The lists a pass works on: one state and one outcome per item. */
  predicate Aligned(items: seq<Product>, states: seq<ProductState>, outcomes: seq<Result<Step, Error>>) {
    |items| == |states| == |outcomes|
  }

  /**
   * A pass from position `i` on: item `j` starts in `states[j]`, and its rule
   * has the value-level outcome `outcomes[j]` (computed from that state).
   */
  function RunFrom(items: seq<Product>, states: seq<ProductState>, outcomes: seq<Result<Step, Error>>, i: nat): (run: Run)
    requires Aligned(items, states, outcomes) && i <= |states|
    ensures |run.states| == |states| - i
    decreases |states| - i
  {
    if i == |states| then Run([], [], None)
    else
      match outcomes[i]
      case Failure(e) => Run(states[i..], [], Some(e))
      case Success(step) =>
        var rest := RunFrom(items, states, outcomes, i + 1);
        Run([step.state] + rest.states, Calls(items[i], step.effects) + rest.calls, rest.failure)
  }

  /** A run on a list whose first part is already done. */
  function Prepend(states: seq<ProductState>, calls: seq<Call>, run: Run): Run {
    Run(states + run.states, calls + run.calls, run.failure)
  }

  lemma PrependTwice(s1: seq<ProductState>, c1: seq<Call>, s2: seq<ProductState>, c2: seq<Call>, run: Run)
    ensures Prepend(s1, c1, Prepend(s2, c2, run)) == Prepend(s1 + s2, c1 + c2, run)
  {
    assert s1 + (s2 + run.states) == (s1 + s2) + run.states;
    assert c1 + (c2 + run.calls) == (c1 + c2) + run.calls;
  }

  /** The position of the first failing outcome from `i` on, or the length when none fails. */
  function FirstFailure(outcomes: seq<Result<Step, Error>>, i: nat): (k: nat)
    requires i <= |outcomes|
    ensures i <= k <= |outcomes|
    ensures forall j :: i <= j < k ==> outcomes[j].Success?
    ensures k < |outcomes| ==> outcomes[k].Failure?
    decreases |outcomes| - i
  {
    if i == |outcomes| || outcomes[i].Failure? then i else FirstFailure(outcomes, i + 1)
  }

  /** A pass from `i` fails exactly when some outcome from `i` on fails, with the first such error. */
  lemma {:induction false} RunFromVerdict(items: seq<Product>, states: seq<ProductState>,
                                          outcomes: seq<Result<Step, Error>>, i: nat)
    requires Aligned(items, states, outcomes) && i <= |states|
    ensures var run, k := RunFrom(items, states, outcomes, i), FirstFailure(outcomes, i);
      && (run.failure.None? <==> k == |states|)
      && (k < |states| ==> run.failure == Some(outcomes[k].error))
    decreases |states| - i
  {
    if i < |states| && outcomes[i].Success? {
      RunFromVerdict(items, states, outcomes, i + 1);
    }
  }

  /** The state a pass from `i` leaves item `j` in: its new state before the first failure, else its old one. */
  lemma {:induction false} RunFromStateAt(items: seq<Product>, states: seq<ProductState>,
                                          outcomes: seq<Result<Step, Error>>, i: nat, j: nat)
    requires Aligned(items, states, outcomes) && i <= j < |states|
    ensures RunFrom(items, states, outcomes, i).states[j - i] ==
              if j < FirstFailure(outcomes, i) then outcomes[j].value.state else states[j]
    decreases |states| - i
  {
    if outcomes[i].Success? && i < j {
      RunFromStateAt(items, states, outcomes, i + 1, j);
    }
  }

  /** Unfolding a pass from `i` whose item `i` succeeds. */
  lemma RunFromStep(items: seq<Product>, states: seq<ProductState>, outcomes: seq<Result<Step, Error>>, i: nat)
    requires Aligned(items, states, outcomes) && i < |states| && outcomes[i].Success?
    ensures var step := outcomes[i].value;
      RunFrom(items, states, outcomes, i)
        == Prepend([step.state], Calls(items[i], step.effects), RunFrom(items, states, outcomes, i + 1))
  {
  }

  /** Unfolding a pass from `i` whose item `i` fails. */
  lemma RunFromFails(items: seq<Product>, states: seq<ProductState>, outcomes: seq<Result<Step, Error>>, i: nat)
    requires Aligned(items, states, outcomes) && i < |states| && outcomes[i].Failure?
    ensures RunFrom(items, states, outcomes, i) == Run(states[i..], [], Some(outcomes[i].error))
  {
  }

  /** The calls of a log that concern product `p`, in order. */
  function CallsFor(calls: seq<Call>, p: Product): (cs: seq<Call>)
    ensures |cs| <= |calls|
  {
    if calls == [] then []
    else (if calls[0].product == p then [calls[0]] else []) + CallsFor(calls[1..], p)
  }

  lemma {:induction false} CallsForConcat(a: seq<Call>, b: seq<Call>, p: Product)
    ensures CallsFor(a + b, p) == CallsFor(a, p) + CallsFor(b, p)
  {
    if a == [] {
      assert a + b == b;
    } else {
      var head := if a[0].product == p then [a[0]] else [];
      assert (a + b)[0] == a[0] && (a + b)[1..] == a[1..] + b;
      calc {
        CallsFor(a + b, p);
        head + CallsFor(a[1..] + b, p);
        { CallsForConcat(a[1..], b, p); }
        head + (CallsFor(a[1..], p) + CallsFor(b, p));
        (head + CallsFor(a[1..], p)) + CallsFor(b, p);
      }
    }
  }

  lemma {:induction false} CallsForCalls(q: Product, effects: seq<Effect>, p: Product)
    ensures CallsFor(Calls(q, effects), p) == if q == p then Calls(q, effects) else []
  {
    if effects != [] {
      var cs := Calls(q, effects);
      assert cs[1..] == Calls(q, effects[1..]);
      CallsForCalls(q, effects[1..], p);
    }
  }

  /** A pass from `i` makes no call about a product not listed from `i` on. */
  lemma {:induction false} RunFromNoCalls(items: seq<Product>, states: seq<ProductState>,
                                          outcomes: seq<Result<Step, Error>>, i: nat, p: Product)
    requires Aligned(items, states, outcomes) && i <= |states|
    requires forall j :: i <= j < |items| ==> items[j] != p
    ensures CallsFor(RunFrom(items, states, outcomes, i).calls, p) == []
    decreases |states| - i
  {
    if i < |states| && outcomes[i].Success? {
      var effects := outcomes[i].value.effects;
      CallsForConcat(Calls(items[i], effects), RunFrom(items, states, outcomes, i + 1).calls, p);
      CallsForCalls(items[i], effects, p);
      RunFromNoCalls(items, states, outcomes, i + 1, p);
    }
  }

  /** The calls a pass from `i` makes about item `j`: its rule's calls before the first failure, else none. */
  lemma {:induction false} RunFromCallsAt(items: seq<Product>, states: seq<ProductState>,
                                          outcomes: seq<Result<Step, Error>>, i: nat, j: nat)
    requires Aligned(items, states, outcomes) && i <= j < |states| && Distinct(items)
    ensures CallsFor(RunFrom(items, states, outcomes, i).calls, items[j]) ==
              if j < FirstFailure(outcomes, i) then Calls(items[j], outcomes[j].value.effects) else []
    decreases |states| - i
  {
    if outcomes[i].Success? {
      var effects := outcomes[i].value.effects;
      CallsForConcat(Calls(items[i], effects), RunFrom(items, states, outcomes, i + 1).calls, items[j]);
      CallsForCalls(items[i], effects, items[j]);
      if j == i {
        RunFromNoCalls(items, states, outcomes, i + 1, items[i]);
      } else {
        assert items[i] != items[j];
        RunFromCallsAt(items, states, outcomes, i + 1, j);
      }
    }
  }

  // Ghost bookkeeping of the imperative loop: `done` holds the new states of the
  // items already processed, `logged` the calls made so far, and `total` the
  // whole pass.

  lemma LoopStarts(items: seq<Product>, initial: seq<ProductState>, outcomes: seq<Result<Step, Error>>)
    requires Aligned(items, initial, outcomes)
    ensures RunFrom(items, initial, outcomes, 0) == Prepend([], [], RunFrom(items, initial, outcomes, 0))
    ensures [] + initial[0..] == initial
  {
    var run := RunFrom(items, initial, outcomes, 0);
    assert [] + run.states == run.states && [] + run.calls == run.calls;
    assert initial[0..] == initial;
  }

  lemma LoopAdvances(items: seq<Product>, initial: seq<ProductState>, outcomes: seq<Result<Step, Error>>,
                     i: nat, done: seq<ProductState>, logged: seq<Call>, total: Run)
    requires Aligned(items, initial, outcomes) && i == |done| < |initial| && outcomes[i].Success?
    requires total == Prepend(done, logged, RunFrom(items, initial, outcomes, i))
    ensures var step := outcomes[i].value;
      && total == Prepend(done + [step.state], logged + Calls(items[i], step.effects),
                          RunFrom(items, initial, outcomes, i + 1))
      && (done + initial[i..])[i := step.state] == (done + [step.state]) + initial[i + 1..]
  {
    var step := outcomes[i].value;
    RunFromStep(items, initial, outcomes, i);
    PrependTwice(done, logged, [step.state], Calls(items[i], step.effects),
                 RunFrom(items, initial, outcomes, i + 1));
    UpdateNext(done, initial, step.state);
  }

  lemma LoopStops(items: seq<Product>, initial: seq<ProductState>, outcomes: seq<Result<Step, Error>>,
                  i: nat, done: seq<ProductState>, logged: seq<Call>, total: Run)
    requires Aligned(items, initial, outcomes) && i == |done| < |initial| && outcomes[i].Failure?
    requires total == Prepend(done, logged, RunFrom(items, initial, outcomes, i))
    ensures total == Run(done + initial[i..], logged, Some(outcomes[i].error))
  {
    RunFromFails(items, initial, outcomes, i);
    assert logged + [] == logged;
  }

  lemma LoopEnds(items: seq<Product>, initial: seq<ProductState>, outcomes: seq<Result<Step, Error>>,
                 done: seq<ProductState>, logged: seq<Call>, total: Run)
    requires Aligned(items, initial, outcomes) && |done| == |initial|
    requires total == Prepend(done, logged, RunFrom(items, initial, outcomes, |initial|))
    ensures total == Run(done, logged, None)
    ensures done + initial[|initial|..] == done
  {
    assert done + [] == done && logged + [] == logged;
  }

  /** Replacing the first state not yet done by its new value. */
  lemma UpdateNext(done: seq<ProductState>, initial: seq<ProductState>, x: ProductState)
    requires |done| < |initial|
    ensures (done + initial[|done|..])[|done| := x] == (done + [x]) + initial[|done| + 1..]
  {
  }
}
