/** The `useReducer` counter of src/exercise/01.js: a `{count}` record that an
    `INCREMENT` action moves forward by the action's `step`. */
module Counter {
  import opened Wrappers

  /** The reducer's state record `{count}`. */
  datatype CounterState = CounterState(count: int)

  /** An action object `{type, step, ...}`; `type` is spelled `kind` here, and
      `extra` holds any other properties the object carries (their values
      written as strings). */
  datatype CounterAction = CounterAction(kind: string, step: int, extra: map<string, string>)

  const Increment := "INCREMENT"

  /** Props defaults of the `Counter` component. */
  const DefaultInitialCount := 0
  const DefaultStep := 1

  /** `stateReducer`: `INCREMENT` adds the step to the count; every other
      action type falls through the switch and yields `undefined` (`None`). */
  function StateReducer(previous: CounterState, action: CounterAction): (r: Option<CounterState>)
    ensures r.Some? <==> action.kind == Increment
    ensures r.Some? ==> r.value.count - previous.count == action.step
  {
    if action.kind == Increment then Some(CounterState(previous.count + action.step)) else None
  }

  /** The action `Counter`'s button click dispatches: `{type: 'INCREMENT', step}`.
      From any state it adds `step` to the count. */
  function Click(step: int): (a: CounterAction)
    ensures forall s :: StateReducer(s, a) == Some(CounterState(s.count + step))
  {
    CounterAction(Increment, step, map[])
  }

  /** The state after dispatching `actions` in order. Once a step has made the
      state `undefined` no counter state exists any more (reading `.count` of
      it would throw), so `None` absorbs the rest. */
  function Dispatch(state: Option<CounterState>, actions: seq<CounterAction>): Option<CounterState>
    decreases |actions|
  {
    if actions == [] then state
    else match state
      case None => None
      case Some(s) => Dispatch(StateReducer(s, actions[0]), actions[1..])
  }

  predicate AllIncrements(actions: seq<CounterAction>)
  {
    forall i :: 0 <= i < |actions| ==> actions[i].kind == Increment
  }

  function TotalStep(actions: seq<CounterAction>): int
  {
    if actions == [] then 0 else actions[0].step + TotalStep(actions[1..])
  }

  function Clicks(step: int, n: nat): (r: seq<CounterAction>)
    ensures |r| == n
  {
    seq(n, _ => Click(step))
  }

  /** The result of a step depends only on the previous count and the action's
      type and step: whatever else the two action objects carry is ignored. */
  lemma ReducerDependsOnlyOnCountAndStep(p1: CounterState, p2: CounterState, a1: CounterAction, a2: CounterAction)
    requires p1.count == p2.count && a1.kind == a2.kind && a1.step == a2.step
    ensures StateReducer(p1, a1) == StateReducer(p2, a2)
  {
  }

  /** Two increments give the same count whichever is dispatched first. */
  lemma IncrementsCommute(s: CounterState, a: CounterAction, b: CounterAction)
    ensures Dispatch(Some(s), [a, b]) == Dispatch(Some(s), [b, a])
  {
    DispatchPair(s, a, b);
    DispatchPair(s, b, a);
  }

  lemma DispatchPair(s: CounterState, a: CounterAction, b: CounterAction)
    ensures Dispatch(Some(s), [a, b]) ==
      if a.kind == Increment && b.kind == Increment then Some(CounterState(s.count + a.step + b.step)) else None
  {
    assert [a, b][1..] == [b];
    assert Dispatch(Some(s), [a, b]) == Dispatch(StateReducer(s, a), [b]);
    if a.kind == Increment {
      var t := CounterState(s.count + a.step);
      assert [b][1..] == [];
      assert Dispatch(Some(t), [b]) == Dispatch(StateReducer(t, b), []);
    }
  }

  /** A dispatch sequence leaves a counter state exactly when every action is an
      `INCREMENT`, and then the count has moved by the sum of the steps. */
  lemma {:induction false} DispatchIncrements(s: CounterState, actions: seq<CounterAction>)
    ensures Dispatch(Some(s), actions).Some? <==> AllIncrements(actions)
    ensures Dispatch(Some(s), actions).Some? ==>
      Dispatch(Some(s), actions).value.count == s.count + TotalStep(actions)
    decreases |actions|
  {
    if actions != [] {
      var next := StateReducer(s, actions[0]);
      if next.Some? {
        DispatchIncrements(next.value, actions[1..]);
        if AllIncrements(actions[1..]) {
          forall i | 0 <= i < |actions| ensures actions[i].kind == Increment {
            if i > 0 { assert actions[i] == actions[1..][i - 1]; }
          }
        } else {
          var j :| 0 <= j < |actions[1..]| && actions[1..][j].kind != Increment;
          assert actions[j + 1].kind != Increment;
        }
      } else {
        assert actions[0].kind != Increment;
      }
    }
  }

  /** Dispatching `xs` and then `ys` is dispatching `xs + ys`. */
  lemma {:induction false} DispatchConcat(state: Option<CounterState>, xs: seq<CounterAction>, ys: seq<CounterAction>)
    ensures Dispatch(state, xs + ys) == Dispatch(Dispatch(state, xs), ys)
    decreases |xs|
  {
    if xs == [] {
      assert xs + ys == ys;
    } else if state.Some? {
      assert (xs + ys)[0] == xs[0] && (xs + ys)[1..] == xs[1..] + ys;
      DispatchConcat(StateReducer(state.value, xs[0]), xs[1..], ys);
    } else {
      assert Dispatch(None, ys) == None;
    }
  }

  /** Once a dispatch has made the counter state `undefined`, no later
      dispatch brings a counter state back. */
  lemma DispatchFromUndefined(s: CounterState, xs: seq<CounterAction>, ys: seq<CounterAction>)
    requires Dispatch(Some(s), xs) == None
    ensures Dispatch(Some(s), xs + ys) == None
  {
    DispatchConcat(Some(s), xs, ys);
    assert ys == [] || Dispatch(None, ys) == None;
  }

  /** `n` clicks of a `Counter` with step `step` take `{count: initialCount}`
      to `{count: initialCount + n * step}`. */
  lemma {:induction false} ClicksCount(initialCount: int, step: int, n: nat)
    ensures Dispatch(Some(CounterState(initialCount)), Clicks(step, n)) == Some(CounterState(initialCount + n * step))
  {
    DispatchIncrements(CounterState(initialCount), Clicks(step, n));
    ClicksTotal(step, n);
  }

  lemma {:induction false} ClicksTotal(step: int, n: nat)
    ensures AllIncrements(Clicks(step, n))
    ensures TotalStep(Clicks(step, n)) == n * step
  {
    if n > 0 {
      ClicksTotal(step, n - 1);
      assert Clicks(step, n)[1..] == Clicks(step, n - 1);
    }
  }

  /** With the default props, one click shows `{count: 1}`. */
  lemma DefaultOneClick()
    ensures Dispatch(Some(CounterState(DefaultInitialCount)), [Click(DefaultStep)]) == Some(CounterState(1))
  {
  }
}
