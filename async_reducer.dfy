/** `genericAsyncReducer` and the initial-state merge of `useAsync`
    (src/exercise/02.js): a four-status machine over the record
    `{status, data, error}`. JavaScript `null` and `undefined` are `None`. */
module AsyncReducer {
  import opened Wrappers

  /** A status is a string: the reducer only ever writes the four below, but
      `initialState` may put any string there. */
  type Status = string

  const Idle: Status := "idle"
  const Pending: Status := "pending"
  const Resolved: Status := "resolved"
  const Rejected: Status := "rejected"

  /** The reducer's state record. */
  datatype AsyncState<D, E> = AsyncState(status: Status, data: Option<D>, error: Option<E>)

  /** An action object `{type, data, error}`; a field the object lacks is `None`. */
  datatype AsyncAction<D, E> = AsyncAction(kind: string, data: Option<D>, error: Option<E>)

  /** The exception the reducer throws on an action type it does not know. */
  datatype ReducerError = UnhandledActionType(kind: string)

  function Message(e: ReducerError): string
  {
    "Unhandled action type: " + e.kind
  }

  /** The action types the reducer handles. */
  predicate Handled(kind: string)
  {
    kind == Pending || kind == Resolved || kind == Rejected
  }

  /** `genericAsyncReducer`: every handled action fully determines the next
      state, whatever the previous one; any other type throws. */
  function GenericAsyncReducer<D, E>(state: AsyncState<D, E>, action: AsyncAction<D, E>): (r: Result<AsyncState<D, E>, ReducerError>)
    ensures r.Success? <==> Handled(action.kind)
    ensures r.Success? ==> r.value.status == action.kind
    ensures action.kind == Pending ==> r == Success(AsyncState(Pending, None, None))
    ensures action.kind == Resolved ==> r == Success(AsyncState(Resolved, action.data, None))
    ensures action.kind == Rejected ==> r == Success(AsyncState(Rejected, None, action.error))
    ensures r.Failure? ==> r.error == UnhandledActionType(action.kind)
  {
    if action.kind == Pending then Success(AsyncState(Pending, None, None))
    else if action.kind == Resolved then Success(AsyncState(Resolved, action.data, None))
    else if action.kind == Rejected then Success(AsyncState(Rejected, None, action.error))
    else Failure(UnhandledActionType(action.kind))
  }

  /** The invariant every reducer step establishes: the status is one the
      reducer writes, `data` is set only when resolved and `error` only when
      rejected (so `pending` has neither). */
  predicate Settled<D, E>(s: AsyncState<D, E>)
    ensures Settled(s) && s.status == Pending ==> s.data.None? && s.error.None?
    ensures Settled(s) && s.status == Resolved ==> s.error.None?
    ensures Settled(s) && s.status == Rejected ==> s.data.None?
  {
    Handled(s.status)
    && (s.data.Some? ==> s.status == Resolved)
    && (s.error.Some? ==> s.status == Rejected)
  }

  /** The thrown message names the offending type unambiguously: two
      unhandled actions with the same message have the same type. */
  lemma MessageNamesType<D, E>(s1: AsyncState<D, E>, a1: AsyncAction<D, E>, s2: AsyncState<D, E>, a2: AsyncAction<D, E>)
    requires !Handled(a1.kind) && !Handled(a2.kind)
    requires Message(GenericAsyncReducer(s1, a1).error) == Message(GenericAsyncReducer(s2, a2).error)
    ensures a1.kind == a2.kind
  {
    var prefix := "Unhandled action type: ";
    var m := Message(GenericAsyncReducer(s1, a1).error);
    assert m == prefix + a1.kind && m == prefix + a2.kind;
    assert a1.kind == m[|prefix|..] == a2.kind;
  }

  /** A successful step never depends on the previous state. */
  lemma ReducerIgnoresPriorState<D, E>(s1: AsyncState<D, E>, s2: AsyncState<D, E>, action: AsyncAction<D, E>)
    ensures GenericAsyncReducer(s1, action) == GenericAsyncReducer(s2, action)
  {
  }

  /** Every successful step lands in a settled state. */
  lemma StepSettles<D, E>(state: AsyncState<D, E>, action: AsyncAction<D, E>)
    requires GenericAsyncReducer(state, action).Success?
    ensures Settled(GenericAsyncReducer(state, action).value)
  {
  }

  /** Field-wise overrides of the default state: the `initialState` object
      passed to `useAsync`. The outer `Option` says whether the field is
      present; a present `data` or `error` may itself be `null`. */
  datatype Overrides<D, E> = Overrides(status: Option<Status>, data: Option<Option<D>>, error: Option<Option<E>>)

  /** `useAsync()` with no `initialState`. */
  function NoOverrides<D, E>(): Overrides<D, E>
  {
    Overrides(None, None, None)
  }

  /** `{status: 'idle', data: null, error: null, ...initialState}` */
  function InitialState<D, E>(init: Overrides<D, E>): (s: AsyncState<D, E>)
    ensures init.status.None? ==> s.status == Idle
    ensures init.data.None? ==> s.data.None?
    ensures init.error.None? ==> s.error.None?
    ensures init.status.Some? ==> s.status == init.status.value
    ensures init.data.Some? ==> s.data == init.data.value
    ensures init.error.Some? ==> s.error == init.error.value
  {
    AsyncState(
      match init.status case Some(st) => st case None => Idle,
      match init.data case Some(d) => d case None => None,
      match init.error case Some(e) => e case None => None)
  }

  /** With no overrides the hook starts idle with neither data nor error. */
  lemma DefaultInitialState<D, E>()
    ensures InitialState(NoOverrides<D, E>()) == AsyncState(Idle, None, None)
  {
  }

  /** The state after dispatching `actions` in order; the first unhandled
      action throws and nothing after it is applied. */
  function Steps<D, E>(state: AsyncState<D, E>, actions: seq<AsyncAction<D, E>>): Result<AsyncState<D, E>, ReducerError>
    decreases |actions|
  {
    if actions == [] then Success(state)
    else match GenericAsyncReducer(state, actions[0])
      case Failure(e) => Failure(e)
      case Success(next) => Steps(next, actions[1..])
  }

  predicate AllHandled<D, E>(actions: seq<AsyncAction<D, E>>)
  {
    forall i :: 0 <= i < |actions| ==> Handled(actions[i].kind)
  }

  /** A non-empty run of dispatches succeeds exactly when every action type is
      handled, and then only the last action decides the state. */
  lemma {:induction false} StepsIsLastAction<D, E>(state: AsyncState<D, E>, actions: seq<AsyncAction<D, E>>)
    requires actions != []
    ensures Steps(state, actions).Success? <==> AllHandled(actions)
    ensures Steps(state, actions).Success? ==>
      Steps(state, actions) == GenericAsyncReducer(state, actions[|actions| - 1])
    decreases |actions|
  {
    var first := GenericAsyncReducer(state, actions[0]);
    if first.Success? && |actions| > 1 {
      var rest := actions[1..];
      StepsIsLastAction(first.value, rest);
      assert rest[|rest| - 1] == actions[|actions| - 1];
      ReducerIgnoresPriorState(first.value, state, actions[|actions| - 1]);
      if AllHandled(rest) {
        forall i | 0 <= i < |actions| ensures Handled(actions[i].kind) {
          if i > 0 { assert actions[i] == rest[i - 1]; }
        }
      } else {
        var j :| 0 <= j < |rest| && !Handled(rest[j].kind);
        assert actions[j + 1] == rest[j];
      }
    }
  }

  /** After any non-empty successful run of dispatches the state is settled,
      whatever the initial state was. */
  lemma StepsSettle<D, E>(state: AsyncState<D, E>, actions: seq<AsyncAction<D, E>>)
    requires actions != [] && Steps(state, actions).Success?
    ensures Settled(Steps(state, actions).value)
  {
    StepsIsLastAction(state, actions);
  }
}
