/** The state behind `useAsync` (src/exercise/02.js): the reducer state, the
    `mounted` flag of `useSafeDispatch`, and the operations started by `run`
    that have not settled yet. Mounting, teardown and the settling of an
    operation are explicit events. */
module SafeAsync {
  import opened Wrappers
  import opened AsyncReducer

  /** How an operation handed to `run` settles: fulfilled with a value or
      rejected with a reason (either may be `null`/`undefined`). */
  datatype Settlement<D, E> = Fulfilled(value: Option<D>) | Failed(reason: Option<E>)

  /** `{type: 'pending'}` */
  function PendingAction<D, E>(): (a: AsyncAction<D, E>)
    ensures Handled(a.kind)
  {
    AsyncAction(Pending, None, None)
  }

  /** From any prior state the `pending` action gives `pending` with neither
      data nor error. */
  lemma PendingFromAnyState<D, E>(st: AsyncState<D, E>)
    ensures GenericAsyncReducer(st, PendingAction()) == Success(AsyncState(Pending, None, None))
  {
  }

  /** The action a settlement callback dispatches: `{type: 'resolved', data}`
      or `{type: 'rejected', error}`; the reducer always handles it. */
  function SettleAction<D, E>(s: Settlement<D, E>): (a: AsyncAction<D, E>)
    ensures Handled(a.kind)
  {
    match s
    case Fulfilled(v) => AsyncAction(Resolved, v, None)
    case Failed(e) => AsyncAction(Rejected, None, e)
  }

  /** From any prior state a settlement gives `resolved` with the value or
      `rejected` with the reason, and the other field null. */
  lemma SettleFromAnyState<D, E>(st: AsyncState<D, E>, s: Settlement<D, E>)
    ensures GenericAsyncReducer(st, SettleAction(s)) ==
      Success(match s
        case Fulfilled(v) => AsyncState(Resolved, v, None)
        case Failed(e) => AsyncState(Rejected, None, e))
  {
  }

  class AsyncHook<D, E> {
    /** `mountedRef.current` */
    var mounted: bool
    /** the reducer state */
    var state: AsyncState<D, E>
    /** tickets of the operations `run` was given that have not settled */
    var inFlight: set<nat>
    var nextTicket: nat
    /** the state the hook was created with */
    ghost const initial: AsyncState<D, E>

    /** The state is the initial one until a dispatch has gone through, and
        settled from then on. */
    ghost predicate Valid()
      reads this
    {
      (state == initial || Settled(state))
      && forall t :: t in inFlight ==> t < nextTicket
    }

    /** `useAsync(initialState)`: the reducer starts from the merged initial
        state and `mountedRef` starts `false`. */
    constructor (init: Overrides<D, E>)
      ensures Valid()
      ensures state == InitialState(init) && initial == state
      ensures !mounted && inFlight == {}
    {
      mounted := false;
      state := InitialState(init);
      initial := InitialState(init);
      inFlight := {};
      nextTicket := 0;
    }

    /** The effect of `useSafeDispatch` runs: the flag becomes `true`. */
    method Mount()
      requires Valid()
      modifies this`mounted
      ensures Valid()
      ensures mounted
    {
      mounted := true;
    }

    /** The effect's cleanup runs on teardown: the flag becomes `false`. */
    method Unmount()
      requires Valid()
      modifies this`mounted
      ensures Valid()
      ensures !mounted
    {
      mounted := false;
    }

    /** The guarded `dispatch`: dropped while not mounted; otherwise the
        reducer runs, and an unhandled action type is thrown (returned as
        `thrown`) with the state left as it was. */
    method SafeDispatch(action: AsyncAction<D, E>) returns (thrown: Option<ReducerError>)
      requires Valid()
      modifies this`state
      ensures Valid()
      ensures !mounted ==> state == old(state) && thrown == None
      ensures mounted ==> match GenericAsyncReducer(old(state), action)
        case Success(next) => state == next && thrown == None
        case Failure(e) => state == old(state) && thrown == Some(e)
    {
      thrown := None;
      if mounted {
        var r := GenericAsyncReducer(state, action);
        match r {
          case Success(next) =>
            StepSettles(state, action);
            state := next;
          case Failure(e) =>
            thrown := Some(e);
        }
      }
    }

    /** `run(promise)`: dispatches `pending` at once and registers the
        operation; `ticket` names it for its later settlement. */
    method Run() returns (ticket: nat)
      requires Valid()
      modifies this`state, this`inFlight, this`nextTicket
      ensures Valid()
      ensures ticket !in old(inFlight) && inFlight == old(inFlight) + {ticket}
      ensures state == if mounted then AsyncState(Pending, None, None) else old(state)
    {
      var thrown := SafeDispatch(PendingAction());
      ticket := nextTicket;
      inFlight := inFlight + {ticket};
      nextTicket := nextTicket + 1;
    }

    /** The operation `ticket` settles: its callback dispatches `resolved` or
        `rejected`, which takes effect only if the hook is still mounted. */
    method Complete(ticket: nat, outcome: Settlement<D, E>)
      requires Valid() && ticket in inFlight
      modifies this`state, this`inFlight
      ensures Valid()
      ensures inFlight == old(inFlight) - {ticket}
      ensures state == if !mounted then old(state) else match outcome
        case Fulfilled(v) => AsyncState(Resolved, v, None)
        case Failed(e) => AsyncState(Rejected, None, e)
    {
      var thrown := SafeDispatch(SettleAction(outcome));
      inFlight := inFlight - {ticket};
    }
  }

  /** A mounted hook given an operation that fulfils with `v` goes through
      `pending` and then `resolved` with `v` as its data. */
  method RunThenFulfil<D, E>(v: D) returns (afterRun: AsyncState<D, E>, afterSettle: AsyncState<D, E>)
    ensures afterRun == AsyncState(Pending, None, None)
    ensures afterSettle == AsyncState(Resolved, Some(v), None)
  {
    var hook := new AsyncHook<D, E>(NoOverrides());
    hook.Mount();
    var t := hook.Run();
    afterRun := hook.state;
    hook.Complete(t, Fulfilled(Some(v)));
    afterSettle := hook.state;
  }

  /** A mounted hook given an operation that rejects with `e` goes through
      `pending` and then `rejected` with `e` as its error. */
  method RunThenReject<D, E>(e: E) returns (afterRun: AsyncState<D, E>, afterSettle: AsyncState<D, E>)
    ensures afterRun == AsyncState(Pending, None, None)
    ensures afterSettle == AsyncState(Rejected, None, Some(e))
  {
    var hook := new AsyncHook<D, E>(NoOverrides());
    hook.Mount();
    var t := hook.Run();
    afterRun := hook.state;
    hook.Complete(t, Failed(Some(e)));
    afterSettle := hook.state;
  }

  /** A hook torn down before its operation settles stays `pending`, however
      the operation settles. */
  method UnmountBeforeSettle<D, E>(outcome: Settlement<D, E>) returns (afterRun: AsyncState<D, E>, afterSettle: AsyncState<D, E>)
    ensures afterRun == AsyncState(Pending, None, None)
    ensures afterSettle == afterRun
  {
    var hook := new AsyncHook<D, E>(NoOverrides());
    hook.Mount();
    var t := hook.Run();
    afterRun := hook.state;
    hook.Unmount();
    hook.Complete(t, outcome);
    afterSettle := hook.state;
  }

  /** Before the mount effect has run, `run` changes nothing: the `pending`
      dispatch is dropped and the hook keeps its initial state. */
  method RunBeforeMount<D, E>(init: Overrides<D, E>) returns (afterRun: AsyncState<D, E>)
    ensures afterRun == InitialState(init)
  {
    var hook := new AsyncHook<D, E>(init);
    var t := hook.Run();
    afterRun := hook.state;
  }
}
