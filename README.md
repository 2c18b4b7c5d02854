# Reducer-driven state of the counter and Pokémon exercises

This project models the state logic of two React exercises and proves
properties of it in Dafny.

- **Counter** (`src/exercise/01.js`). `stateReducer` turns `{count}` into
  `{count: count + step}` on an `INCREMENT` action. On any other action it
  returns `undefined`, modelled as `None`. The clicks of `Counter` are modelled
  as a sequence of dispatches. Module `Counter`.
- **Async status machine** (`src/exercise/02.js`).
  - `genericAsyncReducer` is modelled as a pure function that returns a
    `Result`; an unknown action type is a `Failure`. The initial-state merge of
    `useAsync` is a function too. Module `AsyncReducer`.
  - The `mounted` flag of `useSafeDispatch`, the reducer state and the
    operations handed to `run` live in the class `AsyncHook` (module
    `SafeAsync`). Mounting, teardown and the settling of an operation are
    explicit method calls.
  - The status → outcome chain of `PokemonInfo` and its lookup effect are in
    module `PokemonInfo`.

JavaScript `null` and `undefined` are both `None`. The action field `type` is
named `kind`, because `type` is a Dafny keyword. A status is a `string`: the
reducer only writes `pending`, `resolved` and `rejected`, but `initialState`
may put any string there. That is why the final "impossible" throw of
`PokemonInfo` is a real outcome in the model. `PokemonInfo.NeverImpossible`
proves that it cannot happen from any initial state `PokemonInfo` creates,
whatever name the same instance is later rendered with.

The invariant of the async state is `AsyncReducer.Settled`. After any
successful dispatch, the status is one of the three the reducer writes,
`data` is set only when `resolved`, and `error` is set only when `rejected`.
`AsyncHook.Valid` says the state is either the initial one or settled.

Two facts about the code shape the model:
- The code does not guarantee that exactly one of `data`/`error` is non-null
  outside `idle`/`pending`. A promise may resolve with `null`, and
  `initialState` may set any field. Only `Settled` holds after a dispatch.
- The mounted flag starts `false` and becomes `true` only when the effect
  runs, so a dispatch before that is dropped (`SafeAsync.RunBeforeMount`).

## Model

| member | source | states |
|---|---|---|
| Counter.StateReducer | src/exercise/01.js:6-13 | A new state exists exactly for `INCREMENT`, and then its count exceeds the previous one by `step`; any other type gives `undefined` (`None`) |
| Counter.ReducerDependsOnlyOnCountAndStep | src/exercise/01.js:6-10 | The result depends only on the previous `count` and on the action's type and `step`; any other properties of the action object are ignored |
| Counter.IncrementsCommute | src/exercise/01.js:9-10 | Two dispatches give the same state in either order |
| Counter.DispatchIncrements | src/exercise/01.js:6-27 | A run of dispatches (`Dispatch`, as `useReducer` applies them) leaves a state iff every action is `INCREMENT`, and then the count has moved by the sum of the steps |
| Counter.DispatchConcat | src/exercise/01.js:20-27 | Dispatching `xs` and then `ys` is the same as dispatching `xs + ys` |
| Counter.DispatchFromUndefined | src/exercise/01.js:11-12 | Once a dispatch has made the state `undefined`, no later dispatch yields a counter state again |
| Counter.Click | src/exercise/01.js:27 | The click action adds `step` to the count from any state |
| Counter.ClicksCount | src/exercise/01.js:20-27 | From `{count: initialCount}`, `n` clicks with step `s` give `{count: initialCount + n*s}` |
| Counter.DefaultOneClick | src/exercise/01.js:15-27 | With the defaults `initialCount = 0` and `step = 1`, one click gives `{count: 1}` |
| AsyncReducer.GenericAsyncReducer | src/exercise/02.js:14-32 | `pending` gives `pending`/null/null, `resolved` gives `resolved`/`data`/null, `rejected` gives `rejected`/null/`error`, whatever the prior state; any other type fails with `UnhandledActionType(type)` and never gives a state |
| AsyncReducer.MessageNamesType | src/exercise/02.js:28-30 | The thrown message (`Message`: `Unhandled action type: ` followed by the type) determines the type: two unhandled actions with the same message have the same type |
| AsyncReducer.ReducerIgnoresPriorState | src/exercise/02.js:14-31 | The outcome of a dispatch is the same from any two prior states |
| AsyncReducer.Settled | src/exercise/02.js:14-31 | The state invariant: in a settled state, `pending` has no data and no error, `resolved` has no error, and `rejected` has no data |
| AsyncReducer.StepSettles | src/exercise/02.js:14-31 | After any successful step, from any state, the state is `Settled` |
| AsyncReducer.InitialState | src/exercise/02.js:52-57 | Each of status/data/error is the `initialState` field when present, and otherwise `idle`/null/null |
| AsyncReducer.DefaultInitialState | src/exercise/02.js:52-57 | Without `initialState`, the state starts `idle` with null data and error |
| AsyncReducer.StepsIsLastAction | src/exercise/02.js:14-52 | A non-empty run of dispatches (`Steps`, as `useReducer` applies them) succeeds iff every type is handled, and then it equals the reducer applied to the last action |
| AsyncReducer.StepsSettle | src/exercise/02.js:14-31 | After any non-empty successful run of dispatches, from any initial state, the state is settled |
| SafeAsync.PendingAction | src/exercise/02.js:62 | The `{type: 'pending'}` action is one the reducer handles |
| SafeAsync.PendingFromAnyState | src/exercise/02.js:16-19 | From any prior state the `pending` action gives `pending` with null data and error |
| SafeAsync.SettleAction | src/exercise/02.js:63-70 | The action a settlement dispatches is always one the reducer handles |
| SafeAsync.SettleFromAnyState | src/exercise/02.js:20-27 | From any prior state a settlement gives `resolved` with the value and null error, or `rejected` with the reason and null data |
| SafeAsync.AsyncHook.constructor | src/exercise/02.js:34-57 | The hook starts unmounted, with the merged initial state and no operation in flight |
| SafeAsync.AsyncHook.Mount | src/exercise/02.js:37-38 | The mount effect sets the flag to `true`, changes nothing else and keeps the invariant |
| SafeAsync.AsyncHook.Unmount | src/exercise/02.js:39-41 | The teardown sets the flag to `false`, changes nothing else and keeps the invariant |
| SafeAsync.AsyncHook.SafeDispatch | src/exercise/02.js:44-48 | While unmounted, a dispatch leaves the state unchanged; while mounted, it applies the reducer or throws its error with the state unchanged; the invariant is kept |
| SafeAsync.AsyncHook.Run | src/exercise/02.js:61-63 | `run` dispatches `pending` at once (taking effect only when mounted) and registers one new in-flight operation |
| SafeAsync.AsyncHook.Complete | src/exercise/02.js:63-70 | Settling an operation removes it from flight and moves the state to `resolved(value)` or `rejected(reason)`, only if still mounted |
| SafeAsync.RunThenFulfil | src/exercise/02.js:61-66 | A mounted hook whose operation fulfils with `v` passes through `pending`, then `resolved` with data `v` |
| SafeAsync.RunThenReject | src/exercise/02.js:61-70 | A mounted hook whose operation rejects with `e` passes through `pending`, then `rejected` with error `e` |
| SafeAsync.UnmountBeforeSettle | src/exercise/02.js:34-71 | A hook torn down before its operation settles stays `pending` |
| SafeAsync.RunBeforeMount | src/exercise/02.js:34-62 | Before the mount effect runs, `run` leaves the initial state unchanged |
| PokemonInfo.Render | src/exercise/02.js:140-150 | `idle` or an empty name gives the prompt; otherwise `pending` gives the fallback for the name, `rejected` throws the stored error, `resolved` shows the stored data, and only an unknown status reaches the impossible throw |
| PokemonInfo.InitialOverrides | src/exercise/02.js:105-107 | `PokemonInfo` creates its hook `pending` for a name and `idle` for an empty one, with null data and error |
| PokemonInfo.FirstRender | src/exercise/02.js:105-143 | The first render shows the prompt for an empty name and the fallback otherwise |
| PokemonInfo.NeverImpossible | src/exercise/02.js:105-150 | An instance created for one name and rendered for any name (the reducer state survives a name change) never reaches the impossible throw after any successful run of dispatches |
| PokemonInfo.RenderHook | src/exercise/02.js:140-150 | Rendering a valid hook created by `PokemonInfo` for any name, with any current name, never takes the impossible throw |
| PokemonInfo.LookupEffect | src/exercise/02.js:109-114 | For an empty name nothing changes; otherwise one lookup is run, which puts a mounted hook in `pending` |

## Left out

- React rendering, JSX, and the lifecycle and memoisation of `useRef`, `useEffect`, `useCallback` and `useReducer`. The mounted flag and the state are plain fields, and mount and teardown are explicit calls.
- Promise scheduling and asynchrony. A settlement is an explicit `Complete` call. The `inFlight` set of tickets is not in the source. It stands for the promise rule that each operation settles once.
- The timing of a reducer exception. React re-throws it during the next render. The model returns it from `SafeDispatch` and keeps the previous state.
- `fetchPokemon`, `PokemonForm`, `PokemonDataView`, `PokemonInfoFallback` and `PokemonErrorBoundary` come from `../pokemon`, which is not part of this model. A lookup is represented only by the ticket it is given.
- The `App`, `AppWithUnmountCheckbox` and `Counter` components, beyond the dispatches they drive. They are UI wiring.
- Commented-out code in `src/exercise/02.js`.
- JavaScript numbers are doubles. `count` and `step` are modelled as unbounded integers, so there is no precision loss above 2^53 and no non-numeric `step`, such as a string that `+` would concatenate.
- The initial-state merge treats a status field that is present but `undefined` the same as an absent one. Fields of `initialState` other than status/data/error are not modelled. Neither is the `run` property of the object that `useAsync` returns.
- The counter's `undefined` state ends a dispatch run. In the source, the next render would throw on reading `.count` of it.
- The action type is a string. In the source, the template literal turns any `type` into text (a missing type gives `Unhandled action type: undefined`). Non-string types are not modelled.
- Counter action properties other than `type` and `step` have their values modelled as strings. The reducer ignores them either way.
- The name given to `PokemonInfo` is a string. A name is falsy only when empty; `null` and `undefined` names are not modelled.
