/** The decision `PokemonInfo` makes from the hook's state and the name it is
    given (src/exercise/02.js), and the effect that starts a lookup. */
module PokemonInfo {
  import opened Wrappers
  import opened AsyncReducer
  import opened SafeAsync

  /** What one render of `PokemonInfo` produces. */
  datatype View<D, E> =
    | Prompt                        // the text 'Submit a pokemon'
    | Fallback(name: string)        // the loading view for `name`
    | ThrowStored(error: Option<E>) // `throw error`, for the error boundary
    | DataView(pokemon: Option<D>)  // the data view of `data`
    | ThrowImpossible               // `throw new Error('This should be impossible')`

  /** The `if`/`else if` chain of `PokemonInfo`; a name is falsy when empty. */
  function Render<D, E>(state: AsyncState<D, E>, pokemonName: string): (v: View<D, E>)
    ensures v.Prompt? <==> state.status == Idle || pokemonName == ""
    ensures v.Fallback? <==> state.status == Pending && pokemonName != ""
    ensures v.ThrowStored? <==> state.status == Rejected && pokemonName != ""
    ensures v.DataView? <==> state.status == Resolved && pokemonName != ""
    ensures v.ThrowImpossible? <==> pokemonName != "" && !(state.status == Idle || Handled(state.status))
    ensures v.Fallback? ==> v.name == pokemonName
    ensures v.ThrowStored? ==> v.error == state.error
    ensures v.DataView? ==> v.pokemon == state.data
  {
    if state.status == Idle || pokemonName == "" then Prompt
    else if state.status == Pending then Fallback(pokemonName)
    else if state.status == Rejected then ThrowStored(state.error)
    else if state.status == Resolved then DataView(state.data)
    else ThrowImpossible
  }

  /** `useAsync({status: pokemonName ? 'pending' : 'idle'})`: the hook starts
      `pending` for a name and `idle` for none, with neither data nor error. */
  function InitialOverrides<D, E>(pokemonName: string): (o: Overrides<D, E>)
    ensures InitialState(o) == AsyncState(if pokemonName != "" then Pending else Idle, None, None)
  {
    Overrides(Some(if pokemonName != "" then Pending else Idle), None, None)
  }

  /** Before any dispatch `PokemonInfo` shows the prompt for an empty name and
      the loading view otherwise. */
  lemma FirstRender<D, E>(pokemonName: string)
    ensures Render(InitialState(InitialOverrides<D, E>(pokemonName)), pokemonName) ==
      if pokemonName == "" then Prompt else Fallback(pokemonName)
  {
  }

  /** A `PokemonInfo` instance created for `initName` and rendered later for
      any `pokemonName` (the same instance keeps its reducer state when the
      name changes): whatever run of dispatches succeeds, it never reaches
      the "impossible" throw. */
  lemma NeverImpossible<D, E>(initName: string, pokemonName: string, actions: seq<AsyncAction<D, E>>)
    requires Steps(InitialState(InitialOverrides<D, E>(initName)), actions).Success?
    ensures !Render(Steps(InitialState(InitialOverrides<D, E>(initName)), actions).value, pokemonName).ThrowImpossible?
  {
    if actions != [] {
      StepsSettle(InitialState(InitialOverrides<D, E>(initName)), actions);
    }
  }

  /** Rendering a valid hook created by `PokemonInfo` for `initName` with any
      current name: the "impossible" throw is never taken. */
  method RenderHook<D, E>(hook: AsyncHook<D, E>, initName: string, pokemonName: string) returns (v: View<D, E>)
    requires hook.Valid() && hook.initial == InitialState(InitialOverrides<D, E>(initName))
    ensures !v.ThrowImpossible?
    ensures v == Render(hook.state, pokemonName)
  {
    v := Render(hook.state, pokemonName);
  }

  /** The effect of `PokemonInfo`: nothing for an empty name, otherwise `run`
      on the lookup of that name (the lookup itself is external). */
  method LookupEffect<D, E>(hook: AsyncHook<D, E>, pokemonName: string) returns (ticket: Option<nat>)
    requires hook.Valid()
    modifies hook`state, hook`inFlight, hook`nextTicket
    ensures hook.Valid()
    ensures pokemonName == "" ==> ticket == None && unchanged(hook)
    ensures pokemonName != "" ==>
      && ticket.Some? && ticket.value !in old(hook.inFlight)
      && hook.inFlight == old(hook.inFlight) + {ticket.value}
      && hook.state == if hook.mounted then AsyncState(Pending, None, None) else old(hook.state)
  {
    if pokemonName == "" {
      ticket := None;
    } else {
      var t := hook.Run();
      ticket := Some(t);
    }
  }
}
