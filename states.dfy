/** The game's state machines: the in-game state (src/game/state.rs), the screen
    (src/screens/mod.rs) and the application state (src/main.rs), with the engine's
    `NextState` resource through which systems request a transition. */
module States {
  import Components

  /** `InGameState`; `None` is the default. */
  datatype InGameState = None | Preparation | Playing | Paused | Summary

  const DefaultInGameState: InGameState := None

  /** `Screen`; `Splash` is the default. */
  datatype Screen = Splash | Loading | Title | Credits | Preparation | Playing | Paused | Summary

  const DefaultScreen: Screen := Splash

  /** `AppState`; `Menu` is the default. */
  datatype AppState = Menu | InGame | RestartInGame

  const DefaultAppState: AppState := Menu

  /** `NextState<S>`: the transition requested this frame, if any; a later request replaces an
      earlier one. */
  class NextState<S> {
    var pending: Components.Option<S>

    constructor ()
      ensures pending == Components.None
    {
      pending := Components.None;
    }

    /** `next_state.set(s)` */
    method Set(s: S)
      modifies this
      ensures pending == Components.Some(s)
    {
      pending := Components.Some(s);
    }
  }

  /** The in-game state that goes with each screen: the title screen belongs to no game, the
      game's own screens to the in-game state of the same name, and the other screens leave the
      in-game state alone.  The source has no such table: it is read off the pairs of states the
      transitions of src/screens/mod.rs request together, and serves to state that they agree. */
  function InGameStateFor(s: Screen): (r: Components.Option<InGameState>)
    ensures r.None? <==> s == Screen.Splash || s == Screen.Loading || s == Screen.Credits
  {
    match s
    case Title => Components.Some(None)
    case Preparation => Components.Some(InGameState.Preparation)
    case Playing => Components.Some(InGameState.Playing)
    case Paused => Components.Some(InGameState.Paused)
    case Summary => Components.Some(InGameState.Summary)
    case _ => Components.None
  }

  /** A requested screen and a requested in-game state agree: either no screen is requested,
      or the in-game state requested is the one that goes with the screen (or none is, for a
      screen that has none). */
  predicate Consistent(screen: Components.Option<Screen>, inGame: Components.Option<InGameState>) {
    screen.Some? ==>
      (InGameStateFor(screen.value).Some? ==> inGame == InGameStateFor(screen.value))
  }

  /** `InGameStateFor` names distinct states for the game's own screens. */
  lemma InGameStateForInjective(a: Screen, b: Screen)
    requires InGameStateFor(a).Some? && InGameStateFor(a) == InGameStateFor(b)
    ensures a == b
  {
  }
}
