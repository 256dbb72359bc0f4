/** The screen transitions of src/screens/mod.rs: each writes the requested screen and, except
    for the credits, the requested in-game state. */
module Screens {
  import Components
  import opened States

  /** `enter_title` */
  method EnterTitle(nextScreen: NextState<Screen>, nextState: NextState<InGameState>)
    requires nextScreen as object != nextState
    modifies nextScreen, nextState
    ensures nextScreen.pending == Components.Some(Screen.Title)
    ensures nextState.pending == Components.Some(InGameState.None)
  {
    nextScreen.Set(Screen.Title);
    nextState.Set(InGameState.None);
  }

  /** `enter_game` */
  method EnterGame(nextScreen: NextState<Screen>, nextState: NextState<InGameState>)
    requires nextScreen as object != nextState
    modifies nextScreen, nextState
    ensures nextScreen.pending == Components.Some(Screen.Playing)
    ensures nextState.pending == Components.Some(InGameState.Playing)
  {
    nextScreen.Set(Screen.Playing);
    nextState.Set(InGameState.Playing);
  }

  /** `enter_prep` */
  method EnterPrep(nextScreen: NextState<Screen>, nextState: NextState<InGameState>)
    requires nextScreen as object != nextState
    modifies nextScreen, nextState
    ensures nextScreen.pending == Components.Some(Screen.Preparation)
    ensures nextState.pending == Components.Some(InGameState.Preparation)
  {
    nextScreen.Set(Screen.Preparation);
    nextState.Set(InGameState.Preparation);
  }

  /** `enter_credits`: only the screen changes. */
  method EnterCredits(nextScreen: NextState<Screen>)
    modifies nextScreen
    ensures nextScreen.pending == Components.Some(Screen.Credits)
  {
    nextScreen.Set(Screen.Credits);
  }

  /** `enter_pause` */
  method EnterPause(nextScreen: NextState<Screen>, nextState: NextState<InGameState>)
    requires nextScreen as object != nextState
    modifies nextScreen, nextState
    ensures nextScreen.pending == Components.Some(Screen.Paused)
    ensures nextState.pending == Components.Some(InGameState.Paused)
  {
    nextScreen.Set(Screen.Paused);
    nextState.Set(InGameState.Paused);
  }

  /** The transitions as values, for reasoning about them together. */
  datatype Transition = ToTitle | ToGame | ToPrep | ToCredits | ToPause

  /** The screen each transition requests, and the in-game state it requests if any. */
  function Requests(t: Transition): (r: (Screen, Components.Option<InGameState>))
    ensures r.1.None? <==> t == ToCredits
  {
    match t
    case ToTitle => (Screen.Title, Components.Some(InGameState.None))
    case ToGame => (Screen.Playing, Components.Some(InGameState.Playing))
    case ToPrep => (Screen.Preparation, Components.Some(InGameState.Preparation))
    case ToCredits => (Screen.Credits, Components.None)
    case ToPause => (Screen.Paused, Components.Some(InGameState.Paused))
  }

  /** Running a transition requests exactly what `Requests` says, and leaves the in-game
      request alone when it has none. */
  method Enter(t: Transition, nextScreen: NextState<Screen>, nextState: NextState<InGameState>)
    requires nextScreen as object != nextState
    modifies nextScreen, nextState
    ensures nextScreen.pending == Components.Some(Requests(t).0)
    ensures nextState.pending == (if Requests(t).1.Some? then Requests(t).1 else old(nextState.pending))
  {
    match t
    case ToTitle => EnterTitle(nextScreen, nextState);
    case ToGame => EnterGame(nextScreen, nextState);
    case ToPrep => EnterPrep(nextScreen, nextState);
    case ToCredits => EnterCredits(nextScreen);
    case ToPause => EnterPause(nextScreen, nextState);
  }

  /** Every transition that sets both states sets a screen and the in-game state that goes with
      it; the credits screen has no in-game state of its own. */
  lemma TransitionsAreConsistent(t: Transition)
    ensures Requests(t).1.Some? ==> Consistent(Components.Some(Requests(t).0), Requests(t).1)
    ensures Requests(t).1.Some? <==> InGameStateFor(Requests(t).0).Some?
  {
  }

  /** No two transitions request the same screen. */
  lemma TransitionsDistinct(a: Transition, b: Transition)
    requires Requests(a).0 == Requests(b).0
    ensures a == b
  {
  }
}
