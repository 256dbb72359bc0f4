/** The in-game state systems of src/game/state.rs: the clean-up on entering Preparation and the
    switch to the summary when the game has ended. */
module GameState {
  import Components
  import opened Events
  import opened States

  /** The `Score` and `GameTime` resources. */
  class Resources {
    var score: real
    var gameTime: real

    constructor ()
      ensures score == 0.0 && gameTime == 0.0
    {
      score := 0.0;
      gameTime := 0.0;
    }
  }

  /** `clean_up`: request no in-game state and reset the score and the game time to their
      defaults. */
  method CleanUp(nextState: NextState<InGameState>, res: Resources)
    modifies nextState, res
    ensures nextState.pending == Components.Some(InGameState.None)
    ensures res.score == 0.0 && res.gameTime == 0.0
  {
    nextState.Set(InGameState.None);
    res.score := 0.0;
    res.gameTime := 0.0;
  }

  /** The requests after `check_summary_condition` with `n` pending end-of-game events: none
      changes when there are none, otherwise both go to the summary. */
  function SummaryRequests(n: nat, screen: Components.Option<Screen>, inGame: Components.Option<InGameState>)
    : (r: (Components.Option<Screen>, Components.Option<InGameState>))
    ensures n == 0 ==> r == (screen, inGame)
    ensures n > 0 ==> r == (Components.Some(Screen.Summary), Components.Some(InGameState.Summary))
  {
    if n == 0 then (screen, inGame) else (Components.Some(Screen.Summary), Components.Some(InGameState.Summary))
  }

  /** However many events ended the game, the outcome is the same. */
  lemma SummaryIgnoresEventCount(n1: nat, n2: nat, screen: Components.Option<Screen>, inGame: Components.Option<InGameState>)
    requires n1 > 0 && n2 > 0
    ensures SummaryRequests(n1, screen, inGame) == SummaryRequests(n2, screen, inGame)
  {
  }

  /** The summary switch keeps the requested screen and in-game state consistent. */
  lemma SummaryKeepsConsistent(n: nat, screen: Components.Option<Screen>, inGame: Components.Option<InGameState>)
    requires Consistent(screen, inGame)
    ensures var r := SummaryRequests(n, screen, inGame); Consistent(r.0, r.1)
  {
  }

  /** `check_summary_condition` */
  method CheckSummaryCondition(endGame: EventReader<EndGameTriggered>, nextState: NextState<InGameState>,
                               nextScreen: NextState<Screen>)
    requires nextScreen as object != nextState
    modifies endGame, nextState, nextScreen
    ensures (nextScreen.pending, nextState.pending)
            == SummaryRequests(|old(endGame.unread)|, old(nextScreen.pending), old(nextState.pending))
    ensures endGame.unread == []
  {
    if endGame.IsEmpty() {
      return;
    }
    endGame.Clear();
    nextState.Set(InGameState.Summary);
    nextScreen.Set(Screen.Summary);
  }

  /** The plugin's `Update` entry: `check_summary_condition` runs only while Playing. */
  method Update(current: InGameState, endGame: EventReader<EndGameTriggered>, nextState: NextState<InGameState>,
                nextScreen: NextState<Screen>)
    requires nextScreen as object != nextState
    modifies endGame, nextState, nextScreen
    ensures current != InGameState.Playing ==>
              endGame.unread == old(endGame.unread) && nextState.pending == old(nextState.pending)
              && nextScreen.pending == old(nextScreen.pending)
    ensures current == InGameState.Playing ==>
              (nextScreen.pending, nextState.pending)
                == SummaryRequests(|old(endGame.unread)|, old(nextScreen.pending), old(nextState.pending))
              && endGame.unread == []
  {
    if current == InGameState.Playing {
      CheckSummaryCondition(endGame, nextState, nextScreen);
    }
  }
}
