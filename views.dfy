/** The button dispatch of the in-game menus (src/game/views/pause.rs, summary.rs and
    options.rs) and of the main menu (src/menu/menu_view.rs).  Each system scans its button
    queries in a fixed order and acts on the first released button it finds, then returns. */
module Views {
  import Components
  import opened Events
  import opened States
  import opened BetterButton

  /** Some button in the query was released this frame. */
  predicate AnyReleased(bs: seq<ReleaseButton>) {
    exists i :: 0 <= i < |bs| && bs[i].justReleased
  }

  /** The scan of one button query: `for button in query { if button.just_released { .. } }`. */
  method ScanReleased(bs: seq<ReleaseButton>) returns (found: bool)
    ensures found <==> AnyReleased(bs)
  {
    var i := 0;
    while i < |bs|
      invariant 0 <= i <= |bs|
      invariant forall k :: 0 <= k < i ==> !bs[k].justReleased
    {
      if bs[i].justReleased {
        return true;
      }
      i := i + 1;
    }
    return false;
  }

  // ------------------------------------------------------------------ pause

  datatype PauseAction = ToMenu | Restart | Continue | Options | NoAction

  /** The button the pause view acts on: Menu before Restart before Continue before Options. */
  function PauseChoice(menu: seq<ReleaseButton>, restart: seq<ReleaseButton>, cont: seq<ReleaseButton>,
                       options: seq<ReleaseButton>): (a: PauseAction)
    ensures a == ToMenu <==> AnyReleased(menu)
    ensures a == Restart <==> !AnyReleased(menu) && AnyReleased(restart)
    ensures a == Continue <==> !AnyReleased(menu) && !AnyReleased(restart) && AnyReleased(cont)
    ensures a == Options <==> !AnyReleased(menu) && !AnyReleased(restart) && !AnyReleased(cont) && AnyReleased(options)
    ensures a == NoAction <==> !AnyReleased(menu) && !AnyReleased(restart) && !AnyReleased(cont) && !AnyReleased(options)
  {
    if AnyReleased(menu) then ToMenu
    else if AnyReleased(restart) then Restart
    else if AnyReleased(cont) then Continue
    else if AnyReleased(options) then Options
    else NoAction
  }

  /** `check_pause_interactions`: at most one event, the one for the first released button in
      priority order. */
  method CheckPauseInteractions(menu: seq<ReleaseButton>, restart: seq<ReleaseButton>, cont: seq<ReleaseButton>,
                                options: seq<ReleaseButton>,
                                menuRequested: EventWriter<MenuRequested>, optionsRequested: EventWriter<OptionsRequested>,
                                restartRequested: EventWriter<RestartRequested>,
                                togglePause: EventWriter<TogglePauseRequested>)
    modifies menuRequested, optionsRequested, restartRequested, togglePause
    ensures var a := PauseChoice(menu, restart, cont, options);
            && menuRequested.sent == old(menuRequested.sent) + (if a == ToMenu then [MenuRequested] else [])
            && restartRequested.sent == old(restartRequested.sent) + (if a == Restart then [RestartRequested] else [])
            && togglePause.sent == old(togglePause.sent) + (if a == Continue then [TogglePauseRequested] else [])
            && optionsRequested.sent == old(optionsRequested.sent) + (if a == Options then [OptionsRequested] else [])
  {
    var found := ScanReleased(menu);
    if found {
      menuRequested.Send(MenuRequested);
      return;
    }
    found := ScanReleased(restart);
    if found {
      restartRequested.Send(RestartRequested);
      return;
    }
    found := ScanReleased(cont);
    if found {
      togglePause.Send(TogglePauseRequested);
      return;
    }
    found := ScanReleased(options);
    if found {
      optionsRequested.Send(OptionsRequested);
      return;
    }
  }

  /** The number of events the pause view sends for a choice. */
  function PauseEventCount(a: PauseAction): (n: nat)
    ensures n <= 1
    ensures n == 0 <==> a == NoAction
  {
    if a == NoAction then 0 else 1
  }

  /** The pause view sends nothing exactly when no button of it was released. */
  lemma PauseSilentIffNothingReleased(menu: seq<ReleaseButton>, restart: seq<ReleaseButton>, cont: seq<ReleaseButton>,
                                      options: seq<ReleaseButton>)
    ensures PauseEventCount(PauseChoice(menu, restart, cont, options)) == 0
            <==> !(AnyReleased(menu) || AnyReleased(restart) || AnyReleased(cont) || AnyReleased(options))
  {
  }

  // ---------------------------------------------------------------- summary

  datatype SummaryAction = SummaryToMenu | SummaryRestart | SummaryNothing

  /** The button the summary view acts on: Menu before Restart. */
  function SummaryChoice(menu: seq<ReleaseButton>, restart: seq<ReleaseButton>): (a: SummaryAction)
    ensures a == SummaryToMenu <==> AnyReleased(menu)
    ensures a == SummaryRestart <==> !AnyReleased(menu) && AnyReleased(restart)
    ensures a == SummaryNothing <==> !AnyReleased(menu) && !AnyReleased(restart)
  {
    if AnyReleased(menu) then SummaryToMenu
    else if AnyReleased(restart) then SummaryRestart
    else SummaryNothing
  }

  /** `check_summary_interactions` */
  method CheckSummaryInteractions(menu: seq<ReleaseButton>, restart: seq<ReleaseButton>,
                                  menuRequested: EventWriter<MenuRequested>,
                                  restartRequested: EventWriter<RestartRequested>)
    modifies menuRequested, restartRequested
    ensures var a := SummaryChoice(menu, restart);
            && menuRequested.sent == old(menuRequested.sent) + (if a == SummaryToMenu then [MenuRequested] else [])
            && restartRequested.sent == old(restartRequested.sent) + (if a == SummaryRestart then [RestartRequested] else [])
  {
    var found := ScanReleased(menu);
    if found {
      menuRequested.Send(MenuRequested);
      return;
    }
    found := ScanReleased(restart);
    if found {
      restartRequested.Send(RestartRequested);
      return;
    }
  }

  // ---------------------------------------------------------------- options

  datatype OptionsAction = Accept | Cancel | OptionsNothing

  /** The button the options view acts on: Accept before Cancel. */
  function OptionsChoice(accept: seq<ReleaseButton>, cancel: seq<ReleaseButton>): (a: OptionsAction)
    ensures a == Accept <==> AnyReleased(accept)
    ensures a == Cancel <==> !AnyReleased(accept) && AnyReleased(cancel)
    ensures a == OptionsNothing <==> !AnyReleased(accept) && !AnyReleased(cancel)
  {
    if AnyReleased(accept) then Accept
    else if AnyReleased(cancel) then Cancel
    else OptionsNothing
  }

  /** `check_options_interactions`: Accept sends `UpdateOptions` and then closes the view with
      `TogglePauseRequested`; Cancel only closes it. */
  method CheckOptionsInteractions(accept: seq<ReleaseButton>, cancel: seq<ReleaseButton>,
                                  updateOptions: EventWriter<UpdateOptions>,
                                  togglePause: EventWriter<TogglePauseRequested>)
    modifies updateOptions, togglePause
    ensures var a := OptionsChoice(accept, cancel);
            && updateOptions.sent == old(updateOptions.sent) + (if a == Accept then [UpdateOptions] else [])
            && togglePause.sent == old(togglePause.sent) + (if a != OptionsNothing then [TogglePauseRequested] else [])
  {
    var found := ScanReleased(accept);
    if found {
      updateOptions.Send(UpdateOptions);
      togglePause.Send(TogglePauseRequested);
      return;
    }
    found := ScanReleased(cancel);
    if found {
      togglePause.Send(TogglePauseRequested);
      return;
    }
  }

  // ------------------------------------------------------------------- menu

  datatype MenuAction = Play | Quit | MenuNothing

  /** The button the main menu acts on: Play before Quit. */
  function MenuChoice(play: seq<ReleaseButton>, quit: seq<ReleaseButton>): (a: MenuAction)
    ensures a == Play <==> AnyReleased(play)
    ensures a == Quit <==> !AnyReleased(play) && AnyReleased(quit)
    ensures a == MenuNothing <==> !AnyReleased(play) && !AnyReleased(quit)
  {
    if AnyReleased(play) then Play
    else if AnyReleased(quit) then Quit
    else MenuNothing
  }

  /** `check_menu_interactions`: Play requests the in-game application state, Quit exits. */
  method CheckMenuInteractions(play: seq<ReleaseButton>, quit: seq<ReleaseButton>,
                               nextState: NextState<AppState>, appExit: EventWriter<AppExit>)
    modifies nextState, appExit
    ensures var a := MenuChoice(play, quit);
            && nextState.pending == (if a == Play then Components.Some(InGame) else old(nextState.pending))
            && appExit.sent == old(appExit.sent) + (if a == Quit then [AppExit] else [])
  {
    var found := ScanReleased(play);
    if found {
      nextState.Set(InGame);
      return;
    }
    found := ScanReleased(quit);
    if found {
      appExit.Send(AppExit);
      return;
    }
  }
}
