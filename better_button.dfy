/** Buttons that fire once when released, optionally also on a key, and that change colour with
    the cursor (src/common/better_button.rs). */
module BetterButton {
  import Components
  import opened Input

  /** The engine's `Interaction` of a UI node with the cursor. */
  datatype Interaction = Pressed | Hovered | None

  /** The `ReleaseButton` component: whether the button was released this frame, and the
      interaction it had the frame before. */
  datatype ReleaseButton = ReleaseButton(justReleased: bool, previousInteraction: Interaction)

  /** `ReleaseButton::default()`. */
  const DefaultReleaseButton := ReleaseButton(false, None)

  /** The `ColorButton` component: the background for each interaction. */
  datatype ColorButton = ColorButton(normal: Components.Color, hovered: Components.Color, pressed: Components.Color)

  /** `ColorButton::default()`: white, then light and darker grey. */
  const DefaultColorButton := ColorButton(Components.White, Components.Srgb(0.8, 0.8, 0.8), Components.Srgb(0.6, 0.6, 0.6))

  /** One release button for one frame.  A pulse from the frame before is cleared, whatever the
      cursor now does; otherwise the button fires when the cursor lets go while still over it
      (Pressed, then Hovered).  The interaction is remembered either way. */
  function ReleaseStep(b: ReleaseButton, now: Interaction): (r: ReleaseButton)
    ensures r.previousInteraction == now
    ensures b.justReleased ==> !r.justReleased
    ensures !b.justReleased ==> (r.justReleased <==> b.previousInteraction == Pressed && now == Hovered)
  {
    if b.justReleased then ReleaseButton(false, now)
    else ReleaseButton(b.previousInteraction == Pressed && now == Hovered, now)
  }

  /** Letting go outside the button (Pressed, then None) never fires. */
  lemma ReleasedOutsideDoesNotFire(b: ReleaseButton)
    requires b.previousInteraction == Pressed
    ensures !ReleaseStep(b, None).justReleased
  {
  }

  /** The button's states over a run of frames, starting from `b`: the state after each frame. */
  function ReleaseRun(b: ReleaseButton, frames: seq<Interaction>): (r: seq<ReleaseButton>)
    ensures |r| == |frames|
    ensures forall k :: 0 <= k < |r| ==> r[k].previousInteraction == frames[k]
    decreases |frames|
  {
    if frames == [] then []
    else
      var next := ReleaseStep(b, frames[0]);
      var rest := ReleaseRun(next, frames[1..]);
      assert forall k :: 1 <= k < |frames| ==> ([next] + rest)[k] == rest[k - 1];
      [next] + rest
  }

  /** A release is a one-frame pulse: starting from any state, no two consecutive frames both
      have `just_released`. */
  lemma {:induction false} ReleaseIsAPulse(b: ReleaseButton, frames: seq<Interaction>, k: nat)
    requires k + 1 < |frames|
    ensures !(ReleaseRun(b, frames)[k].justReleased && ReleaseRun(b, frames)[k + 1].justReleased)
    decreases k
  {
    var next := ReleaseStep(b, frames[0]);
    assert ReleaseRun(b, frames) == [next] + ReleaseRun(next, frames[1..]);
    if k == 0 {
      var after := ReleaseStep(next, frames[1]);
      assert ReleaseRun(next, frames[1..])[0] == after;
    } else {
      ReleaseIsAPulse(next, frames[1..], k - 1);
    }
  }

  /** The force-key step: the key, if just pressed, makes the button fire whatever the cursor did. */
  function ForceKeyStep(b: ReleaseButton, key: KeyCode, input: ButtonInput): (r: ReleaseButton)
    ensures r.previousInteraction == b.previousInteraction
    ensures r.justReleased <==> b.justReleased || key in input.justPressed
  {
    if key in input.justPressed then b.(justReleased := true) else b
  }

  /** The background colour for an interaction. */
  function ColourFor(c: ColorButton, i: Interaction): (col: Components.Color)
    ensures i == Pressed ==> col == c.pressed
    ensures i == Hovered ==> col == c.hovered
    ensures i == None ==> col == c.normal
  {
    match i
    case Pressed => c.pressed
    case Hovered => c.hovered
    case None => c.normal
  }

  /** A UI button entity with the components the three systems query: the interaction and
      whether it changed this frame, an optional `ReleaseButton`, an optional force key, an
      optional `ColorButton` and the background colour. */
  datatype UiButton = UiButton(
    interaction: Interaction,
    interactionChanged: bool,
    release: Components.Option<ReleaseButton>,
    forceKey: Components.Option<KeyCode>,
    colours: Components.Option<ColorButton>,
    background: Components.Color)

  /** `update_release_buttons` on one entity. */
  function ReleaseEntity(u: UiButton): (r: UiButton)
    ensures r.release.Some? <==> u.release.Some?
    ensures u.release.Some? ==> r.release.value == ReleaseStep(u.release.value, u.interaction)
    ensures r == u.(release := r.release)
  {
    if u.release.Some? then u.(release := Components.Some(ReleaseStep(u.release.value, u.interaction))) else u
  }

  /** `update_release_buttons_with_force_key` on one entity. */
  function ForceEntity(u: UiButton, input: ButtonInput): (r: UiButton)
    ensures r.release.Some? <==> u.release.Some?
    ensures u.release.Some? && u.forceKey.Some? ==> r.release.value == ForceKeyStep(u.release.value, u.forceKey.value, input)
    ensures !(u.release.Some? && u.forceKey.Some?) ==> r == u
    ensures r == u.(release := r.release)
  {
    if u.release.Some? && u.forceKey.Some? then
      u.(release := Components.Some(ForceKeyStep(u.release.value, u.forceKey.value, input)))
    else u
  }

  /** `update_color_buttons` on one entity: only a button whose interaction changed is repainted. */
  function ColourEntity(u: UiButton): (r: UiButton)
    ensures u.colours.Some? && u.interactionChanged ==> r.background == ColourFor(u.colours.value, u.interaction)
    ensures !(u.colours.Some? && u.interactionChanged) ==> r == u
    ensures r == u.(background := r.background)
  {
    if u.colours.Some? && u.interactionChanged then u.(background := ColourFor(u.colours.value, u.interaction)) else u
  }

  /** The buttons of the user interface. */
  class Buttons {
    var buttons: seq<UiButton>

    constructor (bs: seq<UiButton>)
      ensures buttons == bs
    {
      buttons := bs;
    }

    /** `update_release_buttons`. */
    method UpdateReleaseButtons()
      modifies this
      ensures |buttons| == |old(buttons)|
      ensures forall k :: 0 <= k < |buttons| ==> buttons[k] == ReleaseEntity(old(buttons)[k])
    {
      var i := 0;
      while i < |buttons|
        invariant 0 <= i <= |buttons| == |old(buttons)|
        invariant forall k :: 0 <= k < i ==> buttons[k] == ReleaseEntity(old(buttons)[k])
        invariant forall k :: i <= k < |buttons| ==> buttons[k] == old(buttons)[k]
      {
        var u := buttons[i];
        if u.release.Some? {
          var b := u.release.value;
          if b.justReleased {
            b := b.(justReleased := false);
          } else {
            if u.interaction == Hovered {
              if b.previousInteraction == Pressed {
                b := b.(justReleased := true);
              }
            }
          }
          b := b.(previousInteraction := u.interaction);
          buttons := buttons[i := u.(release := Components.Some(b))];
        }
        i := i + 1;
      }
    }

    /** `update_release_buttons_with_force_key`. */
    method UpdateReleaseButtonsWithForceKey(input: ButtonInput)
      modifies this
      ensures |buttons| == |old(buttons)|
      ensures forall k :: 0 <= k < |buttons| ==> buttons[k] == ForceEntity(old(buttons)[k], input)
    {
      var i := 0;
      while i < |buttons|
        invariant 0 <= i <= |buttons| == |old(buttons)|
        invariant forall k :: 0 <= k < i ==> buttons[k] == ForceEntity(old(buttons)[k], input)
        invariant forall k :: i <= k < |buttons| ==> buttons[k] == old(buttons)[k]
      {
        var u := buttons[i];
        if u.release.Some? && u.forceKey.Some? {
          if u.forceKey.value in input.justPressed {
            buttons := buttons[i := u.(release := Components.Some(u.release.value.(justReleased := true)))];
          }
        }
        i := i + 1;
      }
    }

    /** `update_color_buttons`. */
    method UpdateColorButtons()
      modifies this
      ensures |buttons| == |old(buttons)|
      ensures forall k :: 0 <= k < |buttons| ==> buttons[k] == ColourEntity(old(buttons)[k])
    {
      var i := 0;
      while i < |buttons|
        invariant 0 <= i <= |buttons| == |old(buttons)|
        invariant forall k :: 0 <= k < i ==> buttons[k] == ColourEntity(old(buttons)[k])
        invariant forall k :: i <= k < |buttons| ==> buttons[k] == old(buttons)[k]
      {
        var u := buttons[i];
        if u.colours.Some? && u.interactionChanged {
          var c := u.colours.value;
          match u.interaction {
            case Pressed => buttons := buttons[i := u.(background := c.pressed)];
            case Hovered => buttons := buttons[i := u.(background := c.hovered)];
            case None => buttons := buttons[i := u.(background := c.normal)];
          }
        }
        i := i + 1;
      }
    }

    /** The plugin's `PreUpdate` systems: the colour update, and the release update chained
        before the force-key update. */
    method PreUpdate(input: ButtonInput)
      modifies this
      ensures |buttons| == |old(buttons)|
      ensures forall k :: 0 <= k < |buttons| ==>
                buttons[k] == ForceEntity(ReleaseEntity(ColourEntity(old(buttons)[k])), input)
    {
      UpdateColorButtons();
      UpdateReleaseButtons();
      UpdateReleaseButtonsWithForceKey(input);
    }
  }

  /** After a frame, a release button with a force key fires if its key was just pressed, and
      otherwise exactly as the release step says. */
  lemma FrameFiresOnKeyOrRelease(u: UiButton, input: ButtonInput)
    requires u.release.Some? && u.forceKey.Some?
    ensures var r := ForceEntity(ReleaseEntity(ColourEntity(u)), input);
            r.release.Some?
            && (r.release.value.justReleased <==>
                  u.forceKey.value in input.justPressed
                  || ReleaseStep(u.release.value, u.interaction).justReleased)
            && r.release.value.previousInteraction == u.interaction
  {
  }

  /** The colour update and the release updates touch different components, so their order
      does not matter. */
  lemma ColourAndReleaseCommute(u: UiButton, input: ButtonInput)
    ensures ForceEntity(ReleaseEntity(ColourEntity(u)), input) == ColourEntity(ForceEntity(ReleaseEntity(u), input))
  {
  }
}
