/** The resolution guard of src/window.rs: after a resize the window is kept at least as wide,
    relative to its height, as the 1280 x 720 world, and the UI scale follows the height. */
module WindowGuard {
  import Components

  /** The height of the world the camera shows. */
  const WindowWorldHeight: real := 720.0
  /** The usable width of the world. */
  const WindowUsableWorldWidth: real := 1280.0
  /** The narrowest aspect ratio the window may have. */
  const MinWindowWidthToHeight: real := WindowUsableWorldWidth / WindowWorldHeight

  /** A `WindowResized` event, by the new logical size. */
  datatype WindowResized = WindowResized(width: real, height: real)

  /** The primary window's resolution. */
  class Window {
    var width: real
    var height: real

    constructor (w: real, h: real)
      ensures width == w && height == h
    {
      width := w;
      height := h;
    }
  }

  /** The `UiScale` resource. */
  class UiScale {
    var scale: real

    constructor ()
      ensures scale == 1.0
    {
      scale := 1.0;
    }
  }

  /** The last resize event of the frame, if any. */
  function LastResize(events: seq<WindowResized>): (r: Components.Option<WindowResized>)
    ensures r.None? <==> events == []
    ensures r.Some? ==> r.value in events
  {
    if events == [] then Components.None else Components.Some(events[|events| - 1])
  }

  /** Earlier resizes of the frame are overridden by later ones. */
  lemma {:induction false} OnlyLastResizeCounts(earlier: seq<WindowResized>, later: seq<WindowResized>)
    requires later != []
    ensures LastResize(earlier + later) == LastResize(later)
  {
    assert (earlier + later)[|earlier + later| - 1] == later[|later| - 1];
  }

  /** The resolution the guard leaves for a resize to `e`, starting from `current`: a window
      narrower than the minimum ratio is widened to it at the same height; otherwise the
      resolution is left alone. */
  function Guarded(current: (real, real), e: WindowResized): (r: (real, real))
    requires e.height > 0.0
    ensures e.width / e.height < MinWindowWidthToHeight ==> r == (MinWindowWidthToHeight * e.height, e.height)
    ensures e.width / e.height >= MinWindowWidthToHeight ==> r == current
  {
    if e.width / e.height < MinWindowWidthToHeight then (MinWindowWidthToHeight * e.height, e.height)
    else current
  }

  /** When the window had taken the size of the event, the guard leaves it at least as wide as
      the minimum ratio says, and at the same height. */
  lemma GuardKeepsMinimumRatio(e: WindowResized)
    requires e.height > 0.0
    ensures var r := Guarded((e.width, e.height), e);
            r.1 == e.height && r.0 / r.1 >= MinWindowWidthToHeight
  {
    var r := Guarded((e.width, e.height), e);
    var h := e.height;
    if e.width / h < MinWindowWidthToHeight {
      var m := MinWindowWidthToHeight;
      assert (m * h) / h == m;
    }
  }

  /** A window that is already wide enough is not touched, and guarding twice is guarding once. */
  lemma GuardIdempotent(current: (real, real), e: WindowResized)
    requires e.height > 0.0
    ensures var once := Guarded(current, e);
            Guarded(once, e) == once
  {
  }

  /** `guard_resolution`: keep only the last resize event of the frame; guard the window's
      resolution against it and set the UI scale to its height over 720.  With no event nothing
      changes. */
  method GuardResolution(window: Window, events: seq<WindowResized>, uiScale: UiScale)
    requires events != [] ==> events[|events| - 1].height > 0.0
    modifies window, uiScale
    ensures var last := LastResize(events);
            && (last.None? ==> window.width == old(window.width) && window.height == old(window.height)
                               && uiScale.scale == old(uiScale.scale))
            && (last.Some? ==>
                  && (window.width, window.height) == Guarded((old(window.width), old(window.height)), last.value)
                  && uiScale.scale == last.value.height / WindowWorldHeight)
  {
    var lastEvent: Components.Option<WindowResized> := Components.None;
    var i := 0;
    while i < |events|
      invariant 0 <= i <= |events|
      invariant lastEvent == LastResize(events[..i])
    {
      lastEvent := Components.Some(events[i]);
      i := i + 1;
    }
    assert events[..i] == events;
    if lastEvent.Some? {
      var e := lastEvent.value;
      if e.width / e.height < MinWindowWidthToHeight {
        window.width := MinWindowWidthToHeight * e.height;
        window.height := e.height;
      }
      uiScale.scale := e.height / WindowWorldHeight;
    }
  }
}
