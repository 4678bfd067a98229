/**
 * The pieces of the popup window's show/hide logic that do not touch
 * state: the events the menubar emits, the choice of tray bounds and of
 * the position name passed to the positioner, and what the event log
 * says about whether a window is held.
 */
module Popup {
  import opened Js

  /** The events `menubar` emits around the window, in the order of their names in the source. */
  datatype Event =
    | HidingWindow   // 'hiding-window'
    | ClearWindow    // 'clear-window'
    | ShowingWindow  // 'showing-window'
    | AfterShow      // 'after-show'
    | CreateWindow   // 'create-window'
    | AfterCreateWindow  // 'after-create-window'
    | Hide           // 'hide'
    | AfterHide      // 'after-hide'
    | AfterClose     // 'after-close'
    | FocusLost      // 'focus-lost'
  {
    /** The two events that mark a window reference being taken or dropped. */
    predicate Lifecycle() {
      CreateWindow? || AfterClose?
    }
  }

  /** An Electron rectangle, as the tray reports its bounds. */
  datatype Bounds = Bounds(x: int, y: int, width: int, height: int)

  datatype Point = Point(x: int, y: int)

  /** The window `this.window` refers to: where it was last placed, and whether it is shown. */
  datatype Window = Window(position: Option<Point>, visible: bool)

  /** The last window-lifecycle event of a log, if any. */
  function LastLifecycle(events: seq<Event>): (m: Option<Event>)
    ensures m.Some? ==> m.value.Lifecycle() && m.value in events
    ensures m.None? ==> forall i :: 0 <= i < |events| ==> !events[i].Lifecycle()
  {
    if events == [] then None
    else if events[|events| - 1].Lifecycle() then Some(events[|events| - 1])
    else LastLifecycle(events[..|events| - 1])
  }

  /** A log says a window is held when its last lifecycle event is 'create-window'. */
  predicate HoldsWindow(events: seq<Event>) {
    LastLifecycle(events) == Some(CreateWindow)
  }

  /** Appending events without a lifecycle event leaves the answer to the older log; otherwise the newer events decide. */
  lemma {:induction false} LastLifecycleAppend(older: seq<Event>, newer: seq<Event>)
    ensures LastLifecycle(older + newer)
      == if LastLifecycle(newer).Some? then LastLifecycle(newer) else LastLifecycle(older)
  {
    if newer == [] {
      assert older + newer == older;
    } else {
      var n := |newer| - 1;
      assert (older + newer)[..|older + newer| - 1] == older + newer[..n];
      assert (older + newer)[|older + newer| - 1] == newer[n];
      LastLifecycleAppend(older, newer[..n]);
    }
  }

  /**
   * The bounds `showWindow` goes on with: the bounds passed in unless they
   * are missing or at x = 0, in which case the tray's own `getBounds()`
   * (`None` when the tray has no such method; it
   * returns a rectangle otherwise) replaces them.
   */
  function EffectiveTrayPos(trayPos: Option<Bounds>, getBounds: Option<Bounds>): (p: Option<Bounds>)
    ensures trayPos.Some? && trayPos.value.x != 0 ==> p == trayPos
    ensures p == trayPos || (getBounds.Some? && p == getBounds)
    ensures (trayPos.None? || trayPos.value.x == 0) && getBounds.Some? ==> p == getBounds
    ensures p.None? <==> trayPos.None? && getBounds.None?
  {
    if trayPos.Some? && trayPos.value.x != 0 then trayPos
    else if getBounds.Some? then getBounds
    else trayPos
  }

  /** `noBoundsPosition || opts.windowPosition`: the position name given to the positioner. */
  function PositionName(trayPos: Option<Bounds>, windowPosition: string, platform: string): (name: string)
    ensures (trayPos.None? || trayPos.value.x == 0) && StartsWith(windowPosition, "tray") ==>
      name == if platform == "win32" then "bottomRight" else "topRight"
    ensures !((trayPos.None? || trayPos.value.x == 0) && StartsWith(windowPosition, "tray")) ==>
      name == windowPosition
  {
    SubstrPrefix(windowPosition, "tray");
    var noBoundsPosition: Option<string> :=
      if (trayPos.None? || trayPos.value.x == 0) && Substr(windowPosition, 0, 4) == "tray" then
        Some(if platform == "win32" then "bottomRight" else "topRight")
      else None;
    if noBoundsPosition.Some? && noBoundsPosition.value != "" then noBoundsPosition.value else windowPosition
  }

  /** `opts.x !== undefined ? opts.x : position.x`, and the same for y. */
  function Placement(x: Option<int>, y: Option<int>, computed: Point): (p: Point)
    ensures x.Some? ==> p.x == x.value
    ensures x.None? ==> p.x == computed.x
    ensures y.Some? ==> p.y == y.value
    ensures y.None? ==> p.y == computed.y
  {
    Point(if x.Some? then x.value else computed.x, if y.Some? then y.value else computed.y)
  }

  /** A window position that does not start with "tray" is never replaced, whatever the bounds. */
  lemma FallbackOnlyForTrayPositions(trayPos: Option<Bounds>, windowPosition: string, platform: string)
    requires !StartsWith(windowPosition, "tray")
    ensures PositionName(trayPos, windowPosition, platform) == windowPosition
  {
  }

  /** The name used is always the configured one or one of the two fallbacks. */
  lemma PositionNameRange(trayPos: Option<Bounds>, windowPosition: string, platform: string)
    ensures PositionName(trayPos, windowPosition, platform) in {windowPosition, "bottomRight", "topRight"}
  {
  }
}
