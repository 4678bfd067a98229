/**
 * The `menubar` object: its options, the popup window reference it
 * creates and drops, the log of the events it emits, and the state the
 * status poll leaves behind (`this.yaml`, `this.summary`,
 * `global.summary` and the tray image).
 */
module Menubar {
  import opened Js
  import opened Stats
  import opened Popup

  /** The modifier keys of a tray click event. */
  datatype Modifiers = Modifiers(altKey: bool, shiftKey: bool, ctrlKey: bool, metaKey: bool) {
    predicate Any() {
      altKey || shiftKey || ctrlKey || metaKey
    }
  }

  /** The entries of `menubar.opts` that the modelled code reads. */
  datatype Options = Options(
    icons: Icons,
    puppetFile: string,
    windowPosition: string,
    x: Option<int>,
    y: Option<int>,
    alwaysOnTop: bool)

  /**
   * The options the application starts with. The icon paths are joined to
   * the install directory, so they are given.
   */
  function DefaultOptions(devMode: bool, icons: Icons): (o: Options)
    ensures o.icons == icons && o.alwaysOnTop == devMode && o.x.None? && o.y.None?
    ensures StartsWith(o.windowPosition, "tray")
    ensures o.puppetFile == if devMode then "data\\last_run_summary.yaml"
      else "C:\\ProgramData\\PuppetLabs\\puppet\\cache\\state\\last_run_summary.yaml"
  {
    Options(
      icons,
      if devMode then "data\\last_run_summary.yaml"
      else "C:\\ProgramData\\PuppetLabs\\puppet\\cache\\state\\last_run_summary.yaml",
      "trayBottomCenter",
      None,
      None,
      devMode)
  }

  /** `positioner.calculate(position, trayPos)`, a function of the positioner library left uninterpreted. */
  type Calculate = (string, Option<Bounds>) -> Point

  /** The window as `showWindow` leaves it: placed where the options and the positioner say, and shown. */
  function Shown(opts: Options, platform: string, trayPos: Option<Bounds>, getBounds: Option<Bounds>,
                 calculate: Calculate): (w: Window)
    ensures w.visible && w.position.Some?
  {
    var pos := EffectiveTrayPos(trayPos, getBounds);
    Window(Some(Placement(opts.x, opts.y, calculate(PositionName(pos, opts.windowPosition, platform), pos))), true)
  }

  /** The window reference after `hideWindow`: still held, but hidden. */
  function Hidden(w: Option<Window>): (h: Option<Window>)
    ensures h.Some? <==> w.Some?
    ensures h.Some? ==> !h.value.visible && h.value.position == w.value.position
  {
    if w.Some? then Some(w.value.(visible := false)) else None
  }

  class Menubar {
    const opts: Options
    /** `process.platform` */
    const platform: string

    /** `this.window`: the popup window, when one is held */
    var window: Option<Window>
    /** every window event emitted so far, oldest first */
    var events: seq<Event>

    /** `this.yaml`: the last document read */
    var yaml: Option<Document>
    /** `this.summary`: the last successful report */
    var summary: Option<Report>
    /** `global.summary`: what the popup window displays */
    var published: Option<Published>
    /** the image last set on the tray */
    var trayImage: Option<string>

    /** A window is held exactly when the last lifecycle event emitted is 'create-window'. */
    ghost predicate Valid()
      reads this
    {
      window.Some? <==> HoldsWindow(events)
    }

    constructor (opts: Options, platform: string)
      ensures Valid() && this.opts == opts && this.platform == platform
      ensures window.None? && events == []
      ensures yaml.None? && summary.None? && published.None? && trayImage.None?
    {
      this.opts := opts;
      this.platform := platform;
      window := None;
      events := [];
      yaml := None;
      summary := None;
      published := None;
      trayImage := None;
    }

    /** The tray click handler. Reports whether it threw: with no bounds, `bounds || cachedBounds` reads a variable not yet initialised. */
    method Clicked(e: Modifiers, bounds: Option<Bounds>, getBounds: Option<Bounds>, calculate: Calculate)
      returns (thrown: bool)
      requires Valid()
      modifies this`window, this`events
      ensures Valid()
      ensures thrown <==> !e.Any() && old(window).None? && bounds.None?
      ensures e.Any() ==>
        window == Hidden(old(window))
        && events == old(events) + [HidingWindow] + (if old(window).Some? then [Hide, AfterHide] else [])
      ensures !e.Any() && old(window).Some? ==>
        window.None? && events == old(events) + [ClearWindow, AfterClose]
      ensures thrown ==> window == old(window) && events == old(events)
      ensures !e.Any() && old(window).None? && bounds.Some? ==>
        window == Some(Shown(opts, platform, bounds, getBounds, calculate))
        && events == old(events) + [Event.CreateWindow, AfterCreateWindow, ShowingWindow, AfterShow]
    {
      thrown := false;
      if e.Any() {
        events := events + [HidingWindow];
        LastLifecycleAppend(old(events), [HidingWindow]);
        HideWindow();
        return;
      }
      if window.Some? {
        events := events + [ClearWindow];
        WindowClear();
        return;
      }
      if bounds.None? {
        thrown := true;
        return;
      }
      var cachedBounds := bounds;
      ShowWindow(cachedBounds, getBounds, calculate);
    }

    /** Creates the window if none is held, places it and shows it. */
    method ShowWindow(trayPos: Option<Bounds>, getBounds: Option<Bounds>, calculate: Calculate)
      requires Valid()
      modifies this`window, this`events
      ensures Valid()
      ensures window == Some(Shown(opts, platform, trayPos, getBounds, calculate))
      ensures events == old(events)
        + (if old(window).None? then [Event.CreateWindow, AfterCreateWindow] else [])
        + [ShowingWindow, AfterShow]
    {
      if window.None? {
        CreateWindow();
      }
      ghost var before := events;
      events := events + [ShowingWindow];
      // a fresh local on every call, so the cached branch below never runs
      var cachedBounds: Option<Bounds> := None;
      var pos := trayPos;
      if pos.Some? && pos.value.x != 0 {
        cachedBounds := pos;
      } else if cachedBounds.Some? {
        pos := cachedBounds;
      } else if getBounds.Some? {
        pos := getBounds;
      }

      var noBoundsPosition: Option<string> := None;
      if (pos.None? || pos.value.x == 0) && Substr(opts.windowPosition, 0, 4) == "tray" {
        noBoundsPosition := Some(if platform == "win32" then "bottomRight" else "topRight");
      }
      var name := if noBoundsPosition.Some? && noBoundsPosition.value != "" then noBoundsPosition.value
        else opts.windowPosition;
      var position := calculate(name, pos);
      var x := if opts.x.Some? then opts.x.value else position.x;
      var y := if opts.y.Some? then opts.y.value else position.y;

      window := Some(window.value.(position := Some(Point(x, y))));
      window := Some(window.value.(visible := true));
      events := events + [AfterShow];
      assert events == before + [ShowingWindow, AfterShow];
      LastLifecycleAppend(before, [ShowingWindow, AfterShow]);
    }

    /** Takes a new, not yet shown window. */
    method CreateWindow()
      modifies this`window, this`events
      ensures Valid()
      ensures window == Some(Window(None, false))
      ensures events == old(events) + [Event.CreateWindow, AfterCreateWindow]
    {
      events := events + [Event.CreateWindow];
      window := Some(Window(None, false));
      events := events + [AfterCreateWindow];
      assert events == old(events) + [Event.CreateWindow, AfterCreateWindow];
      LastLifecycleAppend(old(events), [Event.CreateWindow, AfterCreateWindow]);
    }

    /** The window's blur handler. */
    method OnBlur()
      requires Valid()
      modifies this`window, this`events
      ensures Valid()
      ensures opts.alwaysOnTop ==> window == old(window) && events == old(events) + [FocusLost]
      ensures !opts.alwaysOnTop ==> window.None? && events == old(events) + [AfterClose]
    {
      if opts.alwaysOnTop {
        EmitBlur();
      } else {
        WindowClear();
      }
    }

    /** Hides the window if one is held; never drops it. */
    method HideWindow()
      requires Valid()
      modifies this`window, this`events
      ensures Valid()
      ensures window == Hidden(old(window))
      ensures events == old(events) + (if old(window).Some? then [Hide, AfterHide] else [])
    {
      if window.None? {
        return;
      }
      events := events + [Hide];
      window := Some(window.value.(visible := false));
      events := events + [AfterHide];
      assert events == old(events) + [Hide, AfterHide];
      LastLifecycleAppend(old(events), [Hide, AfterHide]);
    }

    /** Drops the window reference; also the window's close handler. */
    method WindowClear()
      modifies this`window, this`events
      ensures Valid()
      ensures window.None? && events == old(events) + [AfterClose]
    {
      window := None;
      events := events + [AfterClose];
      LastLifecycleAppend(old(events), [AfterClose]);
    }

    method EmitBlur()
      requires Valid()
      modifies this`events
      ensures Valid()
      ensures events == old(events) + [FocusLost]
    {
      events := events + [FocusLost];
      LastLifecycleAppend(old(events), [FocusLost]);
    }

    /** One status poll on what reading and parsing the status file produced. */
    method GetStats(load: Load)
      modifies this`yaml, this`summary, this`published, this`trayImage
      ensures var o := Poll(opts.icons, opts.puppetFile, load);
        yaml == (if o.loaded.Some? then o.loaded.value else old(yaml))
        && summary == (if o.published.Success? then Some(o.published.report) else old(summary))
        && published == Some(o.published)
        && trayImage == Some(opts.icons[o.item])
    {
      var item := Pending;
      var status := "";
      var caught: Option<Exception> := None;
      match load {
        case Threw(e) =>
          caught := Some(e);
        case Loaded(doc) =>
          yaml := doc;
          if doc.None? {
            caught := Some(Exception("TypeError", Some(UndefinedPropertyMessage("time"))));
          } else if doc.value.time.None? {
            caught := Some(Exception("TypeError", Some(UndefinedPropertyMessage("last_run"))));
          } else {
            var seconds := doc.value.time.value.lastRun;
            var lastRun := LastRun(if seconds.Some? then Some(seconds.value * 1000) else None);
            if doc.value.resources.None? {
              caught := Some(Exception("TypeError", Some(UndefinedPropertyMessage("changed"))));
            } else {
              var res := doc.value.resources.value;
              var copied := Resources(res.changed, res.failed, res.outOfSync, res.skipped, res.scheduled, res.total);
              if Truthy(copied.changed) || Truthy(copied.outOfSync) || Truthy(copied.skipped) || Truthy(copied.scheduled) {
                item, status := Pending, "pending";
              } else if Truthy(copied.failed) {
                item, status := Failing, "failing";
              } else {
                item, status := Complete, "synced";
              }
              var report := Report(lastRun, copied, opts.icons[item], status);
              summary := Some(report);
              published := Some(Success(report));
            }
          }
      }
      if caught.Some? {
        item := Failing;
        var e := caught.value;
        if StringTruthy(e.message) && IndexOf(e.message.value, "ENOENT:", 0) == 0 {
          published := Some(FileMissing(NotFoundPrefix + opts.puppetFile + ".", opts.icons[item]));
        } else {
          published := Some(Failure(if StringTruthy(e.message) then Text(e.message.value) else Raw(e), opts.icons[item]));
        }
      }
      trayImage := Some(opts.icons[item]);
    }
  }
}
