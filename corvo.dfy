/** The cursor-hiding agent: every time the active window changes it compares
    the active window's title with the titles given on the command line and
    hides the pointer on the root window if one of them is equal to it, or
    shows it otherwise. */
module Corvo {
  import opened CStrings
  import opened Xcb

  /** exit(EXIT_FAILURE) */
  const EXIT_FAILURE: int := 1

  /** How a run ends: with an exit status, or still running, blocked in the
      wait for an event once the finite supply of events is used up. */
  datatype Outcome = Exited(status: int) | Running

  /** The calls a run makes (see Xcb.Call), and how it ends. */
  datatype Run = Run(calls: seq<Call>, outcome: Outcome)

  /** The title get_title returns for `w`: the text of its WM_NAME property,
      up to the first NUL; empty when the window has no such property. */
  function TitleOf(s: ServerState, w: Window): (t: string)
    ensures NUL !in t
    ensures w in s.wmName ==> t <= s.wmName[w] && (|t| < |s.wmName[w]| ==> s.wmName[w][|t|] == NUL)
    ensures w !in s.wmName ==> t == []
  {
    if w in s.wmName then CStr(s.wmName[w]) else []
  }

  /** The title of the active window in server state `s`. */
  function ActiveTitle(s: ServerState): string {
    TitleOf(s, s.activeWindow)
  }

  /** get_active_window: reads the root window's _NET_ACTIVE_WINDOW property. */
  method GetActiveWindow(conn: Connection) returns (w: Window)
    ensures w == conn.server.activeWindow
  {
    w := conn.server.activeWindow;
  }

  /** get_title: reads the WM_NAME property of `window`. */
  method GetTitle(conn: Connection, window: Window) returns (title: string)
    ensures title == TitleOf(conn.server, window)
  {
    title := TitleOf(conn.server, window);
  }

  /** The decision of update_cursor: some rule, that is some command-line
      argument after the program name, is equal to the title. */
  predicate Matches(title: string, titles: seq<string>) {
    exists i :: 1 <= i < |titles| && StrEqual(title, titles[i])
  }

  /** The cursor call update_cursor makes on `window`. */
  function Decision(window: Window, title: string, titles: seq<string>): Call {
    if Matches(title, titles) then HideCursor(window) else ShowCursor(window)
  }

  /** What one call of update_cursor sends: its cursor call, then a flush. */
  function Evaluation(window: Window, title: string, titles: seq<string>): seq<Call> {
    [Decision(window, title, titles), Flush]
  }

  /** update_cursor: a linear search over titles[1..] that hides the cursor
      and returns at the first equal title, and shows it when there is none. */
  method UpdateCursor(conn: Connection, window: Window, title: string, titles: seq<string>)
    modifies conn`calls
    ensures conn.calls == old(conn.calls) + Evaluation(window, title, titles)
  {
    var i := 1;
    while i < |titles|
      invariant 1 <= i
      invariant |titles| >= 1 ==> i <= |titles|
      invariant forall j :: 1 <= j < i && j < |titles| ==> !StrEqual(title, titles[j])
      invariant conn.calls == old(conn.calls)
    {
      if StrEqual(title, titles[i]) {
        conn.HideCursor(window);
        conn.Flush();
        return;
      }
      i := i + 1;
    }
    conn.ShowCursor(window);
    conn.Flush();
  }

  /** The event filter: the event code with the SendEvent bit masked off is
      PropertyNotify and the property that changed is _NET_ACTIVE_WINDOW. */
  predicate IsRelevant(ev: Event, activeWindow: Atom) {
    ev.responseType & !SEND_EVENT_BIT == PROPERTY_NOTIFY && ev.atom == activeWindow
  }

  /** The event loop over a finite sequence of waits: an evaluation for each
      relevant event, nothing for any other, and exit(EXIT_FAILURE) at the
      first null event. */
  function EventLoop(titles: seq<string>, activeWindow: Atom, root: Window, waits: seq<Wait>): Run
    decreases |waits|
  {
    if waits == [] then Run([], Running)
    else if waits[0].Failed? then Run([], Exited(EXIT_FAILURE))
    else
      var rest := EventLoop(titles, activeWindow, root, waits[1..]);
      var now := if IsRelevant(waits[0].event, activeWindow)
                 then Evaluation(root, ActiveTitle(waits[0].server), titles)
                 else [];
      Run(now + rest.calls, rest.outcome)
  }

  /** None of the startup guards of main fires. */
  predicate StartupPasses(argv: seq<string>, setup: Setup) {
    |argv| != 1 && !setup.connectionError && setup.activeWindowAtom != NONE && setup.xfixesMajor >= 4
  }

  /** The event mask main selects on the root window: property changes and
      focus changes (two distinct bits, so their sum is their bitwise or). */
  const ROOT_EVENT_MASK: Card32 := EVENT_MASK_PROPERTY_CHANGE + EVENT_MASK_FOCUS_CHANGE

  /** What main sends to subscribe to the root window's events. */
  function Subscription(root: Window): seq<Call> {
    [ChangeWindowAttributes(root, ROOT_EVENT_MASK), Flush]
  }

  /** main: the startup guards in their order, with the subscription sent
      between the atom guard and the XFixes guard, one evaluation against the
      initial server state, then the event loop. */
  function Agent(argv: seq<string>, setup: Setup, initial: ServerState, waits: seq<Wait>): Run {
    if |argv| == 1 then Run([], Exited(EXIT_FAILURE))
    else if setup.connectionError then Run([], Exited(0))
    else if setup.activeWindowAtom == NONE then Run([], Exited(EXIT_FAILURE))
    else if setup.xfixesMajor < 4 then Run(Subscription(setup.root), Exited(EXIT_FAILURE))
    else
      var first := Evaluation(setup.root, ActiveTitle(initial), argv);
      var loop := EventLoop(argv, setup.activeWindowAtom, setup.root, waits);
      Run(Subscription(setup.root) + first + loop.calls, loop.outcome)
  }

  /** main, on a connection whose waits return `conn.pending` in order. */
  method RunAgent(conn: Connection, argv: seq<string>) returns (outcome: Outcome)
    modifies conn
    ensures conn.calls == old(conn.calls) + Agent(argv, conn.setup, old(conn.server), old(conn.pending)).calls
    ensures outcome == Agent(argv, conn.setup, old(conn.server), old(conn.pending)).outcome
    ensures outcome == Running ==> conn.pending == []
  {
    ghost var goal := Agent(argv, conn.setup, conn.server, conn.pending);
    if |argv| == 1 {
      return Exited(EXIT_FAILURE);
    }
    if conn.setup.connectionError {
      return Exited(0);
    }
    var activeWindow := conn.setup.activeWindowAtom;
    if activeWindow == NONE {
      return Exited(EXIT_FAILURE);
    }
    var root := conn.setup.root;
    conn.ChangeWindowAttributes(root, ROOT_EVENT_MASK);
    conn.Flush();
    assert conn.calls == old(conn.calls) + Subscription(root);
    if conn.setup.xfixesMajor < 4 {
      return Exited(EXIT_FAILURE);
    }

    var window := GetActiveWindow(conn);
    var title := GetTitle(conn, window);
    ghost var first := Evaluation(root, title, argv);
    ghost var loop := EventLoop(argv, activeWindow, root, conn.pending);
    assert goal.calls == Subscription(root) + first + loop.calls;
    UpdateCursor(conn, root, title, argv);
    assert conn.calls + loop.calls == old(conn.calls) + goal.calls;

    while conn.pending != []
      invariant conn.calls + EventLoop(argv, activeWindow, root, conn.pending).calls == old(conn.calls) + goal.calls
      invariant EventLoop(argv, activeWindow, root, conn.pending).outcome == goal.outcome
      decreases |conn.pending|
    {
      var ev := conn.WaitForEvent();
      if ev.None? {
        return Exited(EXIT_FAILURE);
      }
      var e := ev.value;
      if e.responseType & !SEND_EVENT_BIT == PROPERTY_NOTIFY {
        if e.atom == activeWindow {
          window := GetActiveWindow(conn);
          title := GetTitle(conn, window);
          UpdateCursor(conn, root, title, argv);
        }
      }
    }
    return Running;
  }
}
