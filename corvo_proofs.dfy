/** Properties of the agent: what update_cursor decides, which events the
    loop reacts to, and what a whole run makes in calls (see Xcb.Call). */
module CorvoProofs {
  import opened CStrings
  import opened Xcb
  import opened Corvo

  // ---------------------------------------------------------------------
  // update_cursor

  /** The rules: the texts of the command-line arguments after the program name. */
  function RuleSet(titles: seq<string>): set<string> {
    set i | 1 <= i < |titles| :: CStr(titles[i])
  }

  /** The decision is membership of the title in the rule set: hide exactly
      when the title is one of the rules, show otherwise. */
  lemma DecisionIsMembership(window: Window, title: string, titles: seq<string>)
    ensures Decision(window, title, titles) == HideCursor(window) <==> CStr(title) in RuleSet(titles)
    ensures Decision(window, title, titles) == ShowCursor(window) <==> CStr(title) !in RuleSet(titles)
  {
  }

  /** Order and repetition of the rules do not matter. */
  lemma RuleOrderIrrelevant(window: Window, title: string, a: seq<string>, b: seq<string>)
    requires RuleSet(a) == RuleSet(b)
    ensures Decision(window, title, a) == Decision(window, title, b)
  {
    DecisionIsMembership(window, title, a);
    DecisionIsMembership(window, title, b);
  }

  /** argv[0], the program name, is never compared: replacing it changes no
      decision, and with no rule at all the cursor is always shown. */
  lemma ProgramNameNeverCompared(window: Window, title: string, titles: seq<string>, name: string)
    requires |titles| >= 1
    ensures Decision(window, title, titles) == Decision(window, title, [name] + titles[1..])
    ensures Decision(window, title, [name]) == ShowCursor(window)
  {
    var other := [name] + titles[1..];
    assert forall i :: 1 <= i < |titles| ==> other[i] == titles[i];
  }

  /** One call of update_cursor sends one cursor call on `window`, then one
      flush, and nothing else. */
  lemma EvaluationShape(window: Window, title: string, titles: seq<string>)
    ensures var e := Evaluation(window, title, titles);
      |e| == 2 && IsCursorCall(e[0]) && e[0].window == window && e[1] == Flush
  {
  }

  // ---------------------------------------------------------------------
  // The event filter

  /** Exactly the PropertyNotify events on _NET_ACTIVE_WINDOW are relevant,
      whether or not they were generated by SendEvent. */
  lemma RelevantEvents(ev: Event, activeWindow: Atom)
    ensures IsRelevant(ev, activeWindow) <==>
      (ev.responseType == PROPERTY_NOTIFY || ev.responseType == PROPERTY_NOTIFY | SEND_EVENT_BIT) &&
      ev.atom == activeWindow
  {
  }

  // ---------------------------------------------------------------------
  // The event loop

  /** The server states at which the loop evaluates: one per relevant event,
      up to the first null event. */
  function Handled(activeWindow: Atom, waits: seq<Wait>): seq<ServerState>
    decreases |waits|
  {
    if waits == [] || waits[0].Failed? then []
    else if IsRelevant(waits[0].event, activeWindow) then [waits[0].server] + Handled(activeWindow, waits[1..])
    else Handled(activeWindow, waits[1..])
  }

  /** The number of relevant events in `waits`. */
  function RelevantCount(activeWindow: Atom, waits: seq<Wait>): nat
    decreases |waits|
  {
    if waits == [] then 0
    else if waits[0].Delivered? && IsRelevant(waits[0].event, activeWindow) then 1 + RelevantCount(activeWindow, waits[1..])
    else RelevantCount(activeWindow, waits[1..])
  }

  /** The calls of one evaluation per server state, in order. */
  function Evaluations(window: Window, titles: seq<string>, states: seq<ServerState>): seq<Call>
    decreases |states|
  {
    if states == [] then []
    else Evaluation(window, ActiveTitle(states[0]), titles) + Evaluations(window, titles, states[1..])
  }

  /** The cursor calls in a call log, in order. */
  function CursorCalls(calls: seq<Call>): seq<Call>
    decreases |calls|
  {
    if calls == [] then []
    else if IsCursorCall(calls[0]) then [calls[0]] + CursorCalls(calls[1..])
    else CursorCalls(calls[1..])
  }

  lemma {:induction false} CursorCallsAppend(a: seq<Call>, b: seq<Call>)
    ensures CursorCalls(a + b) == CursorCalls(a) + CursorCalls(b)
    decreases |a|
  {
    if a != [] {
      assert (a + b)[1..] == a[1..] + b;
      CursorCallsAppend(a[1..], b);
    } else {
      assert a + b == b;
    }
  }

  /** Evaluations are sent one after the other: the k-th evaluation is the
      decision for the k-th state at position 2k and a flush at 2k + 1. No
      decision is dropped or merged, a repeated hide included. */
  lemma {:induction false} EvaluationsShape(window: Window, titles: seq<string>, states: seq<ServerState>)
    ensures |Evaluations(window, titles, states)| == 2 * |states|
    ensures forall k :: 0 <= k < |states| ==>
      Evaluations(window, titles, states)[2 * k] == Decision(window, ActiveTitle(states[k]), titles) &&
      Evaluations(window, titles, states)[2 * k + 1] == Flush
    decreases |states|
  {
    if states != [] {
      var rest := Evaluations(window, titles, states[1..]);
      EvaluationsShape(window, titles, states[1..]);
      forall k | 1 <= k < |states|
        ensures Evaluations(window, titles, states)[2 * k] == Decision(window, ActiveTitle(states[k]), titles)
        ensures Evaluations(window, titles, states)[2 * k + 1] == Flush
      {
        assert 2 * k == 2 * (k - 1) + 2;
        assert states[1..][k - 1] == states[k];
      }
    }
  }

  /** The cursor calls of a series of evaluations are their decisions. */
  lemma {:induction false} CursorCallsOfEvaluations(window: Window, titles: seq<string>, states: seq<ServerState>)
    ensures |CursorCalls(Evaluations(window, titles, states))| == |states|
    ensures forall k :: 0 <= k < |states| ==>
      CursorCalls(Evaluations(window, titles, states))[k] == Decision(window, ActiveTitle(states[k]), titles)
    decreases |states|
  {
    if states != [] {
      var e := Evaluation(window, ActiveTitle(states[0]), titles);
      CursorCallsAppend(e, Evaluations(window, titles, states[1..]));
      assert CursorCalls(e) == [e[0]] by {
        assert e[1..] == [Flush];
        assert CursorCalls([Flush]) == CursorCalls([Flush][1..]);
      }
      CursorCallsOfEvaluations(window, titles, states[1..]);
      forall k | 1 <= k < |states|
        ensures CursorCalls(Evaluations(window, titles, states))[k] == Decision(window, ActiveTitle(states[k]), titles)
      {
        assert states[1..][k - 1] == states[k];
      }
    }
  }

  /** The loop sends one evaluation per relevant event, in order, and nothing
      for any other event; it ends at the first null event with
      exit(EXIT_FAILURE), and otherwise keeps waiting. */
  lemma {:induction false} EventLoopEvaluatesHandled(titles: seq<string>, activeWindow: Atom, root: Window, waits: seq<Wait>)
    ensures EventLoop(titles, activeWindow, root, waits).calls == Evaluations(root, titles, Handled(activeWindow, waits))
    ensures EventLoop(titles, activeWindow, root, waits).outcome == if Failed in waits then Exited(EXIT_FAILURE) else Running
    decreases |waits|
  {
    if waits != [] && waits[0].Delivered? {
      EventLoopEvaluatesHandled(titles, activeWindow, root, waits[1..]);
      assert waits == [waits[0]] + waits[1..];
      if IsRelevant(waits[0].event, activeWindow) {
        var h := Handled(activeWindow, waits);
        assert h[0] == waits[0].server && h[1..] == Handled(activeWindow, waits[1..]);
      }
    }
  }

  /** An irrelevant event, wherever it arrives, changes nothing in a run. */
  lemma {:induction false} IgnoredEventChangesNothing(titles: seq<string>, activeWindow: Atom, root: Window,
                                                      waits: seq<Wait>, i: nat, ev: Event, s: ServerState)
    requires i <= |waits|
    requires !IsRelevant(ev, activeWindow)
    ensures EventLoop(titles, activeWindow, root, waits[..i] + [Delivered(ev, s)] + waits[i..]) ==
            EventLoop(titles, activeWindow, root, waits)
    decreases i
  {
    var w := waits[..i] + [Delivered(ev, s)] + waits[i..];
    if i == 0 {
      assert w[1..] == waits;
    } else {
      assert w[0] == waits[0];
      assert w[1..] == waits[1..][..i - 1] + [Delivered(ev, s)] + waits[1..][i - 1..];
      IgnoredEventChangesNothing(titles, activeWindow, root, waits[1..], i - 1, ev, s);
    }
  }

  /** A null event ends the loop with exit(EXIT_FAILURE): nothing that
      arrives after it is ever looked at. */
  lemma {:induction false} NullEventEndsLoop(titles: seq<string>, activeWindow: Atom, root: Window,
                                             before: seq<Wait>, after: seq<Wait>)
    requires Failed !in before
    ensures EventLoop(titles, activeWindow, root, before + [Failed] + after) ==
            Run(EventLoop(titles, activeWindow, root, before).calls, Exited(EXIT_FAILURE))
    decreases |before|
  {
    var w := before + [Failed] + after;
    if before == [] {
      assert w[0] == Failed;
    } else {
      assert w[0] == before[0];
      assert w[1..] == before[1..] + [Failed] + after;
      NullEventEndsLoop(titles, activeWindow, root, before[1..], after);
    }
  }

  /** Without a null event, every relevant event is handled. */
  lemma {:induction false} HandledWithoutFailure(activeWindow: Atom, waits: seq<Wait>)
    requires Failed !in waits
    ensures |Handled(activeWindow, waits)| == RelevantCount(activeWindow, waits)
    decreases |waits|
  {
    if waits != [] {
      assert waits[0] != Failed;
      assert forall j :: 0 <= j < |waits| - 1 ==> waits[1..][j] == waits[j + 1];
      HandledWithoutFailure(activeWindow, waits[1..]);
    }
  }

  // ---------------------------------------------------------------------
  // main

  /** Subscribing to the root window's events makes no cursor call. */
  lemma SubscriptionHasNoCursorCall(root: Window)
    ensures CursorCalls(Subscription(root)) == []
  {
    var sub := Subscription(root);
    assert sub[1..] == [Flush] && [Flush][1..] == [];
  }

  /** The startup guards run in a fixed order, each is decisive whatever the
      later ones would say, and no cursor call is made on any of their paths.
      The first three fire before anything is sent; the XFixes guard fires
      after the root window's event mask was set and flushed. A failed
      connection is the one startup failure that exits with status 0. */
  lemma StartupGuards(argv: seq<string>, setup: Setup, initial: ServerState, waits: seq<Wait>)
    ensures !StartupPasses(argv, setup) ==> CursorCalls(Agent(argv, setup, initial, waits).calls) == []
    ensures Agent(argv, setup, initial, waits).calls == [] <==>
      (|argv| == 1 || setup.connectionError || setup.activeWindowAtom == NONE)
    ensures |argv| == 1 ==> Agent(argv, setup, initial, waits).outcome == Exited(EXIT_FAILURE)
    ensures |argv| != 1 && setup.connectionError ==> Agent(argv, setup, initial, waits).outcome == Exited(0)
    ensures |argv| != 1 && !setup.connectionError && setup.activeWindowAtom == NONE ==>
      Agent(argv, setup, initial, waits).outcome == Exited(EXIT_FAILURE)
    ensures |argv| != 1 && !setup.connectionError && setup.activeWindowAtom != NONE && setup.xfixesMajor < 4 ==>
      Agent(argv, setup, initial, waits) == Run(Subscription(setup.root), Exited(EXIT_FAILURE))
  {
    SubscriptionHasNoCursorCall(setup.root);
  }

  /** A run that gets past startup subscribes to the root window's events,
      then sends one evaluation for the initial state and one per relevant
      event, in order, up to the first null event. */
  lemma AgentEvaluations(argv: seq<string>, setup: Setup, initial: ServerState, waits: seq<Wait>)
    requires StartupPasses(argv, setup)
    ensures Agent(argv, setup, initial, waits).calls ==
            Subscription(setup.root) + Evaluations(setup.root, argv, [initial] + Handled(setup.activeWindowAtom, waits))
    ensures Agent(argv, setup, initial, waits).outcome == if Failed in waits then Exited(EXIT_FAILURE) else Running
  {
    EventLoopEvaluatesHandled(argv, setup.activeWindowAtom, setup.root, waits);
    var states := [initial] + Handled(setup.activeWindowAtom, waits);
    assert states[0] == initial && states[1..] == Handled(setup.activeWindowAtom, waits);
  }

  /** Without a null event, a run makes 1 + (number of relevant events) cursor
      calls, each followed by a flush, besides the subscription and its flush,
      and keeps running. */
  lemma AgentCursorCallCount(argv: seq<string>, setup: Setup, initial: ServerState, waits: seq<Wait>)
    requires StartupPasses(argv, setup)
    requires Failed !in waits
    ensures |CursorCalls(Agent(argv, setup, initial, waits).calls)| == 1 + RelevantCount(setup.activeWindowAtom, waits)
    ensures |Agent(argv, setup, initial, waits).calls| == 2 + 2 * (1 + RelevantCount(setup.activeWindowAtom, waits))
    ensures Agent(argv, setup, initial, waits).outcome == Running
  {
    var states := [initial] + Handled(setup.activeWindowAtom, waits);
    AgentEvaluations(argv, setup, initial, waits);
    HandledWithoutFailure(setup.activeWindowAtom, waits);
    SubscriptionHasNoCursorCall(setup.root);
    CursorCallsAppend(Subscription(setup.root), Evaluations(setup.root, argv, states));
    CursorCallsOfEvaluations(setup.root, argv, states);
    EvaluationsShape(setup.root, argv, states);
  }

  /** No coalescing: when every evaluation finds a matching title, every one
      of them sends a hide, even though the cursor is already hidden. */
  lemma RepeatedHidesAllSent(argv: seq<string>, setup: Setup, initial: ServerState, waits: seq<Wait>)
    requires StartupPasses(argv, setup)
    requires Matches(ActiveTitle(initial), argv)
    requires forall s :: s in Handled(setup.activeWindowAtom, waits) ==> Matches(ActiveTitle(s), argv)
    ensures CursorCalls(Agent(argv, setup, initial, waits).calls) ==
            seq(1 + |Handled(setup.activeWindowAtom, waits)|, _ => HideCursor(setup.root))
  {
    var states := [initial] + Handled(setup.activeWindowAtom, waits);
    AgentEvaluations(argv, setup, initial, waits);
    SubscriptionHasNoCursorCall(setup.root);
    CursorCallsAppend(Subscription(setup.root), Evaluations(setup.root, argv, states));
    CursorCallsOfEvaluations(setup.root, argv, states);
    forall k | 0 <= k < |states| ensures Matches(ActiveTitle(states[k]), argv) {
      if k > 0 {
        assert states[k] in Handled(setup.activeWindowAtom, waits);
      }
    }
  }

  /** A worked run: with the one rule "Mail", a focused "Mail" window hides
      the cursor at startup, and a switch to an "Editor" window shows it. */
  lemma MailThenEditor()
    ensures var initial := ServerState(5, map[5 := "Mail"]);
      var next := ServerState(6, map[6 := "Editor"]);
      var waits := [Delivered(Event(PROPERTY_NOTIFY, 1), next), Delivered(Event(9, 1), initial)];
      Agent(["corvo", "Mail"], Setup(false, 1, 7, 4), initial, waits) ==
      Run(Subscription(7) + [HideCursor(7), Flush, ShowCursor(7), Flush], Running)
  {
    var rules := ["corvo", "Mail"];
    var initial := ServerState(5, map[5 := "Mail"]);
    var next := ServerState(6, map[6 := "Editor"]);
    var waits := [Delivered(Event(PROPERTY_NOTIFY, 1), next), Delivered(Event(9, 1), initial)];
    CStrOfText("Mail");
    CStrOfText("Editor");
    assert ActiveTitle(initial) == "Mail";
    assert ActiveTitle(next) == "Editor";
    assert StrEqual("Mail", rules[1]);
    assert Decision(7, "Mail", rules) == HideCursor(7);
    assert Decision(7, "Editor", rules) == ShowCursor(7);
    assert IsRelevant(waits[0].event, 1) && !IsRelevant(waits[1].event, 1);
    assert waits[1..][1..] == [];
    assert EventLoop(rules, 1, 7, waits[1..]) == Run([], Running);
  }
}
