/** The part of the X server and of the XCB client library that the agent
    talks to, reduced to what its decisions depend on: the answers the server
    gives at startup, the properties it holds, the events it delivers, and the
    log of the requests with an effect on the server that the client sends,
    with its flushes. Queries, whose replies are inputs here, are not logged. */
module Xcb {

  /** An unsigned 32-bit protocol value (CARD32). */
  type Card32 = x: int | 0 <= x < 0x1_0000_0000

  type Window = Card32
  type Atom = Card32

  /** XCB_NONE: the atom returned when an atom cannot be interned. */
  const NONE: Atom := 0

  /** The bit the X11 core protocol sets in the event code of an event that
      was generated by a SendEvent request. */
  const SEND_EVENT_BIT: bv8 := 0x80

  /** The event code of PropertyNotify in the X11 core protocol. */
  const PROPERTY_NOTIFY: bv8 := 28

  /** XCB_EVENT_MASK_PROPERTY_CHANGE and XCB_EVENT_MASK_FOCUS_CHANGE. */
  const EVENT_MASK_PROPERTY_CHANGE: Card32 := 0x40_0000
  const EVENT_MASK_FOCUS_CHANGE: Card32 := 0x20_0000

  /** A reply or event pointer, which may be null. */
  datatype Option<T> = None | Some(value: T)

  /** A client call with an effect on the server: the ChangeWindowAttributes
      request that sets a window's event mask, the XFixes HideCursor and
      ShowCursor requests, and flushing the output buffer. */
  datatype Call =
    | ChangeWindowAttributes(target: Window, eventMask: Card32)
    | HideCursor(window: Window)
    | ShowCursor(window: Window)
    | Flush

  predicate IsCursorCall(c: Call) {
    c.HideCursor? || c.ShowCursor?
  }

  /** An event as delivered on the connection: its event code (with the
      SendEvent bit) and the `atom` field it has when it is a PropertyNotify. */
  datatype Event = Event(responseType: bv8, atom: Atom)

  /** What property reads see: the value of the root window's
      _NET_ACTIVE_WINDOW property and, per window, the bytes of its WM_NAME
      property (a window without the property is not in the map). */
  datatype ServerState = ServerState(activeWindow: Window, wmName: map<Window, string>)

  /** The result of one blocking wait for an event: the event together with
      the server state that is current while it is handled, or a null event. */
  datatype Wait = Delivered(event: Event, server: ServerState) | Failed

  /** The server's answers during startup: whether the connection failed, the
      reply to interning _NET_ACTIVE_WINDOW, the root window of the first
      screen, and the major version in the XFixes QueryVersion reply. */
  datatype Setup = Setup(connectionError: bool, activeWindowAtom: Atom, root: Window, xfixesMajor: Card32)

  /** A client connection. `pending` lists, in order, what the successive
      waits for an event return; `calls` is the log of calls made so far. */
  class Connection {
    const setup: Setup
    var server: ServerState
    var pending: seq<Wait>
    var calls: seq<Call>

    constructor (setup: Setup, server: ServerState, pending: seq<Wait>)
      ensures this.setup == setup && this.server == server && this.pending == pending
      ensures calls == []
    {
      this.setup := setup;
      this.server := server;
      this.pending := pending;
      calls := [];
    }

    /** xcb_change_window_attributes with XCB_CW_EVENT_MASK */
    method ChangeWindowAttributes(target: Window, eventMask: Card32)
      modifies this`calls
      ensures calls == old(calls) + [Call.ChangeWindowAttributes(target, eventMask)]
    {
      calls := calls + [Call.ChangeWindowAttributes(target, eventMask)];
    }

    /** xcb_xfixes_hide_cursor */
    method HideCursor(window: Window)
      modifies this`calls
      ensures calls == old(calls) + [Call.HideCursor(window)]
    {
      calls := calls + [Call.HideCursor(window)];
    }

    /** xcb_xfixes_show_cursor */
    method ShowCursor(window: Window)
      modifies this`calls
      ensures calls == old(calls) + [Call.ShowCursor(window)]
    {
      calls := calls + [Call.ShowCursor(window)];
    }

    /** xcb_flush */
    method Flush()
      modifies this`calls
      ensures calls == old(calls) + [Call.Flush]
    {
      calls := calls + [Call.Flush];
    }

    /** xcb_wait_for_event, over a finite supply of events: it takes the next
        one, and the server moves on to the state that goes with it. */
    method WaitForEvent() returns (ev: Option<Event>)
      requires pending != []
      modifies this`pending, this`server
      ensures pending == old(pending)[1..]
      ensures old(pending)[0].Delivered? ==> ev == Some(old(pending)[0].event) && server == old(pending)[0].server
      ensures old(pending)[0].Failed? ==> ev == None && server == old(server)
    {
      var w := pending[0];
      pending := pending[1..];
      if w.Delivered? {
        ev := Some(w.event);
        server := w.server;
      } else {
        ev := None;
      }
    }
  }
}
