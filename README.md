# corvo: cursor-hiding agent, modelled in Dafny

corvo is a small X11 agent. It is started with a list of window titles on its
command line. It subscribes to property changes on the root window. Whenever
the root window's `_NET_ACTIVE_WINDOW` property changes, it reads the active
window's `WM_NAME` title. If the title is exactly equal to one of the
command-line titles, it hides the pointer with the XFixes extension; otherwise
it shows it. It also makes one such evaluation at startup, before the first
event.

The model has four modules:

- `CStrings` (`cstrings.dfy`): the text of a C string (`strlen`, `CStr`) and
  `strcmp(a, b) == 0` (`StrEqual`).
- `Xcb` (`xcb.dfy`): the server and client library as the agent sees them.
  The startup answers (`Setup`), the property values (`ServerState`), the
  events (`Event`, `Wait`) and a `Connection` class. The class holds the queue
  of waits still to be returned and the log of calls made
  (`ChangeWindowAttributes`, `HideCursor`, `ShowCursor`, `Flush`).
- `Corvo` (`corvo.dfy`): the program itself.
  - `UpdateCursor` is `update_cursor`: a loop with an early return that
    appends to the connection's call log.
  - `RunAgent` is `main`: the startup guards, the subscription to the root
    window's events, the initial evaluation and the event loop, run until the
    finite queue of waits is used up.
  - Each method is proved against a pure specification. `Matches`, `Decision`
    and `Evaluation` specify one evaluation. `IsRelevant` is the event filter.
    `EventLoop` and `Agent` specify the loop and a whole run.
- `CorvoProofs` (`corvo_proofs.dfy`): lemmas about those specifications.

What the program does, and so what the model does:

- The only rules are window titles, compared exactly with `strcmp`.
- No "hidden" flag is kept. Every evaluation sends a hide or a show, even
  when it repeats the previous one.
- A failed connection makes `main` return 0, not a failure status.
- The search starts at `argv[1]`, so the program name is never compared.
- The guard is `argc == 1`, so an empty `argv` passes it. Such a run then shows
  the cursor at every evaluation.

The call log (`Xcb.Call`) holds the requests that change something on the
server and the flushes: the ChangeWindowAttributes request that subscribes to
the root window's events, HideCursor, ShowCursor and `xcb_flush`. The queries
(InternAtom, GetProperty, QueryVersion) are not logged; their replies are
inputs of the model.

## Model

| member | source | states |
|---|---|---|
| `CStrings.CStr` | main.c:31-34 | the title text is the longest NUL-free prefix of the property bytes. |
| `CStrings.StrEqualOnTexts` | main.c:42 | on strings without an embedded NUL, `strcmp(a, b) == 0` holds exactly when `a == b`. The comparison is exact and case-sensitive. |
| `Corvo.TitleOf` | main.c:28-37 | a window's title is NUL-free. It is a prefix of its `WM_NAME` bytes that ends at the first NUL or at the end. It is empty when the window has no `WM_NAME`. |
| `Corvo.GetActiveWindow` | main.c:20-26 | returns the value of the root window's `_NET_ACTIVE_WINDOW` property. |
| `Corvo.GetTitle` | main.c:28-37 | returns `TitleOf` the given window in the current server state. |
| `Corvo.UpdateCursor` | main.c:39-50 | appends exactly `[HideCursor(window), Flush]` when some `titles[i]` with `1 <= i < |titles|` equals the title, and otherwise appends `[ShowCursor(window), Flush]`. Nothing else changes. |
| `Corvo.RunAgent` | main.c:52-114 | the calls made and the outcome are those of `Agent` on the connection's startup answers, initial server state and queue of waits. A run that is still running has consumed every wait. |
| `Xcb.Connection.ChangeWindowAttributes` | main.c:72-73 | appends one ChangeWindowAttributes call, with its window and event mask, to the log. |
| `Xcb.Connection.HideCursor` | main.c:43 | appends one HideCursor call to the log. |
| `Xcb.Connection.ShowCursor` | main.c:48 | appends one ShowCursor call to the log. |
| `Xcb.Connection.Flush` | main.c:44 | appends one flush to the log. |
| `Xcb.Connection.WaitForEvent` | main.c:94-98 | takes the next wait from the queue. It yields the event and moves the server to that event's state, or yields null. |
| `CorvoProofs.DecisionIsMembership` | main.c:39-50 | hide if and only if the title's text is in the set of rule texts `argv[1..]`, and show if and only if it is not. |
| `CorvoProofs.RuleOrderIrrelevant` | main.c:40-46 | two argument lists with the same set of rules give the same decision, whatever the order or duplicates. |
| `CorvoProofs.ProgramNameNeverCompared` | main.c:40 | replacing `argv[0]` never changes the decision. With no argument after the program name, the cursor is shown. |
| `CorvoProofs.EvaluationShape` | main.c:42-49 | one evaluation is exactly one cursor call on the given window, followed by one flush. |
| `CorvoProofs.RelevantEvents` | main.c:100-103 | an event is acted on if and only if its code is 28 (PropertyNotify) or 156 (PropertyNotify with the SendEvent bit 0x80) and its atom is `_NET_ACTIVE_WINDOW`. |
| `CorvoProofs.EvaluationsShape` | main.c:92-113 | a series of evaluations has length 2n. Position 2k holds the k-th decision and 2k+1 a flush, so no decision is dropped or merged. |
| `CorvoProofs.CursorCallsOfEvaluations` | main.c:92-113 | the cursor calls of a series of evaluations are exactly its decisions, in order. |
| `CorvoProofs.EventLoopEvaluatesHandled` | main.c:92-113 | the loop sends one evaluation per relevant event, in order, up to the first null event. It ends with `EXIT_FAILURE` if there is a null event and keeps waiting otherwise. |
| `CorvoProofs.IgnoredEventChangesNothing` | main.c:100-110 | inserting an irrelevant event anywhere in the event sequence leaves the calls and the outcome unchanged. |
| `CorvoProofs.NullEventEndsLoop` | main.c:94-98 | at the first null event the loop exits with `EXIT_FAILURE`. Nothing after it is evaluated. |
| `CorvoProofs.HandledWithoutFailure` | main.c:100-109 | without a null event, the number of evaluations equals the number of relevant events. |
| `CorvoProofs.SubscriptionHasNoCursorCall` | main.c:72-74 | subscribing to the root window's events makes no cursor call. |
| `CorvoProofs.StartupGuards` | main.c:53-83 | no startup guard path makes a cursor call. The guards fire in order: `argc == 1` exits 1 whatever the server says; then a connection error returns 0; then a `NONE` atom exits 1. These three make no call at all, and only these. Past them the root window's event mask is set and flushed, and then an XFixes major version below 4 exits 1. |
| `CorvoProofs.AgentEvaluations` | main.c:72-113 | past startup, a run is the subscription and its flush, one evaluation of the initial state, then one per relevant event up to the first null event. |
| `CorvoProofs.AgentCursorCallCount` | main.c:72-113 | without a null event, a run makes 1 + (number of relevant events) cursor calls. It makes 2 × that many calls for the evaluations plus 2 for the subscription, and keeps running. |
| `CorvoProofs.RepeatedHidesAllSent` | main.c:42-48 | when every evaluation matches, every one of them sends a hide. There is no coalescing. |
| `CorvoProofs.MailThenEditor` | main.c:85-110 | a worked run with the rule "Mail": at startup the "Mail" window is focused and the cursor is hidden. A PropertyNotify then switches to "Editor" and the cursor is shown. Another kind of event changes nothing. |

## Left out

- XCB connection setup, `intern_atom` (main.c:8-18), the choice of the first screen (main.c:70) and the XFixes version query (main.c:76-77) are foreign calls. Their results are inputs in `Setup`. The InternAtom, GetProperty and QueryVersion queries are not in the call log.
- Property reads are server round trips (main.c:20-37). The server's answers are inputs: a `ServerState` per evaluation, carried by each `Wait`.
- main.c:23 dereferences the property value without checking its length. When `_NET_ACTIVE_WINDOW` is unset, the result is undefined. The model always has a value for the active window.
- main.c:32-34 copies `strlen` bytes without a terminator, so `strcmp` at main.c:42 can read past the buffer. A window without `WM_NAME` makes `strlen` read past the reply. The model takes the title to be the property text up to its first NUL, which is the intended `WM_NAME` value by section 4.1.2.1 of the ICCCM. It takes the title to be empty when the property is missing.
- Corvo.TitleOf: a window that does not exist is treated like a window without `WM_NAME` and gets the empty title. In the program, `get_title` on such a window gets a BadWindow error and a NULL reply, and main.c:31-32 dereference it, so the agent crashes. This happens when no window has focus (`_NET_ACTIVE_WINDOW` holds None, that is 0) or when the active window is destroyed between the two reads. So for a run that reaches such a window, `AgentCursorCallCount`'s "keeps running" and the evaluation it counts are not what the program does.
- Titles, property bytes and command-line arguments are modelled as sequences of Dafny `char`, one per byte. Since that map from bytes to characters is one-to-one, equality and the first-NUL cut are the same as on bytes.
- A null XFixes version reply (main.c:77-78) is dereferenced without a check. The model always has a major version.
- `malloc` and `free` (main.c:16, 24, 33-35, 89, 107, 112) are not modelled.
- The server-side effect of HideCursor and ShowCursor, which stack, is not modelled. Only the calls made are recorded.
- The infinite `while (1)` is modelled over a finite sequence of waits. When the sequence runs out, the run ends in `Running`, where the real program would block in the wait.
- The error messages written to stderr (main.c:54, 66, 79-81, 96) are not modelled.
