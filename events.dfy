/**
 * The events the tools receive and the default handling every tool inherits from the
 * `Tool` base class: user events (run/pause toggle, focus, tool switch, journal requests)
 * are always consumed there; everything else goes to the tool's own handler.
 */
module Events {
  import opened Geometry

  /** The `code` of a user event that carries one. */
  datatype FileCode = FileWriteRequest | FileReadRequest | OtherCode

  datatype Event =
    | Down(button: int, pos: Point)              // MOUSEBUTTONDOWN
    | Up(button: int, pos: Point)                // MOUSEBUTTONUP
    | Motion(pos: Point, leftHeld: bool)         // MOUSEMOTION, `buttons[0]`
    | UserAction(action: string)                 // USEREVENT with an `action`
    | UserCode(code: FileCode, filename: string) // USEREVENT with a `code` and no `action`
    | UserBare                                   // USEREVENT with neither
    | Other                                      // any other event type (keys, quit, ...)
  {
    predicate IsUserEvent() { UserAction? || UserCode? || UserBare? }

    /** A press or release of mouse button `b`. */
    predicate ButtonIs(b: int) { (Down? || Up?) && button == b }

    /** The events that carry a pointer position. */
    predicate HasPos() { Down? || Up? || Motion? }
  }

  /** The exceptions the tools' handlers can raise; the game loop stops on the first one. */
  datatype Fault =
    | BallWithoutCenter          // circle released with no anchor: the world is asked for a ball at None
    | RectIsNone                 // box released before any rectangle was drawn: None.center
    | ZeroBaseline               // triangle baseline of length 0: division by zero
    | ConvexPolyWithoutVertices  // triangle released before any triangle was drawn: the world gets None
    | LenOfNone                  // magic pen released with no sketch open: len(None)
    | EventWithoutPos            // destroy tool, button held, event without a position: event.pos

  const ToggleAction: string := "stop_start_toggle"
  const FocusInAction: string := "focus_in"
  const FocusOutAction: string := "focus_out"

  /** What `Tool.handleEvents` does with an event before any tool-specific code runs. */
  datatype Reaction =
    | ToggleRun
    | SetFocus(focused: bool)
    | SwitchTool(name: string)
    | SaveJournal(filename: string)
    | LoadJournal(filename: string)
    | Consume
    | Delegate

  /**
   * The default handling: every user event is consumed (acted on or ignored) and never
   * delegated; every other event, including a left-button press, goes to `handleToolEvent`.
   */
  function Intercept(ev: Event, registered: set<string>): (r: Reaction)
    ensures r.Delegate? <==> !ev.IsUserEvent()
    ensures r == ToggleRun <==> ev == UserAction(ToggleAction)
    ensures r == SetFocus(true) <==> ev == UserAction(FocusInAction)
    ensures r == SetFocus(false) <==> ev == UserAction(FocusOutAction)
    ensures r.SwitchTool? <==>
      ev.UserAction? && ev.action in registered && ev.action !in {ToggleAction, FocusInAction, FocusOutAction}
    ensures r.SwitchTool? ==> r.name == ev.action
    ensures r.SaveJournal? <==> ev.UserCode? && ev.code == FileWriteRequest
    ensures r.LoadJournal? <==> ev.UserCode? && ev.code == FileReadRequest
    ensures (r.SaveJournal? || r.LoadJournal?) ==> r.filename == ev.filename
  {
    match ev
    case UserAction(a) =>
      if a == ToggleAction then ToggleRun
      else if a == FocusInAction then SetFocus(true)
      else if a == FocusOutAction then SetFocus(false)
      else if a in registered then SwitchTool(a)
      else Consume
    case UserCode(code, filename) =>
      (match code
       case FileWriteRequest => SaveJournal(filename)
       case FileReadRequest => LoadJournal(filename)
       case OtherCode => Consume)
    case UserBare => Consume
    case _ => Delegate
  }
}
