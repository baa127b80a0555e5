/** The parts of Win32 the window procedure talks to: messages and their
    codes, and the system as seen by one window (its message queue, where its
    client area sits on the screen, the cursor, and the calls made on it). */
module Win32 {

  datatype Point = Point(x: int, y: int)

  const WM_DESTROY: nat := 0x0002
  const WM_SETFOCUS: nat := 0x0007
  const WM_CLOSE: nat := 0x0010
  const WM_QUIT: nat := 0x0012
  const WM_WINDOWPOSCHANGED: nat := 0x0047
  const WM_KEYDOWN: nat := 0x0100
  const WM_KEYUP: nat := 0x0101
  const WM_MOUSEMOVE: nat := 0x0200
  const WM_LBUTTONDOWN: nat := 0x0201
  const WM_LBUTTONUP: nat := 0x0202
  const WM_RBUTTONDOWN: nat := 0x0204
  const WM_RBUTTONUP: nat := 0x0205
  const WM_MBUTTONDOWN: nat := 0x0207
  const WM_MBUTTONUP: nat := 0x0208

  /** A message: its code, `w_param` (a `usize`) and `l_param` (an
      `isize`). */
  datatype Msg = Msg(message: nat, wParam: nat, lParam: int)

  datatype SysCall =
    | PostQuitMessage(exitCode: int)
    | DestroyWindow
    | SetCursorPos(pos: Point)
    | TranslateMessage(msg: Msg)
    | DispatchMessage(msg: Msg)
    | DefWindowProc(msg: Msg)

  /** `client_to_screen` for a window whose client area's top-left corner
      is at `origin` on the screen. */
  function ScreenPoint(origin: Point, p: Point): Point {
    Point(origin.x + p.x, origin.y + p.y)
  }

  class Os {
    /** The thread's pending messages, oldest first. */
    var queue: seq<Msg>
    /** Screen position of the window's client-area origin. */
    var clientOrigin: Point
    var cursor: Point
    var calls: seq<SysCall>
    /** What `DefWindowProc` answers for a message. */
    const defWindowProc: Msg -> int

    constructor (queue: seq<Msg>, clientOrigin: Point, cursor: Point, defWindowProc: Msg -> int)
      ensures this.queue == queue && this.clientOrigin == clientOrigin && this.cursor == cursor
      ensures this.defWindowProc == defWindowProc && calls == []
    {
      this.queue := queue;
      this.clientOrigin := clientOrigin;
      this.cursor := cursor;
      this.defWindowProc := defWindowProc;
      calls := [];
    }

    /** `PeekMessage` with `PM_REMOVE`: takes the oldest pending message, if
        any. */
    method PeekMessage() returns (found: bool, msg: Msg)
      modifies this`queue
      ensures found <==> old(queue) != []
      ensures found ==> msg == old(queue)[0] && queue == old(queue)[1..]
      ensures !found ==> queue == []
    {
      if queue == [] {
        return false, Msg(0, 0, 0);
      }
      found, msg := true, queue[0];
      queue := queue[1..];
    }

    method ClientToScreen(p: Point) returns (q: Point)
      ensures q == ScreenPoint(clientOrigin, p)
    {
      q := Point(clientOrigin.x + p.x, clientOrigin.y + p.y);
    }

    method SetCursorPos(p: Point)
      modifies this`cursor, this`calls
      ensures cursor == p && calls == old(calls) + [SysCall.SetCursorPos(p)]
    {
      cursor := p;
      calls := calls + [SysCall.SetCursorPos(p)];
    }

    /** A call whose effect on the system the model does not follow. */
    method Record(c: SysCall)
      requires !c.SetCursorPos? && !c.DefWindowProc?
      modifies this`calls
      ensures calls == old(calls) + [c]
    {
      calls := calls + [c];
    }

    method DefWindowProc(m: Msg) returns (r: int)
      modifies this`calls
      ensures r == defWindowProc(m) && calls == old(calls) + [SysCall.DefWindowProc(m)]
    {
      calls := calls + [SysCall.DefWindowProc(m)];
      r := defWindowProc(m);
    }
  }
}
