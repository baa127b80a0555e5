/** The window: its procedure, which turns messages into calls on the input
    model, the lazily recomputed screen position of the client-area centre
    used to hold the cursor while the mouse is locked, and the per-frame
    message pump. */
module Window {
  import opened Wrappers
  import opened Direct3D
  import opened Win32
  import Graphics

  // ---------------------------------------------------------------------
  // The input model the window writes into

  /** A call on the application's input model. */
  datatype InputCall =
    | FrameReset
    | KeyDown(key: nat)
    | KeyUp(key: nat)
    | MouseDown(button: nat)
    | MouseUp(button: nat)
    | UpdateMousePosition(delta: Point)

  /** The input model, as the calls made on it and the lock flag it
      reports. */
  datatype Input = Input(calls: seq<InputCall>, mouseLocked: bool) {
    function Record(c: InputCall): Input {
      this.(calls := calls + [c])
    }
  }

  // ---------------------------------------------------------------------
  // Decoding message parameters

  /** `w_param as u8`: the low byte of `w_param`. */
  function KeyCode(wParam: nat): (k: nat)
    ensures k < 256 && (wParam - k) % 256 == 0
  {
    wParam % 256
  }

  /** `as i16` applied to a 16-bit value. */
  function SignExtend16(w: int): (v: int)
    requires 0 <= w < 0x10000
    ensures -0x8000 <= v < 0x8000 && (w - v) % 0x10000 == 0
  {
    if w < 0x8000 then w else w - 0x10000
  }

  /** `(l_param & 0xFFFF) as i16`. Dafny's `%` never returns a negative
      number, so `l % 0x10000` is the low 16 bits of the two's-complement
      `isize`. */
  function LowSigned(lParam: int): (v: int)
    ensures -0x8000 <= v < 0x8000 && (lParam - v) % 0x10000 == 0
  {
    SignExtend16(lParam % 0x10000)
  }

  /** `(l_param.wrapping_shr(16) & 0xFFFF) as i16`. For a positive divisor
      Dafny's `/` rounds towards negative infinity, which is the arithmetic
      shift of an `isize`. */
  function HighSigned(lParam: int): (v: int)
    ensures -0x8000 <= v < 0x8000 && (lParam / 0x10000 - v) % 0x10000 == 0
  {
    SignExtend16((lParam / 0x10000) % 0x10000)
  }

  /** The position reported on `WM_MOUSEMOVE`: the signed client
      coordinates packed into `l_param`, relative to the window centre. */
  function MouseDelta(width: nat, height: nat, lParam: int): (d: Point)
    ensures -0x8000 <= d.x + width / 2 < 0x8000 && (lParam - (d.x + width / 2)) % 0x10000 == 0
    ensures -0x8000 <= d.y + height / 2 < 0x8000 && (lParam / 0x10000 - (d.y + height / 2)) % 0x10000 == 0
  {
    Point(LowSigned(lParam) - width / 2, HighSigned(lParam) - height / 2)
  }

  /** Win32's `MAKELPARAM` for signed client coordinates, as the system packs
      them into `WM_MOUSEMOVE`. */
  function MakeLParam(x: int, y: int): int
    requires -0x8000 <= x < 0x8000 && -0x8000 <= y < 0x8000
  {
    (y % 0x10000) * 0x10000 + x % 0x10000
  }

  lemma SignedWordUnique(a: int, b: int)
    requires -0x8000 <= a < 0x8000 && -0x8000 <= b < 0x8000
    requires (a - b) % 0x10000 == 0
    ensures a == b
  {
  }

  /** Decoding a packed position gives back the coordinates, less half the
      window's size. */
  lemma MouseDeltaRoundTrip(width: nat, height: nat, x: int, y: int)
    requires -0x8000 <= x < 0x8000 && -0x8000 <= y < 0x8000
    ensures MouseDelta(width, height, MakeLParam(x, y)) == Point(x - width / 2, y - height / 2)
  {
    var l := MakeLParam(x, y);
    var d := MouseDelta(width, height, l);
    assert l / 0x10000 == y % 0x10000;
    assert (l - x) % 0x10000 == 0;
    SignedWordUnique(d.x + width / 2, x);
    SignedWordUnique(d.y + height / 2, y);
  }

  // ---------------------------------------------------------------------
  // The window procedure, on values

  /** Everything the window procedure reads or changes: the input model, the
      cached centre and its dirty flag, and the system's window position,
      cursor and call log. */
  datatype State = State(
    input: Input,
    mouseCenter: Point,
    centreStale: bool,
    clientOrigin: Point,
    cursor: Point,
    sysCalls: seq<SysCall>)

  /** What does not change while the window lives. */
  datatype Config = Config(width: nat, height: nat, defWindowProc: Msg -> int)

  /** The screen position of the client-area centre. */
  function ClientCentre(cfg: Config, origin: Point): Point {
    ScreenPoint(origin, Point(cfg.width / 2, cfg.height / 2))
  }

  /** The cached centre is the real one unless it is marked stale. */
  predicate CentreCurrent(cfg: Config, s: State) {
    !s.centreStale ==> s.mouseCenter == ClientCentre(cfg, s.clientOrigin)
  }

  /** `update_mouse_center`. */
  function Recentred(cfg: Config, s: State): State {
    s.(mouseCenter := ClientCentre(cfg, s.clientOrigin), centreStale := false)
  }

  /** `reset_mouse_position`: refresh the centre if stale, then warp the
      cursor to it. */
  function Warped(cfg: Config, s: State): State {
    var t := if s.centreStale then Recentred(cfg, s) else s;
    t.(cursor := t.mouseCenter, sysCalls := t.sysCalls + [SetCursorPos(t.mouseCenter)])
  }

  function WithInput(s: State, c: InputCall): State {
    s.(input := s.input.Record(c))
  }

  function WithSysCall(s: State, c: SysCall): State {
    s.(sysCalls := s.sysCalls + [c])
  }

  predicate IsHandled(code: nat) {
    code in {WM_DESTROY, WM_CLOSE, WM_WINDOWPOSCHANGED, WM_KEYDOWN, WM_KEYUP,
             WM_LBUTTONDOWN, WM_LBUTTONUP, WM_RBUTTONDOWN, WM_RBUTTONUP,
             WM_MBUTTONDOWN, WM_MBUTTONUP, WM_MOUSEMOVE, WM_SETFOCUS}
  }

  /** `wnd_proc`: the new state and the value returned to the system. */
  function Handled(cfg: Config, s: State, m: Msg): (State, int) {
    var code := m.message;
    if code == WM_DESTROY then (WithSysCall(s, PostQuitMessage(0)), 0)
    else if code == WM_CLOSE then (WithSysCall(s, DestroyWindow), 0)
    else if code == WM_WINDOWPOSCHANGED then (s.(centreStale := true), 0)
    else if code == WM_KEYDOWN then (WithInput(s, KeyDown(KeyCode(m.wParam))), 0)
    else if code == WM_KEYUP then (WithInput(s, KeyUp(KeyCode(m.wParam))), 0)
    else if code == WM_LBUTTONDOWN then (WithInput(s, MouseDown(0)), 0)
    else if code == WM_LBUTTONUP then (WithInput(s, MouseUp(0)), 0)
    else if code == WM_RBUTTONDOWN then (WithInput(s, MouseDown(1)), 0)
    else if code == WM_RBUTTONUP then (WithInput(s, MouseUp(1)), 0)
    else if code == WM_MBUTTONDOWN then (WithInput(s, MouseDown(2)), 0)
    else if code == WM_MBUTTONUP then (WithInput(s, MouseUp(2)), 0)
    else if code == WM_MOUSEMOVE then
      var t := WithInput(s, UpdateMousePosition(MouseDelta(cfg.width, cfg.height, m.lParam)));
      (if t.input.mouseLocked then Warped(cfg, t) else t, 0)
    else if code == WM_SETFOCUS then
      (if s.input.mouseLocked then Warped(cfg, s) else s, 0)
    else (WithSysCall(s, DefWindowProc(m)), cfg.defWindowProc(m))
  }

  /** Handled messages answer 0; any other message is passed to
      `DefWindowProc`, whose answer is returned, and nothing else changes. */
  lemma HandledAnswer(cfg: Config, s: State, m: Msg)
    ensures IsHandled(m.message) ==> Handled(cfg, s, m).1 == 0
    ensures !IsHandled(m.message) ==>
      Handled(cfg, s, m) == (WithSysCall(s, DefWindowProc(m)), cfg.defWindowProc(m))
  {
  }

  /** Key messages pass the low byte of `w_param`; the buttons map left to 0,
      right to 1 and middle to 2. */
  lemma InputMapping(cfg: Config, s: State, m: Msg)
    ensures m.message == WM_KEYDOWN ==> Handled(cfg, s, m).0.input.calls == s.input.calls + [KeyDown(m.wParam % 256)]
    ensures m.message == WM_KEYUP ==> Handled(cfg, s, m).0.input.calls == s.input.calls + [KeyUp(m.wParam % 256)]
    ensures m.message == WM_LBUTTONDOWN ==> Handled(cfg, s, m).0.input.calls == s.input.calls + [MouseDown(0)]
    ensures m.message == WM_LBUTTONUP ==> Handled(cfg, s, m).0.input.calls == s.input.calls + [MouseUp(0)]
    ensures m.message == WM_RBUTTONDOWN ==> Handled(cfg, s, m).0.input.calls == s.input.calls + [MouseDown(1)]
    ensures m.message == WM_RBUTTONUP ==> Handled(cfg, s, m).0.input.calls == s.input.calls + [MouseUp(1)]
    ensures m.message == WM_MBUTTONDOWN ==> Handled(cfg, s, m).0.input.calls == s.input.calls + [MouseDown(2)]
    ensures m.message == WM_MBUTTONUP ==> Handled(cfg, s, m).0.input.calls == s.input.calls + [MouseUp(2)]
  {
  }

  /** Each message makes at most one call on the input model, never a frame
      reset, and leaves the lock flag alone. */
  lemma HandledInputEffect(cfg: Config, s: State, m: Msg)
    ensures var t := Handled(cfg, s, m).0;
      && t.input.mouseLocked == s.input.mouseLocked
      && (t.input.calls == s.input.calls
          || exists c :: c != FrameReset && t.input.calls == s.input.calls + [c])
  {
    var t := Handled(cfg, s, m).0;
    if t.input.calls != s.input.calls {
      var c := t.input.calls[|s.input.calls|];
      assert t.input.calls == s.input.calls + [c];
    }
  }

  /** The cursor is warped exactly when the mouse is locked and the message
      is a mouse move or a focus gain; the warp goes to the cached centre,
      which is then up to date. Nothing else warps it. */
  lemma WarpExactlyWhenLocked(cfg: Config, s: State, m: Msg)
    ensures var t := Handled(cfg, s, m).0;
      && s.sysCalls <= t.sysCalls
      && t.clientOrigin == s.clientOrigin
      && if s.input.mouseLocked && (m.message == WM_MOUSEMOVE || m.message == WM_SETFOCUS)
         then && t.sysCalls == s.sysCalls + [SetCursorPos(t.mouseCenter)]
              && t.cursor == t.mouseCenter
              && !t.centreStale
              && (s.centreStale ==> t.mouseCenter == ClientCentre(cfg, s.clientOrigin))
              && (!s.centreStale ==> t.mouseCenter == s.mouseCenter)
         else && t.cursor == s.cursor
              && forall i :: |s.sysCalls| <= i < |t.sysCalls| ==> !t.sysCalls[i].SetCursorPos?
  {
  }

  /** While the cached centre is current, it stays current, and every warp
      lands on the true centre of the client area. */
  lemma HandledKeepsCentreCurrent(cfg: Config, s: State, m: Msg)
    requires CentreCurrent(cfg, s)
    ensures var t := Handled(cfg, s, m).0;
      && CentreCurrent(cfg, t)
      && (t.cursor == s.cursor || t.cursor == ClientCentre(cfg, s.clientOrigin))
      && forall i :: |s.sysCalls| <= i < |t.sysCalls| && t.sysCalls[i].SetCursorPos? ==>
           t.sysCalls[i].pos == ClientCentre(cfg, s.clientOrigin)
  {
    WarpExactlyWhenLocked(cfg, s, m);
  }

  // ---------------------------------------------------------------------
  // Moves, lock changes and messages in any order

  /** What can happen to the window between two messages, besides
      messages: the system moves it (and then sends `WM_WINDOWPOSCHANGED`),
      or the application locks or unlocks the mouse. */
  datatype Event = Deliver(msg: Msg) | Moved(clientOrigin: Point) | SetLock(locked: bool)

  function Apply(cfg: Config, s: State, e: Event): State {
    match e
    case Deliver(m) => Handled(cfg, s, m).0
    case Moved(o) => Handled(cfg, s.(clientOrigin := o), Msg(WM_WINDOWPOSCHANGED, 0, 0)).0
    case SetLock(b) => s.(input := s.input.(mouseLocked := b))
  }

  function Run(cfg: Config, s: State, es: seq<Event>): State
    decreases |es|
  {
    if es == [] then s else Apply(cfg, Run(cfg, s, es[..|es| - 1]), es[|es| - 1])
  }

  /** However the window is moved and whatever it is sent, the cached centre
      is never silently out of date: it is either current or marked stale. */
  lemma {:induction false} RunKeepsCentreCurrent(cfg: Config, s: State, es: seq<Event>)
    requires CentreCurrent(cfg, s)
    ensures CentreCurrent(cfg, Run(cfg, s, es))
    decreases |es|
  {
    if es != [] {
      var before := Run(cfg, s, es[..|es| - 1]);
      RunKeepsCentreCurrent(cfg, s, es[..|es| - 1]);
      match es[|es| - 1]
      case Deliver(m) => HandledKeepsCentreCurrent(cfg, before, m);
      case Moved(o) =>
      case SetLock(b) =>
    }
  }

  // ---------------------------------------------------------------------
  // The message pump, on values

  predicate HasQuit(q: seq<Msg>) {
    exists i :: 0 <= i < |q| && q[i].message == WM_QUIT
  }

  /** The messages taken from the queue and dispatched before the first
      `WM_QUIT`. */
  function Delivered(q: seq<Msg>): (d: seq<Msg>)
    ensures d <= q
    ensures forall i :: 0 <= i < |d| ==> d[i].message != WM_QUIT
    ensures |d| == |q| || q[|d|].message == WM_QUIT
  {
    if q == [] || q[0].message == WM_QUIT then [] else [q[0]] + Delivered(q[1..])
  }

  /** The queue stops being drained exactly at its first `WM_QUIT`. */
  lemma {:induction false} DeliveredStopsAtQuit(q: seq<Msg>, k: nat)
    requires k <= |q|
    requires forall j :: 0 <= j < k ==> q[j].message != WM_QUIT
    requires k == |q| || q[k].message == WM_QUIT
    ensures Delivered(q) == q[..k]
    ensures HasQuit(q) <==> k < |q|
  {
    assert Delivered(q) == q[..k];
  }

  /** One turn of the pump: translate, dispatch, run the window procedure. */
  function Pump(cfg: Config, s: State, m: Msg): State {
    Handled(cfg, s.(sysCalls := s.sysCalls + [TranslateMessage(m), DispatchMessage(m)]), m).0
  }

  function Pumped(cfg: Config, s: State, ms: seq<Msg>): State
    decreases |ms|
  {
    if ms == [] then s else Pump(cfg, Pumped(cfg, s, ms[..|ms| - 1]), ms[|ms| - 1])
  }

  function ResetFrame(s: State): State {
    WithInput(s, FrameReset)
  }

  /** Dispatching keeps the calls already made on the input model and adds no
      frame reset. */
  lemma {:induction false} PumpedNeverResetsFrame(cfg: Config, s: State, ms: seq<Msg>)
    ensures var t := Pumped(cfg, s, ms);
      && s.input.calls <= t.input.calls
      && FrameReset !in t.input.calls[|s.input.calls|..]
      && t.input.mouseLocked == s.input.mouseLocked
    decreases |ms|
  {
    if ms != [] {
      var before := Pumped(cfg, s, ms[..|ms| - 1]);
      PumpedNeverResetsFrame(cfg, s, ms[..|ms| - 1]);
      var m := ms[|ms| - 1];
      var u := before.(sysCalls := before.sysCalls + [TranslateMessage(m), DispatchMessage(m)]);
      HandledInputEffect(cfg, u, m);
      var t := Pumped(cfg, s, ms);
      var n := |s.input.calls|;
      if t.input.calls != before.input.calls {
        var c :| c != FrameReset && t.input.calls == before.input.calls + [c];
        assert t.input.calls[n..] == before.input.calls[n..] + [c];
      }
    }
  }

  /** A poll resets the frame exactly once, before any message makes a call
      on the input model. */
  lemma PollResetsFrameOnceFirst(cfg: Config, s: State, ms: seq<Msg>)
    ensures var t := Pumped(cfg, ResetFrame(s), ms);
      var n := |s.input.calls|;
      && |t.input.calls| > n
      && t.input.calls[..n + 1] == s.input.calls + [FrameReset]
      && FrameReset !in t.input.calls[n + 1..]
  {
    PumpedNeverResetsFrame(cfg, ResetFrame(s), ms);
  }

  /** Pumping never leaves the cached centre silently out of date. */
  lemma {:induction false} PumpedKeepsCentreCurrent(cfg: Config, s: State, ms: seq<Msg>)
    requires CentreCurrent(cfg, s)
    ensures CentreCurrent(cfg, Pumped(cfg, s, ms))
    ensures Pumped(cfg, s, ms).clientOrigin == s.clientOrigin
    decreases |ms|
  {
    if ms != [] {
      var before := Pumped(cfg, s, ms[..|ms| - 1]);
      PumpedKeepsCentreCurrent(cfg, s, ms[..|ms| - 1]);
      var m := ms[|ms| - 1];
      var u := before.(sysCalls := before.sysCalls + [TranslateMessage(m), DispatchMessage(m)]);
      HandledKeepsCentreCurrent(cfg, u, m);
    }
  }

  // ---------------------------------------------------------------------

  class Window {
    const width: nat
    const height: nat
    const os: Os
    const graphics: Graphics.Graphics
    var input: Input
    var mouseCenter: Point
    var updateMouseCenter: bool
    /** Whether `end_render` drains the debug layer's message queue. */
    var debugLogging: bool

    function Cfg(): Config {
      Config(width, height, os.defWindowProc)
    }

    ghost function Snapshot(): State
      reads this, os
    {
      State(input, mouseCenter, updateMouseCenter, os.clientOrigin, os.cursor, os.calls)
    }

    /** The field values `new` ends with once the window and its graphics
        exist: a fresh input model, graphics outside a frame with no
        viewports, built at the window size cast to `u32`, and the centre
        computed once, so it is not stale. */
    constructor (width: nat, height: nat, debugLogging: bool, os: Os)
      ensures this.width == width && this.height == height && this.os == os
      ensures this.debugLogging == debugLogging
      ensures fresh(graphics) && fresh(graphics.device) && graphics.Valid()
      ensures var size := Extent(AsU32(width), AsU32(height));
        && graphics.device.backBuffers == size
        && graphics.renderTargetView == Some(RenderTargetView(size))
        && graphics.depthStencilView == Some(DepthStencilView(size))
      ensures !graphics.rendering && graphics.viewports == []
      ensures graphics.newViewportKey == 0 && graphics.defaultViewport == 0
      ensures input == Input([], false)
      ensures !updateMouseCenter && mouseCenter == ClientCentre(Cfg(), os.clientOrigin)
      ensures CentreCurrent(Cfg(), Snapshot())
    {
      this.width := width;
      this.height := height;
      this.os := os;
      input := Input([], false);
      mouseCenter := Point(0, 0);
      updateMouseCenter := true;
      this.debugLogging := debugLogging;
      graphics := new Graphics.Graphics(AsU32(width), AsU32(height));
      new;
      UpdateMouseCenter();
    }

    method UpdateMouseCenter()
      modifies this`mouseCenter, this`updateMouseCenter
      ensures Snapshot() == Recentred(Cfg(), old(Snapshot()))
    {
      mouseCenter := os.ClientToScreen(Point(width / 2, height / 2));
      updateMouseCenter := false;
    }

    method ResetMousePosition()
      modifies this`mouseCenter, this`updateMouseCenter, os`cursor, os`calls
      ensures Snapshot() == Warped(Cfg(), old(Snapshot()))
    {
      if updateMouseCenter {
        UpdateMouseCenter();
      }
      os.SetCursorPos(mouseCenter);
    }

    method WndProc(m: Msg) returns (r: int)
      modifies this`input, this`mouseCenter, this`updateMouseCenter, os`cursor, os`calls
      ensures (Snapshot(), r) == Handled(Cfg(), old(Snapshot()), m)
    {
      var code := m.message;
      r := 0;
      if code == WM_DESTROY {
        os.Record(PostQuitMessage(0));
      } else if code == WM_CLOSE {
        os.Record(DestroyWindow);
      } else if code == WM_WINDOWPOSCHANGED {
        updateMouseCenter := true;
      } else if code == WM_KEYDOWN {
        input := input.Record(KeyDown(KeyCode(m.wParam)));
      } else if code == WM_KEYUP {
        input := input.Record(KeyUp(KeyCode(m.wParam)));
      } else if code == WM_LBUTTONDOWN {
        input := input.Record(MouseDown(0));
      } else if code == WM_LBUTTONUP {
        input := input.Record(MouseUp(0));
      } else if code == WM_RBUTTONDOWN {
        input := input.Record(MouseDown(1));
      } else if code == WM_RBUTTONUP {
        input := input.Record(MouseUp(1));
      } else if code == WM_MBUTTONDOWN {
        input := input.Record(MouseDown(2));
      } else if code == WM_MBUTTONUP {
        input := input.Record(MouseUp(2));
      } else if code == WM_MOUSEMOVE {
        input := input.Record(UpdateMousePosition(MouseDelta(width, height, m.lParam)));
        if input.mouseLocked {
          ResetMousePosition();
        }
      } else if code == WM_SETFOCUS {
        if input.mouseLocked {
          ResetMousePosition();
        }
      } else {
        r := os.DefWindowProc(m);
      }
    }

    /** `translate_message` and `dispatch_message`, which runs the window
        procedure on the message. */
    method PumpMessage(msg: Msg)
      modifies this`input, this`mouseCenter, this`updateMouseCenter, os`cursor, os`calls
      ensures Snapshot() == Pump(Cfg(), old(Snapshot()), msg)
    {
      os.Record(TranslateMessage(msg));
      os.Record(DispatchMessage(msg));
      var _ := WndProc(msg);
    }

    /** The application locks or unlocks the mouse through `input_mut`. */
    method SetMouseLocked(locked: bool)
      modifies this`input
      ensures input == old(input).(mouseLocked := locked)
    {
      input := input.(mouseLocked := locked);
    }

    /** Resets the frame, then drains the queue: `false` as soon as
        `WM_QUIT` is taken, `true` once the queue is empty. */
    method PollEvents() returns (r: bool)
      modifies this`input, this`mouseCenter, this`updateMouseCenter, os`cursor, os`calls, os`queue
      ensures r <==> !HasQuit(old(os.queue))
      ensures os.queue == if r then [] else old(os.queue)[|Delivered(old(os.queue))| + 1..]
      ensures Snapshot() == Pumped(Cfg(), ResetFrame(old(Snapshot())), Delivered(old(os.queue)))
    {
      input := input.Record(FrameReset);
      ghost var q := os.queue;
      ghost var s0 := Snapshot();
      ghost var k := 0;
      var found, msg := os.PeekMessage();
      while found
        invariant 0 <= k <= |q|
        invariant found ==> k < |q| && msg == q[k] && os.queue == q[k + 1..]
        invariant !found ==> k == |q| && os.queue == []
        invariant forall j :: 0 <= j < k ==> q[j].message != WM_QUIT
        invariant Snapshot() == Pumped(Cfg(), s0, q[..k])
        decreases |os.queue| + (if found then 1 else 0)
      {
        if msg.message == WM_QUIT {
          DeliveredStopsAtQuit(q, k);
          return false;
        }
        PumpMessage(msg);
        assert q[..k + 1][..k] == q[..k];
        k := k + 1;
        found, msg := os.PeekMessage();
      }
      DeliveredStopsAtQuit(q, k);
      assert q[..k] == q;
      return true;
    }

    /** Forwards to the graphics' `begin_render`. */
    method BeginRender(clearColor: Color)
      requires graphics.ViewsReady()
      modifies graphics`rendering, graphics.device`calls
      ensures graphics.rendering
      ensures graphics.device.calls == old(graphics.device.calls)
        + Graphics.BeginRenderCalls(graphics.renderTargetView.value, graphics.depthStencilView.value, clearColor)
    {
      graphics.BeginRender(clearColor);
    }

    /** Forwards to the graphics' `end_render` with the window's
        `debug_logging` flag; its error is passed on. */
    method EndRender(presentError: Option<DxError>, stored: seq<Option<DxError>>)
      returns (r: Result<(), Graphics.RenderError>)
      modifies graphics`rendering, graphics.device`calls
      ensures var presentFailed := old(graphics.rendering) && presentError.Some?;
        graphics.device.calls == old(graphics.device.calls) + Graphics.EndRenderCalls(old(graphics.rendering))
          + (if presentFailed || !debugLogging then [] else Graphics.DrainCalls(stored))
      ensures graphics.rendering == Graphics.RenderingAfterEnd(old(graphics.rendering), presentError)
      ensures r.Failure? <==>
        || (old(graphics.rendering) && presentError.Some?)
        || (debugLogging && Graphics.FirstFailure(stored).Some?)
      ensures r.Failure? && old(graphics.rendering) && presentError.Some? ==>
        r.error == Graphics.RenderError(presentError.value)
      ensures r.Failure? && !(old(graphics.rendering) && presentError.Some?) ==>
        && Graphics.FirstFailure(stored).Some?
        && r.error == Graphics.RenderError(stored[Graphics.FirstFailure(stored).value].value)
    {
      r := graphics.EndRender(presentError, debugLogging, stored);
    }

    /** `set_debug_logging`: only the flag changes. */
    method SetDebugLogging(enable: bool)
      modifies this`debugLogging
      ensures debugLogging == enable
    {
      debugLogging := enable;
    }
  }
}
