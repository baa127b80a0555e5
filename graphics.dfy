/** The render surface and the viewport registry: the swap chain's render
    target and depth/stencil views, the begin/end-of-frame protocol, the
    resize protocol, and the keyed list of viewports. */
module Graphics {
  import opened Wrappers
  import opened Direct3D
  import opened Viewports

  datatype GraphicsCreationErrorClass =
    | DXGIFactoryCreation
    | PrimaryAdapter
    | PrimaryOutput
    | DisplayModes
    | DeviceAndSwapChain
    | BackBuffer
    | RenderTargetView
    | DepthStencilBuffer
    | DepthStencilState
    | DepthStencilView
    | Rasterizer
    | BlendState
    | InfoQueue

  datatype GraphicsCreationError = GraphicsCreationError(errorClass: GraphicsCreationErrorClass, error: DxError)

  datatype RenderError = RenderError(error: DxError)

  // ---------------------------------------------------------------------
  // Refresh rate of the primary output

  datatype RefreshRate = RefreshRate(numerator: nat, denominator: nat)

  datatype DisplayMode = DisplayMode(width: nat, height: nat, refreshRate: RefreshRate)

  /** What DXGI answers while the refresh rate is looked up: each of the
      first three steps may fail, and the display-mode list may fail or be
      given. */
  datatype DisplayQuery = DisplayQuery(
    factory: Option<DxError>,
    adapter: Option<DxError>,
    output: Option<DxError>,
    modes: Result<seq<DisplayMode>, DxError>)

  predicate Matches(mode: DisplayMode, width: nat, height: nat) {
    mode.width == width && mode.height == height
  }

  /** The refresh rate of the last display mode of size `width` x `height`,
      or `0/0` when there is none; a failing DXGI step ends the search with
      the error class of that step. */
  method GetRefreshRate(query: DisplayQuery, width: nat, height: nat)
    returns (r: Result<RefreshRate, GraphicsCreationError>)
    ensures query.factory.Some? ==>
      r == Failure(GraphicsCreationError(DXGIFactoryCreation, query.factory.value))
    ensures query.factory.None? && query.adapter.Some? ==>
      r == Failure(GraphicsCreationError(PrimaryAdapter, query.adapter.value))
    ensures query.factory.None? && query.adapter.None? && query.output.Some? ==>
      r == Failure(GraphicsCreationError(PrimaryOutput, query.output.value))
    ensures query.factory.None? && query.adapter.None? && query.output.None? && query.modes.Failure? ==>
      r == Failure(GraphicsCreationError(DisplayModes, query.modes.error))
    ensures query.factory.None? && query.adapter.None? && query.output.None? && query.modes.Success? ==>
      var modes := query.modes.value;
      && r.Success?
      && ((forall i :: 0 <= i < |modes| ==> !Matches(modes[i], width, height)) ==> r.value == RefreshRate(0, 0))
      && ((exists i :: 0 <= i < |modes| && Matches(modes[i], width, height)) ==>
            exists i :: && 0 <= i < |modes| && Matches(modes[i], width, height)
                        && r.value == modes[i].refreshRate
                        && forall j :: i < j < |modes| ==> !Matches(modes[j], width, height))
  {
    if query.factory.Some? {
      return Failure(GraphicsCreationError(DXGIFactoryCreation, query.factory.value));
    }
    if query.adapter.Some? {
      return Failure(GraphicsCreationError(PrimaryAdapter, query.adapter.value));
    }
    if query.output.Some? {
      return Failure(GraphicsCreationError(PrimaryOutput, query.output.value));
    }
    if query.modes.Failure? {
      return Failure(GraphicsCreationError(DisplayModes, query.modes.error));
    }
    var modes := query.modes.value;
    var rate := RefreshRate(0, 0);
    ghost var last: int := -1;
    for i := 0 to |modes|
      invariant -1 <= last < i
      invariant last == -1 ==>
        rate == RefreshRate(0, 0) && forall j :: 0 <= j < i ==> !Matches(modes[j], width, height)
      invariant last >= 0 ==>
        && Matches(modes[last], width, height) && rate == modes[last].refreshRate
        && forall j :: last < j < i ==> !Matches(modes[j], width, height)
    {
      if modes[i].width == width && modes[i].height == height {
        rate := modes[i].refreshRate;
        last := i;
      }
    }
    return Success(rate);
  }

  // ---------------------------------------------------------------------
  // The viewport registry, as a list of viewports with constant keys

  /** Keys strictly increase along the list, so no key occurs twice. */
  ghost predicate KeysAscending(vs: seq<Viewport>) {
    forall i, j :: 0 <= i < j < |vs| ==> vs[i].key < vs[j].key
  }

  ghost predicate KeysBelow(vs: seq<Viewport>, bound: nat) {
    forall v :: v in vs ==> v.key < bound
  }

  /** `Vec::retain(|v| v.key() != key)`: the viewports whose key is not
      `key`, in their original order. */
  function Retained(vs: seq<Viewport>, key: nat): (r: seq<Viewport>)
    ensures forall v :: v in r ==> v in vs && v.key != key
    ensures forall v :: v in vs && v.key != key ==> v in r
    ensures |r| <= |vs|
  {
    if vs == [] then []
    else (if vs[0].key != key then [vs[0]] else []) + Retained(vs[1..], key)
  }

  /** Retaining distributes over concatenation: the kept viewports keep
      their relative order. */
  lemma {:induction false} RetainedDistributes(a: seq<Viewport>, b: seq<Viewport>, key: nat)
    ensures Retained(a + b, key) == Retained(a, key) + Retained(b, key)
  {
    if a == [] {
      assert a + b == b;
    } else {
      assert (a + b)[0] == a[0];
      assert (a + b)[1..] == a[1..] + b;
      RetainedDistributes(a[1..], b, key);
    }
  }

  /** Removing a key that no viewport carries changes nothing. */
  lemma {:induction false} RetainedAbsentKey(vs: seq<Viewport>, key: nat)
    requires forall v :: v in vs ==> v.key != key
    ensures Retained(vs, key) == vs
  {
    if vs != [] {
      RetainedAbsentKey(vs[1..], key);
      assert [vs[0]] + vs[1..] == vs;
    }
  }

  /** Removing a key keeps the keys ascending. */
  lemma {:induction false} RetainedKeepsAscending(vs: seq<Viewport>, key: nat)
    requires KeysAscending(vs)
    ensures KeysAscending(Retained(vs, key))
  {
    if vs != [] {
      var rest := Retained(vs[1..], key);
      RetainedKeepsAscending(vs[1..], key);
      forall v | v in rest ensures vs[0].key < v.key {
        var j :| 0 <= j < |vs[1..]| && vs[1..][j] == v;
        assert vs[j + 1] == v;
      }
    }
  }

  // ---------------------------------------------------------------------
  // The frame protocol

  /** The calls `begin_render` makes on the context. */
  function BeginRenderCalls(rtv: RenderTargetView, dsv: DepthStencilView, clearColor: Color): seq<Call> {
    [ ClearRenderTargetView(rtv, clearColor),
      ClearDepthStencilView(dsv, true, false, 1.0, 0),
      SetRenderTargets(Some(rtv), Some(dsv)),
      SetPrimitiveTopologyTriangleList,
      SetBlendState(Color(1.0, 1.0, 1.0, 1.0), U32_MAX) ]
  }

  /** The calls `end_render` makes: nothing outside a frame; inside one, the
      targets are unbound and the swap chain presented with sync interval 1. */
  function EndRenderCalls(rendering: bool): seq<Call> {
    if rendering then [SetRenderTargets(None, None), Call.Present(1, 0)] else []
  }

  /** A frame stays in progress after `end_render` only when its present
      failed. */
  function RenderingAfterEnd(rendering: bool, presentError: Option<DxError>): bool {
    rendering && presentError.Some?
  }

  datatype FrameOp = Begin | End(presentError: Option<DxError>)

  function RenderingAfter(rendering: bool, op: FrameOp): bool {
    match op
    case Begin => true
    case End(e) => RenderingAfterEnd(rendering, e)
  }

  function RenderingAfterAll(rendering: bool, ops: seq<FrameOp>): bool
    decreases ops
  {
    if ops == [] then rendering else RenderingAfterAll(RenderingAfter(rendering, ops[0]), ops[1..])
  }

  /** How many `end_render` calls in `ops` presented successfully. */
  function SuccessfulPresents(rendering: bool, ops: seq<FrameOp>): nat
    decreases ops
  {
    if ops == [] then 0
    else
      (if ops[0].End? && rendering && ops[0].presentError.None? then 1 else 0)
      + SuccessfulPresents(RenderingAfter(rendering, ops[0]), ops[1..])
  }

  function Begins(ops: seq<FrameOp>): nat {
    if ops == [] then 0 else (if ops[0].Begin? then 1 else 0) + Begins(ops[1..])
  }

  /** Each successful present closes a frame opened by its own
      `begin_render`: from a state outside a frame, successful presents never
      outnumber `begin_render` calls, and a frame still in progress at the end
      accounts for one more. */
  lemma {:induction false} PresentsNeverOutnumberBegins(rendering: bool, ops: seq<FrameOp>)
    ensures SuccessfulPresents(rendering, ops) + (if RenderingAfterAll(rendering, ops) then 1 else 0)
         <= Begins(ops) + (if rendering then 1 else 0)
    decreases ops
  {
    if ops != [] {
      PresentsNeverOutnumberBegins(RenderingAfter(rendering, ops[0]), ops[1..]);
    }
  }

  // ---------------------------------------------------------------------
  // The debug-message drain at the end of `end_render`

  /** The index of the first stored debug message that cannot be fetched,
      where `stored[i]` is the outcome of fetching message `i`. */
  function FirstFailure(stored: seq<Option<DxError>>): (r: Option<nat>)
    ensures r.None? <==> forall i :: 0 <= i < |stored| ==> stored[i].None?
    ensures r.Some? ==>
      && r.value < |stored|
      && stored[r.value].Some?
      && forall j :: 0 <= j < r.value ==> stored[j].None?
  {
    if |stored| == 0 then None
    else if stored[0].Some? then Some(0)
    else
      match FirstFailure(stored[1..])
      case None => None
      case Some(k) => Some(k + 1)
  }

  /** Fetching messages `0 .. n - 1`, in order. */
  function GetMessageCalls(n: nat): seq<Call> {
    if n == 0 then [] else GetMessageCalls(n - 1) + [Call.GetMessage(n - 1)]
  }

  lemma {:induction false} GetMessageCallsMembers(n: nat, c: Call)
    ensures c in GetMessageCalls(n) <==> c.GetMessage? && c.index < n
  {
    if n > 0 {
      GetMessageCallsMembers(n - 1, c);
    }
  }

  /** The calls of the drain: the stored messages are fetched in order up to
      the first one that cannot be; the queue is cleared only when all were
      fetched. */
  function DrainCalls(stored: seq<Option<DxError>>): seq<Call> {
    match FirstFailure(stored)
    case None => GetMessageCalls(|stored|) + [ClearStoredMessages]
    case Some(k) => GetMessageCalls(k + 1)
  }

  /** The drain clears the queue exactly when every stored message could be
      fetched, and it fetches a message exactly when every earlier one was
      fetched without failing. */
  lemma DrainStopsAtFirstFailure(stored: seq<Option<DxError>>)
    ensures ClearStoredMessages in DrainCalls(stored)
      <==> forall i :: 0 <= i < |stored| ==> stored[i].None?
    ensures forall k: nat ::
      Call.GetMessage(k) in DrainCalls(stored)
      <==> k < |stored| && forall j :: 0 <= j < k ==> stored[j].None?
  {
    GetMessageCallsMembers(|stored|, ClearStoredMessages);
    if FirstFailure(stored).Some? {
      GetMessageCallsMembers(FirstFailure(stored).value + 1, ClearStoredMessages);
    }
    forall k: nat
      ensures Call.GetMessage(k) in DrainCalls(stored)
        <==> k < |stored| && forall j :: 0 <= j < k ==> stored[j].None?
    {
      match FirstFailure(stored)
      case None =>
        GetMessageCallsMembers(|stored|, Call.GetMessage(k));
      case Some(f) =>
        GetMessageCallsMembers(f + 1, Call.GetMessage(k));
        if k > f {
          assert stored[f].Some?;
        }
    }
  }

  // ---------------------------------------------------------------------
  // The resize protocol

  /** The calls `resize_swap_chain` makes before the buffers are resized:
      unbind the targets, release whichever views were held, flush. */
  function Teardown(hadRtv: bool, hadDsv: bool): seq<Call> {
    [SetRenderTargets(None, None)]
    + (if hadRtv then [ReleaseRenderTargetView] else [])
    + (if hadDsv then [ReleaseDepthStencilView] else [])
    + [Flush]
  }

  /** The calls after the resize: both views again at the new size, then the
      full-window viewport. */
  function Rebuild(size: Extent): seq<Call> {
    [ Call.CreateRenderTargetView(size),
      CreateDepthStencilBuffer(size),
      Call.CreateDepthStencilView(size),
      SetViewports([FullWindow(size)]) ]
  }

  /** The whole call sequence of `resize_swap_chain`, given which views were
      held on entry; the buffers are resized with no view left alive. */
  function ResizeCalls(size: Extent, hadRtv: bool, hadDsv: bool): seq<Call> {
    Teardown(hadRtv, hadDsv) + [Call.ResizeBuffers(NUM_BUFFERS, size, 0)] + Rebuild(size)
  }

  /** In the resize sequence the buffers are resized exactly once, with no
      live view, after every release and before every view is recreated. */
  lemma ResizeReleasesViewsFirst(size: Extent, hadRtv: bool, hadDsv: bool)
    ensures var cs := ResizeCalls(size, hadRtv, hadDsv);
      exists i :: && 0 <= i < |cs|
                  && cs[i] == Call.ResizeBuffers(NUM_BUFFERS, size, 0)
                  && (forall j :: 0 <= j < |cs| && j != i ==> !cs[j].ResizeBuffers?)
                  && (forall j :: i < j < |cs| ==> !cs[j].ReleaseRenderTargetView? && !cs[j].ReleaseDepthStencilView?)
                  && (forall j :: 0 <= j < i ==> !cs[j].CreateRenderTargetView? && !cs[j].CreateDepthStencilView?)
                  && (hadRtv ==> ReleaseRenderTargetView in cs[..i])
                  && (hadDsv ==> ReleaseDepthStencilView in cs[..i])
  {
    var cs := ResizeCalls(size, hadRtv, hadDsv);
    var t := Teardown(hadRtv, hadDsv);
    var i := |t|;
    assert cs[..i] == t;
    assert cs[i] == Call.ResizeBuffers(NUM_BUFFERS, size, 0);
    assert cs[i + 1..] == Rebuild(size);
    forall j | i < j < |cs| ensures !cs[j].ResizeBuffers? && !cs[j].ReleaseRenderTargetView? && !cs[j].ReleaseDepthStencilView? {
      assert cs[j] == cs[i + 1..][j - i - 1];
    }
    forall j | 0 <= j < i ensures !cs[j].ResizeBuffers? && !cs[j].CreateRenderTargetView? && !cs[j].CreateDepthStencilView? {
      assert cs[j] == t[j];
    }
  }

  /** `create_depth_stencil_view`: a depth/stencil texture of the given size,
      then a view of it. */
  method CreateDepthStencil(device: Device, size: Extent) returns (buffer: Texture2D, dsv: DepthStencilView)
    modifies device`calls
    ensures buffer == Texture2D(size) && dsv == Direct3D.DepthStencilView(size)
    ensures device.calls == old(device.calls) + [CreateDepthStencilBuffer(size), Call.CreateDepthStencilView(size)]
  {
    buffer := Texture2D(size);
    device.Record(CreateDepthStencilBuffer(size));
    dsv := Direct3D.DepthStencilView(size);
    device.Record(Call.CreateDepthStencilView(size));
  }

  // ---------------------------------------------------------------------

  class Graphics {
    const device: Device
    var renderTargetView: Option<RenderTargetView>
    var depthStencilBuffer: Texture2D
    var depthStencilView: Option<DepthStencilView>
    var rendering: bool

    var viewports: seq<Viewport>
    var newViewportKey: nat
    var defaultViewport: nat

    /** Both views are held, which is what `begin_render` unwraps. */
    ghost predicate ViewsReady() reads this {
      renderTargetView.Some? && depthStencilView.Some?
    }

    /** Keys ascend along the list and are all below the next key to hand
        out. */
    ghost predicate RegistryValid() reads this {
      KeysAscending(viewports) && KeysBelow(viewports, newViewportKey)
    }

    ghost predicate Valid() reads this {
      ViewsReady() && RegistryValid()
    }

    /** The field values `Graphics::new` ends with, once the device, the swap
        chain, the views and the states were created. */
    constructor (width: nat, height: nat)
      ensures Valid() && fresh(device)
      ensures device.backBuffers == Extent(width, height)
      ensures renderTargetView == Some(Direct3D.RenderTargetView(Extent(width, height)))
      ensures depthStencilBuffer == Texture2D(Extent(width, height))
      ensures depthStencilView == Some(Direct3D.DepthStencilView(Extent(width, height)))
      ensures !rendering && viewports == [] && newViewportKey == 0 && defaultViewport == 0
      ensures device.calls == [ Call.CreateRenderTargetView(Extent(width, height)),
                                CreateDepthStencilBuffer(Extent(width, height)),
                                Call.CreateDepthStencilView(Extent(width, height)),
                                SetDepthStencilState(1),
                                SetViewports([FullWindow(Extent(width, height))]) ]
    {
      var size := Extent(width, height);
      var d := new Device(size);
      var rtv := d.CreateRenderTargetView();
      var buffer, dsv := CreateDepthStencil(d, size);
      d.Record(SetDepthStencilState(1));
      d.Record(SetViewports([FullWindow(size)]));
      device := d;
      renderTargetView := Some(rtv);
      depthStencilBuffer := buffer;
      depthStencilView := Some(dsv);
      rendering := false;
      viewports := [];
      newViewportKey := 0;
      defaultViewport := 0;
    }

    /** The key last given to `SetDefaultViewport`, 0 before any. */
    function DefaultViewport(): (k: nat)
      reads this
      ensures k == defaultViewport
    {
      defaultViewport
    }

    method SetDefaultViewport(key: nat)
      modifies this`defaultViewport
      ensures defaultViewport == key
    {
      defaultViewport := key;
    }

    /** Opens a frame: clears both views, binds them, sets the topology and
        the blend state. */
    method BeginRender(clearColor: Color)
      requires ViewsReady()
      modifies this`rendering, device`calls
      ensures rendering
      ensures device.calls == old(device.calls)
                + BeginRenderCalls(renderTargetView.value, depthStencilView.value, clearColor)
    {
      rendering := true;
      var rtv := renderTargetView.value;
      var dsv := depthStencilView.value;
      device.Record(ClearRenderTargetView(rtv, clearColor));
      device.Record(ClearDepthStencilView(dsv, true, false, 1.0, 0));
      device.Record(SetRenderTargets(Some(rtv), Some(dsv)));
      device.Record(SetPrimitiveTopologyTriangleList);
      device.Record(SetBlendState(Color(1.0, 1.0, 1.0, 1.0), U32_MAX));
    }

    /** Closes a frame if one is in progress; a failed present is returned
        and leaves the frame in progress. With `debugLogging`, the debug
        layer's stored messages are then fetched in order and the queue
        cleared; a message that cannot be fetched is returned as the error
        and leaves the queue uncleared. `stored[i]` is the outcome of fetching
        stored message `i`. */
    method EndRender(presentError: Option<DxError>, debugLogging: bool, stored: seq<Option<DxError>>)
      returns (r: Result<(), RenderError>)
      modifies this`rendering, device`calls
      ensures var presentFailed := old(rendering) && presentError.Some?;
        device.calls == old(device.calls) + EndRenderCalls(old(rendering))
          + (if presentFailed || !debugLogging then [] else DrainCalls(stored))
      ensures rendering == RenderingAfterEnd(old(rendering), presentError)
      ensures r.Failure? <==>
        || (old(rendering) && presentError.Some?)
        || (debugLogging && FirstFailure(stored).Some?)
      ensures r.Failure? && old(rendering) && presentError.Some? ==>
        r.error == RenderError(presentError.value)
      ensures r.Failure? && !(old(rendering) && presentError.Some?) ==>
        && FirstFailure(stored).Some?
        && r.error == RenderError(stored[FirstFailure(stored).value].value)
    {
      if rendering {
        device.Record(SetRenderTargets(None, None));
        var err := device.Present(1, 0, presentError);
        if err.Some? {
          return Failure(RenderError(err.value));
        }
        rendering := false;
      }
      if debugLogging {
        ghost var before := device.calls;
        var n := |stored|;
        for i := 0 to n
          invariant rendering == RenderingAfterEnd(old(rendering), presentError)
          invariant forall j :: 0 <= j < i ==> stored[j].None?
          invariant device.calls == before + GetMessageCalls(i)
        {
          var err := device.GetMessage(i, stored[i]);
          if err.Some? {
            return Failure(RenderError(err.value));
          }
        }
        device.Record(ClearStoredMessages);
      }
      return Success(());
    }

    /** Tears the views down, resizes the swap chain's buffers and builds the
        views again at the new size. */
    method ResizeSwapChain(width: nat, height: nat)
      modifies this`renderTargetView, this`depthStencilView, this`depthStencilBuffer, device
      ensures ViewsReady()
      ensures device.calls == old(device.calls)
                + ResizeCalls(Extent(width, height), old(renderTargetView).Some?, old(depthStencilView).Some?)
      ensures device.backBuffers == Extent(width, height)
      ensures renderTargetView == Some(Direct3D.RenderTargetView(Extent(width, height)))
      ensures depthStencilBuffer == Texture2D(Extent(width, height))
      ensures depthStencilView == Some(Direct3D.DepthStencilView(Extent(width, height)))
    {
      var size := Extent(width, height);
      ReleaseViews();
      var liveViews := (if renderTargetView.Some? then 1 else 0) + (if depthStencilView.Some? then 1 else 0);
      device.ResizeBuffers(NUM_BUFFERS, size, liveViews);
      ghost var resized := device.calls;
      RebuildViews(size);
      assert device.calls == resized + Rebuild(size);
    }

    /** The part of `resize_swap_chain` before the resize: unbind the
        targets, drop whichever views are held, flush. */
    method ReleaseViews()
      modifies this`renderTargetView, this`depthStencilView, device`calls
      ensures renderTargetView.None? && depthStencilView.None?
      ensures device.calls == old(device.calls)
                + Teardown(old(renderTargetView).Some?, old(depthStencilView).Some?)
    {
      device.Record(SetRenderTargets(None, None));
      if renderTargetView.Some? {
        renderTargetView := None;
        device.Record(ReleaseRenderTargetView);
      }
      if depthStencilView.Some? {
        depthStencilView := None;
        device.Record(ReleaseDepthStencilView);
      }
      device.Record(Flush);
    }

    /** The part of `resize_swap_chain` after the resize: both views again
        over the current back buffers, then the full-window viewport. */
    method RebuildViews(size: Extent)
      requires device.backBuffers == size
      modifies this`renderTargetView, this`depthStencilView, this`depthStencilBuffer, device`calls
      ensures device.calls == old(device.calls) + Rebuild(size)
      ensures renderTargetView == Some(Direct3D.RenderTargetView(size))
      ensures depthStencilBuffer == Texture2D(size)
      ensures depthStencilView == Some(Direct3D.DepthStencilView(size))
    {
      var rtv := device.CreateRenderTargetView();
      renderTargetView := Some(rtv);
      var buffer, dsv := CreateDepthStencil(device, size);
      depthStencilBuffer, depthStencilView := buffer, Some(dsv);
      device.Record(SetViewports([FullWindow(size)]));
    }

    /** Appends one viewport under the next key and hands that key out. */
    method CreateViewport(topLeft: Vector2, size: Vector2, updater: Option<Updater>) returns (key: nat)
      requires RegistryValid()
      modifies this`viewports, this`newViewportKey
      ensures RegistryValid()
      ensures key == old(newViewportKey) && newViewportKey == key + 1
      ensures forall v :: v in old(viewports) ==> v.key < key
      ensures |viewports| == |old(viewports)| + 1 && viewports[..|old(viewports)|] == old(viewports)
      ensures var v := viewports[|old(viewports)|];
        fresh(v) && v.key == key && v.updater == updater && v.viewport == RectOf(topLeft, size)
    {
      key := newViewportKey;
      newViewportKey := newViewportKey + 1;
      var v := new Viewport(topLeft, size, updater, key);
      viewports := viewports + [v];
    }

    /** Gives every viewport that has an updater the rectangle its updater
        computes for `newSize`; the others, and the list itself, are left as
        they are. */
    method UpdateViewports(newSize: Vector2)
      requires RegistryValid()
      modifies viewports
      ensures viewports == old(viewports)
      ensures forall i :: 0 <= i < |viewports| ==>
        viewports[i].viewport == match viewports[i].updater
                                 case None => old(viewports[i].viewport)
                                 case Some(f) => RectOf(f(newSize).0, f(newSize).1)
    {
      for i := 0 to |viewports|
        invariant forall j :: 0 <= j < i ==>
          viewports[j].viewport == match viewports[j].updater
                                   case None => old(viewports[j].viewport)
                                   case Some(f) => RectOf(f(newSize).0, f(newSize).1)
        invariant forall j :: i <= j < |viewports| ==> viewports[j].viewport == old(viewports[j].viewport)
      {
        var v := viewports[i];
        match v.Updater() {
          case Some(f) =>
            var (topLeft, size) := f(newSize);
            v.Update(topLeft, size);
          case None =>
        }
      }
    }

    /** The first viewport whose key is `key`, or `None`. */
    method GetViewport(key: nat) returns (r: Option<Viewport>)
      ensures r.None? <==> forall i :: 0 <= i < |viewports| ==> viewports[i].key != key
      ensures r.Some? ==>
        exists i :: && 0 <= i < |viewports| && viewports[i] == r.value && r.value.key == key
                    && forall j :: 0 <= j < i ==> viewports[j].key != key
    {
      for i := 0 to |viewports|
        invariant forall j :: 0 <= j < i ==> viewports[j].key != key
      {
        if viewports[i].Key() == key {
          return Some(viewports[i]);
        }
      }
      return None;
    }

    /** Drops every viewport whose key is `key`, keeping the order of the
        rest. */
    method RemoveViewport(key: nat)
      requires RegistryValid()
      modifies this`viewports
      ensures RegistryValid()
      ensures viewports == Retained(old(viewports), key)
      ensures forall v :: v in viewports ==> v.key != key
    {
      RetainedKeepsAscending(viewports, key);
      viewports := Retained(viewports, key);
    }
  }
}
