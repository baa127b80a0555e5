/** The Direct3D 11 device, its immediate context and the DXGI swap chain, seen
    only through the calls made on them. Every call is appended to `calls`, so
    that the order in which the graphics core issues them, and whether it issues
    them at all, can be stated as a property of that log. */
module Direct3D {
  import opened Wrappers

  /** Width and height in pixels of a buffer (`u32` in the source). */
  datatype Extent = Extent(width: nat, height: nat)

  /** A `D3D11_VIEWPORT`: the rectangle that maps normalised device
      coordinates to pixels, with its depth range. */
  datatype ViewportRect = ViewportRect(
    topLeftX: real, topLeftY: real, width: real, height: real,
    minDepth: real, maxDepth: real)

  /** An RGBA colour (`[f32; 4]`). */
  datatype Color = Color(r: real, g: real, b: real, a: real)

  /** A render-target view of the swap chain's back buffer of the given size. */
  datatype RenderTargetView = RenderTargetView(backBuffer: Extent)

  /** A depth/stencil texture of the given size. */
  datatype Texture2D = Texture2D(size: Extent)

  /** A depth/stencil view of a depth/stencil texture of the given size. */
  datatype DepthStencilView = DepthStencilView(buffer: Extent)

  /** An `HRESULT` failure reported by a device or swap-chain call. */
  datatype DxError = DxError(code: int)

  const NUM_BUFFERS: nat := 3
  const U32_MAX: nat := 0xFFFF_FFFF

  /** `n as u32`: the low 32 bits of `n`, which is `n` itself when it fits. */
  function AsU32(n: nat): (v: nat)
    ensures v <= U32_MAX && (n - v) % (U32_MAX + 1) == 0
    ensures n <= U32_MAX ==> v == n
  {
    n % (U32_MAX + 1)
  }

  /** The full-window viewport rectangle `(0, 0, width, height)` with depth
      range 0..1. */
  function FullWindow(size: Extent): ViewportRect {
    ViewportRect(0.0, 0.0, size.width as real, size.height as real, 0.0, 1.0)
  }

  datatype Call =
    | ClearRenderTargetView(rtv: RenderTargetView, color: Color)
    | ClearDepthStencilView(dsv: DepthStencilView, clearDepth: bool, clearStencil: bool, depth: real, stencil: nat)
      /** `om_set_render_targets`; `None, None` unbinds both targets. */
    | SetRenderTargets(target: Option<RenderTargetView>, depthStencil: Option<DepthStencilView>)
    | SetPrimitiveTopologyTriangleList
    | SetBlendState(blendFactor: Color, sampleMask: nat)
    | SetDepthStencilState(stencilRef: nat)
    | SetViewports(viewports: seq<ViewportRect>)
    | Flush
    | Present(syncInterval: nat, flags: nat)
      /** `resize_buffers`; `liveViews` counts the views the caller still
          held when it asked for the resize. */
    | ResizeBuffers(count: nat, size: Extent, liveViews: nat)
    | CreateRenderTargetView(backBuffer: Extent)
    | CreateDepthStencilBuffer(size: Extent)
    | CreateDepthStencilView(buffer: Extent)
    | ReleaseRenderTargetView
    | ReleaseDepthStencilView
      /** The debug layer's info queue: fetch stored message `index`, and
          discard every stored message. */
    | GetMessage(index: nat)
    | ClearStoredMessages

  class Device {
    /** Every call made on the device, the context or the swap chain, in order. */
    var calls: seq<Call>
    /** The size of the swap chain's back buffers. */
    var backBuffers: Extent

    constructor (size: Extent)
      ensures calls == [] && backBuffers == size
    {
      calls := [];
      backBuffers := size;
    }

    /** A context call that returns nothing and changes no swap-chain state. */
    method Record(c: Call)
      requires !c.ResizeBuffers? && !c.Present? && !c.GetMessage?
      modifies this`calls
      ensures calls == old(calls) + [c]
    {
      calls := calls + [c];
    }

    /** `IDXGISwapChain::Present`; whether it fails is decided by the system
        and given as `outcome`. */
    method Present(syncInterval: nat, flags: nat, outcome: Option<DxError>) returns (err: Option<DxError>)
      modifies this`calls
      ensures calls == old(calls) + [Call.Present(syncInterval, flags)]
      ensures err == outcome
    {
      calls := calls + [Call.Present(syncInterval, flags)];
      err := outcome;
    }

    /** `ID3D11InfoQueue::GetMessage`; whether fetching the message fails is
        decided by the system and given as `outcome`. */
    method GetMessage(index: nat, outcome: Option<DxError>) returns (err: Option<DxError>)
      modifies this`calls
      ensures calls == old(calls) + [Call.GetMessage(index)]
      ensures err == outcome
    {
      calls := calls + [Call.GetMessage(index)];
      err := outcome;
    }

    /** `IDXGISwapChain::ResizeBuffers`, on the path where it succeeds. */
    method ResizeBuffers(count: nat, size: Extent, liveViews: nat)
      modifies this
      ensures calls == old(calls) + [Call.ResizeBuffers(count, size, liveViews)]
      ensures backBuffers == size
    {
      calls := calls + [Call.ResizeBuffers(count, size, liveViews)];
      backBuffers := size;
    }

    /** `get_buffer(0)` followed by `create_render_target_view` on it. */
    method CreateRenderTargetView() returns (rtv: RenderTargetView)
      modifies this`calls
      ensures rtv == RenderTargetView(backBuffers)
      ensures calls == old(calls) + [Call.CreateRenderTargetView(backBuffers)]
    {
      rtv := RenderTargetView(backBuffers);
      calls := calls + [Call.CreateRenderTargetView(backBuffers)];
    }
  }
}
