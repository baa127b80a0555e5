# alexandria-dx11: window, render surface and viewport registry

This project is a Dafny model of the Direct3D 11 back end of the
alexandria engine. It covers three parts:

- **`Graphics`** (src/graphics.rs) owns the swap chain's render-target
  and depth/stencil views and the `rendering` flag. It also owns the list
  of viewports and the counter that hands out viewport keys.
  `begin_render` opens a frame. `end_render` unbinds the targets and
  presents, but only inside a frame. With debug logging on, it then
  fetches the debug layer's stored messages in order and clears the
  queue. A message that cannot be fetched ends `end_render` with that
  error, and the queue is then not cleared. `resize_swap_chain` releases both
  views, resizes the buffers and builds the views again. The free
  function `get_refresh_rate` picks the refresh rate of the last display
  mode with the window's size.
- **`Window`** (src/window.rs) owns the input model and the screen
  position of the client-area centre. That position is cached and marked
  stale whenever the window moves. The window procedure turns key,
  button and mouse-move messages into calls on the input model. A
  mouse-move position is decoded from `l_param` and reported relative to
  the window centre. While the mouse is locked, the window procedure
  warps the cursor back to the cached centre. `poll_events` resets the
  input frame once, then drains the message queue until `WM_QUIT`.
- **`Viewport`** (src/viewport.rs) holds a key that never changes, a
  `D3D11_VIEWPORT` rectangle with depth range 0..1, and an optional
  updater.

The device, its context and the swap chain are modelled by one object,
`Direct3D.Device`. It appends every call made on it to a log, `calls`.
The resize order, and whether the end of a frame presents at all, are
stated over that log. The system side of Win32 is modelled by
`Win32.Os`: the message queue, where the client area sits on the
screen, the cursor, and a log of the calls made on it. The input model
is a value recording the calls made on it and its lock flag. Failures
that the source can return are passed in as parameters: a failed
present, a stored debug message that cannot be fetched, and a failing
DXGI step while the refresh rate is looked up.

Each class method states its new state, either directly or as a
specification function of the old state (`Handled`, `Pump`, `Pumped`,
`Retained`, `ResizeCalls`, `EndRenderCalls`, `DrainCalls`). Lemmas about those
functions state what the source promises.

Where the design description and the code disagree, the model follows
the code. The code has no resize gesture, minimise or size-change
handling, no scan-code decoder and no per-frame size flag. The window's
`width` and `height` never change, and `resize_swap_chain` has no caller.
`set_active` on an unknown key is not part of `Graphics`: the host
gets `None` from `get_viewport` and does nothing. Note also that after a
failed present `rendering` stays true, so the next `end_render` presents
again without a new `begin_render`. The model keeps this. It bounds
*successful* presents by `begin_render` calls
(`PresentsNeverOutnumberBegins`).

## Model

| member | source | states |
|---|---|---|
| `Viewports.Viewport.constructor` | src/viewport.rs:12-31 | the key and updater are stored unchanged; the rectangle is `(top_left.x, top_left.y, size.x, size.y)` with depth 0..1 |
| `Viewports.Viewport.Update` | src/viewport.rs:50-53 | only the rectangle changes, to the new corner and size with depth 0..1; key and updater are constant |
| `Viewports.Viewport.Key` | src/viewport.rs:38-40 | the key given to the constructor, a constant over the viewport's life |
| `Viewports.Viewport.Updater` | src/viewport.rs:34-36 | the constructor's updater: `Some` exactly when one was given |
| `Viewports.Viewport.SetActive` | src/viewport.rs:44-48 | exactly one viewport, this one's current rectangle, is bound on the context |
| `Graphics.GetRefreshRate` | src/graphics.rs:54-112 | the first failing DXGI step gives its own error class; otherwise `0/0` when no mode has the window's size, else the rate of the last such mode |
| `Graphics.Retained` | src/graphics.rs:492-495 | the result holds no viewport with the key, every viewport of the list with another key, and nothing else |
| `Graphics.RetainedDistributes` | src/graphics.rs:492-495 | retaining distributes over concatenation, so the kept viewports keep their relative order |
| `Graphics.RetainedAbsentKey` | src/graphics.rs:492-495 | removing a key no viewport carries leaves the list as it was |
| `Graphics.RetainedKeepsAscending` | src/graphics.rs:492-495 | removal keeps viewport keys strictly ascending |
| `Graphics.PresentsNeverOutnumberBegins` | src/graphics.rs:389-396 | over any sequence of `begin_render`/`end_render`, successful presents never outnumber `begin_render` calls |
| `Graphics.ResizeReleasesViewsFirst` | src/graphics.rs:411-446 | the buffers are resized exactly once, with no live view, after every release and before both views are recreated |
| `Graphics.CreateDepthStencil` | src/graphics.rs:136-179 | a depth/stencil texture of the given size is created, then a view of it |
| `Graphics.Graphics.constructor` | src/graphics.rs:344-361 | both views held at the window size, not rendering, no viewports, key counter and default key 0, full-window viewport set |
| `Graphics.Graphics.SetDefaultViewport` | src/graphics.rs:478-480 | the default key becomes the given key |
| `Graphics.Graphics.BeginRender` | src/graphics.rs:368-387 | `rendering` becomes true; both held views are cleared and bound, then topology and blend state set |
| `Graphics.FirstFailure` | src/graphics.rs:400-403 | the index of the first stored message that cannot be fetched, every earlier one being fetchable; `None` exactly when all can be fetched |
| `Graphics.DrainStopsAtFirstFailure` | src/graphics.rs:399-406 | the drain clears the queue exactly when every stored message was fetched, and fetches message `k` exactly when `k` is stored and all earlier messages were fetched without failing |
| `Graphics.Graphics.DefaultViewport` | src/graphics.rs:364-366 | the key last given to `SetDefaultViewport`, 0 after construction |
| `Graphics.Graphics.EndRender` | src/graphics.rs:389-409 | outside a frame no present is made; inside, unbind then present with sync interval 1, and `rendering` is cleared only when the present succeeds, its error returned otherwise; after a successful present or outside a frame, with debug logging the drain's calls follow, and the first unfetchable message's error is returned; `Success` exactly when neither failure happens |
| `Graphics.Graphics.ResizeSwapChain` | src/graphics.rs:411-446 | unbind, release, flush, resize with no live view, recreate both views at width x height, set the full-window viewport; both views held afterwards |
| `Graphics.Graphics.ReleaseViews` | src/graphics.rs:414-422 | unbind the targets, release each view that was held, flush; neither view is held afterwards |
| `Graphics.Graphics.RebuildViews` | src/graphics.rs:435-445 | render-target view over the back buffers, depth/stencil buffer and view at the new size, then the full-window viewport |
| `Graphics.Graphics.CreateViewport` | src/graphics.rs:448-464 | returns the counter, which then increases by one; exactly one viewport with that key is appended and earlier entries are unchanged; the key exceeds every key in the list |
| `Graphics.Graphics.UpdateViewports` | src/graphics.rs:466-476 | each viewport with an updater gets its updater's rectangle for the new size, the others keep theirs; the list is unchanged |
| `Graphics.Graphics.GetViewport` | src/graphics.rs:482-490 | the first viewport with the key, or `None` exactly when no viewport has it |
| `Graphics.Graphics.RemoveViewport` | src/graphics.rs:492-495 | the list becomes `Retained(list, key)`, so no viewport with the key remains and keys stay ascending |
| `Window.KeyCode` | src/window.rs:59-60 | `w_param as u8`: below 256 and congruent to `w_param` modulo 256 |
| `Window.SignExtend16` | src/window.rs:68-69 | `as i16`: a signed 16-bit value congruent to the word modulo 2^16 |
| `Window.LowSigned` | src/window.rs:68 | the low 16 bits of `l_param` read as a signed 16-bit value |
| `Window.HighSigned` | src/window.rs:69 | bits 16..31 of `l_param` read as a signed 16-bit value |
| `Window.MouseDelta` | src/window.rs:67-75 | the reported position plus half the window size is the signed x and y packed into `l_param` |
| `Window.MouseDeltaRoundTrip` | src/window.rs:67-75 | decoding a packed client position gives `(x - width/2, y - height/2)` |
| `Window.HandledAnswer` | src/window.rs:53-89 | handled messages answer 0; others go to `DefWindowProc`, whose answer is returned, and nothing else changes |
| `Window.InputMapping` | src/window.rs:59-66 | key messages pass the low byte of `w_param`; buttons map left to 0, right to 1, middle to 2, down and up alike |
| `Window.HandledInputEffect` | src/window.rs:53-89 | a message makes at most one input call, never a frame reset, and does not change the lock |
| `Window.WarpExactlyWhenLocked` | src/window.rs:77-98 | the cursor is warped, once, to the refreshed centre exactly when the mouse is locked and the message is a mouse move or focus gain |
| `Window.HandledKeepsCentreCurrent` | src/window.rs:53-109 | a current cached centre stays current, and every warp lands on the true client-area centre |
| `Window.RunKeepsCentreCurrent` | src/window.rs:56-58 | under any interleaving of moves, lock changes and messages the cached centre is current or marked stale |
| `Window.Delivered` | src/window.rs:216-223 | the dispatched messages are the prefix of the queue before its first `WM_QUIT` |
| `Window.DeliveredStopsAtQuit` | src/window.rs:216-225 | draining stops exactly at the first `WM_QUIT`, and the queue holds one exactly when that stop happens early |
| `Window.PumpedNeverResetsFrame` | src/window.rs:221-222 | dispatching keeps earlier input calls and adds no frame reset |
| `Window.PollResetsFrameOnceFirst` | src/window.rs:213-223 | a poll makes exactly one frame reset, before any message reaches the input model |
| `Window.PumpedKeepsCentreCurrent` | src/window.rs:216-223 | draining the queue never leaves the cached centre silently out of date |
| `Direct3D.AsU32` | src/window.rs:178 | `as u32`: at most `u32::MAX`, congruent to the input modulo 2^32, and the input itself when it fits |
| `Window.Window.constructor` | src/window.rs:128-182 | fresh input model; the debug flag as given; graphics with both views and back buffers at `(width as u32, height as u32)`, not rendering, no viewports, key counter and default key 0; the centre is computed once, so it is current and not stale |
| `Window.Window.UpdateMouseCenter` | src/window.rs:101-109 | the centre becomes the screen point of `(width/2, height/2)` and the stale flag is cleared |
| `Window.Window.ResetMousePosition` | src/window.rs:92-99 | the centre is recomputed only when stale, then the cursor is warped to it |
| `Window.Window.WndProc` | src/window.rs:46-90 | the new state and the answer are those of `Handled` |
| `Window.Window.PumpMessage` | src/window.rs:221-222 | translate, dispatch, then the window procedure on the message |
| `Window.Window.SetMouseLocked` | src/window.rs:197-199 | the lock flag of the input model changes and nothing else |
| `Window.Window.PollEvents` | src/window.rs:213-226 | `false` exactly when the queue holds `WM_QUIT`, which is removed but not dispatched, later messages staying queued; otherwise `true` with the queue empty; the state is the frame reset followed by each earlier message pumped |
| `Window.Window.BeginRender` | src/window.rs:201-203 | forwards to the graphics' `begin_render` |
| `Window.Window.EndRender` | src/window.rs:205-211 | forwards to the graphics' `end_render` with the window's debug flag, with the same calls, `rendering` and result, the returned error included |
| `Window.Window.SetDebugLogging` | src/window.rs:228-230 | the debug flag becomes the given value |

## Left out

- Device, swap-chain, state and view creation in `Graphics::new` (src/graphics.rs:182-343): these are foreign calls, and their failures are not modelled. The constructor keeps only the resulting field values and the calls on the context.
- The `Display` implementations of the error types: string formatting.
- `Graphics.Graphics.EndRender`: the drain is guarded by `#[cfg(debug_assertions)]`; the model is of a debug build, so in a release build `debug_logging` has no effect there. Printing each fetched message's description (console output) is not modelled, nor is `get_num_stored_messages` recorded as a call.
- `Graphics.Graphics.ResizeSwapChain`: failures of `resize_buffers` or of view creation panic in the source (`unwrap`); only the path where they succeed is modelled.
- `Window.Window.UpdateMouseCenter` and `Window.Window.ResetMousePosition`: failures of `client_to_screen` and `set_cursor_pos` panic (`expect`); only the path where they succeed is modelled. The `as i32` truncation of `width / 2` is not modelled.
- `Window.MouseDelta`: the `usize as isize` conversion of the window size is not modelled as wrapping, so widths of 2^63 or more are not covered.
- `Graphics.Graphics.CreateViewport`: the `usize` key counter is unbounded here; overflow after 2^64 viewports is not modelled.
- Viewport updaters are pure functions from the new size to a corner and a size. Any internal state a `ViewportUpdater` keeps through `&mut self` is not modelled.
- Rectangle components are `real` and are only copied. `width as f32` is modelled as the exact real, so f32 rounding is not modelled.
- `message_router` and its raw back-pointer through `GWLP_USERDATA`: the model calls the window procedure directly.
- Window-class registration and window creation (src/window.rs:140-176).
- `WM_DESTROY` and `WM_CLOSE` are recorded as system calls (`PostQuitMessage`, `DestroyWindow`). The `WM_QUIT` this posts, and the `WM_DESTROY` that `DestroyWindow` sends back, are left to the system.
- `translate_message` is recorded but the character messages it may generate are not. The synthetic mouse move caused by a cursor warp is not modelled either.
- The `msg` field of the window, scratch storage for `peek_message`, is not modelled.
- The `Rc<RefCell<…>>` sharing of the device context: the context is one `Device` object, and `set_active` takes it as a parameter.
- The accessors `device`, `device_context`, `width`, `height`, `input` and `input_mut`: plain field access. Only the host's change of the lock flag through `input_mut` is modelled, as `SetMouseLocked`.
- src/matrix.rs, src/mesh.rs, src/shader.rs, src/texture.rs, src/texture2d.rs and src/constant_buffer.rs are not part of this model. They hold floating-point matrix arithmetic and thin wrappers that fill in Direct3D descriptors.
