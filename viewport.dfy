/** A viewport: a key that never changes, the rectangle of the render target
    it draws into, and an optional updater that recomputes that rectangle when
    the window size changes. */
module Viewports {
  import opened Wrappers
  import opened Direct3D

  /** A two-component vector (`alexandria_common::Vector2`); its components
      are only copied, never computed with. */
  datatype Vector2 = Vector2(x: real, y: real)

  /** A viewport updater: from the new window size to the new top-left
      corner and size. */
  type Updater = Vector2 -> (Vector2, Vector2)

  /** The rectangle `(top_left.x, top_left.y, size.x, size.y)` with depth
      range 0..1. */
  function RectOf(topLeft: Vector2, size: Vector2): ViewportRect {
    ViewportRect(topLeft.x, topLeft.y, size.x, size.y, 0.0, 1.0)
  }

  class Viewport {
    var viewport: ViewportRect
    const updater: Option<Updater>
    const key: nat

    constructor (topLeft: Vector2, size: Vector2, updater: Option<Updater>, key: nat)
      ensures this.key == key && this.updater == updater
      ensures viewport.topLeftX == topLeft.x && viewport.topLeftY == topLeft.y
      ensures viewport.width == size.x && viewport.height == size.y
      ensures viewport.minDepth == 0.0 && viewport.maxDepth == 1.0
    {
      viewport := RectOf(topLeft, size);
      this.updater := updater;
      this.key := key;
    }

    /** The key given at construction; `key` is a constant, so it never
        changes. */
    function Key(): (k: nat)
      ensures k == key
    {
      key
    }

    /** The updater given at construction, if any; a constant too. */
    function Updater(): (u: Option<Updater>)
      ensures u == updater
    {
      updater
    }

    /** Replaces the rectangle; the key and the updater stay as they are. */
    method Update(topLeft: Vector2, size: Vector2)
      modifies this`viewport
      ensures viewport.topLeftX == topLeft.x && viewport.topLeftY == topLeft.y
      ensures viewport.width == size.x && viewport.height == size.y
      ensures viewport.minDepth == 0.0 && viewport.maxDepth == 1.0
    {
      viewport := RectOf(topLeft, size);
    }

    /** Binds exactly this viewport's current rectangle to the context. */
    method SetActive(device: Device)
      modifies device`calls
      ensures device.calls == old(device.calls) + [SetViewports([viewport])]
    {
      device.Record(SetViewports([viewport]));
    }
  }
}
