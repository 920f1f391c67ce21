/** The three.js objects the fluid classes drive, reduced to what the sketch's code observes of
    them: a render target's size and identity (its texture is named by the target itself), the
    renderer's current target and the targets it has drawn into, and the material a mesh shows.
    Pixel contents, shaders and the GPU are not modelled. */
module Gpu {
  import opened Js

  /** `WebGLRenderTarget` */
  class RenderTarget {
    var width: real
    var height: real

    constructor (width: real, height: real)
      ensures this.width == width && this.height == height
    {
      this.width := width;
      this.height := height;
    }

    /** `setSize(w, h)` */
    method SetSize(w: real, h: real)
      modifies this
      ensures width == w && height == h
    {
      width := w;
      height := h;
    }

    /** `clone()`: a distinct target of the same size */
    method Clone() returns (c: RenderTarget)
      ensures fresh(c) && c.width == width && c.height == height
    {
      c := new RenderTarget(width, height);
    }
  }

  /** Which of a layer's two materials a mesh shows. */
  datatype MaterialRole = PassMaterial | ViewMaterial

  /** The full-screen mesh the fluid is drawn with. */
  class Mesh {
    var material: Option<MaterialRole>

    constructor ()
      ensures material == None
    {
      material := None;
    }
  }

  /** `WebGLRenderer`: where the next draw goes (`null` is the screen) and the log of draws. */
  class Renderer {
    var target: RenderTarget?
    var draws: seq<RenderTarget?>

    constructor ()
      ensures target == null && draws == []
    {
      target := null;
      draws := [];
    }

    /** `setRenderTarget(t)` */
    method SetRenderTarget(t: RenderTarget?)
      modifies this`target
      ensures target == t
    {
      target := t;
    }

    /** `render(scene, camera)`: one draw into the current target. */
    method Render()
      modifies this`draws
      ensures draws == old(draws) + [target]
    {
      draws := draws + [target];
    }
  }
}
