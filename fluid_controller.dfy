/** The multi-pointer controller (src/FluidController.js): the same pass/view/ping-pong
    structure as a layer, but driven by pointers in pixel coordinates. Its frame loop calls
    `pointer.update()`, which a pointer does not have, so a frame with any pointer throws
    before anything changes; only a frame with no pointers draws. */
module FluidControllers {
  import opened Js
  import opened Gpu
  import opened FluidUniforms
  import opened FluidPointers
  import opened FluidStrokes

  /** The controller colour before any is set: white. */
  const InitialColor: Vec4 := Vec4(100.0, 100.0, 100.0, 100.0)

  /** `uMouse` for a pointer at pixel position `pos`: `(x / width, (height - y) / height)`. */
  function PointerMouse(pos: Vec2, width: real, height: real): Vec2
    requires width != 0.0 && height != 0.0
  {
    Vec2(pos.x / width, (height - pos.y) / height)
  }

  /** A pointer's uniform position is the layer's one for the same point in normalised
      coordinates: the pixel position divided by the size, then Y-flipped. */
  lemma PointerMouseIsNormalisedFlip(pos: Vec2, width: real, height: real)
    requires width != 0.0 && height != 0.0
    ensures PointerMouse(pos, width, height) == FlipY(Vec2(pos.x / width, pos.y / height))
  {
    calc {
      (height - pos.y) / height;
      height / height - pos.y / height;
      { assert height / height == 1.0; }
      1.0 - pos.y / height;
    }
  }

  /** The steps of the frame loop after the missing `pointer.update()`: `delta = pos - last`,
      `last = pos`. */
  function PointerTracked(s: PointerState): (r: PointerState)
    ensures r.last == r.pos == s.pos && r.delta == Sub(s.pos, s.last)
    ensures r == s.(last := r.last, delta := r.delta)
  {
    s.(delta := Sub(s.pos, s.last), last := s.pos)
  }

  /** The slot write of the frame loop for pointer `i` (lines it would reach if pointers had an
      `update`): the previous mouse position moves to `uLast`, the normalised Y-flipped
      position becomes `uMouse`, the raw delta is the velocity, and the strength is clamped
      from the delta's length without pixel scaling. */
  function PointerSlot(p: PassUniforms, i: nat, s: PointerState, width: real, height: real,
                       norm: Vec2 -> real): (q: PassUniforms)
    requires Slots(p) && i < |p.uMouse|
    requires width != 0.0 && height != 0.0
    requires forall v :: norm(v) >= 0.0
    ensures Slots(q) && |q.uMouse| == |p.uMouse|
    ensures q.uLast[i] == p.uMouse[i]
    ensures q.uMouse[i] == FlipY(Vec2(PointerTracked(s).pos.x / width, PointerTracked(s).pos.y / height))
    ensures q.uVelocity[i] == Sub(s.pos, s.last)
    ensures q.uStrength[i] == Strength(s.isDown, norm(Sub(s.pos, s.last)))
    ensures 0.0 <= q.uStrength[i].x <= MaxStrength && 0.0 <= q.uStrength[i].y <= MaxStrength
    ensures s.isDown ==> q.uStrength[i].x == MaxStrength
    ensures forall k :: 0 <= k < |p.uMouse| && k != i ==>
      q.uMouse[k] == p.uMouse[k] && q.uLast[k] == p.uLast[k] &&
      q.uVelocity[k] == p.uVelocity[k] && q.uStrength[k] == p.uStrength[k]
    ensures q.blending == p.blending && q.tMap == p.tMap && q.params == p.params
  {
    var t := PointerTracked(s);
    PointerMouseIsNormalisedFlip(t.pos, width, height);
    Stamped(p, i, PointerMouse(t.pos, width, height), t.delta, Strength(t.isDown, norm(t.delta)))
  }

  class FluidController {
    var pointers: seq<FluidPointer>
    var mousePointer: FluidPointer?
    var width: real
    var height: real
    var options: Options
    var fluid: FluidParams
    var color: Vec4
    var renderTargetA: RenderTarget
    var renderTargetB: RenderTarget
    var pass: PassUniforms
    var view: ViewUniforms

    /** The two targets are different objects, and the slot arrays have one length. */
    predicate Valid()
      reads this
    {
      renderTargetA != renderTargetB && Slots(pass)
    }

    /** `new FluidController(options)`: no pointers, a 1x1 size, the options merged in, white,
        two fresh 1x1 targets, and neutral slots for every index below `numPointers`. */
    constructor (options: Options)
      ensures Valid()
      ensures pointers == [] && mousePointer == null
      ensures width == 1.0 && height == 1.0
      ensures this.options == options && fluid == FluidFromOptions(options)
      ensures color == InitialColor
      ensures fresh(renderTargetA) && fresh(renderTargetB)
      ensures renderTargetA.width == renderTargetA.height == 1.0
      ensures renderTargetB.width == renderTargetB.height == 1.0
      ensures pass.blending == Get(options, "blendModePass") && pass.tMap == null && pass.params == None
      ensures view == NewView(Get(options, "blendModeView"))
      ensures Filled([], pass.uMouse, SlotCount(Get(options, "numPointers")), Center)
      ensures Filled([], pass.uLast, SlotCount(Get(options, "numPointers")), Center)
      ensures Filled([], pass.uVelocity, SlotCount(Get(options, "numPointers")), Origin)
      ensures Filled([], pass.uStrength, SlotCount(Get(options, "numPointers")), Origin)
    {
      pointers := [];
      mousePointer := null;
      width := 1.0;
      height := 1.0;
      this.options := Assign(map[], options);
      fluid := FluidFromOptions(options);
      color := InitialColor;
      var a := new RenderTarget(1.0, 1.0);
      var b := a.Clone();
      renderTargetA := a;
      renderTargetB := b;
      pass := NewPass(Get(options, "blendModePass"));
      view := NewView(Get(options, "blendModeView"));
      new;
      InitUniforms();
    }

    /** `setOptions(options)`: merged options; fluid parameters from the argument, each falling
        back to its default when absent or zero. */
    method SetOptions(o: Options)
      modifies this`options, this`fluid
      ensures options == Assign(old(options), o)
      ensures fluid == FluidFromOptions(o)
    {
      options := Assign(options, o);
      fluid := FluidFromOptions(o);
    }

    /** `initUniforms()`: neutral values in every slot below `numPointers`, and a zero view
        colour. */
    method InitUniforms()
      requires Valid()
      modifies this`pass, this`view
      ensures Valid()
      ensures pass == old(pass).(uMouse := pass.uMouse, uLast := pass.uLast, uVelocity := pass.uVelocity, uStrength := pass.uStrength)
      ensures Filled(old(pass.uMouse), pass.uMouse, SlotCount(Get(options, "numPointers")), Center)
      ensures Filled(old(pass.uLast), pass.uLast, SlotCount(Get(options, "numPointers")), Center)
      ensures Filled(old(pass.uVelocity), pass.uVelocity, SlotCount(Get(options, "numPointers")), Origin)
      ensures Filled(old(pass.uStrength), pass.uStrength, SlotCount(Get(options, "numPointers")), Origin)
      ensures view == old(view).(uColor := Zero4)
    {
      pass := NeutralSlots(pass, Get(options, "numPointers"));
      view := view.(uColor := Zero4);
    }

    /** `addPointer(x, y, speed)`: nothing (`undefined`) once there are `numPointers`
        pointers; otherwise a new pointer at `(x * width, y * height)` is appended and
        returned. The speed does not reach the pointer. */
    method AddPointer(x: real, y: real, speed: Option<real>) returns (p: FluidPointer?)
      modifies this`pointers
      ensures p == null <==> AtLeast(|old(pointers)|, Get(options, "numPointers"))
      ensures p == null ==> pointers == old(pointers)
      ensures p != null ==>
        fresh(p) && pointers == old(pointers) + [p] && p.State() == PointerCreated(x * width, y * height)
    {
      if AtLeast(|pointers|, Get(options, "numPointers")) {
        return null;
      }
      p := new FluidPointer(x * width, y * height);
      pointers := pointers + [p];
    }

    /** `setPointer(idx, x, y, speed, isDown)`: nothing for an index with no pointer;
        otherwise that pointer gets the speed, the target `(x * width, y * height)` and the
        pressed flag, and is returned. */
    method SetPointer(idx: int, x: real, y: real, speed: Option<real>, isDown: bool) returns (p: FluidPointer?)
      modifies if 0 <= idx < |pointers| then {pointers[idx]} else {}
      ensures p == null <==> !(0 <= idx < |pointers|)
      ensures p != null ==> p == pointers[idx]
      ensures p != null ==>
        p.State() == old(p.State()).(speed := speed, target := Vec2(x * width, y * height), isDown := isDown)
    {
      if !(0 <= idx < |pointers|) {
        return null;
      }
      p := pointers[idx];
      p.speed := speed;
      p.target := Vec2(x * width, y * height);
      p.isDown := isDown;
    }

    /** `resize(width, height, dpr)`: the size is stored, both targets get the device-pixel
        size, and the mouse pointer, if any, is centred at `(width / 2, height / 2)` with
        `last = pos`. */
    method Resize(w: real, h: real, dpr: real)
      requires Valid()
      modifies this`width, this`height, renderTargetA, renderTargetB, mousePointer
      ensures Valid()
      ensures width == w && height == h
      ensures renderTargetA.width == w * dpr && renderTargetA.height == h * dpr
      ensures renderTargetB.width == w * dpr && renderTargetB.height == h * dpr
      ensures mousePointer != null ==>
        mousePointer.State() == old(mousePointer.State()).(pos := Vec2(w / 2.0, h / 2.0), last := Vec2(w / 2.0, h / 2.0))
    {
      width := w;
      height := h;
      renderTargetA.SetSize(w * dpr, h * dpr);
      renderTargetB.SetSize(w * dpr, h * dpr);
      if mousePointer != null {
        mousePointer.pos := Vec2(width / 2.0, height / 2.0);
        mousePointer.last := mousePointer.pos;
      }
    }

    /** `update(mesh, renderer, scene, camera)`. The first pointer's `update()` throws, so with
        any pointer the frame fails with nothing changed. With none, the pass reads A and the
        fluid parameters and is drawn into B, the view reads B and the colour, and A and B are
        swapped once; a missing mesh throws after the pass uniforms are set. */
    method Update(mesh: Mesh?, renderer: Renderer) returns (out: Outcome)
      requires Valid()
      modifies this`pass, this`view, this`renderTargetA, this`renderTargetB, renderer, mesh
      ensures Valid()
      ensures out.Pass? <==> |pointers| == 0 && mesh != null
      ensures out.Fail? ==> out.failure.TypeError?
      ensures |pointers| > 0 ==>
        pass == old(pass) && view == old(view) &&
        renderTargetA == old(renderTargetA) && renderTargetB == old(renderTargetB) &&
        renderer.draws == old(renderer.draws) && renderer.target == old(renderer.target)
      ensures out.Pass? ==>
        pass == old(pass).(tMap := old(renderTargetA), params := Some(fluid)) &&
        view == old(view).(tMap := old(renderTargetB), uColor := color) &&
        renderTargetA == old(renderTargetB) && renderTargetB == old(renderTargetA) &&
        renderer.draws == old(renderer.draws) + [old(renderTargetB)] && renderer.target == null
    {
      if |pointers| > 0 {
        return Fail(TypeError("pointer.update is not a function"));
      }
      pass := pass.(tMap := renderTargetA, params := Some(fluid));
      if mesh == null {
        return Fail(TypeError("mesh is null"));
      }
      view := DrawFrame(view, renderTargetB, color, mesh, renderer);
      var t := renderTargetA;
      renderTargetA := renderTargetB;
      renderTargetB := t;
      out := Pass;
    }
  }
}
