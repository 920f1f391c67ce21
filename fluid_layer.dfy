/** A fluid simulation layer (src/FluidLayer.js): a bounded list of strokes, the per-slot
    uniform arrays of its pass material, and a ping-pong pair of render targets. Each frame
    advances every stroke, writes its slot, draws the pass from target A into B, points the view
    at B and swaps A and B. */
module FluidLayers {
  import opened Js
  import opened Gpu
  import opened FluidUniforms
  import opened FluidStrokes

  /** The layer colour before any is set: white. */
  const InitialColor: Vec4 := Vec4(100.0, 100.0, 100.0, 100.0)

  /** A stroke after `updateStroke`'s own steps: `update()`, then `delta = pos - last` and
      `last = pos`. */
  function Tracked(s: StrokeState): (r: StrokeState)
    ensures r.pos == r.last == Advanced(s).pos
    ensures r.delta == Sub(Advanced(s).pos, s.last)
    ensures r == s.(pos := r.pos, last := r.last, delta := r.delta)
  {
    var a := Advanced(s);
    a.(delta := Sub(a.pos, a.last), last := a.pos)
  }

  /** A stroke that rests on its target and has no pending motion stays where it is and
      reports no movement. */
  lemma TrackedAtRest(s: StrokeState)
    requires s.pos == s.target == s.last
    ensures Tracked(s) == s.(delta := Origin)
  {
    assert Lerp(s.pos, s.target, s.speed) == s.pos;
  }

  /** A movement in normalised units measured in pixels: `delta * (width, height)`. */
  function Velocity(delta: Vec2, width: real, height: real): Vec2 {
    Mul(delta, Vec2(width, height))
  }

  /** Slot `k` of the arrays is as it was. */
  predicate SlotKept(p0: PassUniforms, p: PassUniforms, k: nat) {
    Slots(p0) && Slots(p) && k < |p0.uMouse| && k < |p.uMouse| &&
    p.uMouse[k] == p0.uMouse[k] && p.uLast[k] == p0.uLast[k] &&
    p.uVelocity[k] == p0.uVelocity[k] && p.uStrength[k] == p0.uStrength[k]
  }

  /** Stroke `k` went from `before` to `after` by one `updateStroke(k)`, and slot `k` holds
      what that call writes: the previous mouse position as `uLast`, the Y-flipped new
      position as `uMouse`, the pixel velocity and the strength it earns. */
  predicate SlotUpdated(p0: PassUniforms, p: PassUniforms, k: nat, before: StrokeState, after: StrokeState,
                        width: real, height: real, norm: Vec2 -> real)
  {
    Slots(p0) && Slots(p) && k < |p0.uMouse| && k < |p.uMouse| &&
    after == Tracked(before) &&
    p.uLast[k] == p0.uMouse[k] && p.uMouse[k] == FlipY(after.pos) &&
    p.uVelocity[k] == Velocity(after.delta, width, height) &&
    norm(p.uVelocity[k]) >= 0.0 && p.uStrength[k] == Strength(after.isDown, norm(p.uVelocity[k]))
  }

  class FluidLayer {
    var strokes: seq<FluidStroke>
    var mouseStroke: FluidStroke?
    var width: real
    var height: real
    var mesh: Mesh?
    var options: Options
    var fluid: FluidParams
    var color: Vec4
    var renderTargetA: RenderTarget
    var renderTargetB: RenderTarget
    var pass: PassUniforms
    var view: ViewUniforms

    /** The two targets are different objects, and the slot arrays have one length. */
    predicate Valid()
      reads this`renderTargetA, this`renderTargetB, this`pass
    {
      renderTargetA != renderTargetB && Slots(pass)
    }

    /** `new FluidLayer(options)`: no strokes, a 1x1 size, the options merged in, white, two
        fresh 1x1 targets, and neutral slots for every index below `numStrokes`. */
    constructor (options: Options)
      ensures Valid()
      ensures strokes == [] && mouseStroke == null && mesh == null
      ensures width == 1.0 && height == 1.0
      ensures this.options == options && fluid == FluidFromOptions(options)
      ensures color == InitialColor
      ensures fresh(renderTargetA) && fresh(renderTargetB)
      ensures renderTargetA.width == renderTargetA.height == 1.0
      ensures renderTargetB.width == renderTargetB.height == 1.0
      ensures pass.blending == Get(options, "blendModePass") && pass.tMap == null && pass.params == None
      ensures view == NewView(Get(options, "blendModeView"))
      ensures Filled([], pass.uMouse, SlotCount(Get(options, "numStrokes")), Center)
      ensures Filled([], pass.uLast, SlotCount(Get(options, "numStrokes")), Center)
      ensures Filled([], pass.uVelocity, SlotCount(Get(options, "numStrokes")), Origin)
      ensures Filled([], pass.uStrength, SlotCount(Get(options, "numStrokes")), Origin)
    {
      strokes := [];
      mouseStroke := null;
      width := 1.0;
      height := 1.0;
      mesh := null;
      this.options := Assign(map[], options);
      fluid := FluidFromOptions(options);
      color := InitialColor;
      var a := new RenderTarget(1.0, 1.0);
      var b := a.Clone();
      renderTargetA := a;
      renderTargetB := b;
      pass := NewPass(Get(options, "blendModePass"));
      view := NewView(Get(options, "blendModeView"));
      new;
      InitUniforms();
    }

    /** `setOptions(options)`: the options are merged into the layer's, and the fluid
        parameters are taken from the argument alone. */
    method SetOptions(o: Options)
      modifies this`options, this`fluid
      ensures options == Assign(old(options), o)
      ensures fluid == FluidFromOptions(o)
    {
      options := Assign(options, o);
      fluid := FluidFromOptions(o);
    }

    /** `initUniforms()`: neutral values in every slot below `numStrokes`, and a zero view
        colour. */
    method InitUniforms()
      requires Valid()
      modifies this`pass, this`view
      ensures Valid()
      ensures pass == old(pass).(uMouse := pass.uMouse, uLast := pass.uLast, uVelocity := pass.uVelocity, uStrength := pass.uStrength)
      ensures Filled(old(pass.uMouse), pass.uMouse, SlotCount(Get(options, "numStrokes")), Center)
      ensures Filled(old(pass.uLast), pass.uLast, SlotCount(Get(options, "numStrokes")), Center)
      ensures Filled(old(pass.uVelocity), pass.uVelocity, SlotCount(Get(options, "numStrokes")), Origin)
      ensures Filled(old(pass.uStrength), pass.uStrength, SlotCount(Get(options, "numStrokes")), Origin)
      ensures view == old(view).(uColor := Zero4)
    {
      pass := NeutralSlots(pass, Get(options, "numStrokes"));
      view := view.(uColor := Zero4);
    }

    /** `addStroke(stroke)`: refused, with nothing changed, once there are `numStrokes` strokes;
        otherwise appended. An absent `numStrokes` never refuses. */
    method AddStroke(stroke: FluidStroke) returns (added: bool)
      modifies this`strokes
      ensures added <==> !AtLeast(|old(strokes)|, Get(options, "numStrokes"))
      ensures strokes == if added then old(strokes) + [stroke] else old(strokes)
      ensures "numStrokes" in options && |old(strokes)| <= SlotCount(Get(options, "numStrokes")) ==>
        |strokes| <= SlotCount(Get(options, "numStrokes"))
    {
      if AtLeast(|strokes|, Get(options, "numStrokes")) {
        return false;
      }
      if "numStrokes" in options {
        BelowCapacity(|strokes|, Get(options, "numStrokes"));
      }
      strokes := strokes + [stroke];
      added := true;
    }

    /** `resize(width, height, dpr)`: the size is stored, both targets get the device-pixel
        size, and the mouse stroke, if any, is put back in the centre with no pending motion. */
    method Resize(w: real, h: real, dpr: real)
      requires Valid()
      modifies this`width, this`height, renderTargetA, renderTargetB, mouseStroke
      ensures Valid()
      ensures width == w && height == h
      ensures renderTargetA.width == w * dpr && renderTargetA.height == h * dpr
      ensures renderTargetB.width == w * dpr && renderTargetB.height == h * dpr
      ensures mouseStroke != null ==>
        mouseStroke.State() == old(mouseStroke.State()).(pos := Center, last := Center)
    {
      width := w;
      height := h;
      renderTargetA.SetSize(w * dpr, h * dpr);
      renderTargetB.SetSize(w * dpr, h * dpr);
      if mouseStroke != null {
        mouseStroke.pos := Center;
        mouseStroke.last := mouseStroke.pos;
      }
    }

    /** `swapRenderTargets()`: A and B change places, so two swaps restore them. */
    method SwapRenderTargets()
      requires Valid()
      modifies this`renderTargetA, this`renderTargetB
      ensures Valid()
      ensures renderTargetA == old(renderTargetB) && renderTargetB == old(renderTargetA)
    {
      var t := renderTargetA;
      renderTargetA := renderTargetB;
      renderTargetB := t;
    }

    /** `updateStroke(i)`: the stroke advances and records its movement; then its slot takes the
        previous mouse position as `uLast`, the Y-flipped position as `uMouse`, the pixel
        velocity, and the clamped strength. A slot the arrays do not have throws once the
        stroke has moved. `norm` is `Vector2.length`. */
    method UpdateStroke(i: nat, norm: Vec2 -> real) returns (out: Outcome)
      requires Valid() && i < |strokes|
      requires forall v :: norm(v) >= 0.0
      modifies strokes[i], this`pass
      ensures Valid()
      ensures strokes[i].State() == Tracked(old(strokes[i].State()))
      ensures out.Pass? <==> i < |old(pass.uMouse)|
      ensures out.Fail? ==> out.failure.TypeError? && pass == old(pass)
      ensures out.Pass? ==> pass == Stamped(old(pass), i, FlipY(strokes[i].pos),
        Velocity(strokes[i].delta, width, height),
        Strength(strokes[i].isDown, norm(Velocity(strokes[i].delta, width, height))))
    {
      var stroke := strokes[i];
      stroke.Update();
      stroke.delta := Sub(stroke.pos, stroke.last);
      stroke.last := stroke.pos;
      var deltaPx := Velocity(stroke.delta, width, height);
      if i >= |pass.uMouse| {
        return Fail(TypeError("uLast.value[i] is undefined"));
      }
      pass := Stamped(pass, i, FlipY(stroke.pos), deltaPx, Strength(stroke.isDown, norm(deltaPx)));
      out := Pass;
    }

    /** The loop of `update`: `updateStroke(i)` for every stroke in order, stopping at the
        first slot the arrays lack. With each stroke in the list once, every stroke has
        advanced exactly one step and owns its written slot; the slots past the strokes are
        untouched. */
    method UpdateStrokes(norm: Vec2 -> real) returns (out: Outcome)
      requires Valid()
      requires forall v :: norm(v) >= 0.0
      modifies strokes, this`pass
      ensures Valid()
      ensures out.Pass? <==> |strokes| <= |old(pass.uMouse)|
      ensures out.Fail? ==> out.failure.TypeError?
      ensures pass == old(pass).(uMouse := pass.uMouse, uLast := pass.uLast, uVelocity := pass.uVelocity, uStrength := pass.uStrength)
      ensures |pass.uMouse| == |old(pass.uMouse)|
      ensures out.Pass? ==> forall k :: |strokes| <= k < |pass.uMouse| ==> SlotKept(old(pass), pass, k)
      ensures out.Pass? && Distinct(strokes) ==> forall k :: 0 <= k < |strokes| ==>
        SlotUpdated(old(pass), pass, k, old(strokes[k].State()), strokes[k].State(), width, height, norm)
    {
      ghost var dist := Distinct(strokes);
      ghost var p0, s0 := pass, States(strokes);
      var i := 0;
      while i < |strokes|
        invariant 0 <= i <= |strokes| && i <= |pass.uMouse|
        invariant Valid()
        invariant pass == p0.(uMouse := pass.uMouse, uLast := pass.uLast, uVelocity := pass.uVelocity, uStrength := pass.uStrength)
        invariant |pass.uMouse| == |p0.uMouse|
        invariant forall k :: i <= k < |pass.uMouse| ==> SlotKept(p0, pass, k)
        invariant dist ==> forall k :: i <= k < |strokes| ==> strokes[k].State() == s0[k]
        invariant dist ==> forall k :: 0 <= k < i ==>
          SlotUpdated(p0, pass, k, s0[k], strokes[k].State(), width, height, norm)
      {
        ghost var prev := pass;
        out := UpdateStroke(i, norm);
        if out.Fail? {
          return;
        }
        forall k | i < k < |pass.uMouse|
          ensures SlotKept(p0, pass, k)
        {
          assert SlotKept(p0, prev, k);
        }
        if dist {
          forall k | 0 <= k <= i
            ensures SlotUpdated(p0, pass, k, s0[k], strokes[k].State(), width, height, norm)
          {
            if k < i {
              assert strokes[k] != strokes[i];
              assert SlotUpdated(p0, prev, k, s0[k], strokes[k].State(), width, height, norm);
            } else {
              assert SlotKept(p0, prev, i);
            }
          }
        }
        i := i + 1;
      }
      out := Pass;
    }

    /** The first half of `update`: every stroke through `updateStroke`, then the pass reads A
        and the current fluid parameters. */
    method AdvanceStrokes(norm: Vec2 -> real) returns (out: Outcome)
      requires Valid()
      requires forall v :: norm(v) >= 0.0
      modifies strokes, this`pass
      ensures Valid()
      ensures out.Pass? <==> |strokes| <= |old(pass.uMouse)|
      ensures out.Fail? ==> out.failure.TypeError?
      ensures out.Pass? ==> pass.tMap == renderTargetA && pass.params == Some(fluid)
      ensures out.Pass? ==> pass.blending == old(pass.blending)
      ensures out.Pass? ==> |pass.uMouse| == |old(pass.uMouse)|
      ensures out.Pass? ==> forall k :: |strokes| <= k < |pass.uMouse| ==> SlotKept(old(pass), pass, k)
      ensures out.Pass? && Distinct(strokes) ==> forall k :: 0 <= k < |strokes| ==>
        SlotUpdated(old(pass), pass, k, old(strokes[k].State()), strokes[k].State(), width, height, norm)
    {
      out := UpdateStrokes(norm);
      if out.Fail? {
        return;
      }
      ghost var looped := pass;
      pass := pass.(tMap := renderTargetA, params := Some(fluid));
      forall k | |strokes| <= k < |pass.uMouse|
        ensures SlotKept(old(pass), pass, k)
      {
        assert SlotKept(old(pass), looped, k);
      }
      if Distinct(strokes) {
        forall k | 0 <= k < |strokes|
          ensures SlotUpdated(old(pass), pass, k, old(strokes[k].State()), strokes[k].State(), width, height, norm)
        {
          assert SlotUpdated(old(pass), looped, k, old(strokes[k].State()), strokes[k].State(), width, height, norm);
        }
      }
    }

    /** `update(renderer, scene, camera, mesh)`: every stroke in turn through `updateStroke`;
        the pass reads A and the current fluid parameters and is drawn into B; the view reads B
        and the layer colour; A and B are swapped once. Without a mesh argument the layer's own
        mesh is used, and with neither the call throws after the pass uniforms are set. */
    method Update(renderer: Renderer, mesh: Mesh?, norm: Vec2 -> real) returns (out: Outcome)
      requires Valid()
      requires forall v :: norm(v) >= 0.0
      modifies strokes, this`pass, this`view, this`renderTargetA, this`renderTargetB
      modifies renderer, mesh, this.mesh
      ensures Valid()
      ensures out.Pass? <==> |strokes| <= |old(pass.uMouse)| && (mesh != null || this.mesh != null)
      ensures out.Fail? ==> out.failure.TypeError?
      ensures out.Pass? ==>
        pass.tMap == old(renderTargetA) && pass.params == Some(fluid) &&
        view.tMap == old(renderTargetB) && view.uColor == color &&
        renderTargetA == old(renderTargetB) && renderTargetB == old(renderTargetA) &&
        renderer.draws == old(renderer.draws) + [old(renderTargetB)] && renderer.target == null
      ensures out.Pass? ==> pass.blending == old(pass.blending) && view.blending == old(view.blending)
      ensures out.Pass? && mesh != null ==> mesh.material == Some(ViewMaterial)
      ensures out.Pass? && mesh == null ==> this.mesh != null && this.mesh.material == Some(ViewMaterial)
      ensures out.Pass? ==> |pass.uMouse| == |old(pass.uMouse)|
      ensures out.Pass? ==> forall k :: |strokes| <= k < |pass.uMouse| ==> SlotKept(old(pass), pass, k)
      ensures out.Pass? && Distinct(strokes) ==> forall k :: 0 <= k < |strokes| ==>
        SlotUpdated(old(pass), pass, k, old(strokes[k].State()), strokes[k].State(), width, height, norm)
    {
      out := AdvanceStrokes(norm);
      if out.Fail? {
        return;
      }
      var m := if mesh != null then mesh else this.mesh;
      if m == null {
        return Fail(TypeError("mesh is null"));
      }
      view := DrawFrame(view, renderTargetB, color, m, renderer);
      SwapRenderTargets();
    }
  }
}
