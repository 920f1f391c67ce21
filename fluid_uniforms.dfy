/** What `FluidLayer` (src/FluidLayer.js) and `FluidController` (src/FluidController.js) share:
    the fluid parameters derived from the options, the uniform records of the pass and view
    materials, the neutral slot values `initUniforms` writes, the per-slot write of a frame,
    the strength clamp, and the two-draw frame itself. */
module FluidUniforms {
  import opened Js
  import opened Gpu

  const DefaultDt: real := 0.15
  const DefaultK: real := 0.2
  const DefaultNu: real := 0.5
  const DefaultKappa: real := 0.1

  /** The neutral mouse position of a slot: the middle of the screen. */
  const Center: Vec2 := Vec2(0.5, 0.5)

  /** Strength of a pressed stroke, and the ceiling of every strength component. */
  const MaxStrength: real := 50.0

  /** Distance (in the units of the velocity) from which the strength saturates. */
  const Saturation: real := 10.0

  datatype FluidParams = FluidParams(dt: real, K: real, nu: real, kappa: real)

  /** The `fluid` record `setOptions(options)` builds from the options passed in: each value,
      or its default when the option is absent or zero. */
  function FluidFromOptions(o: Options): (f: FluidParams)
    ensures f.dt != 0.0 && f.K != 0.0 && f.nu != 0.0 && f.kappa != 0.0
    ensures "dt" in o && o["dt"] != 0.0 ==> f.dt == o["dt"]
    ensures "K" in o && o["K"] != 0.0 ==> f.K == o["K"]
    ensures "nu" in o && o["nu"] != 0.0 ==> f.nu == o["nu"]
    ensures "kappa" in o && o["kappa"] != 0.0 ==> f.kappa == o["kappa"]
    ensures "dt" !in o || o["dt"] == 0.0 ==> f.dt == DefaultDt
    ensures "K" !in o || o["K"] == 0.0 ==> f.K == DefaultK
    ensures "nu" !in o || o["nu"] == 0.0 ==> f.nu == DefaultNu
    ensures "kappa" !in o || o["kappa"] == 0.0 ==> f.kappa == DefaultKappa
  {
    FluidParams(
      OrDefault(Get(o, "dt"), DefaultDt),
      OrDefault(Get(o, "K"), DefaultK),
      OrDefault(Get(o, "nu"), DefaultNu),
      OrDefault(Get(o, "kappa"), DefaultKappa))
  }

  /** The uniforms of the fluid pass material: its blending, the texture it reads (named by
      its render target), the fluid parameters of the last frame, and four per-slot arrays. */
  datatype PassUniforms = PassUniforms(
    blending: Option<real>, tMap: RenderTarget?, params: Option<FluidParams>,
    uMouse: seq<Vec2>, uLast: seq<Vec2>, uVelocity: seq<Vec2>, uStrength: seq<Vec2>)

  /** The uniforms of the view material. */
  datatype ViewUniforms = ViewUniforms(blending: Option<real>, tMap: RenderTarget?, uColor: Vec4)

  /** `mats.fluidPass({blending}, options)`: no texture yet and empty slot arrays. */
  function NewPass(blending: Option<real>): PassUniforms {
    PassUniforms(blending, null, None, [], [], [], [])
  }

  /** `mats.fluidView({blending}, options)` */
  function NewView(blending: Option<real>): ViewUniforms {
    ViewUniforms(blending, null, Zero4)
  }

  /** The four slot arrays have one length. */
  predicate Slots(p: PassUniforms) {
    |p.uLast| == |p.uMouse| && |p.uVelocity| == |p.uMouse| && |p.uStrength| == |p.uMouse|
  }

  /** `after` is `before` with slots `0 .. n-1` set to `v`, growing the array where needed. */
  predicate Filled(before: seq<Vec2>, after: seq<Vec2>, n: nat, v: Vec2) {
    |after| == (if n > |before| then n else |before|) &&
    forall k :: 0 <= k < |after| ==> after[k] == (if k < n then v else before[k])
  }

  /** The loop of `initUniforms`: every slot `i < bound` gets `uMouse = uLast = (0.5, 0.5)` and
      zero velocity and strength; slots past the bound keep their values, and nothing but the
      four arrays changes. */
  method NeutralSlots(p: PassUniforms, bound: Option<real>) returns (q: PassUniforms)
    ensures q == p.(uMouse := q.uMouse, uLast := q.uLast, uVelocity := q.uVelocity, uStrength := q.uStrength)
    ensures Filled(p.uMouse, q.uMouse, SlotCount(bound), Center)
    ensures Filled(p.uLast, q.uLast, SlotCount(bound), Center)
    ensures Filled(p.uVelocity, q.uVelocity, SlotCount(bound), Origin)
    ensures Filled(p.uStrength, q.uStrength, SlotCount(bound), Origin)
  {
    q := p;
    var i: nat := 0;
    while LessThan(i, bound)
      invariant i <= SlotCount(bound)
      invariant q == p.(uMouse := q.uMouse, uLast := q.uLast, uVelocity := q.uVelocity, uStrength := q.uStrength)
      invariant Filled(p.uMouse, q.uMouse, i, Center)
      invariant Filled(p.uLast, q.uLast, i, Center)
      invariant Filled(p.uVelocity, q.uVelocity, i, Origin)
      invariant Filled(p.uStrength, q.uStrength, i, Origin)
      decreases SlotCount(bound) - i
    {
      q := q.(uMouse := Put(q.uMouse, i, Center), uLast := Put(q.uLast, i, Center),
              uVelocity := Put(q.uVelocity, i, Origin), uStrength := Put(q.uStrength, i, Origin));
      i := i + 1;
    }
  }

  /** `min(Saturation, len) / Saturation`, the share of full strength a movement earns. */
  function Share(len: real): real {
    (if len < Saturation then len else Saturation) / Saturation
  }

  /** `uStrength[i]`: `(isDown ? 50 : 50 d, 50 d)` with `d = min(10, len) / 10` for a movement
      of length `len`. Both components lie in [0, 50]; a pressed stroke always gets full
      x strength; the y strength is full exactly from a movement of 10 on, and zero for no
      movement. */
  function Strength(isDown: bool, len: real): (r: Vec2)
    requires len >= 0.0
    ensures 0.0 <= r.x <= MaxStrength && 0.0 <= r.y <= MaxStrength
    ensures isDown ==> r.x == MaxStrength
    ensures !isDown ==> r.x == r.y
    ensures r.y == MaxStrength <==> len >= Saturation
    ensures len == 0.0 ==> r.y == 0.0
  {
    var d := Share(len);
    Vec2(if isDown then MaxStrength else MaxStrength * d, MaxStrength * d)
  }

  /** One slot of a frame: the previous mouse position moves to `uLast`, and the new mouse
      position, velocity and strength are written; every other slot is left as it was. */
  function Stamped(p: PassUniforms, i: nat, mouse: Vec2, velocity: Vec2, strength: Vec2): (q: PassUniforms)
    requires Slots(p) && i < |p.uMouse|
    ensures Slots(q) && |q.uMouse| == |p.uMouse|
    ensures q.uLast[i] == p.uMouse[i] && q.uMouse[i] == mouse
    ensures q.uVelocity[i] == velocity && q.uStrength[i] == strength
    ensures forall k :: 0 <= k < |p.uMouse| && k != i ==>
      q.uMouse[k] == p.uMouse[k] && q.uLast[k] == p.uLast[k] &&
      q.uVelocity[k] == p.uVelocity[k] && q.uStrength[k] == p.uStrength[k]
    ensures q.blending == p.blending && q.tMap == p.tMap && q.params == p.params
  {
    var last := p.uMouse[i];
    p.(uLast := p.uLast[i := last], uMouse := p.uMouse[i := mouse],
       uVelocity := p.uVelocity[i := velocity], uStrength := p.uStrength[i := strength])
  }

  /** The part of `update` after the pass uniforms are set: the mesh shows the pass material
      while the renderer draws into `b`; then the view material reads `b`'s texture, takes the
      layer colour, is shown on the mesh, and the renderer returns to the screen. */
  method DrawFrame(view: ViewUniforms, b: RenderTarget, color: Vec4, mesh: Mesh, renderer: Renderer)
    returns (view': ViewUniforms)
    modifies mesh, renderer
    ensures view' == view.(tMap := b, uColor := color)
    ensures renderer.draws == old(renderer.draws) + [b] && renderer.target == null
    ensures mesh.material == Some(ViewMaterial)
  {
    mesh.material := Some(PassMaterial);
    renderer.SetRenderTarget(b);
    renderer.Render();
    view' := view.(tMap := b, uColor := color);
    mesh.material := Some(ViewMaterial);
    renderer.SetRenderTarget(null);
  }
}
