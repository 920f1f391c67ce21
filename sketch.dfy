/** The orchestration of src/index.js: layers are added with freshly drawn options and strokes
    related to the first layer's; a click resets or regenerates the layers or, for the `cells`
    composition, requests a new cell, which a timer repeats until `maxCells` cells exist.
    The random source is the shared stream; timers are explicit events; the layer is the
    library layer of `HostLayers`. */
module Sketches {
  import opened Js
  import opened FxRand
  import opened FluidStrokes
  import opened HostLayers
  import opened SketchOptions

  /** `options.strokesRel`: how the strokes of every layer after the first relate to the first
      layer's. `Unset` is a falsy value, `Other` any other name, taken to be a name that is
      not a method of a stroke (so not `clone`, `reset`, `update` or an `Object` method). */
  datatype StrokesRel = Random | Same | Mirror | MirrorX | MirrorY | MirrorRand | Unset | Other(name: string)

  /** The `options` object of src/config.js, as far as src/index.js reads it. */
  datatype SketchConfig = SketchConfig(
    maxIterations: real, minSpeed: real, maxSpeed: real, speedMult: real,
    strokesRel: StrokesRel, maxCells: int)

  /** The values src/config.js ships. */
  const Shipped: SketchConfig := SketchConfig(10.0, 0.001, 0.01, 1.0, MirrorRand, 9)

  /** The three reflections `mirrorRand` picks from. */
  const MirrorChoices: seq<StrokesRel> := [Mirror, MirrorX, MirrorY]

  /** Bounds of the delay `requestCell` draws for its timer. */
  const MinDelay: int := 500
  const MaxDelay: int := 7000

  /** A stroke speed within `[minSpeed, maxSpeed] * speedMult`. */
  predicate SpeedInRange(c: SketchConfig, sp: real) {
    c.minSpeed <= c.maxSpeed && c.speedMult >= 0.0 ==>
      c.minSpeed * c.speedMult <= sp <= c.maxSpeed * c.speedMult
  }

  /** `FXRand.num(options.minSpeed, options.maxSpeed) * options.speedMult` */
  function SpeedDraw(c: SketchConfig, u: real): (sp: real)
    requires 0.0 <= u < 1.0
    ensures SpeedInRange(c, sp)
  {
    ScaledNum(c.minSpeed, c.maxSpeed, c.speedMult, u)
  }

  /** With the shipped options every drawn speed lies in [0.001, 0.01]. */
  lemma ShippedSpeeds(u: real)
    requires 0.0 <= u < 1.0
    ensures 0.001 <= SpeedDraw(Shipped, u) <= 0.01
  {
    assert SpeedInRange(Shipped, SpeedDraw(Shipped, u));
  }

  predicate InUnit(v: Vec2) {
    0.0 <= v.x < 1.0 && 0.0 <= v.y < 1.0
  }

  /** A stroke of the random branch: resting at a point of the unit square, aiming at another,
      with no motion yet and a speed in range. */
  predicate IsRandomStroke(s: StrokeState, c: SketchConfig) {
    s.start == s.pos == s.last && InUnit(s.start) && InUnit(s.target) &&
    s.delta == Origin && !s.isMove && SpeedInRange(c, s.speed)
  }

  /** The relation names the `switch` of `createStrokes` can resolve; any other name reaches
      `clone()[name]()`, which throws for a name that is not a method of the stroke. */
  predicate KnownRel(rel: StrokesRel) {
    rel.Same? || rel.Mirror? || rel.MirrorX? || rel.MirrorY? || rel.Unset? || rel.MirrorRand?
  }

  /** The stroke the `switch` makes from the first layer's stroke for a resolved relation:
      a clone, reflected as the name says (`mirror` for a falsy name), or nothing when the
      name is not a method of the stroke. */
  function Related(rel: StrokesRel, src: StrokeState): (r: Option<StrokeState>)
    ensures r.Some? <==> KnownRel(rel) && !rel.MirrorRand?
    ensures r.Some? ==> r.value.delta == Origin && r.value.isDown == src.isDown &&
                        r.value.isMove == src.isMove && r.value.speed == Cloned(src).speed
  {
    match rel
    case Same => Some(Cloned(src))
    case Mirror => Some(Mirrored(Cloned(src)))
    case Unset => Some(Mirrored(Cloned(src)))
    case MirrorX => Some(MirroredX(Cloned(src)))
    case MirrorY => Some(MirroredY(Cloned(src)))
    case _ => None
  }

  /** A related stroke reflected back is the plain clone of the first layer's stroke. */
  lemma RelatedUndoes(src: StrokeState)
    ensures Mirrored(Related(Mirror, src).value) == Cloned(src)
    ensures MirroredX(Related(MirrorX, src).value) == Cloned(src)
    ensures MirroredY(Related(MirrorY, src).value) == Cloned(src)
  {
    MirrorsAreInvolutions(Cloned(src));
  }

  /** Slot `j` of a later layer holds what the configured relation makes of the first layer's
      stroke `j`; for `mirrorRand`, one of the three reflections. */
  predicate SlotRelated(rel: StrokesRel, src: StrokeState, s: StrokeState) {
    if rel.MirrorRand? then
      s == Mirrored(Cloned(src)) || s == MirroredX(Cloned(src)) || s == MirroredY(Cloned(src))
    else
      Related(rel, src) == Some(s)
  }

  /** The stroke `createStrokes` makes for slot `j` of layer `i`, given the states `first` of
      the first layer's strokes: random for the first layer or the `random` relation, else
      what the relation makes of the first layer's stroke `j`. */
  predicate StrokeFits(i: nat, j: nat, s: StrokeState, first: seq<StrokeState>, c: SketchConfig) {
    if i == 0 || c.strokesRel.Random? then IsRandomStroke(s, c)
    else j < |first| && SlotRelated(c.strokesRel, first[j], s)
  }

  /** `layers[i].options` after a regeneration with the record `g`: the options of layer `i`
      are merged with a valid, in-range record and every other layer's are untouched. */
  predicate Regenerated(before: seq<Options>, after: seq<Options>, i: int, g: Generated, comp: string) {
    0 <= i < |before| && ValidateOptions(g, i) && InRange(g, i, comp) &&
    after == before[i := Assign(before[i], AsOptions(g))]
  }

  /** The options a new layer is built with: its drawn options, the stroke count and the
      iteration bound. */
  function LayerOptionsFor(o: Options, numStrokes: nat, maxIterations: real): (r: Options)
    ensures Get(r, "numStrokes") == Some(numStrokes as real)
    ensures SlotCount(Get(r, "numStrokes")) == numStrokes
    ensures Get(r, "maxIterations") == Some(maxIterations)
    ensures forall k :: k in o && k != "numStrokes" && k != "maxIterations" ==> k in r && r[k] == o[k]
  {
    CountOfWhole(numStrokes);
    Assign(o, map["numStrokes" := numStrokes as real, "maxIterations" := maxIterations])
  }

  /** A loop `j < n` over a whole number `n` runs `n` times. */
  lemma CountOfWhole(n: nat)
    ensures SlotCount(Some(n as real)) == n
  {
    var c := SlotCount(Some(n as real));
    assert !LessThan(n, Some(n as real));
    if c < n {
      assert LessThan(c, Some(n as real));
    }
  }

  /** A stroke after `resetLayer`: back at its start with a new speed in range, nothing else
      changed. */
  predicate Respeeded(before: StrokeState, after: StrokeState, c: SketchConfig) {
    after == ResetState(before).(speed := after.speed) && SpeedInRange(c, after.speed)
  }

  /** Strokes after `resetLayer`, slot by slot. */
  predicate AllRespeeded(before: seq<StrokeState>, after: seq<StrokeState>, c: SketchConfig) {
    |after| == |before| && forall j :: 0 <= j < |before| ==> Respeeded(before[j], after[j], c)
  }

  /** Every stroke of every layer. */
  function AllStrokes(ls: seq<HostLayer>): set<FluidStroke>
    reads set l | l in ls
  {
    set l, s | l in ls && s in l.strokes :: s
  }

  /** `new THREE.Vector4(r * 256, g * 256, b * 256, colorW)` */
  function LayerColor(c: Rgb, w: real): Vec4 {
    Vec4(c.r * 256.0, c.g * 256.0, c.b * 256.0, w)
  }

  /** The `switch` of `createStrokes` for a resolved relation: a clone of `src`, reflected as
      the name says, or nothing when the name is not a method of the stroke. */
  method RelatedStroke(rel: StrokesRel, src: FluidStroke) returns (stroke: FluidStroke?)
    ensures stroke == null <==> Related(rel, src.State()).None?
    ensures stroke != null ==> fresh(stroke) && Related(rel, src.State()) == Some(stroke.State())
  {
    var c := src.Clone();
    match rel {
      case Same => stroke := c;
      case Mirror => stroke := c.Mirror();
      case Unset => stroke := c.Mirror();
      case MirrorX => stroke := c.MirrorX();
      case MirrorY => stroke := c.MirrorY();
      case _ => stroke := null;
    }
  }

  class Sketch {
    const comp: string
    const config: SketchConfig
    const colors: seq<Rgb>
    const colorW: real
    const strokesPerLayer: nat
    /** Budget of attempts the model gives `generateOptions`' loop. */
    const attempts: nat
    const rng: Rng
    var layers: seq<HostLayer>
    var layerOptions: seq<Options>
    /** `vars.numCells`, `vars.timeoutID`, whether that timer is still to fire, the id the next
        `setTimeout` returns, and the delay last drawn for it. */
    var numCells: int
    var timeoutID: int
    var pending: bool
    var nextTimer: int
    var delay: int

    ghost predicate Valid()
      reads this`layerOptions, this`layers, this`nextTimer, this`timeoutID, this`pending, this`numCells
    {
      |layerOptions| == |layers| && Distinct(layers) && |colors| >= 2 && rng.Valid() &&
      0 < nextTimer && timeoutID < nextTimer &&
      (pending ==> timeoutID > 0 && numCells < config.maxCells)
    }

    constructor (comp: string, config: SketchConfig, colors: seq<Rgb>, colorW: real,
                 strokesPerLayer: nat, attempts: nat, rng: Rng)
      requires |colors| >= 2 && rng.Valid()
      ensures Valid()
      ensures this.comp == comp && this.config == config && this.colors == colors
      ensures this.colorW == colorW && this.strokesPerLayer == strokesPerLayer
      ensures this.attempts == attempts && this.rng == rng
      ensures layers == [] && layerOptions == []
      ensures numCells == 0 && timeoutID == -1 && !pending
    {
      this.comp := comp;
      this.config := config;
      this.colors := colors;
      this.colorW := colorW;
      this.strokesPerLayer := strokesPerLayer;
      this.attempts := attempts;
      this.rng := rng;
      layers := [];
      layerOptions := [];
      numCells := 0;
      timeoutID := -1;
      pending := false;
      nextTimer := 1;
      delay := 0;
    }

    /** `setLayerColor(layer, color)`: the colour scaled by 256, with `colorW` as w. */
    method SetLayerColor(layer: HostLayer, c: Rgb)
      modifies layer`color
      ensures layer.color == LayerColor(c, colorW)
    {
      layer.color := LayerColor(c, colorW);
    }

    /** `regenerateLayer(layer)`: fresh options are drawn for the layer's own index, merged into
        its `layerOptions` entry, and handed to the layer. The draws happen before a layer
        that is not in the list makes the merge throw. */
    method RegenerateLayer(layer: HostLayer) returns (out: Outcome, g: Generated)
      requires Valid()
      modifies this`layerOptions, layer`options, rng
      ensures Valid()
      ensures out.Fail? ==> out.failure == Exhausted || (out.failure.TypeError? && layer !in layers)
      ensures out.Fail? ==> layerOptions == old(layerOptions) && layer.options == old(layer.options)
      ensures layer in layers && comp == "cells" && attempts > 0 ==> out.Pass?
      ensures out.Pass? ==>
        Regenerated(old(layerOptions), layerOptions, IndexOf(layers, layer), g, comp) &&
        layer.options == Assign(old(layer.options), layerOptions[IndexOf(layers, layer)])
    {
      g := Generated(0, 0, 0.0, 0.0, 0.0, 0.0);
      var i := IndexOf(layers, layer);
      var r, next := GenerateOptions(i, comp, rng.stream, rng.cursor, attempts);
      rng.cursor := next;
      if r.None? {
        return Fail(Exhausted), g;
      }
      if i < 0 {
        return Fail(TypeError("layerOptions[-1] is undefined")), g;
      }
      g := r.value;
      layerOptions := layerOptions[i := Assign(layerOptions[i], AsOptions(g))];
      layer.SetOptions(layerOptions[i]);
      out := Pass;
    }

    /** The options of every layer, in order. */
    ghost function OptionsNow(): (r: seq<Options>)
      reads this`layers, layers
      ensures |r| == |layers| && forall k :: 0 <= k < |layers| ==> r[k] == layers[k].options
    {
      var ls := layers;
      seq(|ls|, k requires 0 <= k < |ls| reads ls => ls[k].options)
    }

    /** Layer `t` has been regenerated with the record `g`, from the options `o` in the list and
        `lo` on the layer. */
    ghost predicate SlotRegenerated(t: int, g: Generated, o: Options, lo: Options)
      reads this`layerOptions, this`layers, layers
    {
      0 <= t < |layers| && t < |layerOptions| &&
      ValidateOptions(g, t) && InRange(g, t, comp) &&
      layerOptions[t] == Assign(o, AsOptions(g)) && layers[t].options == Assign(lo, layerOptions[t])
    }

    /** The callback of `layers.map` for layer `k`: `regenerateLayer(layers[k])`, which finds the
        layer at index `k` since no layer is listed twice. Split from `RegenerateAll` so that
        each step of its loop reasons about one layer; it is not a function of the source. */
    method RegenerateAt(k: nat) returns (out: Outcome, g: Generated)
      requires Valid() && k < |layers|
      modifies this`layerOptions, {layers[k]}`options, rng
      ensures Valid() && |layerOptions| == |old(layerOptions)|
      ensures out.Fail? ==> out.failure == Exhausted && layerOptions == old(layerOptions)
      ensures comp == "cells" && attempts > 0 ==> out.Pass?
      ensures out.Pass? ==> SlotRegenerated(k, g, old(layerOptions[k]), old(layers[k].options))
      ensures forall t :: 0 <= t < |layerOptions| && t != k ==> layerOptions[t] == old(layerOptions[t])
      ensures forall t :: 0 <= t < |layers| && t != k ==> layers[t].options == old(layers[t].options)
    {
      IndexOfDistinct(layers, k);
      out, g := RegenerateLayer(layers[k]);
    }

    /** `layers.map(regenerateLayer)`: every layer in turn, each with options drawn for its own
        index. */
    method RegenerateAll() returns (out: Outcome, ghost gs: seq<Generated>)
      requires Valid()
      modifies this`layerOptions, layers, rng
      ensures Valid()
      ensures out.Fail? ==> out.failure == Exhausted
      ensures comp == "cells" && attempts > 0 ==> out.Pass?
      ensures out.Pass? ==> |gs| == |layers|
      ensures out.Pass? ==> forall k :: 0 <= k < |layers| ==>
          SlotRegenerated(k, gs[k], old(layerOptions[k]), old(layers[k].options))
    {
      gs := [];
      out := Pass;
      ghost var o0, lo0 := layerOptions, OptionsNow();
      var k := 0;
      while k < |layers|
        invariant 0 <= k <= |layers| && |gs| == k
        invariant Valid() && |layerOptions| == |o0| && out.Pass?
        invariant forall t :: 0 <= t < k ==> SlotRegenerated(t, gs[t], o0[t], lo0[t])
        invariant forall t :: k <= t < |layers| ==> layerOptions[t] == o0[t] && layers[t].options == lo0[t]
      {
        var g;
        out, g := RegenerateAt(k);
        if out.Fail? {
          return;
        }
        gs := gs + [g];
        k := k + 1;
      }
    }

    /** `createLayer(numStrokes)`: a layer over the options just pushed for it, merged with the
        stroke count and the iteration bound, coloured with the second colour. */
    method CreateLayer(numStrokes: nat) returns (layer: HostLayer)
      requires |layerOptions| == |layers| + 1 && Distinct(layers) && |colors| >= 2
      modifies this`layers
      ensures layers == old(layers) + [layer] && fresh(layer) && Distinct(layers)
      ensures layer.options == LayerOptionsFor(layerOptions[|old(layers)|], numStrokes, config.maxIterations)
      ensures layer.strokes == [] && layer.clears == 0 && layer.resets == 0
      ensures layer.color == LayerColor(colors[1], colorW)
    {
      var i := |layers|;
      layer := new HostLayer(LayerOptionsFor(layerOptions[i], numStrokes, config.maxIterations));
      SetLayerColor(layer, colors[1]);
      layers := layers + [layer];
    }

    /** `first` holds the states of the first layer's strokes, when there is a first layer. */
    ghost predicate FirstAre(first: seq<StrokeState>)
      reads this`layers, if |layers| > 0 then {layers[0]} else {},
            if |layers| > 0 then set t | t in layers[0].strokes else {}
    {
      |layers| > 0 ==>
        |first| == |layers[0].strokes| &&
        forall t :: 0 <= t < |first| ==> layers[0].strokes[t].State() == first[t]
    }

    /** The states of the first layer's strokes, or none before there is a layer. */
    ghost function FirstStates(): seq<StrokeState>
      reads this`layers, if |layers| > 0 then {layers[0]} else {},
            if |layers| > 0 then set t | t in layers[0].strokes else {}
    {
      if |layers| > 0 then States(layers[0].strokes) else []
    }

    /** The random stroke of `createStrokes`: a speed, a start point, a pressed state and a
        target, from six draws in that order. */
    method RandomStroke() returns (stroke: FluidStroke)
      requires rng.Valid()
      modifies rng
      ensures rng.Valid() && fresh(stroke) && IsRandomStroke(stroke.State(), config)
    {
      var u0 := rng.Next();
      var speed := SpeedDraw(config, u0);
      var u1 := rng.Next();
      var u2 := rng.Next();
      stroke := new FluidStroke(Num(0.0, 1.0, u1), Num(0.0, 1.0, u2), None);
      stroke.speed := speed;
      var u3 := rng.Next();
      stroke.isDown := Bool(u3);
      var u4 := rng.Next();
      var u5 := rng.Next();
      stroke.target := Vec2(Num(0.0, 1.0, u4), Num(0.0, 1.0, u5));
    }

    /** One pass of the loop of `createStrokes` up to `addStroke`, with `src` the first layer's
        strokes (whose states are `first`): the draws and the new stroke, or the `TypeError` of
        a missing source stroke or a relation name that is not a method of the stroke. */
    method MakeStroke(i: nat, j: nat, src: seq<FluidStroke>, ghost first: seq<StrokeState>)
      returns (out: Outcome, stroke: FluidStroke?)
      requires Valid() && |first| == |src|
      requires forall t :: 0 <= t < |src| ==> src[t].State() == first[t]
      modifies rng
      ensures Valid()
      ensures out.Pass? ==> stroke != null && fresh(stroke) && StrokeFits(i, j, stroke.State(), first, config)
      ensures out.Fail? ==>
        out.failure.TypeError? && i > 0 && !config.strokesRel.Random? &&
        (!KnownRel(config.strokesRel) || j >= |src|)
    {
      stroke := null;
      if i == 0 || config.strokesRel.Random? {
        stroke := RandomStroke();
        return Pass, stroke;
      }
      var sr := config.strokesRel;
      if sr.MirrorRand? {
        var u := rng.Next();
        sr := Choice(MirrorChoices, u).value;
      }
      if j >= |src| {
        return Fail(TypeError("layers[0].strokes[j] is undefined")), null;
      }
      stroke := RelatedStroke(sr, src[j]);
      if stroke == null {
        return Fail(TypeError("clone()[strokesRel] is not a function")), null;
      }
      out := Pass;
    }

    /** `createStrokes(layer, i)`: one stroke per slot of `layer.options.numStrokes`. The first
        layer, and every layer when the relation is `random`, gets random strokes from six
        draws each; a later layer gets what the relation makes of the first layer's stroke in
        the same slot (with one draw per slot for `mirrorRand`). A missing source stroke or
        a relation name that is not a method of the stroke throws. */
    method CreateStrokes(layer: HostLayer, i: nat, ghost first: seq<StrokeState>) returns (out: Outcome)
      requires Valid() && i < |layers| && layers[i] == layer && (i > 0 ==> FirstAre(first))
      modifies layer`strokes, rng
      ensures Valid()
      ensures out.Fail? ==>
        out.failure.TypeError? && i > 0 && !config.strokesRel.Random? &&
        (!KnownRel(config.strokesRel) ||
         |layers[0].strokes| < SlotCount(Get(layer.options, "numStrokes")))
      ensures out.Pass? && old(layer.strokes) == [] ==>
        |layer.strokes| == SlotCount(Get(layer.options, "numStrokes")) &&
        forall j :: 0 <= j < |layer.strokes| ==>
          fresh(layer.strokes[j]) && StrokeFits(i, j, layer.strokes[j].State(), first, config)
    {
      var n := SlotCount(Get(layer.options, "numStrokes"));
      var empty := layer.strokes == [];
      var src := if i > 0 then layers[0].strokes else [];
      ghost var srcStates := if i > 0 then first else [];
      var j: nat := 0;
      while LessThan(j, Get(layer.options, "numStrokes"))
        invariant j <= n && Valid()
        invariant i > 0 ==> layers[0].strokes == src
        invariant |srcStates| == |src| && forall t :: 0 <= t < |src| ==> src[t].State() == srcStates[t]
        invariant empty ==> |layer.strokes| == j
        invariant empty ==> forall t :: 0 <= t < j ==>
          fresh(layer.strokes[t]) && StrokeFits(i, t, layer.strokes[t].State(), first, config)
        decreases n - j
      {
        out := AppendStroke(layer, i, j, src, srcStates, first);
        if out.Fail? {
          return;
        }
        j := j + 1;
      }
      out := Pass;
    }

    /** One pass of the loop of `createStrokes`: a stroke made for slot `j` and offered to the
        layer, which takes it while it has fewer than `numStrokes`. */
    method AppendStroke(layer: HostLayer, i: nat, j: nat, src: seq<FluidStroke>,
                        ghost srcStates: seq<StrokeState>, ghost first: seq<StrokeState>)
      returns (out: Outcome)
      requires Valid() && |srcStates| == |src|
      requires forall t :: 0 <= t < |src| ==> src[t].State() == srcStates[t]
      requires i > 0 && !config.strokesRel.Random? ==> srcStates == first
      modifies layer`strokes, rng
      ensures Valid()
      ensures out.Fail? ==>
        out.failure.TypeError? && i > 0 && !config.strokesRel.Random? &&
        (!KnownRel(config.strokesRel) || j >= |src|) && layer.strokes == old(layer.strokes)
      ensures out.Pass? ==>
        var n := |old(layer.strokes)|;
        |layer.strokes| == (if AtLeast(n, Get(layer.options, "numStrokes")) then n else n + 1) &&
        layer.strokes[..n] == old(layer.strokes) &&
        (|layer.strokes| == n + 1 ==>
           fresh(layer.strokes[n]) && StrokeFits(i, j, layer.strokes[n].State(), first, config))
      ensures forall t :: 0 <= t < |old(layer.strokes)| ==> unchanged(old(layer.strokes)[t])
      ensures forall t :: 0 <= t < |src| ==> unchanged(src[t])
    {
      var stroke;
      out, stroke := MakeStroke(i, j, src, srcStates);
      if out.Fail? {
        return;
      }
      var added := layer.AddStroke(stroke);
    }

    /** `addLayer(numStrokes)`: options are drawn for the next index, then the layer is created
        and given its strokes. */
    method AddLayer(numStrokes: nat) returns (out: Outcome, g: Generated)
      requires Valid()
      modifies this`layers, this`layerOptions, rng
      ensures Valid()
      ensures out.Fail? ==> out.failure == Exhausted || out.failure.TypeError?
      ensures comp == "cells" && attempts > 0 ==> out != Fail(Exhausted)
      ensures out == Fail(Exhausted) ==> layers == old(layers) && layerOptions == old(layerOptions)
      ensures out != Fail(Exhausted) ==>
        var i := |old(layers)|;
        |layers| == i + 1 && layers[..i] == old(layers) && fresh(layers[i]) &&
        layerOptions == old(layerOptions) + [AsOptions(g)] &&
        ValidateOptions(g, i) && InRange(g, i, comp) &&
        layers[i].options == LayerOptionsFor(AsOptions(g), numStrokes, config.maxIterations) &&
        layers[i].color == LayerColor(colors[1], colorW)
      ensures out.Fail? && out.failure.TypeError? ==>
        |old(layers)| > 0 && !config.strokesRel.Random? &&
        (!KnownRel(config.strokesRel) || |old(layers)[0].strokes| < numStrokes)
      ensures out.Pass? ==>
        var i := |old(layers)|;
        |layers[i].strokes| == numStrokes &&
        forall j :: 0 <= j < numStrokes ==>
          fresh(layers[i].strokes[j]) && StrokeFits(i, j, layers[i].strokes[j].State(), old(FirstStates()), config)
    {
      var drawn;
      ghost var first := FirstStates();
      drawn, g := PushOptions();
      if !drawn {
        return Fail(Exhausted), g;
      }
      out := BuildLayer(numStrokes, first);
    }

    /** The part of `addLayer` after the push: `createLayer` and `createStrokes` for the new
        index. Split from `AddLayer` to keep its proof small; it is not a function of the
        source. */
    method BuildLayer(numStrokes: nat, ghost first: seq<StrokeState>) returns (out: Outcome)
      requires |layerOptions| == |layers| + 1 && Distinct(layers) && |colors| >= 2 && rng.Valid()
      requires FirstAre(first)
      requires 0 < nextTimer && timeoutID < nextTimer && (pending ==> timeoutID > 0 && numCells < config.maxCells)
      modifies this`layers, rng
      ensures Valid()
      ensures out.Fail? ==> out.failure.TypeError?
      ensures var i := |old(layers)|;
        |layers| == i + 1 && layers[..i] == old(layers) && fresh(layers[i]) &&
        layers[i].options == LayerOptionsFor(layerOptions[i], numStrokes, config.maxIterations) &&
        layers[i].color == LayerColor(colors[1], colorW)
      ensures out.Fail? ==>
        |old(layers)| > 0 && !config.strokesRel.Random? &&
        (!KnownRel(config.strokesRel) || |old(layers)[0].strokes| < numStrokes)
      ensures out.Pass? ==>
        var i := |old(layers)|;
        |layers[i].strokes| == numStrokes &&
        forall j :: 0 <= j < numStrokes ==>
          fresh(layers[i].strokes[j]) && StrokeFits(i, j, layers[i].strokes[j].State(), first, config)
    {
      var i := |layers|;
      var layer := CreateLayer(numStrokes);
      assert layers[i] == layer && layers[..i] == old(layers);
      assert SlotCount(Get(layer.options, "numStrokes")) == numStrokes;
      out := CreateStrokes(layer, i, first);
    }

    /** `layerOptions.push(generateOptions(layers.length))` */
    method PushOptions() returns (drawn: bool, g: Generated)
      requires Valid()
      modifies this`layerOptions, rng
      ensures |layerOptions| == |layers| + 1 - (if drawn then 0 else 1)
      ensures Distinct(layers) && rng.Valid()
      ensures comp == "cells" && attempts > 0 ==> drawn
      ensures !drawn ==> layerOptions == old(layerOptions)
      ensures drawn ==>
        layerOptions == old(layerOptions) + [AsOptions(g)] &&
        ValidateOptions(g, |layers|) && InRange(g, |layers|, comp)
    {
      g := Generated(0, 0, 0.0, 0.0, 0.0, 0.0);
      var r, next := GenerateOptions(|layers|, comp, rng.stream, rng.cursor, attempts);
      rng.cursor := next;
      if r.None? {
        return false, g;
      }
      g := r.value;
      layerOptions := layerOptions + [AsOptions(g)];
      drawn := true;
    }

    /** `resetLayer(layer)`: the layer is cleared and regenerated, every stroke gets a new speed
        and goes back to its start, and the layer takes the colour `c` (the colour generator is
        not part of this model). */
    method ResetLayer(layer: HostLayer, c: Rgb) returns (out: Outcome, g: Generated)
      requires Valid() && layer in layers
      modifies layer`clears, layer`options, layer`color, this`layerOptions, rng, layer.strokes
      ensures Valid()
      ensures layer.clears == old(layer.clears) + 1
      ensures out.Fail? ==> out.failure == Exhausted && layerOptions == old(layerOptions)
      ensures comp == "cells" && attempts > 0 ==> out.Pass?
      ensures out.Pass? ==>
        Regenerated(old(layerOptions), layerOptions, IndexOf(layers, layer), g, comp) &&
        layer.options == Assign(old(layer.options), layerOptions[IndexOf(layers, layer)]) &&
        layer.color == LayerColor(c, colorW)
      ensures out.Pass? ==> AllRespeeded(old(States(layer.strokes)), States(layer.strokes), config)
    {
      ghost var before := States(layer.strokes);
      layer.Clear();
      out, g := RegenerateLayer(layer);
      if out.Fail? {
        return;
      }
      assert States(layer.strokes) == before by {
        assert layer.strokes == old(layer.strokes) && forall s :: s in layer.strokes ==> unchanged(s);
      }
      Refresh(layer, c);
    }

    /** The end of `resetLayer`: new stroke speeds, then the colour. Split from `ResetLayer` to
        keep its proof small; it is not a function of the source. */
    method Refresh(layer: HostLayer, c: Rgb)
      requires Valid()
      modifies layer`color, rng, layer.strokes
      ensures Valid() && unchanged(this)
      ensures layer.options == old(layer.options) && layer.clears == old(layer.clears) && layer.strokes == old(layer.strokes)
      ensures layer.color == LayerColor(c, colorW)
      ensures AllRespeeded(old(States(layer.strokes)), States(layer.strokes), config)
    {
      RespeedStrokes(layer);
      label respeeded:
      SetLayerColor(layer, c);
      assert forall s :: s in layer.strokes ==> unchanged@respeeded(s);
    }

    /** The loop of `resetLayer`: each stroke in turn gets a drawn speed and is reset. A stroke
        listed twice ends up reset once with the later speed. */
    method RespeedStrokes(layer: HostLayer)
      requires Valid()
      modifies layer.strokes, rng
      ensures Valid() && unchanged(this, layer)
      ensures AllRespeeded(old(States(layer.strokes)), States(layer.strokes), config)
    {
      var j := 0;
      while j < |layer.strokes|
        invariant 0 <= j <= |layer.strokes| && Valid()
        invariant forall t :: 0 <= t < j ==>
          Respeeded(old(layer.strokes[t].State()), layer.strokes[t].State(), config)
        invariant forall t :: j <= t < |layer.strokes| ==>
          layer.strokes[t].State() == old(layer.strokes[t].State()) ||
          Respeeded(old(layer.strokes[t].State()), layer.strokes[t].State(), config)
      {
        var u := rng.Next();
        var s := layer.strokes[j];
        label before:
        s.speed := SpeedDraw(config, u);
        s.Reset();
        forall t | 0 <= t < |layer.strokes|
          ensures t < j + 1 ==> Respeeded(old(layer.strokes[t].State()), layer.strokes[t].State(), config)
          ensures layer.strokes[t].State() == old(layer.strokes[t].State()) ||
                  Respeeded(old(layer.strokes[t].State()), layer.strokes[t].State(), config)
        {
          if layer.strokes[t] != s {
            assert layer.strokes[t].State() == old@before(layer.strokes[t].State());
          }
        }
        j := j + 1;
      }
    }

    /** Layer `t` has been reset once more than the `clears0` times before, and has colour `c`. */
    ghost predicate SlotReset(t: int, clears0: nat, c: Rgb)
      reads this`layers, layers
    {
      0 <= t < |layers| && layers[t].clears == clears0 + 1 && layers[t].color == LayerColor(c, colorW)
    }

    /** The callback of `layers.map` for layer `k`: `resetLayer(layers[k])`, which finds the
        layer at index `k` since no layer is listed twice. Split from `ResetAll` so that each
        step of its loop reasons about one layer; it is not a function of the source. */
    method ResetAt(k: nat, c: Rgb) returns (out: Outcome, g: Generated)
      requires Valid() && k < |layers|
      modifies this`layerOptions, {layers[k]}`clears, {layers[k]}`options, {layers[k]}`color, rng,
               layers[k].strokes
      ensures Valid() && |layerOptions| == |old(layerOptions)|
      ensures out.Fail? ==> out.failure == Exhausted && layerOptions == old(layerOptions)
      ensures comp == "cells" && attempts > 0 ==> out.Pass?
      ensures out.Pass? ==>
        SlotReset(k, old(layers[k].clears), c) &&
        SlotRegenerated(k, g, old(layerOptions[k]), old(layers[k].options))
      ensures out.Pass? ==> forall s :: s in layers[k].strokes ==> Respeeded(old(s.State()), s.State(), config)
      ensures forall t :: 0 <= t < |layers| ==> layers[t].strokes == old(layers[t].strokes)
      ensures forall t :: 0 <= t < |layerOptions| && t != k ==> layerOptions[t] == old(layerOptions[t])
      ensures forall t :: 0 <= t < |layers| && t != k ==>
        layers[t].clears == old(layers[t].clears) && layers[t].color == old(layers[t].color) &&
        layers[t].options == old(layers[t].options)
    {
      IndexOfDistinct(layers, k);
      out, g := ResetLayer(layers[k], c);
      forall t | 0 <= t < |layers| && t != k
        ensures layers[t].clears == old(layers[t].clears) && layers[t].color == old(layers[t].color)
        ensures layers[t].options == old(layers[t].options)
      {
        assert layers[t] != layers[k];
      }
      if out.Pass? {
        forall s | s in layers[k].strokes
          ensures Respeeded(old(s.State()), s.State(), config)
        {
          var j :| 0 <= j < |layers[k].strokes| && layers[k].strokes[j] == s;
          assert old(States(layers[k].strokes))[j] == old(s.State());
        }
      }
    }

    /** The number of `clear()` calls of every layer, in order. */
    ghost function ClearsNow(): (r: seq<nat>)
      reads this`layers, layers
      ensures |r| == |layers| && forall k :: 0 <= k < |layers| ==> r[k] == layers[k].clears
    {
      var ls := layers;
      seq(|ls|, k requires 0 <= k < |ls| reads ls => ls[k].clears)
    }

    /** `layers.map(resetLayer)`: every layer is cleared once more, regenerated with the options
        record `gs[k]` for its own index, and given the colour `tints[k]`. */
    method ResetAll(tints: seq<Rgb>) returns (out: Outcome, ghost gs: seq<Generated>)
      requires Valid() && |tints| == |layers|
      modifies this`layerOptions, layers, rng, AllStrokes(layers)
      ensures Valid()
      ensures out.Fail? ==> out.failure == Exhausted
      ensures comp == "cells" && attempts > 0 ==> out.Pass?
      ensures out.Pass? ==> |gs| == |layers|
      ensures out.Pass? ==> forall k :: 0 <= k < |layers| ==> SlotReset(k, old(layers[k].clears), tints[k])
      ensures out.Pass? ==> forall k :: 0 <= k < |layers| ==>
        SlotRegenerated(k, gs[k], old(layerOptions[k]), old(layers[k].options))
    {
      out := Pass;
      gs := [];
      ghost var c0, o0, lo0 := ClearsNow(), layerOptions, OptionsNow();
      ghost var strokes0 := old(AllStrokes(layers));
      var k := 0;
      while k < |layers|
        invariant 0 <= k <= |layers| && |gs| == k
        invariant Valid() && |layerOptions| == |o0| && out.Pass?
        invariant forall t :: 0 <= t < |layers| ==> layers[t].strokes == old(layers[t].strokes)
        invariant forall t :: 0 <= t < k ==> SlotReset(t, c0[t], tints[t])
        invariant forall t :: 0 <= t < k ==> SlotRegenerated(t, gs[t], o0[t], lo0[t])
        invariant forall t :: k <= t < |layers| ==> layers[t].clears == c0[t]
        invariant forall t :: k <= t < |layers| ==> layerOptions[t] == o0[t] && layers[t].options == lo0[t]
      {
        assert forall s :: s in layers[k].strokes ==> s in strokes0 by {
          assert layers[k] in old(layers) && layers[k].strokes == old(layers[k].strokes);
        }
        var g;
        out, g := ResetAt(k, tints[k]);
        if out.Fail? {
          return;
        }
        gs := gs + [g];
        k := k + 1;
      }
    }

    /** `createCell()`: one more cell, and every layer regenerated (the history buffer it also
        renders is not part of this model). */
    method CreateCell() returns (out: Outcome, ghost gs: seq<Generated>)
      requires Valid() && !pending
      modifies this`numCells, this`layerOptions, layers, rng
      ensures Valid() && numCells == old(numCells) + 1
      ensures out.Fail? ==> out.failure == Exhausted
      ensures comp == "cells" && attempts > 0 ==> out.Pass?
      ensures out.Pass? ==> |gs| == |layers|
      ensures out.Pass? ==> forall k :: 0 <= k < |layers| ==>
          SlotRegenerated(k, gs[k], old(layerOptions[k]), old(layers[k].options))
    {
      numCells := numCells + 1;
      out, gs := RegenerateAll();
    }

    /** `requestCell()`: a timer that is set is cleared and a cell is created, which regenerates
        every layer with the records `gs`; then, while there are fewer than `maxCells` cells, a
        new timer is set with a delay drawn from [500, 7000]. */
    method RequestCell() returns (out: Outcome, ghost gs: seq<Generated>)
      requires Valid()
      modifies this`numCells, this`layerOptions, this`timeoutID, this`pending, this`nextTimer,
               this`delay, layers, rng
      ensures Valid()
      ensures out.Fail? ==> out.failure == Exhausted
      ensures comp == "cells" && attempts > 0 ==> out.Pass?
      ensures out.Pass? ==> numCells == old(numCells) + (if old(timeoutID) > 0 then 1 else 0)
      ensures out.Pass? && old(timeoutID) > 0 ==> |gs| == |layers| && forall k :: 0 <= k < |layers| ==>
        SlotRegenerated(k, gs[k], old(layerOptions[k]), old(layers[k].options))
      ensures old(timeoutID) <= 0 ==> layerOptions == old(layerOptions) && OptionsNow() == old(OptionsNow())
      ensures out.Pass? ==> (pending <==> numCells < config.maxCells)
      ensures out.Pass? && pending ==> timeoutID == old(nextTimer) && MinDelay <= delay <= MaxDelay
      ensures !pending ==> timeoutID == old(timeoutID)
    {
      out := Pass;
      gs := [];
      if timeoutID > 0 {
        pending := false;
        out, gs := CreateCell();
        if out.Fail? {
          return;
        }
      }
      if numCells < config.maxCells {
        var u := rng.Next();
        delay := Int(MinDelay, MaxDelay, u);
        timeoutID := nextTimer;
        nextTimer := nextTimer + 1;
        pending := true;
      }
    }

    /** The timer set by `requestCell` fires and calls it again: a cell is created, which
        regenerates every layer, and the chain of timers alone never takes the count past
        `maxCells`. */
    method FireCellTimer() returns (out: Outcome, ghost gs: seq<Generated>)
      requires Valid() && pending
      modifies this`numCells, this`layerOptions, this`timeoutID, this`pending, this`nextTimer,
               this`delay, layers, rng
      ensures Valid()
      ensures out.Fail? ==> out.failure == Exhausted
      ensures comp == "cells" && attempts > 0 ==> out.Pass?
      ensures out.Pass? ==> numCells == old(numCells) + 1 && numCells <= config.maxCells
      ensures out.Pass? ==> |gs| == |layers| && forall k :: 0 <= k < |layers| ==>
        SlotRegenerated(k, gs[k], old(layerOptions[k]), old(layers[k].options))
      ensures out.Pass? ==> (pending <==> numCells < config.maxCells)
    {
      out, gs := RequestCell();
    }

    /** `onClick()`: what a click does depends on the composition. `gs` are the option records
        drawn: one for the layer `addnew` appends, one per layer for `reset`, `regenerate` and
        a `cells` click that creates a cell. */
    method OnClick(tints: seq<Rgb>) returns (out: Outcome, ghost gs: seq<Generated>)
      requires Valid() && |tints| == |layers|
      modifies this`layers, this`layerOptions, this`numCells, this`timeoutID, this`pending,
               this`nextTimer, this`delay, layers, rng, AllStrokes(layers)
      ensures Valid()
      ensures comp !in {"addnew", "reset", "regenerate", "cells"} ==>
        out.Pass? && layers == old(layers) && layerOptions == old(layerOptions) &&
        rng.cursor == old(rng.cursor)
      ensures comp != "cells" ==> numCells == old(numCells) && timeoutID == old(timeoutID) && pending == old(pending)
      ensures comp != "addnew" ==> layers == old(layers)
      ensures comp == "addnew" && out != Fail(Exhausted) ==>
        var i := |old(layers)|;
        |layers| == i + 1 && layers[..i] == old(layers) && fresh(layers[i]) && |gs| == 1 &&
        layerOptions == old(layerOptions) + [AsOptions(gs[0])] &&
        ValidateOptions(gs[0], i) && InRange(gs[0], i, comp) &&
        layers[i].options == LayerOptionsFor(AsOptions(gs[0]), strokesPerLayer, config.maxIterations) &&
        layers[i].color == LayerColor(colors[1], colorW)
      ensures comp == "addnew" && out.Pass? ==>
        var i := |old(layers)|;
        |layers[i].strokes| == strokesPerLayer &&
        forall j :: 0 <= j < strokesPerLayer ==>
          fresh(layers[i].strokes[j]) && StrokeFits(i, j, layers[i].strokes[j].State(), old(FirstStates()), config)
      ensures comp == "reset" && out.Pass? ==> forall k :: 0 <= k < |layers| ==>
        SlotReset(k, old(layers[k].clears), tints[k])
      ensures (comp == "reset" || comp == "regenerate" || (comp == "cells" && old(timeoutID) > 0)) && out.Pass? ==>
        |gs| == |layers| && forall k :: 0 <= k < |layers| ==>
          SlotRegenerated(k, gs[k], old(layerOptions[k]), old(layers[k].options))
      ensures comp == "cells" && out.Pass? ==>
        numCells == old(numCells) + (if old(timeoutID) > 0 then 1 else 0) &&
        (pending <==> numCells < config.maxCells)
    {
      out := Pass;
      gs := [];
      if comp == "addnew" {
        var g;
        out, g := AddLayer(strokesPerLayer);
        gs := [g];
      } else if comp == "reset" {
        out, gs := ResetAll(tints);
      } else if comp == "regenerate" {
        out, gs := RegenerateAll();
      } else if comp == "cells" {
        out, gs := RequestCell();
      }
    }
  }
}
