/** The change cycle of src/common.js: every seven seconds the fluid parameters of all layers are
    re-drawn, until `maxChanges` changes have happened; then the sketch pauses and, ten seconds
    later, restarts with every layer fully reset. Scheduled callbacks and the restart timer are
    explicit events; the layers are the library layer of `HostLayers`. */
module ChangeCycles {
  import opened Js
  import opened FxRand
  import opened HostLayers
  import opened ChangeOptions

  /** `THREE.SubtractiveBlending` */
  const SubtractiveBlending: real := 3.0

  /** The constant uniform `uNoiseSpeed`. */
  const NoiseSpeed: Vec2 := Vec2(0.001, 0.0)

  /** A callback handed to `core.schedule`: a change, or the pause that sets a restart timer. */
  datatype Task = Change | PauseThenRestart

  /** `new THREE.Vector4(color.r, color.g, color.b, features.colorW)`: unscaled, unlike the
      colour src/index.js gives a layer. */
  function ColorVec(c: Rgb, w: real): Vec4 {
    Vec4(c.r, c.g, c.b, w)
  }

  /** The material settings `setFluidLayerOptions` gives a layer from the options `o`: the
      options merged into `before`, the blend modes and zoom copied (possibly `undefined`),
      the noise zoom in [100, 2000], the noise offset in [0, 1000]² and the fixed noise speed. */
  predicate Applied(v: LayerView, o: Options, before: Options) {
    v.options == Assign(before, o) &&
    v.viewBlending == Get(o, "blendModeView") && v.passBlending == Get(o, "blendModePass") &&
    v.zoom == Get(o, "zoom") &&
    v.noiseZoom.Some? && 100.0 <= v.noiseZoom.value <= 2000.0 &&
    v.noiseOffset.Some? && 0.0 <= v.noiseOffset.value.x <= 1000.0 &&
    0.0 <= v.noiseOffset.value.y <= 1000.0 &&
    v.noiseSpeed == Some(NoiseSpeed)
  }

  class ChangeCycle {
    const layers: seq<HostLayer>
    const rng: Rng
    /** `options.minDt`, `options.maxDt`, `options.minSpeed`, `options.maxSpeed` and
        `features.colorW`. */
    const minDt: real
    const maxDt: real
    const minSpeed: real
    const maxSpeed: real
    const colorW: real
    /** The options `initOptions` fills in when absent. */
    var speedMult: Option<real>
    var snapBlending: Option<real>
    var maxChanges: Option<real>
    var layerOptions: seq<Options>
    /** The `colors` array: its elements by index, and its `length`. */
    var colors: map<int, Rgb>
    var colorsLength: nat
    /** `vars.numChanges`, `core.uFrame.value`, whether the sketch is paused, the callbacks
        scheduled with `core`, and the restart timers set and not yet fired. */
    var numChanges: int
    var uFrame: real
    var paused: bool
    var callbacks: seq<Task>
    var restarts: nat

    /** What every step needs: one options entry per layer, no layer listed twice. */
    ghost predicate Ready()
      reads this`layerOptions
    {
      |layerOptions| == |layers| && Distinct(layers) && rng.Valid()
    }

    /** A scheduled change is only ever pending while fewer than `maxChanges` changes have
        happened. */
    ghost predicate Valid()
      reads this`layerOptions, this`numChanges, this`callbacks, this`maxChanges
    {
      Ready() && numChanges >= 0 && (Change in callbacks ==> LessThan(numChanges, maxChanges))
    }

    constructor (layers: seq<HostLayer>, layerOptions: seq<Options>, colors: seq<Rgb>, rng: Rng,
                 minDt: real, maxDt: real, minSpeed: real, maxSpeed: real, colorW: real,
                 speedMult: Option<real>, snapBlending: Option<real>, maxChanges: Option<real>)
      requires |layerOptions| == |layers| && Distinct(layers) && rng.Valid()
      ensures Valid()
      ensures this.layers == layers && this.layerOptions == layerOptions && this.rng == rng
      ensures this.colors == map k | 0 <= k < |colors| :: colors[k]
      ensures colorsLength == |colors|
      ensures this.speedMult == speedMult && this.snapBlending == snapBlending
      ensures this.maxChanges == maxChanges
      ensures numChanges == 0 && callbacks == [] && restarts == 0 && !paused
    {
      this.layers := layers;
      this.layerOptions := layerOptions;
      this.colors := map k | 0 <= k < |colors| :: colors[k];
      this.colorsLength := |colors|;
      this.rng := rng;
      this.minDt := minDt;
      this.maxDt := maxDt;
      this.minSpeed := minSpeed;
      this.maxSpeed := maxSpeed;
      this.colorW := colorW;
      this.speedMult := speedMult;
      this.snapBlending := snapBlending;
      this.maxChanges := maxChanges;
      numChanges := 0;
      uFrame := 0.0;
      paused := false;
      callbacks := [];
      restarts := 0;
    }

    /** `initOptions()`: an absent `speedMult` is drawn from [0.1, 10], an absent `snapBlending`
        becomes subtractive blending, an absent `maxChanges` is drawn from the integers 5 .. 9;
        options that are present are kept. */
    method InitOptions()
      requires Valid()
      modifies this`speedMult, this`snapBlending, this`maxChanges, rng
      ensures Valid()
      ensures old(speedMult).Some? ==> speedMult == old(speedMult)
      ensures old(speedMult).None? ==> speedMult.Some? && 0.1 <= speedMult.value <= 10.0
      ensures snapBlending == if old(snapBlending).Some? then old(snapBlending) else Some(SubtractiveBlending)
      ensures old(maxChanges).Some? ==> maxChanges == old(maxChanges)
      ensures old(maxChanges).None? ==>
        maxChanges.Some? && 5.0 <= maxChanges.value <= 9.0 && maxChanges.value == maxChanges.value.Floor as real
      ensures rng.cursor ==
        old(rng.cursor) + (if old(speedMult).None? then 1 else 0) + (if old(maxChanges).None? then 1 else 0)
    {
      if speedMult.None? {
        var u := rng.Next();
        speedMult := Some(Num(0.1, 10.0, u));
      }
      if snapBlending.None? {
        snapBlending := Some(SubtractiveBlending);
      }
      if maxChanges.None? {
        var u := rng.Next();
        maxChanges := Some(Int(5, 9, u) as real);
      }
    }

    /** `scheduleChange()`: a change while fewer than `maxChanges` have happened (never when
        `maxChanges` is undefined), else the pause that leads to a restart. */
    method ScheduleChange()
      requires Valid()
      modifies this`callbacks
      ensures Valid()
      ensures callbacks == old(callbacks) + [if LessThan(numChanges, maxChanges) then Change else PauseThenRestart]
    {
      if LessThan(numChanges, maxChanges) {
        callbacks := callbacks + [Change];
      } else {
        callbacks := callbacks + [PauseThenRestart];
      }
    }

    /** `setFluidLayerOptions(i)`: layer `i` takes its options, its blend modes and zoom, and
        three noise draws. */
    method SetFluidLayerOptions(i: nat)
      requires Ready() && i < |layers|
      modifies {layers[i]}`options, {layers[i]}`viewBlending, {layers[i]}`passBlending,
               {layers[i]}`zoom, {layers[i]}`noiseZoom, {layers[i]}`noiseOffset, {layers[i]}`noiseSpeed, rng
      ensures Ready()
      ensures Applied(layers[i].View(), layerOptions[i], old(layers[i].options))
      ensures rng.cursor == old(rng.cursor) + 3
    {
      var o := layerOptions[i];
      var layer := layers[i];
      layer.SetOptions(o);
      layer.viewBlending := Get(o, "blendModeView");
      layer.passBlending := Get(o, "blendModePass");
      layer.zoom := Get(o, "zoom");
      var u0 := rng.Next();
      layer.noiseZoom := Some(Num(100.0, 2000.0, u0));
      var u1 := rng.Next();
      var u2 := rng.Next();
      layer.noiseOffset := Some(Vec2(Num(0.0, 1000.0, u1), Num(0.0, 1000.0, u2)));
      layer.noiseSpeed := Some(NoiseSpeed);
    }

    /** The options `after` are `before` with fresh options merged in: only the fluid
        parameters (and, for a full re-draw, the blend modes and the zoom) are replaced. */
    predicate EntryChanged(before: Options, after: Options, doInit: bool, zoom: real) {
      FluidInRange(after, minDt, maxDt) &&
      if doInit then
        Rewrote(before, after, FluidKeys + LayerKeys) &&
        after["blendModePass"] in {0.0, 1.0} && after["blendModeView"] in {2.0, 5.0} &&
        after["zoom"] == zoom
      else
        Rewrote(before, after, FluidKeys)
    }

    /** Entry `i` of `after` is entry `i` of `before` with fresh options merged in, and every
        other entry is unchanged. */
    predicate ChangedAt(before: seq<Options>, after: seq<Options>, i: int, doInit: bool, zoom: real) {
      0 <= i < |before| == |after| &&
      (forall t :: 0 <= t < |before| && t != i ==> after[t] == before[t]) &&
      EntryChanged(before[i], after[i], doInit, zoom)
    }

    /** Layer `k` and its entry have been changed, from the entry `o` and the layer options
        `lo` before. */
    ghost predicate SlotChanged(k: int, o: Options, lo: Options, doInit: bool, zoom: real)
      reads this`layerOptions, layers
    {
      0 <= k < |layers| == |layerOptions| &&
      EntryChanged(o, layerOptions[k], doInit, zoom) && Applied(layers[k].View(), layerOptions[k], lo)
    }

    /** The record `changeLayerOptions` merges in: `initLayerOptions(i)` (seven draws, with
        `zoom` standing for the exponential one) or `fluidOptions(...)` (four draws). Merged
        into any entry `before`, it changes that entry as `EntryChanged` says. */
    method DrawChange(before: Options, doInit: bool, zoom: real) returns (o: Options)
      requires rng.Valid()
      modifies rng
      ensures rng.Valid() && rng.cursor == old(rng.cursor) + (if doInit then 7 else 4)
      ensures EntryChanged(before, Assign(before, o), doInit, zoom)
    {
      if doInit {
        o := InitLayerOptions(minDt, maxDt, zoom, rng.stream, rng.cursor);
        rng.cursor := rng.cursor + 7;
      } else {
        o := FluidOptions(minDt, maxDt, rng.stream, rng.cursor);
        rng.cursor := rng.cursor + 4;
      }
    }

    /** `changeLayerOptions(layer, doInit)`: the layer's entry gets a full new record
        (`initLayerOptions`, with `zoom` standing for its exponential draw) or new fluid
        parameters only, and the layer takes it. The draws happen before a layer that is not
        in the list makes the merge throw. */
    method ChangeLayerOptions(layer: HostLayer, doInit: bool, zoom: real) returns (out: Outcome)
      requires Ready()
      modifies this`layerOptions, layer`options, layer`viewBlending, layer`passBlending,
               layer`zoom, layer`noiseZoom, layer`noiseOffset, layer`noiseSpeed, rng
      ensures Ready()
      ensures out.Fail? <==> layer !in layers
      ensures out.Fail? ==>
        out.failure.TypeError? && layerOptions == old(layerOptions) && layer.options == old(layer.options)
      ensures out.Pass? ==>
        ChangedAt(old(layerOptions), layerOptions, IndexOf(layers, layer), doInit, zoom) &&
        Applied(layer.View(), layerOptions[IndexOf(layers, layer)], old(layer.options))
    {
      var i := IndexOf(layers, layer);
      var before := if i >= 0 then layerOptions[i] else map[];
      var o := DrawChange(before, doInit, zoom);
      if i < 0 {
        return Fail(TypeError("Cannot convert undefined or null to object"));
      }
      layerOptions := layerOptions[i := Assign(before, o)];
      SetFluidLayerOptions(i);
      out := Pass;
    }

    /** A speed `changeLayerSpeed` can draw: in `[minSpeed, maxSpeed] * speedMult`. */
    predicate SpeedInRange(v: real, mult: real) {
      minSpeed <= maxSpeed && mult >= 0.0 ==> minSpeed * mult <= v <= maxSpeed * mult
    }

    /** `changeLayerSpeed(layer)`: slots `0 .. numStrokes-1` of the pass's `uSpeed` get drawn
        speeds; later slots keep theirs. */
    method ChangeLayerSpeed(layer: HostLayer)
      requires Ready() && speedMult.Some?
      modifies layer`uSpeed, rng
      ensures Ready()
      ensures var n := SlotCount(Get(layer.options, "numStrokes"));
        |layer.uSpeed| == (if n > |old(layer.uSpeed)| then n else |old(layer.uSpeed)|) &&
        (forall j :: 0 <= j < n ==> SpeedInRange(layer.uSpeed[j], speedMult.value)) &&
        (forall j :: n <= j < |old(layer.uSpeed)| ==> layer.uSpeed[j] == old(layer.uSpeed[j]))
    {
      var n := SlotCount(Get(layer.options, "numStrokes"));
      var j: nat := 0;
      while LessThan(j, Get(layer.options, "numStrokes"))
        invariant j <= n && Ready()
        invariant |layer.uSpeed| == (if j > |old(layer.uSpeed)| then j else |old(layer.uSpeed)|)
        invariant forall t :: 0 <= t < j ==> SpeedInRange(layer.uSpeed[t], speedMult.value)
        invariant forall t :: j <= t < |old(layer.uSpeed)| ==> layer.uSpeed[t] == old(layer.uSpeed[t])
        decreases n - j
      {
        var u := rng.Next();
        var speed := ScaledNum(minSpeed, maxSpeed, speedMult.value, u);
        layer.uSpeed := Put(layer.uSpeed, j, speed);
        j := j + 1;
      }
    }

    /** The index `setLayerColor` reads the colour from: the layer's own, or 1 past the end of
        the array. */
    function ColorIndex(layer: HostLayer): int
      reads this`colorsLength
    {
      var i := IndexOf(layers, layer);
      if i < colorsLength then i else 1
    }

    /** `setLayerColor(layer)`: the colour at the layer's index, or `colors[1]` when the index is
        past the end; reading a colour that is not there throws. */
    method SetLayerColor(layer: HostLayer) returns (out: Outcome)
      modifies layer`color
      ensures out.Pass? <==> ColorIndex(layer) in colors
      ensures out.Pass? ==> layer.color == ColorVec(colors[ColorIndex(layer)], colorW)
      ensures out.Fail? ==> out.failure.TypeError? && layer.color == old(layer.color)
    {
      var i := IndexOf(layers, layer);
      var key := if i < colorsLength then i else 1;
      if key !in colors {
        return Fail(TypeError("Cannot read properties of undefined (reading 'r')"));
      }
      layer.color := ColorVec(colors[key], colorW);
      out := Pass;
    }

    /** `changeLayerColor(layer)`: the new colour `c` (from the colour generator, which is not
        part of this model) is written at the layer's index, growing the array as a JavaScript
        array grows, and the layer takes it: the write always makes the read succeed. */
    method ChangeLayerColor(layer: HostLayer, c: Rgb)
      modifies this`colors, this`colorsLength, layer`color
      ensures colors == old(colors)[IndexOf(layers, layer) := c]
      ensures colorsLength == if IndexOf(layers, layer) >= old(colorsLength) then IndexOf(layers, layer) + 1
                              else old(colorsLength)
      ensures layer.color == ColorVec(c, colorW)
    {
      var i := IndexOf(layers, layer);
      colors := colors[i := c];
      if i >= colorsLength {
        colorsLength := i + 1;
      }
      var out := SetLayerColor(layer);
      assert out.Pass?;
    }

    /** `fullResetLayer(layer)`: a full new options record, a library reset of the layer, new
        stroke speeds and a new colour. */
    method FullResetLayer(layer: HostLayer, zoom: real, c: Rgb) returns (out: Outcome)
      requires Ready() && speedMult.Some?
      modifies this`layerOptions, this`colors, this`colorsLength, rng, layer`options, layer`viewBlending,
               layer`passBlending, layer`zoom, layer`noiseZoom, layer`noiseOffset, layer`noiseSpeed,
               layer`resets, layer`uSpeed, layer`color
      ensures Ready()
      ensures out.Fail? <==> layer !in layers
      ensures out.Fail? ==> out.failure.TypeError? && layerOptions == old(layerOptions)
      ensures out.Pass? ==>
        ChangedAt(old(layerOptions), layerOptions, IndexOf(layers, layer), true, zoom) &&
        Applied(layer.View(), layerOptions[IndexOf(layers, layer)], old(layer.options)) &&
        layer.resets == old(layer.resets) + 1 && layer.color == ColorVec(c, colorW) &&
        colors == old(colors)[IndexOf(layers, layer) := c]
      ensures out.Pass? ==> |layer.uSpeed| >= SlotCount(Get(layer.options, "numStrokes"))
      ensures out.Pass? ==> forall j :: 0 <= j < SlotCount(Get(layer.options, "numStrokes")) ==>
        SpeedInRange(layer.uSpeed[j], speedMult.value)
    {
      out := ChangeLayerOptions(layer, true, zoom);
      if out.Fail? {
        return;
      }
      Refit(layer, c);
    }

    /** The end of `fullResetLayer(layer)`: the library reset, new stroke speeds and a new
        colour; the options stay as they are. Split from `FullResetLayer` to keep its proof
        small; it is not a function of the source. */
    method Refit(layer: HostLayer, c: Rgb)
      requires Ready() && speedMult.Some?
      modifies this`colors, this`colorsLength, rng, layer`resets, layer`uSpeed, layer`color
      ensures Ready() && unchanged(this`layerOptions)
      ensures layer.resets == old(layer.resets) + 1 && layer.color == ColorVec(c, colorW)
      ensures colors == old(colors)[IndexOf(layers, layer) := c]
      ensures |layer.uSpeed| >= SlotCount(Get(layer.options, "numStrokes"))
      ensures forall j :: 0 <= j < SlotCount(Get(layer.options, "numStrokes")) ==>
        SpeedInRange(layer.uSpeed[j], speedMult.value)
    {
      layer.Reset();
      ChangeLayerSpeed(layer);
      ChangeLayerColor(layer, c);
    }

    /** The callback `changeCB` runs for layer `k`: `changeLayerOptions(layers[k])`, which finds
        the layer at index `k` since no layer is listed twice. Split from `ChangeCB` so that
        each step of its loop reasons about one layer; it is not a function of the source. */
    method ChangeAt(k: nat)
      requires Ready() && k < |layers|
      modifies this`layerOptions, {layers[k]}`options, {layers[k]}`viewBlending, {layers[k]}`passBlending,
               {layers[k]}`zoom, {layers[k]}`noiseZoom, {layers[k]}`noiseOffset, {layers[k]}`noiseSpeed, rng
      ensures Ready()
      ensures SlotChanged(k, old(layerOptions[k]), old(layers[k].options), false, 0.0)
      ensures forall t :: 0 <= t < |layers| && t != k ==>
        layerOptions[t] == old(layerOptions[t]) && layers[t].View() == old(layers[t].View())
    {
      IndexOfDistinct(layers, k);
      var out := ChangeLayerOptions(layers[k], false, 0.0);
      forall t | 0 <= t < |layers| && t != k
        ensures layers[t].View() == old(layers[t].View())
      {
        assert layers[t] != layers[k];
      }
    }

    /** `changeCB()`: one more change, new fluid parameters for every layer, the scheduled
        callbacks dropped, and the next one scheduled only when `maxChanges` is positive. */
    method ChangeCB()
      requires Valid()
      modifies this`numChanges, this`layerOptions, this`callbacks, layers, rng
      ensures Valid()
      ensures numChanges == old(numChanges) + 1
      ensures forall k :: 0 <= k < |layers| ==>
        SlotChanged(k, old(layerOptions[k]), old(layers[k].options), false, 0.0)
      ensures callbacks ==
        if maxChanges.Some? && maxChanges.value > 0.0
        then [if LessThan(numChanges, maxChanges) then Change else PauseThenRestart]
        else []
    {
      numChanges := numChanges + 1;
      var k := 0;
      while k < |layers|
        invariant 0 <= k <= |layers| && Ready()
        invariant numChanges == old(numChanges) + 1 && callbacks == old(callbacks)
        invariant forall t :: 0 <= t < k ==>
          SlotChanged(t, old(layerOptions[t]), old(layers[t].options), false, 0.0)
        invariant forall t :: k <= t < |layers| ==>
          layerOptions[t] == old(layerOptions[t]) && layers[t].options == old(layers[t].options)
      {
        ChangeAt(k);
        k := k + 1;
      }
      callbacks := [];
      if maxChanges.Some? && maxChanges.value > 0.0 {
        ScheduleChange();
      }
    }

    /** A layer fully reset from the entry `o` and the view `v0` it had before, with zoom `zoom`
        and colour `c`: a full new entry `entry` the view `v` has taken, one more library reset,
        the colour, and a drawn speed for every stroke slot. */
    predicate FullyReset(o: Options, v0: LayerView, zoom: real, c: Rgb, entry: Options, v: LayerView,
                         mult: Option<real>)
    {
      EntryChanged(o, entry, true, zoom) && Applied(v, entry, v0.options) &&
      v.resets == v0.resets + 1 && v.color == ColorVec(c, colorW) &&
      mult.Some? &&
      var n := SlotCount(Get(v.options, "numStrokes"));
      |v.uSpeed| >= n && forall j :: 0 <= j < n ==> SpeedInRange(v.uSpeed[j], mult.value)
    }

    /** Layer `k` has been fully reset from the entry `o` and the view `v0`, with zoom `zoom`
        and colour `c`, which the colour array holds at `k`. */
    ghost predicate SlotFullReset(k: int, o: Options, v0: LayerView, zoom: real, c: Rgb)
      reads this`layerOptions, this`colors, this`speedMult, layers
    {
      0 <= k < |layers| == |layerOptions| &&
      FullyReset(o, v0, zoom, c, layerOptions[k], layers[k].View(), speedMult) &&
      k in colors && colors[k] == c
    }

    /** Every layer as src/common.js sees it, in order. */
    ghost function Views(): (r: seq<LayerView>)
      reads layers
      ensures |r| == |layers| && forall k :: 0 <= k < |layers| ==> r[k] == layers[k].View()
    {
      var ls := layers;
      seq(|ls|, k requires 0 <= k < |ls| reads ls => ls[k].View())
    }

    /** Every layer has been fully reset from the entries `o0` and the views `v0`, layer `k`
        with zoom `zooms[k]` and colour `tints[k]`. */
    ghost predicate AllFullReset(o0: seq<Options>, v0: seq<LayerView>, zooms: seq<real>, tints: seq<Rgb>)
      reads this`layerOptions, this`colors, this`speedMult, layers
    {
      var vs := Views();
      |o0| == |vs| && |v0| == |vs| && |zooms| == |vs| && |tints| == |vs| && |layerOptions| == |vs| &&
      forall k :: 0 <= k < |vs| ==>
        FullyReset(o0[k], v0[k], zooms[k], tints[k], layerOptions[k], vs[k], speedMult) &&
        k in colors && colors[k] == tints[k]
    }

    /** The callback `restart` runs for layer `k`: `fullResetLayer(layers[k])`. Split from
        `FullResetAll` so that each step of its loop reasons about one layer; it is not a
        function of the source. */
    method FullResetAt(k: nat, zoom: real, c: Rgb)
      requires Ready() && k < |layers| && speedMult.Some?
      modifies this`layerOptions, this`colors, this`colorsLength, rng, {layers[k]}`options,
               {layers[k]}`viewBlending, {layers[k]}`passBlending, {layers[k]}`zoom, {layers[k]}`noiseZoom,
               {layers[k]}`noiseOffset, {layers[k]}`noiseSpeed, {layers[k]}`resets, {layers[k]}`uSpeed,
               {layers[k]}`color
      ensures Ready()
      ensures SlotFullReset(k, old(layerOptions[k]), old(layers[k].View()), zoom, c)
      ensures forall t :: 0 <= t < |layers| && t != k ==> layerOptions[t] == old(layerOptions[t])
      ensures forall t :: t != k && t in old(colors) ==> t in colors && colors[t] == old(colors)[t]
      ensures forall t :: 0 <= t < |layers| && t != k ==> layers[t].View() == old(layers[t].View())
    {
      IndexOfDistinct(layers, k);
      var out := FullResetLayer(layers[k], zoom, c);
      forall t | 0 <= t < |layers| && t != k
        ensures layers[t].View() == old(layers[t].View())
      {
        assert layers[t] != layers[k];
      }
    }

    /** The loop of `restart()` (split from `Restart` to keep its proof small; it is not a
        function of the source): every layer is fully reset, layer `k` with zoom `zooms[k]` and
        colour `tints[k]`, from the entries `o0` and the views `v0` the layers have on entry. */
    method FullResetAll(zooms: seq<real>, tints: seq<Rgb>, ghost o0: seq<Options>, ghost v0: seq<LayerView>)
      requires Ready() && speedMult.Some?
      requires o0 == layerOptions && v0 == Views() && |zooms| == |layers| && |tints| == |layers|
      modifies this`layerOptions, this`colors, this`colorsLength, layers, rng
      ensures Ready()
      ensures AllFullReset(o0, v0, zooms, tints)
    {
      var k := 0;
      while k < |layers|
        invariant 0 <= k <= |layers| && Ready()
        invariant forall t :: 0 <= t < k ==> SlotFullReset(t, o0[t], v0[t], zooms[t], tints[t])
        invariant forall t :: k <= t < |layers| ==> layerOptions[t] == o0[t] && layers[t].View() == v0[t]
      {
        FullResetAt(k, zooms[k], tints[k]);
        k := k + 1;
      }
    }

    /** The tail of `restart()`: the frame counter and the change counter start again from zero
        and the next callback is scheduled; the layers stay as the resets left them. Split from
        `Restart` to keep its proof small; it is not a function of the source. */
    method Recount(ghost o0: seq<Options>, ghost v0: seq<LayerView>, ghost zooms: seq<real>, ghost tints: seq<Rgb>)
      requires Valid() && AllFullReset(o0, v0, zooms, tints)
      modifies this`uFrame, this`numChanges, this`callbacks
      ensures Valid() && AllFullReset(o0, v0, zooms, tints)
      ensures uFrame == 0.0 && numChanges == 0
      ensures callbacks == old(callbacks) + [if LessThan(0, maxChanges) then Change else PauseThenRestart]
    {
      ghost var vs := Views();
      uFrame := 0.0;
      numChanges := 0;
      ScheduleChange();
      assert Views() == vs;
    }

    /** `restart()`: the pause is lifted, absent options are filled in, every layer is fully
        reset, the frame counter and the change counter start again from zero, and the next
        callback is scheduled. */
    method Restart(zooms: seq<real>, tints: seq<Rgb>)
      requires Valid() && |zooms| == |tints| == |layers|
      modifies this`paused, this`speedMult, this`snapBlending, this`maxChanges, this`layerOptions,
               this`colors, this`colorsLength, this`uFrame, this`numChanges, this`callbacks, layers, rng
      ensures Valid()
      ensures paused == !old(paused) && uFrame == 0.0 && numChanges == 0
      ensures maxChanges.Some? && speedMult.Some? && snapBlending.Some?
      ensures callbacks == old(callbacks) + [if LessThan(0, maxChanges) then Change else PauseThenRestart]
      ensures AllFullReset(old(layerOptions), old(Views()), zooms, tints)
    {
      ghost var o0, v0 := layerOptions, Views();
      paused := !paused;
      InitOptions();
      FullResetAll(zooms, tints, o0, v0);
      Recount(o0, v0, zooms, tints);
    }

    /** `core` runs the scheduled callback `k`: a change, which never takes the count past
        `maxChanges`, or the pause, which sets the restart timer. */
    method FireScheduled(k: nat)
      requires Valid() && k < |callbacks|
      modifies this`numChanges, this`layerOptions, this`callbacks, this`paused, this`restarts, layers, rng
      ensures Valid()
      ensures old(callbacks[k]) == Change ==>
        numChanges == old(numChanges) + 1 && maxChanges.Some? && old(numChanges) as real < maxChanges.value
      ensures old(callbacks[k]) == Change && maxChanges.value == maxChanges.value.Floor as real ==>
        numChanges as real <= maxChanges.value
      ensures old(callbacks[k]) == Change ==> forall t :: 0 <= t < |layers| ==>
        SlotChanged(t, old(layerOptions[t]), old(layers[t].options), false, 0.0)
      ensures old(callbacks[k]) == Change ==>
        callbacks == (if maxChanges.Some? && maxChanges.value > 0.0
                      then [if LessThan(numChanges, maxChanges) then Change else PauseThenRestart]
                      else [])
      ensures old(callbacks[k]) == Change ==> paused == old(paused) && restarts == old(restarts)
      ensures old(callbacks[k]) == PauseThenRestart ==>
        paused == !old(paused) && restarts == old(restarts) + 1 &&
        numChanges == old(numChanges) && callbacks == old(callbacks) &&
        layerOptions == old(layerOptions) && Views() == old(Views())
    {
      if callbacks[k] == Change {
        assert Change in callbacks;
        ghost var before := numChanges;
        assert before as real < maxChanges.value;
        if maxChanges.value == maxChanges.value.Floor as real {
          assert before < maxChanges.value.Floor;
        }
        ChangeCB();
      } else {
        paused := !paused;
        restarts := restarts + 1;
      }
    }

    /** The restart timer fires; layer `k` is reset with zoom `zooms[k]` and colour `tints[k]`. */
    method FireRestart(zooms: seq<real>, tints: seq<Rgb>)
      requires Valid() && restarts > 0 && |zooms| == |tints| == |layers|
      modifies this`paused, this`speedMult, this`snapBlending, this`maxChanges, this`layerOptions,
               this`colors, this`colorsLength, this`uFrame, this`numChanges, this`callbacks,
               this`restarts, layers, rng
      ensures Valid()
      ensures restarts == old(restarts) - 1 && paused == !old(paused) && numChanges == 0 && uFrame == 0.0
      ensures maxChanges.Some? && speedMult.Some? && snapBlending.Some?
      ensures callbacks == old(callbacks) + [if LessThan(0, maxChanges) then Change else PauseThenRestart]
      ensures AllFullReset(old(layerOptions), old(Views()), zooms, tints)
    {
      restarts := restarts - 1;
      Restart(zooms, tints);
    }
  }
}
