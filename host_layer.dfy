/** The layer object the sketch's orchestration code drives (src/index.js and src/common.js
    import it from the fxhash_lib library, which is not part of this model). It is taken to add
    strokes and merge options exactly as src/FluidLayer.js does; of its `clear()` and `reset()`
    only that they ran is recorded, and of its materials the settings src/common.js writes. */
module HostLayers {
  import opened Js
  import opened FluidStrokes

  /** What src/common.js sets on a layer and reads back: its options, the blend modes of its
      two materials, the pass uniforms it writes, its colour and how often it was reset. */
  datatype LayerView = LayerView(
    options: Options, viewBlending: Option<real>, passBlending: Option<real>, zoom: Option<real>,
    noiseZoom: Option<real>, noiseOffset: Option<Vec2>, noiseSpeed: Option<Vec2>,
    uSpeed: seq<real>, color: Vec4, resets: nat)

  class HostLayer {
    var strokes: seq<FluidStroke>
    var options: Options
    var color: Vec4
    /** Calls of `clear()` and of `reset()` so far. */
    var clears: nat
    var resets: nat
    /** `material.blending`, `fluidPass.material.blending` and the pass uniforms `uZoom`,
        `uNoiseZoom`, `uNoiseOffset`, `uNoiseSpeed` and `uSpeed`. */
    var viewBlending: Option<real>
    var passBlending: Option<real>
    var zoom: Option<real>
    var noiseZoom: Option<real>
    var noiseOffset: Option<Vec2>
    var noiseSpeed: Option<Vec2>
    var uSpeed: seq<real>

    constructor (options: Options)
      ensures strokes == [] && this.options == options
      ensures clears == 0 && resets == 0 && uSpeed == []
    {
      strokes := [];
      this.options := Assign(map[], options);
      color := Zero4;
      clears := 0;
      resets := 0;
      viewBlending := None;
      passBlending := None;
      zoom := None;
      noiseZoom := None;
      noiseOffset := None;
      noiseSpeed := None;
      uSpeed := [];
    }

    /** The layer as src/common.js sees it. */
    ghost function View(): LayerView
      reads this`options, this`viewBlending, this`passBlending, this`zoom, this`noiseZoom,
            this`noiseOffset, this`noiseSpeed, this`uSpeed, this`color, this`resets
    {
      LayerView(options, viewBlending, passBlending, zoom, noiseZoom, noiseOffset, noiseSpeed,
                uSpeed, color, resets)
    }

    /** `addStroke(stroke)`: refused once there are `numStrokes` strokes, else appended. */
    method AddStroke(stroke: FluidStroke) returns (added: bool)
      modifies this`strokes
      ensures added <==> !AtLeast(|old(strokes)|, Get(options, "numStrokes"))
      ensures strokes == if added then old(strokes) + [stroke] else old(strokes)
    {
      if AtLeast(|strokes|, Get(options, "numStrokes")) {
        return false;
      }
      strokes := strokes + [stroke];
      added := true;
    }

    /** `setOptions(options)`: the options are merged into the layer's. */
    method SetOptions(o: Options)
      modifies this`options
      ensures options == Assign(old(options), o)
    {
      options := Assign(options, o);
    }

    /** `clear()` */
    method Clear()
      modifies this`clears
      ensures clears == old(clears) + 1
    {
      clears := clears + 1;
    }

    /** `reset()` */
    method Reset()
      modifies this`resets
      ensures resets == old(resets) + 1
    {
      resets := resets + 1;
    }
  }
}
