/** The option records src/common.js draws when the sketch changes: the four fluid parameters
    of `fluidOptions`, the full layer record of `initLayerOptions`, and what merging them into a
    layer's options keeps and replaces. Draws read the shared stream from a given sample on. */
module ChangeOptions {
  import opened Js
  import opened FxRand

  /** The keys `fluidOptions` produces. */
  const FluidKeys: set<string> := {"dt", "K", "nu", "kappa"}

  /** The keys `initLayerOptions` produces besides the fluid ones (its boolean `visible` is not
      part of this model). */
  const LayerKeys: set<string> := {"blendModePass", "blendModeView", "zoom"}

  /** The four fluid parameters lie in the ranges `fluidOptions` draws from. */
  predicate FluidInRange(o: Options, minDt: real, maxDt: real) {
    FluidKeys <= o.Keys &&
    (minDt <= maxDt ==> minDt <= o["dt"] <= maxDt) &&
    0.2 <= o["K"] <= 0.7 && 0.4 <= o["nu"] <= 0.6 && 0.1 <= o["kappa"] <= 1.0
  }

  /** `fluidOptions(layerOpts, i)`: four draws from sample `k` on; no validation loop, and the
      layer's own options play no part. */
  function FluidOptions(minDt: real, maxDt: real, s: Stream, k: nat): (o: Options)
    requires Uniform(s)
    ensures o.Keys == FluidKeys
    ensures FluidInRange(o, minDt, maxDt)
  {
    map["dt" := Num(minDt, maxDt, s(k)), "K" := Num(0.2, 0.7, s(k + 1)),
        "nu" := Num(0.4, 0.6, s(k + 2)), "kappa" := Num(0.1, 1.0, s(k + 3))]
  }

  /** `initLayerOptions(i)`: the pass blend mode from {0, 1}, the view blend mode from {2, 5},
      the zoom (drawn from an exponential distribution, supplied here as `zoom` and taking
      sample `k + 2`), then the fluid parameters from sample `k + 3` on. */
  function InitLayerOptions(minDt: real, maxDt: real, zoom: real, s: Stream, k: nat): (o: Options)
    requires Uniform(s)
    ensures o.Keys == FluidKeys + LayerKeys
    ensures o["blendModePass"] in {0.0, 1.0} && o["blendModeView"] in {2.0, 5.0}
    ensures o["zoom"] == zoom
    ensures FluidInRange(o, minDt, maxDt)
  {
    var pass := Choice([0.0, 1.0], s(k)).value;
    var view := Choice([2.0, 5.0], s(k + 1)).value;
    Assign(map["blendModePass" := pass, "blendModeView" := view, "zoom" := zoom],
           FluidOptions(minDt, maxDt, s, k + 3))
  }

  /** `after` is `before` with the keys `changed` written: every other key keeps its value. */
  predicate Rewrote(before: Options, after: Options, changed: set<string>) {
    after.Keys == before.Keys + changed &&
    forall key :: key in before && key !in changed ==> after[key] == before[key]
  }
}
