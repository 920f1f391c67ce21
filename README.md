# Fluid noise sketch: a verified model of its stroke, layer and scheduling logic

This project models the core of a generative "fluid noise" sketch in Dafny. The sketch is a
JavaScript program built on three.js and the fxhash library.

The sketch stacks a few fluid simulation layers. Each layer is stirred by a handful of *strokes*.
A stroke is a point that eases towards a target. Every frame it writes its position, velocity and
strength into the per-slot uniform arrays of a fluid pass. The pass is drawn from one render
target into the other, and then the two targets swap.

Around this sits the orchestration:
- Option records are drawn at random and validated.
- A layer's strokes are random, or copied and reflected from the first layer's strokes.
- A click resets or regenerates the layers, or asks for a new "cell". A timer repeats the cell
  request until `maxCells` cells exist.
- A change cycle re-draws the fluid parameters every seven seconds. After `maxChanges` changes it
  pauses, then restarts with every layer fully reset.

The model has one module per part of the program:

| module | models |
|---|---|
| `FluidStrokes` | `FluidStroke` (src/FluidStroke.js): value functions `Advanced`, `MirroredX`, `MirroredY`, `Mirrored`, `ResetState` and `Cloned`, plus a class whose methods update the fields in place and are proved against those functions |
| `FluidPointers` | `FluidPointer` (src/FluidPointer.js) |
| `FluidUniforms` | what the layer and the controller share: the fallback defaults of the fluid parameters, the neutral slot loop, the strength clamp, the single-slot write and the two-draw frame |
| `FluidLayers` | `FluidLayer` (src/FluidLayer.js) as a class over its strokes, uniform records and ping-pong targets |
| `FluidControllers` | `FluidController` (src/FluidController.js) |
| `Config` | the selection tables and choices of src/config.js |
| `SketchOptions` | `validateOptions` and the draw-until-valid loop `generateOptions` of src/index.js |
| `Sketches` | the rest of src/index.js: layers, strokes, reset, regenerate, cells and clicks |
| `ChangeOptions` | the option builders of src/common.js |
| `ChangeCycles` | the change scheduler of src/common.js |
| `HostLayers` | the library layer that src/index.js and src/common.js drive |
| `Js`, `FxRand`, `Gpu` | the JavaScript values, the seeded random source and the three.js objects, reduced to what the sketch observes |

Some modelling choices:
- **Randomness.** It is a fixed stream of samples in [0, 1) with a cursor. Every draw consumes the
  next sample, so each operation's contract also states how many draws it makes.
- **Timers and `core.schedule`.** They are explicit events: `FireCellTimer`, `FireScheduled` and
  `FireRestart`.
- **Render targets.** They are objects compared by identity. Materials are records of sequences.
- **`Vector2.length`.** It is a parameter `norm`, assumed only to be nonnegative.
- **Exceptions.** A call that throws in the source returns `Fail(TypeError(...))`, with the state
  the source would have left. Examples: a missing method, an undefined array slot, a layer that is
  not in the list.

## Model

| member | source | states |
|---|---|---|
| FluidStrokes.FluidStroke.constructor | src/FluidStroke.js:5-20 | `start`, `target`, `pos` and `last` are all (x, y); no motion, not pressed, zero `delta`; the speed is never zero and equals the argument when that is given and nonzero (else 0.07) |
| FluidStrokes.Advanced | src/FluidStroke.js:22-24 | `update` changes only `pos`; the gap to the target on each axis is multiplied by `1 - speed`; for a speed in [0, 1] each coordinate lands between its old value and the target's |
| FluidStrokes.AdvanceByCoordinate | src/FluidStroke.js:22-24 | any number of `update` calls changes nothing but `pos`, and each axis moves independently of the other |
| FluidStrokes.AdvanceGap | src/FluidStroke.js:22-24 | after n updates the gap to the target is `(1 - speed)^n` times the starting gap, on each axis |
| FluidStrokes.AdvanceNeverOvershoots | src/FluidStroke.js:22-24 | for a speed in [0, 1], no number of updates carries `pos` past the target or away from it |
| FluidStrokes.MirrorsAreInvolutions | src/FluidStroke.js:26-48 | `mirrorX`, `mirrorY` and `mirror` each undo themselves; none of them changes `delta`, `speed`, `isDown` or `isMove` |
| FluidStrokes.MirrorIsBothReflections | src/FluidStroke.js:26-48 | `mirror` is `mirrorX` followed by `mirrorY`, in either order |
| FluidStrokes.ResetProperties | src/FluidStroke.js:50-53 | after `reset`, `pos` and `last` equal `start`; `start` and `target` are kept; a second reset changes nothing |
| FluidStrokes.CloneProperties | src/FluidStroke.js:55-63 | a clone equals its original except that `delta` is zero and a zero speed becomes 0.07 |
| FluidStrokes.FluidStroke.Update | src/FluidStroke.js:22-24 | the in-place update leaves exactly the state `Advanced` gives for the old state |
| FluidStrokes.FluidStroke.MirrorX | src/FluidStroke.js:26-32 | reflects the four points in place as `MirroredX` does, and returns the same object |
| FluidStrokes.FluidStroke.MirrorY | src/FluidStroke.js:34-40 | reflects the four points in place as `MirroredY` does, and returns the same object |
| FluidStrokes.FluidStroke.Mirror | src/FluidStroke.js:42-48 | reflects the four points in place as `Mirrored` does, and returns the same object |
| FluidStrokes.FluidStroke.Reset | src/FluidStroke.js:50-53 | the new state is `ResetState` of the old one |
| FluidStrokes.FluidStroke.Clone | src/FluidStroke.js:55-63 | returns a freshly allocated stroke (later changes to it cannot reach the original) whose state is `Cloned` of the original's |
| FluidPointers.PointerCreated | src/FluidPointer.js:5-23 | a new pointer has all four points at (x, y), no motion, zero `delta` and no speed property |
| FluidPointers.PointerResetProperties | src/FluidPointer.js:25-28 | `reset` puts `pos` and `last` at `start`, changes nothing else, and is idempotent |
| FluidPointers.FluidPointer.constructor | src/FluidPointer.js:5-23 | builds exactly `PointerCreated(x, y)`; there is no speed parameter |
| FluidPointers.FluidPointer.Reset | src/FluidPointer.js:25-28 | the new state is `PointerReset` of the old one |
| FluidUniforms.FluidFromOptions | src/FluidLayer.js:30-38 | each fluid parameter is the option's value when present and nonzero, else its default 0.15 / 0.2 / 0.5 / 0.1; none is ever zero |
| FluidUniforms.NeutralSlots | src/FluidLayer.js:66-72 | every slot below the bound (a whole count of loop passes, none for an undefined bound) gets `uMouse = uLast = (0.5, 0.5)` and zero velocity and strength; later slots and the other uniforms are kept |
| FluidUniforms.Strength | src/FluidLayer.js:177-182 | both components lie in [0, 50]; a pressed stroke has x = 50; otherwise x = y; y is 50 exactly from a movement of 10 on, and 0 for no movement |
| FluidUniforms.Stamped | src/FluidLayer.js:179-182 | slot i takes the old `uMouse[i]` as `uLast` and the new mouse, velocity and strength; every other slot, the blending, the texture and the parameters are unchanged |
| FluidUniforms.DrawFrame | src/FluidLayer.js:151-159 | one draw goes into target B; the view then reads B and the colour; the mesh ends on the view material and the renderer on the screen |
| FluidLayers.Tracked | src/FluidLayer.js:170-174 | after `updateStroke`'s own steps, `pos` and `last` are the advanced position and `delta` is that position minus the old `last`; nothing else changes |
| FluidLayers.TrackedAtRest | src/FluidLayer.js:170-174 | a stroke resting on its target with no pending motion stays put and records zero movement |
| FluidLayers.FluidLayer.constructor | src/FluidLayer.js:13-28 | no strokes, a 1x1 size, the options merged in with their fluid parameters, white, two distinct fresh 1x1 targets, and neutral slots below `numStrokes` |
| FluidLayers.FluidLayer.SetOptions | src/FluidLayer.js:30-38 | the options are merged into the layer's, and the fluid parameters come from the argument alone, with their defaults |
| FluidLayers.FluidLayer.InitUniforms | src/FluidLayer.js:66-74 | every slot below `numStrokes` is neutral, later slots are kept, and the view colour is zero |
| FluidLayers.FluidLayer.AddStroke | src/FluidLayer.js:118-124 | the stroke is appended, with true returned, exactly when fewer than `numStrokes` strokes exist; otherwise nothing changes; a list within capacity stays within it |
| FluidLayers.FluidLayer.Resize | src/FluidLayer.js:126-137 | stores the size, gives both targets the device-pixel size, and puts a mouse stroke's `pos` and `last` at (0.5, 0.5) |
| FluidLayers.FluidLayer.SwapRenderTargets | src/FluidLayer.js:164-168 | A and B exchange places |
| FluidLayers.FluidLayer.UpdateStroke | src/FluidLayer.js:170-183 | the stroke's new state is `Tracked` of its old one; the pass is `Stamped` at slot i with the Y-flipped position, the pixel velocity and its clamped strength; a missing slot throws with the pass unchanged |
| FluidLayers.FluidLayer.UpdateStrokes | src/FluidLayer.js:140-142 | it succeeds exactly when the arrays have a slot for every stroke; every stroke has then advanced once and its slot holds what `updateStroke` writes; later slots are kept |
| FluidLayers.FluidLayer.AdvanceStrokes | src/FluidLayer.js:140-149 | the stroke loop, then the pass reads target A and the current fluid parameters and keeps its blending |
| FluidLayers.FluidLayer.Update | src/FluidLayer.js:139-162 | on success the pass read the old A, one draw went into the old B, the view reads the old B and the colour, and A and B are swapped once; both materials keep their blending and the mesh ends on the view material; it fails exactly when a slot is missing or there is no mesh |
| FluidControllers.PointerMouseIsNormalisedFlip | src/FluidController.js:158 | a pointer's `uMouse` is its pixel position divided by the size and then Y-flipped, as a stroke's is |
| FluidControllers.PointerTracked | src/FluidController.js:152-153 | `delta = pos - last` and `last = pos`; nothing else changes |
| FluidControllers.PointerSlot | src/FluidController.js:152-160 | slot i takes the old `uMouse[i]` as `uLast`, the normalised Y-flipped position, the raw delta as velocity, and `Strength(isDown, |delta|)` as strength (in [0, 50], x = 50 when pressed); every other slot of all four arrays, the blending, the texture and the fluid parameters are kept |
| FluidControllers.FluidController.constructor | src/FluidController.js:12-26 | no pointers, a 1x1 size, the options merged in, white, two distinct fresh targets, and neutral slots below `numPointers` |
| FluidControllers.FluidController.SetOptions | src/FluidController.js:28-36 | merged options; fluid parameters from the argument with the defaults 0.15 / 0.2 / 0.5 / 0.1 |
| FluidControllers.FluidController.InitUniforms | src/FluidController.js:58-66 | every slot below `numPointers` is neutral, later slots are kept, and the view colour is zero |
| FluidControllers.FluidController.AddPointer | src/FluidController.js:110-118 | nothing is returned or changed once there are `numPointers` pointers; otherwise a fresh pointer at `(x * width, y * height)` is appended and returned; the speed is dropped |
| FluidControllers.FluidController.SetPointer | src/FluidController.js:120-129 | nothing for an index with no pointer; otherwise only that pointer's speed, target `(x * width, y * height)` and pressed flag change, and it is returned |
| FluidControllers.FluidController.Resize | src/FluidController.js:135-146 | stores the size, resizes both targets, and centres a mouse pointer at `(width / 2, height / 2)` with `last = pos` |
| FluidControllers.FluidController.Update | src/FluidController.js:148-181 | with any pointer, the missing `pointer.update` throws before anything changes; with none, the pass reads A, one draw goes into B, the view reads B, and A and B swap once |
| Config.Included | src/config.js:77-79 | the keys kept are exactly those flagged `true`, in the table's own key order |
| Config.Chosen | src/config.js:77-80 | a choice is a key flagged `true`; there is no choice only when no key is enabled |
| Config.SaveName | src/config.js:81 | the save name is `fluid_` followed by the composition |
| Config.OnlyCells | src/config.js:76-83 | with the shipped table (lines 25-31) every draw yields `cells` |
| Config.Settings.constructor | src/config.js:7-9 | the settings carry no save name before a composition is chosen |
| Config.ChooseComposition | src/config.js:76-83 | one draw; the result is an enabled composition, in fact `cells`, and `settings.saveName` records it |
| Config.ChoosePalette | src/config.js:85-90 | one draw; the result is always one of the enabled palettes |
| Js.IndexOf | src/index.js:195 | `indexOf` finds the first occurrence, and gives -1 exactly when the element is absent |
| Js.IndexOfDistinct | src/index.js:195 | in a list without repeats a layer is found at its own position |
| Js.Assign | src/index.js:196 | `Object.assign` keeps the target's keys, adds the source's, and source values win |
| Js.OrDefault | src/FluidStroke.js:19 | the `or` default of a property is its value when defined and nonzero, else the default `d`; it is never zero when `d` is not |
| Js.SlotCount | src/FluidLayer.js:67 | the number of passes of `i < v` is the least whole number not below `v` (zero when `v` is undefined) |
| Js.Put | src/common.js:179 | an index write replaces that slot, or grows the array by one at its end; other slots are kept |
| Js.BelowCapacity | src/FluidLayer.js:118-124 | a refused capacity test leaves room for one more element |
| HostLayers.HostLayer.constructor | src/index.js:134-139 | a new library layer holds the options it is given and no strokes |
| HostLayers.HostLayer.AddStroke | src/index.js:174 | the library layer's `addStroke` appends exactly when fewer than `numStrokes` strokes exist |
| HostLayers.HostLayer.SetOptions | src/index.js:197 | the options are merged into the layer's |
| HostLayers.HostLayer.Clear | src/index.js:179 | one more `clear()` |
| HostLayers.HostLayer.Reset | src/common.js:171 | one more `reset()` |
| SketchOptions.AsOptions | src/index.js:206-213 | the record drawn becomes an options object with exactly its six keys and values |
| SketchOptions.ValidateOptions | src/index.js:218-223 | false exactly for pass mode 4 with view mode 4; `dt` and the layer index play no part |
| SketchOptions.KeyOfFourFour | src/index.js:219-221 | only the pair (4, 4) spells the key `4-4` |
| SketchOptions.Attempt | src/index.js:204-213 | pass mode in 0..4 for a later layer and 0..5 for the first; view mode 2 for `cells`, else in 2..3 after pass mode 3 and 2..5 otherwise; `dt` in `[minDt[pass], 1]`; K, nu and kappa in their ranges |
| SketchOptions.GenerateOptions | src/index.js:200-216 | the result is the first attempt the validator accepts, every earlier attempt refused and `next` just past it; `None` means every attempt of the budget was refused; whatever it returns is valid and in range; for `cells` the first attempt is accepted, after five draws |
| SketchOptions.GeneratedNeverFourFour | src/index.js:203-215 | no record the validator accepts has the blend key `4-4` |
| Sketches.SpeedDraw | src/index.js:182 | a drawn speed lies in `[minSpeed, maxSpeed] * speedMult` |
| Sketches.ShippedSpeeds | src/config.js:17-19 | with the shipped options every drawn speed lies in [0.001, 0.01] |
| Sketches.Related | src/index.js:162-172 | a stroke exists exactly for `same`, `mirror`, `mirrorX`, `mirrorY` and a falsy name; it keeps the flags, has zero `delta`, and has the clone's speed; any other name counts as one that is not a method of the stroke |
| Sketches.RelatedUndoes | src/index.js:166-170 | reflecting a related stroke back gives the plain clone of the first layer's stroke |
| Sketches.LayerOptionsFor | src/index.js:134-139 | a new layer's options are its drawn options plus `numStrokes` (giving exactly that many slots) and `maxIterations` |
| Sketches.RelatedStroke | src/index.js:162-172 | the method returns a fresh stroke whose state is what `Related` gives, or nothing exactly when `Related` gives none |
| Sketches.Sketch.constructor | src/vars.js:19 | no layers; no cells yet; timer id -1 |
| Sketches.Sketch.SetLayerColor | src/index.js:190-192 | the layer colour is the colour scaled by 256, with `colorW` as w |
| Sketches.Sketch.RegenerateLayer | src/index.js:194-198 | the layer's entry is merged with a valid, in-range record drawn for its own index, and the layer takes it; every other entry is kept; a layer not in the list throws after the draws |
| Sketches.Sketch.RegenerateAt | src/index.js:323-325 | layer k is regenerated with a record for index k; the other layers and entries are unchanged |
| Sketches.Sketch.RegenerateAll | src/index.js:367-372 | every layer is regenerated with a valid record drawn for its own index |
| Sketches.Sketch.CreateLayer | src/index.js:132-143 | a fresh layer, over the options pushed for it, is appended with the second colour; no layer is listed twice |
| Sketches.Sketch.RandomStroke | src/index.js:149-156 | a random stroke rests at a point of the unit square, aims at another, has no motion, and has a speed in range |
| Sketches.Sketch.MakeStroke | src/index.js:148-173 | slot j of layer i gets a random stroke or what the relation makes of the first layer's stroke j; a missing source stroke or a relation name that is not a method of the stroke throws |
| Sketches.Sketch.CreateStrokes | src/index.js:145-176 | a new layer gets exactly `numStrokes` fresh strokes, slot by slot as `StrokeFits` says; when it throws, the reason is named |
| Sketches.Sketch.AppendStroke | src/index.js:174 | a stroke made for slot j is appended while the layer is below capacity; earlier strokes and the source strokes are untouched |
| Sketches.Sketch.AddLayer | src/index.js:122-130 | options for the next index are pushed, and a layer with `numStrokes` strokes related to the first layer's is appended |
| Sketches.Sketch.BuildLayer | src/index.js:128-129 | `createLayer` and then `createStrokes` for the new index |
| Sketches.Sketch.PushOptions | src/index.js:124 | a valid, in-range record drawn for the next index is pushed; for `cells` this always happens |
| Sketches.Sketch.ResetLayer | src/index.js:178-188 | one more clear; the layer is regenerated for its own index; every stroke is back at its start with a speed in range; the new colour is set |
| Sketches.Sketch.Refresh | src/index.js:181-187 | new stroke speeds, then the colour; options and clears are kept |
| Sketches.Sketch.RespeedStrokes | src/index.js:181-185 | every stroke is reset with a speed in range; nothing else changes |
| Sketches.Sketch.ResetAt | src/index.js:363-365 | layer k is cleared once more, its entry is regenerated for index k and handed to it, every one of its strokes is back at its start with a new speed in range, and it takes its colour; the entries, clears, colours and options of the other layers are unchanged |
| Sketches.Sketch.ResetAll | src/index.js:362-366 | every layer is cleared once more, takes its own colour, and its entry is regenerated with a valid in-range record for its own index and handed to it |
| Sketches.Sketch.CreateCell | src/index.js:319-326 | exactly one more cell, and every layer regenerated |
| Sketches.Sketch.RequestCell | src/index.js:328-339 | a set timer creates a cell, which regenerates every layer with a valid record for its own index; with no timer set the options are untouched; a new timer, with a delay in [500, 7000], is pending exactly while there are fewer than `maxCells` cells |
| Sketches.Sketch.FireCellTimer | src/index.js:334 | the timer creates one more cell, never passing `maxCells`, and every layer is regenerated with a valid record for its own index |
| Sketches.Sketch.OnClick | src/index.js:357-377 | `addnew` appends a fresh layer over a valid new entry, with the second colour and `strokesPerLayer` strokes that fit the relation; `reset` clears, recolours and regenerates every layer; `regenerate` regenerates every layer; `cells` requests a cell, which regenerates every layer when a timer was set; any other composition changes no layer or entry and draws nothing |
| ChangeOptions.FluidOptions | src/common.js:75-86 | exactly the keys `dt`, `K`, `nu` and `kappa`; `dt` in `[minDt, maxDt]`, K in [0.2, 0.7], nu in [0.4, 0.6], kappa in [0.1, 1.0] |
| ChangeOptions.InitLayerOptions | src/common.js:49-62 | pass mode in {0, 1}, view mode in {2, 5}, the zoom, and the fluid parameters in range |
| ChangeCycles.ChangeCycle.constructor | src/common.js:20 | no changes yet and nothing scheduled |
| ChangeCycles.ChangeCycle.InitOptions | src/common.js:35-47 | an absent `speedMult` is drawn in [0.1, 10]; an absent `snapBlending` becomes subtractive; an absent `maxChanges` is a whole number in 5..9; present options are kept |
| ChangeCycles.ChangeCycle.ScheduleChange | src/common.js:131-141 | a change is scheduled while fewer than `maxChanges` changes have happened, else the pause that leads to a restart |
| ChangeCycles.ChangeCycle.SetFluidLayerOptions | src/common.js:99-116 | the layer takes its entry, blend modes and zoom, a noise zoom in [100, 2000], a noise offset in [0, 1000]² and the fixed noise speed |
| ChangeCycles.ChangeCycle.DrawChange | src/common.js:49-86 | merged into any entry, the drawn record replaces the fluid parameters (and for a full re-draw the blend modes and zoom) and keeps every other key |
| ChangeCycles.ChangeCycle.ChangeLayerOptions | src/common.js:64-73 | only the layer's own entry changes, as `DrawChange` says, and the layer takes it; a layer not in the list throws |
| ChangeCycles.ChangeCycle.ChangeLayerSpeed | src/common.js:176-181 | slots below `numStrokes` get speeds in `[minSpeed, maxSpeed] * speedMult`; later slots are kept |
| ChangeCycles.ChangeCycle.SetLayerColor | src/common.js:189-195 | the colour at the layer's index, or `colors[1]` past the end, with `colorW` as w; a missing colour throws |
| ChangeCycles.ChangeCycle.ChangeLayerColor | src/common.js:183-187 | the new colour is written at the layer's index, the array grows to hold it, and the layer takes it |
| ChangeCycles.ChangeCycle.FullResetLayer | src/common.js:169-174 | a full new entry, one more library reset, speeds in range for every stroke slot, and the new colour |
| ChangeCycles.ChangeCycle.Refit | src/common.js:171-173 | the reset, the speeds and the colour; the entries are kept |
| ChangeCycles.ChangeCycle.ChangeAt | src/common.js:147-149 | layer k gets new fluid parameters; every other layer and entry is unchanged |
| ChangeCycles.ChangeCycle.ChangeCB | src/common.js:143-154 | one more change; new fluid parameters for every layer; the callbacks are dropped and the next is scheduled only when `maxChanges` is positive |
| ChangeCycles.ChangeCycle.FullResetAt | src/common.js:159 | layer k is fully reset; the other layers, entries and colours are unchanged |
| ChangeCycles.ChangeCycle.FullResetAll | src/common.js:159 | every layer is fully reset from the state it had on entry |
| ChangeCycles.ChangeCycle.Recount | src/common.js:160-166 | the frame and change counters are zero and the next callback is scheduled; the layers are kept |
| ChangeCycles.ChangeCycle.Restart | src/common.js:156-167 | the pause flips; absent options are filled; every layer is fully reset; both counters are zero; the next callback is scheduled |
| ChangeCycles.ChangeCycle.FireScheduled | src/common.js:131-141 | a scheduled change runs only below `maxChanges`, adds one (never passing a whole `maxChanges`), re-draws every layer's fluid options, and replaces the callbacks with the next one (with none when `maxChanges` is not positive); the pause flips the pause flag, sets a restart timer, and changes no layer |
| ChangeCycles.ChangeCycle.FireRestart | src/common.js:138 | the restart timer fires: the sketch resumes with both counters at zero, absent options filled in, every layer fully reset with its own zoom and tint, and the next callback scheduled |

## Left out

- Rendering: three.js and GPU internals (shaders, textures, pixels, `FullScreenQuad`, `FullScreenLayer`, `MaterialFBO`, `FluidPass`) are not modelled. Render targets keep only their size and identity; a material keeps the uniforms the sketch writes.
- Scene setup: `setup`, `createScene`, the `box` composition, the history buffer of `cells`, `draw`, and `createMesh` are not modelled.
- Event wiring: `initMouseStroke`, `initMousePointer`, `addEventListeners`, `onKeyDown`, `onResize` and `onDblClick` are DOM wiring and are not modelled.
- Global setup: `initVars` (src/vars.js and src/common.js:9-33) draws the palette, colours, layer count, stroke count and `colorW`. These are constructor parameters here.
- Other common.js helpers: `updateLayer`, `resetLayers` and `takeSnapshot` are not modelled. `options.snapOverlay` is never set in the sketch, so the snapshot branches of `changeCB` and `restart` never run.
- Random values: fxhash_lib/random is not part of this model. `num`, `int`, `bool` and `choice` map one sample by the usual affine rule, and the proofs rely only on the resulting ranges.
- The exponential draws of the zoom (src/common.js:53) and of `colorW` are not modelled; they are parameters.
- The colour generator `generateColor`, used in `resetLayer` and `changeLayerColor`, is not modelled; its colours are parameters (`tints`).
- Timing: real delays of `setTimeout`, `clearTimeout` and `core.schedule` are not modelled. Each firing is an explicit step (`FireCellTimer`, `FireScheduled`, `FireRestart`), and `core.togglePaused` is a flag.
- Numbers: floating point, NaN and rounding are not modelled; numbers are reals.
- `Vector2.length`: it is the parameter `norm`, assumed only to be nonnegative.
- Non-numeric option keys are not modelled: `visible`, `transparent`, `opacity`, `bgColor`, and the `MAX_ITERATIONS` define written as a string.
- FluidLayers.FluidLayer.Update: it states the per-slot result only for a stroke list without repeats, which is what the sketch builds. UpdateStrokes and AdvanceStrokes state the same, because a stroke listed twice would advance twice.
- FluidLayers.FluidLayer.UpdateStroke: it requires an existing stroke index; the source's only caller loops over the strokes.
- FluidControllers.PointerSlot: it requires a nonzero size, since dividing by zero gives an infinite or NaN number, which the model does not represent.
- FluidControllers.PointerSlot: it describes the slot write a frame would reach if pointers had an `update` method. FluidController.Update itself throws at the first pointer, as the source does.
- SketchOptions.GenerateOptions: the source's `do`/`while` loop has no bound, so the model gives it an attempt budget and returns nothing when the budget runs out. For `cells` the first attempt is always accepted, so the budget never matters there.
- Sketches.Sketch.ResetLayer: it requires the layer to be in the list; the source calls it only from `layers.map`.
- Sketches.Sketch.CreateStrokes: it states the new strokes only for a layer that starts with none, as every layer `createLayer` makes does.
- Sketches.Related: a `strokesRel` naming a method of the stroke other than the reflections (`clone`, `reset`, `update`) or an `Object` method (`toString`) does not throw at `clone()[name]()`: it gives an unreflected clone, `undefined` or a string, which `addStroke` then takes. The model treats every such name as unknown and throwing. The options GUI (src/gui.js:12) offers only the names the model resolves.
- Sketches.Sketch.MakeStroke: it throws for the method names above, for the same reason.
- Sketches.Sketch.CreateStrokes: it throws for the method names above, for the same reason.
- Sketches.Sketch.ResetAll: it does not state that the strokes of every layer are back at their starts with new speeds. ResetAt states this for one layer. Carrying it across the loop for strokes that two layers might share was beyond the solver budget.
- ChangeCycles.ChangeCycle.ChangeLayerSpeed: it requires `speedMult` to be defined. src/config.js defines it and `initOptions` fills it in, so the product is never `undefined`.
- ChangeCycles.ChangeCycle.FullResetLayer: it requires `speedMult` to be defined, for the same reason.
- ChangeOptions.FluidOptions: `minDt` and `maxDt` are parameters. src/config.js defines neither, so the shipped sketch draws `dt` from `undefined` bounds (NaN), which the model does not represent.
- ChangeCycles.ChangeCycle.FireScheduled: it bounds the count by `maxChanges` only when `maxChanges` is a whole number, as `initOptions` draws it.
- Config: `lightOptions`, `effectOptions` and `devMode` configure rendering and development tools and are not modelled.
