# createAnim, modelled in Dafny

This project models the animation engine that `createAnim` returns in the
react-pixi-starter repository. The repository holds two versions of it:

- the current one, in `src/components/anim-comp/anim.ts`, is module `AnimComp` in `anim_comp.dfy`;
- the older one, in `src/components/anim.ts`, is module `Anim` in `anim.dfy`.

Without pixi.js, gsap and the ResizeObserver, each engine is a small state machine over its closure variables:

- `dims`, `startCalled` and `elapsedTime`;
- `prevIsOverlap` and `isBoxTop`, in the current engine only;
- the three name-keyed registries `sprites`, `containers` and `filters`;
- the optional particle `emitter`;
- the artboard's paint order, in the current engine only.

It has three entry points:

- `onStageResize` stores the size, builds the scene on the first call only (`start`), and then runs a layout pass;
- `onTick` accumulates time, moves the shapes and, in the current engine, swaps which shape is on top when the two stop overlapping;
- `destroy` unsubscribes everything, then clears and kills every drawable, destroys every filter, and deletes them all.

Module `Scene` (`scene.dfy`) holds the values both engines share:

- geometry, drawables and the CRT filter;
- the pixel-ratio and anti-aliasing setup;
- `Math.round` as the resize callback uses it;
- `Drain`, the `for…in`/`delete` loop of `destroy`.

Each engine is written twice. It is first a value: `EngineState`, with functions that say what each entry point does to it (`Tick`, `Build`, `AfterStart`, `Layout`, `Resize`, `AfterDestroy`). It is then a class: `Engine`, whose fields are the closure variables and whose methods assign them in place. Every method is proved to change the fields exactly as its function changes `State()`. The lemmas prove what the engine promises about those functions, for one call and for any sequence of host events (`Step`, `Run`), and they are proved under the invariant `Inv`.

Host inputs the code reads but does not compute are parameters:

- the size of the ResizeObserver entry;
- `ticker.elapsedMS` and `ticker.deltaMS`;
- the positions the sine trajectories and tweens give the shapes, in a `Frame`;
- whether `window` is truthy;
- `devicePixelRatio`;
- the native size of the background picture.

## Model

Each operation is written twice: as a function on `EngineState` (`Tick`, `Build`, `AfterStart`, `Layout`, `Resize`, `AfterDestroy`, `Respawn`) and as a method of `Engine` proved equal to it. A method's row covers its function. Apart from `Respawn`, which states its result element by element, the functions carry no contract of their own; the lemmas in the table state what they promise. `TickFields` is a proof helper for `OnTick` and models nothing by itself.

| member | source | states |
|---|---|---|
| Scene.Settings | src/components/anim-comp/anim.ts:54 | the pixel ratio is `min(devicePixelRatio, 2)`: it equals the device ratio when that is at most 2, and 2 otherwise. With a window, anti-aliasing (line 82) is on exactly when the ratio is 1. Without a window, both are 1 and on |
| Scene.Round | src/components/anim-comp/anim.ts:106-107 | `Math.round` gives the integer within half a unit of its argument, with halves rounded up |
| Scene.Drain | src/components/anim-comp/anim.ts:329-333 | the `for…in`/`delete` loop leaves the registry empty. The entries it released are exactly the old entries, each disposed of, whatever the iteration order |
| Scene.DestroyReleasesAll | src/components/anim-comp/anim.ts:329-344 | every deleted sprite or container had its filters set to `[]` and its tweens killed, and kept its position, size and scale. Every filter was destroyed and kept its settings. No entry is missed or invented |
| AnimComp.WithoutRemovesAll | src/components/anim-comp/anim.ts:298-300 | taking a child out of the paint order removes every occurrence of it and keeps every other child |
| AnimComp.BringToFrontMoves | src/components/anim-comp/anim.ts:297-301 | `bringToFront` makes the child the last one painted and leaves it present exactly once. No other child is added or lost |
| AnimComp.FlipPaintOrder | src/components/anim-comp/anim.ts:295-301 | bringing the shape that is not on top to the front gives the paint order in which the other shape is on top |
| AnimComp.TickOverlapEdge | src/components/anim-comp/anim.ts:290-317 | `prevIsOverlap` ends the tick as `abs(dx) < minDist && abs(dy) < minDist` for this frame. `isBoxTop` flips iff the previous tick overlapped and this one does not. `elapsedTime` grows by `elapsedMS / 1000` |
| AnimComp.TicksFlipPerFallingEdge | src/components/anim-comp/anim.ts:295-317 | over any run of frames, `isBoxTop` has flipped once per falling edge of overlap, and `prevIsOverlap` is the last frame's overlap |
| AnimComp.TwoFallingEdgesRestoreTop | src/components/anim-comp/anim.ts:264-302 | after exactly two falling edges, the same shape is on top again |
| AnimComp.TickKeepsScene | src/components/anim-comp/anim.ts:295-301 | a frame keeps the built scene. The box is the artboard's last child iff `isBoxTop` holds |
| AnimComp.BuildMakesScene | src/components/anim-comp/anim.ts:121-204 | `start` fills the registries with exactly the sprites bg, diamond, regH, regV and box, the artboard (plus the particle container when enabled) and the CRT filter. The emitter exists iff particles are enabled. The diamond is added before the box, so the box is on top |
| AnimComp.RespawnSpansTopHalf | src/components/anim-comp/anim.ts:251-258 | each init behaviour keeps its kind and whether it has a shape. One without a shape is untouched. Every shape becomes `(-w/2, -h/2, w, h/2)`, the full width and the top half of the viewport |
| AnimComp.ResizeKeepsInv | src/components/anim-comp/anim.ts:210-260 | every resize delivered while observing keeps the invariant and leaves a complete scene with the ticker subscribed |
| AnimComp.ResizeLayout | src/components/anim-comp/anim.ts:210-246 | after `onStageResize(w, h)`, `dims == (w, h)`. The background and the artboard are at `(w/2, h/2)`. The artboard is contain-fitted from 600×800 and the background cover-fitted. `regH` is at `(w-50, h-10)` and `regV` at `(w-10, h-50)`, both flush with the bottom-right corner |
| AnimComp.ResizeSpawnRegion | src/components/anim-comp/anim.ts:248-258 | the emitter exists iff particles are enabled. When it does, its spawn position is `(w/2, h/2)` and its init behaviours are the respawned ones |
| AnimComp.ResizeKeepsEntries | src/components/anim-comp/anim.ts:214-246 | a resize after the first rebuilds nothing. The registries keep their names and every entry keeps its size, filters and tweens. The filters, the top flag, the paint order and the time are untouched |
| AnimComp.DestroyIdempotent | src/components/anim-comp/anim.ts:320-344 | a second `destroy` changes nothing and has nothing left to release |
| AnimComp.DestroyKeepsInv | src/components/anim-comp/anim.ts:320-344 | `destroy` keeps the invariant, and afterwards every registry is empty and there is no emitter |
| AnimComp.Step | src/components/anim-comp/anim.ts:102-112 | one host event (a resize while observing, a frame while subscribed, or teardown) keeps the invariant |
| AnimComp.Run | src/components/anim-comp/anim.ts:121-344 | the invariant holds after any sequence of host events |
| AnimComp.StartCalledSticky | src/components/anim-comp/anim.ts:208-217 | `startCalled` is never reset |
| AnimComp.StartAtMostOnce | src/components/anim-comp/anim.ts:208-217 | over any sequence of events `start` runs at most once, and never again once it has run |
| AnimComp.ResizesStartOnce | src/components/anim-comp/anim.ts:208-217 | over resizes reaching a fresh observing engine, `start` runs exactly once, on the first resize |
| AnimComp.ElapsedNeverDecreases | src/components/anim-comp/anim.ts:262-269 | `elapsedTime` never decreases when no frame has negative elapsed milliseconds |
| AnimComp.InitialInv | src/components/anim-comp/anim.ts:262-265 | the engine `createAnim` returns satisfies the invariant: nothing is built, and `prevIsOverlap` and `isBoxTop` start true |
| AnimComp.Engine.constructor | src/components/anim-comp/anim.ts:46-67 | the closure starts with zero dims, `startCalled` false, no registry entries, no emitter, and the ratio and anti-aliasing settings fixed |
| AnimComp.Engine.Init | src/components/anim-comp/anim.ts:102-112 | `init` ends by observing the host and changes nothing else |
| AnimComp.Engine.OnResizeEntries | src/components/anim-comp/anim.ts:102-111 | the resize callback does nothing on an empty entry list. Otherwise it resizes once, to the rounded size of the first entry |
| AnimComp.Engine.OnStageResize | src/components/anim-comp/anim.ts:210-260 | the fields change exactly as `Resize` says |
| AnimComp.Engine.Start | src/components/anim-comp/anim.ts:121-206 | the fields change as building the scene followed by one frame |
| AnimComp.Engine.BuildScene | src/components/anim-comp/anim.ts:121-204 | the fields change exactly as `Build` says |
| AnimComp.Engine.LayoutPass | src/components/anim-comp/anim.ts:219-259 | the fields change exactly as `Layout` says, including the in-place loop over the emitter's init behaviours |
| AnimComp.Engine.OnTick | src/components/anim-comp/anim.ts:268-318 | the fields change exactly as `Tick` says |
| AnimComp.Engine.Destroy | src/components/anim-comp/anim.ts:320-344 | the fields become `AfterDestroy`. Each released sprite, container and filter is the old entry disposed of |
| AnimComp.CreateAnim | src/components/anim-comp/anim.ts:46-54 | no engine exists iff `window` is falsy (an undeclared `window` throws instead; see "## Left out"). Otherwise the engine is fresh, satisfies the invariant, has the ratio `min(devicePixelRatio, 2)`, and has anti-aliasing iff the ratio is 1 |
| Anim.TickCentresBox | src/components/anim.ts:158-169 | a frame moves only the box: every other sprite, the containers, the filters, `dims` and `startCalled` are unchanged. The centre of its unrotated 40×40 frame is the viewport's centre plus the frame's offset, and `elapsedTime` grows by `elapsedMS / 1000` |
| Anim.BuildMakesScene | src/components/anim.ts:87-154 | `start` fills the registries with exactly the sprites bg, box, regH, regV and square, the container squareHolder and the CRT filter. The background carries the filter and a tween, and the square is tweened |
| Anim.ResizeKeepsInv | src/components/anim.ts:203-231 | every resize delivered while observing keeps the invariant and leaves a complete scene with the ticker subscribed |
| Anim.ResizeLayout | src/components/anim.ts:203-231 | after `onStageResize(w, h)`, `dims == (w, h)`. The background and squareHolder are at `(w/2, h/2)` and the background is cover-fitted. `regH` is at `(w-50, h-10)` and `regV` at `(w-10, h-50)`, flush with the corner. On the first resize, the centre of the box's unrotated frame is the viewport's centre plus the frame's offset |
| Anim.ResizeKeepsEntries | src/components/anim.ts:207-231 | a resize after the first rebuilds nothing. The registries keep their names and their entries' sizes, filters and tweens. The filters, the box and the time are untouched |
| Anim.DestroyIdempotent | src/components/anim.ts:233-252 | after `destroy`, all three registries are empty and nothing is subscribed or observed. A second `destroy` changes nothing and has nothing to release |
| Anim.Step | src/components/anim.ts:72-82 | one host event keeps the invariant |
| Anim.Run | src/components/anim.ts:87-263 | the invariant holds after any sequence of host events |
| Anim.StartCalledSticky | src/components/anim.ts:202-210 | `startCalled` is never reset |
| Anim.StartAtMostOnce | src/components/anim.ts:202-210 | `start` runs at most once over any sequence of events, and never again once it has run |
| Anim.ResizesStartOnce | src/components/anim.ts:202-210 | over resizes reaching a fresh observing engine, `start` runs exactly once, on the first resize. Afterwards the sprites are exactly `{bg, box, regH, regV, square}` and the containers `{squareHolder}` |
| Anim.ElapsedNeverDecreases | src/components/anim.ts:158-160 | `elapsedTime` never decreases when no frame has negative elapsed milliseconds |
| Anim.InitialInv | src/components/anim.ts:34-44 | the engine `createAnim` returns satisfies the invariant |
| Anim.Engine.constructor | src/components/anim.ts:27-44 | the closure starts with zero dims, `startCalled` false, no registry entries, and the ratio and anti-aliasing settings fixed |
| Anim.Engine.Init | src/components/anim.ts:72-82 | `init` ends by observing the host and changes nothing else |
| Anim.Engine.OnResizeEntries | src/components/anim.ts:73-79 | the callback does nothing on an empty entry list. Otherwise it resizes once, to the rounded size of the first entry |
| Anim.Engine.OnStageResize | src/components/anim.ts:203-231 | the fields change exactly as `Resize` says |
| Anim.Engine.Start | src/components/anim.ts:87-156 | the fields change as building the scene followed by one frame |
| Anim.Engine.BuildScene | src/components/anim.ts:87-154 | the fields change exactly as `Build` says |
| Anim.Engine.LayoutPass | src/components/anim.ts:213-230 | the fields change exactly as `Layout` says |
| Anim.Engine.OnTick | src/components/anim.ts:159-169 | the fields change exactly as `Tick` says |
| Anim.Engine.Destroy | src/components/anim.ts:233-252 | the fields become `AfterDestroy`. Each released sprite, container and filter is the old entry disposed of |
| Anim.CreateAnim | src/components/anim.ts:27-32 | no engine exists iff `window` is falsy (an undeclared `window` throws instead; see "## Left out"). Otherwise the engine is fresh, satisfies the invariant, has the ratio `min(devicePixelRatio, 2)`, and has anti-aliasing iff the ratio is 1 |

Two facts about the code are easy to misread:

- **Particle spawn rectangle.** The rectangle the layout pass gives each shaped init behaviour is `(-w/2, -h/2, w, h/2)`, relative to the spawn position at the centre (`src/components/anim-comp/anim.ts:253-256`). That is the top half of the viewport in screen coordinates, where y grows downwards.
- **Anti-aliasing.** It is on only when the pixel ratio is exactly 1.0 (`src/components/anim-comp/anim.ts:82`). Any other ratio turns it off, including one below 1.

## Left out

- The pixi.js calls are not modelled, because they are foreign rendering calls. This covers `Application.init` and `destroy` (other than the `resolution` and `antialias` options), `Assets.load`, `appendChild`, texture creation, anchors, angles and tints. The ticker subscription and the resize observer are booleans.
- ResizeObserver and `debounce(..., -1)` are not modelled, because they are browser event plumbing and the debounce utility is not part of this model. Only the callback body is modelled (`OnResizeEntries`).
- The gsap tweens are recorded only as a `tweened` flag, set when a tween is created and cleared when `destroy` kills it. The positions the yoyo tween gives the current engine's box are an input of each frame.
- The `Math.sin` trajectories are inputs of each frame, because they are floating-point trigonometry. In the current engine a frame carries the diamond's position. In the older engine it carries the box's offset from the centre.
- The CRT `noise` value is not modelled, for the same reason.
- The `Math.random` colour of the registration marks is not modelled, because it is nondeterministic and nothing depends on it.
- `minDist` is a configuration value. Its square root is characterised by `IsMinDist` rather than computed.
- The particle emitter's internals are not modelled, because `@/vendors/particle-emitter.js` is not part of this model. The model keeps the fields the engine writes (spawn position, init-behaviour shapes, `autoUpdate`, `emit`) and accumulates the seconds passed to `update`.
- `containScale` and `coverScale` are not evaluated, because `src/utils/scale-fit` is not part of this model. A scale records which fit was asked for, with its source and destination sizes.
- `bringToFront` is assumed to remove a child from its parent's paint order and append it at the end, because `src/utils/pixi` is not part of this model.
- Only the artboard's paint order is modelled. The order of the rest of the stage is not.
- The iteration order of `for…in` is not modelled, because no result depends on it.
- Drawables are values in the registries, so object identity and aliasing are not modelled. For example, the CRT filter held both in `filters` and on the background sprite is two equal values.
- `sprites.displacement` is not modelled, because it is never created.
- The asset paths and the awaited loading inside `init` are not modelled. `Init` models only attaching the observer.
- The optional `onLoaded` callback is not modelled.
- `src/components/anim-wrapper.tsx`, `src/App.tsx` and `src/main.tsx` are not modelled, because they are React sequencing and application bootstrap.
- AnimComp.Engine, Anim.Engine: their methods carry no class invariant of their own. `Inv` is proved about `EngineState`, and a method's `requires` asks only for the registry entries the source dereferences.
- Anim.Tick: the source offsets the box's x by half its height and its y by half its width. The box is 40×40, so the two agree, and `TickCentresBox` states the centring in terms of the box's own width and height.
- Anim.TickCentresBox: the box is built with `angle = 45` and no anchor (`src/components/anim.ts:93-98`), so it is drawn rotated about its top-left corner, at `position`. Its drawn centre is `position + (0, 20·√2)`, not `position + (20, 20)`. The rotation is not modelled, so the source draws this box about (−20, +8.3) away from the centre the lemma states for the unrotated frame.
- OnStageResize: in both engines, the model excludes a resize after `destroy` of a started engine (`AnimComp.Engine.OnStageResize` and `Anim.Engine.OnStageResize` require the registry entries once `startCalled` holds, and `Step` delivers resizes only while observing). A debounced callback still pending when `destroy` disconnects the observer would reach it. The source then throws a TypeError: the current engine at `src/components/anim-comp/anim.ts:219`, because `containers.artboard` was deleted, and the older one at `src/components/anim.ts:213`, because `sprites.bg` was deleted. A `destroy` before the first resize is accepted: `Destroy` leaves `startCalled` false, so a later `OnStageResize` builds the scene and subscribes the ticker on a torn-down engine. The source would do the same on its destroyed application, calling `app.stage.addChild` at `src/components/anim-comp/anim.ts:125` (and `src/components/anim.ts:91`), which the model does not capture.
- Numbers are exact reals and integers, not IEEE doubles, so rounding is not modelled. For example, `elapsedMS * 0.001` is exactly `elapsedMS / 1000` here, and `IsMinDist` holds of the exact 45 + 45·√2 but not of the double computed at `src/components/anim-comp/anim.ts:266`.
- CreateAnim: in both engines, `hasWindow == false` stands for a `window` global that exists but is falsy, the only case in which the guard returns null. Where `window` is not declared at all (server-side rendering, a Web Worker without it), reading it at `src/components/anim-comp/anim.ts:50` and `src/components/anim.ts:28` throws a ReferenceError instead of returning null; that throw is not modelled.
