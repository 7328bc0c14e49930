/**
 * The current animation engine (`createAnim` in src/components/anim-comp/anim.ts)
 * with the rendering, tweening and particle libraries stripped away.
 *
 * The closure variables become the fields of `Engine`; `EngineState` is the
 * same state as a value, and the functions `Resize`, `Build`, `AfterStart`,
 * `Layout`, `Tick` and `AfterDestroy` say what each entry point does to it. Every method of
 * `Engine` is proved to do exactly what its function says, and the lemmas
 * prove what the engine promises about those functions.
 */
module AnimComp {
  import opened Scene

  const BoxSize: real := 90.0
  const ArtboardSize := Size(600.0, 800.0)
  const ShapeSize := Size(BoxSize, BoxSize)

  /**
   * `minDist = sqrt((BoxSize/2)² · 2) + BoxSize/2`, the half-diagonal of the
   * rotated square plus half a side, characterised without a square root.
   */
  ghost predicate IsMinDist(m: real)
  {
    var half := BoxSize * 0.5;
    m > half && (m - half) * (m - half) == 2.0 * half * half
  }

  /** The names the engine files its sprites, containers and filters under. */
  newtype Name = x: int | 0 <= x < 8
  const Bg: Name := 0
  const Diamond: Name := 1
  const RegH: Name := 2
  const RegV: Name := 3
  const Box: Name := 4
  const Particles: Name := 5
  const Artboard: Name := 6
  const Crt: Name := 7

  /** A rectangular spawn shape of an emitter behaviour, relative to the spawn position. */
  datatype SpawnRect = SpawnRect(x: real, y: real, w: real, h: real)

  /** An init behaviour of the particle emitter; only its optional shape is modelled. */
  datatype Behavior = Behavior(kind: string, shape: Option<SpawnRect>)

  /**
   * The fields of the particle emitter the engine writes: spawn position,
   * init behaviours, `autoUpdate`, `emit`, and the seconds fed to `update`.
   */
  datatype Emitter = Emitter(spawnPos: Point, initBehaviors: seq<Behavior>, autoUpdate: bool, emit: bool, advanced: real)

  /**
   * What is fixed when the engine is created: whether particles are enabled,
   * the native size of the background picture, `minDist`, and the init
   * behaviours the emitter builds from its configuration file.
   */
  datatype Config = Config(enableParticles: bool, picSize: Size, minDist: real, emitterBehaviors: seq<Behavior>)

  /**
   * What one frame of the shared ticker brings: `ticker.elapsedMS`,
   * `ticker.deltaMS`, the diamond's position on its sine trajectory, and the
   * position the yoyo tween has moved the box to.
   */
  datatype Frame = Frame(elapsedMS: real, deltaMS: real, diamondPos: Point, boxPos: Point)


  /**
   * The closure state of one engine. `artboardChildren` is the artboard's paint
   * order (last is drawn on top). `tickerSubscribed` and `observing` stand for
   * the ticker subscription and the resize observer.
   */
  datatype EngineState = EngineState(
    config: Config,
    dims: Dims,
    startCalled: bool,
    elapsedTime: real,
    prevIsOverlap: bool,
    isBoxTop: bool,
    sprites: map<Name, Drawable>,
    containers: map<Name, Drawable>,
    filters: map<Name, Filter>,
    emitter: Option<Emitter>,
    artboardChildren: seq<Name>,
    tickerSubscribed: bool,
    observing: bool)

  /** The state `createAnim` returns. */
  function Initial(config: Config): EngineState
  {
    EngineState(config, Dims(0, 0), false, 0.0, true, true, map[], map[], map[], None, [], false, false)
  }

  // ---------------------------------------------------------------- paint order

  /** `children` with every occurrence of `id` taken out, the rest in order. */
  function Without(children: seq<Name>, id: Name): seq<Name>
  {
    if children == [] then []
    else (if children[0] == id then [] else [children[0]]) + Without(children[1..], id)
  }

  lemma {:induction false} WithoutRemovesAll(children: seq<Name>, id: Name)
    ensures multiset(Without(children, id)) == multiset(children)[id := 0]
    decreases |children|
  {
    if children != [] {
      WithoutRemovesAll(children[1..], id);
      assert children == [children[0]] + children[1..];
    }
  }

  /**
   * `bringToFront`, assumed to move a child to the end of its parent's paint
   * order (remove it, then append it).
   */
  function BringToFront(children: seq<Name>, id: Name): seq<Name>
  {
    Without(children, id) + [id]
  }

  /** The child brought to the front is painted last, and it occurs exactly once; no other child is added or lost. */
  lemma BringToFrontMoves(children: seq<Name>, id: Name)
    ensures var r := BringToFront(children, id);
      && r[|r| - 1] == id
      && multiset(r) == multiset(children)[id := 1]
  {
    WithoutRemovesAll(children, id);
  }

  /** The artboard's paint order the flag calls for: the box last exactly when it is on top. */
  function PaintOrder(boxTop: bool): seq<Name>
  {
    if boxTop then [Diamond, Box] else [Box, Diamond]
  }

  /** Bringing the shape that is not on top to the front gives the other paint order. */
  lemma {:induction false} FlipPaintOrder(boxTop: bool)
    ensures BringToFront(PaintOrder(boxTop), if boxTop then Diamond else Box) == PaintOrder(!boxTop)
  {
    var c := PaintOrder(boxTop);
    var id := if boxTop then Diamond else Box;
    assert c[1..] == [c[1]] && [c[1]][1..] == [];
    assert Without([c[1]], id) == [c[1]] + Without([], id);
    assert Without(c, id) == [] + Without([c[1]], id);
  }

  // ---------------------------------------------------------------- invariants

  /** Nothing built yet: what holds until the first `onStageResize`. */
  ghost predicate Unbuilt(s: EngineState)
  {
    && s.sprites == map[] && s.containers == map[] && s.filters == map[]
    && s.emitter == None && s.artboardChildren == []
    && !s.tickerSubscribed && s.prevIsOverlap && s.isBoxTop
  }

  function ContainerNames(enableParticles: bool): set<Name>
  {
    if enableParticles then {Particles, Artboard} else {Artboard}
  }

  /** The scene `start` builds, as it stays while the engine runs. */
  ghost predicate SceneBuilt(s: EngineState)
  {
    && s.startCalled
    && s.sprites.Keys == {Bg, Diamond, RegH, RegV, Box}
    && s.containers.Keys == ContainerNames(s.config.enableParticles)
    && s.filters.Keys == {Crt}
    && (s.emitter.Some? <==> s.config.enableParticles)
    && s.sprites[RegH].size == RegHSize
    && s.sprites[RegV].size == RegVSize
    && s.artboardChildren == PaintOrder(s.isBoxTop)
  }

  /** Every registry empty and no emitter: what `destroy` leaves. */
  ghost predicate TornDown(s: EngineState)
  {
    s.sprites == map[] && s.containers == map[] && s.filters == map[] && s.emitter == None
  }

  /**
   * The engine's invariant: nothing is built before the first resize, the
   * scene is complete while the ticker is subscribed, a started engine that
   * still observes its host is ticking, and a started engine that no longer
   * ticks has been torn down.
   */
  ghost predicate Inv(s: EngineState)
  {
    && (!s.startCalled ==> Unbuilt(s))
    && (s.tickerSubscribed ==> SceneBuilt(s))
    && (s.observing && s.startCalled ==> s.tickerSubscribed)
    && (s.startCalled && !s.tickerSubscribed ==> TornDown(s))
  }

  // ---------------------------------------------------------------- onTick

  /** The collision test of `onTick`: an axis-aligned test of both offsets against `minDist`. */
  predicate Overlaps(diamond: Point, box: Point, minDist: real)
  {
    Abs(diamond.x - box.x) < minDist && Abs(diamond.y - box.y) < minDist
  }

  ghost predicate HasShapes(s: EngineState)
  {
    Diamond in s.sprites && Box in s.sprites
  }

  /** `emitter.update(seconds)` when there is an emitter. */
  function AdvanceEmitter(e: Option<Emitter>, deltaMS: real): Option<Emitter>
  {
    match e
    case None => None
    case Some(em) => Some(em.(advanced := em.advanced + deltaMS / 1000.0))
  }

  /**
   * `onTick`: accumulate time, move the diamond, test for overlap, and on a
   * falling edge of overlap swap which shape is on top and bring it to the
   * front; advance the emitter; remember this frame's overlap.
   */
  function Tick(s: EngineState, f: Frame): EngineState
    requires HasShapes(s)
  {
    var sprites := s.sprites[Diamond := s.sprites[Diamond].(pos := f.diamondPos)]
                            [Box := s.sprites[Box].(pos := f.boxPos)];
    var isOverlap := Overlaps(sprites[Diamond].pos, sprites[Box].pos, s.config.minDist);
    var falling := !isOverlap && s.prevIsOverlap;
    var boxTop := if falling then !s.isBoxTop else s.isBoxTop;
    var children :=
      if falling then BringToFront(s.artboardChildren, if boxTop then Box else Diamond) else s.artboardChildren;
    s.(elapsedTime := s.elapsedTime + f.elapsedMS * 0.001, sprites := sprites, isBoxTop := boxTop,
       artboardChildren := children, emitter := AdvanceEmitter(s.emitter, f.deltaMS), prevIsOverlap := isOverlap)
  }

  /** `Tick` applied frame after frame. */
  function Ticks(s: EngineState, frames: seq<Frame>): (r: EngineState)
    requires HasShapes(s)
    ensures HasShapes(r)
    decreases |frames|
  {
    if frames == [] then s else Ticks(Tick(s, frames[0]), frames[1..])
  }

  /**
   * The number of falling edges of overlap over `frames`, starting from
   * `prev`, the overlap of the frame before them.
   */
  function FallingEdges(prev: bool, frames: seq<Frame>, minDist: real): nat
    decreases |frames|
  {
    if frames == [] then 0
    else
      var now := Overlaps(frames[0].diamondPos, frames[0].boxPos, minDist);
      (if prev && !now then 1 else 0) + FallingEdges(now, frames[1..], minDist)
  }

  predicate Odd(n: nat) { n % 2 == 1 }

  /**
   * One frame: `prevIsOverlap` ends equal to this frame's overlap, the top
   * flag flips exactly on a falling edge (overlapping before, not now), and
   * the elapsed time grows by the frame's milliseconds in seconds.
   */
  lemma TickOverlapEdge(s: EngineState, f: Frame)
    requires HasShapes(s)
    ensures var r := Tick(s, f);
      && (r.prevIsOverlap <==> Abs(f.diamondPos.x - f.boxPos.x) < s.config.minDist
                               && Abs(f.diamondPos.y - f.boxPos.y) < s.config.minDist)
      && (r.isBoxTop != s.isBoxTop <==> s.prevIsOverlap && !r.prevIsOverlap)
      && r.elapsedTime == s.elapsedTime + f.elapsedMS / 1000.0
  {
  }

  /**
   * Over any run of frames the top flag has flipped once per falling edge of
   * overlap, and `prevIsOverlap` holds the last frame's overlap.
   */
  lemma {:induction false} TicksFlipPerFallingEdge(s: EngineState, frames: seq<Frame>)
    requires HasShapes(s)
    ensures var r := Ticks(s, frames);
      && r.isBoxTop == (s.isBoxTop != Odd(FallingEdges(s.prevIsOverlap, frames, s.config.minDist)))
      && r.prevIsOverlap == (if frames == [] then s.prevIsOverlap
                             else Overlaps(frames[|frames| - 1].diamondPos, frames[|frames| - 1].boxPos, s.config.minDist))
    decreases |frames|
  {
    if frames != [] {
      var s1 := Tick(s, frames[0]);
      TickOverlapEdge(s, frames[0]);
      assert s1.config == s.config && HasShapes(s1);
      TicksFlipPerFallingEdge(s1, frames[1..]);
      if |frames| > 1 {
        assert frames[1..][|frames[1..]| - 1] == frames[|frames| - 1];
      }
    }
  }

  /** After two falling edges the same shape is on top again. */
  lemma TwoFallingEdgesRestoreTop(s: EngineState, frames: seq<Frame>)
    requires HasShapes(s)
    requires FallingEdges(s.prevIsOverlap, frames, s.config.minDist) == 2
    ensures Ticks(s, frames).isBoxTop == s.isBoxTop
  {
    TicksFlipPerFallingEdge(s, frames);
  }

  /**
   * A frame keeps the scene, and so keeps the paint-order invariant: the box
   * is the artboard's last child exactly when `isBoxTop` holds.
   */
  lemma TickKeepsScene(s: EngineState, f: Frame)
    requires SceneBuilt(s)
    ensures SceneBuilt(Tick(s, f))
    ensures var r := Tick(s, f); |r.artboardChildren| == 2 && (r.artboardChildren[1] == Box <==> r.isBoxTop)
  {
    FlipPaintOrder(s.isBoxTop);
  }

  // ---------------------------------------------------------------- start

  /**
   * The building half of `start`: background (with the CRT filter and the
   * fade-in tween), the particle container and emitter when enabled, the
   * artboard holding the diamond then the box (the box tweened), and the two
   * registration marks; then `ticker.add(onTick)`.
   */
  function Build(s: EngineState): EngineState
  {
    var bg := Drawable(Origin, s.config.picSize, Unscaled, [NewCrt()], true);
    var withParticles :=
      if s.config.enableParticles then s.containers[Particles := Plain(NoSize)] else s.containers;
    var emitter :=
      if s.config.enableParticles then Some(Emitter(Origin, s.config.emitterBehaviors, false, true, 0.0))
      else s.emitter;
    s.(sprites := s.sprites[Bg := bg][Diamond := Plain(ShapeSize)][RegH := Plain(RegHSize)]
                           [RegV := Plain(RegVSize)][Box := Plain(ShapeSize).(tweened := true)],
       containers := withParticles[Artboard := Plain(NoSize)],
       filters := s.filters[Crt := NewCrt()],
       emitter := emitter,
       artboardChildren := [Diamond, Box],
       tickerSubscribed := true)
  }

  /** `start`: build the scene, subscribe to the ticker, and run one frame at once. */
  function AfterStart(s: EngineState, f: Frame): EngineState
  {
    Tick(Build(s), f)
  }

  // ---------------------------------------------------------------- layout

  ghost predicate LayoutTargets(s: EngineState)
  {
    Bg in s.sprites && RegH in s.sprites && RegV in s.sprites && Artboard in s.containers
  }

  /** One init behaviour after the spawn-rectangle update of the layout pass. */
  function Reshaped(b: Behavior, width: real, height: real): Behavior
  {
    if b.shape.Some? then b.(shape := Some(SpawnRect(-width * 0.5, -height * 0.5, width, height * 0.5)))
    else b
  }

  /**
   * Placed at the centre of a `width`×`height` viewport, the rectangle spans
   * the full width and the top half of the height (y grows downwards).
   */
  ghost predicate SpansTopHalf(rect: SpawnRect, width: real, height: real)
  {
    var left := width * 0.5 + rect.x;
    var top := height * 0.5 + rect.y;
    left == 0.0 && left + rect.w == width && top == 0.0 && top + rect.h == height * 0.5
  }

  /** The spawn-rectangle update applied to every init behaviour. */
  function Respawn(behaviors: seq<Behavior>, width: real, height: real): (r: seq<Behavior>)
    ensures |r| == |behaviors|
    ensures forall i :: 0 <= i < |behaviors| ==> r[i] == Reshaped(behaviors[i], width, height)
    decreases |behaviors|
  {
    if behaviors == [] then []
    else [Reshaped(behaviors[0], width, height)] + Respawn(behaviors[1..], width, height)
  }

  /**
   * Every init behaviour keeps its kind and whether it has a shape; one without
   * a shape is untouched, and every shape becomes the rectangle spanning the
   * full width and the top half of the viewport.
   */
  lemma RespawnSpansTopHalf(behaviors: seq<Behavior>, width: real, height: real)
    ensures var r := Respawn(behaviors, width, height);
      && |r| == |behaviors|
      && (forall i :: 0 <= i < |r| ==> r[i].kind == behaviors[i].kind && r[i].shape.Some? == behaviors[i].shape.Some?)
      && (forall i :: 0 <= i < |r| && behaviors[i].shape.None? ==> r[i] == behaviors[i])
      && (forall i :: 0 <= i < |r| && behaviors[i].shape.Some? ==> SpansTopHalf(r[i].shape.value, width, height))
  {
  }

  /**
   * The layout pass of `onStageResize`: fit and centre the artboard, cover and
   * centre the background, pin the registration marks to the bottom-right
   * corner, and recentre the emitter's spawn position and rectangles.
   */
  function Layout(s: EngineState): EngineState
    requires LayoutTargets(s)
  {
    var width := s.dims.width as real;
    var height := s.dims.height as real;
    var viewport := Size(width, height);
    var artboard := s.containers[Artboard];
    var bg := s.sprites[Bg];
    var regH := s.sprites[RegH];
    var regV := s.sprites[RegV];
    s.(containers := s.containers[Artboard := artboard.(pos := Centre(s.dims), scale := ContainFit(ArtboardSize, viewport))],
       sprites := s.sprites[Bg := bg.(pos := Centre(s.dims), scale := CoverFit(s.config.picSize, viewport))]
                           [RegH := regH.(pos := Point(width - regH.size.w, height - regH.size.h))]
                           [RegV := regV.(pos := Point(width - regV.size.w, height - regV.size.h))],
       emitter :=
         match s.emitter
         case None => None
         case Some(e) => Some(e.(spawnPos := Centre(s.dims), initBehaviors := Respawn(e.initBehaviors, width, height))))
  }

  // ---------------------------------------------------------------- onStageResize

  /**
   * `onStageResize(width, height)`: store the size, build the scene on the
   * first call only, then run the layout pass. `f` is the frame `start` runs
   * at once; later calls do not use it.
   */
  function Resize(s: EngineState, width: int, height: int, f: Frame): EngineState
    requires s.startCalled ==> LayoutTargets(s)
  {
    var sized := s.(dims := Dims(width, height));
    var started := if sized.startCalled then sized else AfterStart(sized.(startCalled := true), f);
    Layout(started)
  }

  lemma BuildMakesScene(s: EngineState)
    requires s.startCalled && Unbuilt(s)
    ensures SceneBuilt(Build(s)) && Build(s).isBoxTop && Build(s).prevIsOverlap
  {
  }

  /**
   * Every resize delivered while observing keeps the invariant and leaves a
   * complete, ticking scene behind.
   */
  lemma ResizeKeepsInv(s: EngineState, width: int, height: int, f: Frame)
    requires Inv(s) && s.observing
    ensures s.startCalled ==> LayoutTargets(s)
    ensures var r := Resize(s, width, height, f); Inv(r) && SceneBuilt(r) && r.observing && r.tickerSubscribed
  {
    var sized := s.(dims := Dims(width, height));
    if !s.startCalled {
      var b := Build(sized.(startCalled := true));
      BuildMakesScene(sized.(startCalled := true));
      TickKeepsScene(b, f);
    }
  }

  /**
   * After `onStageResize(width, height)`: `dims` is the new size; the background
   * and the artboard sit at the centre; the artboard is contain-fitted from
   * 600×800 and the background cover-fitted from the picture's size; `regH`
   * (50×10) is at (width-50, height-10) and `regV` (10×50) at
   * (width-10, height-50), both flush with the bottom-right corner.
   */
  lemma ResizeLayout(s: EngineState, width: int, height: int, f: Frame)
    requires Inv(s) && s.observing
    ensures s.startCalled ==> LayoutTargets(s)
    ensures var r := Resize(s, width, height, f);
      var w, h := width as real, height as real;
      && r.dims == Dims(width, height)
      && r.sprites[Bg].pos == Point(w / 2.0, h / 2.0)
      && r.containers[Artboard].pos == Point(w / 2.0, h / 2.0)
      && r.containers[Artboard].scale == ContainFit(Size(600.0, 800.0), Size(w, h))
      && r.sprites[Bg].scale == CoverFit(s.config.picSize, Size(w, h))
      && r.sprites[RegH].pos == Point(w - 50.0, h - 10.0)
      && r.sprites[RegV].pos == Point(w - 10.0, h - 50.0)
      && r.sprites[RegH].pos.x + r.sprites[RegH].size.w == w
      && r.sprites[RegH].pos.y + r.sprites[RegH].size.h == h
      && r.sprites[RegV].pos.x + r.sprites[RegV].size.w == w
      && r.sprites[RegV].pos.y + r.sprites[RegV].size.h == h
  {
    ResizeKeepsInv(s, width, height, f);
  }

  /**
   * The particle part of the layout pass. With an emitter, its spawn position
   * becomes the centre, and every init behaviour with a shape gets the
   * rectangle spanning the full width and top half of the viewport; those
   * without a shape are untouched. Without particles there is no emitter.
   */
  lemma ResizeSpawnRegion(s: EngineState, width: int, height: int, f: Frame)
    requires Inv(s) && s.observing
    ensures s.startCalled ==> LayoutTargets(s)
    ensures var r := Resize(s, width, height, f);
      var w, h := width as real, height as real;
      && (r.emitter.Some? <==> s.config.enableParticles)
      && (r.emitter.Some? ==>
            var e := r.emitter.value;
            var before := if s.startCalled then s.emitter.value.initBehaviors else s.config.emitterBehaviors;
            && e.spawnPos == Point(w / 2.0, h / 2.0)
            && e.initBehaviors == Respawn(before, w, h))
  {
    ResizeKeepsInv(s, width, height, f);
  }

  /**
   * A resize after the first never rebuilds the scene: the registries keep
   * their names, and every entry keeps its size, filters and tweens (only
   * positions and scales move), the filters are the same, and the top flag
   * and paint order are untouched.
   */
  lemma ResizeKeepsEntries(s: EngineState, width: int, height: int, f: Frame)
    requires Inv(s) && s.observing && s.startCalled
    ensures LayoutTargets(s)
    ensures var r := Resize(s, width, height, f);
      && r.sprites.Keys == s.sprites.Keys && r.containers.Keys == s.containers.Keys
      && (forall name :: name in s.sprites ==> SameDrawable(r.sprites[name], s.sprites[name]))
      && (forall name :: name in s.containers ==> SameDrawable(r.containers[name], s.containers[name]))
      && r.filters == s.filters
      && r.isBoxTop == s.isBoxTop && r.artboardChildren == s.artboardChildren
      && r.elapsedTime == s.elapsedTime
  {
  }

  // ---------------------------------------------------------------- destroy

  /**
   * `destroy`: unsubscribe the ticker, disconnect the observer, destroy and
   * drop the emitter, and empty the three registries.
   */
  function AfterDestroy(s: EngineState): EngineState
  {
    s.(tickerSubscribed := false, observing := false, emitter := None,
       sprites := map[], containers := map[], filters := map[])
  }

  /** A second `destroy` changes nothing and has nothing left to release. */
  lemma DestroyIdempotent(s: EngineState)
    ensures AfterDestroy(AfterDestroy(s)) == AfterDestroy(s)
    ensures var r := AfterDestroy(s);
      Disposed(r.sprites, Cleared) == map[] && Disposed(r.containers, Cleared) == map[]
      && Disposed(r.filters, Destroyed) == map[]
  {
    var r := AfterDestroy(s);
    assert Disposed(r.sprites, Cleared).Keys == {};
    assert Disposed(r.containers, Cleared).Keys == {};
    assert Disposed(r.filters, Destroyed).Keys == {};
  }

  /** `destroy` keeps the invariant and leaves every registry empty and no emitter. */
  lemma DestroyKeepsInv(s: EngineState)
    requires Inv(s)
    ensures Inv(AfterDestroy(s))
    ensures TornDown(AfterDestroy(s))
  {
  }

  // ---------------------------------------------------------------- lifecycle

  /** What the host delivers: a (rounded) resize, a ticker frame, or teardown. */
  datatype Event = Resized(width: int, height: int, frame: Frame) | Ticked(frame: Frame) | TornDownEvent

  /**
   * One event as the engine sees it: the observer calls `onStageResize` only
   * while connected and the ticker calls `onTick` only while subscribed.
   */
  function Step(s: EngineState, e: Event): (r: EngineState)
    requires Inv(s)
    ensures Inv(r)
  {
    match e
    case Resized(w, h, f) =>
      if s.observing then ResizeKeepsInv(s, w, h, f); Resize(s, w, h, f) else s
    case Ticked(f) =>
      if s.tickerSubscribed then TickKeepsScene(s, f); Tick(s, f) else s
    case TornDownEvent =>
      DestroyKeepsInv(s); AfterDestroy(s)
  }

  /** A whole sequence of events; the invariant holds throughout. */
  function Run(s: EngineState, events: seq<Event>): (r: EngineState)
    requires Inv(s)
    ensures Inv(r)
    decreases |events|
  {
    if events == [] then s else Run(Step(s, events[0]), events[1..])
  }

  /** Does this event make the engine call `start`? */
  predicate RunsStart(s: EngineState, e: Event)
  {
    e.Resized? && s.observing && !s.startCalled
  }

  /** How many times `start` runs over a sequence of events. */
  function StartCount(s: EngineState, events: seq<Event>): nat
    requires Inv(s)
    decreases |events|
  {
    if events == [] then 0
    else (if RunsStart(s, events[0]) then 1 else 0) + StartCount(Step(s, events[0]), events[1..])
  }

  /** `startCalled` is never reset. */
  lemma {:induction false} StartCalledSticky(s: EngineState, events: seq<Event>)
    requires Inv(s) && s.startCalled
    ensures Run(s, events).startCalled
    decreases |events|
  {
    if events != [] {
      StartCalledSticky(Step(s, events[0]), events[1..]);
    }
  }

  /** Over any sequence of events `start` runs at most once, and never again once it has run. */
  lemma {:induction false} StartAtMostOnce(s: EngineState, events: seq<Event>)
    requires Inv(s)
    ensures StartCount(s, events) <= (if s.startCalled then 0 else 1)
    decreases |events|
  {
    if events != [] {
      var s1 := Step(s, events[0]);
      StartAtMostOnce(s1, events[1..]);
      if RunsStart(s, events[0]) {
        ResizeKeepsInv(s, events[0].width, events[0].height, events[0].frame);
      }
    }
  }

  /**
   * For any non-empty sequence of resizes reaching an observing engine that
   * has not started, `start` runs exactly once, on the first resize.
   */
  lemma ResizesStartOnce(s: EngineState, events: seq<Event>)
    requires Inv(s) && s.observing && !s.startCalled
    requires |events| >= 1 && forall i :: 0 <= i < |events| ==> events[i].Resized?
    ensures RunsStart(s, events[0]) && Step(s, events[0]).startCalled
    ensures StartCount(s, events) == 1
  {
    var s1 := Step(s, events[0]);
    ResizeKeepsInv(s, events[0].width, events[0].height, events[0].frame);
    StartAtMostOnce(s1, events[1..]);
  }

  /** With no frame running time backwards, `elapsedTime` never decreases. */
  lemma {:induction false} ElapsedNeverDecreases(s: EngineState, events: seq<Event>)
    requires Inv(s)
    requires forall i :: 0 <= i < |events| && !events[i].TornDownEvent? ==> events[i].frame.elapsedMS >= 0.0
    ensures Run(s, events).elapsedTime >= s.elapsedTime
    decreases |events|
  {
    if events != [] {
      var s1 := Step(s, events[0]);
      ElapsedNeverDecreases(s1, events[1..]);
    }
  }

  /** The engine `init` hands over satisfies the invariant. */
  lemma InitialInv(config: Config)
    ensures Inv(Initial(config)) && Inv(Initial(config).(observing := true))
  {
  }

  /** `Tick` spelled out field by field, as `onTick` computes it. */
  lemma TickFields(s: EngineState, f: Frame, sprites: map<Name, Drawable>, isOverlap: bool, boxTop: bool, children: seq<Name>)
    requires HasShapes(s)
    requires sprites == s.sprites[Diamond := s.sprites[Diamond].(pos := f.diamondPos)][Box := s.sprites[Box].(pos := f.boxPos)]
    requires isOverlap == Overlaps(f.diamondPos, f.boxPos, s.config.minDist)
    requires boxTop == (s.isBoxTop != (!isOverlap && s.prevIsOverlap))
    requires children == if !isOverlap && s.prevIsOverlap then BringToFront(s.artboardChildren, if boxTop then Box else Diamond) else s.artboardChildren
    ensures Tick(s, f) == s.(elapsedTime := s.elapsedTime + f.elapsedMS * 0.001, sprites := sprites, isBoxTop := boxTop,
       artboardChildren := children, emitter := AdvanceEmitter(s.emitter, f.deltaMS), prevIsOverlap := isOverlap)
  {
  }

  // ---------------------------------------------------------------- the engine

  /**
   * One engine instance: the closure `createAnim` returns. Each method is
   * proved to change the fields exactly as the function of the same name
   * changes `State()`; what holds across calls is proved about those functions.
   */
  class Engine {
    const config: Config
    /** `pxRatio` and `antialias`, fixed for the engine's lifetime. */
    const settings: RenderSettings

    var dims: Dims
    var startCalled: bool
    var elapsedTime: real
    var prevIsOverlap: bool
    var isBoxTop: bool
    var sprites: map<Name, Drawable>
    var containers: map<Name, Drawable>
    var filters: map<Name, Filter>
    var emitter: Option<Emitter>
    var artboardChildren: seq<Name>
    var tickerSubscribed: bool
    var observing: bool

    function State(): EngineState
      reads this
    {
      EngineState(config, dims, startCalled, elapsedTime, prevIsOverlap, isBoxTop,
                  sprites, containers, filters, emitter, artboardChildren, tickerSubscribed, observing)
    }

    /** `createAnim` when a window exists. */
    constructor (config: Config, devicePixelRatio: real)
      requires IsMinDist(config.minDist)
      ensures State() == Initial(config)
      ensures settings == Settings(true, devicePixelRatio)
    {
      this.config := config;
      settings := Settings(true, devicePixelRatio);
      dims := Dims(0, 0);
      startCalled := false;
      elapsedTime := 0.0;
      prevIsOverlap := true;
      isBoxTop := true;
      sprites, containers, filters := map[], map[], map[];
      emitter := None;
      artboardChildren := [];
      tickerSubscribed, observing := false, false;
    }

    /** The end of `init`: the resize observer is attached to the host element. */
    method Init()
      modifies this
      ensures State() == old(State()).(observing := true)
    {
      observing := true;
    }

    /** The debounced ResizeObserver callback: ignore an empty batch, else resize to the rounded first entry. */
    method OnResizeEntries(entries: seq<ContentRect>, f: Frame)
      requires startCalled && |entries| >= 1 ==> LayoutTargets(State())
      modifies this
      ensures |entries| == 0 ==> State() == old(State())
      ensures |entries| >= 1 ==> State() == Resize(old(State()), Round(entries[0].width), Round(entries[0].height), f)
    {
      if |entries| >= 1 {
        OnStageResize(Round(entries[0].width), Round(entries[0].height), f);
      }
    }

    method OnStageResize(width: int, height: int, f: Frame)
      requires startCalled ==> LayoutTargets(State())
      modifies this
      ensures State() == Resize(old(State()), width, height, f)
    {
      dims := Dims(width, height);
      if !startCalled {
        startCalled := true;
        Start(f);
      }
      LayoutPass();
    }

    /** `start`: build the scene, then run one frame at once. */
    method Start(f: Frame)
      modifies this
      ensures State() == AfterStart(old(State()), f)
    {
      BuildScene();
      OnTick(f);
    }

    /** The building half of `start`, up to and including `ticker.add(onTick)`. */
    method BuildScene()
      modifies this
      ensures State() == Build(old(State()))
    {
      var sp := sprites[Bg := Drawable(Origin, config.picSize, Unscaled, [NewCrt()], true)];
      var cs, em := containers, emitter;
      if config.enableParticles {
        cs := cs[Particles := Plain(NoSize)];
        em := Some(Emitter(Origin, config.emitterBehaviors, false, true, 0.0));
      }
      cs := cs[Artboard := Plain(NoSize)];
      sp := sp[Diamond := Plain(ShapeSize)];
      var children := [Diamond];
      sp := sp[RegH := Plain(RegHSize)][RegV := Plain(RegVSize)][Box := Plain(ShapeSize).(tweened := true)];
      children := children + [Box];
      sprites, containers, filters, emitter, artboardChildren, tickerSubscribed :=
        sp, cs, filters[Crt := NewCrt()], em, children, true;
    }

    method LayoutPass()
      requires LayoutTargets(State())
      modifies this
      ensures State() == Layout(old(State()))
    {
      var width := dims.width as real;
      var height := dims.height as real;
      var viewport := Size(width, height);
      var artboard := containers[Artboard];
      var bg := sprites[Bg];
      var regH := sprites[RegH];
      var regV := sprites[RegV];
      containers := containers[Artboard := artboard.(pos := Centre(dims), scale := ContainFit(ArtboardSize, viewport))];
      sprites := sprites[Bg := bg.(pos := Centre(dims), scale := CoverFit(config.picSize, viewport))]
                        [RegH := regH.(pos := Point(width - regH.size.w, height - regH.size.h))]
                        [RegV := regV.(pos := Point(width - regV.size.w, height - regV.size.h))];
      if emitter.Some? {
        var behaviors := emitter.value.initBehaviors;
        var i := 0;
        while i < |behaviors|
          invariant 0 <= i <= |behaviors| == |emitter.value.initBehaviors|
          invariant forall j :: 0 <= j < i ==> behaviors[j] == Reshaped(emitter.value.initBehaviors[j], width, height)
          invariant forall j :: i <= j < |behaviors| ==> behaviors[j] == emitter.value.initBehaviors[j]
        {
          if behaviors[i].shape.Some? {
            behaviors := behaviors[i := behaviors[i].(shape := Some(SpawnRect(-width * 0.5, -height * 0.5, width, height * 0.5)))];
          }
          i := i + 1;
        }
        assert behaviors == Respawn(emitter.value.initBehaviors, width, height);
        emitter := Some(emitter.value.(spawnPos := Centre(dims), initBehaviors := behaviors));
      }
    }

    method OnTick(f: Frame)
      requires HasShapes(State())
      modifies this
      ensures State() == Tick(old(State()), f)
    {
      var sp := sprites[Diamond := sprites[Diamond].(pos := f.diamondPos)][Box := sprites[Box].(pos := f.boxPos)];
      var isOverlap := Overlaps(sp[Diamond].pos, sp[Box].pos, config.minDist);
      var boxTop, children := isBoxTop, artboardChildren;
      if !isOverlap && prevIsOverlap {
        boxTop := !boxTop;
        children := BringToFront(children, if boxTop then Box else Diamond);
      }
      TickFields(State(), f, sp, isOverlap, boxTop, children);
      elapsedTime, sprites, isBoxTop, artboardChildren, emitter, prevIsOverlap :=
        elapsedTime + f.elapsedMS * 0.001, sp, boxTop, children, AdvanceEmitter(emitter, f.deltaMS), isOverlap;
    }

    /**
     * `destroy`, which also hands back each registry entry as it was when its
     * loop deleted it.
     */
    method Destroy() returns (releasedSprites: map<Name, Drawable>, releasedContainers: map<Name, Drawable>,
                              destroyedFilters: map<Name, Filter>)
      modifies this
      ensures State() == AfterDestroy(old(State()))
      ensures releasedSprites == Disposed(old(sprites), Cleared)
      ensures releasedContainers == Disposed(old(containers), Cleared)
      ensures destroyedFilters == Disposed(old(filters), Destroyed)
    {
      var remainingSprites, remainingContainers, remainingFilters;
      remainingSprites, releasedSprites := Drain(sprites, Cleared);
      remainingContainers, releasedContainers := Drain(containers, Cleared);
      remainingFilters, destroyedFilters := Drain(filters, Destroyed);
      tickerSubscribed, observing, emitter := false, false, None;
      sprites, containers, filters := remainingSprites, remainingContainers, remainingFilters;
    }
  }

  /** `createAnim`: no engine when `window` is falsy (`hasWindow` false). */
  method CreateAnim(hasWindow: bool, config: Config, devicePixelRatio: real) returns (e: Engine?)
    requires IsMinDist(config.minDist)
    ensures e == null <==> !hasWindow
    ensures e != null ==> fresh(e) && Inv(e.State()) && e.State() == Initial(config)
    ensures e != null ==> e.settings == Settings(true, devicePixelRatio)
    ensures e != null ==> e.settings.resolution <= 2.0 && (e.settings.antialias <==> devicePixelRatio == 1.0)
  {
    if !hasWindow {
      return null;
    }
    e := new Engine(config, devicePixelRatio);
    InitialInv(config);
  }
}
