/**
 * The older animation engine (`createAnim` in src/components/anim.ts): a
 * background picture with the CRT filter, a box wobbling about the centre of
 * the viewport, a tweened square in a centred holder, and two registration
 * marks in the bottom-right corner. No particles, no collision test.
 *
 * As in `AnimComp`, `EngineState` is the closure state as a value, the
 * functions say what each entry point does to it, and the methods of
 * `Engine` are proved to do exactly that.
 */
module Anim {
  import opened Scene

  const SquareSize := Size(40.0, 40.0)

  /** The names the engine files its sprites, containers and filters under, numbered. */
  newtype Name = x: int | 0 <= x < 7
  const Bg: Name := 0
  const Box: Name := 1
  const RegH: Name := 2
  const RegV: Name := 3
  const Square: Name := 4
  const SquareHolder: Name := 5
  const Crt: Name := 6

  /**
   * What one frame of the shared ticker brings: `ticker.elapsedMS`, and the
   * box's offset from its resting place, `(100·sin(2.5·t), 50·sin(5·t))` for
   * the elapsed time `t` after this frame.
   */
  datatype Frame = Frame(elapsedMS: real, wobble: Point)

  /**
   * The closure state of one engine; `picSize` is the native size of the
   * background picture. `tickerSubscribed` and `observing` stand for the
   * ticker subscription and the resize observer.
   */
  datatype EngineState = EngineState(
    picSize: Size,
    dims: Dims,
    startCalled: bool,
    elapsedTime: real,
    sprites: map<Name, Drawable>,
    containers: map<Name, Drawable>,
    filters: map<Name, Filter>,
    tickerSubscribed: bool,
    observing: bool)

  /** The state `createAnim` returns. */
  function Initial(picSize: Size): EngineState
  {
    EngineState(picSize, Dims(0, 0), false, 0.0, map[], map[], map[], false, false)
  }

  // ---------------------------------------------------------------- invariants

  /** Nothing built yet: what holds until the first `onStageResize`. */
  ghost predicate Unbuilt(s: EngineState)
  {
    s.sprites == map[] && s.containers == map[] && s.filters == map[] && !s.tickerSubscribed
  }

  /** The scene `start` builds, as it stays while the engine runs. */
  ghost predicate SceneBuilt(s: EngineState)
  {
    && s.startCalled
    && s.sprites.Keys == {Bg, Box, RegH, RegV, Square}
    && s.containers.Keys == {SquareHolder}
    && s.filters.Keys == {Crt}
    && s.sprites[Box].size == SquareSize
    && s.sprites[RegH].size == RegHSize
    && s.sprites[RegV].size == RegVSize
  }

  /** Every registry empty: what `destroy` leaves. */
  ghost predicate TornDown(s: EngineState)
  {
    s.sprites == map[] && s.containers == map[] && s.filters == map[]
  }

  /**
   * The engine's invariant: nothing is built before the first resize, the
   * scene is complete while the ticker is subscribed, a started engine that
   * still observes its host is ticking, and a started engine that no longer
   * ticks has been torn down.
   */
  ghost predicate Inv(s: EngineState)
  {
    && (!s.startCalled ==> Unbuilt(s))
    && (s.tickerSubscribed ==> SceneBuilt(s))
    && (s.observing && s.startCalled ==> s.tickerSubscribed)
    && (s.startCalled && !s.tickerSubscribed ==> TornDown(s))
  }

  // ---------------------------------------------------------------- onTick

  /**
   * `onTick`: accumulate time and place the box at the centre of the viewport,
   * less half its size, plus the frame's offset. The source subtracts half the
   * box's height from x and half its width from y; the box is square.
   */
  function Tick(s: EngineState, f: Frame): EngineState
    requires Box in s.sprites
  {
    var box := s.sprites[Box];
    var x := s.dims.width as real * 0.5 - box.size.h * 0.5 + f.wobble.x;
    var y := s.dims.height as real * 0.5 - box.size.w * 0.5 + f.wobble.y;
    s.(elapsedTime := s.elapsedTime + f.elapsedMS * 0.001, sprites := s.sprites[Box := box.(pos := Point(x, y))])
  }

  /**
   * In a running scene a frame moves the box and nothing else: the centre of
   * its unrotated 40×40 frame (top-left corner plus half its size) sits at the
   * centre of the viewport displaced by the frame's offset, and the elapsed
   * time grows by the frame's milliseconds in seconds. The 45° rotation the
   * box is drawn with is not modelled.
   */
  lemma TickCentresBox(s: EngineState, f: Frame)
    requires SceneBuilt(s)
    ensures var r := Tick(s, f);
      var box := r.sprites[Box];
      && SceneBuilt(r)
      && box.pos.x + box.size.w / 2.0 == s.dims.width as real / 2.0 + f.wobble.x
      && box.pos.y + box.size.h / 2.0 == s.dims.height as real / 2.0 + f.wobble.y
      && (forall name :: name in s.sprites && name != Box ==> r.sprites[name] == s.sprites[name])
      && SameDrawable(box, s.sprites[Box])
      && r.elapsedTime == s.elapsedTime + f.elapsedMS / 1000.0
      && r.containers == s.containers && r.filters == s.filters
      && r.dims == s.dims && r.startCalled == s.startCalled
  {
  }

  // ---------------------------------------------------------------- start

  /**
   * The building half of `start`: the background (with the CRT filter and the
   * fade-in tween), the 40×40 box, the two registration marks, the square
   * holder and the tweened 40×40 square inside it, the CRT filter itself; then
   * `ticker.add(onTick)`.
   */
  function Build(s: EngineState): EngineState
  {
    s.(sprites := s.sprites[Bg := Drawable(Origin, s.picSize, Unscaled, [NewCrt()], true)]
                           [Box := Plain(SquareSize)][RegH := Plain(RegHSize)][RegV := Plain(RegVSize)]
                           [Square := Plain(SquareSize).(tweened := true)],
       containers := s.containers[SquareHolder := Plain(NoSize)],
       filters := s.filters[Crt := NewCrt()],
       tickerSubscribed := true)
  }

  /** `start`: build the scene, subscribe to the ticker, and run one frame at once. */
  function AfterStart(s: EngineState, f: Frame): EngineState
  {
    Tick(Build(s), f)
  }

  lemma BuildMakesScene(s: EngineState)
    requires s.startCalled && Unbuilt(s)
    ensures SceneBuilt(Build(s))
    ensures Build(s).sprites[Bg].filters == [NewCrt()] && Build(s).sprites[Bg].tweened
    ensures Build(s).sprites[Square].tweened && !Build(s).sprites[Box].tweened
  {
  }

  // ---------------------------------------------------------------- onStageResize

  ghost predicate LayoutTargets(s: EngineState)
  {
    Bg in s.sprites && RegH in s.sprites && RegV in s.sprites && SquareHolder in s.containers
  }

  /**
   * The layout pass of `onStageResize`: centre and cover-fit the background,
   * pin the registration marks to the bottom-right corner, centre the square
   * holder.
   */
  function Layout(s: EngineState): EngineState
    requires LayoutTargets(s)
  {
    var width := s.dims.width as real;
    var height := s.dims.height as real;
    var bg := s.sprites[Bg];
    var regH := s.sprites[RegH];
    var regV := s.sprites[RegV];
    s.(sprites := s.sprites[Bg := bg.(pos := Centre(s.dims), scale := CoverFit(s.picSize, Size(width, height)))]
                           [RegH := regH.(pos := Point(width - regH.size.w, height - regH.size.h))]
                           [RegV := regV.(pos := Point(width - regV.size.w, height - regV.size.h))],
       containers := s.containers[SquareHolder := s.containers[SquareHolder].(pos := Centre(s.dims))])
  }

  /**
   * `onStageResize(width, height)`: store the size, build the scene on the
   * first call only, then run the layout pass. `f` is the frame `start` runs
   * at once; later calls do not use it.
   */
  function Resize(s: EngineState, width: int, height: int, f: Frame): EngineState
    requires s.startCalled ==> LayoutTargets(s)
  {
    var sized := s.(dims := Dims(width, height));
    var started := if sized.startCalled then sized else AfterStart(sized.(startCalled := true), f);
    Layout(started)
  }

  /**
   * Every resize delivered while observing keeps the invariant and leaves a
   * complete, ticking scene behind.
   */
  lemma ResizeKeepsInv(s: EngineState, width: int, height: int, f: Frame)
    requires Inv(s) && s.observing
    ensures s.startCalled ==> LayoutTargets(s)
    ensures var r := Resize(s, width, height, f); Inv(r) && SceneBuilt(r) && r.observing && r.tickerSubscribed
  {
    if !s.startCalled {
      var b := Build(s.(dims := Dims(width, height), startCalled := true));
      BuildMakesScene(s.(dims := Dims(width, height), startCalled := true));
      TickCentresBox(b, f);
    }
  }

  /**
   * After `onStageResize(width, height)`: `dims` is the new size; the background
   * and the square holder sit at the centre; the background is cover-fitted
   * from the picture's size; `regH` (50×10) is at (width-50, height-10) and
   * `regV` (10×50) at (width-10, height-50), both flush with the bottom-right
   * corner. On the first resize the centre of the box's unrotated frame is
   * the viewport's centre displaced by the offset of the frame `start` ran.
   */
  lemma ResizeLayout(s: EngineState, width: int, height: int, f: Frame)
    requires Inv(s) && s.observing
    ensures s.startCalled ==> LayoutTargets(s)
    ensures var r := Resize(s, width, height, f);
      var w, h := width as real, height as real;
      && r.dims == Dims(width, height)
      && r.sprites[Bg].pos == Point(w / 2.0, h / 2.0)
      && r.sprites[Bg].scale == CoverFit(s.picSize, Size(w, h))
      && r.containers[SquareHolder].pos == Point(w / 2.0, h / 2.0)
      && r.sprites[RegH].pos == Point(w - 50.0, h - 10.0)
      && r.sprites[RegV].pos == Point(w - 10.0, h - 50.0)
      && r.sprites[RegH].pos.x + r.sprites[RegH].size.w == w && r.sprites[RegH].pos.y + r.sprites[RegH].size.h == h
      && r.sprites[RegV].pos.x + r.sprites[RegV].size.w == w && r.sprites[RegV].pos.y + r.sprites[RegV].size.h == h
      && (!s.startCalled ==> r.sprites[Box].pos == Point(w / 2.0 - 20.0 + f.wobble.x, h / 2.0 - 20.0 + f.wobble.y))
  {
    ResizeKeepsInv(s, width, height, f);
  }

  /**
   * A resize after the first never rebuilds the scene: the registries keep
   * their names, every entry keeps its size, filters and tweens, the filters
   * are the same, the box has not moved and no time has passed.
   */
  lemma ResizeKeepsEntries(s: EngineState, width: int, height: int, f: Frame)
    requires Inv(s) && s.observing && s.startCalled
    ensures LayoutTargets(s)
    ensures var r := Resize(s, width, height, f);
      && r.sprites.Keys == s.sprites.Keys && r.containers.Keys == s.containers.Keys
      && (forall name :: name in s.sprites ==> SameDrawable(r.sprites[name], s.sprites[name]))
      && (forall name :: name in s.containers ==> SameDrawable(r.containers[name], s.containers[name]))
      && r.filters == s.filters
      && r.sprites[Box] == s.sprites[Box] && r.elapsedTime == s.elapsedTime
  {
  }

  // ---------------------------------------------------------------- destroy

  /**
   * `destroy`: unsubscribe the ticker, disconnect the observer, and empty the
   * three registries.
   */
  function AfterDestroy(s: EngineState): EngineState
  {
    s.(tickerSubscribed := false, observing := false, sprites := map[], containers := map[], filters := map[])
  }

  /** After `destroy` nothing ticks or is observed, and a second `destroy` changes nothing. */
  lemma DestroyIdempotent(s: EngineState)
    requires Inv(s)
    ensures var r := AfterDestroy(s);
      && Inv(r) && TornDown(r) && !r.tickerSubscribed && !r.observing
      && AfterDestroy(r) == r
      && Disposed(r.sprites, Cleared) == map[] && Disposed(r.filters, Destroyed) == map[]
  {
    var r := AfterDestroy(s);
    assert Disposed(r.sprites, Cleared).Keys == {};
    assert Disposed(r.filters, Destroyed).Keys == {};
  }

  // ---------------------------------------------------------------- lifecycle

  /** What the host delivers: a (rounded) resize, a ticker frame, or teardown. */
  datatype Event = Resized(width: int, height: int, frame: Frame) | Ticked(frame: Frame) | TornDownEvent

  /**
   * One event as the engine sees it: the observer calls `onStageResize` only
   * while connected and the ticker calls `onTick` only while subscribed.
   */
  function Step(s: EngineState, e: Event): (r: EngineState)
    requires Inv(s)
    ensures Inv(r)
  {
    match e
    case Resized(w, h, f) =>
      if s.observing then ResizeKeepsInv(s, w, h, f); Resize(s, w, h, f) else s
    case Ticked(f) =>
      if s.tickerSubscribed then TickCentresBox(s, f); Tick(s, f) else s
    case TornDownEvent =>
      DestroyIdempotent(s); AfterDestroy(s)
  }

  /** A whole sequence of events; the invariant holds throughout. */
  function Run(s: EngineState, events: seq<Event>): (r: EngineState)
    requires Inv(s)
    ensures Inv(r)
    decreases |events|
  {
    if events == [] then s else Run(Step(s, events[0]), events[1..])
  }

  /** Does this event make the engine call `start`? */
  predicate RunsStart(s: EngineState, e: Event)
  {
    e.Resized? && s.observing && !s.startCalled
  }

  /** How many times `start` runs over a sequence of events. */
  function StartCount(s: EngineState, events: seq<Event>): nat
    requires Inv(s)
    decreases |events|
  {
    if events == [] then 0
    else (if RunsStart(s, events[0]) then 1 else 0) + StartCount(Step(s, events[0]), events[1..])
  }

  /** `startCalled` is never reset. */
  lemma {:induction false} StartCalledSticky(s: EngineState, events: seq<Event>)
    requires Inv(s) && s.startCalled
    ensures Run(s, events).startCalled
    decreases |events|
  {
    if events != [] {
      StartCalledSticky(Step(s, events[0]), events[1..]);
    }
  }

  /** Over any sequence of events `start` runs at most once, and never again once it has run. */
  lemma {:induction false} StartAtMostOnce(s: EngineState, events: seq<Event>)
    requires Inv(s)
    ensures StartCount(s, events) <= (if s.startCalled then 0 else 1)
    decreases |events|
  {
    if events != [] {
      var s1 := Step(s, events[0]);
      StartAtMostOnce(s1, events[1..]);
      if RunsStart(s, events[0]) {
        ResizeKeepsInv(s, events[0].width, events[0].height, events[0].frame);
      }
    }
  }

  /**
   * For any non-empty sequence of resizes reaching an observing engine that
   * has not started, `start` runs exactly once, on the first resize, and
   * leaves the registries holding exactly the five sprites, the square holder
   * and the CRT filter.
   */
  lemma ResizesStartOnce(s: EngineState, events: seq<Event>)
    requires Inv(s) && s.observing && !s.startCalled
    requires |events| >= 1 && forall i :: 0 <= i < |events| ==> events[i].Resized?
    ensures RunsStart(s, events[0]) && Step(s, events[0]).startCalled
    ensures Step(s, events[0]).sprites.Keys == {Bg, Box, RegH, RegV, Square}
    ensures Step(s, events[0]).containers.Keys == {SquareHolder}
    ensures StartCount(s, events) == 1
  {
    var s1 := Step(s, events[0]);
    ResizeKeepsInv(s, events[0].width, events[0].height, events[0].frame);
    StartAtMostOnce(s1, events[1..]);
  }

  /** With no frame running time backwards, `elapsedTime` never decreases. */
  lemma {:induction false} ElapsedNeverDecreases(s: EngineState, events: seq<Event>)
    requires Inv(s)
    requires forall i :: 0 <= i < |events| && !events[i].TornDownEvent? ==> events[i].frame.elapsedMS >= 0.0
    ensures Run(s, events).elapsedTime >= s.elapsedTime
    decreases |events|
  {
    if events != [] {
      ElapsedNeverDecreases(Step(s, events[0]), events[1..]);
    }
  }

  /** The engine `init` hands over satisfies the invariant. */
  lemma InitialInv(picSize: Size)
    ensures Inv(Initial(picSize)) && Inv(Initial(picSize).(observing := true))
  {
  }

  // ---------------------------------------------------------------- the engine

  /**
   * One engine instance: the closure `createAnim` returns. Each method is
   * proved to change the fields exactly as the function of the same name
   * changes `State()`.
   */
  class Engine {
    /** The native size of `/img/pic-a.jpg`. */
    const picSize: Size
    /** `pxRatio` and `antialias`, fixed for the engine's lifetime. */
    const settings: RenderSettings

    var dims: Dims
    var startCalled: bool
    var elapsedTime: real
    var sprites: map<Name, Drawable>
    var containers: map<Name, Drawable>
    var filters: map<Name, Filter>
    var tickerSubscribed: bool
    var observing: bool

    function State(): EngineState
      reads this
    {
      EngineState(picSize, dims, startCalled, elapsedTime, sprites, containers, filters, tickerSubscribed, observing)
    }

    /** `createAnim` when a window exists. */
    constructor (picSize: Size, devicePixelRatio: real)
      ensures State() == Initial(picSize)
      ensures settings == Settings(true, devicePixelRatio)
    {
      this.picSize := picSize;
      settings := Settings(true, devicePixelRatio);
      dims := Dims(0, 0);
      startCalled := false;
      elapsedTime := 0.0;
      sprites, containers, filters := map[], map[], map[];
      tickerSubscribed, observing := false, false;
    }

    /** The end of `init`: the resize observer is attached to the host element. */
    method Init()
      modifies this
      ensures State() == old(State()).(observing := true)
    {
      observing := true;
    }

    /** The debounced ResizeObserver callback: ignore an empty batch, else resize to the rounded first entry. */
    method OnResizeEntries(entries: seq<ContentRect>, f: Frame)
      requires startCalled && |entries| >= 1 ==> LayoutTargets(State())
      modifies this
      ensures |entries| == 0 ==> State() == old(State())
      ensures |entries| >= 1 ==> State() == Resize(old(State()), Round(entries[0].width), Round(entries[0].height), f)
    {
      if |entries| >= 1 {
        OnStageResize(Round(entries[0].width), Round(entries[0].height), f);
      }
    }

    method OnStageResize(width: int, height: int, f: Frame)
      requires startCalled ==> LayoutTargets(State())
      modifies this
      ensures State() == Resize(old(State()), width, height, f)
    {
      dims := Dims(width, height);
      if !startCalled {
        startCalled := true;
        Start(f);
      }
      LayoutPass();
    }

    /** `start`: build the scene, then run one frame at once. */
    method Start(f: Frame)
      modifies this
      ensures State() == AfterStart(old(State()), f)
    {
      BuildScene();
      OnTick(f);
    }

    /** The building half of `start`, up to and including `ticker.add(onTick)`. */
    method BuildScene()
      modifies this
      ensures State() == Build(old(State()))
    {
      var sp := sprites[Bg := Drawable(Origin, picSize, Unscaled, [NewCrt()], true)];
      sp := sp[Box := Plain(SquareSize)][RegH := Plain(RegHSize)][RegV := Plain(RegVSize)];
      var cs := containers[SquareHolder := Plain(NoSize)];
      sp := sp[Square := Plain(SquareSize).(tweened := true)];
      sprites, containers, filters, tickerSubscribed := sp, cs, filters[Crt := NewCrt()], true;
    }

    method LayoutPass()
      requires LayoutTargets(State())
      modifies this
      ensures State() == Layout(old(State()))
    {
      var width := dims.width as real;
      var height := dims.height as real;
      var bg := sprites[Bg];
      var regH := sprites[RegH];
      var regV := sprites[RegV];
      sprites := sprites[Bg := bg.(pos := Centre(dims), scale := CoverFit(picSize, Size(width, height)))]
                        [RegH := regH.(pos := Point(width - regH.size.w, height - regH.size.h))]
                        [RegV := regV.(pos := Point(width - regV.size.w, height - regV.size.h))];
      containers := containers[SquareHolder := containers[SquareHolder].(pos := Centre(dims))];
    }

    method OnTick(f: Frame)
      requires Box in sprites
      modifies this
      ensures State() == Tick(old(State()), f)
    {
      elapsedTime := elapsedTime + f.elapsedMS * 0.001;
      var box := sprites[Box];
      var x := dims.width as real * 0.5 - box.size.h * 0.5 + f.wobble.x;
      var y := dims.height as real * 0.5 - box.size.w * 0.5 + f.wobble.y;
      sprites := sprites[Box := box.(pos := Point(x, y))];
    }

    /**
     * `destroy`, which also hands back each registry entry as it was when its
     * loop deleted it.
     */
    method Destroy() returns (releasedSprites: map<Name, Drawable>, releasedContainers: map<Name, Drawable>,
                              destroyedFilters: map<Name, Filter>)
      modifies this
      ensures State() == AfterDestroy(old(State()))
      ensures releasedSprites == Disposed(old(sprites), Cleared)
      ensures releasedContainers == Disposed(old(containers), Cleared)
      ensures destroyedFilters == Disposed(old(filters), Destroyed)
    {
      var remainingSprites, remainingContainers, remainingFilters;
      remainingSprites, releasedSprites := Drain(sprites, Cleared);
      remainingContainers, releasedContainers := Drain(containers, Cleared);
      remainingFilters, destroyedFilters := Drain(filters, Destroyed);
      tickerSubscribed, observing := false, false;
      sprites, containers, filters := remainingSprites, remainingContainers, remainingFilters;
    }
  }

  /** `createAnim`: no engine when `window` is falsy (`hasWindow` false). */
  method CreateAnim(hasWindow: bool, picSize: Size, devicePixelRatio: real) returns (e: Engine?)
    ensures e == null <==> !hasWindow
    ensures e != null ==> fresh(e) && Inv(e.State()) && e.State() == Initial(picSize)
    ensures e != null ==> e.settings == Settings(true, devicePixelRatio)
    ensures e != null ==> e.settings.resolution <= 2.0 && (e.settings.antialias <==> devicePixelRatio == 1.0)
  {
    if !hasWindow {
      return null;
    }
    e := new Engine(picSize, devicePixelRatio);
    InitialInv(picSize);
  }
}
