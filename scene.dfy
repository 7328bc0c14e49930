/**
 * Values shared by both versions of the animation engine (`createAnim`):
 * geometry, the drawables kept in the name-keyed registries, the CRT filter,
 * and the small pieces both closures contain word for word: the pixel-ratio
 * setup, the rounding done by the resize callback, and the `for…in`/`delete`
 * loop that drains a registry in `destroy`.
 */
module Scene {

  datatype Option<T> = None | Some(value: T)

  datatype Point = Point(x: real, y: real)
  datatype Size = Size(w: real, h: real)

  const Origin := Point(0.0, 0.0)

  /** The registration marks pinned to the bottom-right corner. */
  const RegHSize := Size(50.0, 10.0)
  const RegVSize := Size(10.0, 50.0)
  /** A container has no size of its own in this model. */
  const NoSize := Size(0.0, 0.0)

  function Abs(x: real): real { if x < 0.0 then -x else x }

  /** The host element's content size after `Math.round`, in CSS pixels. */
  datatype Dims = Dims(width: int, height: int)

  /** The middle of the viewport. */
  function Centre(d: Dims): Point
  {
    Point(d.width as real * 0.5, d.height as real * 0.5)
  }

  /**
   * The uniform scale a drawable was given. The fitting functions live in a
   * module that is not part of this model, so a scale records which fit was
   * asked for and with which source and destination sizes, not its value.
   */
  datatype Scale =
    | Unscaled
    | ContainFit(src: Size, dst: Size)
    | CoverFit(src: Size, dst: Size)

  /**
   * A sprite or container held in a registry: where it is, the size it was
   * given when it was built, its scale, the names of the filters attached to
   * it, and whether a tween is animating it.
   */
  datatype Drawable = Drawable(pos: Point, size: Size, scale: Scale, filters: seq<Filter>, tweened: bool)

  /** A freshly built drawable: at the origin, unscaled, no filter, no tween. */
  function Plain(size: Size): Drawable
  {
    Drawable(Origin, size, Unscaled, [], false)
  }

  /** What `destroy` does to a drawable before deleting it: empty its filter list and kill its tweens. */
  function Cleared(d: Drawable): Drawable
  {
    d.(filters := [], tweened := false)
  }

  /**
   * A layout pass or a frame moves and rescales drawables and nothing more:
   * the drawable keeps its size, filters and tweens.
   */
  predicate SameDrawable(a: Drawable, b: Drawable)
  {
    a.size == b.size && a.filters == b.filters && a.tweened == b.tweened
  }

  /** The CRT post-processing filter and whether `destroy(false)` has been called on it. */
  datatype Filter = CrtFilter(lineContrast: real, lineWidth: real, destroyed: bool)

  function NewCrt(): Filter { CrtFilter(0.3, 4.0, false) }

  function Destroyed(f: Filter): Filter { f.(destroyed := true) }

  /** Every entry of `registry` after `dispose`. */
  function Disposed<K, V>(registry: map<K, V>, dispose: V -> V): map<K, V>
  {
    map name | name in registry :: dispose(registry[name])
  }

  /**
   * What the loops of `destroy` do to each entry before deleting it: a sprite
   * or container loses its filters and tweens and keeps its position, size
   * and scale; a filter is destroyed and keeps its settings.
   */
  lemma DestroyReleasesAll<K>(drawables: map<K, Drawable>, filters: map<K, Filter>)
    ensures var released := Disposed(drawables, Cleared);
      && released.Keys == drawables.Keys
      && (forall name :: name in drawables ==>
            released[name].filters == [] && !released[name].tweened
            && released[name].pos == drawables[name].pos && released[name].size == drawables[name].size
            && released[name].scale == drawables[name].scale)
    ensures var destroyed := Disposed(filters, Destroyed);
      && destroyed.Keys == filters.Keys
      && (forall name :: name in filters ==>
            destroyed[name].destroyed && destroyed[name].lineWidth == filters[name].lineWidth
            && destroyed[name].lineContrast == filters[name].lineContrast)
  {
  }

  /**
   * One of the `for (const name in registry) { …; delete registry[name]; }`
   * loops of `destroy`: every entry is disposed of (`dispose`) and deleted.
   * `released` records each entry as it was at the moment it was deleted.
   * The iteration order of `for…in` is not modelled; no result depends on it.
   */
  method Drain<K, V>(registry: map<K, V>, dispose: V -> V) returns (remaining: map<K, V>, released: map<K, V>)
    ensures remaining == map[]
    ensures released == Disposed(registry, dispose)
  {
    remaining, released := registry, map[];
    ghost var deleted: set<K> := {};
    while remaining.Keys != {}
      invariant deleted <= registry.Keys
      invariant remaining == map name | name in registry.Keys - deleted :: registry[name]
      invariant released == map name | name in deleted :: dispose(registry[name])
      decreases remaining.Keys
    {
      var name :| name in remaining.Keys;
      released := released[name := dispose(remaining[name])];
      remaining := remaining - {name};
      deleted := deleted + {name};
    }
  }

  /** The part of a ResizeObserver entry the callback reads. */
  datatype ContentRect = ContentRect(width: real, height: real)

  /** JavaScript's `Math.round`: the nearest integer, halves rounded up. */
  function Round(x: real): (r: int)
    ensures r as real - 0.5 <= x < r as real + 0.5
  {
    (x + 0.5).Floor
  }

  /** The renderer options `init` passes on: resolution and anti-aliasing. */
  datatype RenderSettings = RenderSettings(resolution: real, antialias: bool)

  /**
   * `pxRatio = window ? Math.min(window.devicePixelRatio, 2.0) : 1.0` and
   * `antialias: !window || pxRatio === 1.0`.
   */
  function Settings(hasWindow: bool, devicePixelRatio: real): (r: RenderSettings)
    ensures r.resolution <= 2.0
    ensures hasWindow ==> r.resolution <= devicePixelRatio
    ensures hasWindow && devicePixelRatio <= 2.0 ==> r.resolution == devicePixelRatio
    ensures hasWindow && devicePixelRatio >= 2.0 ==> r.resolution == 2.0
    ensures hasWindow ==> (r.antialias <==> devicePixelRatio == 1.0)
    ensures !hasWindow ==> r.resolution == 1.0 && r.antialias
  {
    var pxRatio := if hasWindow then (if devicePixelRatio < 2.0 then devicePixelRatio else 2.0) else 1.0;
    RenderSettings(pxRatio, !hasWindow || pxRatio == 1.0)
  }
}
