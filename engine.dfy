/** Stand-ins for the pieces of the danogl engine that the world code talks to: vectors,
    layer numbers, game objects as identities with fixed geometry, the game-object
    collection the code adds objects to and removes them from, and the host's one-shot
    deferred callbacks. */
module Engine {

  /** `Block.SIZE`: the side of a terrain block, in pixels. */
  const BLOCK_SIZE: int := 30

  /** danogl's `Layer.BACKGROUND`. */
  const BACKGROUND: int := -200
  /** danogl's `Layer.STATIC_OBJECTS`. */
  const STATIC_OBJECTS: int := -100
  /** danogl's `Layer.DEFAULT`. */
  const DEFAULT: int := 0

  /** danogl's `Vector2`, with exact real coordinates. */
  datatype Vec = Vec(x: real, y: real) {
    function Add(o: Vec): Vec { Vec(x + o.x, y + o.y) }
  }

  /** The two fruit colours. */
  datatype Colour = Red | Orange

  /** What an object carries beyond tag and geometry: the seed of a leaf's wind-animation
      stream, or a fruit's colour. */
  datatype Extra = Plain | Wind(seed: int) | FruitColour(colour: Colour)

  /** Everything observable about a game object except its identity. */
  datatype Shape = Shape(tag: string, topLeft: Vec, dims: Vec, extra: Extra)

  /** A danogl `GameObject`. Two objects with the same shape are still different objects.
      Tag and geometry are fixed once the object is built. */
  class GameObject {
    const tag: string
    const topLeft: Vec
    const dims: Vec
    const extra: Extra

    constructor (tag: string, topLeft: Vec, dims: Vec, extra: Extra)
      ensures View() == Shape(tag, topLeft, dims, extra)
    {
      this.tag := tag;
      this.topLeft := topLeft;
      this.dims := dims;
      this.extra := extra;
    }

    function View(): Shape
    {
      Shape(tag, topLeft, dims, extra)
    }

    function Center(): Vec
    {
      Vec(topLeft.x + dims.x / 2.0, topLeft.y + dims.y / 2.0)
    }
  }

  /** The shapes of a list of objects, in order. */
  function Views(objs: seq<GameObject>): (r: seq<Shape>)
    ensures |r| == |objs|
    ensures forall i :: 0 <= i < |objs| ==> r[i] == objs[i].View()
  {
    seq(|objs|, i requires 0 <= i < |objs| => objs[i].View())
  }

  /** A prefix one longer is the prefix and the next element. */
  lemma PrefixSnoc<T>(s: seq<T>, n: nat)
    requires n < |s|
    ensures s[..n + 1] == s[..n] + [s[n]]
  {
  }

  lemma AppendAssoc<T>(a: seq<T>, b: seq<T>, c: seq<T>)
    ensures a + (b + c) == (a + b) + c
  {
  }

  lemma ViewsAppend(a: seq<GameObject>, b: seq<GameObject>)
    ensures Views(a + b) == Views(a) + Views(b)
  {
  }

  /** The registrations of a list of objects on one layer. */
  function OnLayer(objs: seq<GameObject>, layer: int): set<(GameObject, int)>
  {
    set o | o in objs :: (o, layer)
  }

  lemma OnLayerAppend(a: seq<GameObject>, b: seq<GameObject>, layer: int)
    ensures OnLayer(a + b, layer) == OnLayer(a, layer) + OnLayer(b, layer)
  {
  }

  /** danogl's `GameObjectCollection`, seen as the set of (object, layer) registrations. */
  class GameObjectCollection {
    var entries: set<(GameObject, int)>

    constructor ()
      ensures entries == {}
    {
      entries := {};
    }

    method AddGameObject(obj: GameObject, layer: int)
      modifies this
      ensures entries == old(entries) + {(obj, layer)}
    {
      entries := entries + {(obj, layer)};
    }

    /** Unregisters obj from exactly this layer; the result says whether it was there. */
    method RemoveGameObject(obj: GameObject, layer: int) returns (removed: bool)
      modifies this
      ensures entries == old(entries) - {(obj, layer)}
      ensures removed == ((obj, layer) in old(entries))
    {
      removed := (obj, layer) in entries;
      entries := entries - {(obj, layer)};
    }
  }

  /** What a deferred callback does when it fires. */
  datatype Action =
    | RespawnFruitAt(topLeft: Vec, collection: GameObjectCollection)
    | RemoveFromLayer(obj: GameObject, layer: int)

  /** A one-shot callback the host fires after `delay` seconds (a `ScheduledTask`, or the
      end-of-transition callback of a `Transition`). */
  datatype Deferred = Deferred(delay: real, action: Action)

  /** The host's timer facility: the callbacks scheduled and not yet fired. */
  class Timers {
    var pending: seq<Deferred>

    constructor ()
      ensures pending == []
    {
      pending := [];
    }

    method Schedule(d: Deferred)
      modifies this
      ensures pending == old(pending) + [d]
    {
      pending := pending + [d];
    }
  }
}
