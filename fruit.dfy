/** `pepse.world.trees.Fruit`: a fruit on a tree, eaten once by the avatar and grown again
    at the same place one day-night cycle later. */
module Fruits {
  import opened Engine
  import opened Avatars

  /** `Fruit.SIZE`, which is `Block.SIZE`. */
  const SIZE: real := 30.0
  const FRUIT_TAG: string := "fruit"
  const ENERGY_BOOST: real := 10.0
  /** `PepseGameManager.CYCLE_LENGTH`: the respawn delay, in seconds. */
  const CYCLE_LENGTH: real := 30.0

  /** What a fruit looks like: a 30 x 30 object tagged "fruit" with its colour. */
  function FruitShape(topLeft: Vec, colour: Colour): Shape
  {
    Shape(FRUIT_TAG, topLeft, Vec(SIZE, SIZE), FruitColour(colour))
  }

  /** The object a fruit collides with: the avatar, or any other object by its tag. Only the
      avatar carries the tag "avatar" (the source casts any object so tagged to `Avatar`). */
  datatype Collider = AvatarObject(avatar: Avatar) | Other(tag: string)
  {
    predicate Tagged()
    {
      Other? ==> tag != AVATAR_TAG
    }
  }

  /** A `Fruit`: its game object, the collection its adder and remover act on, and whether it
      has been eaten. */
  class Fruit {
    const body: GameObject
    const scene: GameObjectCollection
    var isEaten: bool

    /** The two-argument constructor: a red fruit. */
    constructor (topLeft: Vec, scene: GameObjectCollection)
      ensures body.View() == FruitShape(topLeft, Red)
      ensures this.scene == scene && !isEaten && fresh(body)
    {
      body := new GameObject(FRUIT_TAG, topLeft, Vec(SIZE, SIZE), FruitColour(Red));
      this.scene := scene;
      isEaten := false;
    }

    /** The coloured constructor. */
    constructor Coloured (topLeft: Vec, scene: GameObjectCollection, colour: Colour)
      ensures body.View() == FruitShape(topLeft, colour)
      ensures this.scene == scene && !isEaten && fresh(body)
    {
      body := new GameObject(FRUIT_TAG, topLeft, Vec(SIZE, SIZE), FruitColour(colour));
      this.scene := scene;
      isEaten := false;
    }

    /** `onCollisionEnter`: the first touch by the avatar eats the fruit, gives the avatar 10
        energy (clamped), unregisters the fruit from `DEFAULT` and schedules one respawn at the
        same corner after a cycle. Any other collision, and any touch once eaten, changes
        nothing. `isEaten` never goes back to false. */
    method OnCollisionEnter(other: Collider, timers: Timers)
      requires other.Tagged()
      modifies this, scene, timers, if other.AvatarObject? then {other.avatar} else {}
      ensures old(isEaten) ==> isEaten
      ensures var eats := !old(isEaten) && other.AvatarObject?;
        && isEaten == (old(isEaten) || eats)
        && (eats ==>
              && other.avatar.energy == Clamp(old(other.avatar.energy) + ENERGY_BOOST)
              && scene.entries == old(scene.entries) - {(body, DEFAULT)}
              && timers.pending == old(timers.pending) + [Deferred(CYCLE_LENGTH, RespawnFruitAt(body.topLeft, scene))])
        && (!eats ==>
              && scene.entries == old(scene.entries)
              && timers.pending == old(timers.pending)
              && (other.AvatarObject? ==> other.avatar.energy == old(other.avatar.energy)))
      ensures other.AvatarObject? ==>
        && other.avatar.State() == old(other.avatar.State()).(energy := other.avatar.energy)
        && other.avatar.velocity == old(other.avatar.velocity)
    {
      if !isEaten && other.AvatarObject? {
        isEaten := true;
        var avatar := other.avatar;
        avatar.AddEnergy(ENERGY_BOOST);
        var _ := scene.RemoveGameObject(body, DEFAULT);
        timers.Schedule(Deferred(CYCLE_LENGTH, RespawnFruitAt(body.topLeft, scene)));
      }
    }
  }

  /** The scheduled respawn: a new uneaten fruit at the given corner, registered on `DEFAULT`.
      Its colour comes from an unseeded generator, so it is a parameter here. */
  method Respawn(topLeft: Vec, scene: GameObjectCollection, colour: Colour) returns (f: Fruit)
    modifies scene
    ensures fresh(f) && fresh(f.body) && !f.isEaten && f.scene == scene
    ensures f.body.View() == FruitShape(topLeft, colour)
    ensures scene.entries == old(scene.entries) + {(f.body, DEFAULT)}
  {
    f := new Fruit.Coloured(topLeft, scene, colour);
    scene.AddGameObject(f.body, DEFAULT);
  }
}
