/** `pepse.PepseGameManager`'s infinite world: a cache of 300-pixel chunks keyed by chunk id,
    filled around the avatar as it moves and emptied of chunks that have fallen far behind.
    Each chunk holds the terrain blocks and the flora objects built for it, both generated
    from the seed `Objects.hash(id, 5)`; the cache registers them on the game-object
    collection when it builds them and unregisters them when it evicts them. */
module GameManager {
  import opened JavaLang
  import opened Engine
  import opened JavaRandom
  import Terrain
  import Flora
  import Avatars
  import Clouds

  const SEED: int := 5
  const WORLD_BUFFER_SIZE: real := 800.0
  const WORLD_CLEANUP_DISTANCE: real := 1200.0
  /** `Block.SIZE * 10`. */
  const CHUNK_SIZE: int := BLOCK_SIZE * 10
  /** `Block.SIZE * 0.5f`: the avatar must move further than this for the world to update. */
  const UPDATE_THRESHOLD: real := 15.0
  const HALF: real := 2.0
  const TRUNK_TAG: string := "trunk"

  function Abs(r: real): (a: real)
    ensures a >= 0.0 && (a == r || a == -r)
  {
    if r < 0.0 then -r else r
  }

  /** The seed both generators of chunk `id` receive. */
  function ChunkSeed(id: int): Int32
  {
    ObjectsHash2(id, SEED)
  }

  /** `Objects.hash(id, 5)` is `966 + 31 * id`, wrapped to 32 bits. */
  lemma ChunkSeedValue(id: int)
    ensures ChunkSeed(id) == Wrap32(966 + 31 * id)
  {
    ObjectsHash2Closed(id, SEED);
  }

  /** The id of the chunk holding x: `(int) Math.floor(x / CHUNK_SIZE)`. */
  function ChunkOf(x: real): int
  {
    (x / CHUNK_SIZE as real).Floor
  }

  /** The ids from lo to hi, both included. */
  function IdRange(lo: int, hi: int): (r: set<int>)
    ensures forall id :: id in r <==> lo <= id <= hi
    decreases hi - lo
  {
    if lo > hi then {} else {lo} + IdRange(lo + 1, hi)
  }

  lemma IdRangeSnoc(lo: int, hi: int)
    requires lo <= hi + 1
    ensures IdRange(lo, hi + 1) == IdRange(lo, hi) + {hi + 1}
  {
  }

  /** One more id of the range is cached. */
  lemma RangeKeysStep(keys: set<int>, base: set<int>, lo: int, id: int)
    requires lo <= id && keys == base + IdRange(lo, id - 1)
    ensures keys + {id} == base + IdRange(lo, id)
  {
    IdRangeSnoc(lo, id - 1);
  }

  /** Adding a key that was not there before adds it to the keys that are new. */
  lemma NewKeysInsert(now: set<int>, before: set<int>, id: int)
    requires id !in now && before <= now
    ensures (now + {id}) - before == (now - before) + {id}
  {
  }

  lemma NonEmptyHasKey(s: set<int>)
    requires s != {}
    ensures exists k :: k in s
  {
    if forall k :: k !in s {
      assert false;
    }
  }

  /** The ids `createWorldInRange(minX, maxX)` visits. */
  function ChunkRange(minX: real, maxX: real): set<int>
  {
    IdRange(ChunkOf(minX), ChunkOf(maxX))
  }

  /** The chunks around an avatar at x: those of the range 800 pixels either side. */
  function Window(x: real): set<int>
  {
    ChunkRange(x - WORLD_BUFFER_SIZE, x + WORLD_BUFFER_SIZE)
  }

  function ChunkCentre(id: int): real
  {
    (id * CHUNK_SIZE) as real + CHUNK_SIZE as real / HALF
  }

  /** A chunk cleanup keeps: its centre is at most 1200 pixels from x. */
  predicate Near(id: int, x: real)
  {
    Abs(ChunkCentre(id) - x) <= WORLD_CLEANUP_DISTANCE
  }

  /** Every chunk of the window has its centre within 950 pixels of x, so the cleanup of the
      same update never evicts it. */
  lemma WindowIsNear(x: real, id: int)
    requires id in Window(x)
    ensures Abs(ChunkCentre(id) - x) <= 950.0
    ensures Near(id, x)
  {
    var lo := (x - WORLD_BUFFER_SIZE) / 300.0;
    var hi := (x + WORLD_BUFFER_SIZE) / 300.0;
    assert ChunkOf(x - WORLD_BUFFER_SIZE) == lo.Floor && ChunkOf(x + WORLD_BUFFER_SIZE) == hi.Floor;
    assert lo.Floor <= id <= hi.Floor;
    assert (lo.Floor as real) <= lo < (lo.Floor as real) + 1.0;
    assert (hi.Floor as real) <= hi;
    assert id as real > lo - 1.0;
    assert id as real <= hi;
    assert ChunkCentre(id) == 300.0 * id as real + 150.0;
  }

  /** An illustration of `Window` on one input: an avatar at 0 streams chunks -3 to 2. */
  lemma WindowAtOrigin()
    ensures Window(0.0) == IdRange(-3, 2)
  {
    assert (-800.0 / 300.0).Floor == -3;
    assert (800.0 / 300.0).Floor == 2;
  }

  /** An illustration of `Near` at one avatar position (the general fact is `WindowIsNear`): a
      cleanup at x = 1000 keeps exactly chunks -1 to 6. */
  lemma NearAt1000(id: int)
    ensures Near(id, 1000.0) <==> -1 <= id <= 6
  {
    assert ChunkCentre(id) - 1000.0 == 300.0 * id as real - 850.0;
    if id <= -2 {
      assert 300.0 * id as real <= -600.0;
    } else if id >= 7 {
      assert 300.0 * id as real >= 2100.0;
    }
  }

  /** Adjacent terrain chunks (from chunk -1 on) both build the column on their common
      border, because the terrain's upper bound is inclusive. */
  lemma TerrainChunksShareBorder(id: int)
    requires id >= -1
    ensures var here := Terrain.ColumnXs(Terrain.RoundToNearestStep(id * CHUNK_SIZE, Terrain.Down),
                                         Terrain.RoundToNearestStep(id * CHUNK_SIZE + CHUNK_SIZE, Terrain.Up));
            var next := Terrain.ColumnXs(Terrain.RoundToNearestStep((id + 1) * CHUNK_SIZE, Terrain.Down),
                                         Terrain.RoundToNearestStep((id + 1) * CHUNK_SIZE + CHUNK_SIZE, Terrain.Up));
            here[|here| - 1] == next[0] == (id + 1) * CHUNK_SIZE
  {
    assert id * CHUNK_SIZE == 300 * id && (id + 1) * CHUNK_SIZE == 300 * (id + 1);
    Terrain.ChunkColumns(id);
    Terrain.ChunkColumns(id + 1);
  }

  /** The flora of different chunks covers different columns. */
  lemma FloraChunksDisjoint(id: int, other: int, x: int)
    requires id != other
    requires x in Flora.FloraXs(id * CHUNK_SIZE, id * CHUNK_SIZE + CHUNK_SIZE)
    ensures x !in Flora.FloraXs(other * CHUNK_SIZE, other * CHUNK_SIZE + CHUNK_SIZE)
  {
    assert id * CHUNK_SIZE == 300 * id && other * CHUNK_SIZE == 300 * other;
    Flora.ChunkFloraBounds(id, x);
    Flora.ChunkFloraBounds(other, x);
  }

  /** The registrations a chunk makes when it is built: terrain blocks on `STATIC_OBJECTS`,
      flora objects on their kinds' layers. */
  function ChunkRegistrations(blocks: seq<GameObject>, flora: seq<GameObject>): set<(GameObject, int)>
  {
    OnLayer(blocks, STATIC_OBJECTS) + Flora.Registrations(flora)
  }

  /** What eviction unregisters for one flora object: a trunk from `STATIC_OBJECTS`, anything
      else from both `DEFAULT` and `DEFAULT - 1`. */
  function ObjectRemovals(obj: GameObject): set<(GameObject, int)>
  {
    if obj.tag == TRUNK_TAG then {(obj, STATIC_OBJECTS)} else {(obj, DEFAULT), (obj, DEFAULT - 1)}
  }

  function FloraRemovals(objs: seq<GameObject>): set<(GameObject, int)>
  {
    set obj, e | obj in objs && e in ObjectRemovals(obj) :: e
  }

  lemma FloraRemovalsAppend(a: seq<GameObject>, b: seq<GameObject>)
    ensures FloraRemovals(a + b) == FloraRemovals(a) + FloraRemovals(b)
  {
    forall e | e in FloraRemovals(a + b)
      ensures e in FloraRemovals(a) + FloraRemovals(b)
    {
      var obj :| obj in a + b && e in ObjectRemovals(obj);
    }
  }

  /** What eviction unregisters for a chunk. */
  function ChunkRemovals(blocks: seq<GameObject>, flora: seq<GameObject>): set<(GameObject, int)>
  {
    OnLayer(blocks, STATIC_OBJECTS) + FloraRemovals(flora)
  }

  /** Every registration flora creation makes is undone by eviction. */
  lemma {:induction false} FloraRemovalsCover(objs: seq<GameObject>)
    ensures Flora.Registrations(objs) <= FloraRemovals(objs)
  {
    if objs != [] {
      var init, last := objs[..|objs| - 1], objs[|objs| - 1];
      assert objs == init + [last];
      FloraRemovalsCover(init);
      FloraRemovalsAppend(init, [last]);
      assert (last, Flora.LayerOf(last.tag)) in ObjectRemovals(last);
      assert ObjectRemovals(last) <= FloraRemovals([last]);
    }
  }

  /** No registration made for a chunk at creation survives its eviction. */
  lemma EvictionUndoesCreation(blocks: seq<GameObject>, flora: seq<GameObject>)
    ensures ChunkRegistrations(blocks, flora) <= ChunkRemovals(blocks, flora)
  {
    FloraRemovalsCover(flora);
  }

  /** The keys through the moving branch of `updateInfiniteWorld`: k0 filled with the window
      around x gives k1, whose near chunks are k2. Every window chunk is near, so k2 keeps the
      whole window, the new chunks survive the cleanup and the evicted ones were all in k0. */
  lemma FillThenCleanupKeys(x: real, k0: set<int>, k1: set<int>, k2: set<int>)
    requires k1 == k0 + Window(x)
    requires k2 == set id | id in k1 && Near(id, x)
    ensures Window(x) <= k2
    ensures k2 == set id | id in k0 + Window(x) && Near(id, x)
    ensures k2 - k0 == k1 - k0
    ensures (set id | id in k1 && !Near(id, x)) == set id | id in k0 && !Near(id, x)
  {
    forall id | id in Window(x)
      ensures Near(id, x)
    {
      WindowIsNear(x, id);
    }
  }

  /** A chunk cache: chunk id to the objects built for it. */
  type ChunkMap = map<int, seq<GameObject>>

  /** Caching a new chunk, on the values it goes through: a scene holding the base entries
      plus the registrations of the chunks cached since the base keys still does once the new
      chunk's registrations are added. */
  lemma CacheInsertEntries(chunkId: int, baseKeys: set<int>, baseEntries: set<(GameObject, int)>,
                           tc: ChunkMap, fc: ChunkMap, e: set<(GameObject, int)>,
                           tc2: ChunkMap, fc2: ChunkMap, e2: set<(GameObject, int)>)
    requires chunkId !in tc && tc.Keys == fc.Keys && baseKeys <= tc.Keys
    requires chunkId in tc2 && chunkId in fc2
    requires tc2 == tc[chunkId := tc2[chunkId]] && fc2 == fc[chunkId := fc2[chunkId]]
    requires e == baseEntries + ChunksRegistrations(tc, fc, tc.Keys - baseKeys)
    requires e2 == e + ChunkRegistrations(tc2[chunkId], fc2[chunkId])
    ensures e2 == baseEntries + ChunksRegistrations(tc2, fc2, tc2.Keys - baseKeys)
  {
    var added := tc.Keys - baseKeys;
    ChunksRegistrationsFrame(tc, fc, tc2, fc2, added);
    ChunksRegistrationsInsert(tc2, fc2, added, chunkId);
    NewKeysInsert(tc.Keys, baseKeys, chunkId);
  }

  /** The registrations of a set of cached chunks. */
  function ChunksRegistrations(tc: map<int, seq<GameObject>>, fc: map<int, seq<GameObject>>, ids: set<int>)
    : set<(GameObject, int)>
    requires ids <= tc.Keys && ids <= fc.Keys
  {
    set id, e | id in ids && e in ChunkRegistrations(tc[id], fc[id]) :: e
  }

  /** What evicting a set of cached chunks unregisters. */
  function ChunksRemovals(tc: map<int, seq<GameObject>>, fc: map<int, seq<GameObject>>, ids: set<int>)
    : set<(GameObject, int)>
    requires ids <= tc.Keys && ids <= fc.Keys
  {
    set id, e | id in ids && e in ChunkRemovals(tc[id], fc[id]) :: e
  }

  lemma ChunksRegistrationsInsert(tc: map<int, seq<GameObject>>, fc: map<int, seq<GameObject>>, ids: set<int>, id: int)
    requires ids <= tc.Keys && ids <= fc.Keys && id in tc && id in fc
    ensures ChunksRegistrations(tc, fc, ids + {id})
         == ChunksRegistrations(tc, fc, ids) + ChunkRegistrations(tc[id], fc[id])
  {
    var all := ids + {id};
    forall e | e in ChunksRegistrations(tc, fc, all)
      ensures e in ChunksRegistrations(tc, fc, ids) + ChunkRegistrations(tc[id], fc[id])
    {
      var k :| k in all && e in ChunkRegistrations(tc[k], fc[k]);
    }
  }

  lemma ChunksRemovalsInsert(tc: map<int, seq<GameObject>>, fc: map<int, seq<GameObject>>, ids: set<int>, id: int)
    requires ids <= tc.Keys && ids <= fc.Keys && id in tc && id in fc
    ensures ChunksRemovals(tc, fc, ids + {id}) == ChunksRemovals(tc, fc, ids) + ChunkRemovals(tc[id], fc[id])
  {
    var all := ids + {id};
    forall e | e in ChunksRemovals(tc, fc, all)
      ensures e in ChunksRemovals(tc, fc, ids) + ChunkRemovals(tc[id], fc[id])
    {
      var k :| k in all && e in ChunkRemovals(tc[k], fc[k]);
    }
  }

  /** Only the chunks of `ids` matter: two caches that agree on them register the same. */
  lemma ChunksRegistrationsFrame(tc: map<int, seq<GameObject>>, fc: map<int, seq<GameObject>>,
                                 tc2: map<int, seq<GameObject>>, fc2: map<int, seq<GameObject>>, ids: set<int>)
    requires ids <= tc.Keys && ids <= fc.Keys && ids <= tc2.Keys && ids <= fc2.Keys
    requires forall id :: id in ids ==> tc[id] == tc2[id] && fc[id] == fc2[id]
    ensures ChunksRegistrations(tc, fc, ids) == ChunksRegistrations(tc2, fc2, ids)
  {
    forall e | e in ChunksRegistrations(tc, fc, ids)
      ensures e in ChunksRegistrations(tc2, fc2, ids)
    {
      var k :| k in ids && e in ChunkRegistrations(tc[k], fc[k]);
    }
    forall e | e in ChunksRegistrations(tc2, fc2, ids)
      ensures e in ChunksRegistrations(tc, fc, ids)
    {
      var k :| k in ids && e in ChunkRegistrations(tc2[k], fc2[k]);
    }
  }

  lemma ChunksRemovalsFrame(tc: map<int, seq<GameObject>>, fc: map<int, seq<GameObject>>,
                            tc2: map<int, seq<GameObject>>, fc2: map<int, seq<GameObject>>, ids: set<int>)
    requires ids <= tc.Keys && ids <= fc.Keys && ids <= tc2.Keys && ids <= fc2.Keys
    requires forall id :: id in ids ==> tc[id] == tc2[id] && fc[id] == fc2[id]
    ensures ChunksRemovals(tc, fc, ids) == ChunksRemovals(tc2, fc2, ids)
  {
    forall e | e in ChunksRemovals(tc, fc, ids)
      ensures e in ChunksRemovals(tc2, fc2, ids)
    {
      var k :| k in ids && e in ChunkRemovals(tc[k], fc[k]);
    }
    forall e | e in ChunksRemovals(tc2, fc2, ids)
      ensures e in ChunksRemovals(tc, fc, ids)
    {
      var k :| k in ids && e in ChunkRemovals(tc2[k], fc2[k]);
    }
  }

  /** The cache of a `PepseGameManager`: the chunk maps, the x of the last world update, and
      what every chunk is built from (window height, noise, the random streams). */
  class PepseGameManager {
    const scene: GameObjectCollection
    const windowHeight: real
    const smooth: Terrain.SmoothNoise
    const oracle: Oracle
    var terrainChunks: map<int, seq<GameObject>>
    var floraChunks: map<int, seq<GameObject>>
    var lastWorldUpdateX: real

    /** The height field of chunk `id`'s `Terrain`. */
    function ChunkField(id: int): Terrain.HeightField
    {
      Terrain.FieldFor(windowHeight, ChunkSeed(id), smooth)
    }

    /** The terrain chunk `id` holds: `createInRange(300 id, 300 id + 300)` of its terrain. */
    function ChunkTerrain(id: int): seq<Shape>
    {
      Terrain.Layout(ChunkField(id),
        Terrain.ColumnXs(Terrain.RoundToNearestStep(id * CHUNK_SIZE, Terrain.Down),
                         Terrain.RoundToNearestStep(id * CHUNK_SIZE + CHUNK_SIZE, Terrain.Up)))
    }

    /** The flora chunk `id` holds: same range, same seed, ground from the chunk's terrain, and
        the `Float.MAX_VALUE` player position that switches the safe zone off. */
    function ChunkFlora(id: int): seq<Shape>
    {
      Flora.FloraLayout(ChunkField(id), oracle, ChunkSeed(id), Finite(FLOAT_MAX_VALUE),
                        Flora.FloraXs(id * CHUNK_SIZE, id * CHUNK_SIZE + CHUNK_SIZE))
    }

    /** In the chunk maps tc and fc, chunk `id` is cached and holds the terrain and flora
        built for it. */
    ghost predicate Built(tc: map<int, seq<GameObject>>, fc: map<int, seq<GameObject>>, id: int)
    {
      && id in tc && id in fc
      && Views(tc[id]) == ChunkTerrain(id) && Views(fc[id]) == ChunkFlora(id)
    }

    /** The two maps always have the same keys. What a chunk holds is fixed when it is built
        (`CreateChunkIfNeeded`) and every other operation leaves cached chunks as they are. */
    ghost predicate Valid()
      reads this
    {
      terrainChunks.Keys == floraChunks.Keys
    }

    /** An empty cache, last update at 0. */
    constructor (scene: GameObjectCollection, windowHeight: real, smooth: Terrain.SmoothNoise, oracle: Oracle)
      ensures this.scene == scene && this.windowHeight == windowHeight
      ensures this.smooth == smooth && this.oracle == oracle
      ensures terrainChunks == map[] && floraChunks == map[] && lastWorldUpdateX == 0.0
      ensures Valid()
    {
      this.scene := scene;
      this.windowHeight := windowHeight;
      this.smooth := smooth;
      this.oracle := oracle;
      terrainChunks := map[];
      floraChunks := map[];
      lastWorldUpdateX := 0.0;
    }

    /** `createChunkIfNeeded`: a cached id changes nothing; otherwise the chunk's terrain
        blocks are built and registered on `STATIC_OBJECTS`, its flora is built (registering
        itself), and both lists are cached under the id. */
    method CreateChunkIfNeeded(chunkId: int)
      requires Valid()
      modifies this`terrainChunks, this`floraChunks, scene
      ensures Valid()
      ensures terrainChunks.Keys == old(terrainChunks).Keys + {chunkId}
      ensures forall id :: id in old(terrainChunks) ==>
        terrainChunks[id] == old(terrainChunks)[id] && floraChunks[id] == old(floraChunks)[id]
      ensures chunkId in old(terrainChunks) ==>
        && terrainChunks == old(terrainChunks) && floraChunks == old(floraChunks)
        && scene.entries == old(scene.entries)
      ensures chunkId !in old(terrainChunks) ==>
        && terrainChunks == old(terrainChunks)[chunkId := terrainChunks[chunkId]]
        && floraChunks == old(floraChunks)[chunkId := floraChunks[chunkId]]
        && Views(terrainChunks[chunkId]) == ChunkTerrain(chunkId)
        && Views(floraChunks[chunkId]) == ChunkFlora(chunkId)
        && scene.entries == old(scene.entries) + ChunkRegistrations(terrainChunks[chunkId], floraChunks[chunkId])
        && (forall obj :: obj in terrainChunks[chunkId] ==> fresh(obj))
        && (forall obj :: obj in floraChunks[chunkId] ==> fresh(obj))
    {
      if chunkId !in terrainChunks {
        var terrainBlocks, field := BuildTerrain(chunkId);
        terrainChunks := terrainChunks[chunkId := terrainBlocks];
        var floraObjects := BuildFlora(chunkId, field);
        floraChunks := floraChunks[chunkId := floraObjects];
      }
    }

    /** The terrain half of `createChunkIfNeeded`: a `Terrain` seeded for the chunk builds the
        blocks of the chunk's range, and each is registered on `STATIC_OBJECTS`. */
    method BuildTerrain(chunkId: int) returns (terrainBlocks: seq<GameObject>, field: Terrain.HeightField)
      modifies scene
      ensures field == ChunkField(chunkId)
      ensures Views(terrainBlocks) == ChunkTerrain(chunkId)
      ensures forall obj :: obj in terrainBlocks ==> fresh(obj)
      ensures scene.entries == old(scene.entries) + OnLayer(terrainBlocks, STATIC_OBJECTS)
    {
      var chunkStartX := chunkId * CHUNK_SIZE;
      var chunkEndX := chunkStartX + CHUNK_SIZE;
      var chunkTerrain := new Terrain.Terrain(windowHeight, ObjectsHash2(chunkId, SEED), smooth);
      terrainBlocks := chunkTerrain.CreateInRange(chunkStartX, chunkEndX);
      RegisterAll(terrainBlocks, STATIC_OBJECTS);
      field := chunkTerrain.field;
    }

    /** The flora half of `createChunkIfNeeded`: a `Flora` with the chunk's seed, the ground of
        the chunk's terrain and the `Float.MAX_VALUE` player position builds the chunk's range,
        registering what it builds. */
    method BuildFlora(chunkId: int, field: Terrain.HeightField) returns (floraObjects: seq<GameObject>)
      requires field == ChunkField(chunkId)
      modifies scene
      ensures Views(floraObjects) == ChunkFlora(chunkId)
      ensures forall obj :: obj in floraObjects ==> fresh(obj)
      ensures scene.entries == old(scene.entries) + Flora.Registrations(floraObjects)
    {
      var chunkStartX := chunkId * CHUNK_SIZE;
      var chunkEndX := chunkStartX + CHUNK_SIZE;
      var chunkFlora := new Flora.Flora(scene, field, ObjectsHash2(chunkId, SEED), Finite(FLOAT_MAX_VALUE), oracle);
      floraObjects := chunkFlora.CreateInRange(chunkStartX, chunkEndX);
    }

    /** The loop over a chunk's terrain blocks that registers each on a layer. */
    method RegisterAll(objs: seq<GameObject>, layer: int)
      modifies scene
      ensures scene.entries == old(scene.entries) + OnLayer(objs, layer)
    {
      for i := 0 to |objs|
        invariant scene.entries == old(scene.entries) + OnLayer(objs[..i], layer)
      {
        PrefixSnoc(objs, i);
        OnLayerAppend(objs[..i], [objs[i]], layer);
        scene.AddGameObject(objs[i], layer);
      }
      assert objs[..|objs|] == objs;
    }

    /** `createWorldInRange`: every chunk id from `floor(minX / 300)` to `floor(maxX / 300)`
        is cached afterwards; chunks already cached are left as they were, and the new ones
        are registered. */
    method CreateWorldInRange(minX: real, maxX: real)
      requires Valid()
      modifies this`terrainChunks, this`floraChunks, scene
      ensures Valid()
      ensures terrainChunks.Keys == old(terrainChunks).Keys + ChunkRange(minX, maxX)
      ensures forall id :: id in old(terrainChunks) ==>
        terrainChunks[id] == old(terrainChunks)[id] && floraChunks[id] == old(floraChunks)[id]
      ensures forall id :: id in terrainChunks && id !in old(terrainChunks) ==> Built(terrainChunks, floraChunks, id)
      ensures scene.entries == old(scene.entries)
        + ChunksRegistrations(terrainChunks, floraChunks, terrainChunks.Keys - old(terrainChunks).Keys)
    {
      var startChunk := ChunkOf(minX);
      var endChunk := ChunkOf(maxX);
      var chunkId := startChunk;
      while chunkId <= endChunk
        invariant startChunk <= chunkId && (chunkId <= endChunk + 1 || chunkId == startChunk)
        invariant Valid()
        invariant terrainChunks.Keys == old(terrainChunks).Keys + IdRange(startChunk, chunkId - 1)
        invariant forall id :: id in old(terrainChunks) ==>
          terrainChunks[id] == old(terrainChunks)[id] && floraChunks[id] == old(floraChunks)[id]
        invariant forall id :: id in terrainChunks && id !in old(terrainChunks) ==> Built(terrainChunks, floraChunks, id)
        invariant scene.entries == old(scene.entries)
          + ChunksRegistrations(terrainChunks, floraChunks, terrainChunks.Keys - old(terrainChunks).Keys)
        decreases endChunk - chunkId
      {
        ghost var keys := terrainChunks.Keys;
        CreateChunkTracked(chunkId, old(terrainChunks).Keys, old(scene.entries));
        RangeKeysStep(keys, old(terrainChunks).Keys, startChunk, chunkId);
        chunkId := chunkId + 1;
      }
    }

    /** One pass of `createWorldInRange`'s loop, seen from the start of the loop: the scene
        holds what it held then plus the registrations of the chunks cached since, and it
        still does once the chunk is created if needed. */
    method CreateChunkTracked(chunkId: int, ghost baseKeys: set<int>, ghost baseEntries: set<(GameObject, int)>)
      requires Valid() && baseKeys <= terrainChunks.Keys
      requires scene.entries == baseEntries + ChunksRegistrations(terrainChunks, floraChunks, terrainChunks.Keys - baseKeys)
      requires forall id :: id in terrainChunks && id !in baseKeys ==> Built(terrainChunks, floraChunks, id)
      modifies this`terrainChunks, this`floraChunks, scene
      ensures Valid()
      ensures terrainChunks.Keys == old(terrainChunks).Keys + {chunkId}
      ensures forall id :: id in old(terrainChunks) ==>
        terrainChunks[id] == old(terrainChunks)[id] && floraChunks[id] == old(floraChunks)[id]
      ensures chunkId !in old(terrainChunks) ==> Built(terrainChunks, floraChunks, chunkId)
      ensures forall id :: id in terrainChunks && id !in baseKeys ==> Built(terrainChunks, floraChunks, id)
      ensures scene.entries == baseEntries + ChunksRegistrations(terrainChunks, floraChunks, terrainChunks.Keys - baseKeys)
    {
      ghost var tc, fc, e := terrainChunks, floraChunks, scene.entries;
      CreateChunkIfNeeded(chunkId);
      if chunkId !in tc {
        CacheInsertEntries(chunkId, baseKeys, baseEntries, tc, fc, e, terrainChunks, floraChunks, scene.entries);
        CacheInsert(chunkId, baseKeys, tc, fc, terrainChunks, floraChunks);
      }
    }

    /** Caching a newly built chunk keeps every chunk cached since the base keys holding
        what was built for it. */
    lemma CacheInsert(chunkId: int, baseKeys: set<int>, tc: ChunkMap, fc: ChunkMap, tc2: ChunkMap, fc2: ChunkMap)
      requires chunkId in tc2 && chunkId in fc2
      requires tc2 == tc[chunkId := tc2[chunkId]] && fc2 == fc[chunkId := fc2[chunkId]]
      requires Views(tc2[chunkId]) == ChunkTerrain(chunkId) && Views(fc2[chunkId]) == ChunkFlora(chunkId)
      requires forall id :: id in tc && id !in baseKeys ==> Built(tc, fc, id)
      ensures forall id :: id in tc2 && id !in baseKeys ==> Built(tc2, fc2, id)
    {
      forall id | id in tc2 && id !in baseKeys
        ensures Built(tc2, fc2, id)
      {
        if id != chunkId {
          assert Built(tc, fc, id);
        }
      }
    }

    /** The loop over an evicted chunk's terrain blocks. */
    method UnregisterBlocks(blocks: seq<GameObject>)
      modifies scene
      ensures scene.entries == old(scene.entries) - OnLayer(blocks, STATIC_OBJECTS)
    {
      for i := 0 to |blocks|
        invariant scene.entries == old(scene.entries) - OnLayer(blocks[..i], STATIC_OBJECTS)
      {
        PrefixSnoc(blocks, i);
        OnLayerAppend(blocks[..i], [blocks[i]], STATIC_OBJECTS);
        var _ := scene.RemoveGameObject(blocks[i], STATIC_OBJECTS);
      }
      assert blocks[..|blocks|] == blocks;
    }

    /** The loop over an evicted chunk's flora: trunks leave `STATIC_OBJECTS`, everything else
        leaves both `DEFAULT` and `DEFAULT - 1`. */
    method UnregisterFlora(objs: seq<GameObject>)
      modifies scene
      ensures scene.entries == old(scene.entries) - FloraRemovals(objs)
    {
      for i := 0 to |objs|
        invariant scene.entries == old(scene.entries) - FloraRemovals(objs[..i])
      {
        var obj := objs[i];
        PrefixSnoc(objs, i);
        FloraRemovalsAppend(objs[..i], [obj]);
        assert FloraRemovals([obj]) == ObjectRemovals(obj);
        if obj.tag == TRUNK_TAG {
          var _ := scene.RemoveGameObject(obj, STATIC_OBJECTS);
        } else {
          var _ := scene.RemoveGameObject(obj, DEFAULT);
          var _ := scene.RemoveGameObject(obj, DEFAULT - 1);
        }
      }
      assert objs[..|objs|] == objs;
    }

    /** `cleanupDistantObjects`: every cached chunk whose centre is more than 1200 pixels from
        x is unregistered and dropped from both maps; the others are untouched. The map is
        walked in an unspecified order. */
    method CleanupDistantObjects(avatarX: real)
      requires Valid()
      modifies this`terrainChunks, this`floraChunks, scene
      ensures Valid()
      ensures terrainChunks.Keys == set id | id in old(terrainChunks) && Near(id, avatarX)
      ensures forall id :: id in terrainChunks ==>
        terrainChunks[id] == old(terrainChunks)[id] && floraChunks[id] == old(floraChunks)[id]
      ensures scene.entries == old(scene.entries)
        - ChunksRemovals(old(terrainChunks), old(floraChunks), set id | id in old(terrainChunks) && !Near(id, avatarX))
    {
      var pending := terrainChunks.Keys;
      ghost var evicted: set<int> := {};
      while pending != {}
        invariant Valid()
        invariant pending <= old(terrainChunks).Keys && evicted <= old(terrainChunks).Keys
        invariant evicted == set id | id in old(terrainChunks) && id !in pending && !Near(id, avatarX)
        invariant terrainChunks.Keys == set id | id in old(terrainChunks) && (id in pending || Near(id, avatarX))
        invariant forall id :: id in terrainChunks ==>
          terrainChunks[id] == old(terrainChunks)[id] && floraChunks[id] == old(floraChunks)[id]
        invariant scene.entries == old(scene.entries) - ChunksRemovals(old(terrainChunks), old(floraChunks), evicted)
        decreases pending
      {
        NonEmptyHasKey(pending);
        var chunkId :| chunkId in pending;
        pending := pending - {chunkId};
        if !Near(chunkId, avatarX) {
          EvictChunk(chunkId);
          ChunksRemovalsInsert(old(terrainChunks), old(floraChunks), evicted, chunkId);
          evicted := evicted + {chunkId};
        }
      }
    }

    /** The body of the cleanup loop for a chunk that is too far: unregister its terrain and
        its flora, and remove it from both maps. */
    method EvictChunk(chunkId: int)
      requires Valid() && chunkId in terrainChunks
      modifies this`terrainChunks, this`floraChunks, scene
      ensures Valid()
      ensures terrainChunks == old(terrainChunks) - {chunkId} && floraChunks == old(floraChunks) - {chunkId}
      ensures scene.entries == old(scene.entries) - ChunkRemovals(old(terrainChunks)[chunkId], old(floraChunks)[chunkId])
    {
      UnregisterBlocks(terrainChunks[chunkId]);
      terrainChunks := terrainChunks - {chunkId};
      var floraObjects := floraChunks[chunkId];
      UnregisterFlora(floraObjects);
      floraChunks := floraChunks - {chunkId};
    }

    /** `initializeInitialWorld`: the chunks 800 pixels either side of the avatar's start. */
    method InitializeInitialWorld(avatarX: real)
      requires Valid()
      modifies this`terrainChunks, this`floraChunks, scene
      ensures Valid()
      ensures terrainChunks.Keys == old(terrainChunks).Keys + Window(avatarX)
      ensures forall id :: id in old(terrainChunks) ==>
        terrainChunks[id] == old(terrainChunks)[id] && floraChunks[id] == old(floraChunks)[id]
      ensures forall id :: id in terrainChunks && id !in old(terrainChunks) ==> Built(terrainChunks, floraChunks, id)
      ensures scene.entries == old(scene.entries)
        + ChunksRegistrations(terrainChunks, floraChunks, terrainChunks.Keys - old(terrainChunks).Keys)
    {
      var minX := avatarX - WORLD_BUFFER_SIZE;
      var maxX := avatarX + WORLD_BUFFER_SIZE;
      CreateWorldInRange(minX, maxX);
    }

    /** The moving branch of `updateInfiniteWorld` on the values it goes through: the window
        around x is filled (tc0 to tc1), then the distant chunks are evicted (tc1 to tc2). The
        chunks built by the fill are all near, so the cleanup keeps every new one and evicts
        only chunks cached before. */
    lemma FillThenCleanup(x: real, tc0: ChunkMap, fc0: ChunkMap, e0: set<(GameObject, int)>,
                          tc1: ChunkMap, fc1: ChunkMap, e1: set<(GameObject, int)>,
                          tc2: ChunkMap, fc2: ChunkMap, e2: set<(GameObject, int)>)
      requires tc0.Keys == fc0.Keys && tc1.Keys == fc1.Keys
      requires tc1.Keys == tc0.Keys + Window(x)
      requires forall id :: id in tc0 ==> tc1[id] == tc0[id] && fc1[id] == fc0[id]
      requires forall id :: id in tc1 && id !in tc0 ==> Built(tc1, fc1, id)
      requires e1 == e0 + ChunksRegistrations(tc1, fc1, tc1.Keys - tc0.Keys)
      requires tc2.Keys == fc2.Keys
      requires tc2.Keys == set id | id in tc1 && Near(id, x)
      requires forall id :: id in tc2 ==> tc2[id] == tc1[id] && fc2[id] == fc1[id]
      requires e2 == e1 - ChunksRemovals(tc1, fc1, set id | id in tc1 && !Near(id, x))
      ensures Window(x) <= tc2.Keys
      ensures tc2.Keys == set id | id in tc0.Keys + Window(x) && Near(id, x)
      ensures forall id :: id in tc0 && id in tc2 ==> tc2[id] == tc0[id] && fc2[id] == fc0[id]
      ensures forall id :: id in tc2 && id !in tc0 ==> Built(tc2, fc2, id)
      ensures e2 == e0 + ChunksRegistrations(tc2, fc2, tc2.Keys - tc0.Keys)
                    - ChunksRemovals(tc0, fc0, set id | id in tc0 && !Near(id, x))
    {
      FillThenCleanupKeys(x, tc0.Keys, tc1.Keys, tc2.Keys);
      forall id | id in tc2 && id !in tc0
        ensures Built(tc2, fc2, id)
      {
        assert Built(tc1, fc1, id);
      }
      ChunksRemovalsFrame(tc1, fc1, tc0, fc0, set id | id in tc0 && !Near(id, x));
      ChunksRegistrationsFrame(tc2, fc2, tc1, fc1, tc1.Keys - tc0.Keys);
    }

    /** `updateInfiniteWorld`, called every frame with the avatar's centre x: when the avatar
        is within 15 pixels of the last update nothing happens; otherwise the window around it
        is filled, distant chunks are evicted, and the update point moves to the avatar. */
    method UpdateInfiniteWorld(avatarX: real)
      requires Valid()
      modifies this, scene
      ensures Valid()
      ensures Abs(avatarX - old(lastWorldUpdateX)) <= UPDATE_THRESHOLD ==>
        && terrainChunks == old(terrainChunks) && floraChunks == old(floraChunks)
        && scene.entries == old(scene.entries) && lastWorldUpdateX == old(lastWorldUpdateX)
      ensures Abs(avatarX - old(lastWorldUpdateX)) > UPDATE_THRESHOLD ==>
        && lastWorldUpdateX == avatarX
        && Window(avatarX) <= terrainChunks.Keys
        && terrainChunks.Keys == set id | id in old(terrainChunks).Keys + Window(avatarX) && Near(id, avatarX)
        && (forall id :: id in old(terrainChunks) && id in terrainChunks ==>
              terrainChunks[id] == old(terrainChunks)[id] && floraChunks[id] == old(floraChunks)[id])
        && (forall id :: id in terrainChunks && id !in old(terrainChunks) ==> Built(terrainChunks, floraChunks, id))
        && scene.entries == old(scene.entries)
             + ChunksRegistrations(terrainChunks, floraChunks, terrainChunks.Keys - old(terrainChunks).Keys)
             - ChunksRemovals(old(terrainChunks), old(floraChunks), set id | id in old(terrainChunks) && !Near(id, avatarX))
    {
      if Abs(avatarX - lastWorldUpdateX) > UPDATE_THRESHOLD {
        var minX := avatarX - WORLD_BUFFER_SIZE;
        var maxX := avatarX + WORLD_BUFFER_SIZE;
        ghost var tc0, fc0, e0 := terrainChunks, floraChunks, scene.entries;
        CreateWorldInRange(minX, maxX);
        ghost var tc1, fc1, e1 := terrainChunks, floraChunks, scene.entries;
        CleanupDistantObjects(avatarX);
        lastWorldUpdateX := avatarX;
        FillThenCleanup(avatarX, tc0, fc0, e0, tc1, fc1, e1, terrainChunks, floraChunks, scene.entries);
      }
    }

    /** The world part of `createAvatar`: the avatar starts at half the window width, the
        world around it is built, and that x becomes the last update point. */
    method StartWorld(windowWidth: real)
      requires Valid()
      modifies this, scene
      ensures Valid()
      ensures lastWorldUpdateX == windowWidth / 2.0
      ensures terrainChunks.Keys == old(terrainChunks).Keys + Window(windowWidth / 2.0)
      ensures forall id :: id in old(terrainChunks) ==>
        terrainChunks[id] == old(terrainChunks)[id] && floraChunks[id] == old(floraChunks)[id]
      ensures forall id :: id in terrainChunks && id !in old(terrainChunks) ==> Built(terrainChunks, floraChunks, id)
      ensures scene.entries == old(scene.entries)
        + ChunksRegistrations(terrainChunks, floraChunks, terrainChunks.Keys - old(terrainChunks).Keys)
    {
      var avatarStartX := windowWidth / 2.0;
      InitializeInitialWorld(avatarStartX);
      lastWorldUpdateX := avatarStartX;
    }
  }

  /** One frame of the cloud's rising-edge component, reading the supplier `cloudCreator`
      hands to the cloud: `isRain()` (space held with energy for a jump) and on the ground.
      Rain falls only on a frame where space is held on the ground with at least 10 energy,
      and the signal was low on the frame before. */
  method RainTick(cloud: Clouds.Cloud, avatar: Avatars.Avatar, spacePressed: bool,
                  draw: int, perm: seq<int>, drift: real) returns (drops: seq<GameObject>)
    requires cloud.Valid()
    requires Clouds.DrawInRange(|cloud.cloudBlocks|, draw) && Clouds.IsPermutation(perm, |cloud.cloudBlocks|)
    modifies cloud`lastJumpFromGroundState, cloud.scene, cloud.timers
    ensures cloud.Valid()
    ensures |drops| > 0 <==>
      && cloud.detectorAttached && !old(cloud.lastJumpFromGroundState)
      && spacePressed && avatar.energy >= Avatars.JUMP_ENERGY && avatar.onGround
    ensures |drops| > 0 ==> |drops| == Clouds.NumDrops(|cloud.cloudBlocks|, draw)
    ensures forall i :: 0 <= i < |drops| ==>
      drops[i].View() == Clouds.DropShape(Clouds.DriftedCentre(cloud.cloudBlocks[perm[i]], drift))
    ensures cloud.lastJumpFromGroundState ==
      if cloud.detectorAttached then spacePressed && avatar.energy >= Avatars.JUMP_ENERGY && avatar.onGround
      else old(cloud.lastJumpFromGroundState)
    ensures forall d :: d in drops ==> fresh(d)
    ensures cloud.scene.entries == old(cloud.scene.entries) + OnLayer(drops, Clouds.RAIN_LAYER)
    ensures cloud.timers.pending == old(cloud.timers.pending) + Clouds.FadeOuts(drops)
  {
    drops := cloud.Tick(avatar.IsRain(spacePressed) && avatar.onGround, draw, perm, drift);
  }
}
