# Pepse world streaming, in Dafny

A model of the core of the Pepse side-scroller (a Java game written on the danogl engine) and proofs about it.

The world is infinite, split into 300-pixel chunks. `PepseGameManager` keeps two maps keyed by chunk id:
- `terrainChunks` holds each chunk's ground blocks;
- `floraChunks` holds each chunk's trees.

On every frame the avatar has moved more than 15 pixels, the manager does three things:
- it builds every chunk from 800 pixels left of the avatar to 800 pixels right of it;
- it evicts every cached chunk whose centre lies more than 1200 pixels away;
- it registers built objects with the engine's game-object collection on their layers, and unregisters evicted ones.

Both generators of a chunk are seeded with `Objects.hash(id, 5)`, so a chunk that is evicted and rebuilt comes back the same: every streaming method states that a chunk it builds holds `ChunkTerrain(id)` and `ChunkFlora(id)`, which depend on the id alone.

- **Terrain** (`Terrain.java`): stacks 20 "ground" blocks in each 30-pixel column.
  - The top block sits at the noise height, rounded to the grid with Java's truncating division.
  - The column loop includes its upper bound, so neighbouring chunks both build their border column.
  - Below zero, the "up" rounding of a grid multiple moves one whole step up, so chunks with id ≤ -2 get 12 columns instead of 11.
- **Flora** (`Flora.java`): opens a `java.util.Random` stream per column, seeded with `Objects.hash(x, seed)`. It draws, in this order:
  1. a tree roll;
  2. a trunk height of 4 to 7 blocks;
  3. one leaf roll for each of the 25 cells of the crown;
  4. one fruit roll for each leafless cell, followed by a colour draw only when the fruit roll succeeds.

  Its column loop is half-open, with true floor and ceiling, so chunks never share a flora column.
- **Fruit** (`Fruit.java`): eaten once by the avatar. Eating gives 10 energy, removes the fruit from the default layer and schedules a new fruit at the same corner one cycle (30 s) later.
- **Avatar** (`Avatar.java`): energy is clamped to [0, 100].
  - Moving costs 0.5 and a jump costs 10; an idle avatar on the ground regains 1 per frame.
  - Edge detectors and a "jump held without energy" flag decide when a jump fires.
- **Cloud** (`Cloud.java`): lays out 21 blocks from a 6 x 6 pattern.
  - On each rising edge of the avatar's "jumping from the ground" signal, it drops 3 to 10 raindrops from distinct blocks.
  - A drop's top-left corner is placed at the block's centre moved 5 pixels down.
  - Each drop removes itself from the rain layer once its fade ends.

How the model is built:
- The collection is a set of (object, layer) registrations.
- Game objects are Dafny objects with fixed geometry, so identity matters as it does in Java.
- Deferred callbacks (respawns, fade-outs) are records appended to a `Timers` queue.
- A `java.util.Random` stream is an oracle indexed by seed and draw number. The model tracks how many draws each stream has handed out.
- The noise generator is an uninterpreted function.

Modules:
- `JavaLang`: `int` wrap-around, truncating division and `Objects.hash`.
- `Engine`: vectors, layers, objects, the collection and timers.
- `JavaRandom`: the random streams.
- `Terrain`, `Flora`, `Fruits`, `Avatars`, `Clouds` and `GameManager`: one per source class.

Each imperative method is proved against a specification function: `Terrain.Layout`, `Flora.FloraLayout`, `Avatars.Logic`, `Clouds.CloudBlocks`, and the chunk functions of the manager. Lemmas state what the source promises about those functions.

## Model

| member | source | states |
|---|---|---|
| JavaLang.ObjectsHash2Closed | src/pepse/world/trees/Flora.java:82 | `Objects.hash(a, b)`, folded with a 32-bit wrap at every step, equals `31·(31+a)+b` wrapped once |
| JavaLang.ObjectsHash3Closed | src/pepse/world/trees/Flora.java:158-159 | `Objects.hash(a, b, c)` equals `31·(31·(31+a)+b)+c` wrapped once to 32 bits |
| JavaLang.IncrementWraps | src/pepse/world/Avatar.java:226-227 | `n++` on an `int` is n + 1 wrapped to 32 bits; the largest value goes to the smallest |
| JavaLang.Quot | src/pepse/world/Terrain.java:95-96 | Java's `/` for a positive divisor: the remainder has the sign of the dividend and is smaller than the divisor |
| JavaLang.TruncToInt | src/pepse/world/Terrain.java:75 | the `(int)` cast truncates toward zero: within 1 below a non-negative value, within 1 above a negative one |
| Terrain.FieldFor | src/pepse/world/Terrain.java:39-52 | `groundHeightAt(x)` is 0.6 of the window height plus the noise at x with factor 300, from a generator seeded with the seed and the `(int)` of that line |
| Terrain.RoundToNearestStep | src/pepse/world/Terrain.java:92-97 | always a multiple of 30. `DOWN` is the floor for inputs ≥ 0 and rounds toward zero below 0. `UP` is ≥ the input, and is the least such multiple for inputs ≥ 0 |
| Terrain.RoundDownNegative | src/pepse/world/Terrain.java:96 | `DOWN` takes -50 to -30, not to -60 |
| Terrain.RoundUpNegativeMultiple | src/pepse/world/Terrain.java:95 | `UP` moves a negative multiple of 30 one whole step up (-300 goes to -270) |
| Terrain.RoundMultiple | src/pepse/world/Terrain.java:94-96 | on a multiple of 30, `DOWN` is exact; `UP` is exact from 0 on and one step too high below 0 |
| Terrain.ColumnXsBounds | src/pepse/world/Terrain.java:62-66 | the inclusive loop visits (newMax − newMin)/30 + 1 columns, the first at newMin and the last at newMax, every one on the grid |
| Terrain.ChunkColumns | src/pepse/world/Terrain.java:62-64 | chunk [300k, 300k+300) gets 11 columns 300k, 300k+30, … when k ≥ -1, and 12 when k ≤ -2 |
| Terrain.LayoutLength | src/pepse/world/Terrain.java:64-83 | a range of n columns yields 20·n blocks |
| Terrain.LayoutAt | src/pepse/world/Terrain.java:73-84 | block k of a range is block k mod 20 of column k div 20: the column's x, y = topBlockY + (k mod 20)·30, tag "ground" |
| Terrain.ColumnOnGrid | src/pepse/world/Terrain.java:74-77 | the top block's y, and so every block's y, is a multiple of 30 |
| Terrain.Terrain.constructor | src/pepse/world/Terrain.java:39-42 | the new terrain's height field is the one built from window height and seed |
| Terrain.Terrain.CreateInRange | src/pepse/world/Terrain.java:60-68 | replaces `blocks` with new objects whose shapes are the layout of the rounded inclusive range, so equal arguments give equal shapes |
| Terrain.Terrain.CreateColumn | src/pepse/world/Terrain.java:73-84 | appends exactly the 20 blocks of the column at x, top to bottom, all new; the blocks already in the list keep their places |
| Flora.ColumnSeedValue | src/pepse/world/trees/Flora.java:82 | a column's stream is seeded with `31·(31+x)+baseSeed` wrapped to 32 bits |
| Flora.LeafWindSeedValue | src/pepse/world/trees/Flora.java:158-159 | a leaf's wind stream is seeded with `31·(31·(31+leafX)+leafY)+baseSeed` wrapped to 32 bits, apart from the column's stream |
| Flora.IsInPlayerSafeZone | src/pepse/world/trees/Flora.java:123-136 | false when the start is `Float.MAX_VALUE`, NaN or infinite; otherwise true iff the column is within 60 pixels of the start, both ends included |
| Flora.FloraXsRange | src/pepse/world/trees/Flora.java:74-77 | the start is the true floor of minX to the grid and the bound the true ceiling of maxX; every column is on the grid in [start, bound) |
| Flora.FloraXsCount | src/pepse/world/trees/Flora.java:74-77 | the loop visits exactly (bound − start)/30 columns, start + 30·i in order, and none when start ≥ bound |
| Flora.ChunkFloraColumns | src/pepse/world/trees/Flora.java:74-77 | chunk [300k, 300k+300) gets exactly its ten columns 300k + 30·i |
| Flora.ChunkFloraBounds | src/pepse/world/trees/Flora.java:74-77 | every flora column of chunk k lies in [300k, 300k+300) |
| Flora.CellIndex | src/pepse/world/trees/Flora.java:152-156 | crown cell 5·row + col sits at (left + 30·col, top + 30·row): the cells are visited row-major |
| Flora.CellPosInjective | src/pepse/world/trees/Flora.java:152-156 | different crown cells are different positions |
| Flora.CrownCorner | src/pepse/world/trees/Flora.java:148-150 | the crown's corner is 45 pixels left of the trunk and 120 above the `(int)` of its top |
| Flora.LeafPassCells | src/pepse/world/trees/Flora.java:152-170 | the crown has a leaf on a cell iff that cell's roll succeeded; n cells give at most n leaves, all tagged "leaf" |
| Flora.FruitPassOnCells | src/pepse/world/trees/Flora.java:194-209 | every fruit of the pass over the first n cells sits on the corner of one of those cells |
| Flora.FruitPassCell | src/pepse/world/trees/Flora.java:194-209 | the pass over the first n cells puts a fruit on cell c iff c < n, no leaf takes the cell, and the cell's roll, the draw the pass has reached there, is below 0.2f |
| Flora.FruitPassCells | src/pepse/world/trees/Flora.java:194-209 | the same, for every cell at once |
| Flora.FruitPassCounts | src/pepse/world/trees/Flora.java:194-209 | fruits grow only on cells no leaf takes, no more fruits than free cells, all tagged "fruit"; the pass takes one draw per free cell plus one per fruit |
| Flora.FreeCellsAreLeafless | src/pepse/world/trees/Flora.java:188-201 | with the leaves' corners as the taken set, free cells and leaves add up to the number of cells |
| Flora.TreeProperties | src/pepse/world/trees/Flora.java:84-112 | a tree's trunk comes first, is 4 to 7 blocks high and stands on the ground at x. Leaves and fruits never share a cell and number 25 at most. The tree takes 2 + 25 + (leafless cells) + (fruits) draws |
| Flora.LayoutTags | src/pepse/world/trees/Flora.java:94-111 | every flora object is a trunk, a leaf or a fruit |
| Flora.EmptyColumn | src/pepse/world/trees/Flora.java:78-84 | a column in the safe zone, or whose tree roll fails, adds nothing |
| Flora.Flora.constructor | src/pepse/world/trees/Flora.java:53-60 | keeps the collection, ground, base seed and player start it is given |
| Flora.Flora.CreateInRange | src/pepse/world/trees/Flora.java:71-116 | returns new objects whose shapes are the flora layout of the half-open column range, and registers each on its kind's layer |
| Flora.Flora.PlantColumn | src/pepse/world/trees/Flora.java:78-84 | nothing in the safe zone; elsewhere the column's flora, drawn from a new stream seeded for x |
| Flora.Flora.PlantTree | src/pepse/world/trees/Flora.java:84-112 | after a successful tree roll: trunk, leaves, then fruits, with the shapes the layout predicts, each registered on its layer |
| Flora.Flora.PlantTrunk | src/pepse/world/trees/Flora.java:85-100 | the trunk is `nextInt(4) + 4` blocks high on the second draw, stands on the ground at x, and is registered on `STATIC_OBJECTS` |
| Flora.Flora.GrowCrown | src/pepse/world/trees/Flora.java:102-112 | the leaves, registered on `DEFAULT − 1`, then the fruits of the free cells, registered on `DEFAULT` |
| Flora.Flora.RegisterAll | src/pepse/world/trees/Flora.java:103-111 | registers each object on its kind's layer |
| Flora.Flora.CreateLeafCrown | src/pepse/world/trees/Flora.java:145-172 | takes exactly 25 draws and yields the leaf pass of the crown: a new leaf on each cell whose draw is below 0.7f |
| Flora.Flora.GrowLeafRow | src/pepse/world/trees/Flora.java:153-169 | one crown row: five draws, continuing the leaf pass of the earlier rows |
| Flora.Flora.GrowLeaf | src/pepse/world/trees/Flora.java:154-167 | one draw; on success, a new leaf at the cell's corner carrying its wind seed |
| Flora.Flora.CreateFruits | src/pepse/world/trees/Flora.java:181-211 | yields the fruit pass over the cells the leaves leave free, and leaves the stream just after that pass's last draw |
| Flora.Flora.LeafCorners | src/pepse/world/trees/Flora.java:188-192 | the set of taken positions is exactly the leaves' corners |
| Flora.Flora.GrowRow | src/pepse/world/trees/Flora.java:195-208 | one crown row of the fruit pass, continuing the rows before it |
| Flora.Flora.GrowFruit | src/pepse/world/trees/Flora.java:196-207 | no draw on a taken cell; otherwise a roll, and after a roll below 0.2f a colour draw and a new fruit |
| Fruits.Fruit.constructor | src/pepse/world/trees/Fruit.java:43-49 | a new, uneaten, red fruit tagged "fruit", 30 x 30 |
| Fruits.Fruit.Coloured | src/pepse/world/trees/Fruit.java:63-69 | a new, uneaten fruit of the given colour tagged "fruit", 30 x 30 |
| Fruits.Fruit.OnCollisionEnter | src/pepse/world/trees/Fruit.java:79-102 | the first avatar touch sets `isEaten`, adds 10 energy (clamped), unregisters the fruit from `DEFAULT` and schedules one respawn after 30 s. The avatar's other fields and its velocity are unchanged. Any other collision, or a touch once eaten, changes nothing. `isEaten` never reverts |
| Fruits.Respawn | src/pepse/world/trees/Fruit.java:93-98 | a new uneaten fruit at the same corner, registered on `DEFAULT` |
| Avatars.Clamp | src/pepse/world/Avatar.java:246-248 | `max(0, min(100, e))`: in [0, 100], equal to e inside that range |
| Avatars.MoveRule | src/pepse/world/Avatar.java:186-199 | a move happens iff exactly one arrow is held and energy ≥ 0.5. Right gives +430 and left −430. A move costs 0.5 |
| Avatars.JumpRule | src/pepse/world/Avatar.java:202-228 | a jump fires iff jump is held, the avatar is on the ground with ≥ 10 energy after moving, and the key was just pressed, the avatar just landed or the flag is up. A jump sets −600, resets both counters and clears the flag; otherwise both counters step up |
| Avatars.FlagRule | src/pepse/world/Avatar.java:208-215 | jump held on the ground with less than 10 energy raises the flag, and the flag is only up while jump is held |
| Avatars.RecoveryJump | src/pepse/world/Avatar.java:216-219 | with the flag up and the key held on the ground, the jump fires as soon as energy is back at 10 |
| Avatars.RegenRule | src/pepse/world/Avatar.java:233-235 | energy only grows on the ground, without a move or a jump, more than 50 frames after the last jump, and by at most 1 |
| Avatars.EnergyBounds | src/pepse/world/Avatar.java:181-236 | one frame keeps energy in [0, 100] and spends at most 10.5 |
| Avatars.LastFrameFlags | src/pepse/world/Avatar.java:229-230 | the edge detectors remember this frame's jump key and on-ground flag |
| Avatars.Avatar.constructor | src/pepse/world/Avatar.java:56-62 | full energy, not on the ground, all flags down, both counters at 100 |
| Avatars.Avatar.ChangeEnergy | src/pepse/world/Avatar.java:246-248 | energy becomes the clamped sum, and nothing else changes |
| Avatars.Avatar.AddEnergy | src/pepse/world/Avatar.java:120-122 | the same as `changeEnergy` |
| Avatars.Avatar.IsRain | src/pepse/world/Avatar.java:144-146 | true iff space is held and energy ≥ 10, the energy half of the jump test (`RainJumpTests`); the cloud's signal (`RainTick`) |
| Avatars.RainJumpTests | src/pepse/world/Avatar.java:202-228 | on a frame where `isRain()` holds on the ground and no move is made, the jump fires iff the key was just pressed, the avatar just landed or the flag was up, and the flag ends down |
| Avatars.Avatar.OnCollisionStay | src/pepse/world/Avatar.java:106-114 | sets the on-ground flag only on a "ground" or "trunk" contact whose normal's y is below −0.5; nothing else changes |
| Avatars.Avatar.Update | src/pepse/world/Avatar.java:172-175 | `super.update` runs the components added at lines 84-85 in that order: gravity adds 600·dt to the vertical velocity, then one frame of the avatar logic on that velocity; then the on-ground flag is cleared. In the game, `super.update` then also runs the two components `createAvatar` adds (PepseGameManager.java:208, 210): `updateInfiniteWorld`, modelled separately as `UpdateInfiniteWorld`, and the energy display, which is left out |
| Avatars.Avatar.HandleMovement | src/pepse/world/Avatar.java:182-199 | the horizontal velocity the move rule picks, and its cost |
| Avatars.Avatar.HandleJump | src/pepse/world/Avatar.java:201-230 | the flag update, the jump decision with its velocity, cost and counters, and the edge detectors |
| Avatars.Avatar.UpdateAvatarLogic | src/pepse/world/Avatar.java:181-236 | the new fields and velocity are one step of the frame function, whose rules the lemmas above state; energy stays in [0, 100] |
| Clouds.CloudBlockCount | src/pepse/world/Cloud.java:112-118 | the pattern yields exactly 21 blocks |
| Clouds.CloudBlocksCount | src/pepse/world/Cloud.java:129-131 | the blocks number the non-zero cells of the pattern |
| Clouds.RowBlocksCount | src/pepse/world/Cloud.java:130-131 | a row's blocks number its non-zero cells |
| Clouds.CloudBlocksMembers | src/pepse/world/Cloud.java:129-145 | a shape is a cloud block iff it is the 20 x 20 "cloud" square at origin + (20·col, 20·row) of a non-zero cell |
| Clouds.RowBlocksMembers | src/pepse/world/Cloud.java:130-145 | the same, within one row |
| Clouds.NumDropsBounds | src/pepse/world/Cloud.java:185-187 | min(3, n) ≤ numDrops ≤ min(max(3, n/2), n) |
| Clouds.NumDropsForCloud | src/pepse/world/Cloud.java:185-187 | for the 21-block cloud, 3 to 10 drops |
| Clouds.ShuffledDistinct | src/pepse/world/Cloud.java:190-191 | a shuffled copy of a list without repeats has no repeats and holds exactly the list's blocks |
| Clouds.PermutationOnto | src/pepse/world/Cloud.java:190-191 | a permutation of 0 .. n−1 contains every index below n, so the shuffle loses no block |
| Clouds.RainNotOnConsecutiveFrames | src/pepse/world/Cloud.java:163-171 | the rising-edge component never sheds rain on two frames in a row |
| Clouds.RainOnceWhileHeld | src/pepse/world/Cloud.java:163-171 | a signal held high sheds rain at most once, on its first frame, and only if it was low before |
| Clouds.Cloud.constructor | src/pepse/world/Cloud.java:89-90 | no blocks and the remembered signal low |
| Clouds.Cloud.Create | src/pepse/world/Cloud.java:106-174 | the old block list is discarded. The new list is 21 new, distinct blocks with the pattern's shapes in row-major order, registered on `BACKGROUND + 11`. The component is attached only when there is a block |
| Clouds.Cloud.LayOutRow | src/pepse/world/Cloud.java:130-158 | one pattern row: a new block per non-zero cell, left to right, registered on the cloud layer |
| Clouds.Cloud.LayOutCell | src/pepse/world/Cloud.java:131-145 | nothing for a zero cell, otherwise one new block registered on the cloud layer |
| Clouds.Cloud.Tick | src/pepse/world/Cloud.java:163-172 | drops are shed iff the component exists and the signal is high now and was low before, `min(draw + 3, n)` new drops under the shuffled blocks; the component then remembers the signal |
| Clouds.Cloud.SpawnRandomRainDrops | src/pepse/world/Cloud.java:183-198 | `min(draw + 3, n)` new drops under distinct blocks of a shuffled copy. Each drop is on the rain layer with its fade-out scheduled, and the block list keeps its order |
| Clouds.Cloud.SpawnDrop | src/pepse/world/Cloud.java:206-228 | a new "raindrop" at the given centre moved 5 down, added to `BACKGROUND`, with a fade-out that removes it from `BACKGROUND` |
| GameManager.ChunkSeedValue | src/pepse/PepseGameManager.java:136-137 | both generators of chunk id get `966 + 31·id` wrapped to 32 bits |
| GameManager.FillThenCleanupKeys | src/pepse/PepseGameManager.java:105-111 | after the fill and the cleanup of one update, the whole window is cached, the cached ids are (old ids plus window) minus the far chunks, and only chunks cached before the update are evicted |
| GameManager.WindowIsNear | src/pepse/PepseGameManager.java:105-111 | every chunk an update builds has its centre within 950 pixels of the avatar, so the same update's cleanup keeps it |
| GameManager.WindowAtOrigin | src/pepse/PepseGameManager.java:119-121 | an avatar at x = 0 streams chunks −3 to 2 |
| GameManager.NearAt1000 | src/pepse/PepseGameManager.java:162-164 | a cleanup at x = 1000 keeps exactly chunks −1 to 6 |
| GameManager.TerrainChunksShareBorder | src/pepse/PepseGameManager.java:132-138 | from chunk −1 on, a chunk's last terrain column is its right neighbour's first |
| GameManager.FloraChunksDisjoint | src/pepse/PepseGameManager.java:145-150 | two different chunks never plant flora in the same column |
| GameManager.FloraRemovalsCover | src/pepse/PepseGameManager.java:170-181 | every layer flora creation registers an object on is one eviction unregisters it from |
| GameManager.EvictionUndoesCreation | src/pepse/PepseGameManager.java:165-178 | no registration made when a chunk is built survives its eviction |
| GameManager.PepseGameManager.constructor | src/pepse/PepseGameManager.java:50-52 | both maps empty, last update at 0 |
| GameManager.PepseGameManager.CreateChunkIfNeeded | src/pepse/PepseGameManager.java:130-153 | a cached id changes nothing. A new id is cached with new terrain and flora, both seeded `Objects.hash(id, 5)`, with the safe zone off. Their registrations are added, other chunks are untouched, and the maps keep equal keys |
| GameManager.PepseGameManager.BuildTerrain | src/pepse/PepseGameManager.java:132-143 | the chunk's terrain blocks, built for its range and seed and registered on `STATIC_OBJECTS` |
| GameManager.PepseGameManager.BuildFlora | src/pepse/PepseGameManager.java:145-151 | the chunk's flora, built for its range and seed on the chunk's ground, registering itself |
| GameManager.PepseGameManager.RegisterAll | src/pepse/PepseGameManager.java:140-142 | each terrain block is registered on the given layer |
| GameManager.PepseGameManager.CreateWorldInRange | src/pepse/PepseGameManager.java:119-126 | afterwards every id from `floor(minX/300)` to `floor(maxX/300)` is cached and each new chunk holds the terrain and flora built for its id; old chunks are untouched; exactly the new chunks' registrations are added |
| GameManager.PepseGameManager.CreateChunkTracked | src/pepse/PepseGameManager.java:123-125 | one loop pass caches the id, a new chunk holding its built terrain and flora, and keeps "scene = start + registrations of the chunks added since" and "every chunk added since holds what was built for it" |
| GameManager.PepseGameManager.CleanupDistantObjects | src/pepse/PepseGameManager.java:157-184 | exactly the chunks whose centre is within 1200 pixels stay, unchanged; exactly the evicted chunks' layer-by-layer removals leave the collection |
| GameManager.PepseGameManager.EvictChunk | src/pepse/PepseGameManager.java:165-181 | one far chunk leaves both maps and its terrain and flora are unregistered |
| GameManager.PepseGameManager.UnregisterBlocks | src/pepse/PepseGameManager.java:165-167 | every terrain block leaves `STATIC_OBJECTS` |
| GameManager.PepseGameManager.UnregisterFlora | src/pepse/PepseGameManager.java:172-179 | trunks leave `STATIC_OBJECTS`, everything else leaves `DEFAULT` and `DEFAULT − 1` |
| GameManager.PepseGameManager.InitializeInitialWorld | src/pepse/PepseGameManager.java:92-97 | the chunks 800 pixels either side of the start are cached, each new one holding the terrain and flora built for its id; old chunks are untouched; exactly the new chunks' registrations are added |
| GameManager.PepseGameManager.UpdateInfiniteWorld | src/pepse/PepseGameManager.java:101-115 | within 15 pixels of the last update nothing changes. Otherwise the cached ids become (old ids plus the window) minus the far chunks, the window is always kept, surviving chunks are unchanged, new chunks hold the terrain and flora built for their ids, the collection gains the new chunks' registrations and loses the far chunks' removals, and the update point moves to the avatar |
| GameManager.PepseGameManager.FillThenCleanup | src/pepse/PepseGameManager.java:105-111 | the same update on the values it passes through: fill, then cleanup, give the contract of the moving branch |
| GameManager.PepseGameManager.StartWorld | src/pepse/PepseGameManager.java:200-211 | the avatar starts at half the window width and that x is the last update point; the window around it is cached, each new chunk holding its built terrain and flora, old chunks untouched, and exactly the new chunks' registrations added |
| GameManager.RainTick | src/pepse/PepseGameManager.java:238-243 | the cloud's signal is `isRain() && isOnGround()`: rain falls iff the component is attached, the signal was low the frame before, and space is held on the ground with ≥ 10 energy. Then there are `min(draw + 3, n)` new drops under the shuffled blocks, on the rain layer with their fade-outs scheduled. An attached component remembers this frame's signal, which decides the next frame |

## Left out

- The danogl engine: physics, gravity, velocities applied by the engine, collision detection, camera, coordinate spaces, renderers, animations and colours. Registrations are a set of (object, layer) pairs, so the order of registration is not modelled.
- Timing of `ScheduledTask` and `Transition`: a deferred callback is a pending record with its delay. The respawn is the separate method `Fruits.Respawn`, and a drop's fade-out is a `RemoveFromLayer` record. The clouds' horizontal drift is a parameter of the rain tick.
- The raindrop speed (200 pixels per second downward), the velocity reset on landing (`onCollisionEnter`), and the engine's integration of acceleration and velocity into position (`setAccelerationY`): physics, not logic. The avatar's gravity component is modelled as the velocity change it makes.
- `java.util.Random`'s generator, `Collections.shuffle` and the unseeded `Cloud.RAND`. They are an oracle of draws, a permutation parameter and a draw parameter.
- `pepse.util.NoiseGenerator` is not part of this model: the noise is an uninterpreted function.
- Float rounding: positions, heights and distances are exact reals. The probability constants 0.1f, 0.7f and 0.2f are their exact `float` values.
- 32-bit overflow of `chunkId * CHUNK_SIZE`, and saturation of `(int)` casts of floats outside the `int` range: chunk ids and coordinates are unbounded integers.
- The unseeded colour of a respawned fruit is a parameter of `Fruits.Respawn`.
- Respawned fruits are not recorded in `floraChunks`, as in the source, so eviction does not reach them; the model does not follow them after respawn.
- The avatar's animation choice, sprite flip and `lastPosition`, and the getter `energySupplier`. The getter `isOnGround` is read as the field it returns.
- `Sun`, `Night`, `SunHalo`, `Sky`, `Leaf` (wind animation only), `EnergyDisplay`, `initializeGame`, the camera set-up and `main`.
- Input polling: the keys of a frame are booleans.
- GameManager.PepseGameManager.CleanupDistantObjects: the `HashMap` is walked in an order the model leaves open. The `floraObjects != null` test is not a separate branch, because both maps always have the same keys.
- GameManager.PepseGameManager.Valid: keeps only that both maps have the same keys. What a cached chunk holds (`Built`) is stated by every streaming method for the chunks it builds, and every later contract leaves cached chunks unchanged; it is not a class invariant.
- Clouds.Cloud.Create: a second call attaches a second rising-edge component in the source. The model records only whether a component exists.
- Flora.Flora.PlantColumn: does not state that a column without a tree takes exactly one draw. That column's stream is local and discarded, so no later draw depends on it.
- Flora.Flora.CreateFruits: does not state that the new fruits are uneaten and bound to the collection; `GrowFruit` builds each with the coloured constructor, whose contract states both.
