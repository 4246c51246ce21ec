/** `pepse.world.trees.Flora`: reproducible trees. Every 30-pixel column of a range opens its
    own random stream, seeded from the column's x and the base seed, and draws from it, in this
    order: the tree roll, the trunk height, one roll per crown cell for a leaf, then one roll per
    leaf-free cell for a fruit followed by a colour draw only when that roll succeeds. */
module Flora {
  import opened JavaLang
  import opened Engine
  import opened JavaRandom
  import opened Fruits
  import Terrain

  const LEAVES_LAYER: int := DEFAULT - 1
  const FRUIT_LAYER: int := DEFAULT
  const TRUNK_LAYER: int := STATIC_OBJECTS
  /** `0.1f`, `0.7f` and `0.2f`, written out exactly as the `float`s they are. */
  const TREE_PROBABILITY: real := 0.100000001490116119384765625
  const LEAF_PROBABILITY: real := 0.699999988079071044921875
  const FRUIT_PROBABILITY_PER_LEAF: real := 0.20000000298023223876953125
  const MIN_TRUNK_HEIGHT_BLOCKS: int := 4
  const MAX_TRUNK_HEIGHT_BLOCKS: int := 7
  const LEAF_CROWN_SIZE_BLOCKS: int := 5
  const CROWN_CELLS: int := LEAF_CROWN_SIZE_BLOCKS * LEAF_CROWN_SIZE_BLOCKS
  const PLAYER_SAFE_ZONE_BLOCKS: int := 2
  const TRUNK_TAG: string := "trunk"
  const LEAF_TAG: string := "leaf"
  /** Draws a tree takes before its crown: the tree roll and the trunk height. */
  const CROWN_FIRST_DRAW: nat := 2

  /** The seed of a column's stream, `Objects.hash(x, baseSeed)`. */
  function ColumnSeed(x: int, baseSeed: int): Int32
  {
    ObjectsHash2(x, baseSeed)
  }

  lemma ColumnSeedValue(x: int, baseSeed: int)
    ensures ColumnSeed(x, baseSeed) == Wrap32(31 * (31 + x) + baseSeed)
  {
    ObjectsHash2Closed(x, baseSeed);
  }

  /** The seed of a leaf's own wind stream, `Objects.hash(leafX, leafY, baseSeed)`. It is a
      separate generator, so building a leaf takes nothing from the column's stream. */
  lemma LeafWindSeedValue(leafX: int, leafY: int, baseSeed: int)
    ensures ObjectsHash3(leafX, leafY, baseSeed) == Wrap32(31 * (31 * (31 + leafX) + leafY) + baseSeed)
  {
    ObjectsHash3Closed(leafX, leafY, baseSeed);
  }

  /** `isInPlayerSafeZone`: never when the player's start is the `Float.MAX_VALUE` sentinel,
      NaN or infinite; otherwise within two blocks of it, both ends included. */
  function IsInPlayerSafeZone(x: int, playerStartX: Float): (r: bool)
    ensures !playerStartX.Finite? || playerStartX.value == FLOAT_MAX_VALUE ==> !r
    ensures playerStartX.Finite? && playerStartX.value != FLOAT_MAX_VALUE ==>
      (r <==> -(PLAYER_SAFE_ZONE_BLOCKS * BLOCK_SIZE) as real <= x as real - playerStartX.value
                <= (PLAYER_SAFE_ZONE_BLOCKS * BLOCK_SIZE) as real)
  {
    match playerStartX
    case Finite(v) =>
      if v == FLOAT_MAX_VALUE then false
      else
        var distance := if x as real - v < 0.0 then v - x as real else x as real - v;
        distance <= (PLAYER_SAFE_ZONE_BLOCKS * BLOCK_SIZE) as real
    case _ => false
  }

  /** The first column, `Math.floor(minX / 30) * 30`. */
  function StartX(minX: int): int
  {
    (minX as real / BLOCK_SIZE as real).Floor * BLOCK_SIZE
  }

  /** The bound, `Math.ceil(maxX / 30) * 30`. */
  function EndX(maxX: int): int
  {
    -((-maxX as real / BLOCK_SIZE as real).Floor) * BLOCK_SIZE
  }

  /** The columns `for (x = startX; x < endX; x += 30)` visits. */
  function FloraXs(minX: int, maxX: int): seq<int>
  {
    var startX, endX := StartX(minX), EndX(maxX);
    var count := if startX < endX then (endX - startX) / BLOCK_SIZE else 0;
    seq(count, i => startX + i * BLOCK_SIZE)
  }

  /** True floor and ceiling: the columns start at the grid line at or below minX and stop
      before the grid line at or above maxX; all lie on the grid, and the range is half-open. */
  lemma FloraXsRange(minX: int, maxX: int)
    ensures StartX(minX) % BLOCK_SIZE == 0 && StartX(minX) <= minX < StartX(minX) + BLOCK_SIZE
    ensures EndX(maxX) % BLOCK_SIZE == 0 && EndX(maxX) - BLOCK_SIZE < maxX <= EndX(maxX)
    ensures forall i :: 0 <= i < |FloraXs(minX, maxX)| ==>
      var x := FloraXs(minX, maxX)[i];
      x % BLOCK_SIZE == 0 && StartX(minX) <= x < EndX(maxX)
    ensures StartX(minX) < EndX(maxX) ==> |FloraXs(minX, maxX)| * BLOCK_SIZE == EndX(maxX) - StartX(minX)
  {
    var f := (minX as real / BLOCK_SIZE as real).Floor;
    assert f as real <= minX as real / 30.0 < f as real + 1.0;
    assert StartX(minX) == BLOCK_SIZE * f;
    var g := (-maxX as real / BLOCK_SIZE as real).Floor;
    assert g as real <= -maxX as real / 30.0 < g as real + 1.0;
    assert EndX(maxX) == BLOCK_SIZE * -g;
    var xs := FloraXs(minX, maxX);
    forall i | 0 <= i < |xs|
      ensures xs[i] % BLOCK_SIZE == 0 && StartX(minX) <= xs[i] < EndX(maxX)
    {
      assert xs[i] == BLOCK_SIZE * (f + i);
    }
  }

  /** The loop stops after exactly the columns of FloraXs. */
  lemma FloraXsCount(minX: int, maxX: int)
    ensures StartX(minX) < EndX(maxX) ==> EndX(maxX) == StartX(minX) + |FloraXs(minX, maxX)| * BLOCK_SIZE
    ensures StartX(minX) >= EndX(maxX) ==> |FloraXs(minX, maxX)| == 0
    ensures forall i :: 0 <= i < |FloraXs(minX, maxX)| ==> FloraXs(minX, maxX)[i] == StartX(minX) + i * BLOCK_SIZE
  {
    FloraXsRange(minX, maxX);
  }

  /** A 300-pixel chunk [300 k, 300 k + 300) gets exactly its ten columns. */
  lemma ChunkFloraColumns(id: int)
    ensures FloraXs(300 * id, 300 * id + 300) == seq(10, i => 300 * id + i * BLOCK_SIZE)
  {
    var lo, hi := 300 * id, 300 * id + 300;
    assert lo as real / BLOCK_SIZE as real == (10 * id) as real;
    assert StartX(lo) == lo;
    assert -hi as real / BLOCK_SIZE as real == (-10 * id - 10) as real;
    assert EndX(hi) == hi;
  }

  /** Every column a chunk's flora covers lies inside that chunk. */
  lemma ChunkFloraBounds(id: int, x: int)
    ensures x in FloraXs(300 * id, 300 * id + 300) ==> 300 * id <= x < 300 * id + 300
  {
    ChunkFloraColumns(id);
  }

  /** The row of crown cell c, that is c / 5, counted out by steps of five cells. */
  function CellRow(c: nat): nat
  {
    if c < LEAF_CROWN_SIZE_BLOCKS then 0 else CellRow(c - LEAF_CROWN_SIZE_BLOCKS) + 1
  }

  /** The column of crown cell c, that is c % 5. */
  function CellCol(c: nat): nat
  {
    if c < LEAF_CROWN_SIZE_BLOCKS then c else CellCol(c - LEAF_CROWN_SIZE_BLOCKS)
  }

  /** Cells are numbered row by row: c is 5 times its row plus its column. */
  lemma {:induction false} CellDecompose(c: nat)
    ensures c == 5 * CellRow(c) + CellCol(c) && CellCol(c) < LEAF_CROWN_SIZE_BLOCKS
  {
    if c >= LEAF_CROWN_SIZE_BLOCKS {
      CellDecompose(c - LEAF_CROWN_SIZE_BLOCKS);
    }
  }

  /** Where crown cell c sits in the 5 x 5 grid whose top-left corner is (left, top). */
  function CellPos(left: int, top: int, c: nat): Vec
  {
    Vec((left + BLOCK_SIZE * CellCol(c)) as real, (top + BLOCK_SIZE * CellRow(c)) as real)
  }

  /** Cell 5 row + col is in row `row` and column `col`. */
  lemma {:induction false} CellIndex(left: int, top: int, row: nat, col: nat)
    requires col < LEAF_CROWN_SIZE_BLOCKS
    ensures CellRow(5 * row + col) == row && CellCol(5 * row + col) == col
    ensures CellPos(left, top, 5 * row + col) == Vec((left + col * BLOCK_SIZE) as real, (top + row * BLOCK_SIZE) as real)
  {
    if row > 0 {
      CellIndex(left, top, row - 1, col);
    }
  }

  /** Different cells of a crown are different positions. */
  lemma CellPosInjective(left: int, top: int, c: nat, d: nat)
    requires c != d
    ensures CellPos(left, top, c) != CellPos(left, top, d)
  {
    CellDecompose(c);
    CellDecompose(d);
  }

  /** The left edge of the crown: the trunk's x cast to `int`, two blocks left, half a block
      right, that is 45 pixels left of the trunk. */
  function CrownLeft(trunkTopLeft: Vec): int
  {
    TruncToInt(trunkTopLeft.x) - (LEAF_CROWN_SIZE_BLOCKS / 2) * BLOCK_SIZE + BLOCK_SIZE / 2
  }

  /** The top edge of the crown: the trunk top cast to `int`, four blocks up. */
  function CrownTop(trunkTopLeft: Vec): int
  {
    TruncToInt(trunkTopLeft.y) - (LEAF_CROWN_SIZE_BLOCKS - 1) * BLOCK_SIZE
  }

  lemma CrownCorner(x: int, y: real)
    ensures CrownLeft(Vec(x as real, y)) == x - 45
    ensures CrownTop(Vec(x as real, y)) == TruncToInt(y) - 120
  {
  }

  function TrunkShape(trunkTopLeft: Vec, heightBlocks: int): Shape
  {
    Shape(TRUNK_TAG, trunkTopLeft, Vec(BLOCK_SIZE as real, (heightBlocks * BLOCK_SIZE) as real), Plain)
  }

  /** A leaf in crown cell c, with the seed of its wind stream. */
  function LeafShape(left: int, top: int, c: nat, baseSeed: int): Shape
  {
    var x := left + BLOCK_SIZE * CellCol(c);
    var y := top + BLOCK_SIZE * CellRow(c);
    Shape(LEAF_TAG, CellPos(left, top, c), Vec(BLOCK_SIZE as real, BLOCK_SIZE as real),
          Wind(ObjectsHash3(x, y, baseSeed)))
  }

  /** Whether the roll for crown cell c, the (k0 + c)-th draw, grows a leaf. */
  predicate LeafDrawn(o: Oracle, seed: int, k0: nat, c: nat)
  {
    o.nextFloat(seed, k0 + c) < LEAF_PROBABILITY
  }

  /** The leaf pass over the first n cells, its rolls starting at draw k0. */
  function LeafPass(o: Oracle, seed: int, baseSeed: int, left: int, top: int, k0: nat, n: nat): seq<Shape>
  {
    if n == 0 then []
    else LeafPass(o, seed, baseSeed, left, top, k0, n - 1)
         + (if LeafDrawn(o, seed, k0, n - 1) then [LeafShape(left, top, n - 1, baseSeed)] else [])
  }

  /** One more cell of the leaf pass. */
  lemma LeafPassNext(o: Oracle, seed: int, baseSeed: int, left: int, top: int, k0: nat, n: nat)
    ensures LeafPass(o, seed, baseSeed, left, top, k0, n + 1)
         == LeafPass(o, seed, baseSeed, left, top, k0, n)
            + (if LeafDrawn(o, seed, k0, n) then [LeafShape(left, top, n, baseSeed)] else [])
  {
  }

  /** The corners of a list of shapes. */
  function Corners(shapes: seq<Shape>): set<Vec>
  {
    set s | s in shapes :: s.topLeft
  }

  /** What the crown cell with corner p adds to the fruit pass when the next draw is k: on a
      taken cell nothing, and no draw; on a free one a roll, and when the roll is below 0.2f a
      fruit whose colour (red for true) is the draw after it. Gives the fruits and the next draw. */
  function FruitCell(o: Oracle, seed: int, occupied: set<Vec>, p: Vec, k: nat): (seq<Shape>, nat)
  {
    if p in occupied then ([], k)
    else if o.nextFloat(seed, k) < FRUIT_PROBABILITY_PER_LEAF then
      ([FruitShape(p, if o.nextBoolean(seed, k + 1) then Red else Orange)], k + 2)
    else ([], k + 1)
  }

  /** The fruit pass over the first n cells, given the corners taken by leaves and the first
      draw k: the fruits in cell order and the next draw. */
  function FruitPass(o: Oracle, seed: int, occupied: set<Vec>, left: int, top: int, k: nat, n: nat)
    : (seq<Shape>, nat)
  {
    if n == 0 then ([], k)
    else
      var prev := FruitPass(o, seed, occupied, left, top, k, n - 1);
      var cell := FruitCell(o, seed, occupied, CellPos(left, top, n - 1), prev.1);
      (prev.0 + cell.0, cell.1)
  }

  /** One more cell of the fruit pass. */
  lemma FruitPassNext(o: Oracle, seed: int, occupied: set<Vec>, left: int, top: int, k: nat, n: nat)
    ensures var prev := FruitPass(o, seed, occupied, left, top, k, n);
      var cell := FruitCell(o, seed, occupied, CellPos(left, top, n), prev.1);
      FruitPass(o, seed, occupied, left, top, k, n + 1) == (prev.0 + cell.0, cell.1)
  {
  }

  /** The number of the first n cells whose corner is not taken. */
  function FreeCells(occupied: set<Vec>, left: int, top: int, n: nat): nat
  {
    if n == 0 then 0
    else FreeCells(occupied, left, top, n - 1) + (if CellPos(left, top, n - 1) in occupied then 0 else 1)
  }

  /** The trunk height in blocks, `nextInt(4) + 4` on the second draw. */
  function TrunkHeight(o: Oracle, seed: int): int
  {
    o.nextInt(seed, 1, MAX_TRUNK_HEIGHT_BLOCKS - MIN_TRUNK_HEIGHT_BLOCKS + 1) + MIN_TRUNK_HEIGHT_BLOCKS
  }

  /** Whether the column at x grows a tree: its first draw is below 0.1f. */
  predicate HasTree(o: Oracle, baseSeed: int, x: int)
  {
    o.nextFloat(ColumnSeed(x, baseSeed), 0) < TREE_PROBABILITY
  }

  function TrunkTopLeft(field: Terrain.HeightField, o: Oracle, baseSeed: int, x: int): Vec
  {
    Vec(x as real, field.GroundHeightAt(x as real) - (TrunkHeight(o, ColumnSeed(x, baseSeed)) * BLOCK_SIZE) as real)
  }

  /** The leaves of the tree at x. */
  function TreeLeaves(field: Terrain.HeightField, o: Oracle, baseSeed: int, x: int): seq<Shape>
  {
    var tl := TrunkTopLeft(field, o, baseSeed, x);
    LeafPass(o, ColumnSeed(x, baseSeed), baseSeed, CrownLeft(tl), CrownTop(tl), CROWN_FIRST_DRAW, CROWN_CELLS)
  }

  /** The fruits of the tree at x and the draws the whole tree takes. */
  function TreeFruits(field: Terrain.HeightField, o: Oracle, baseSeed: int, x: int): (seq<Shape>, nat)
  {
    var tl := TrunkTopLeft(field, o, baseSeed, x);
    FruitPass(o, ColumnSeed(x, baseSeed), Corners(TreeLeaves(field, o, baseSeed, x)),
              CrownLeft(tl), CrownTop(tl), CROWN_FIRST_DRAW + CROWN_CELLS, CROWN_CELLS)
  }

  /** What the column at x contributes: nothing, or trunk, leaves and fruits in that order. */
  function ColumnFlora(field: Terrain.HeightField, o: Oracle, baseSeed: int, x: int): seq<Shape>
  {
    if !HasTree(o, baseSeed, x) then []
    else
      var h := TrunkHeight(o, ColumnSeed(x, baseSeed));
      [TrunkShape(TrunkTopLeft(field, o, baseSeed, x), h)]
      + TreeLeaves(field, o, baseSeed, x) + TreeFruits(field, o, baseSeed, x).0
  }

  /** What `createInRange` returns for the columns xs, in ascending x. */
  function FloraLayout(field: Terrain.HeightField, o: Oracle, baseSeed: int, playerStartX: Float, xs: seq<int>)
    : seq<Shape>
  {
    if xs == [] then []
    else
      var x := xs[|xs| - 1];
      FloraLayout(field, o, baseSeed, playerStartX, xs[..|xs| - 1])
      + (if IsInPlayerSafeZone(x, playerStartX) then [] else ColumnFlora(field, o, baseSeed, x))
  }

  lemma FloraLayoutSnoc(field: Terrain.HeightField, o: Oracle, baseSeed: int, playerStartX: Float, xs: seq<int>, x: int)
    ensures FloraLayout(field, o, baseSeed, playerStartX, xs + [x])
         == FloraLayout(field, o, baseSeed, playerStartX, xs)
            + (if IsInPlayerSafeZone(x, playerStartX) then [] else ColumnFlora(field, o, baseSeed, x))
  {
    assert (xs + [x])[..|xs|] == xs;
  }

  /** The layer each kind of flora object is registered on. */
  function LayerOf(tag: string): int
  {
    if tag == TRUNK_TAG then TRUNK_LAYER else if tag == LEAF_TAG then LEAVES_LAYER else FRUIT_LAYER
  }

  /** The registrations `createInRange` makes for a list of flora objects. */
  function Registrations(objs: seq<GameObject>): set<(GameObject, int)>
  {
    if objs == [] then {}
    else Registrations(objs[..|objs| - 1]) + {(objs[|objs| - 1], LayerOf(objs[|objs| - 1].tag))}
  }

  /** The game objects of a list of fruits. */
  function Bodies(fruits: seq<Fruit>): (r: seq<GameObject>)
    ensures |r| == |fruits| && forall i :: 0 <= i < |fruits| ==> r[i] == fruits[i].body
  {
    seq(|fruits|, i requires 0 <= i < |fruits| => fruits[i].body)
  }

  // ---------------------------------------------------------------------------------------
  // Properties of the placement

  /** The leaf pass yields, in cell order, a leaf exactly at the cells whose roll succeeded. */
  lemma {:induction false} LeafPassCells(o: Oracle, seed: int, baseSeed: int, left: int, top: int, k0: nat, n: nat)
    requires n <= CROWN_CELLS
    ensures |LeafPass(o, seed, baseSeed, left, top, k0, n)| <= n
    ensures forall s :: s in LeafPass(o, seed, baseSeed, left, top, k0, n) ==> s.tag == LEAF_TAG
    ensures forall c :: 0 <= c < CROWN_CELLS ==>
      (CellPos(left, top, c) in Corners(LeafPass(o, seed, baseSeed, left, top, k0, n)) <==>
         c < n && LeafDrawn(o, seed, k0, c))
  {
    if n > 0 {
      LeafPassCells(o, seed, baseSeed, left, top, k0, n - 1);
      var prev := LeafPass(o, seed, baseSeed, left, top, k0, n - 1);
      var cur := LeafPass(o, seed, baseSeed, left, top, k0, n);
      forall c | 0 <= c < CROWN_CELLS
        ensures CellPos(left, top, c) in Corners(cur) <==> c < n && LeafDrawn(o, seed, k0, c)
      {
        if c != n - 1 {
          CellPosInjective(left, top, c, n - 1);
        }
        if LeafDrawn(o, seed, k0, n - 1) {
          assert Corners(cur) == Corners(prev) + {CellPos(left, top, n - 1)};
        } else {
          assert cur == prev;
        }
      }
    }
  }

  /** The fruit pass puts fruits only on free cells, never more than there are free cells, and
      takes one draw per free cell plus one per fruit. */
  lemma {:induction false} FruitPassCounts(o: Oracle, seed: int, occupied: set<Vec>, left: int, top: int, k: nat, n: nat)
    ensures var (fruits, next) := FruitPass(o, seed, occupied, left, top, k, n);
      && |fruits| <= FreeCells(occupied, left, top, n)
      && next == k + FreeCells(occupied, left, top, n) + |fruits|
      && forall f :: f in fruits ==> f.topLeft !in occupied && f.tag == FRUIT_TAG
  {
    if n > 0 {
      FruitPassCounts(o, seed, occupied, left, top, k, n - 1);
    }
  }

  /** The fruit pass puts fruits only on crown cells it has reached. */
  lemma {:induction false} FruitPassOnCells(o: Oracle, seed: int, occupied: set<Vec>, left: int, top: int, k: nat, n: nat)
    ensures forall s :: s in FruitPass(o, seed, occupied, left, top, k, n).0 ==>
      exists c :: 0 <= c < n && s.topLeft == CellPos(left, top, c)
  {
    if n > 0 {
      FruitPassOnCells(o, seed, occupied, left, top, k, n - 1);
      var prev := FruitPass(o, seed, occupied, left, top, k, n - 1);
      var cell := FruitCell(o, seed, occupied, CellPos(left, top, n - 1), prev.1);
      assert FruitPass(o, seed, occupied, left, top, k, n).0 == prev.0 + cell.0;
      forall s | s in cell.0
        ensures s.topLeft == CellPos(left, top, n - 1)
      {
      }
    }
  }

  /** Whether crown cell c grows a fruit in the pass starting at draw k: the cell is free and
      its roll, the draw the pass has reached at that cell, is below 0.2f. */
  predicate FruitGrows(o: Oracle, seed: int, occupied: set<Vec>, left: int, top: int, k: nat, c: nat)
  {
    && CellPos(left, top, c) !in occupied
    && o.nextFloat(seed, FruitPass(o, seed, occupied, left, top, k, c).1) < FRUIT_PROBABILITY_PER_LEAF
  }

  /** The fruit pass over the first n cells puts a fruit on cell c exactly when c is one of
      them and grows one. */
  lemma {:induction false} FruitPassCell(o: Oracle, seed: int, occupied: set<Vec>, left: int, top: int, k: nat, n: nat, c: nat)
    ensures CellPos(left, top, c) in Corners(FruitPass(o, seed, occupied, left, top, k, n).0) <==>
      c < n && FruitGrows(o, seed, occupied, left, top, k, c)
  {
    if n > 0 {
      FruitPassCell(o, seed, occupied, left, top, k, n - 1, c);
      var prev := FruitPass(o, seed, occupied, left, top, k, n - 1);
      var p := CellPos(left, top, n - 1);
      var grown := FruitGrows(o, seed, occupied, left, top, k, n - 1);
      var fruits := FruitPass(o, seed, occupied, left, top, k, n).0;
      assert Corners(fruits) == Corners(prev.0) + (if grown then {p} else {}) by {
        var cell := FruitCell(o, seed, occupied, p, prev.1);
        assert fruits == prev.0 + cell.0;
        assert Corners(cell.0) == if grown then {p} else {};
      }
      if c != n - 1 {
        CellPosInjective(left, top, c, n - 1);
      }
    }
  }

  /** The fruit pass puts a fruit on a cell exactly when that cell grows one. */
  lemma FruitPassCells(o: Oracle, seed: int, occupied: set<Vec>, left: int, top: int, k: nat, n: nat)
    ensures forall c: nat ::
      CellPos(left, top, c) in Corners(FruitPass(o, seed, occupied, left, top, k, n).0) <==>
        c < n && FruitGrows(o, seed, occupied, left, top, k, c)
  {
    forall c: nat {
      FruitPassCell(o, seed, occupied, left, top, k, n, c);
    }
  }

  /** With the leaves' corners as the taken set, the free cells are exactly the leafless ones. */
  lemma {:induction false} FreeCellsAreLeafless(o: Oracle, seed: int, baseSeed: int, left: int, top: int, k0: nat, m: nat)
    requires m <= CROWN_CELLS
    ensures var leaves := LeafPass(o, seed, baseSeed, left, top, k0, CROWN_CELLS);
      FreeCells(Corners(leaves), left, top, m) + |LeafPass(o, seed, baseSeed, left, top, k0, m)| == m
  {
    var leaves := LeafPass(o, seed, baseSeed, left, top, k0, CROWN_CELLS);
    if m > 0 {
      FreeCellsAreLeafless(o, seed, baseSeed, left, top, k0, m - 1);
      LeafPassCells(o, seed, baseSeed, left, top, k0, CROWN_CELLS);
    }
  }

  /** A tree: trunk first, with a height of 4 to 7 blocks standing on the ground at x; leaves
      and fruits on different cells of the crown, 25 objects at most between them; and the
      tree takes 2 + 25 draws plus one per leafless cell plus one per fruit. */
  lemma TreeProperties(field: Terrain.HeightField, o: Oracle, baseSeed: int, x: int)
    requires o.Valid()
    requires HasTree(o, baseSeed, x)
    ensures var h := TrunkHeight(o, ColumnSeed(x, baseSeed));
      var leaves := TreeLeaves(field, o, baseSeed, x);
      var (fruits, draws) := TreeFruits(field, o, baseSeed, x);
      && MIN_TRUNK_HEIGHT_BLOCKS <= h <= MAX_TRUNK_HEIGHT_BLOCKS
      && ColumnFlora(field, o, baseSeed, x)[0]
         == TrunkShape(Vec(x as real, field.GroundHeightAt(x as real) - (h * BLOCK_SIZE) as real), h)
      && (forall f :: f in fruits ==> f.topLeft !in Corners(leaves))
      && |leaves| + |fruits| <= CROWN_CELLS
      && draws == CROWN_FIRST_DRAW + CROWN_CELLS + (CROWN_CELLS - |leaves|) + |fruits|
  {
    var tl := TrunkTopLeft(field, o, baseSeed, x);
    var seed := ColumnSeed(x, baseSeed);
    var leaves := TreeLeaves(field, o, baseSeed, x);
    FruitPassCounts(o, seed, Corners(leaves), CrownLeft(tl), CrownTop(tl), CROWN_FIRST_DRAW + CROWN_CELLS, CROWN_CELLS);
    FreeCellsAreLeafless(o, seed, baseSeed, CrownLeft(tl), CrownTop(tl), CROWN_FIRST_DRAW, CROWN_CELLS);
  }

  /** Every flora object is a trunk, a leaf or a fruit. */
  lemma {:induction false} LayoutTags(field: Terrain.HeightField, o: Oracle, baseSeed: int, playerStartX: Float, xs: seq<int>)
    ensures forall s :: s in FloraLayout(field, o, baseSeed, playerStartX, xs) ==>
      s.tag == TRUNK_TAG || s.tag == LEAF_TAG || s.tag == FRUIT_TAG
  {
    if xs != [] {
      LayoutTags(field, o, baseSeed, playerStartX, xs[..|xs| - 1]);
      var x := xs[|xs| - 1];
      if HasTree(o, baseSeed, x) {
        var tl := TrunkTopLeft(field, o, baseSeed, x);
        var seed := ColumnSeed(x, baseSeed);
        LeafPassCells(o, seed, baseSeed, CrownLeft(tl), CrownTop(tl), CROWN_FIRST_DRAW, CROWN_CELLS);
        FruitPassCounts(o, seed, Corners(TreeLeaves(field, o, baseSeed, x)), CrownLeft(tl), CrownTop(tl),
                        CROWN_FIRST_DRAW + CROWN_CELLS, CROWN_CELLS);
      }
    }
  }

  /** A column without a tree, or inside the player's safe zone, contributes nothing. */
  lemma EmptyColumn(field: Terrain.HeightField, o: Oracle, baseSeed: int, playerStartX: Float, xs: seq<int>, x: int)
    requires !HasTree(o, baseSeed, x) || IsInPlayerSafeZone(x, playerStartX)
    ensures FloraLayout(field, o, baseSeed, playerStartX, xs + [x]) == FloraLayout(field, o, baseSeed, playerStartX, xs)
  {
    assert (xs + [x])[..|xs|] == xs;
  }

  // ---------------------------------------------------------------------------------------
  // The generator

  /** A `Flora`: the collection its adder registers on, the ground height of its terrain, its
      base seed and the player's start. The random streams come from `oracle`. */
  class Flora {
    const scene: GameObjectCollection
    const terrain: Terrain.HeightField
    const baseSeed: int
    const playerStartX: Float
    const oracle: Oracle

    constructor (scene: GameObjectCollection, terrain: Terrain.HeightField, seed: int,
                 playerStartX: Float, oracle: Oracle)
      ensures this.scene == scene && this.terrain == terrain && baseSeed == seed
      ensures this.playerStartX == playerStartX && this.oracle == oracle
    {
      this.scene := scene;
      this.terrain := terrain;
      baseSeed := seed;
      this.playerStartX := playerStartX;
      this.oracle := oracle;
    }

    /** `createInRange`: the flora of the columns from `floor(minX / 30) * 30` up to, not
        including, `ceil(maxX / 30) * 30`, each object registered on its kind's layer. */
    method CreateInRange(minX: int, maxX: int) returns (allTreeObjects: seq<GameObject>)
      modifies scene
      ensures Views(allTreeObjects) == FloraLayout(terrain, oracle, baseSeed, playerStartX, FloraXs(minX, maxX))
      ensures scene.entries == old(scene.entries) + Registrations(allTreeObjects)
      ensures forall obj :: obj in allTreeObjects ==> fresh(obj)
    {
      allTreeObjects := [];
      var startX := StartX(minX);
      var endX := EndX(maxX);
      ghost var xs := FloraXs(minX, maxX);
      ghost var n := 0;
      FloraXsCount(minX, maxX);
      var x := startX;
      while x < endX
        invariant x == startX + n * BLOCK_SIZE
        invariant 0 <= n <= |xs| && (x < endX <==> n < |xs|)
        invariant Views(allTreeObjects) == FloraLayout(terrain, oracle, baseSeed, playerStartX, xs[..n])
        invariant scene.entries == old(scene.entries) + Registrations(allTreeObjects)
        invariant forall obj :: obj in allTreeObjects ==> fresh(obj)
        decreases endX - x
      {
        assert xs[n] == x;
        PrefixSnoc(xs, n);
        FloraLayoutSnoc(terrain, oracle, baseSeed, playerStartX, xs[..n], x);
        var column := PlantColumn(x);
        ViewsAppend(allTreeObjects, column);
        RegistrationsAppend(allTreeObjects, column);
        allTreeObjects := allTreeObjects + column;
        x := x + BLOCK_SIZE;
        n := n + 1;
      }
      assert xs[..n] == xs;
    }

    /** One pass of the column loop: nothing in the player's safe zone; elsewhere the tree
        roll on a fresh stream seeded for x and, when it succeeds, the tree. */
    method PlantColumn(x: int) returns (objs: seq<GameObject>)
      modifies scene
      ensures Views(objs) == if IsInPlayerSafeZone(x, playerStartX) then [] else ColumnFlora(terrain, oracle, baseSeed, x)
      ensures scene.entries == old(scene.entries) + Registrations(objs)
      ensures forall obj :: obj in objs ==> fresh(obj)
    {
      objs := [];
      if IsInPlayerSafeZone(x, playerStartX) {
        return;
      }
      var positionRandom := new Random(oracle, ColumnSeed(x, baseSeed));
      var roll := positionRandom.NextFloat();
      if roll < TREE_PROBABILITY {
        objs := PlantTree(x, positionRandom);
      }
    }

    /** The body of a successful tree roll: the trunk, `nextInt(4) + 4` blocks high, standing
        on the ground at x, then the leaves, then the fruits, each registered on its layer. */
    method PlantTree(x: int, positionRandom: Random) returns (objs: seq<GameObject>)
      requires positionRandom.oracle == oracle && positionRandom.seed == ColumnSeed(x, baseSeed)
      requires positionRandom.drawn == 1 && HasTree(oracle, baseSeed, x)
      modifies scene, positionRandom
      ensures Views(objs) == ColumnFlora(terrain, oracle, baseSeed, x)
      ensures scene.entries == old(scene.entries) + Registrations(objs)
      ensures forall obj :: obj in objs ==> fresh(obj)
    {
      var trunk := PlantTrunk(x, positionRandom);
      var leaves, bodies := GrowCrown(trunk.topLeft, positionRandom);
      assert Views(leaves) == TreeLeaves(terrain, oracle, baseSeed, x);
      assert Views(bodies) == TreeFruits(terrain, oracle, baseSeed, x).0;
      objs := [trunk] + leaves + bodies;
      Concat3(trunk, leaves, bodies);
      forall obj | obj in objs
        ensures fresh(obj)
      {
        assert obj == trunk || obj in leaves || obj in bodies;
      }
    }

    /** The trunk of a tree: `nextInt(4) + 4` blocks high, standing on the ground at x, and
        registered on its layer. */
    method PlantTrunk(x: int, positionRandom: Random) returns (trunk: GameObject)
      requires positionRandom.oracle == oracle && positionRandom.seed == ColumnSeed(x, baseSeed)
      requires positionRandom.drawn == 1
      modifies scene, positionRandom
      ensures positionRandom.drawn == CROWN_FIRST_DRAW && fresh(trunk)
      ensures trunk.View() == TrunkShape(TrunkTopLeft(terrain, oracle, baseSeed, x), TrunkHeight(oracle, positionRandom.seed))
      ensures trunk.topLeft == TrunkTopLeft(terrain, oracle, baseSeed, x)
      ensures scene.entries == old(scene.entries) + {(trunk, LayerOf(trunk.tag))}
    {
      var groundHeight := terrain.GroundHeightAt(x as real);
      var heightDraw := positionRandom.NextInt(MAX_TRUNK_HEIGHT_BLOCKS - MIN_TRUNK_HEIGHT_BLOCKS + 1);
      var trunkHeightBlocks := heightDraw + MIN_TRUNK_HEIGHT_BLOCKS;
      var trunkHeightPixels := trunkHeightBlocks * BLOCK_SIZE;
      var trunkTopLeft := Vec(x as real, groundHeight - trunkHeightPixels as real);
      trunk := new GameObject(TRUNK_TAG, trunkTopLeft,
                              Vec(BLOCK_SIZE as real, trunkHeightPixels as real), Plain);
      scene.AddGameObject(trunk, TRUNK_LAYER);
    }

    /** The crown of a tree whose trunk top is at `trunkTopLeft`: the leaves, registered on
        their layer, then the fruits of the free cells, registered on theirs. */
    method GrowCrown(trunkTopLeft: Vec, random: Random) returns (leaves: seq<GameObject>, bodies: seq<GameObject>)
      modifies scene, random
      ensures Views(leaves) == LeafPass(random.oracle, random.seed, baseSeed, CrownLeft(trunkTopLeft),
                                        CrownTop(trunkTopLeft), old(random.drawn), CROWN_CELLS)
      ensures Views(bodies) == FruitPass(random.oracle, random.seed, Corners(Views(leaves)), CrownLeft(trunkTopLeft),
                                         CrownTop(trunkTopLeft), old(random.drawn) + CROWN_CELLS, CROWN_CELLS).0
      ensures scene.entries == old(scene.entries) + Registrations(leaves) + Registrations(bodies)
      ensures forall obj :: obj in leaves ==> fresh(obj)
      ensures forall obj :: obj in bodies ==> fresh(obj)
    {
      leaves := CreateLeafCrown(trunkTopLeft, random);
      LeafPassCells(random.oracle, random.seed, baseSeed, CrownLeft(trunkTopLeft), CrownTop(trunkTopLeft),
                    old(random.drawn), CROWN_CELLS);
      TagsOfViews(leaves, LEAF_TAG);
      RegisterAll(leaves, LEAVES_LAYER);

      var fruits := CreateFruits(leaves, trunkTopLeft, random);
      FruitPassCounts(random.oracle, random.seed, Corners(Views(leaves)), CrownLeft(trunkTopLeft),
                      CrownTop(trunkTopLeft), old(random.drawn) + CROWN_CELLS, CROWN_CELLS);
      bodies := Bodies(fruits);
      TagsOfViews(bodies, FRUIT_TAG);
      RegisterAll(bodies, FRUIT_LAYER);
      forall obj | obj in bodies
        ensures fresh(obj)
      {
        var i :| 0 <= i < |bodies| && bodies[i] == obj;
        assert fruits[i] in fruits;
      }
    }

    /** The registration loop for one kind of flora object: each object on the given layer,
        which is its kind's layer. */
    method RegisterAll(objs: seq<GameObject>, layer: int)
      requires forall obj :: obj in objs ==> LayerOf(obj.tag) == layer
      modifies scene
      ensures scene.entries == old(scene.entries) + Registrations(objs)
    {
      for i := 0 to |objs|
        invariant scene.entries == old(scene.entries) + Registrations(objs[..i])
      {
        assert objs[..i + 1][..i] == objs[..i];
        scene.AddGameObject(objs[i], layer);
      }
      assert objs[..|objs|] == objs;
    }

    /** `createLeafCrown`: the 25 cells row by row, one draw each; a leaf on each cell whose draw
        is below 0.7f, carrying the seed of its own wind stream. */
    method CreateLeafCrown(trunkTopLeft: Vec, random: Random) returns (leaves: seq<GameObject>)
      modifies random
      ensures random.drawn == old(random.drawn) + CROWN_CELLS
      ensures Views(leaves) == LeafPass(random.oracle, random.seed, baseSeed, CrownLeft(trunkTopLeft),
                                        CrownTop(trunkTopLeft), old(random.drawn), CROWN_CELLS)
      ensures forall i :: 0 <= i < |leaves| ==> fresh(leaves[i])
    {
      leaves := [];
      var crownSize := LEAF_CROWN_SIZE_BLOCKS;
      var crownTopY := CrownTop(trunkTopLeft);
      var crownLeftX := CrownLeft(trunkTopLeft);
      ghost var k0 := random.drawn;
      for row := 0 to crownSize
        invariant random.drawn == k0 + 5 * row
        invariant Views(leaves) == LeafPass(random.oracle, random.seed, baseSeed, crownLeftX, crownTopY, k0, 5 * row)
        invariant forall i :: 0 <= i < |leaves| ==> fresh(leaves[i])
      {
        var grown := GrowLeafRow(crownLeftX, crownTopY, row, random, k0);
        ViewsAppend(leaves, grown);
        leaves := leaves + grown;
      }
    }

    /** One row of the cell loop of `createLeafCrown`: one roll per cell of the row, and a leaf
        on each cell whose roll is below 0.7f, continuing the leaf pass of the earlier rows. */
    method GrowLeafRow(crownLeftX: int, crownTopY: int, row: nat, random: Random, ghost k0: nat)
        returns (grown: seq<GameObject>)
      requires row < LEAF_CROWN_SIZE_BLOCKS && random.drawn == k0 + 5 * row
      modifies random
      ensures random.drawn == k0 + 5 * row + 5
      ensures LeafPass(random.oracle, random.seed, baseSeed, crownLeftX, crownTopY, k0, 5 * row) + Views(grown)
           == LeafPass(random.oracle, random.seed, baseSeed, crownLeftX, crownTopY, k0, 5 * row + 5)
      ensures forall i :: 0 <= i < |grown| ==> fresh(grown[i])
    {
      grown := [];
      ghost var o, seed := random.oracle, random.seed;
      ghost var before := LeafPass(o, seed, baseSeed, crownLeftX, crownTopY, k0, 5 * row);
      for col := 0 to LEAF_CROWN_SIZE_BLOCKS
        invariant random.drawn == k0 + 5 * row + col
        invariant before + Views(grown) == LeafPass(o, seed, baseSeed, crownLeftX, crownTopY, k0, 5 * row + col)
        invariant forall i :: 0 <= i < |grown| ==> fresh(grown[i])
      {
        LeafPassNext(o, seed, baseSeed, crownLeftX, crownTopY, k0, 5 * row + col);
        var cell := GrowLeaf(crownLeftX, crownTopY, row, col, random, k0);
        ViewsAppend(grown, cell);
        AppendAssoc(before, Views(grown), Views(cell));
        grown := grown + cell;
      }
    }

    /** The body of the cell loop of `createLeafCrown`: one roll, and on a roll below 0.7f a
        block-sized leaf at the cell's corner whose wind stream is seeded with
        `Objects.hash(leafX, leafY, baseSeed)`. */
    method GrowLeaf(crownLeftX: int, crownTopY: int, row: nat, col: nat, random: Random, ghost k0: nat)
        returns (cell: seq<GameObject>)
      requires col < LEAF_CROWN_SIZE_BLOCKS && random.drawn == k0 + 5 * row + col
      modifies random
      ensures random.drawn == old(random.drawn) + 1
      ensures Views(cell) == if LeafDrawn(random.oracle, random.seed, k0, 5 * row + col)
                             then [LeafShape(crownLeftX, crownTopY, 5 * row + col, baseSeed)] else []
      ensures forall i :: 0 <= i < |cell| ==> fresh(cell[i])
    {
      CellIndex(crownLeftX, crownTopY, row, col);
      var roll := random.NextFloat();
      cell := [];
      if roll < LEAF_PROBABILITY {
        var leafX := crownLeftX + col * BLOCK_SIZE;
        var leafY := crownTopY + row * BLOCK_SIZE;
        var leaf := new GameObject(LEAF_TAG, Vec(leafX as real, leafY as real),
                                   Vec(BLOCK_SIZE as real, BLOCK_SIZE as real),
                                   Wind(ObjectsHash3(leafX, leafY, baseSeed)));
        cell := [leaf];
      }
    }

    /** `createFruits`: the corners of the given leaves are taken; the 25 cells row by row, a
        fruit roll for each free cell only, and a colour draw (true is red) only after a roll
        below 0.2f. Their game objects are new. */
    method CreateFruits(leaves: seq<GameObject>, trunkTopLeft: Vec, random: Random) returns (fruits: seq<Fruit>)
      modifies random
      ensures var (shapes, next) := FruitPass(random.oracle, random.seed, Corners(Views(leaves)),
                                              CrownLeft(trunkTopLeft), CrownTop(trunkTopLeft),
                                              old(random.drawn), CROWN_CELLS);
        Views(Bodies(fruits)) == shapes && random.drawn == next
      ensures forall i :: 0 <= i < |fruits| ==> fresh(fruits[i].body)
    {
      fruits := [];
      var crownSize := LEAF_CROWN_SIZE_BLOCKS;
      var crownTopY := CrownTop(trunkTopLeft);
      var crownLeftX := CrownLeft(trunkTopLeft);
      var leafPositions := LeafCorners(leaves);
      ghost var k0 := random.drawn;
      for row := 0 to crownSize
        invariant Views(Bodies(fruits)) == FruitPass(random.oracle, random.seed, leafPositions, crownLeftX, crownTopY, k0, 5 * row).0
        invariant random.drawn == FruitPass(random.oracle, random.seed, leafPositions, crownLeftX, crownTopY, k0, 5 * row).1
        invariant forall i :: 0 <= i < |fruits| ==> fresh(fruits[i].body)
      {
        var grown := GrowRow(crownLeftX, crownTopY, row, leafPositions, random, k0);
        BodiesAppend(fruits, grown);
        fruits := fruits + grown;
      }
    }

    /** The set of the corners of the leaves, built one leaf at a time. */
    method LeafCorners(leaves: seq<GameObject>) returns (positions: set<Vec>)
      ensures positions == Corners(Views(leaves))
    {
      positions := {};
      for i := 0 to |leaves|
        invariant positions == Corners(Views(leaves[..i]))
      {
        assert Views(leaves[..i + 1]) == Views(leaves[..i]) + [leaves[i].View()];
        positions := positions + {leaves[i].topLeft};
      }
      assert leaves[..|leaves|] == leaves;
    }

    /** One row of the cell loop of `createFruits`: the fruits of the five cells of the row, in
        order, continuing the fruit pass where the earlier rows left it. */
    method GrowRow(crownLeftX: int, crownTopY: int, row: int, leafPositions: set<Vec>, random: Random, ghost k0: nat)
        returns (grown: seq<Fruit>)
      requires 0 <= row < LEAF_CROWN_SIZE_BLOCKS
      requires random.drawn == FruitPass(random.oracle, random.seed, leafPositions, crownLeftX, crownTopY, k0, 5 * row).1
      modifies random
      ensures var before := FruitPass(random.oracle, random.seed, leafPositions, crownLeftX, crownTopY, k0, 5 * row);
        var after := FruitPass(random.oracle, random.seed, leafPositions, crownLeftX, crownTopY, k0, 5 * row + 5);
        before.0 + Views(Bodies(grown)) == after.0 && random.drawn == after.1
      ensures forall f :: f in grown ==> fresh(f.body)
    {
      grown := [];
      ghost var o, seed := random.oracle, random.seed;
      ghost var before := FruitPass(o, seed, leafPositions, crownLeftX, crownTopY, k0, 5 * row).0;
      for col := 0 to LEAF_CROWN_SIZE_BLOCKS
        invariant before + Views(Bodies(grown)) == FruitPass(o, seed, leafPositions, crownLeftX, crownTopY, k0, 5 * row + col).0
        invariant random.drawn == FruitPass(o, seed, leafPositions, crownLeftX, crownTopY, k0, 5 * row + col).1
        invariant forall f :: f in grown ==> fresh(f.body)
      {
        var gridPosition := Vec((crownLeftX + col * BLOCK_SIZE) as real, (crownTopY + row * BLOCK_SIZE) as real);
        CellIndex(crownLeftX, crownTopY, row, col);
        FruitPassNext(o, seed, leafPositions, crownLeftX, crownTopY, k0, 5 * row + col);
        var cell := GrowFruit(gridPosition, leafPositions, random);
        BodiesAppend(grown, cell);
        AppendAssoc(before, Views(Bodies(grown)), Views(Bodies(cell)));
        grown := grown + cell;
      }
    }

    /** The body of the cell loop of `createFruits`: nothing on a cell a leaf takes; otherwise
        a roll, and on a roll below 0.2f a new uneaten fruit of the drawn colour. */
    method GrowFruit(gridPosition: Vec, leafPositions: set<Vec>, random: Random) returns (grown: seq<Fruit>)
      modifies random
      ensures var cell := FruitCell(random.oracle, random.seed, leafPositions, gridPosition, old(random.drawn));
        Views(Bodies(grown)) == cell.0 && random.drawn == cell.1
      ensures forall f :: f in grown ==> fresh(f.body)
    {
      grown := [];
      if gridPosition !in leafPositions {
        var roll := random.NextFloat();
        if roll < FRUIT_PROBABILITY_PER_LEAF {
          var red := random.NextBoolean();
          var fruitColour := if red then Red else Orange;
          var fruit := new Fruit.Coloured(gridPosition, scene, fruitColour);
          grown := [fruit];
          assert grown[..0] == [];
        }
      }
    }
  }

  lemma BodiesAppend(a: seq<Fruit>, b: seq<Fruit>)
    ensures Views(Bodies(a + b)) == Views(Bodies(a)) + Views(Bodies(b))
  {
    assert Bodies(a + b) == Bodies(a) + Bodies(b);
    ViewsAppend(Bodies(a), Bodies(b));
  }

  /** Objects whose shapes all carry a tag carry it themselves. */
  lemma TagsOfViews(objs: seq<GameObject>, tag: string)
    requires forall s :: s in Views(objs) ==> s.tag == tag
    ensures forall obj :: obj in objs ==> LayerOf(obj.tag) == LayerOf(tag)
  {
    forall obj | obj in objs
      ensures obj.tag == tag
    {
      var i :| 0 <= i < |objs| && objs[i] == obj;
      assert Views(objs)[i] in Views(objs);
    }
  }

  /** The shapes and registrations of a tree's objects, trunk first. */
  lemma Concat3(trunk: GameObject, leaves: seq<GameObject>, bodies: seq<GameObject>)
    ensures Views([trunk] + leaves + bodies) == [trunk.View()] + Views(leaves) + Views(bodies)
    ensures Registrations([trunk] + leaves + bodies)
         == {(trunk, LayerOf(trunk.tag))} + Registrations(leaves) + Registrations(bodies)
  {
    ViewsAppend([trunk], leaves);
    ViewsAppend([trunk] + leaves, bodies);
    RegistrationsConcat3(trunk, leaves, bodies);
  }

  lemma RegistrationsConcat3(trunk: GameObject, leaves: seq<GameObject>, bodies: seq<GameObject>)
    ensures Registrations([trunk] + leaves + bodies)
         == {(trunk, LayerOf(trunk.tag))} + Registrations(leaves) + Registrations(bodies)
  {
    RegistrationsAppend([trunk], leaves);
    RegistrationsAppend([trunk] + leaves, bodies);
    assert [trunk][..0] == [];
  }

  lemma RegistrationsAppend(a: seq<GameObject>, b: seq<GameObject>)
    ensures Registrations(a + b) == Registrations(a) + Registrations(b)
    decreases |b|
  {
    if b != [] {
      assert (a + b)[..|a + b| - 1] == a + b[..|b| - 1];
      RegistrationsAppend(a, b[..|b| - 1]);
    } else {
      assert a + b == a;
    }
  }
}
