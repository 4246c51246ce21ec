/** `pepse.world.Terrain`: the ground height at any x, and the columns of 20 stacked
    "ground" blocks that cover an x range, one column every `Block.SIZE` pixels. */
module Terrain {
  import opened JavaLang
  import opened Engine

  /** `GROUND_LENGTH`: the ground line at x = 0 sits at 0.6 of the window height. */
  const GROUND_LENGTH: real := 0.6
  /** `TERRAIN_DEPTH`: blocks per column. */
  const TERRAIN_DEPTH: int := 20
  const GROUND_TAG: string := "ground"
  /** `NOISE_FACTOR`, `Block.SIZE * 10`. */
  const NOISE_FACTOR: real := 300.0

  /** The smooth noise of `pepse.util.NoiseGenerator`, which is not part of this model: its
      value for a generator seed, a start point, an x and a scale factor. */
  type SmoothNoise = (int, int, real, real) -> real

  /** A `NoiseGenerator` built from a seed and a start point. */
  datatype NoiseGenerator = NoiseGenerator(seed: int, startPoint: int, smooth: SmoothNoise)
  {
    function Noise(x: real, factor: real): real
    {
      smooth(seed, startPoint, x, factor)
    }
  }

  /** What `groundHeightAt` of a `Terrain` reads: the baseline and the noise generator. */
  datatype HeightField = HeightField(groundHeightAtX0: real, noiseGenerator: NoiseGenerator)
  {
    /** `groundHeightAt(x)`: baseline plus noise at scale `NOISE_FACTOR`. */
    function GroundHeightAt(x: real): real
    {
      groundHeightAtX0 + noiseGenerator.Noise(x, NOISE_FACTOR)
    }
  }

  /** The height field the `Terrain` constructor builds for a window height and a seed: the
      ground at any x is 0.6 of the window height plus the noise of a generator seeded with the
      terrain's seed, whose start point is that baseline cast to `int`. */
  function FieldFor(windowHeight: real, seed: int, smooth: SmoothNoise): (f: HeightField)
    ensures forall x: real ::
      f.GroundHeightAt(x) == windowHeight * GROUND_LENGTH + smooth(seed, TruncToInt(windowHeight * GROUND_LENGTH), x, NOISE_FACTOR)
  {
    var h0 := windowHeight * GROUND_LENGTH;
    HeightField(h0, NoiseGenerator(seed, TruncToInt(h0), smooth))
  }

  datatype Direction = Up | Down

  /** `roundToNearestStep`, with Java's truncating `int` division. `Down` is the floor only
      for non-negative inputs and rounds toward zero below zero; `Up` is the least multiple
      of the step above the input only for non-negative inputs. */
  function RoundToNearestStep(curr: int, direction: Direction): (r: int)
    ensures r % BLOCK_SIZE == 0
    ensures direction == Down && curr >= 0 ==> r <= curr < r + BLOCK_SIZE
    ensures direction == Down && curr < 0 ==> r - BLOCK_SIZE < curr <= r <= 0
    ensures direction == Up ==> curr <= r
    ensures direction == Up && curr >= 0 ==> r < curr + BLOCK_SIZE
  {
    if direction == Up then Quot(curr + BLOCK_SIZE - 1, BLOCK_SIZE) * BLOCK_SIZE
    else Quot(curr, BLOCK_SIZE) * BLOCK_SIZE
  }

  /** An illustration of the second `Down` clause of `RoundToNearestStep` on one input: below
      zero `Down` rounds toward zero, so -50 goes to -30, not to the floor -60. */
  lemma RoundDownNegative()
    ensures RoundToNearestStep(-50, Down) == -30
  {
  }

  /** Below zero `Up` moves an exact multiple one whole step up: -300 goes to -270. */
  lemma {:induction false} RoundUpNegativeMultiple(c: int)
    requires c < 0 && c % BLOCK_SIZE == 0
    ensures RoundToNearestStep(c, Up) == c + BLOCK_SIZE
  {
    var m := -c / BLOCK_SIZE;
    assert c == -BLOCK_SIZE * m && m >= 1;
    assert -(c + BLOCK_SIZE - 1) == BLOCK_SIZE * (m - 1) + 1;
    assert (-(c + BLOCK_SIZE - 1)) / BLOCK_SIZE == m - 1;
  }

  /** The y of the top block of the column at x: the ground height cast to `int`, rounded
      down to the grid. */
  function TopBlockY(field: HeightField, x: int): int
  {
    RoundToNearestStep(TruncToInt(field.GroundHeightAt(x as real)), Down)
  }

  function GroundBlock(x: int, y: int): Shape
  {
    Shape(GROUND_TAG, Vec(x as real, y as real), Vec(BLOCK_SIZE as real, BLOCK_SIZE as real), Plain)
  }

  /** The blocks `createColumn(x)` appends, top to bottom. */
  function ColumnShapes(field: HeightField, x: int): seq<Shape>
  {
    seq(TERRAIN_DEPTH, i => GroundBlock(x, TopBlockY(field, x) + i * BLOCK_SIZE))
  }

  /** How many times the loop `for (x = lo; x <= hi; x += Block.SIZE)` runs. */
  function ColumnCount(lo: int, hi: int): nat
  {
    if lo <= hi then (hi - lo) / BLOCK_SIZE + 1 else 0
  }

  /** The x values that loop visits, in order. */
  function ColumnXs(lo: int, hi: int): seq<int>
  {
    seq(ColumnCount(lo, hi), i => lo + i * BLOCK_SIZE)
  }

  /** The blocks of the columns xs, column after column. */
  function Layout(field: HeightField, xs: seq<int>): seq<Shape>
    decreases |xs|
  {
    if xs == [] then [] else Layout(field, xs[..|xs| - 1]) + ColumnShapes(field, xs[|xs| - 1])
  }

  lemma LayoutSnoc(field: HeightField, xs: seq<int>, x: int)
    ensures Layout(field, xs + [x]) == Layout(field, xs) + ColumnShapes(field, x)
  {
    assert (xs + [x])[..|xs|] == xs;
  }

  /** The inclusive bound: the loop visits lo, lo + 30, ... up to and including hi when hi - lo
      is a multiple of the step, and every x it visits lies on the grid when lo does. */
  lemma ColumnXsBounds(lo: int, hi: int)
    requires lo <= hi && (hi - lo) % BLOCK_SIZE == 0
    ensures |ColumnXs(lo, hi)| == (hi - lo) / BLOCK_SIZE + 1
    ensures ColumnXs(lo, hi)[0] == lo && ColumnXs(lo, hi)[|ColumnXs(lo, hi)| - 1] == hi
    ensures lo % BLOCK_SIZE == 0 ==> forall x :: x in ColumnXs(lo, hi) ==> x % BLOCK_SIZE == 0
  {
    var xs := ColumnXs(lo, hi);
    assert xs[|xs| - 1] == lo + ((hi - lo) / BLOCK_SIZE) * BLOCK_SIZE;
    if lo % BLOCK_SIZE == 0 {
      forall x | x in xs ensures x % BLOCK_SIZE == 0 {
        var i :| 0 <= i < |xs| && xs[i] == x;
        assert x == BLOCK_SIZE * (lo / BLOCK_SIZE + i);
      }
    }
  }

  /** Block k of a layout is block k % 20 of column k / 20: same x for the whole column,
      y stepping down by one block from the top block, always tagged "ground". */
  lemma {:induction false} LayoutAt(field: HeightField, xs: seq<int>, k: int)
    requires 0 <= k < TERRAIN_DEPTH * |xs|
    ensures |Layout(field, xs)| == TERRAIN_DEPTH * |xs|
    ensures Layout(field, xs)[k]
         == GroundBlock(xs[k / TERRAIN_DEPTH], TopBlockY(field, xs[k / TERRAIN_DEPTH]) + (k % TERRAIN_DEPTH) * BLOCK_SIZE)
    decreases |xs|
  {
    var init := xs[..|xs| - 1];
    LayoutLength(field, init);
    if k < TERRAIN_DEPTH * |init| {
      LayoutAt(field, init, k);
    } else {
      var j := k - TERRAIN_DEPTH * |init|;
      assert k / TERRAIN_DEPTH == |init| && k % TERRAIN_DEPTH == j;
    }
  }

  lemma {:induction false} LayoutLength(field: HeightField, xs: seq<int>)
    ensures |Layout(field, xs)| == TERRAIN_DEPTH * |xs|
    decreases |xs|
  {
    if xs != [] {
      LayoutLength(field, xs[..|xs| - 1]);
    }
  }

  /** Every top block, and so every block, lies on the 30-pixel grid. */
  lemma ColumnOnGrid(field: HeightField, x: int, i: int)
    requires 0 <= i < TERRAIN_DEPTH
    ensures TopBlockY(field, x) % BLOCK_SIZE == 0
    ensures ColumnShapes(field, x)[i].topLeft.y == (TopBlockY(field, x) + i * BLOCK_SIZE) as real
    ensures (TopBlockY(field, x) + i * BLOCK_SIZE) % BLOCK_SIZE == 0
  {
    var t := TopBlockY(field, x);
    assert t + i * BLOCK_SIZE == BLOCK_SIZE * (t / BLOCK_SIZE + i);
  }

  /** The columns of the chunk [300 id, 300 id + 300): 11 columns from 300 id to 300 id + 300
      inclusive when id >= -1, and 12 when id <= -2, since rounding the negative end up moves it
      one step past the chunk. */
  lemma ChunkColumns(id: int)
    ensures var xs := ColumnXs(RoundToNearestStep(300 * id, Down), RoundToNearestStep(300 * id + 300, Up));
      && |xs| == (if id >= -1 then 11 else 12)
      && forall i :: 0 <= i < |xs| ==> xs[i] == 300 * id + BLOCK_SIZE * i
  {
    assert 300 * id == BLOCK_SIZE * (10 * id);
    assert 300 * id + 300 == BLOCK_SIZE * (10 * id + 10);
    RoundMultiple(10 * id);
    RoundMultiple(10 * id + 10);
    ColumnCountMultiples(10 * id, if id >= -1 then 10 * id + 10 else 10 * id + 11);
  }

  /** On a grid multiple `Down` is exact, and `Up` is exact from zero on but one step too high
      below zero. */
  lemma RoundMultiple(k: int)
    ensures RoundToNearestStep(BLOCK_SIZE * k, Down) == BLOCK_SIZE * k
    ensures RoundToNearestStep(BLOCK_SIZE * k, Up) == BLOCK_SIZE * (if k >= 0 then k else k + 1)
  {
    var down := Quot(BLOCK_SIZE * k, BLOCK_SIZE);
    var up := Quot(BLOCK_SIZE * k + BLOCK_SIZE - 1, BLOCK_SIZE);
    assert down == k;
    assert up == (if k >= 0 then k else k + 1);
  }

  /** The loop from grid multiple a to grid multiple b runs b - a + 1 times. */
  lemma ColumnCountMultiples(a: int, b: int)
    requires a <= b
    ensures ColumnCount(BLOCK_SIZE * a, BLOCK_SIZE * b) == b - a + 1
  {
    assert BLOCK_SIZE * b - BLOCK_SIZE * a == BLOCK_SIZE * (b - a);
    assert (BLOCK_SIZE * (b - a)) / BLOCK_SIZE == b - a;
  }

  /** A `Terrain`: a height field and the `blocks` list its last `createInRange` built. */
  class Terrain {
    const field: HeightField
    var blocks: seq<GameObject>

    constructor (windowHeight: real, seed: int, smooth: SmoothNoise)
      ensures field == FieldFor(windowHeight, seed, smooth)
      ensures blocks == []
    {
      field := FieldFor(windowHeight, seed, smooth);
      blocks := [];
    }

    /** `groundHeightAt`. */
    function GroundHeightAt(x: real): real
    {
      field.GroundHeightAt(x)
    }

    /** `createInRange`: replaces `blocks` with the columns from `minX` rounded down to
        `maxX` rounded up, both ends included, all new objects. */
    method CreateInRange(minX: int, maxX: int) returns (r: seq<GameObject>)
      modifies this
      ensures r == blocks
      ensures Views(r)
           == Layout(field, ColumnXs(RoundToNearestStep(minX, Down), RoundToNearestStep(maxX, Up)))
      ensures forall b :: b in r ==> fresh(b)
    {
      blocks := [];
      var newMin := RoundToNearestStep(minX, Down);
      var newMax := RoundToNearestStep(maxX, Up);
      ghost var xs := ColumnXs(newMin, newMax);
      ghost var n := 0;
      assert newMin <= newMax ==> newMax == newMin + (|xs| - 1) * BLOCK_SIZE by {
        if newMin <= newMax {
          assert (newMax - newMin) % BLOCK_SIZE == 0;
        }
      }
      assert newMin > newMax ==> |xs| == 0;
      var x := newMin;
      while x <= newMax
        invariant x == newMin + n * BLOCK_SIZE
        invariant 0 <= n <= |xs| && (x <= newMax <==> n < |xs|)
        invariant Views(blocks) == Layout(field, xs[..n])
        invariant forall b :: b in blocks ==> fresh(b)
        decreases newMax - x
      {
        assert xs[n] == x;
        PrefixSnoc(xs, n);
        LayoutSnoc(field, xs[..n], x);
        CreateColumn(x);
        x := x + BLOCK_SIZE;
        n := n + 1;
      }
      assert xs[..n] == xs;
      r := blocks;
    }

    /** `createColumn(x)`: appends the 20 blocks of the column at x. */
    method CreateColumn(x: int)
      modifies this
      ensures |blocks| == |old(blocks)| + TERRAIN_DEPTH && blocks[..|old(blocks)|] == old(blocks)
      ensures Views(blocks) == Views(old(blocks)) + ColumnShapes(field, x)
      ensures forall i :: |old(blocks)| <= i < |blocks| ==> fresh(blocks[i])
      ensures forall b :: b in blocks ==> b in old(blocks) || fresh(b)
    {
      var topY := GroundHeightAt(x as real);
      var topBlockY := RoundToNearestStep(TruncToInt(topY), Down);
      ghost var before := blocks;
      for i := 0 to TERRAIN_DEPTH
        invariant |blocks| == |before| + i && blocks[..|before|] == before
        invariant Views(blocks) == Views(before) + ColumnShapes(field, x)[..i]
        invariant forall j :: |before| <= j < |blocks| ==> fresh(blocks[j])
        invariant forall b :: b in blocks ==> b in before || fresh(b)
      {
        var y := topBlockY + i * BLOCK_SIZE;
        var block := new GameObject(GROUND_TAG, Vec(x as real, y as real),
                                    Vec(BLOCK_SIZE as real, BLOCK_SIZE as real), Plain);
        blocks := blocks + [block];
        assert ColumnShapes(field, x)[..i + 1] == ColumnShapes(field, x)[..i] + [block.View()];
      }
    }
  }
}
