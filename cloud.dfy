/** `pepse.world.Cloud`: a pixel-art cloud laid out from a fixed 6 x 6 pattern, and the rain
    it sheds when the avatar leaves the ground. The class's static state (the list of cloud
    blocks and the last value of the jump signal) is the state of one `Cloud` object here;
    the adder and remover callbacks act on one `GameObjectCollection`, and the fade-out
    transitions that remove the drops are callbacks on `Timers`. */
module Clouds {
  import opened Engine

  const RAINDROP_FADE_TIME: real := 3.0
  /** `MAX_VALUE`: the least number of drops asked for. */
  const MIN_DROPS: int := 3
  /** `HALF_VALUE`: at most one drop per two blocks, unless that is below `MIN_DROPS`. */
  const HALF_VALUE: int := 2
  /** `UNRETURNED_VAL`: subtracted from the drop ceiling to get the bound of the draw. */
  const UNRETURNED_VAL: int := 2

  const CLOUD_LAYER: int := BACKGROUND + 11
  const RAIN_LAYER: int := BACKGROUND
  const CLOUD_TAG: string := "cloud"
  const RAIN_TAG: string := "raindrop"
  /** `CLOUD_Y_FACTOR`: the cloud's top is a quarter of the window height down. */
  const CLOUD_Y_FACTOR: real := 4.0
  const RAIN_SIZE: Vec := Vec(10.0, 10.0)
  /** `Block.SIZE / 1.5f`, which is exactly 20 in single precision. */
  const CLOUD_BLOCK_SIZE: real := 20.0
  const DROP_OFFSET: Vec := Vec(0.0, 5.0)

  /** The cloud's shape: a non-zero cell is a block. */
  const PATTERN: seq<seq<int>> := [
    [0, 1, 1, 0, 0, 0],
    [1, 1, 1, 0, 1, 0],
    [1, 1, 1, 1, 1, 1],
    [1, 1, 1, 1, 1, 1],
    [0, 1, 1, 1, 0, 0],
    [0, 0, 0, 0, 0, 0]]

  /** Every row of the pattern has the width of the first. */
  const WIDTH: nat := 6

  /** The top-left corner of the pattern: one pattern width left of the screen, a quarter of
      the window down. */
  function CloudOrigin(windowDim: Vec): Vec
  {
    Vec(-(WIDTH as real * CLOUD_BLOCK_SIZE), windowDim.y / CLOUD_Y_FACTOR)
  }

  /** The block of pattern cell (row, col): a 20 x 20 square tagged "cloud". */
  function BlockShape(origin: Vec, row: nat, col: nat): Shape
  {
    Shape(CLOUD_TAG,
          origin.Add(Vec(col as real * CLOUD_BLOCK_SIZE, row as real * CLOUD_BLOCK_SIZE)),
          Vec(CLOUD_BLOCK_SIZE, CLOUD_BLOCK_SIZE), Plain)
  }

  /** The blocks of the first n cells of pattern row `row`, left to right. */
  function RowBlocks(origin: Vec, row: nat, n: nat): seq<Shape>
    requires row < |PATTERN| && n <= WIDTH
  {
    if n == 0 then []
    else RowBlocks(origin, row, n - 1)
         + (if PATTERN[row][n - 1] != 0 then [BlockShape(origin, row, n - 1)] else [])
  }

  /** The blocks of the first n rows, in row-major order. */
  function CloudBlocks(origin: Vec, n: nat): seq<Shape>
    requires n <= |PATTERN|
  {
    if n == 0 then [] else CloudBlocks(origin, n - 1) + RowBlocks(origin, n - 1, WIDTH)
  }

  /** The number of non-zero cells among the first n of pattern row `row`. */
  function RowOnes(row: nat, n: nat): nat
    requires row < |PATTERN| && n <= WIDTH
  {
    if n == 0 then 0 else RowOnes(row, n - 1) + (if PATTERN[row][n - 1] != 0 then 1 else 0)
  }

  lemma {:induction false} RowBlocksCount(origin: Vec, row: nat, n: nat)
    requires row < |PATTERN| && n <= WIDTH
    ensures |RowBlocks(origin, row, n)| == RowOnes(row, n)
  {
    if n > 0 {
      RowBlocksCount(origin, row, n - 1);
    }
  }

  /** The number of non-zero cells in the first n rows. */
  function CloudOnes(n: nat): nat
    requires n <= |PATTERN|
  {
    if n == 0 then 0 else CloudOnes(n - 1) + RowOnes(n - 1, WIDTH)
  }

  lemma {:induction false} CloudBlocksCount(origin: Vec, n: nat)
    requires n <= |PATTERN|
    ensures |CloudBlocks(origin, n)| == CloudOnes(n)
  {
    if n > 0 {
      CloudBlocksCount(origin, n - 1);
      RowBlocksCount(origin, n - 1, WIDTH);
    }
  }

  /** The pattern yields exactly 21 blocks. */
  lemma CloudBlockCount(origin: Vec)
    ensures |CloudBlocks(origin, |PATTERN|)| == 21
  {
    CloudBlocksCount(origin, |PATTERN|);
    assert RowOnes(0, WIDTH) == 2 && RowOnes(1, WIDTH) == 4 && RowOnes(2, WIDTH) == 6;
    assert RowOnes(3, WIDTH) == 6 && RowOnes(4, WIDTH) == 3 && RowOnes(5, WIDTH) == 0;
  }

  /** A shape is among a row's first n blocks exactly when it is the block of a non-zero cell
      of that row before column n. */
  lemma {:induction false} RowBlocksMembers(origin: Vec, row: nat, n: nat, s: Shape)
    requires row < |PATTERN| && n <= WIDTH
    ensures s in RowBlocks(origin, row, n)
        <==> exists col :: 0 <= col < n && PATTERN[row][col] != 0 && s == BlockShape(origin, row, col)
  {
    if n > 0 {
      RowBlocksMembers(origin, row, n - 1, s);
      if PATTERN[row][n - 1] != 0 && s == BlockShape(origin, row, n - 1) {
        assert s in RowBlocks(origin, row, n);
      }
    }
  }

  /** A shape is one of the cloud's blocks exactly when it is the block of a non-zero cell of
      the pattern. */
  lemma {:induction false} CloudBlocksMembers(origin: Vec, n: nat, s: Shape)
    requires n <= |PATTERN|
    ensures s in CloudBlocks(origin, n)
        <==> exists row, col :: 0 <= row < n && 0 <= col < WIDTH && PATTERN[row][col] != 0
                                && s == BlockShape(origin, row, col)
  {
    if n > 0 {
      CloudBlocksMembers(origin, n - 1, s);
      RowBlocksMembers(origin, n - 1, WIDTH, s);
      if s in RowBlocks(origin, n - 1, WIDTH) {
        var col :| 0 <= col < WIDTH && PATTERN[n - 1][col] != 0 && s == BlockShape(origin, n - 1, col);
        assert 0 <= n - 1 < n;
      }
    }
  }

  /** `spawnRandomRainDrops`' ceiling: at least 3, else half the blocks. */
  function MaxDrops(blocks: nat): int
  {
    if MIN_DROPS < blocks / HALF_VALUE then blocks / HALF_VALUE else MIN_DROPS
  }

  /** What the unseeded `nextInt(maxDrops - 2)` may return. */
  predicate DrawInRange(blocks: nat, draw: int)
  {
    0 <= draw < MaxDrops(blocks) - UNRETURNED_VAL
  }

  /** The number of drops for `blocks` cloud blocks and the given draw. */
  function NumDrops(blocks: nat, draw: int): int
  {
    var asked := draw + MIN_DROPS;
    if asked < blocks then asked else blocks
  }

  /** At least `min(3, n)` and at most `min(max(3, n / 2), n)` drops. */
  lemma NumDropsBounds(blocks: nat, draw: int)
    requires DrawInRange(blocks, draw)
    ensures (if blocks < MIN_DROPS then blocks else MIN_DROPS) <= NumDrops(blocks, draw)
    ensures NumDrops(blocks, draw) <= blocks && NumDrops(blocks, draw) <= MaxDrops(blocks)
  {
  }

  /** For the 21-block cloud: between 3 and 10 drops. */
  lemma NumDropsForCloud(draw: int)
    requires DrawInRange(21, draw)
    ensures 3 <= NumDrops(21, draw) <= 10
  {
  }

  /** `shuffle` is modelled by its outcome: a permutation of the indices. */
  predicate IsPermutation(perm: seq<int>, n: nat)
  {
    && |perm| == n
    && (forall i :: 0 <= i < n ==> 0 <= perm[i] < n)
    && (forall i, j :: 0 <= i < j < n ==> perm[i] != perm[j])
  }

  /** The shuffled copy of the block list. */
  function Shuffled(blocks: seq<GameObject>, perm: seq<int>): (r: seq<GameObject>)
    requires IsPermutation(perm, |blocks|)
  {
    seq(|blocks|, i requires 0 <= i < |blocks| => blocks[perm[i]])
  }

  /** No object appears twice. */
  predicate Distinct(objs: seq<GameObject>)
  {
    forall i, j :: 0 <= i < j < |objs| ==> objs[i] != objs[j]
  }

  lemma DistinctAppend(a: seq<GameObject>, b: seq<GameObject>)
    requires Distinct(a) && Distinct(b)
    requires forall x :: x in b ==> x !in a
    ensures Distinct(a + b)
  {
    forall i, j | 0 <= i < j < |a + b|
      ensures (a + b)[i] != (a + b)[j]
    {
      if j >= |a| && i < |a| {
        assert (a + b)[j] in b;
      }
    }
  }

  /** The indices 0 to n - 1. */
  function Indices(n: nat): (r: set<int>)
    ensures forall j :: j in r <==> 0 <= j < n
    ensures |r| == n
  {
    if n == 0 then {} else Indices(n - 1) + {n - 1}
  }

  /** The values a list of indices takes. */
  function Values(s: seq<int>): set<int>
  {
    set x | x in s
  }

  /** A list without repeats takes as many values as it is long. */
  lemma {:induction false} DistinctValues(s: seq<int>)
    requires forall i, j :: 0 <= i < j < |s| ==> s[i] != s[j]
    ensures |Values(s)| == |s|
  {
    if s != [] {
      var init := s[..|s| - 1];
      DistinctValues(init);
      assert Values(s) == Values(init) + {s[|s| - 1]};
      assert s[|s| - 1] !in Values(init);
    }
  }

  /** A permutation of 0 .. n - 1 takes every index: n distinct values below n are all of them. */
  lemma PermutationOnto(perm: seq<int>, n: nat, j: int)
    requires IsPermutation(perm, n) && 0 <= j < n
    ensures j in perm
  {
    DistinctValues(perm);
    var all := Indices(n);
    assert Values(perm) <= all;
    assert |all - Values(perm)| == 0;
    assert j in all;
  }

  /** The shuffled copy holds exactly the blocks of the list, and each once when the list has
      no repeats. */
  lemma ShuffledDistinct(blocks: seq<GameObject>, perm: seq<int>)
    requires IsPermutation(perm, |blocks|) && Distinct(blocks)
    ensures Distinct(Shuffled(blocks, perm))
    ensures forall b :: b in Shuffled(blocks, perm) <==> b in blocks
  {
    var r := Shuffled(blocks, perm);
    forall i, j | 0 <= i < j < |r|
      ensures r[i] != r[j]
    {
      assert perm[i] != perm[j];
    }
    forall b | b in blocks
      ensures b in r
    {
      var j :| 0 <= j < |blocks| && blocks[j] == b;
      PermutationOnto(perm, |blocks|, j);
      var i :| 0 <= i < |perm| && perm[i] == j;
      assert r[i] == b;
    }
  }

  /** A block's centre once the drift transition has moved it `drift` pixels right. */
  function DriftedCentre(block: GameObject, drift: real): Vec
  {
    block.Center().Add(Vec(drift, 0.0))
  }

  /** A raindrop spawned at `startCenter`: a 10 x 10 object tagged "raindrop" whose top-left
      corner is the given point moved 5 pixels down. */
  function DropShape(startCenter: Vec): Shape
  {
    Shape(RAIN_TAG, startCenter.Add(DROP_OFFSET), RAIN_SIZE, Plain)
  }

  /** The fade-out of each drop: after three seconds it removes the drop from the rain layer. */
  function FadeOuts(drops: seq<GameObject>): seq<Deferred>
  {
    seq(|drops|, i requires 0 <= i < |drops| => Deferred(RAINDROP_FADE_TIME, RemoveFromLayer(drops[i], RAIN_LAYER)))
  }

  lemma FadeOutsAppend(a: seq<GameObject>, b: seq<GameObject>)
    ensures FadeOuts(a + b) == FadeOuts(a) + FadeOuts(b)
  {
  }

  /** Which frames shed rain, for a jump signal sampled once per frame, starting from the
      remembered value `last`: a frame sheds rain exactly on a rising edge. */
  function RainFrames(last: bool, signal: seq<bool>): (r: seq<bool>)
    ensures |r| == |signal|
    decreases |signal|
  {
    if signal == [] then [] else [signal[0] && !last] + RainFrames(signal[0], signal[1..])
  }

  /** Two frames in a row never both shed rain. */
  lemma {:induction false} RainNotOnConsecutiveFrames(last: bool, signal: seq<bool>)
    ensures forall i :: 0 <= i < |signal| - 1 ==> !(RainFrames(last, signal)[i] && RainFrames(last, signal)[i + 1])
    decreases |signal|
  {
    if signal != [] {
      RainNotOnConsecutiveFrames(signal[0], signal[1..]);
      var r := RainFrames(last, signal);
      var rest := RainFrames(signal[0], signal[1..]);
      assert r == [signal[0] && !last] + rest;
      if |signal| > 1 {
        assert signal[1..][0] == signal[1];
        assert rest[0] == (signal[1] && !signal[0]);
      }
      forall i | 0 <= i < |signal| - 1
        ensures !(r[i] && r[i + 1])
      {
        if i > 0 {
          assert r[i] == rest[i - 1] && r[i + 1] == rest[i];
        }
      }
    }
  }

  /** Holding the signal high sheds rain at most once: on the first frame, and only if it was
      low before. */
  lemma {:induction false} RainOnceWhileHeld(last: bool, signal: seq<bool>)
    requires forall i :: 0 <= i < |signal| ==> signal[i]
    ensures forall i :: 0 <= i < |signal| ==> RainFrames(last, signal)[i] == (i == 0 && !last)
    decreases |signal|
  {
    if signal != [] {
      RainOnceWhileHeld(signal[0], signal[1..]);
      var r := RainFrames(last, signal);
      var rest := RainFrames(signal[0], signal[1..]);
      assert r == [signal[0] && !last] + rest;
      forall i | 0 <= i < |signal|
        ensures r[i] == (i == 0 && !last)
      {
        if i > 0 {
          assert r[i] == rest[i - 1];
        }
      }
    }
  }

  /** The cloud's state: its blocks, the jump signal of the previous frame, and whether the
      rising-edge component has been attached to the first block. */
  class Cloud {
    const scene: GameObjectCollection
    const timers: Timers
    var cloudBlocks: seq<GameObject>
    var lastJumpFromGroundState: bool
    var detectorAttached: bool

    /** The blocks never repeat, and the component only exists on a block. */
    ghost predicate Valid()
      reads this
    {
      && Distinct(cloudBlocks)
      && (detectorAttached ==> |cloudBlocks| > 0)
    }

    /** The static initial state: no blocks, signal low, no component. */
    constructor (scene: GameObjectCollection, timers: Timers)
      ensures this.scene == scene && this.timers == timers
      ensures cloudBlocks == [] && !lastJumpFromGroundState && !detectorAttached
      ensures Valid()
    {
      this.scene := scene;
      this.timers := timers;
      cloudBlocks := [];
      lastJumpFromGroundState := false;
      detectorAttached := false;
    }

    /** `create`: forget the previous blocks, lay out one new block per non-zero pattern cell
        in row-major order and register each on the cloud layer, then attach the rising-edge
        component when there is a block. The remembered signal is left as it was. */
    method Create(windowDim: Vec)
      modifies this, scene
      ensures Views(cloudBlocks) == CloudBlocks(CloudOrigin(windowDim), |PATTERN|)
      ensures |cloudBlocks| == 21
      ensures forall b :: b in cloudBlocks ==> fresh(b)
      ensures scene.entries == old(scene.entries) + OnLayer(cloudBlocks, CLOUD_LAYER)
      ensures detectorAttached == (old(detectorAttached) || |cloudBlocks| > 0)
      ensures lastJumpFromGroundState == old(lastJumpFromGroundState)
      ensures Valid()
    {
      var origin := CloudOrigin(windowDim);
      cloudBlocks := [];
      var row := 0;
      while row < |PATTERN|
        invariant 0 <= row <= |PATTERN|
        invariant Views(cloudBlocks) == CloudBlocks(origin, row)
        invariant forall b :: b in cloudBlocks ==> fresh(b)
        invariant Distinct(cloudBlocks)
        invariant scene.entries == old(scene.entries) + OnLayer(cloudBlocks, CLOUD_LAYER)
        invariant lastJumpFromGroundState == old(lastJumpFromGroundState)
        invariant detectorAttached == old(detectorAttached)
      {
        var rowBlocks := LayOutRow(origin, row);
        DistinctAppend(cloudBlocks, rowBlocks);
        ViewsAppend(cloudBlocks, rowBlocks);
        OnLayerAppend(cloudBlocks, rowBlocks, CLOUD_LAYER);
        cloudBlocks := cloudBlocks + rowBlocks;
        row := row + 1;
      }
      CloudBlockCount(origin);
      if |cloudBlocks| > 0 {
        detectorAttached := true;
      }
    }

    /** The inner loop of `create` for one pattern row: a new block per non-zero cell, left to
        right, each registered on the cloud layer. */
    method LayOutRow(origin: Vec, row: nat) returns (rowBlocks: seq<GameObject>)
      requires row < |PATTERN|
      modifies scene
      ensures Views(rowBlocks) == RowBlocks(origin, row, WIDTH)
      ensures forall b :: b in rowBlocks ==> fresh(b)
      ensures Distinct(rowBlocks)
      ensures scene.entries == old(scene.entries) + OnLayer(rowBlocks, CLOUD_LAYER)
    {
      rowBlocks := [];
      for col := 0 to WIDTH
        invariant Views(rowBlocks) == RowBlocks(origin, row, col)
        invariant forall b :: b in rowBlocks ==> fresh(b)
        invariant Distinct(rowBlocks)
        invariant scene.entries == old(scene.entries) + OnLayer(rowBlocks, CLOUD_LAYER)
      {
        var cell := LayOutCell(origin, row, col);
        DistinctAppend(rowBlocks, cell);
        ViewsAppend(rowBlocks, cell);
        OnLayerAppend(rowBlocks, cell, CLOUD_LAYER);
        rowBlocks := rowBlocks + cell;
      }
    }

    /** One cell of `create`'s inner loop: nothing for a zero cell, otherwise a new block
        registered on the cloud layer. */
    method LayOutCell(origin: Vec, row: nat, col: nat) returns (cell: seq<GameObject>)
      requires row < |PATTERN| && col < WIDTH
      modifies scene
      ensures Views(cell) == if PATTERN[row][col] != 0 then [BlockShape(origin, row, col)] else []
      ensures forall b :: b in cell ==> fresh(b)
      ensures Distinct(cell)
      ensures scene.entries == old(scene.entries) + OnLayer(cell, CLOUD_LAYER)
    {
      cell := [];
      if PATTERN[row][col] == 0 {
        return;
      }
      var topLeft := origin.Add(Vec(col as real * CLOUD_BLOCK_SIZE, row as real * CLOUD_BLOCK_SIZE));
      var pixel := new GameObject(CLOUD_TAG, topLeft, Vec(CLOUD_BLOCK_SIZE, CLOUD_BLOCK_SIZE), Plain);
      scene.AddGameObject(pixel, CLOUD_LAYER);
      cell := [pixel];
    }

    /** One frame of the rising-edge component. Rain is shed when the signal is high and was
        low on the previous frame; the signal is then remembered. Without the component,
        nothing happens. The unseeded draw, the shuffle and the clouds' current drift are
        parameters. */
    method Tick(current: bool, draw: int, perm: seq<int>, drift: real) returns (drops: seq<GameObject>)
      requires Valid()
      requires DrawInRange(|cloudBlocks|, draw) && IsPermutation(perm, |cloudBlocks|)
      modifies this`lastJumpFromGroundState, scene, timers
      ensures Valid()
      ensures (|drops| > 0) == (detectorAttached && current && !old(lastJumpFromGroundState))
      ensures |drops| == if detectorAttached && current && !old(lastJumpFromGroundState)
                         then NumDrops(|cloudBlocks|, draw) else 0
      ensures forall i :: 0 <= i < |drops| ==> drops[i].View() == DropShape(DriftedCentre(cloudBlocks[perm[i]], drift))
      ensures lastJumpFromGroundState == if detectorAttached then current else old(lastJumpFromGroundState)
      ensures forall d :: d in drops ==> fresh(d)
      ensures scene.entries == old(scene.entries) + OnLayer(drops, RAIN_LAYER)
      ensures timers.pending == old(timers.pending) + FadeOuts(drops)
    {
      drops := [];
      if detectorAttached {
        if current && !lastJumpFromGroundState {
          NumDropsBounds(|cloudBlocks|, draw);
          drops := SpawnRandomRainDrops(draw, perm, drift);
        }
        lastJumpFromGroundState := current;
      }
    }

    /** `spawnRandomRainDrops`: `min(draw + 3, n)` drops, one under each of the first blocks
        of a shuffled copy of the block list, which itself keeps its order. */
    method SpawnRandomRainDrops(draw: int, perm: seq<int>, drift: real) returns (drops: seq<GameObject>)
      requires Valid()
      requires DrawInRange(|cloudBlocks|, draw) && IsPermutation(perm, |cloudBlocks|)
      modifies scene, timers
      ensures |drops| == NumDrops(|cloudBlocks|, draw)
      ensures forall i, j :: 0 <= i < j < |drops| ==> cloudBlocks[perm[i]] != cloudBlocks[perm[j]]
      ensures forall i :: 0 <= i < |drops| ==> drops[i].View() == DropShape(DriftedCentre(cloudBlocks[perm[i]], drift))
      ensures forall d :: d in drops ==> fresh(d)
      ensures scene.entries == old(scene.entries) + OnLayer(drops, RAIN_LAYER)
      ensures timers.pending == old(timers.pending) + FadeOuts(drops)
    {
      var numDrops := draw + MIN_DROPS;
      numDrops := if numDrops < |cloudBlocks| then numDrops else |cloudBlocks|;
      var shuffledBlocks := Shuffled(cloudBlocks, perm);
      ShuffledDistinct(cloudBlocks, perm);
      drops := [];
      for i := 0 to numDrops
        invariant |drops| == i
        invariant forall k :: 0 <= k < i ==> drops[k].View() == DropShape(DriftedCentre(cloudBlocks[perm[k]], drift))
        invariant forall d :: d in drops ==> fresh(d)
        invariant scene.entries == old(scene.entries) + OnLayer(drops, RAIN_LAYER)
        invariant timers.pending == old(timers.pending) + FadeOuts(drops)
      {
        var block := shuffledBlocks[i];
        var drop := SpawnDrop(DriftedCentre(block, drift));
        OnLayerAppend(drops, [drop], RAIN_LAYER);
        FadeOutsAppend(drops, [drop]);
        drops := drops + [drop];
      }
    }

    /** `spawnDrop`: a new raindrop at the given point, whose fade-out callback removes it
        from the rain layer after three seconds, registered on that same layer. */
    method SpawnDrop(startCenter: Vec) returns (drop: GameObject)
      modifies scene, timers
      ensures fresh(drop) && drop.View() == DropShape(startCenter)
      ensures timers.pending == old(timers.pending) + [Deferred(RAINDROP_FADE_TIME, RemoveFromLayer(drop, RAIN_LAYER))]
      ensures scene.entries == old(scene.entries) + {(drop, RAIN_LAYER)}
    {
      drop := new GameObject(RAIN_TAG, startCenter.Add(DROP_OFFSET), RAIN_SIZE, Plain);
      timers.Schedule(Deferred(RAINDROP_FADE_TIME, RemoveFromLayer(drop, RAIN_LAYER)));
      scene.AddGameObject(drop, RAIN_LAYER);
    }
  }
}
