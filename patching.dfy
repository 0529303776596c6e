/** Patch labelling: `get_class` and `get_patched_classification` of
    scripts/preprocessing.py. A 2D numpy array is an `array2<real>`; a numpy
    slice that runs past the edge is clipped, and an empty slice assignment
    writes nothing. */
module Patching {
  import opened Common

  /** IMG_PATCH_SIZE: the side of a square patch. */
  const PatchSize: nat := 16

  /** Default `foreground_threshold` of `get_class`. */
  const ForegroundThreshold: real := 0.25

  /** `get_class`: 1 when the mean of the block's values is above the
      threshold, else 0. `np.mean` of an empty block is NaN, and NaN compared
      with anything is false, so an empty block gives 0. The block is given
      as its values in row-major order (np.mean averages over every axis). */
  function GetClass(block: seq<real>, threshold: real): (r: int)
    ensures r == 0 || r == 1
    ensures r == 1 <==> |block| > 0 && Sum(block) > threshold * |block| as real
  {
    if |block| > 0 && Sum(block) / |block| as real > threshold then 1 else 0
  }

  /** A block whose mean equals the threshold exactly is background. */
  lemma MeanAtThresholdIsBackground(block: seq<real>, threshold: real)
    requires |block| > 0 && Sum(block) == threshold * |block| as real
    ensures GetClass(block, threshold) == 0
  {
  }

  /** A block with every value at most the threshold (an empty one included) is background. */
  lemma BlockAtMostThresholdIsBackground(block: seq<real>, threshold: real)
    requires forall k :: 0 <= k < |block| ==> block[k] <= threshold
    ensures GetClass(block, threshold) == 0
  {
    SumAtMost(block, threshold);
  }

  /** A non-empty block with every value above the threshold is road. */
  lemma BlockAboveThresholdIsRoad(block: seq<real>, threshold: real)
    requires |block| > 0
    requires forall k :: 0 <= k < |block| ==> block[k] > threshold
    ensures GetClass(block, threshold) == 1
  {
    SumAbove(block, threshold);
  }

  /** `min(i, n)`: where a slice bound past the edge of an axis of length n lands. */
  function Clip(i: nat, n: nat): (r: nat)
    ensures r <= n && r <= i && (r == i || r == n)
  {
    if i < n then i else n
  }

  /** The first row or column of the patch that holds index i. */
  function TileStart(i: nat): (r: nat)
    ensures r <= i < r + PatchSize && r % PatchSize == 0
  {
    i - i % PatchSize
  }

  /** Row r of `a`, columns [c0, c1). */
  function RowSlice(a: array2<real>, r: nat, c0: nat, c1: nat): (s: seq<real>)
    requires r < a.Length0 && c0 <= c1 <= a.Length1
    reads a
    ensures |s| == c1 - c0
    ensures forall k :: 0 <= k < |s| ==> s[k] == a[r, c0 + k]
  {
    seq(c1 - c0, k requires 0 <= k < c1 - c0 reads a => a[r, c0 + k])
  }

  /** The values of the block with rows [r0, r1) and columns [c0, c1), row by row. */
  function BlockValues(a: array2<real>, r0: nat, r1: nat, c0: nat, c1: nat): (s: seq<real>)
    requires r0 <= r1 <= a.Length0 && c0 <= c1 <= a.Length1
    reads a
    decreases r1 - r0
  {
    if r0 == r1 then [] else RowSlice(a, r0, c0, c1) + BlockValues(a, r0 + 1, r1, c0, c1)
  }

  /** A property of every cell of a block holds of every value in BlockValues. */
  lemma {:induction false} BlockValuesAll(a: array2<real>, r0: nat, r1: nat, c0: nat, c1: nat, p: real -> bool)
    requires r0 <= r1 <= a.Length0 && c0 <= c1 <= a.Length1
    requires forall r, c :: r0 <= r < r1 && c0 <= c < c1 ==> p(a[r, c])
    ensures forall k :: 0 <= k < |BlockValues(a, r0, r1, c0, c1)| ==> p(BlockValues(a, r0, r1, c0, c1)[k])
    decreases r1 - r0
  {
    if r0 < r1 {
      BlockValuesAll(a, r0 + 1, r1, c0, c1, p);
    }
  }

  /** A block that has a row and a column is not empty. */
  lemma {:induction false} BlockValuesNonEmpty(a: array2<real>, r0: nat, r1: nat, c0: nat, c1: nat)
    requires r0 < r1 <= a.Length0 && c0 < c1 <= a.Length1
    ensures |BlockValues(a, r0, r1, c0, c1)| > 0
  {
  }

  /** The values of `a[y : y + 16, x : x + 16]`, clipped at the array's edges. */
  function Tile(a: array2<real>, y: nat, x: nat): seq<real>
    reads a
  {
    BlockValues(a, Clip(y, a.Length0), Clip(y + PatchSize, a.Length0),
                   Clip(x, a.Length1), Clip(x + PatchSize, a.Length1))
  }

  /** The label of the patch that holds cell (r, c). */
  function TileLabel(a: array2<real>, r: nat, c: nat): real
    reads a
  {
    GetClass(Tile(a, TileStart(r), TileStart(c)), ForegroundThreshold) as real
  }

  /** Cell (r, c) is written by the loop of `get_patched_classification`:
      the column offsets run over multiples of 16 below the number of ROWS
      and the row offsets over multiples of 16 below the number of COLUMNS. */
  predicate Covered(a: array2<real>, r: nat, c: nat)
  {
    TileStart(c) < a.Length0 && TileStart(r) < a.Length1
  }

  /** What `get_patched_classification` leaves in cell (r, c). */
  function PatchedCell(a: array2<real>, r: nat, c: nat): real
    reads a
  {
    if Covered(a, r, c) then TileLabel(a, r, c) else 0.0
  }

  /** `patched_img[r0:r1, c0:c1] = v`: the block takes v, every other cell keeps its value. */
  method FillBlock(out: array2<real>, r0: nat, r1: nat, c0: nat, c1: nat, v: real)
    requires r0 <= r1 <= out.Length0 && c0 <= c1 <= out.Length1
    modifies out
    ensures forall r, c :: 0 <= r < out.Length0 && 0 <= c < out.Length1 ==>
              out[r, c] == if r0 <= r < r1 && c0 <= c < c1 then v else old(out[r, c])
  {
    var r := r0;
    while r < r1
      invariant r0 <= r <= r1
      invariant forall i, j :: 0 <= i < out.Length0 && 0 <= j < out.Length1 ==>
                  out[i, j] == if r0 <= i < r && c0 <= j < c1 then v else old(out[i, j])
    {
      var c := c0;
      while c < c1
        invariant c0 <= c <= c1
        invariant forall i, j :: 0 <= i < out.Length0 && 0 <= j < out.Length1 ==>
                    out[i, j] == if (r0 <= i < r && c0 <= j < c1) || (i == r && c0 <= j < c) then v else old(out[i, j])
      {
        out[r, c] := v;
        c := c + 1;
      }
      r := r + 1;
    }
  }

  /** `get_patched_classification` on an input that is already 2D: a
      zero-initialised array of the input's shape, filled patch by patch,
      `x` over range(0, rows, 16) outside and `y` over range(0, columns, 16)
      inside, writing the slice [y : y + 16, x : x + 16]. */
  method GetPatchedClassification(a: array2<real>) returns (out: array2<real>)
    ensures fresh(out)
    ensures out.Length0 == a.Length0 && out.Length1 == a.Length1
    ensures forall r, c :: 0 <= r < out.Length0 && 0 <= c < out.Length1 ==> out[r, c] == PatchedCell(a, r, c)
  {
    var h, w := a.Length0, a.Length1;
    out := new real[h, w]((_, _) => 0.0);
    var x := 0;
    while x < h
      invariant x % PatchSize == 0 && x < h + PatchSize
      invariant forall r, c :: 0 <= r < h && 0 <= c < w ==> out[r, c] == Progress(a, x, w, 0, r, c)
    {
      FillPatchColumn(a, out, x);
      x := x + PatchSize;
    }
    forall r, c | 0 <= r < h && 0 <= c < w
      ensures out[r, c] == PatchedCell(a, r, c)
    {
      NextMultiple(TileStart(c), x, h);
    }
  }

  /** One pass of the inner loop: `for y in range(0, columns, 16)` at column offset x. */
  method FillPatchColumn(a: array2<real>, out: array2<real>, x: nat)
    requires out != a
    requires out.Length0 == a.Length0 && out.Length1 == a.Length1
    requires x % PatchSize == 0 && x < a.Length0
    requires forall r, c :: 0 <= r < out.Length0 && 0 <= c < out.Length1 ==> out[r, c] == Progress(a, x, a.Length1, 0, r, c)
    modifies out
    ensures forall r, c :: 0 <= r < out.Length0 && 0 <= c < out.Length1 ==> out[r, c] == Progress(a, x + PatchSize, a.Length1, 0, r, c)
  {
    var h, w := a.Length0, a.Length1;
    var y := 0;
    while y < w
      invariant y % PatchSize == 0 && y < w + PatchSize
      invariant forall r, c :: 0 <= r < h && 0 <= c < w ==> out[r, c] == Progress(a, x, y, PatchSize, r, c)
    {
      var patchClass := GetClass(Tile(a, y, x), ForegroundThreshold);
      FillBlock(out, Clip(y, h), Clip(y + PatchSize, h), Clip(x, w), Clip(x + PatchSize, w), patchClass as real);
      forall r, c | 0 <= r < h && 0 <= c < w
        ensures out[r, c] == Progress(a, x, y + PatchSize, PatchSize, r, c)
      {
        FillStep(a, x, y, r, c);
      }
      y := y + PatchSize;
    }
    forall r, c | 0 <= r < h && 0 <= c < w
      ensures Progress(a, x, y, PatchSize, r, c) == Progress(a, x + PatchSize, w, 0, r, c)
    {
      NextMultiple(TileStart(r), y, w);
      NextMultiple(TileStart(c), x + PatchSize, x + 1);
    }
  }

  /** What the loop of GetPatchedClassification has written so far: every
      column patch before x, and in column patch x (of width `width`, 0 once
      it is finished) the row patches before y. */
  function Progress(a: array2<real>, x: nat, y: nat, width: nat, r: nat, c: nat): real
    reads a
  {
    if (TileStart(c) < x && TileStart(r) < a.Length1) || (x <= TileStart(c) < x + width && TileStart(r) < y)
    then TileLabel(a, r, c) else 0.0
  }

  /** For multiples t and x of the patch size with n <= x < n + 16: t < x exactly when t < n. */
  lemma NextMultiple(t: nat, x: nat, n: nat)
    requires t % PatchSize == 0 && x % PatchSize == 0
    requires n <= x < n + PatchSize
    ensures t < x <==> t < n
  {
    var i, j := t / PatchSize, x / PatchSize;
    assert t == PatchSize * i && x == PatchSize * j;
    if t < x { assert i < j; assert t <= x - PatchSize; }
  }

  /** One patch written by the inner loop leaves the progress one row patch further. */
  lemma FillStep(a: array2<real>, x: nat, y: nat, r: nat, c: nat)
    requires x % PatchSize == 0 && y % PatchSize == 0
    requires r < a.Length0 && c < a.Length1
    ensures Progress(a, x, y + PatchSize, PatchSize, r, c) ==
              if Clip(y, a.Length0) <= r < Clip(y + PatchSize, a.Length0) && Clip(x, a.Length1) <= c < Clip(x + PatchSize, a.Length1)
              then GetClass(Tile(a, y, x), ForegroundThreshold) as real
              else Progress(a, x, y, PatchSize, r, c)
  {
    var tr, tc := TileStart(r), TileStart(c);
    TileStartIs(y, r);
    TileStartIs(x, c);
    WithinOnePatch(tr, y);
    WithinOnePatch(tc, x);
  }

  /** For a multiple s of the patch size: s starts the patch of i exactly when i lies in [s, s + 16). */
  lemma TileStartIs(s: nat, i: nat)
    requires s % PatchSize == 0
    ensures TileStart(i) == s <==> s <= i < s + PatchSize
  {
    if s <= i < s + PatchSize { SameMultiple(TileStart(i), s, i); }
  }

  /** For multiples t and s of the patch size: t lies in [s, s + 16) exactly when t == s. */
  lemma WithinOnePatch(t: nat, s: nat)
    requires t % PatchSize == 0 && s % PatchSize == 0
    ensures s <= t < s + PatchSize <==> t == s
  {
    if s <= t < s + PatchSize { SameMultiple(t, s, t); }
  }

  /** Two multiples of the patch size that are both at most i and within one patch of it are equal. */
  lemma SameMultiple(t: nat, s: nat, i: nat)
    requires t % PatchSize == 0 && s % PatchSize == 0
    requires t <= i < t + PatchSize && s <= i < s + PatchSize
    ensures t == s
  {
    var p, q := t / PatchSize, s / PatchSize;
    assert t == PatchSize * p && s == PatchSize * q;
  }

  /** Every cell of the result is 0 or 1. */
  lemma PatchedCellIsBinary(a: array2<real>, r: nat, c: nat)
    ensures PatchedCell(a, r, c) == 0.0 || PatchedCell(a, r, c) == 1.0
  {
  }

  /** On a square input every cell is covered: it carries the label of the
      (possibly clipped) 16x16 patch that holds it. */
  lemma SquarePatchLabel(a: array2<real>, r: nat, c: nat)
    requires a.Length0 == a.Length1
    requires r < a.Length0 && c < a.Length1
    ensures PatchedCell(a, r, c) ==
              GetClass(BlockValues(a, TileStart(r), Clip(TileStart(r) + PatchSize, a.Length0),
                                      TileStart(c), Clip(TileStart(c) + PatchSize, a.Length1)), ForegroundThreshold) as real
  {
  }

  /** The result is constant on every patch: two cells of the same patch agree. */
  lemma PatchedConstantOnTiles(a: array2<real>, r: nat, c: nat, r': nat, c': nat)
    requires r / PatchSize == r' / PatchSize && c / PatchSize == c' / PatchSize
    ensures PatchedCell(a, r, c) == PatchedCell(a, r', c')
  {
    assert TileStart(r) == TileStart(r') && TileStart(c) == TileStart(c');
  }

  /** An all-zero input gives an all-zero result, whatever its shape. */
  lemma AllZeroGivesAllZero(a: array2<real>, r: nat, c: nat)
    requires forall i, j :: 0 <= i < a.Length0 && 0 <= j < a.Length1 ==> a[i, j] == 0.0
    ensures PatchedCell(a, r, c) == 0.0
  {
    if Covered(a, r, c) {
      var y, x := TileStart(r), TileStart(c);
      var h, w := a.Length0, a.Length1;
      BlockValuesAll(a, Clip(y, h), Clip(y + PatchSize, h), Clip(x, w), Clip(x + PatchSize, w),
                     v => v <= ForegroundThreshold);
      BlockAtMostThresholdIsBackground(Tile(a, y, x), ForegroundThreshold);
    }
  }

  /** An all-ones square input gives an all-ones result. */
  lemma AllOnesSquareGivesAllOnes(a: array2<real>, r: nat, c: nat)
    requires a.Length0 == a.Length1
    requires r < a.Length0 && c < a.Length1
    requires forall i, j :: 0 <= i < a.Length0 && 0 <= j < a.Length1 ==> a[i, j] == 1.0
    ensures PatchedCell(a, r, c) == 1.0
  {
    var y, x := TileStart(r), TileStart(c);
    var h, w := a.Length0, a.Length1;
    BlockValuesAll(a, Clip(y, h), Clip(y + PatchSize, h), Clip(x, w), Clip(x + PatchSize, w),
                   v => v > ForegroundThreshold);
    BlockValuesNonEmpty(a, Clip(y, h), Clip(y + PatchSize, h), Clip(x, w), Clip(x + PatchSize, w));
    BlockAboveThresholdIsRoad(Tile(a, y, x), ForegroundThreshold);
  }

  /** On a non-square input, a cell whose column lies in a patch starting at
      or past the number of rows, or whose row lies in a patch starting at or
      past the number of columns, is never written and stays 0. */
  lemma UncoveredCellsStayZero(a: array2<real>, r: nat, c: nat)
    requires TileStart(c) >= a.Length0 || TileStart(r) >= a.Length1
    ensures PatchedCell(a, r, c) == 0.0
  {
  }

  /** The row/column swap at work: on a 16 x 32 all-ones input the left
      patch is labelled 1, but the right patch is never written (column
      offsets stop below 16, the number of rows) and stays 0. */
  lemma WideAllOnesKeepsRightPatchZero(a: array2<real>)
    requires a.Length0 == 16 && a.Length1 == 32
    requires forall i, j :: 0 <= i < a.Length0 && 0 <= j < a.Length1 ==> a[i, j] == 1.0
    ensures PatchedCell(a, 0, 0) == 1.0
    ensures PatchedCell(a, 0, 16) == 0.0
  {
    BlockValuesAll(a, 0, 16, 0, 16, v => v > ForegroundThreshold);
    BlockValuesNonEmpty(a, 0, 16, 0, 16);
    BlockAboveThresholdIsRoad(Tile(a, 0, 0), ForegroundThreshold);
  }
}
