/** The few numpy operations `RoadDataset.__getitem__` uses, on an array
    held as its shape and its elements in row-major (C) order, as numpy
    holds it. */
module NdArrays {

  /** The number of elements of an array of the given shape (1 for a scalar). */
  function Product(shape: seq<nat>): nat
  {
    if shape == [] then 1 else Product(shape[..|shape| - 1]) * shape[|shape| - 1]
  }

  datatype NdArray = NdArray(shape: seq<nat>, data: seq<real>)

  predicate WellShaped(a: NdArray)
  {
    |a.data| == Product(a.shape)
  }

  /** A numpy array: as many elements as its shape says. */
  type Array = a: NdArray | WellShaped(a) witness NdArray([], [0.0])

  /** Element (i, j, k) of a rank-3 array. */
  function At3(a: Array, i: nat, j: nat, k: nat): real
    requires |a.shape| == 3
    requires i < a.shape[0] && j < a.shape[1] && k < a.shape[2]
  {
    ProductRank3(a.shape);
    FlatIndexBound(i, j, a.shape[0], a.shape[1]);
    FlatIndexBound(i * a.shape[1] + j, k, a.shape[0] * a.shape[1], a.shape[2]);
    a.data[(i * a.shape[1] + j) * a.shape[2] + k]
  }

  lemma ProductRank3(shape: seq<nat>)
    requires |shape| == 3
    ensures Product(shape[..2]) == shape[0] * shape[1]
    ensures Product(shape) == shape[0] * shape[1] * shape[2]
  {
    var s1, s2 := shape[..1], shape[..2];
    assert s1[..0] == [] && Product(s1) == shape[0];
    assert s2[..1] == s1 && Product(s2) == shape[0] * shape[1];
    assert shape[..2] == s2;
  }

  /** Row-major flattening of (p, k) in a p-by-l grid stays inside the grid. */
  lemma FlatIndexBound(p: nat, k: nat, n: nat, l: nat)
    requires p < n && k < l
    ensures p * l + k < n * l
  {
    assert p * l <= (n - 1) * l;
  }

  /** `np.zeros(shape)`. */
  function Zeros(shape: seq<nat>): (z: Array)
    ensures z.shape == shape
    ensures forall k :: 0 <= k < |z.data| ==> z.data[k] == 0.0
  {
    NdArray(shape, seq(Product(shape), _ => 0.0))
  }

  /** `np.where(m >= 0.5, 1, 0)`: each element becomes 1 when it is at least 0.5, else 0. */
  function Binarize(m: Array): (b: Array)
    ensures b.shape == m.shape
    ensures forall k :: 0 <= k < |b.data| ==> (b.data[k] == 1.0 <==> m.data[k] >= 0.5)
    ensures forall k :: 0 <= k < |b.data| ==> b.data[k] == 0.0 || b.data[k] == 1.0
  {
    NdArray(m.shape, seq(|m.data|, k requires 0 <= k < |m.data| => if m.data[k] >= 0.5 then 1.0 else 0.0))
  }

  lemma {:induction false} ProductOfLeadingOne(shape: seq<nat>)
    ensures Product([1] + shape) == Product(shape)
    decreases |shape|
  {
    if shape != [] {
      assert ([1] + shape)[..|[1] + shape| - 1] == [1] + shape[..|shape| - 1];
      ProductOfLeadingOne(shape[..|shape| - 1]);
    }
  }

  /** `np.expand_dims(m, 0)`: a new leading axis of length 1, the same elements. */
  function ExpandDims0(m: Array): (e: Array)
    ensures e.shape == [1] + m.shape && e.data == m.data
  {
    ProductOfLeadingOne(m.shape);
    NdArray([1] + m.shape, m.data)
  }

  /** `np.moveaxis(a, -1, 0)`: the last axis becomes the first. Seen flat,
      this transposes the (product of the other axes) x (last axis) grid. */
  function MoveLastAxisFirst(a: Array): (m: Array)
    requires |a.shape| > 0
    ensures m.shape == [a.shape[|a.shape| - 1]] + a.shape[..|a.shape| - 1]
    ensures |m.data| == |a.data|
  {
    var front, l := a.shape[..|a.shape| - 1], a.shape[|a.shape| - 1];
    ProductWithLastFirst(a.shape);
    NdArray([l] + front, Transposed(a.data, Product(front), l))
  }

  /** The elements of a p-by-l row-major grid, column by column. */
  function Transposed(d: seq<real>, p: nat, l: nat): (t: seq<real>)
    requires |d| == p * l
    ensures |t| == p * l
  {
    seq(p * l, i requires 0 <= i < p * l => TransposedIndexBound(i, p, l); d[(i % p) * l + i / p])
  }

  lemma ProductWithLastFirst(shape: seq<nat>)
    requires |shape| > 0
    ensures var front, l := shape[..|shape| - 1], shape[|shape| - 1];
            Product([l] + front) == Product(front) * l == Product(shape)
  {
    var front, l := shape[..|shape| - 1], shape[|shape| - 1];
    ProductScaleFirst(l, front);
  }

  lemma {:induction false} ProductScaleFirst(l: nat, shape: seq<nat>)
    ensures Product([l] + shape) == Product(shape) * l
    decreases |shape|
  {
    if shape != [] {
      var init, last := shape[..|shape| - 1], shape[|shape| - 1];
      assert ([l] + shape)[..|[l] + shape| - 1] == [l] + init;
      ProductScaleFirst(l, init);
      assert Product([l] + shape) == (Product(init) * l) * last;
      assert (Product(init) * l) * last == (Product(init) * last) * l;
    }
  }

  lemma TransposedIndexBound(i: nat, p: nat, l: nat)
    requires i < p * l
    ensures p > 0 && (i % p) * l + i / p < p * l
  {
    assert p > 0;
    FlatIndexBound(i % p, i / p, p, l);
  }

  /** moveaxis(-1, 0) in any rank: element (k, rest) of the result is element
      (rest, k) of the input, with rest flattened to p. */
  lemma MoveLastAxisFirstAt(a: Array, p: nat, k: nat)
    requires |a.shape| > 0
    requires p < Product(a.shape[..|a.shape| - 1]) && k < a.shape[|a.shape| - 1]
    ensures var n := Product(a.shape[..|a.shape| - 1]);
            var m := MoveLastAxisFirst(a);
            m.shape == [a.shape[|a.shape| - 1]] + a.shape[..|a.shape| - 1] &&
            k * n + p < |m.data| && p * a.shape[|a.shape| - 1] + k < |a.data| &&
            m.data[k * n + p] == a.data[p * a.shape[|a.shape| - 1] + k]
  {
    var n, l := Product(a.shape[..|a.shape| - 1]), a.shape[|a.shape| - 1];
    var i := k * n + p;
    FlatIndexBound(k, p, l, n);
    assert i < n * l;
    DivModOf(i, n, k, p);
    FlatIndexBound(p, k, n, l);
  }

  lemma DivModOf(i: nat, n: nat, q: nat, r: nat)
    requires r < n && i == q * n + r
    ensures i / n == q && i % n == r
  {
    var q', r' := i / n, i % n;
    assert (q' - q) * n == r - r';
    MultipleInsideIsZero(q' - q, n, r - r');
  }

  /** The only multiple of n strictly between -n and n is 0. */
  lemma MultipleInsideIsZero(d: int, n: nat, e: int)
    requires d * n == e && -(n as int) < e < n
    ensures d == 0
  {
    if d > 0 {
      AtLeastOnce(d, n);
    } else if d < 0 {
      AtLeastOnce(-d, n);
    }
  }

  lemma AtLeastOnce(d: int, n: nat)
    requires d >= 1
    ensures d * n >= n
  {
  }

  lemma Reassociate(c: nat, hh: nat, h: nat, ww: nat, w: nat)
    ensures (c * hh + h) * ww + w == c * (hh * ww) + (h * ww + w)
  {
    calc {
      (c * hh + h) * ww + w;
      (c * hh) * ww + h * ww + w;
      c * (hh * ww) + (h * ww + w);
    }
  }

  /** For an image of shape (H, W, C): the result has shape (C, H, W) and
      element (c, h, w) of the result is element (h, w, c) of the image. */
  lemma ChannelFirstAt(a: Array, c: nat, h: nat, w: nat)
    requires |a.shape| == 3
    requires h < a.shape[0] && w < a.shape[1] && c < a.shape[2]
    ensures MoveLastAxisFirst(a).shape == [a.shape[2], a.shape[0], a.shape[1]]
    ensures At3(MoveLastAxisFirst(a), c, h, w) == At3(a, h, w, c)
  {
    var hh, ww, cc := a.shape[0], a.shape[1], a.shape[2];
    var m := MoveLastAxisFirst(a);
    ProductRank3(a.shape);
    assert a.shape[..2] == [hh, ww];
    FlatIndexBound(h, w, hh, ww);
    MoveLastAxisFirstAt(a, h * ww + w, c);
    assert m.shape == [cc, hh, ww];
    Reassociate(c, hh, h, ww, w);
    assert At3(m, c, h, w) == m.data[c * (hh * ww) + (h * ww + w)];
  }
}
