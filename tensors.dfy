/**
 * JAX arrays as the collision geometry uses them: a shape and the elements in
 * row-major (C) order. The element type is generic, so a batch of transforms
 * (jaxlie's `*batch 7` array) is a `Tensor<SE3>` over the batch axes, and a batch
 * of size rows (`*batch 3`) is a `Tensor<seq<real>>` over the same axes.
 *
 * The operations follow numpy's rules: `reshape`, `broadcast_to`,
 * `broadcast_shapes` and indexing with integers on the leading axes.
 */
module Tensors {
  import opened Wrappers

  datatype Tensor<T> = Tensor(shape: seq<nat>, data: seq<T>)

  /** Number of elements of an array of shape `s`. */
  function Prod(s: seq<nat>): nat
  {
    if |s| == 0 then 1 else s[0] * Prod(s[1..])
  }

  /** The data holds exactly one element per position of the shape. */
  predicate WellFormed<T>(t: Tensor<T>)
  {
    |t.data| == Prod(t.shape)
  }

  /** `m` is a multi-index of an array of shape `s`. */
  predicate InBounds(m: seq<nat>, s: seq<nat>)
  {
    |m| == |s| && forall i :: 0 <= i < |s| ==> m[i] < s[i]
  }

  /** All axes but the last: `shape[:-1]`. */
  function Batch(s: seq<nat>): seq<nat>
    requires |s| >= 1
  {
    s[..|s| - 1]
  }

  /** The last axis: `shape[-1]`. */
  function Last(s: seq<nat>): nat
    requires |s| >= 1
  {
    s[|s| - 1]
  }

  // ---------------------------------------------------------------------------
  // Arithmetic facts about offsets
  // ---------------------------------------------------------------------------

  lemma MulMonotone(x: nat, y: nat, p: nat)
    requires x <= y
    ensures x * p <= y * p
  {
    assert y * p == x * p + (y - x) * p;
  }

  /** Row `j` of `n` rows of width `w` ends inside the data. */
  lemma RowBound(j: nat, n: nat, w: nat)
    requires j < n
    ensures j * w + w <= n * w
  {
    MulMonotone(j + 1, n, w);
    assert (j + 1) * w == j * w + w;
  }

  lemma MulAddBound(a: nat, n: nat, k: nat, p: nat)
    requires a < n && k < p
    ensures a * p + k < n * p
  {
    RowBound(a, n, p);
  }

  lemma DivBound(k: nat, n: nat, p: nat)
    requires k < n * p
    ensures p > 0 && k / p < n
  {
    if p > 0 && k / p >= n {
      MulMonotone(n, k / p, p);
    }
  }

  /** Euclidean division of an offset by a positive row size. */
  lemma DivMod(k: nat, p: nat)
    requires p > 0
    ensures k % p < p && k == (k / p) * p + k % p
  {
  }

  lemma MulAtLeast(d: int, p: nat)
    requires d >= 1
    ensures d * p >= p
  {
    assert d * p == p + (d - 1) * p;
  }

  lemma DivModOf(q: nat, p: nat, r: nat)
    requires r < p
    ensures (q * p + r) / p == q && (q * p + r) % p == r
  {
    var k := q * p + r;
    var d := k / p - q;
    assert k == (k / p) * p + k % p;
    assert d * p == r - k % p;
    if d >= 1 {
      MulAtLeast(d, p);
    }
  }

  lemma Distribute(a: nat, p: nat, q: nat, r: nat, x: nat)
    ensures a * (p * q) + (r * q + x) == (a * p + r) * q + x
  {
  }

  lemma ProdSingle(w: nat)
    ensures Prod([w]) == w
  {
    assert [w][1..] == [];
  }

  lemma {:induction false} ProdAppend(s: seq<nat>, t: seq<nat>)
    ensures Prod(s + t) == Prod(s) * Prod(t)
  {
    if |s| == 0 {
      assert s + t == t;
    } else {
      assert (s + t)[0] == s[0] && (s + t)[1..] == s[1..] + t;
      ProdAppend(s[1..], t);
      assert s[0] * (Prod(s[1..]) * Prod(t)) == (s[0] * Prod(s[1..])) * Prod(t);
    }
  }

  // ---------------------------------------------------------------------------
  // Row-major offsets
  // ---------------------------------------------------------------------------

  lemma TailInBounds(m: seq<nat>, s: seq<nat>)
    requires InBounds(m, s) && |s| > 0
    ensures InBounds(m[1..], s[1..])
  {
  }

  lemma ConsInBounds(x: nat, m: seq<nat>, s: seq<nat>)
    requires |s| > 0 && x < s[0] && InBounds(m, s[1..])
    ensures InBounds([x] + m, s)
  {
  }

  /** The row-major offset of multi-index `m`; every in-bounds index lands inside the data. */
  function Ravel(s: seq<nat>, m: seq<nat>): (k: nat)
    requires InBounds(m, s)
    ensures k < Prod(s)
  {
    if |s| == 0 then 0
    else
      TailInBounds(m, s);
      var k := Ravel(s[1..], m[1..]);
      MulAddBound(m[0], s[0], k, Prod(s[1..]));
      m[0] * Prod(s[1..]) + k
  }

  /** The multi-index of offset `k` in an array of shape `s`. */
  function Unravel(s: seq<nat>, k: nat): (m: seq<nat>)
    requires k < Prod(s)
    ensures InBounds(m, s)
  {
    if |s| == 0 then []
    else
      var p := Prod(s[1..]);
      DivBound(k, s[0], p);
      DivMod(k, p);
      var rest := Unravel(s[1..], k % p);
      ConsInBounds(k / p, rest, s);
      [k / p] + rest
  }

  /** `Unravel` inverts `Ravel` on offsets. */
  lemma {:induction false} RavelUnravel(s: seq<nat>, k: nat)
    requires k < Prod(s)
    ensures Ravel(s, Unravel(s, k)) == k
  {
    if |s| > 0 {
      var p := Prod(s[1..]);
      DivBound(k, s[0], p);
      DivMod(k, p);
      var m := Unravel(s, k);
      assert m[0] == k / p && m[1..] == Unravel(s[1..], k % p);
      RavelUnravel(s[1..], k % p);
    }
  }

  /** `Ravel` inverts `Unravel` on multi-indices. */
  lemma {:induction false} UnravelRavel(s: seq<nat>, m: seq<nat>)
    requires InBounds(m, s)
    ensures Unravel(s, Ravel(s, m)) == m
  {
    if |s| > 0 {
      TailInBounds(m, s);
      var p := Prod(s[1..]);
      DivModOf(m[0], p, Ravel(s[1..], m[1..]));
      UnravelRavel(s[1..], m[1..]);
      assert m == [m[0]] + m[1..];
    }
  }

  lemma AppendInBounds(s: seq<nat>, t: seq<nat>, m: seq<nat>, n: seq<nat>)
    requires InBounds(m, s) && InBounds(n, t)
    ensures InBounds(m + n, s + t)
  {
    forall i | 0 <= i < |s + t| ensures (m + n)[i] < (s + t)[i] {
      if i >= |s| { assert (m + n)[i] == n[i - |s|] && (s + t)[i] == t[i - |s|]; }
    }
  }

  /** Offsets split along a split of the shape. */
  lemma {:induction false} RavelAppend(s: seq<nat>, t: seq<nat>, m: seq<nat>, n: seq<nat>)
    requires InBounds(m, s) && InBounds(n, t)
    ensures InBounds(m + n, s + t)
    ensures Ravel(s + t, m + n) == Ravel(s, m) * Prod(t) + Ravel(t, n)
  {
    AppendInBounds(s, t, m, n);
    if |s| == 0 {
      assert s + t == t && m + n == n;
    } else {
      assert (s + t)[0] == s[0] && (m + n)[0] == m[0];
      assert (s + t)[1..] == s[1..] + t && (m + n)[1..] == m[1..] + n;
      TailInBounds(m, s);
      RavelAppend(s[1..], t, m[1..], n);
      ProdAppend(s[1..], t);
      var inner := Prod(s[1..]) * Prod(t);
      assert Prod((s + t)[1..]) == inner;
      Distribute(m[0], Prod(s[1..]), Prod(t), Ravel(s[1..], m[1..]), Ravel(t, n));
    }
  }

  /** The element at multi-index `m`: `t[m]` in numpy. */
  function At<T>(t: Tensor<T>, m: seq<nat>): T
    requires WellFormed(t) && InBounds(m, t.shape)
  {
    t.data[Ravel(t.shape, m)]
  }

  /** Arrays of one shape that agree at every multi-index are equal. */
  lemma SameAt<T>(t: Tensor<T>, u: Tensor<T>)
    requires WellFormed(t) && WellFormed(u) && t.shape == u.shape
    requires forall m :: InBounds(m, t.shape) ==> At(t, m) == At(u, m)
    ensures t == u
  {
    forall k | 0 <= k < |t.data| ensures t.data[k] == u.data[k] {
      var m := Unravel(t.shape, k);
      RavelUnravel(t.shape, k);
      assert At(t, m) == At(u, m);
    }
  }

  // ---------------------------------------------------------------------------
  // Constructors
  // ---------------------------------------------------------------------------

  /** `jnp.full(s, x)`: every element is `x`. */
  function Fill<T>(s: seq<nat>, x: T): (t: Tensor<T>)
    ensures WellFormed(t) && t.shape == s
    ensures forall y <- t.data :: y == x
    ensures forall m :: InBounds(m, s) ==> At(t, m) == x
  {
    Tensor(s, seq(Prod(s), _ => x))
  }

  /** Row `j` of width `w` of a flat sequence. */
  function Chunk<T>(d: seq<T>, j: nat, w: nat): (r: seq<T>)
    requires j * w + w <= |d|
    ensures |r| == w
  {
    d[j * w .. j * w + w]
  }

  /** A flat sequence of `n` rows of width `w`, cut into its rows. */
  function Chunks<T>(d: seq<T>, n: nat, w: nat): (r: seq<seq<T>>)
    requires |d| == n * w
    ensures |r| == n
    ensures forall j :: 0 <= j < n ==> |r[j]| == w
  {
    seq(n, j requires 0 <= j < n => RowBound(j, n, w); Chunk(d, j, w))
  }

  /** A `shape + (k,)` array seen as a batch of length-`k` rows over `shape`. */
  function Rows(t: Tensor<real>): (r: Tensor<seq<real>>)
    requires WellFormed(t) && |t.shape| >= 1
    ensures WellFormed(r) && r.shape == Batch(t.shape)
    ensures forall j :: 0 <= j < |r.data| ==> |r.data[j]| == Last(t.shape)
  {
    ShapeSplit(t.shape);
    Tensor(Batch(t.shape), Chunks(t.data, Prod(Batch(t.shape)), Last(t.shape)))
  }

  /** Every row of `Rows(t)` has the length of `t`'s last axis. */
  lemma RowLength(t: Tensor<real>, m: seq<nat>)
    requires WellFormed(t) && |t.shape| >= 1 && InBounds(m, Batch(t.shape))
    ensures |At(Rows(t), m)| == Last(t.shape)
  {
    var r := Rows(t);
    assert 0 <= Ravel(r.shape, m) < |r.data|;
  }

  /** An array's element count is its batch count times its last axis. */
  lemma ShapeSplit(s: seq<nat>)
    requires |s| >= 1
    ensures s == Batch(s) + [Last(s)]
    ensures Prod(s) == Prod(Batch(s)) * Last(s)
  {
    assert s == Batch(s) + [Last(s)];
    ProdAppend(Batch(s), [Last(s)]);
    ProdSingle(Last(s));
  }

  /** Entry `c` of the row at `m` is the array's element at `m + [c]`. */
  lemma RowsAt(t: Tensor<real>, m: seq<nat>, c: nat)
    requires WellFormed(t) && |t.shape| >= 1
    requires InBounds(m, Batch(t.shape)) && c < Last(t.shape)
    ensures InBounds(m + [c], t.shape)
    ensures At(Rows(t), m)[c] == At(t, m + [c])
  {
    var b, w := Batch(t.shape), Last(t.shape);
    ShapeSplit(t.shape);
    var j := Ravel(b, m);
    RowOffset(b, w, m, c);
    RowBound(j, Prod(b), w);
    ChunksAt(t.data, Prod(b), w, j);
    ChunkAt(t.data, j, w, c);
  }

  /** The offset of `m + [c]` in `b + [w]` is `c` past the start of row `Ravel(b, m)`. */
  lemma RowOffset(b: seq<nat>, w: nat, m: seq<nat>, c: nat)
    requires InBounds(m, b) && c < w
    ensures InBounds(m + [c], b + [w])
    ensures Ravel(b + [w], m + [c]) == Ravel(b, m) * w + c
  {
    assert InBounds([c], [w]);
    RavelAppend(b, [w], m, [c]);
    assert Ravel([w], [c]) == c by { assert [c][1..] == [] && [w][1..] == []; }
    ProdSingle(w);
  }

  lemma ChunksAt<T>(d: seq<T>, n: nat, w: nat, j: nat)
    requires |d| == n * w && j < n
    ensures j * w + w <= |d| && Chunks(d, n, w)[j] == Chunk(d, j, w)
  {
    RowBound(j, n, w);
  }

  /** Element-wise application of `f`. */
  function Map<A, B>(t: Tensor<A>, f: A -> B): (r: Tensor<B>)
    requires WellFormed(t)
    ensures WellFormed(r) && r.shape == t.shape
    ensures forall j :: 0 <= j < |t.data| ==> r.data[j] == f(t.data[j])
    ensures forall m :: InBounds(m, t.shape) ==> At(r, m) == f(At(t, m))
  {
    Tensor(t.shape, seq(|t.data|, j requires 0 <= j < |t.data| => f(t.data[j])))
  }

  /** Element-wise combination of two arrays of one shape. */
  function Zip<A, B, C>(t: Tensor<A>, u: Tensor<B>, f: (A, B) -> C): (r: Tensor<C>)
    requires WellFormed(t) && WellFormed(u) && t.shape == u.shape
    ensures WellFormed(r) && r.shape == t.shape
    ensures forall j :: 0 <= j < |t.data| ==> r.data[j] == f(t.data[j], u.data[j])
    ensures forall m :: InBounds(m, t.shape) ==> At(r, m) == f(At(t, m), At(u, m))
  {
    Tensor(t.shape, seq(|t.data|, j requires 0 <= j < |t.data| => f(t.data[j], u.data[j])))
  }

  // ---------------------------------------------------------------------------
  // reshape
  // ---------------------------------------------------------------------------

  /** `t.reshape(s)`: the same elements in the same order under a new shape. */
  function Reshape<T>(t: Tensor<T>, s: seq<nat>): (r: Result<Tensor<T>>)
    requires WellFormed(t)
    ensures r.Ok? <==> Prod(s) == Prod(t.shape)
    ensures r.Ok? ==> WellFormed(r.value) && r.value.shape == s && r.value.data == t.data
  {
    if Prod(s) == Prod(t.shape) then Ok(Tensor(s, t.data))
    else Err("cannot reshape array into the requested shape")
  }

  // ---------------------------------------------------------------------------
  // broadcast_to
  // ---------------------------------------------------------------------------

  /**
   * numpy's rule for `broadcast_to(a, s)`: align the shapes on the right; every
   * axis of `a` is 1 or equals the axis of `s` it lines up with.
   */
  predicate BroadcastableTo(a: seq<nat>, s: seq<nat>)
  {
    |a| <= |s| && forall i :: 0 <= i < |a| ==> a[i] == 1 || a[i] == s[|s| - |a| + i]
  }

  /** The multi-index of `a` that position `m` of the broadcast result copies. */
  function SourceIndex(a: seq<nat>, s: seq<nat>, m: seq<nat>): (r: seq<nat>)
    requires BroadcastableTo(a, s) && InBounds(m, s)
    ensures InBounds(r, a)
  {
    seq(|a|, i requires 0 <= i < |a| => if a[i] == 1 then 0 else m[|s| - |a| + i])
  }

  /** `jnp.broadcast_to(t, s)`. */
  function BroadcastTo<T>(t: Tensor<T>, s: seq<nat>): (r: Result<Tensor<T>>)
    requires WellFormed(t)
    ensures r.Ok? <==> BroadcastableTo(t.shape, s)
    ensures r.Ok? ==> WellFormed(r.value) && r.value.shape == s
    ensures r.Ok? ==> forall x <- r.value.data :: x in t.data
  {
    if BroadcastableTo(t.shape, s) then
      Ok(Tensor(s, seq(Prod(s), k requires 0 <= k < Prod(s) =>
        At(t, SourceIndex(t.shape, s, Unravel(s, k))))))
    else Err("operands could not be broadcast")
  }

  /** Each position of the broadcast result holds the source element it lines up with. */
  lemma BroadcastToAt<T>(t: Tensor<T>, s: seq<nat>, m: seq<nat>)
    requires WellFormed(t) && BroadcastableTo(t.shape, s) && InBounds(m, s)
    ensures At(BroadcastTo(t, s).value, m) == At(t, SourceIndex(t.shape, s, m))
  {
    UnravelRavel(s, m);
  }

  /** Broadcasting an array to its own shape gives it back unchanged. */
  lemma BroadcastToSelf<T>(t: Tensor<T>)
    requires WellFormed(t)
    ensures BroadcastTo(t, t.shape) == Ok(t)
  {
    var r := BroadcastTo(t, t.shape).value;
    forall m | InBounds(m, t.shape) ensures At(r, m) == At(t, m) {
      BroadcastToAt(t, t.shape, m);
      assert SourceIndex(t.shape, t.shape, m) == m;
    }
    SameAt(r, t);
  }

  /** Axis `i` counted from the right (0 is the last axis); a missing axis counts as 1. */
  function FromRight(a: seq<nat>, i: nat): nat
  {
    if i < |a| then a[|a| - 1 - i] else 1
  }

  /** numpy's broadcasting rule for two operands: aligned axes agree or one of them is 1. */
  predicate Compatible(a: seq<nat>, b: seq<nat>)
  {
    forall i: nat :: i < |a| && i < |b| ==>
      FromRight(a, i) == FromRight(b, i) || FromRight(a, i) == 1 || FromRight(b, i) == 1
  }

  /** The axis that aligned axes `x` and `y` broadcast to. */
  function MergeAxis(x: nat, y: nat): nat
  {
    if x == 1 then y else x
  }

  /** The shape of length `n` whose axis `i` from the right merges the operands' axes `i`. */
  function MergedShape(a: seq<nat>, b: seq<nat>, n: nat): (c: seq<nat>)
    ensures |c| == n
    ensures forall i: nat :: i < n ==> FromRight(c, i) == MergeAxis(FromRight(a, i), FromRight(b, i))
  {
    seq(n, j requires 0 <= j < n => MergeAxis(FromRight(a, n - 1 - j), FromRight(b, n - 1 - j)))
  }

  /** Every operand broadcasts to the merged shape when the operands are compatible. */
  lemma MergedFits(a: seq<nat>, b: seq<nat>, n: nat)
    requires Compatible(a, b) && |a| <= n && |b| <= n
    ensures BroadcastableTo(a, MergedShape(a, b, n)) && BroadcastableTo(b, MergedShape(a, b, n))
  {
    var c := MergedShape(a, b, n);
    forall i | 0 <= i < |a| ensures a[i] == 1 || a[i] == c[n - |a| + i] {
      var k: nat := |a| - 1 - i;
      assert FromRight(a, k) == a[i];
      assert FromRight(c, k) == c[n - |a| + i];
    }
    forall i | 0 <= i < |b| ensures b[i] == 1 || b[i] == c[n - |b| + i] {
      var k: nat := |b| - 1 - i;
      assert FromRight(b, k) == b[i];
      assert FromRight(c, k) == c[n - |b| + i];
    }
  }

  /** `jnp.broadcast_shapes(a, b)`: the shape both operands broadcast to. */
  function BroadcastShapes(a: seq<nat>, b: seq<nat>): (r: Option<seq<nat>>)
    ensures r.Some? <==> Compatible(a, b)
    ensures r.Some? ==> |r.value| == if |a| < |b| then |b| else |a|
    ensures r.Some? ==> BroadcastableTo(a, r.value) && BroadcastableTo(b, r.value)
    // each axis is the operands' axis that is not 1, or 1 when both are 1 (or missing)
    ensures r.Some? ==> forall i: nat :: i < |r.value| ==> FromRight(r.value, i) == MergeAxis(FromRight(a, i), FromRight(b, i))
  {
    if Compatible(a, b) then
      var n := if |a| < |b| then |b| else |a|;
      MergedFits(a, b, n);
      Some(MergedShape(a, b, n))
    else None
  }

  // ---------------------------------------------------------------------------
  // Integer indexing
  // ---------------------------------------------------------------------------

  /** `-d <= i < d`: the indices numpy accepts on an axis of length `d`. */
  predicate IndexInRange(i: int, d: nat)
  {
    -(d as int) <= i < d
  }

  /**
   * The position JAX reads for integer index `i` on a non-empty axis of length
   * `d`: a negative index counts from the end, and the result is then clamped
   * to the axis, so an out-of-range index reads the first or the last element.
   */
  function Clamp(i: int, d: nat): (k: nat)
    requires d > 0
    ensures k < d
    ensures IndexInRange(i, d) ==> k as int == (if i < 0 then i + d else i)
    ensures i >= d ==> k == d - 1
    ensures i < -(d as int) ==> k == 0
  {
    var j := if i < 0 then i + d else i;
    if j < 0 then 0 else if j >= d then d - 1 else j
  }

  /** JAX indexes with `idx` unless it has too many entries or one falls on an empty axis. */
  predicate ValidIndex(s: seq<nat>, idx: seq<int>)
  {
    |idx| <= |s| && forall k :: 0 <= k < |idx| ==> s[k] > 0
  }

  /** The multi-index over the leading axes that `idx` selects. */
  function Selected(s: seq<nat>, idx: seq<int>): (m: seq<nat>)
    requires ValidIndex(s, idx)
    ensures InBounds(m, s[..|idx|])
  {
    seq(|idx|, k requires 0 <= k < |idx| => Clamp(idx[k], s[k]))
  }

  /** `t[idx[0], ..., idx[n-1]]`: integer indexing on the leading axes. */
  function Take<T>(t: Tensor<T>, idx: seq<int>): (r: Result<Tensor<T>>)
    requires WellFormed(t)
    ensures r.Ok? <==> ValidIndex(t.shape, idx)
    ensures r.Ok? ==> WellFormed(r.value) && r.value.shape == t.shape[|idx|..]
    ensures r.Ok? ==> forall x <- r.value.data :: x in t.data
  {
    if ValidIndex(t.shape, idx) then
      var pre, post := t.shape[..|idx|], t.shape[|idx|..];
      var q := Ravel(pre, Selected(t.shape, idx));
      SplitAt(t.shape, |idx|);
      RowBound(q, Prod(pre), Prod(post));
      Ok(Tensor(post, Chunk(t.data, q, Prod(post))))
    else Err("too many indices, or an index on an empty axis")
  }

  lemma SplitAt(s: seq<nat>, k: nat)
    requires k <= |s|
    ensures s[..k] + s[k..] == s
    ensures Prod(s) == Prod(s[..k]) * Prod(s[k..])
  {
    assert s[..k] + s[k..] == s;
    ProdAppend(s[..k], s[k..]);
  }

  /** Position `n` of the result is position `selected ++ n` of the source. */
  lemma TakeAt<T>(t: Tensor<T>, idx: seq<int>, n: seq<nat>)
    requires WellFormed(t) && ValidIndex(t.shape, idx) && InBounds(n, t.shape[|idx|..])
    ensures InBounds(Selected(t.shape, idx) + n, t.shape)
    ensures At(Take(t, idx).value, n) == At(t, Selected(t.shape, idx) + n)
  {
    var pre, post := t.shape[..|idx|], t.shape[|idx|..];
    var sel := Selected(t.shape, idx);
    SplitAt(t.shape, |idx|);
    RavelAppend(pre, post, sel, n);
    var q, w, off := Ravel(pre, sel), Prod(post), Ravel(post, n);
    RowBound(q, Prod(pre), w);
    var r := Take(t, idx).value;
    assert r == Tensor(post, Chunk(t.data, q, w));
    ChunkAt(t.data, q, w, off);
  }

  lemma ChunkAt<T>(d: seq<T>, j: nat, w: nat, c: nat)
    requires j * w + w <= |d| && c < w
    ensures Chunk(d, j, w)[c] == d[j * w + c]
  {
  }
}
