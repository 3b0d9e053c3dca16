/** Dense real matrices, just enough for a Kalman filter: products, transposes, sums, and the
    uniqueness of an inverse. */
module Matrix {

  type Mat = seq<seq<real>>

  predicate Shape(m: Mat, rows: nat, cols: nat) {
    |m| == rows && forall i :: 0 <= i < rows ==> |m[i]| == cols
  }

  /** An entry; outside the matrix it is zero. */
  function At(m: Mat, i: int, j: int): real {
    if 0 <= i < |m| && 0 <= j < |m[i]| then m[i][j] else 0.0
  }

  function Build(rows: nat, cols: nat, entry: (int, int) -> real): (m: Mat)
    ensures Shape(m, rows, cols)
    ensures forall i, j :: 0 <= i < rows && 0 <= j < cols ==> At(m, i, j) == entry(i, j)
  {
    seq(rows, i => seq(cols, j => entry(i, j)))
  }

  lemma SameEntries(a: Mat, b: Mat, rows: nat, cols: nat)
    requires Shape(a, rows, cols) && Shape(b, rows, cols)
    requires forall i, j :: 0 <= i < rows && 0 <= j < cols ==> At(a, i, j) == At(b, i, j)
    ensures a == b
  {
    forall i | 0 <= i < rows ensures a[i] == b[i] {
      forall j | 0 <= j < cols ensures a[i][j] == b[i][j] {
        assert At(a, i, j) == At(b, i, j);
      }
    }
  }

  function SetAt(m: Mat, i: nat, j: nat, v: real): (r: Mat)
    requires i < |m| && j < |m[i]|
    ensures |r| == |m| && forall k :: 0 <= k < |m| ==> |r[k]| == |m[k]|
    ensures forall k, l :: At(r, k, l) == if k == i && l == j then v else At(m, k, l)
  {
    m[i := m[i][j := v]]
  }

  /** Row `i` of `a` times column `j` of `b`, over the first `n` terms. */
  function Dot(a: Mat, i: int, b: Mat, j: int, n: nat): real {
    if n == 0 then 0.0 else Dot(a, i, b, j, n - 1) + At(a, i, n - 1) * At(b, n - 1, j)
  }

  function Mul(a: Mat, b: Mat, rows: nat, n: nat, cols: nat): (m: Mat)
    ensures Shape(m, rows, cols)
    ensures forall i, j :: 0 <= i < rows && 0 <= j < cols ==> At(m, i, j) == Dot(a, i, b, j, n)
  {
    Build(rows, cols, (i, j) => Dot(a, i, b, j, n))
  }

  function Transpose(a: Mat, rows: nat, cols: nat): (m: Mat)
    ensures Shape(m, cols, rows)
    ensures forall i, j :: 0 <= i < cols && 0 <= j < rows ==> At(m, i, j) == At(a, j, i)
  {
    Build(cols, rows, (i, j) => At(a, j, i))
  }

  function Add(a: Mat, b: Mat, rows: nat, cols: nat): (m: Mat)
    ensures Shape(m, rows, cols)
    ensures forall i, j :: 0 <= i < rows && 0 <= j < cols ==> At(m, i, j) == At(a, i, j) + At(b, i, j)
  {
    Build(rows, cols, (i, j) => At(a, i, j) + At(b, i, j))
  }

  function Sub(a: Mat, b: Mat, rows: nat, cols: nat): (m: Mat)
    ensures Shape(m, rows, cols)
    ensures forall i, j :: 0 <= i < rows && 0 <= j < cols ==> At(m, i, j) == At(a, i, j) - At(b, i, j)
  {
    Build(rows, cols, (i, j) => At(a, i, j) - At(b, i, j))
  }

  function Eye(n: nat): (m: Mat)
    ensures Shape(m, n, n)
    ensures forall i, j :: 0 <= i < n && 0 <= j < n ==> At(m, i, j) == if i == j then 1.0 else 0.0
  {
    Build(n, n, (i, j) => if i == j then 1.0 else 0.0)
  }

  // ----- Sparse rows and columns -----

  /** The only terms of the product that need not vanish are those at `u` and `w`. */
  ghost predicate Only(a: Mat, i: int, b: Mat, j: int, n: nat, u: int, w: int) {
    forall k :: 0 <= k < n && k != u && k != w ==> At(a, i, k) == 0.0 || At(b, k, j) == 0.0
  }

  function Term(a: Mat, i: int, b: Mat, j: int, n: nat, k: int): real {
    if 0 <= k < n then At(a, i, k) * At(b, k, j) else 0.0
  }

  /** A product with at most two terms; equal or out-of-range positions count once or not at all. */
  lemma {:induction false} DotSparse(a: Mat, i: int, b: Mat, j: int, n: nat, u: int, w: int)
    requires Only(a, i, b, j, n, u, w)
    ensures Dot(a, i, b, j, n) == Term(a, i, b, j, n, u) + (if u == w then 0.0 else Term(a, i, b, j, n, w))
  {
    if n > 0 {
      DotSparse(a, i, b, j, n - 1, u, w);
      if n - 1 != u && n - 1 != w {
        assert At(a, i, n - 1) == 0.0 || At(b, n - 1, j) == 0.0;
        assert At(a, i, n - 1) * At(b, n - 1, j) == 0.0;
      }
    }
  }

  // ----- Associativity and uniqueness of the inverse -----

  lemma {:induction false} DotScales(a: Mat, i: int, b: Mat, j: int, n: nat, scaled: Mat, l: int, c: real)
    requires forall k :: 0 <= k < n ==> At(scaled, k, l) == At(b, k, j) * c
    ensures Dot(a, i, scaled, l, n) == Dot(a, i, b, j, n) * c
  {
    if n > 0 {
      DotScales(a, i, b, j, n - 1, scaled, l, c);
      var (x, y) := (At(a, i, n - 1), At(b, n - 1, j));
      assert x * (y * c) == x * y * c;
      assert (Dot(a, i, b, j, n - 1) + x * y) * c == Dot(a, i, b, j, n - 1) * c + x * y * c;
    }
  }

  lemma {:induction false} DotSplits(a: Mat, i: int, b: Mat, c: Mat, d: Mat, j: int, n: nat)
    requires forall k :: 0 <= k < n ==> At(d, k, j) == At(b, k, j) + At(c, k, j)
    ensures Dot(a, i, d, j, n) == Dot(a, i, b, j, n) + Dot(a, i, c, j, n)
  {
    if n > 0 {
      DotSplits(a, i, b, c, d, j, n - 1);
      var (x, y, z) := (At(a, i, n - 1), At(b, n - 1, j), At(c, n - 1, j));
      assert x * (y + z) == x * y + x * z;
    }
  }

  lemma {:induction false} DotSame(a: Mat, i: int, b: Mat, j: int, c: Mat, k: int, d: Mat, l: int, n: nat)
    requires forall t :: 0 <= t < n ==> At(a, i, t) == At(c, k, t) && At(b, t, j) == At(d, t, l)
    ensures Dot(a, i, b, j, n) == Dot(c, k, d, l, n)
  {
    if n > 0 { DotSame(a, i, b, j, c, k, d, l, n - 1); }
  }

  /** A row of one symmetric matrix times a column of another is the mirrored product. */
  lemma {:induction false} DotFlips(a: Mat, i: int, b: Mat, j: int, n: nat)
    requires forall t :: 0 <= t < n ==> At(a, i, t) == At(a, t, i) && At(b, t, j) == At(b, j, t)
    ensures Dot(a, i, b, j, n) == Dot(b, j, a, i, n)
  {
    if n > 0 { DotFlips(a, i, b, j, n - 1); }
  }

  lemma {:induction false} DotVanishes(a: Mat, i: int, b: Mat, j: int, n: nat)
    requires forall k :: 0 <= k < n ==> At(b, k, j) == 0.0
    ensures Dot(a, i, b, j, n) == 0.0
  {
    if n > 0 { DotVanishes(a, i, b, j, n - 1); }
  }

  /** The product of three matrices, entry by entry; the last inner dimension is the induction. */
  lemma {:induction false} AssociativeAt(a: Mat, b: Mat, c: Mat, i: int, j: int, rows: nat, m: nat, n: nat, cols: nat)
    requires 0 <= i < rows && 0 <= j < cols
    ensures Dot(Mul(a, b, rows, m, n), i, c, j, n) == Dot(a, i, Mul(b, c, m, n, cols), j, m)
  {
    AssociativePrefix(a, b, c, i, j, rows, m, n, n, cols);
  }

  lemma MulNext(b: Mat, c: Mat, m: nat, k: nat, cols: nat)
    requires k > 0
    ensures forall s, j :: 0 <= s < m && 0 <= j < cols ==>
      At(Mul(b, c, m, k, cols), s, j) == At(Mul(b, c, m, k - 1, cols), s, j) + At(b, s, k - 1) * At(c, k - 1, j)
  {
  }

  /** Lengthening the inner product of the right-hand pair by one term. */
  lemma OneMoreTerm(a: Mat, b: Mat, c: Mat, i: int, j: int, m: nat, k: nat, cols: nat)
    requires 0 <= j < cols && k > 0
    ensures Dot(a, i, Mul(b, c, m, k, cols), j, m)
         == Dot(a, i, Mul(b, c, m, k - 1, cols), j, m) + Dot(a, i, b, k - 1, m) * At(c, k - 1, j)
  {
    hide Dot;
    var last := Build(m, cols, (s, t) => At(b, s, k - 1) * At(c, k - 1, j));
    MulNext(b, c, m, k, cols);
    DotScales(a, i, b, k - 1, m, last, j, At(c, k - 1, j));
    DotSplits(a, i, Mul(b, c, m, k - 1, cols), last, Mul(b, c, m, k, cols), j, m);
  }

  lemma {:induction false} AssociativePrefix(a: Mat, b: Mat, c: Mat, i: int, j: int,
                                             rows: nat, m: nat, k: nat, n: nat, cols: nat)
    requires 0 <= i < rows && 0 <= j < cols && k <= n
    ensures Dot(Mul(a, b, rows, m, n), i, c, j, k) == Dot(a, i, Mul(b, c, m, k, cols), j, m)
    decreases k
  {
    hide Mul, At;
    if k == 0 {
      DotVanishes(a, i, Mul(b, c, m, 0, cols), j, m);
    } else {
      AssociativePrefix(a, b, c, i, j, rows, m, k - 1, n, cols);
      OneMoreTerm(a, b, c, i, j, m, k, cols);
    }
  }

  lemma EyeLeft(a: Mat, n: nat)
    requires Shape(a, n, n)
    ensures Mul(Eye(n), a, n, n, n) == a
  {
    forall i, j | 0 <= i < n && 0 <= j < n ensures Dot(Eye(n), i, a, j, n) == At(a, i, j) {
      DotSparse(Eye(n), i, a, j, n, i, i);
    }
    SameEntries(Mul(Eye(n), a, n, n, n), a, n, n);
  }

  lemma EyeRight(a: Mat, n: nat)
    requires Shape(a, n, n)
    ensures Mul(a, Eye(n), n, n, n) == a
  {
    forall i, j | 0 <= i < n && 0 <= j < n ensures Dot(a, i, Eye(n), j, n) == At(a, i, j) {
      DotSparse(a, i, Eye(n), j, n, j, j);
    }
    SameEntries(Mul(a, Eye(n), n, n, n), a, n, n);
  }

  /** A matrix with a left inverse has no other right inverse. */
  lemma InverseIsUnique(s: Mat, left: Mat, right: Mat, n: nat)
    requires Shape(s, n, n) && Shape(left, n, n) && Shape(right, n, n)
    requires Mul(left, s, n, n, n) == Eye(n) && Mul(s, right, n, n, n) == Eye(n)
    ensures left == right
  {
    forall i, j | 0 <= i < n && 0 <= j < n
      ensures At(Mul(Eye(n), right, n, n, n), i, j) == At(Mul(left, Eye(n), n, n, n), i, j)
    {
      AssociativeAt(left, s, right, i, j, n, n, n, n);
    }
    EyeLeft(right, n);
    EyeRight(left, n);
    SameEntries(right, left, n, n);
  }
}
