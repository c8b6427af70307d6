/** Dense vectors and matrices over `real`, standing in for the MathNet
    `Vector<double>` and `Matrix<double>` operations the network uses. */
module LinAlg {

  type Vector = seq<real>
  /** Row-major: `m[i][j]` is the entry in row `i`, column `j`. */
  type Matrix = seq<seq<real>>

  predicate IsMatrix(m: Matrix, rows: nat, cols: nat) {
    |m| == rows && forall i :: 0 <= i < |m| ==> |m[i]| == cols
  }

  /** A `rows` x `cols` matrix whose entry (i, j) is `f(i, j)`. */
  function Build(rows: nat, cols: nat, f: (nat, nat) -> real): (m: Matrix)
    ensures IsMatrix(m, rows, cols)
    ensures forall i, j :: 0 <= i < rows && 0 <= j < cols ==> m[i][j] == f(i, j)
  {
    seq(rows, i requires 0 <= i < rows => seq(cols, j requires 0 <= j < cols => f(i, j)))
  }

  function Zeros(n: nat): (v: Vector)
    ensures |v| == n && forall j :: 0 <= j < n ==> v[j] == 0.0
  {
    seq(n, j => 0.0)
  }

  /** A `rows` x `cols` matrix of zeros. */
  function ZeroMatrix(rows: nat, cols: nat): (m: Matrix)
    ensures IsMatrix(m, rows, cols)
    ensures forall i, j :: 0 <= i < rows && 0 <= j < cols ==> m[i][j] == 0.0
  {
    seq(rows, i => Zeros(cols))
  }

  /** Sum of the products u[0]*v[0] + ... accumulated left to right. */
  function Dot(u: Vector, v: Vector): real
    requires |u| == |v|
  {
    if |u| == 0 then 0.0 else Dot(u[..|u| - 1], v[..|v| - 1]) + u[|u| - 1] * v[|v| - 1]
  }

  function Sub(u: Vector, v: Vector): (w: Vector)
    requires |u| == |v|
    ensures |w| == |u|
  {
    seq(|u|, j requires 0 <= j < |u| => u[j] - v[j])
  }

  /** Matrix-vector product `m * x`. */
  function MatVec(m: Matrix, x: Vector): (y: Vector)
    requires forall i :: 0 <= i < |m| ==> |m[i]| == |x|
    ensures |y| == |m|
  {
    seq(|m|, i requires 0 <= i < |m| => Dot(m[i], x))
  }

  /** Element-wise sum of two matrices of the same shape. */
  function AddM(a: Matrix, b: Matrix): (c: Matrix)
    requires |a| == |b| && forall i :: 0 <= i < |a| ==> |a[i]| == |b[i]|
    ensures |c| == |a| && forall i :: 0 <= i < |a| ==> |c[i]| == |a[i]|
    ensures forall i, j :: 0 <= i < |a| && 0 <= j < |a[i]| ==> c[i][j] == a[i][j] + b[i][j]
  {
    seq(|a|, i requires 0 <= i < |a| =>
      seq(|a[i]|, j requires 0 <= j < |a[i]| => a[i][j] + b[i][j]))
  }

  /** A vector of length `n` holding `x` at its front and zeros after it:
      what copying `x` into a fresh zero vector of length `n` at offset 0 gives. */
  function Padded(x: Vector, n: nat): (p: Vector)
    requires |x| <= n
    ensures |p| == n
    ensures p[..|x|] == x
    ensures forall j :: |x| <= j < n ==> p[j] == 0.0
  {
    x + Zeros(n - |x|)
  }

  /** Sum of squares of the entries, accumulated left to right. */
  function SumSq(v: Vector): (s: real)
    ensures s >= 0.0
  {
    if |v| == 0 then 0.0 else SumSq(v[..|v| - 1]) + v[|v| - 1] * v[|v| - 1]
  }

  /** Sum of squares of all entries, row by row. */
  function FrobSq(m: Matrix): (s: real)
    ensures s >= 0.0
  {
    if |m| == 0 then 0.0 else FrobSq(m[..|m| - 1]) + SumSq(m[|m| - 1])
  }

  /** Column `j` of `w` weighted by `d`: d[0]*w[0][j] + d[1]*w[1][j] + ...,
      accumulated left to right. */
  function ColDot(d: Vector, w: Matrix, j: nat): real
    requires |d| == |w| && forall l :: 0 <= l < |w| ==> j < |w[l]|
  {
    if |d| == 0 then 0.0
    else ColDot(d[..|d| - 1], w[..|w| - 1], j) + d[|d| - 1] * w[|w| - 1][j]
  }

  /** The bias slot stays zero: padding a vector one short of `n` appends a single 0. */
  lemma PaddedByOne(x: Vector, n: nat)
    requires |x| + 1 == n
    ensures Padded(x, n) == x + [0.0]
  {
  }

  /** Dot of a difference with itself is the squared distance, never negative. */
  lemma {:induction false} DotSelfNonNegative(v: Vector)
    ensures Dot(v, v) == SumSq(v) && Dot(v, v) >= 0.0
  {
    if |v| > 0 {
      DotSelfNonNegative(v[..|v| - 1]);
    }
  }
}
