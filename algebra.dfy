/** The vector and 4x4 matrix algebra of the renderer, over ideal reals in
    place of `float`. A `mat4` is stored as `float m[4][4]`, that is 16
    entries in row-major order: entry `[i][j]` is element `4 * i + j`. */
module Algebra {

  datatype Vec2 = Vec2(x: real, y: real)

  datatype Vec3 = Vec3(x: real, y: real, z: real)

  /** `vec3(float x)`: all three components equal. */
  function Splat(c: real): Vec3 {
    Vec3(c, c, c)
  }

  /** `sum`. */
  function Add(a: Vec3, b: Vec3): Vec3 {
    Vec3(a.x + b.x, a.y + b.y, a.z + b.z)
  }

  /** `minusV` and `diferrence`, which compute the same thing: the result is
      the vector that `b` needs to be added to in order to reach `a`. */
  function Sub(a: Vec3, b: Vec3): (r: Vec3)
    ensures Add(r, b) == a
  {
    Vec3(a.x - b.x, a.y - b.y, a.z - b.z)
  }

  function Negate(a: Vec3): Vec3 {
    Vec3(-a.x, -a.y, -a.z)
  }

  /** `dot`. */
  function Dot(a: Vec3, b: Vec3): real {
    a.x * b.x + a.y * b.y + a.z * b.z
  }

  /** `cross`: perpendicular to both operands and anti-commutative. */
  function Cross(a: Vec3, b: Vec3): (r: Vec3)
    ensures Dot(r, a) == 0.0 && Dot(r, b) == 0.0
  {
    Vec3(a.y * b.z - a.z * b.y, a.z * b.x - a.x * b.z, a.x * b.y - a.y * b.x)
  }

  lemma AddCommutes(a: Vec3, b: Vec3)
    ensures Add(a, b) == Add(b, a)
  {
  }

  lemma SubSwapped(a: Vec3, b: Vec3)
    ensures Sub(b, a) == Negate(Sub(a, b))
  {
  }

  lemma CrossAntiCommutes(a: Vec3, b: Vec3)
    ensures Cross(b, a) == Negate(Cross(a, b))
  {
  }

  lemma DotSymmetric(a: Vec3, b: Vec3)
    ensures Dot(a, b) == Dot(b, a)
  {
  }

  lemma CrossSelf(a: Vec3)
    ensures Cross(a, a) == Vec3(0.0, 0.0, 0.0)
  {
  }

  // ---------------------------------------------------------------------
  // mat4
  // ---------------------------------------------------------------------

  type Mat4 = m: seq<real> | |m| == 16 witness seq(16, _ => 0.0)

  /** `m.m[i][j]`. */
  function At(m: Mat4, i: nat, j: nat): real
    requires i < 4 && j < 4
  {
    m[4 * i + j]
  }

  /** The matrix the fields of `mat4`'s storage currently hold. */
  function Snapshot(cells: array2<real>): (m: Mat4)
    requires cells.Length0 == 4 && cells.Length1 == 4
    reads cells
    ensures forall i, j :: 0 <= i < 4 && 0 <= j < 4 ==> At(m, i, j) == cells[i, j]
  {
    seq(16, k requires 0 <= k < 16 reads cells => cells[k / 4, k % 4])
  }

  function ZeroMatrix(): (m: Mat4)
    ensures forall i, j :: 0 <= i < 4 && 0 <= j < 4 ==> At(m, i, j) == 0.0
  {
    seq(16, _ => 0.0)
  }

  function IdentityMatrix(): (m: Mat4)
    ensures forall i, j :: 0 <= i < 4 && 0 <= j < 4 ==>
      At(m, i, j) == if i == j then 1.0 else 0.0
  {
    [1.0, 0.0, 0.0, 0.0,
     0.0, 1.0, 0.0, 0.0,
     0.0, 0.0, 1.0, 0.0,
     0.0, 0.0, 0.0, 1.0]
  }

  /** Sum of the first `k` products of row `i` of `a` with column `j` of `b`,
      accumulated in the order the loop of `mul` adds them. */
  function PartialDot(a: Mat4, b: Mat4, i: nat, j: nat, k: nat): real
    requires i < 4 && j < 4 && k <= 4
  {
    if k == 0 then 0.0 else PartialDot(a, b, i, j, k - 1) + At(a, i, k - 1) * At(b, k - 1, j)
  }

  /** Row `i` of `a` times column `j` of `b`. */
  function RowCol(a: Mat4, b: Mat4, i: nat, j: nat): real
    requires i < 4 && j < 4
  {
    At(a, i, 0) * At(b, 0, j) + At(a, i, 1) * At(b, 1, j)
      + At(a, i, 2) * At(b, 2, j) + At(a, i, 3) * At(b, 3, j)
  }

  /** After all four steps the accumulated sum is the full row-column
      product. */
  lemma PartialDotComplete(a: Mat4, b: Mat4, i: nat, j: nat)
    requires i < 4 && j < 4
    ensures PartialDot(a, b, i, j, 4) == RowCol(a, b, i, j)
  {
    assert PartialDot(a, b, i, j, 1) == At(a, i, 0) * At(b, 0, j);
    assert PartialDot(a, b, i, j, 2) == PartialDot(a, b, i, j, 1) + At(a, i, 1) * At(b, 1, j);
    assert PartialDot(a, b, i, j, 3) == PartialDot(a, b, i, j, 2) + At(a, i, 2) * At(b, 2, j);
  }

  /** The row-by-column product. */
  function Product(a: Mat4, b: Mat4): Mat4 {
    seq(16, k requires 0 <= k < 16 => RowCol(a, b, k / 4, k % 4))
  }

  /** The default constructor `mat4()`: fresh storage whose 16 fields the
      nested loops set to zero. */
  method NewCells() returns (cells: array2<real>)
    ensures fresh(cells) && cells.Length0 == 4 && cells.Length1 == 4
    ensures Snapshot(cells) == ZeroMatrix()
  {
    cells := new real[4, 4];
    for i := 0 to 4
      invariant forall p, q :: 0 <= p < i && 0 <= q < 4 ==> cells[p, q] == 0.0
    {
      for j := 0 to 4
        invariant forall p, q :: 0 <= p < i && 0 <= q < 4 ==> cells[p, q] == 0.0
        invariant forall q :: 0 <= q < j ==> cells[i, q] == 0.0
      {
        cells[i, j] := 0.0;
      }
    }
  }

  /** The innermost loop of `mul`: entry `[i][j]` starts at 0 and
      accumulates the products of row `i` of `a` with column `j` of `b`. */
  method Entry(a: Mat4, b: Mat4, i: nat, j: nat) returns (entry: real)
    requires i < 4 && j < 4
    ensures entry == Product(a, b)[4 * i + j]
  {
    entry := 0.0;
    for k := 0 to 4
      invariant entry == PartialDot(a, b, i, j, k)
    {
      entry := entry + At(a, i, k) * At(b, k, j);
    }
    PartialDotComplete(a, b, i, j);
  }

  /** The loop of `mul` over the columns of row `i`. */
  method FillRow(cells: array2<real>, a: Mat4, b: Mat4, i: nat)
    requires cells.Length0 == 4 && cells.Length1 == 4 && i < 4
    modifies cells
    ensures forall q :: 0 <= q < 4 ==> cells[i, q] == Product(a, b)[4 * i + q]
    ensures forall p, q :: 0 <= p < 4 && p != i && 0 <= q < 4 ==> cells[p, q] == old(cells[p, q])
  {
    for j := 0 to 4
      invariant forall q :: 0 <= q < j ==> cells[i, q] == Product(a, b)[4 * i + q]
      invariant forall p, q :: 0 <= p < 4 && p != i && 0 <= q < 4 ==> cells[p, q] == old(cells[p, q])
    {
      cells[i, j] := Entry(a, b, i, j);
    }
  }

  /** `mul(a, b)`: each entry of a zero matrix is reset and then accumulates
      the four products of a row of `a` with a column of `b`. */
  method Mul(a: Mat4, b: Mat4) returns (c: Mat4)
    ensures c == Product(a, b)
  {
    var cells := NewCells();
    for i := 0 to 4
      invariant forall p, q :: 0 <= p < i && 0 <= q < 4 ==> cells[p, q] == Product(a, b)[4 * p + q]
    {
      FillRow(cells, a, b, i);
    }
    SnapshotProduct(cells, a, b);
    c := Snapshot(cells);
  }

  lemma SnapshotProduct(cells: array2<real>, a: Mat4, b: Mat4)
    requires cells.Length0 == 4 && cells.Length1 == 4
    requires forall p, q :: 0 <= p < 4 && 0 <= q < 4 ==> cells[p, q] == Product(a, b)[4 * p + q]
    ensures Snapshot(cells) == Product(a, b)
  {
    forall k | 0 <= k < 16
      ensures Snapshot(cells)[k] == Product(a, b)[k]
    {
      assert Snapshot(cells)[k] == cells[k / 4, k % 4];
      assert 4 * (k / 4) + k % 4 == k;
    }
  }

  /** `identity()`: a zero matrix whose entry `[i][j]` is set to 1 exactly
      when `i == j`. */
  method Identity() returns (m: Mat4)
    ensures m == IdentityMatrix()
  {
    var cells := NewCells();
    for i := 0 to 4
      invariant forall p, q :: 0 <= p < i && 0 <= q < 4 ==>
        cells[p, q] == if p == q then 1.0 else 0.0
    {
      for j := 0 to 4
        invariant forall p, q :: 0 <= p < i && 0 <= q < 4 ==> cells[p, q] == if p == q then 1.0 else 0.0
        invariant forall q :: 0 <= q < j ==> cells[i, q] == if i == q then 1.0 else 0.0
      {
        cells[i, j] := if i == j then 1.0 else 0.0;
      }
    }
    SnapshotIdentity(cells);
    m := Snapshot(cells);
  }

  lemma SnapshotIdentity(cells: array2<real>)
    requires cells.Length0 == 4 && cells.Length1 == 4
    requires forall p, q :: 0 <= p < 4 && 0 <= q < 4 ==> cells[p, q] == if p == q then 1.0 else 0.0
    ensures Snapshot(cells) == IdentityMatrix()
  {
    Extensionality(Snapshot(cells), IdentityMatrix());
  }

  /** Two matrices with the same 16 entries are the same matrix. */
  lemma Extensionality(m: Mat4, n: Mat4)
    requires forall i, j :: 0 <= i < 4 && 0 <= j < 4 ==> At(m, i, j) == At(n, i, j)
    ensures m == n
  {
    forall k | 0 <= k < 16
      ensures m[k] == n[k]
    {
      assert m[k] == At(m, k / 4, k % 4) && n[k] == At(n, k / 4, k % 4);
    }
  }

  /** The identity is a left unit of `mul`. */
  lemma MulIdentityLeft(x: Mat4)
    ensures Product(IdentityMatrix(), x) == x
  {
    var c := Product(IdentityMatrix(), x);
    forall i, j | 0 <= i < 4 && 0 <= j < 4
      ensures At(c, i, j) == At(x, i, j)
    {
      var id := IdentityMatrix();
      assert At(id, i, 0) == if i == 0 then 1.0 else 0.0;
      assert At(id, i, 1) == if i == 1 then 1.0 else 0.0;
      assert At(id, i, 2) == if i == 2 then 1.0 else 0.0;
      assert At(id, i, 3) == if i == 3 then 1.0 else 0.0;
    }
    Extensionality(c, x);
  }

  /** The identity is a right unit of `mul`. */
  lemma MulIdentityRight(x: Mat4)
    ensures Product(x, IdentityMatrix()) == x
  {
    var c := Product(x, IdentityMatrix());
    forall i, j | 0 <= i < 4 && 0 <= j < 4
      ensures At(c, i, j) == At(x, i, j)
    {
      var id := IdentityMatrix();
      assert At(id, 0, j) == if j == 0 then 1.0 else 0.0;
      assert At(id, 1, j) == if j == 1 then 1.0 else 0.0;
      assert At(id, 2, j) == if j == 2 then 1.0 else 0.0;
      assert At(id, 3, j) == if j == 3 then 1.0 else 0.0;
    }
    Extensionality(c, x);
  }

  // ---------------------------------------------------------------------
  // translateM and scaleM
  // ---------------------------------------------------------------------

  /** The elementary matrix `translateM` builds: the identity with the
      offset in column 3 of rows 0 to 2. */
  function Translation(v: Vec3): Mat4 {
    IdentityMatrix()[3 := v.x][7 := v.y][11 := v.z]
  }

  /** The elementary matrix `scaleM` builds: the identity with the factors on
      the first three diagonal entries. */
  function Scaling(v: Vec3): Mat4 {
    IdentityMatrix()[0 := v.x][5 := v.y][10 := v.z]
  }

  /** `translateM(m, v)`: `m` composed with the translation by `v`. */
  function TranslateM(m: Mat4, v: Vec3): Mat4 {
    Product(m, Translation(v))
  }

  /** `scaleM(m, v)`: `m` composed with the scaling by `v`. */
  function ScaleM(m: Mat4, v: Vec3): Mat4 {
    Product(m, Scaling(v))
  }

  /** Translating the identity gives the identity except for column 3 of
      rows 0 to 2, which hold `v`. */
  lemma TranslateIdentity(v: Vec3)
    ensures TranslateM(IdentityMatrix(), v)
         == [1.0, 0.0, 0.0, v.x,
             0.0, 1.0, 0.0, v.y,
             0.0, 0.0, 1.0, v.z,
             0.0, 0.0, 0.0, 1.0]
  {
    MulIdentityLeft(Translation(v));
    TranslationEntries(v);
  }

  lemma TranslationEntries(v: Vec3)
    ensures Translation(v)
         == [1.0, 0.0, 0.0, v.x,
             0.0, 1.0, 0.0, v.y,
             0.0, 0.0, 1.0, v.z,
             0.0, 0.0, 0.0, 1.0]
  {
  }

  /** Scaling the identity gives `diag(v.x, v.y, v.z, 1)`. */
  lemma ScaleIdentity(v: Vec3)
    ensures ScaleM(IdentityMatrix(), v)
         == [v.x, 0.0, 0.0, 0.0,
             0.0, v.y, 0.0, 0.0,
             0.0, 0.0, v.z, 0.0,
             0.0, 0.0, 0.0, 1.0]
  {
    MulIdentityLeft(Scaling(v));
    ScalingEntries(v);
  }

  lemma ScalingEntries(v: Vec3)
    ensures Scaling(v)
         == [v.x, 0.0, 0.0, 0.0,
             0.0, v.y, 0.0, 0.0,
             0.0, 0.0, v.z, 0.0,
             0.0, 0.0, 0.0, 1.0]
  {
  }

  /** Translating by the zero vector, as the display pose does, leaves any
      matrix as it is. */
  lemma TranslateByZero(m: Mat4)
    ensures TranslateM(m, Splat(0.0)) == m
  {
    TranslationEntries(Splat(0.0));
    assert Translation(Splat(0.0)) == IdentityMatrix();
    MulIdentityRight(m);
  }

  /** Scaling by one on every axis leaves any matrix as it is. */
  lemma ScaleByOne(m: Mat4)
    ensures ScaleM(m, Splat(1.0)) == m
  {
    ScalingEntries(Splat(1.0));
    assert Scaling(Splat(1.0)) == IdentityMatrix();
    MulIdentityRight(m);
  }
}
