/** The 3-vector and 3x3-matrix primitives of the filter.

    The firmware keeps vectors in `float[3]` arrays and matrices in
    `float[3][3]` arrays, and passes a matrix row to the vector primitives as
    a pointer to its first element (`&DCM_Matrix[1][0]`). The model keeps the
    same memory layout: a vector is three consecutive reals of an array
    starting at some offset, and a matrix is an array of nine reals in row
    order, so row `i` is the vector at offset `3 * i`. Every primitive takes
    (array, offset) pairs where the firmware takes pointers.

    The values those arrays hold are specified with the `Vec3` and `Mat3`
    values and the pure functions below. Floats are idealised as reals. */
module VectorMath {

  datatype Vec3 = Vec3(x: real, y: real, z: real)
  {
    /** Component `i`, as `v[i]` indexes a `float[3]`. */
    function Get(i: nat): real
      requires i < 3
    {
      if i == 0 then x else if i == 1 then y else z
    }
  }

  datatype Mat3 = Mat3(r0: Vec3, r1: Vec3, r2: Vec3)
  {
    function Row(i: nat): Vec3
      requires i < 3
    {
      if i == 0 then r0 else if i == 1 then r1 else r2
    }
  }

  const Zero := Vec3(0.0, 0.0, 0.0)
  const Identity := Mat3(Vec3(1.0, 0.0, 0.0), Vec3(0.0, 1.0, 0.0), Vec3(0.0, 0.0, 1.0))

  // ---------------------------------------------------------------------
  // Specification functions

  function Dot(u: Vec3, v: Vec3): real
  {
    u.x * v.x + u.y * v.y + u.z * v.z
  }

  /** The sum of the first `n` component products, as the loop of
      `Vector_Dot_Product` accumulates it. */
  function DotPrefix(u: Vec3, v: Vec3, n: nat): real
    requires n <= 3
  {
    if n == 0 then 0.0 else DotPrefix(u, v, n - 1) + u.Get(n - 1) * v.Get(n - 1)
  }

  function Cross(u: Vec3, v: Vec3): Vec3
  {
    Vec3(u.y * v.z - u.z * v.y, u.z * v.x - u.x * v.z, u.x * v.y - u.y * v.x)
  }

  function Scale(v: Vec3, s: real): Vec3
  {
    Vec3(v.x * s, v.y * s, v.z * s)
  }

  function Add(u: Vec3, v: Vec3): Vec3
  {
    Vec3(u.x + v.x, u.y + v.y, u.z + v.z)
  }

  function Column(m: Mat3, j: nat): Vec3
    requires j < 3
  {
    Vec3(m.r0.Get(j), m.r1.Get(j), m.r2.Get(j))
  }

  /** The row vector `v` times the matrix `b`: what one row of a product is. */
  function RowTimes(v: Vec3, b: Mat3): Vec3
  {
    Vec3(Dot(v, Column(b, 0)), Dot(v, Column(b, 1)), Dot(v, Column(b, 2)))
  }

  function MatMul(a: Mat3, b: Mat3): Mat3
  {
    Mat3(RowTimes(a.r0, b), RowTimes(a.r1, b), RowTimes(a.r2, b))
  }

  function MatVec(a: Mat3, v: Vec3): Vec3
  {
    Vec3(Dot(a.r0, v), Dot(a.r1, v), Dot(a.r2, v))
  }

  function MatAdd(a: Mat3, b: Mat3): Mat3
  {
    Mat3(Add(a.r0, b.r0), Add(a.r1, b.r1), Add(a.r2, b.r2))
  }

  // ---------------------------------------------------------------------
  // Properties of the specification

  /** The cross product is orthogonal to both of its operands. */
  lemma CrossOrthogonal(u: Vec3, v: Vec3)
    ensures Dot(Cross(u, v), u) == 0.0
    ensures Dot(Cross(u, v), v) == 0.0
  {
  }

  /** Lagrange's identity: |u x v|^2 = |u|^2 |v|^2 - (u . v)^2. */
  lemma CrossNormSquared(u: Vec3, v: Vec3)
    ensures Dot(Cross(u, v), Cross(u, v)) == Dot(u, u) * Dot(v, v) - Dot(u, v) * Dot(u, v)
  {
  }

  /** Entry (i, j) of a product is row i of the left factor against column j
      of the right one. */
  lemma MatMulEntry(a: Mat3, b: Mat3, i: nat, j: nat)
    requires i < 3 && j < 3
    ensures MatMul(a, b).Row(i).Get(j) == Dot(a.Row(i), Column(b, j))
  {
  }

  // ---------------------------------------------------------------------
  // The firmware's primitives, over arrays

  /** The three elements of `a` starting at `off`. */
  function At(a: array<real>, off: nat): Vec3
    reads a
    requires off + 3 <= a.Length
  {
    Vec3(a[off], a[off + 1], a[off + 2])
  }

  /** The nine elements of `a`, read in row order. */
  function MatrixAt(a: array<real>): Mat3
    reads a
    requires a.Length == 9
  {
    Mat3(At(a, 0), At(a, 3), At(a, 6))
  }

  /** The vectors at (a, i) and (b, j) do not share an element. */
  predicate Separate(a: array<real>, i: nat, b: array<real>, j: nat)
  {
    a != b || i + 3 <= j || j + 3 <= i
  }

  /** `Vector_Dot_Product` */
  method VectorDotProduct(v1: array<real>, o1: nat, v2: array<real>, o2: nat) returns (result: real)
    requires o1 + 3 <= v1.Length && o2 + 3 <= v2.Length
    ensures result == Dot(At(v1, o1), At(v2, o2))
  {
    ghost var u, v := At(v1, o1), At(v2, o2);
    result := 0.0;
    for c := 0 to 3
      invariant result == DotPrefix(u, v, c)
    {
      result := result + v1[o1 + c] * v2[o2 + c];
    }
    assert DotPrefix(u, v, 1) == u.x * v.x;
  }

  /** `Vector_Cross_Product`: "out has to be different from v1 and v2". */
  method VectorCrossProduct(out: array<real>, oo: nat, v1: array<real>, o1: nat, v2: array<real>, o2: nat)
    requires oo + 3 <= out.Length && o1 + 3 <= v1.Length && o2 + 3 <= v2.Length
    requires Separate(out, oo, v1, o1) && Separate(out, oo, v2, o2)
    modifies out
    ensures At(out, oo) == Cross(old(At(v1, o1)), old(At(v2, o2)))
    ensures forall off: nat :: off + 3 <= out.Length && Separate(out, off, out, oo) ==> At(out, off) == old(At(out, off))
  {
    out[oo] := v1[o1 + 1] * v2[o2 + 2] - v1[o1 + 2] * v2[o2 + 1];
    out[oo + 1] := v1[o1 + 2] * v2[o2] - v1[o1] * v2[o2 + 2];
    out[oo + 2] := v1[o1] * v2[o2 + 1] - v1[o1 + 1] * v2[o2];
  }

  /** `Vector_Scale`; `out` may be `v` itself. */
  method VectorScale(out: array<real>, oo: nat, v: array<real>, ov: nat, scale: real)
    requires oo + 3 <= out.Length && ov + 3 <= v.Length
    requires Separate(out, oo, v, ov) || (out == v && oo == ov)
    modifies out
    ensures At(out, oo) == Scale(old(At(v, ov)), scale)
    ensures forall off: nat :: off + 3 <= out.Length && Separate(out, off, out, oo) ==> At(out, off) == old(At(out, off))
  {
    ghost var a := At(v, ov);
    for c := 0 to 3
      invariant c > 0 ==> out[oo] == a.x * scale
      invariant c > 1 ==> out[oo + 1] == a.y * scale
      invariant c > 2 ==> out[oo + 2] == a.z * scale
      invariant c < 1 ==> v[ov] == a.x
      invariant c < 2 ==> v[ov + 1] == a.y
      invariant c < 3 ==> v[ov + 2] == a.z
      invariant forall off: nat :: off + 3 <= out.Length && Separate(out, off, out, oo) ==> At(out, off) == old(At(out, off))
    {
      out[oo + c] := v[ov + c] * scale;
    }
  }

  /** `Vector_Add`; `out` may be either operand itself. */
  method VectorAdd(out: array<real>, oo: nat, v1: array<real>, o1: nat, v2: array<real>, o2: nat)
    requires oo + 3 <= out.Length && o1 + 3 <= v1.Length && o2 + 3 <= v2.Length
    requires Separate(out, oo, v1, o1) || (out == v1 && oo == o1)
    requires Separate(out, oo, v2, o2) || (out == v2 && oo == o2)
    modifies out
    ensures At(out, oo) == Add(old(At(v1, o1)), old(At(v2, o2)))
    ensures forall off: nat :: off + 3 <= out.Length && Separate(out, off, out, oo) ==> At(out, off) == old(At(out, off))
  {
    ghost var a, b := At(v1, o1), At(v2, o2);
    for c := 0 to 3
      invariant c > 0 ==> out[oo] == a.x + b.x
      invariant c > 1 ==> out[oo + 1] == a.y + b.y
      invariant c > 2 ==> out[oo + 2] == a.z + b.z
      invariant c < 1 ==> v1[o1] == a.x && v2[o2] == b.x
      invariant c < 2 ==> v1[o1 + 1] == a.y && v2[o2 + 1] == b.y
      invariant c < 3 ==> v1[o1 + 2] == a.z && v2[o2 + 2] == b.z
      invariant forall off: nat :: off + 3 <= out.Length && Separate(out, off, out, oo) ==> At(out, off) == old(At(out, off))
    {
      out[oo + c] := v1[o1 + c] + v2[o2 + c];
    }
  }

  /** `Matrix_Multiply`: out = a * b; "out has to be different from a and b". */
  method MatrixMultiply(a: array<real>, b: array<real>, out: array<real>)
    requires a.Length == 9 && b.Length == 9 && out.Length == 9
    requires out != a && out != b
    modifies out
    ensures MatrixAt(out) == MatMul(old(MatrixAt(a)), old(MatrixAt(b)))
  {
    ghost var ma, mb := MatrixAt(a), MatrixAt(b);
    for x := 0 to 3
      invariant forall i, j :: 0 <= i < x && 0 <= j < 3 ==> out[3 * i + j] == Dot(ma.Row(i), Column(mb, j))
    {
      for y := 0 to 3
        invariant forall i, j :: 0 <= i < x && 0 <= j < 3 ==> out[3 * i + j] == Dot(ma.Row(i), Column(mb, j))
        invariant forall j :: 0 <= j < y ==> out[3 * x + j] == Dot(ma.Row(x), Column(mb, j))
      {
        out[3 * x + y] := a[3 * x] * b[y] + a[3 * x + 1] * b[3 + y] + a[3 * x + 2] * b[6 + y];
      }
    }
    assert At(out, 0) == RowTimes(ma.Row(0), mb);
    assert At(out, 3) == RowTimes(ma.Row(1), mb);
    assert At(out, 6) == RowTimes(ma.Row(2), mb);
  }

  /** `Matrix_Vector_Multiply`: out = a * v; "out has to be different from v". */
  method MatrixVectorMultiply(a: array<real>, v: array<real>, out: array<real>)
    requires a.Length == 9 && v.Length == 3 && out.Length == 3
    requires out != v && out != a
    modifies out
    ensures At(out, 0) == MatVec(old(MatrixAt(a)), old(At(v, 0)))
  {
    ghost var ma, mv := MatrixAt(a), At(v, 0);
    for x := 0 to 3
      invariant forall i :: 0 <= i < x ==> out[i] == Dot(ma.Row(i), mv)
    {
      out[x] := a[3 * x] * v[0] + a[3 * x + 1] * v[1] + a[3 * x + 2] * v[2];
    }
  }
}
