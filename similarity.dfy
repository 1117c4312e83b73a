/** `ChatHandler.cosine_similarity` over exact reals. Floating-point rounding is
    not modelled; the square root is a parameter `root` of which only one fact
    is assumed: it is zero exactly at zero (and never negative). */
module Similarity {

  type Vector = seq<real>

  /** `np.dot` of two vectors of one dimension. */
  function Dot(a: Vector, b: Vector): real
    requires |a| == |b|
  {
    if a == [] then 0.0 else Mul(a[0], b[0]) + Dot(a[1..], b[1..])
  }

  /** Real multiplication, named so that products stay single terms for the
      solver. */
  function Mul(x: real, y: real): real
  {
    x * y
  }

  /** The squared Euclidean norm. */
  function NormSq(a: Vector): real
  {
    Dot(a, a)
  }

  predicate IsZero(a: Vector)
  {
    forall i | 0 <= i < |a| :: a[i] == 0.0
  }

  /** What the model needs of a square root on the non-negative reals. */
  ghost predicate IsRoot(root: real -> real)
  {
    forall x | 0.0 <= x :: 0.0 <= root(x) && (root(x) == 0.0 <==> x == 0.0)
  }

  /** `np.linalg.norm`. */
  function Norm(a: Vector, root: real -> real): real
  {
    root(NormSq(a))
  }

  /** A sum of squares is never negative, and it is zero exactly when every
      component is zero. */
  lemma {:induction false} NormSqZero(a: Vector)
    ensures 0.0 <= NormSq(a)
    ensures NormSq(a) == 0.0 <==> IsZero(a)
  {
    if a != [] {
      NormSqZero(a[1..]);
      var x := a[0];
      assert NormSq(a) == Mul(x, x) + NormSq(a[1..]);
      if x != 0.0 {
        SquarePositive(x);
      } else if !IsZero(a[1..]) {
        var i :| 0 <= i < |a| - 1 && a[1..][i] != 0.0;
        assert a[i + 1] != 0.0;
      } else {
        assert IsZero(a) by {
          forall i | 0 <= i < |a| ensures a[i] == 0.0 {
            if i > 0 { assert a[i] == a[1..][i - 1]; }
          }
        }
      }
    }
  }

  lemma SquarePositive(x: real)
    requires x != 0.0
    ensures 0.0 < Mul(x, x)
  {
    if 0.0 < x {
      MulPositive(x, x);
    } else {
      MulPositive(-x, -x);
      assert Mul(-x, -x) == Mul(x, x);
    }
  }

  lemma MulPositive(x: real, y: real)
    requires 0.0 < x && 0.0 < y
    ensures 0.0 < Mul(x, y)
  {
  }

  /** A vector's norm is zero exactly when it is the zero vector. */
  lemma NormZeroIffZeroVector(a: Vector, root: real -> real)
    requires IsRoot(root)
    ensures Norm(a, root) == 0.0 <==> IsZero(a)
  {
    NormSqZero(a);
  }

  /** `cosine_similarity(a, b)`: 0.0 when either norm is zero, otherwise the
      dot product over the product of the norms. The division is only reached
      with a non-zero divisor. */
  function CosineSimilarity(a: Vector, b: Vector, root: real -> real): (r: real)
    requires |a| == |b|
    requires IsRoot(root)
    ensures IsZero(a) || IsZero(b) ==> r == 0.0
    ensures !IsZero(a) && !IsZero(b) ==> r * (Norm(a, root) * Norm(b, root)) == Dot(a, b)
  {
    NormZeroIffZeroVector(a, root);
    NormZeroIffZeroVector(b, root);
    var na := Norm(a, root);
    var nb := Norm(b, root);
    if na == 0.0 || nb == 0.0 then 0.0 else Dot(a, b) / (na * nb)
  }

  lemma {:induction false} DotSymmetric(a: Vector, b: Vector)
    requires |a| == |b|
    ensures Dot(a, b) == Dot(b, a)
  {
    if a != [] {
      DotSymmetric(a[1..], b[1..]);
    }
  }

  /** The similarity does not depend on the order of its arguments. */
  lemma CosineSymmetric(a: Vector, b: Vector, root: real -> real)
    requires |a| == |b|
    requires IsRoot(root)
    ensures CosineSimilarity(a, b, root) == CosineSimilarity(b, a, root)
  {
    DotSymmetric(a, b);
    assert Norm(a, root) * Norm(b, root) == Norm(b, root) * Norm(a, root);
  }
}
