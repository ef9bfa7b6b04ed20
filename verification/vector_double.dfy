/**
 * Vec3Double: a triple of doubles with index access and the three static
 * helpers cross, dot and sub. Doubles are modelled as reals.
 */
module VectorDouble {

  datatype Vec3Double = Vec3Double(x: real, y: real, z: real)
  {
    /** operator[]: component i of the vector. */
    function At(i: int): (r: real)
      requires 0 <= i < 3
      ensures i == 0 ==> r == x
      ensures i == 1 ==> r == y
      ensures i == 2 ==> r == z
    {
      if i == 0 then x else if i == 1 then y else z
    }
  }

  const Zero := Vec3Double(0.0, 0.0, 0.0)

  /** The cross product, written component by component as the source does. */
  function Cross(v1: Vec3Double, v2: Vec3Double): Vec3Double
  {
    Vec3Double(v1.At(1) * v2.At(2) - v1.At(2) * v2.At(1),
               v1.At(2) * v2.At(0) - v1.At(0) * v2.At(2),
               v1.At(0) * v2.At(1) - v1.At(1) * v2.At(0))
  }

  function Dot(v1: Vec3Double, v2: Vec3Double): real
  {
    v1.At(0) * v2.At(0) + v1.At(1) * v2.At(1) + v1.At(2) * v2.At(2)
  }

  function Sub(v1: Vec3Double, v2: Vec3Double): (r: Vec3Double)
    ensures forall i :: 0 <= i < 3 ==> r.At(i) == v1.At(i) - v2.At(i)
  {
    Vec3Double(v1.At(0) - v2.At(0), v1.At(1) - v2.At(1), v1.At(2) - v2.At(2))
  }

  /** A vector crossed with itself is the zero vector. */
  lemma CrossSelf(v: Vec3Double)
    ensures Cross(v, v) == Zero
  {
  }

  /** The cross product is anti-commutative. */
  lemma CrossAntiCommutative(a: Vec3Double, b: Vec3Double)
    ensures Cross(a, b) == Sub(Zero, Cross(b, a))
  {
  }

  /** The dot product is commutative. */
  lemma DotCommutative(a: Vec3Double, b: Vec3Double)
    ensures Dot(a, b) == Dot(b, a)
  {
  }

  /** The cross product is orthogonal to both of its operands. */
  lemma CrossOrthogonal(a: Vec3Double, b: Vec3Double)
    ensures Dot(Cross(a, b), a) == 0.0
    ensures Dot(Cross(a, b), b) == 0.0
  {
    var c := Cross(a, b);
    calc {
      Dot(c, a);
      (a.y * b.z - a.z * b.y) * a.x + (a.z * b.x - a.x * b.z) * a.y + (a.x * b.y - a.y * b.x) * a.z;
      a.x * a.y * b.z - a.x * a.z * b.y + a.y * a.z * b.x - a.x * a.y * b.z + a.x * a.z * b.y - a.y * a.z * b.x;
      0.0;
    }
    calc {
      Dot(c, b);
      (a.y * b.z - a.z * b.y) * b.x + (a.z * b.x - a.x * b.z) * b.y + (a.x * b.y - a.y * b.x) * b.z;
      a.y * b.x * b.z - a.z * b.x * b.y + a.z * b.x * b.y - a.x * b.y * b.z + a.x * b.y * b.z - a.y * b.x * b.z;
      0.0;
    }
  }

  /** Subtracting a vector from itself gives the zero vector. */
  lemma SubSelf(v: Vec3Double)
    ensures Sub(v, v) == Zero
  {
  }
}
