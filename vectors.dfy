/** The `Vec3` arithmetic the game uses, the 2D reflection `reflect_2d`, and the
    floating-point primitives it cannot define exactly (`length`, `normalize`, `atan2`),
    which enter the model as a `Geometry` value chosen by the caller. */
module Vectors {

  datatype Vec3 = Vec3(x: real, y: real, z: real)

  function Add(a: Vec3, b: Vec3): Vec3 { Vec3(a.x + b.x, a.y + b.y, a.z + b.z) }

  function Sub(a: Vec3, b: Vec3): Vec3 { Vec3(a.x - b.x, a.y - b.y, a.z - b.z) }

  function Scale(k: real, v: Vec3): Vec3 { Vec3(k * v.x, k * v.y, k * v.z) }

  /** Dot product of the x and y components. */
  function Dot2(a: Vec3, b: Vec3): real { a.x * b.x + a.y * b.y }

  /** Squared length in the plane of play. */
  function Norm2(v: Vec3): real { Dot2(v, v) }

  /** Squared length, as glam's `length_squared`. */
  function LengthSquared(v: Vec3): real { v.x * v.x + v.y * v.y + v.z * v.z }

  /** A direction of unit length lying in the plane of play. */
  ghost predicate Unit2D(v: Vec3) { v.z == 0.0 && Norm2(v) == 1.0 }

  /** `Vec3::length`, `Vec3::normalize` and `f32::atan2(y, x)`: square roots and
      trigonometry, left to the caller. */
  datatype Geometry = Geometry(length: Vec3 -> real, normalize: Vec3 -> Vec3, atan2: (real, real) -> real)

  /** `reflect_2d`: `v - 2 (v·n) n` on the x and y components, with z set to 0. */
  function Reflect2D(v: Vec3, n: Vec3): (r: Vec3)
    ensures r.z == 0.0
  {
    var d := Dot2(v, n);
    Vec3(v.x - 2.0 * d * n.x, v.y - 2.0 * d * n.y, 0.0)
  }

  /** Against a unit normal the reflection reverses the normal component and keeps the
      tangential one. */
  lemma ReflectNormalComponent(v: Vec3, n: Vec3)
    requires Norm2(n) == 1.0
    ensures Dot2(Reflect2D(v, n), n) == -Dot2(v, n)
    ensures Dot2(Reflect2D(v, n), Vec3(-n.y, n.x, 0.0)) == Dot2(v, Vec3(-n.y, n.x, 0.0))
  {
    var d := Dot2(v, n);
    var r := Reflect2D(v, n);
    calc {
      Dot2(r, n);
      (v.x - 2.0 * d * n.x) * n.x + (v.y - 2.0 * d * n.y) * n.y;
      d - 2.0 * d * (n.x * n.x + n.y * n.y);
      -d;
    }
    calc {
      Dot2(r, Vec3(-n.y, n.x, 0.0));
      -(v.x - 2.0 * d * n.x) * n.y + (v.y - 2.0 * d * n.y) * n.x;
      -v.x * n.y + v.y * n.x;
    }
  }

  /** Against a unit normal the reflection keeps the length in the plane of play. */
  lemma ReflectPreservesLength(v: Vec3, n: Vec3)
    requires Norm2(n) == 1.0
    ensures Norm2(Reflect2D(v, n)) == Norm2(v)
  {
    var d := Dot2(v, n);
    var r := Reflect2D(v, n);
    calc {
      Norm2(r);
      (v.x - 2.0 * d * n.x) * (v.x - 2.0 * d * n.x) + (v.y - 2.0 * d * n.y) * (v.y - 2.0 * d * n.y);
      v.x * v.x + v.y * v.y - 4.0 * d * (v.x * n.x + v.y * n.y) + 4.0 * d * d * (n.x * n.x + n.y * n.y);
      Norm2(v) - 4.0 * d * d + 4.0 * d * d * Norm2(n);
      Norm2(v);
    }
  }

  /** Reflecting twice against the same unit normal gives back the planar part of `v`. */
  lemma ReflectInvolution(v: Vec3, n: Vec3)
    requires Norm2(n) == 1.0
    ensures Reflect2D(Reflect2D(v, n), n) == Vec3(v.x, v.y, 0.0)
  {
    var d := Dot2(v, n);
    var r := Reflect2D(v, n);
    ReflectNormalComponent(v, n);
    assert Dot2(r, n) == -d;
    calc {
      Reflect2D(r, n);
      Vec3(r.x + 2.0 * d * n.x, r.y + 2.0 * d * n.y, 0.0);
      Vec3(v.x, v.y, 0.0);
    }
  }

  /** A unit normal reflected against itself is reversed. */
  lemma ReflectNormalItself(n: Vec3)
    requires Norm2(n) == 1.0
    ensures Reflect2D(n, n) == Vec3(-n.x, -n.y, 0.0)
  {
    assert Dot2(n, n) == 1.0;
  }
}
