/** The DirectXMath value types the starter uses (XMFLOAT3, XMFLOAT4, XMFLOAT4X4), with
    floating point idealised to `real`.  The library's transform constructors, its matrix
    product and its quaternion routines are foreign: they are gathered in `MathLib`, a
    record of functions that every operation needing them receives as a parameter, so the
    model assumes nothing about them beyond what a caller states explicitly. */
module DXMath {

  /** XMFLOAT3: a position, a set of roll-pitch-yaw angles or a scale factor. */
  datatype Float3 = Float3(x: real, y: real, z: real)

  /** XMFLOAT4: one matrix row, a colour or a quaternion. */
  datatype Float4 = Float4(x: real, y: real, z: real, w: real)

  /** XMFLOAT4X4, stored row by row. */
  datatype Float4x4 = Float4x4(r0: Float4, r1: Float4, r2: Float4, r3: Float4)

  const Zero: Float3 := Float3(0.0, 0.0, 0.0)
  const One: Float3 := Float3(1.0, 1.0, 1.0)

  /** Component-wise sum of two vectors (XMVECTOR `+`). */
  function Add(a: Float3, b: Float3): Float3
  {
    Float3(a.x + b.x, a.y + b.y, a.z + b.z)
  }

  /** Sum of a sequence of vectors, folded from the left. */
  function Sum(vs: seq<Float3>): Float3
  {
    if vs == [] then Zero else Add(Sum(vs[..|vs| - 1]), vs[|vs| - 1])
  }

  lemma {:induction false} SumAppend(a: seq<Float3>, b: seq<Float3>)
    ensures Sum(a + b) == Add(Sum(a), Sum(b))
    decreases |b|
  {
    if b == [] {
      assert a + b == a;
    } else {
      var b' := b[..|b| - 1];
      assert (a + b)[..|a + b| - 1] == a + b';
      SumAppend(a, b');
    }
  }

  /** A vector with the same value on every axis (the Lerp of two uniform vectors is one). */
  function Uniform(v: real): (r: Float3)
    ensures r.x == r.y == r.z == v
  {
    Float3(v, v, v)
  }

  /** XMVectorLerp: a + t * (b - a), component-wise. */
  function Lerp(a: Float3, b: Float3, t: real): (r: Float3)
    ensures t == 0.0 ==> r == a
    ensures t == 1.0 ==> r == b
  {
    Float3(a.x + t * (b.x - a.x), a.y + t * (b.y - a.y), a.z + t * (b.z - a.z))
  }

  /** XMMatrixIdentity. */
  function Identity(): Float4x4
  {
    Float4x4(Float4(1.0, 0.0, 0.0, 0.0),
             Float4(0.0, 1.0, 0.0, 0.0),
             Float4(0.0, 0.0, 1.0, 0.0),
             Float4(0.0, 0.0, 0.0, 1.0))
  }

  /** XMMatrixTranspose: row i of the result is column i of `m`. */
  function Transpose(m: Float4x4): Float4x4
  {
    Float4x4(Float4(m.r0.x, m.r1.x, m.r2.x, m.r3.x),
             Float4(m.r0.y, m.r1.y, m.r2.y, m.r3.y),
             Float4(m.r0.z, m.r1.z, m.r2.z, m.r3.z),
             Float4(m.r0.w, m.r1.w, m.r2.w, m.r3.w))
  }

  lemma TransposeInvolution(m: Float4x4)
    ensures Transpose(Transpose(m)) == m
  {
  }

  lemma TransposeInjective(a: Float4x4, b: Float4x4)
    ensures Transpose(a) == Transpose(b) <==> a == b
  {
    if Transpose(a) == Transpose(b) {
      TransposeInvolution(a);
      TransposeInvolution(b);
    }
  }

  /** A point (x, y, z, 1) times `m`, in DirectX's row-vector convention. */
  function TransformPoint(m: Float4x4, p: Float3): Float3
  {
    Float3(p.x * m.r0.x + p.y * m.r1.x + p.z * m.r2.x + m.r3.x,
           p.x * m.r0.y + p.y * m.r1.y + p.z * m.r2.y + m.r3.y,
           p.x * m.r0.z + p.y * m.r1.z + p.z * m.r2.z + m.r3.z)
  }

  /** The identity world matrix leaves every point where it is. */
  lemma IdentityFixesPoints(p: Float3)
    ensures TransformPoint(Identity(), p) == p
  {
  }

  /** The DirectXMath routines the core calls, none of which is modelled. */
  datatype MathLib = MathLib(
    translation: Float3 -> Float4x4,         // XMMatrixTranslation(x, y, z)
    rotationRollPitchYaw: Float3 -> Float4x4, // XMMatrixRotationRollPitchYaw(x, y, z)
    scaling: Float3 -> Float4x4,             // XMMatrixScaling(x, y, z)
    multiply: (Float4x4, Float4x4) -> Float4x4, // XMMATRIX `*`
    quaternionRollPitchYaw: Float3 -> Float4, // XMQuaternionRotationRollPitchYawFromVector
    rotate: (Float3, Float4) -> Float3)      // XMVector3Rotate(v, q)
  {
    /** Translation(p) * RotationRollPitchYaw(r) * Scaling(s), multiplied left to right
        as the C++ expression is. */
    function Compose(p: Float3, r: Float3, s: Float3): Float4x4
    {
      multiply(multiply(translation(p), rotationRollPitchYaw(r)), scaling(s))
    }

    /** `v` turned by the rotation that the roll-pitch-yaw angles describe. */
    function Rotate(angles: Float3, v: Float3): Float3
    {
      rotate(v, quaternionRollPitchYaw(angles))
    }

    /** The one fact about the library a caller may choose to assume: with all three angles
        zero the rotation leaves `v` alone. */
    predicate ZeroAnglesFix(v: Float3)
    {
      Rotate(Zero, v) == v
    }
  }
}
