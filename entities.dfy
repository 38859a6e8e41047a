/** Entity: a mesh reference and a pose (position, rotation, scale) with a cached world
    matrix (DX11Starter/Entity.cpp).  `EntityState` is the value of an entity's five
    fields; the functions over it specify the methods of the class and are what the
    frame driver's specification is built from. */
module Entities {
  import opened DXMath
  import opened Meshes

  datatype EntityState = EntityState(
    mesh: Mesh?,
    position: Float3,
    rotation: Float3,
    scale: Float3,
    worldMatrix: Float4x4)

  /** The state the constructor gives a new entity bound to `mesh`. */
  function Spawned(mesh: Mesh?): EntityState
  {
    EntityState(mesh, Zero, Zero, One, Identity())
  }

  /** The world matrix a pose calls for. */
  function WorldOf(s: EntityState, math: MathLib): Float4x4
  {
    math.Compose(s.position, s.rotation, s.scale)
  }

  /** The cached world matrix agrees with the pose. */
  predicate InSync(s: EntityState, math: MathLib)
  {
    s.worldMatrix == WorldOf(s, math)
  }

  /** Update: recompute the world matrix from the pose. */
  function Refreshed(s: EntityState, math: MathLib): EntityState
  {
    s.(worldMatrix := WorldOf(s, math))
  }

  /** Move: add `velocity` turned by the angles `direction`. */
  function Moved(s: EntityState, math: MathLib, direction: Float3, velocity: Float3): EntityState
  {
    s.(position := Add(s.position, math.Rotate(direction, velocity)))
  }

  /** MoveForward: add `velocity` turned by the entity's own rotation. */
  function MovedForward(s: EntityState, math: MathLib, velocity: Float3): EntityState
  {
    s.(position := Add(s.position, math.Rotate(s.rotation, velocity)))
  }

  /** A sequence of MoveForward calls, applied in order. */
  function MovedForwardAll(s: EntityState, math: MathLib, vs: seq<Float3>): EntityState
  {
    if vs == [] then s else MovedForward(MovedForwardAll(s, math, vs[..|vs| - 1]), math, vs[|vs| - 1])
  }

  /** A new entity has the identity world matrix, which places every point of the mesh
      exactly where the mesh has it. */
  lemma SpawnedAtOrigin(mesh: Mesh?, p: Float3)
    ensures Spawned(mesh).mesh == mesh
    ensures TransformPoint(Spawned(mesh).worldMatrix, p) == p
  {
    IdentityFixesPoints(p);
  }

  /** After Update the cache is in sync, whatever it held before, and a second Update
      changes nothing. */
  lemma RefreshedInSync(s: EntityState, math: MathLib)
    ensures InSync(Refreshed(s, math), math)
    ensures Refreshed(Refreshed(s, math), math) == Refreshed(s, math)
    ensures Refreshed(s, math) == s <==> InSync(s, math)
  {
  }

  /** Setting the position, rotation or scale leaves the cache as it was: it is stale as
      soon as the new pose calls for a different matrix. */
  lemma SettersLeaveMatrixStale(s: EntityState, math: MathLib, v: Float3)
    ensures InSync(s.(position := v), math) <==> s.worldMatrix == math.Compose(v, s.rotation, s.scale)
    ensures InSync(s.(rotation := v), math) <==> s.worldMatrix == math.Compose(s.position, v, s.scale)
    ensures InSync(s.(scale := v), math) <==> s.worldMatrix == math.Compose(s.position, s.rotation, v)
  {
  }

  /** MoveForward is Move in the entity's own facing. */
  lemma MoveForwardIsMoveAlongRotation(s: EntityState, math: MathLib, v: Float3)
    ensures MovedForward(s, math, v) == Moved(s, math, s.rotation, v)
  {
  }

  /** Move never looks at the entity's rotation, scale, matrix or mesh: two entities at the
      same position end at the same position, and only the position changes. */
  lemma MoveReadsOnlyPosition(s: EntityState, t: EntityState, math: MathLib, direction: Float3, v: Float3)
    requires s.position == t.position
    ensures Moved(s, math, direction, v).position == Moved(t, math, direction, v).position
    ensures Moved(s, math, direction, v).(position := s.position) == s
  {
  }

  /** With zero rotation, and if the library's zero-angle rotation leaves `v` alone,
      MoveForward adds exactly `v`. */
  lemma MoveForwardUnrotated(s: EntityState, math: MathLib, v: Float3)
    requires s.rotation == Zero && math.ZeroAnglesFix(v)
    ensures MovedForward(s, math, v).position == Add(s.position, v)
  {
  }

  /** Each velocity turned by the angles `r`. */
  function Turned(math: MathLib, r: Float3, vs: seq<Float3>): (ts: seq<Float3>)
    ensures |ts| == |vs|
  {
    seq(|vs|, i requires 0 <= i < |vs| => math.Rotate(r, vs[i]))
  }

  /** A run of MoveForward calls changes only the position, by the sum of the turned
      velocities. */
  lemma {:induction false} MovedForwardAllSum(s: EntityState, math: MathLib, vs: seq<Float3>)
    ensures MovedForwardAll(s, math, vs).(position := s.position) == s
    ensures MovedForwardAll(s, math, vs).position ==
            Add(s.position, Sum(Turned(math, s.rotation, vs)))
    decreases |vs|
  {
    if vs != [] {
      var n := |vs| - 1;
      MovedForwardAllSum(s, math, vs[..n]);
      assert Turned(math, s.rotation, vs)[..n] == Turned(math, s.rotation, vs[..n]);
    }
  }

  /** With zero rotation, and if the zero-angle rotation fixes every velocity used, a run
      of MoveForward calls adds exactly the sum of the velocities. */
  lemma {:induction false} MovedForwardAllUnrotated(s: EntityState, math: MathLib, vs: seq<Float3>)
    requires s.rotation == Zero
    requires forall i :: 0 <= i < |vs| ==> math.ZeroAnglesFix(vs[i])
    ensures MovedForwardAll(s, math, vs).position == Add(s.position, Sum(vs))
    decreases |vs|
  {
    if vs != [] {
      var n := |vs| - 1;
      MovedForwardAllUnrotated(s, math, vs[..n]);
      MovedForwardAllSum(s, math, vs[..n]);
      assert math.ZeroAnglesFix(vs[n]);
    }
  }

  /** Appending one more velocity is one more MoveForward. */
  lemma MovedForwardAllSnoc(s: EntityState, math: MathLib, vs: seq<Float3>, v: Float3)
    ensures MovedForwardAll(s, math, vs + [v]) == MovedForward(MovedForwardAll(s, math, vs), math, v)
  {
    assert (vs + [v])[..|vs|] == vs;
  }

  /** Two runs of MoveForward calls in a row are one run of both. */
  lemma {:induction false} MovedForwardAllAppend(s: EntityState, math: MathLib, a: seq<Float3>, b: seq<Float3>)
    ensures MovedForwardAll(s, math, a + b) == MovedForwardAll(MovedForwardAll(s, math, a), math, b)
    decreases |b|
  {
    if b == [] {
      assert a + b == a;
    } else {
      var b' := b[..|b| - 1];
      assert (a + b)[..|a + b| - 1] == a + b';
      MovedForwardAllAppend(s, math, a, b');
    }
  }

  class Entity {
    var worldMatrix: Float4x4
    var position: Float3
    var rotation: Float3
    var scale: Float3
    var mesh: Mesh?

    ghost function State(): EntityState
      reads this
    {
      EntityState(mesh, position, rotation, scale, worldMatrix)
    }

    /** A new entity at the origin, unrotated, at unit scale, with the identity matrix. */
    constructor (mesh: Mesh?)
      ensures State() == Spawned(mesh)
    {
      this.mesh := mesh;
      position := Zero;
      rotation := Zero;
      scale := One;
      worldMatrix := GetIdentityMatrix();
    }

    /** The copy constructor copies all five fields. */
    constructor Copy(other: Entity)
      ensures State() == other.State()
    {
      mesh := other.mesh;
      position := other.position;
      rotation := other.rotation;
      scale := other.scale;
      worldMatrix := other.worldMatrix;
    }

    /** operator=: copies all five fields unless it is a self-assignment. */
    method Assign(other: Entity)
      modifies this
      ensures State() == old(other.State())
    {
      if this != other {
        mesh := other.mesh;
        position := other.position;
        rotation := other.rotation;
        scale := other.scale;
        worldMatrix := other.worldMatrix;
      }
    }

    /** Recomputes the world matrix from the pose; the two times are not used. */
    method Update(math: MathLib, deltaTime: real, totalTime: real)
      modifies this`worldMatrix
      ensures State() == Refreshed(old(State()), math)
    {
      worldMatrix := math.Compose(position, rotation, scale);
    }

    method GetWorldMatrix() returns (m: Float4x4)
      ensures m == worldMatrix
    {
      m := worldMatrix;
    }

    method GetPosition() returns (p: Float3)
      ensures p == position
    {
      p := position;
    }

    method GetRotation() returns (r: Float3)
      ensures r == rotation
    {
      r := rotation;
    }

    method GetScale() returns (s: Float3)
      ensures s == scale
    {
      s := scale;
    }

    method GetMesh() returns (m: Mesh?)
      ensures m == mesh
    {
      m := mesh;
    }

    method SetWorldMatrix(worldMatrix: Float4x4)
      modifies this`worldMatrix
      ensures State() == old(State()).(worldMatrix := worldMatrix)
    {
      this.worldMatrix := worldMatrix;
    }

    method SetPosition(position: Float3)
      modifies this`position
      ensures State() == old(State()).(position := position)
    {
      this.position := position;
    }

    method SetRotation(rotation: Float3)
      modifies this`rotation
      ensures State() == old(State()).(rotation := rotation)
    {
      this.rotation := rotation;
    }

    method SetScale(scale: Float3)
      modifies this`scale
      ensures State() == old(State()).(scale := scale)
    {
      this.scale := scale;
    }

    method SetMesh(mesh: Mesh?)
      modifies this`mesh
      ensures State() == old(State()).(mesh := mesh)
    {
      this.mesh := mesh;
    }

    method Move(math: MathLib, direction: Float3, velocity: Float3)
      modifies this`position
      ensures State() == Moved(old(State()), math, direction, velocity)
    {
      position := Add(position, math.Rotate(direction, velocity));
    }

    method MoveForward(math: MathLib, velocity: Float3)
      modifies this`position
      ensures State() == MovedForward(old(State()), math, velocity)
    {
      position := Add(position, math.Rotate(rotation, velocity));
    }

    /** XMMatrixIdentity stored into an XMFLOAT4X4: every point is left in place. */
    static function GetIdentityMatrix(): (m: Float4x4)
      ensures forall p :: TransformPoint(m, p) == p
      ensures Transpose(m) == m
    {
      Identity()
    }
  }
}
