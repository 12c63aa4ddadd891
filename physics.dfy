/** The physics state of a shape: position, velocity, orientation and angular
    velocity, with the time step that moves it and the matrices it hands to the
    renderer. The same state and API appear in physics.rs and physics/mod.rs. */
module Phys {
  import opened Algebra

  /** What is known of `Rotation3::new(v)` exactly: a proper rotation that fixes
      its axis v, and the identity when v is zero. Its angle (the length of v)
      comes from the exponential map, which is not modelled. */
  ghost predicate IsAxisAngleRotation(step: Mat3, v: Vec3) {
    IsRotation(step) && Apply3(step, v) == v && (v == Zero3 ==> step == Identity3)
  }

  lemma IdentityIsZeroRotation()
    ensures IsAxisAngleRotation(Identity3, Zero3)
  {
    Identity3IsRotation();
    ApplyIdentity3(Zero3);
  }

  /** Position after moving with velocity vel for time t. */
  function Advanced(pos: Vec3, vel: Vec3, t: real): Vec3 {
    Add(pos, Scale(vel, t))
  }

  /** Two steps at a constant velocity make one step of the summed time. */
  lemma AdvanceComposes(pos: Vec3, vel: Vec3, t1: real, t2: real)
    ensures Advanced(Advanced(pos, vel, t1), vel, t2) == Advanced(pos, vel, t1 + t2)
  {
  }

  lemma AdvanceByZero(pos: Vec3, vel: Vec3)
    ensures Advanced(pos, vel, 0.0) == pos
  {
    ScaleByZero(vel);
  }

  /** mat_translation: the identity with the position in the last column, so
      the affine map that only moves by pos. */
  function TranslationMatrix(pos: Vec3): (m: Mat4)
    ensures m == AffineMatrix(Identity3, pos)
  {
    Mat4(Vec4(1.0, 0.0, 0.0, 0.0), Vec4(0.0, 1.0, 0.0, 0.0), Vec4(0.0, 0.0, 1.0, 0.0), Vec4(pos.x, pos.y, pos.z, 1.0))
  }

  /** The matrix is the one Matrix4::from_vec reads from the source's sixteen
      column-major entries: entries 12, 13 and 14 hold the position and the rest
      is the identity. */
  lemma TranslationMatrixLayout(pos: Vec3)
    ensures TranslationMatrix(pos) == FromColumnMajor([1.0, 0.0, 0.0, 0.0,
                                                       0.0, 1.0, 0.0, 0.0,
                                                       0.0, 0.0, 1.0, 0.0,
                                                       pos.x, pos.y, pos.z, 1.0])
    ensures TranslationMatrix(pos) == AffineMatrix(Identity3, pos)
    ensures Slice(TranslationMatrix(pos))[12..15] == [pos.x, pos.y, pos.z]
    ensures forall i :: 0 <= i < 12 || i == 15 ==>
      Slice(TranslationMatrix(pos))[i] == (if i % 5 == 0 then 1.0 else 0.0)
  {
  }

  /** mat_rotation: the rotation as a 4x4 matrix, the affine map that only
      rotates. */
  function RotationMatrix(rot: Mat3): (m: Mat4)
    ensures m == AffineMatrix(rot, Zero3)
  {
    HomogeneousIsAffine(rot);
    Homogeneous(rot)
  }

  /** mat_model: translation times rotation, which rotates and then moves. */
  function ModelMatrix(pos: Vec3, rot: Mat3): (m: Mat4)
    ensures m == AffineMatrix(rot, pos)
  {
    TranslateAfterRotate(rot, pos);
    Mul4(TranslationMatrix(pos), RotationMatrix(rot))
  }

  /** The model matrix rotates a point, then moves it by the position. */
  lemma ModelMatrixMapsPoints(pos: Vec3, rot: Mat3, p: Vec3)
    ensures ModelMatrix(pos, rot) == AffineMatrix(rot, pos)
    ensures Apply4(ModelMatrix(pos, rot), PointToHomogeneous(p)) == PointToHomogeneous(Add(Apply3(rot, p), pos))
  {
    TranslationMatrixLayout(pos);
    TranslateAfterRotate(rot, pos);
    ApplyAffine(rot, pos, p);
  }

  /** The rotation matrix applied to a direction (w = 0), read back as a direction. */
  function RotatedAxis(rot: Mat3, axis: Vec3): (d: Vec3)
    ensures d == Apply3(rot, axis)
  {
    HomogeneousIsAffine(rot);
    ApplyAffine(rot, Zero3, axis);
    HomogeneousRoundTrip(Apply3(rot, axis));
    VectorFromHomogeneous(Apply4(RotationMatrix(rot), VectorToHomogeneous(axis))).value
  }

  /** direction: the rotated unit axes, which are the rotation's columns. */
  function Direction(rot: Mat3): (d: (Vec3, Vec3, Vec3))
    ensures d == (Apply3(rot, UnitX), Apply3(rot, UnitY), Apply3(rot, UnitZ))
    ensures d == (rot.c0, rot.c1, rot.c2)
    ensures IsOrthonormal(rot) ==> IsOrthonormal(Mat3(d.0, d.1, d.2))
  {
    ApplyUnitColumns(rot);
    (RotatedAxis(rot, UnitX), RotatedAxis(rot, UnitY), RotatedAxis(rot, UnitZ))
  }

  /** Without rotation the directions are the standard basis. */
  lemma DirectionOfIdentity()
    ensures Direction(Identity3) == (UnitX, UnitY, UnitZ)
  {
  }

  class Physics {
    var pos: Vec3
    var vel: Vec3
    var rot: Mat3
    var ang: Vec3

    /** The orientation is a Rotation3: its columns stay an orthonormal basis. */
    ghost predicate Valid()
      reads this
    {
      IsOrthonormal(rot)
    }

    /** physics::new: at (x, y, z), at rest, unrotated and not spinning. */
    constructor (x: real, y: real, z: real)
      ensures pos == Vec3(x, y, z) && vel == Zero3 && rot == Identity3 && ang == Zero3
      ensures Valid()
    {
      pos := Vec3(x, y, z);
      vel := Zero3;
      rot := Identity3;
      ang := Zero3;
      Identity3Orthonormal();
    }

    /** move_: advance the position by vel t and compose the rotation with the
        step rotation `step`, which stands for Rotation3::new(ang t). */
    method Move(t: real, step: Mat3)
      requires Valid()
      requires IsAxisAngleRotation(step, Scale(ang, t))
      modifies this
      ensures Valid()
      ensures pos == Advanced(old(pos), old(vel), t)
      ensures rot == Mul3(old(rot), step)
      ensures vel == old(vel) && ang == old(ang)
      ensures t == 0.0 ==> pos == old(pos) && rot == old(rot)
    {
      if t == 0.0 {
        ScaleByZero(ang);
        AdvanceByZero(pos, vel);
        Identity3Neutral(rot);
      }
      OrthonormalCompose(rot, step);
      pos := Add(pos, Scale(vel, t));
      rot := Mul3(rot, step);
    }

    /** mat_translation of the current position: entries 12, 13, 14 of the
        column-major list hold it. */
    function MatTranslation(): (m: Mat4)
      reads this
      ensures m == AffineMatrix(Identity3, pos)
      ensures Slice(m)[12..15] == [pos.x, pos.y, pos.z]
    {
      TranslationMatrixLayout(pos);
      TranslationMatrix(pos)
    }

    /** mat_rotation of the current orientation: rotation only, no move. */
    function MatRotation(): (m: Mat4)
      reads this
      ensures m == AffineMatrix(rot, Zero3)
    {
      RotationMatrix(rot)
    }

    /** mat_model of the current state: p |-> rot p + pos. */
    function MatModel(): (m: Mat4)
      reads this
      ensures m == Mul4(MatTranslation(), MatRotation())
      ensures m == AffineMatrix(rot, pos)
    {
      ModelMatrixMapsPoints(pos, rot, Zero3);
      ModelMatrix(pos, rot)
    }

    /** direction of the current orientation: three unit vectors, pairwise
        orthogonal, however many steps have been taken. */
    function CurrentDirection(): (d: (Vec3, Vec3, Vec3))
      reads this
      requires Valid()
      ensures d == (Apply3(rot, UnitX), Apply3(rot, UnitY), Apply3(rot, UnitZ))
      ensures Dot(d.0, d.0) == 1.0 && Dot(d.1, d.1) == 1.0 && Dot(d.2, d.2) == 1.0
      ensures Dot(d.0, d.1) == 0.0 && Dot(d.0, d.2) == 0.0 && Dot(d.1, d.2) == 0.0
    {
      Direction(rot)
    }
  }
}
