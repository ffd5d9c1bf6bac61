/** Model matrices of the scene's repeated instances. Every matrix the scene
    builds for them starts from the identity and is extended on the right by
    uniform scales, translations and rotations about +Y, the way
    glm::scale, glm::translate and glm::rotate compose. Such a matrix maps a
    local point p to origin + scale * RotY(yaw)(p); it is kept here as that
    triple, the angle in whole degrees. */
module Placement {
  import opened Vectors

  datatype Transform = Transform(scale: real, yawDeg: int, origin: Vec3)

  const Identity: Transform := Transform(1.0, 0, Zero)

  /** A transform whose rotation is a whole number of turns. */
  predicate Unrotated(m: Transform) {
    m.yawDeg % 360 == 0
  }

  /** Where an unrotated transform takes a local point. */
  function Apply(m: Transform, p: Vec3): Vec3
    requires Unrotated(m)
  {
    Add(m.origin, Scale(m.scale, p))
  }

  /** m * S(k): scales the local frame, leaving origin and rotation. */
  function ScaleBy(m: Transform, k: real): (r: Transform)
    ensures r.yawDeg == m.yawDeg && r.origin == m.origin
    ensures Unrotated(r) <==> Unrotated(m)
    ensures Unrotated(m) ==> forall p :: Apply(r, p) == Apply(m, Scale(k, p))
  {
    Transform(m.scale * k, m.yawDeg, m.origin)
  }

  /** m * T(v): moves the local origin by v measured in m's frame. Defined
      for unrotated m only, which covers every translate in the scene. */
  function Translate(m: Transform, v: Vec3): (r: Transform)
    requires Unrotated(m)
    ensures Unrotated(r) && r.scale == m.scale
    ensures forall p :: Apply(r, p) == Apply(m, Add(v, p))
  {
    var r := Transform(m.scale, m.yawDeg, Add(m.origin, Scale(m.scale, v)));
    assert forall p :: Apply(r, p) == Apply(m, Add(v, p)) by {
      forall p ensures Apply(r, p) == Apply(m, Add(v, p)) {
        var s := m.scale;
        assert s * (v.x + p.x) == s * v.x + s * p.x;
        assert s * (v.y + p.y) == s * v.y + s * p.y;
        assert s * (v.z + p.z) == s * v.z + s * p.z;
      }
    }
    r
  }

  /** m * R_Y(deg): turns the local frame about +Y; the local origin stays. */
  function RotateY(m: Transform, deg: int): (r: Transform)
    ensures r.origin == m.origin && r.scale == m.scale
    ensures (r.yawDeg - m.yawDeg) % 360 == deg % 360
  {
    Transform(m.scale, m.yawDeg + deg, m.origin)
  }

  // ---------------------------------------------------------------------
  // Mountain instances
  // ---------------------------------------------------------------------

  /** The translate increments of the shadow pass's mountain chain. */
  const ShadowPassSteps: seq<Vec3> := [
    Vec3(2.5, 0.0, 0.0), Vec3(0.0, 0.0, 3.0), Vec3(-2.5, 0.0, 0.0), Vec3(-2.5, 0.0, 0.0),
    Vec3(0.0, 0.0, -3.0), Vec3(0.0, 0.0, -3.0), Vec3(2.5, 0.0, 0.0), Vec3(2.5, 0.0, 0.0)
  ]

  /** The translate increments of the forward pass's mountain chain, written
      out separately in the source. */
  const ForwardPassSteps: seq<Vec3> := [
    Vec3(2.5, 0.0, 0.0), Vec3(0.0, 0.0, 3.0), Vec3(-2.5, 0.0, 0.0), Vec3(-2.5, 0.0, 0.0),
    Vec3(0.0, 0.0, -3.0), Vec3(0.0, 0.0, -3.0), Vec3(2.5, 0.0, 0.0), Vec3(2.5, 0.0, 0.0)
  ]

  /** The world positions of the eight mountains, a ring around the origin. */
  const MountainOffsets: seq<Vec3> := [
    Vec3(2.5, 0.0, 0.0), Vec3(2.5, 0.0, 3.0), Vec3(0.0, 0.0, 3.0), Vec3(-2.5, 0.0, 3.0),
    Vec3(-2.5, 0.0, 0.0), Vec3(-2.5, 0.0, -3.0), Vec3(0.0, 0.0, -3.0), Vec3(2.5, 0.0, -3.0)
  ]

  /** A mountain pass: the model matrix is reset to the identity, then each
      step translates it further and the mountain is drawn with the result.
      Returns the model matrix of every draw, in order. */
  method MountainPass(steps: seq<Vec3>) returns (models: seq<Transform>)
    ensures |models| == |steps|
    ensures forall k | 0 <= k < |models| :: models[k] == Transform(1.0, 0, Sum(steps[..k + 1]))
  {
    var model := Identity;
    models := [];
    var k := 0;
    while k < |steps|
      invariant 0 <= k <= |steps|
      invariant |models| == k
      invariant model == Transform(1.0, 0, Sum(steps[..k]))
      invariant forall j | 0 <= j < k :: models[j] == Transform(1.0, 0, Sum(steps[..j + 1]))
    {
      assert steps[..k + 1][..k] == steps[..k];
      model := Translate(model, steps[k]);
      models := models + [model];
      k := k + 1;
    }
  }

  lemma SumSnoc(vs: seq<Vec3>, k: nat)
    requires k < |vs|
    ensures Sum(vs[..k + 1]) == Add(Sum(vs[..k]), vs[k])
  {
    assert vs[..k + 1][..k] == vs[..k];
  }

  /** `sums` lists the running totals of `steps`: each entry is the one
      before it (the origin for the first) plus its own step. */
  predicate IsRunningSum(steps: seq<Vec3>, sums: seq<Vec3>) {
    && |steps| == |sums|
    && (|sums| > 0 ==> sums[0] == steps[0])
    && forall k | 0 < k < |sums| :: sums[k] == Add(sums[k - 1], steps[k])
  }

  lemma {:induction false} RunningSumIsPrefixSum(steps: seq<Vec3>, sums: seq<Vec3>, k: nat)
    requires IsRunningSum(steps, sums) && k < |sums|
    ensures sums[k] == Sum(steps[..k + 1])
  {
    SumSnoc(steps, k);
    if k == 0 {
      assert |steps[..0]| == 0;
      assert Sum(steps[..0]) == Zero;
    } else {
      RunningSumIsPrefixSum(steps, sums, k - 1);
    }
  }

  lemma OffsetsAreRunningSums()
    ensures IsRunningSum(ShadowPassSteps, MountainOffsets)
  {
    var s := ShadowPassSteps;
    var o := MountainOffsets;
    assert o[0] == s[0];
    forall k | 0 < k < |o|
      ensures o[k] == Add(o[k - 1], s[k])
    {
      if k == 1 { assert o[1] == Add(o[0], s[1]); }
      else if k == 2 { assert o[2] == Add(o[1], s[2]); }
      else if k == 3 { assert o[3] == Add(o[2], s[3]); }
      else if k == 4 { assert o[4] == Add(o[3], s[4]); }
      else if k == 5 { assert o[5] == Add(o[4], s[5]); }
      else if k == 6 { assert o[6] == Add(o[5], s[6]); }
      else { assert o[7] == Add(o[6], s[7]); }
    }
  }

  /** The running sums of the steps are the listed mountain positions. */
  lemma StepsReachOffsets()
    ensures |ShadowPassSteps| == |MountainOffsets|
    ensures forall k | 0 <= k < |MountainOffsets| :: Sum(ShadowPassSteps[..k + 1]) == MountainOffsets[k]
  {
    OffsetsAreRunningSums();
    forall k | 0 <= k < |MountainOffsets|
      ensures Sum(ShadowPassSteps[..k + 1]) == MountainOffsets[k]
    {
      RunningSumIsPrefixSum(ShadowPassSteps, MountainOffsets, k);
    }
  }

  /** Both passes draw the k-th mountain at the same place, the k-th listed
      offset, unscaled and unrotated. */
  method BothPassesAgree() returns (shadow: seq<Transform>, forward: seq<Transform>)
    ensures shadow == forward
    ensures |shadow| == |MountainOffsets|
    ensures forall k | 0 <= k < |shadow| :: shadow[k] == Transform(1.0, 0, MountainOffsets[k])
  {
    shadow := MountainPass(ShadowPassSteps);
    forward := MountainPass(ForwardPassSteps);
    StepsReachOffsets();
  }

  /** No two mountains share a position and none sits at the origin. */
  lemma MountainOffsetsDistinct()
    ensures forall i, j | 0 <= i < j < |MountainOffsets| :: MountainOffsets[i] != MountainOffsets[j]
    ensures forall i | 0 <= i < |MountainOffsets| :: MountainOffsets[i] != Zero
  {
  }

  // ---------------------------------------------------------------------
  // Grass billboards
  // ---------------------------------------------------------------------

  /** The billboard positions, in draw order. */
  const GrassOffsets: seq<Vec3> := [
    Vec3(10.0, 0.5, 0.0), Vec3(-9.0, 0.5, 0.0), Vec3(-11.0, 0.5, 10.0),
    Vec3(-5.0, 0.5, -12.0), Vec3(0.0, 0.5, 14.0), Vec3(5.0, 0.5, -7.0),
    Vec3(6.0, 0.5, 8.0), Vec3(4.0, 0.5, 13.5), Vec3(10.5, 0.5, -14.5),
    Vec3(-10.5, 0.5, -12.5), Vec3(-15.5, 0.5, -16.5), Vec3(17.5, 0.5, -12.5)
  ]

  const GrassScale: real := 0.1

  /** Billboard i: scaled, then translated by its offset, then turned about
      +Y by 15 * (i mod 12) degrees when i is even. */
  function GrassModel(offset: Vec3, i: nat): Transform {
    var m := Translate(ScaleBy(Identity, GrassScale), offset);
    if i % 2 == 0 then RotateY(m, 15 * (i % 12)) else m
  }

  /** The grass loop: one draw per offset, in order. Because the scale comes
      first, each billboard stands at a tenth of its listed offset. */
  method GrassPass(offsets: seq<Vec3>) returns (models: seq<Transform>)
    ensures |models| == |offsets|
    ensures forall i | 0 <= i < |models| ::
              && models[i].scale == GrassScale
              && models[i].origin == Scale(GrassScale, offsets[i])
              && models[i].yawDeg == (if i % 2 == 0 then 15 * (i % 12) else 0)
  {
    models := [];
    var i := 0;
    while i < |offsets|
      invariant 0 <= i <= |offsets|
      invariant |models| == i
      invariant forall j | 0 <= j < i ::
                  && models[j].scale == GrassScale
                  && models[j].origin == Scale(GrassScale, offsets[j])
                  && models[j].yawDeg == (if j % 2 == 0 then 15 * (j % 12) else 0)
    {
      var model := GrassModel(offsets[i], i);
      assert Add(Zero, Scale(GrassScale, offsets[i])) == Scale(GrassScale, offsets[i]);
      models := models + [model];
      i := i + 1;
    }
  }

  /** Odd billboards are never turned; even ones are turned by a multiple of
      30 degrees between 0 and 150, a different angle for each even index
      below 12. */
  lemma GrassAngles(offset: Vec3, i: nat)
    ensures i % 2 == 1 ==> GrassModel(offset, i).yawDeg == 0
    ensures i % 2 == 0 ==>
              var a := GrassModel(offset, i).yawDeg;
              a % 30 == 0 && 0 <= a <= 150
  {
    GrassYaw(offset, i);
    if i % 2 == 0 {
      EvenScheduleAngle(i);
    }
  }

  /** An even index's angle 15 * (i mod 12) is a multiple of 30 in [0, 150]. */
  lemma EvenScheduleAngle(i: nat)
    requires i % 2 == 0
    ensures (15 * (i % 12)) % 30 == 0 && 0 <= 15 * (i % 12) <= 150
  {
    var q := i % 12;
    assert i == 12 * (i / 12) + q;
    assert q % 2 == 0;
    assert 15 * q == 30 * (q / 2);
  }

  lemma GrassEvenAnglesDistinct(i: nat, j: nat)
    requires i < j < |GrassOffsets| && i % 2 == 0 && j % 2 == 0
    ensures GrassModel(GrassOffsets[i], i).yawDeg != GrassModel(GrassOffsets[j], j).yawDeg
  {
    GrassYaw(GrassOffsets[i], i);
    GrassYaw(GrassOffsets[j], j);
    assert i % 12 == i && j % 12 == j;
  }

  lemma GrassYaw(offset: Vec3, i: nat)
    ensures GrassModel(offset, i).yawDeg == (if i % 2 == 0 then 15 * (i % 12) else 0)
  {
  }

  /** The scene has twelve billboards, so the modulus never wraps: billboard
      i is turned by 15 * i degrees. */
  lemma GrassScheduleOfScene()
    ensures |GrassOffsets| == 12
    ensures forall i | 0 <= i < |GrassOffsets| ::
              GrassModel(GrassOffsets[i], i).yawDeg == (if i % 2 == 0 then 15 * i else 0)
  {
  }
}
