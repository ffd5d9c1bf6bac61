/** The shadow pass's six cube faces. Each face is a (direction, up) pair fed
    to a look-at from the light position; face i is rendered into the
    cube-map layer allocated as GL_TEXTURE_CUBE_MAP_POSITIVE_X + i. The
    sampler picks layers and texel coordinates by the cube map image
    selection table of section 8.13 of the OpenGL 4.6 core specification;
    this module states that the table of faces agrees with it. */
module CubeFaces {
  import opened Vectors

  /** The six face targets, consecutive enumerants in the order the
      selection table lists them. */
  const TEXTURE_CUBE_MAP_POSITIVE_X: int := 0x8515
  const TEXTURE_CUBE_MAP_NEGATIVE_X: int := 0x8516
  const TEXTURE_CUBE_MAP_POSITIVE_Y: int := 0x8517
  const TEXTURE_CUBE_MAP_NEGATIVE_Y: int := 0x8518
  const TEXTURE_CUBE_MAP_POSITIVE_Z: int := 0x8519
  const TEXTURE_CUBE_MAP_NEGATIVE_Z: int := 0x851A

  const FaceCount: nat := 6

  datatype Face = Face(direction: Vec3, up: Vec3)

  /** The (direction, up) pairs in the order the shadow transforms are built. */
  const ShadowFaces: seq<Face> := [
    Face(Vec3(1.0, 0.0, 0.0), Vec3(0.0, -1.0, 0.0)),
    Face(Vec3(-1.0, 0.0, 0.0), Vec3(0.0, -1.0, 0.0)),
    Face(Vec3(0.0, 1.0, 0.0), Vec3(0.0, 0.0, 1.0)),
    Face(Vec3(0.0, -1.0, 0.0), Vec3(0.0, 0.0, -1.0)),
    Face(Vec3(0.0, 0.0, 1.0), Vec3(0.0, -1.0, 0.0)),
    Face(Vec3(0.0, 0.0, -1.0), Vec3(0.0, -1.0, 0.0))
  ]

  /** The target the depth cubemap allocates for its i-th layer. */
  function FaceTarget(i: nat): int {
    TEXTURE_CUBE_MAP_POSITIVE_X + i
  }

  /** One row of the selection table for a direction r: the layer is used
      when `major` points along r's largest-magnitude axis, and then
      ma = |Dot(major, r)|, sc = Dot(sAxis, r), tc = Dot(tAxis, r). */
  datatype Selection = Selection(major: Vec3, sAxis: Vec3, tAxis: Vec3)

  /** The selection table, keyed by face target. */
  function CubeMapSelection(target: int): Option<Selection> {
    if target == TEXTURE_CUBE_MAP_POSITIVE_X then
      Some(Selection(Vec3(1.0, 0.0, 0.0), Vec3(0.0, 0.0, -1.0), Vec3(0.0, -1.0, 0.0)))
    else if target == TEXTURE_CUBE_MAP_NEGATIVE_X then
      Some(Selection(Vec3(-1.0, 0.0, 0.0), Vec3(0.0, 0.0, 1.0), Vec3(0.0, -1.0, 0.0)))
    else if target == TEXTURE_CUBE_MAP_POSITIVE_Y then
      Some(Selection(Vec3(0.0, 1.0, 0.0), Vec3(1.0, 0.0, 0.0), Vec3(0.0, 0.0, 1.0)))
    else if target == TEXTURE_CUBE_MAP_NEGATIVE_Y then
      Some(Selection(Vec3(0.0, -1.0, 0.0), Vec3(1.0, 0.0, 0.0), Vec3(0.0, 0.0, -1.0)))
    else if target == TEXTURE_CUBE_MAP_POSITIVE_Z then
      Some(Selection(Vec3(0.0, 0.0, 1.0), Vec3(1.0, 0.0, 0.0), Vec3(0.0, -1.0, 0.0)))
    else if target == TEXTURE_CUBE_MAP_NEGATIVE_Z then
      Some(Selection(Vec3(0.0, 0.0, -1.0), Vec3(-1.0, 0.0, 0.0), Vec3(0.0, -1.0, 0.0)))
    else None
  }

  /** The arguments of one look-at call. */
  datatype LookAt = LookAt(eye: Vec3, center: Vec3, up: Vec3)

  /** The six look-ats of the shadow pass for a light at `lightPos`, one per
      face in table order. */
  function ShadowLookAts(lightPos: Vec3): (r: seq<LookAt>)
    ensures |r| == FaceCount
    ensures forall i | 0 <= i < |r| ::
              && r[i].eye == lightPos
              && Sub(r[i].center, r[i].eye) == ShadowFaces[i].direction
              && r[i].up == ShadowFaces[i].up
  {
    seq(FaceCount, i requires 0 <= i < FaceCount =>
      LookAt(lightPos, Add(lightPos, ShadowFaces[i].direction), ShadowFaces[i].up))
  }

  /** The view-space coordinates of point p under a right-handed look-at:
      forward f = center - eye, side s = f x up, recomputed up u = s x f,
      giving (s.(p - eye), u.(p - eye), -f.(p - eye)). Normalisation is left
      out; FacesAreOrthonormal shows it is the identity for every face. */
  function ViewCoords(l: LookAt, p: Vec3): Vec3 {
    var f := Sub(l.center, l.eye);
    var s := Cross(f, l.up);
    var u := Cross(s, f);
    var d := Sub(p, l.eye);
    Vec3(Dot(s, d), Dot(u, d), -Dot(f, d))
  }

  /** Faces go +X, -X, +Y, -Y, +Z, -Z, and each up vector is a unit axis
      orthogonal to its direction, so no look-at is degenerate. */
  lemma FaceDirectionsInOrder()
    ensures |ShadowFaces| == FaceCount
    ensures ShadowFaces[0].direction == Vec3(1.0, 0.0, 0.0)
    ensures ShadowFaces[1].direction == Vec3(-1.0, 0.0, 0.0)
    ensures ShadowFaces[2].direction == Vec3(0.0, 1.0, 0.0)
    ensures ShadowFaces[3].direction == Vec3(0.0, -1.0, 0.0)
    ensures ShadowFaces[4].direction == Vec3(0.0, 0.0, 1.0)
    ensures ShadowFaces[5].direction == Vec3(0.0, 0.0, -1.0)
    ensures forall i | 0 <= i < FaceCount ::
              && IsUnitAxis(ShadowFaces[i].direction)
              && IsUnitAxis(ShadowFaces[i].up)
              && Dot(ShadowFaces[i].direction, ShadowFaces[i].up) == 0.0
  {
  }

  /** The forward, side and up vectors of a face's look-at are unit length
      and pairwise orthogonal, and the recomputed up vector is the face's
      own, so normalising changes nothing. */
  predicate Orthonormal(face: Face) {
    var f := face.direction;
    var s := Cross(f, face.up);
    && Dot(f, f) == 1.0 && Dot(s, s) == 1.0
    && Dot(f, s) == 0.0
    && Cross(s, f) == face.up
  }

  lemma FaceSideIsUnitAxis(i: nat)
    requires i < FaceCount
    ensures IsUnitAxis(Cross(ShadowFaces[i].direction, ShadowFaces[i].up))
  {
  }

  lemma FaceUpIsRecomputed(i: nat)
    requires i < FaceCount
    ensures var f := ShadowFaces[i].direction;
            Cross(Cross(f, ShadowFaces[i].up), f) == ShadowFaces[i].up
  {
  }

  /** Every face of the table is orthonormal in that sense. */
  lemma FacesAreOrthonormal(i: nat)
    requires i < FaceCount
    ensures Orthonormal(ShadowFaces[i])
  {
    var f := ShadowFaces[i].direction;
    FaceDirectionsInOrder();
    UnitAxisHasUnitLength(f);
    FaceSideIsUnitAxis(i);
    UnitAxisHasUnitLength(Cross(f, ShadowFaces[i].up));
    CrossIsOrthogonal(f, ShadowFaces[i].up);
    FaceUpIsRecomputed(i);
  }

  /** Face i's look-at matches the selection table row of the layer it is
      rendered into: its direction is the row's major axis, its side vector
      the s axis and its up vector the t axis. */
  lemma FacesMatchSelectionTable(i: nat)
    requires i < FaceCount
    ensures CubeMapSelection(FaceTarget(i)).Some?
    ensures var sel := CubeMapSelection(FaceTarget(i)).value;
            && sel.major == ShadowFaces[i].direction
            && sel.sAxis == Cross(ShadowFaces[i].direction, ShadowFaces[i].up)
            && sel.tAxis == ShadowFaces[i].up
  {
  }

  /** What face i's view sees at offset r from the light is what the
      sampler reads from layer i for direction r: view x is sc, view y is
      tc and the depth along -z is the major-axis component. */
  lemma ViewMatchesSampling(lightPos: Vec3, i: nat, r: Vec3)
    requires i < FaceCount
    ensures var sel := CubeMapSelection(FaceTarget(i)).value;
            ViewCoords(ShadowLookAts(lightPos)[i], Add(lightPos, r))
            == Vec3(Dot(sel.sAxis, r), Dot(sel.tAxis, r), -Dot(sel.major, r))
  {
    FacesMatchSelectionTable(i);
    FacesAreOrthonormal(i);
    var l := ShadowLookAts(lightPos)[i];
    assert Sub(Add(lightPos, r), l.eye) == r;
  }

  /** Every face's view takes the light to the view-space origin and its
      look-at target one unit down the view's -z axis. */
  lemma LightIsViewOrigin(lightPos: Vec3, i: nat)
    requires i < FaceCount
    ensures ViewCoords(ShadowLookAts(lightPos)[i], lightPos) == Zero
    ensures ViewCoords(ShadowLookAts(lightPos)[i], ShadowLookAts(lightPos)[i].center)
            == Vec3(0.0, 0.0, -1.0)
  {
    var l := ShadowLookAts(lightPos)[i];
    var f := ShadowFaces[i].direction;
    FacesAreOrthonormal(i);
    assert Sub(l.center, l.eye) == f && l.up == ShadowFaces[i].up;
    assert Sub(lightPos, l.eye) == Zero;
    assert Sub(l.center, l.eye) == f;
  }

  /** The six layers are distinct targets, each with its own major axis. */
  lemma LayersAreDistinct()
    ensures forall i, j | 0 <= i < j < FaceCount ::
              FaceTarget(i) != FaceTarget(j)
              && ShadowFaces[i].direction != ShadowFaces[j].direction
  {
  }
}
