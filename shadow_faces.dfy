/// The six views of the omnidirectional shadow pass. Each face of the depth
/// cube map is rendered through one perspective projection and a look-at
/// view from the light along one signed axis, with an up direction per face.
/// The faces are listed in the cube-map face order of the OpenGL API
/// (GL_TEXTURE_CUBE_MAP_POSITIVE_X + i), and each view is checked against
/// the cube map texture selection rule (Table 8.19 in section 8.13 of the
/// OpenGL 4.6 Core Profile specification) by which the lit pass samples it.
/// The light position is in thousandths.
module ShadowFaces {
  import opened Geometry

  const ShadowWidth: int := 1024
  const ShadowHeight: int := 1024
  const NearPlane: int := 1
  const FarPlane: int := 25

  /** GL_TEXTURE_CUBE_MAP_POSITIVE_X; the other five face targets follow it. */
  const TextureCubeMapPositiveX: int := 0x8515

  /** A perspective projection: field of view in degrees, aspect ratio as a
      fraction, near and far planes. */
  datatype Projection = Perspective(fovDegrees: int, aspectNum: int, aspectDen: int, near: int, far: int)

  /** The one projection all six faces share: a square 90 degree frustum, so
      the six views tile the whole sphere of directions around the light. */
  function ShadowProjection(): (p: Projection)
    ensures p.fovDegrees == 90 && p.aspectNum == p.aspectDen && 0 < p.near < p.far
  {
    Perspective(90, ShadowWidth, ShadowHeight, NearPlane, FarPlane)
  }

  /** A face's look direction from the light and its up direction. */
  datatype Face = Face(dir: Dir, up: Dir)

  /** The six faces, in the order of the cube-map face targets: looking
      along +X, -X, +Y, -Y, +Z and -Z. Every face's up direction is
      perpendicular to its look direction, so each look-at view is well
      defined, and the six look directions are the six signed axes, each
      once: the face looking along d is face FaceIndex(d). */
  function CubeFaces(): (faces: seq<Face>)
    ensures |faces| == 6
    ensures forall i :: 0 <= i < 6 ==> faces[i].dir.axis != faces[i].up.axis
    ensures forall i, j :: 0 <= i < j < 6 ==> faces[i].dir != faces[j].dir
    ensures forall d: Dir :: faces[FaceIndex(d)].dir == d
  {
    [ Face(Dir(XAxis, true), Dir(YAxis, false)),
      Face(Dir(XAxis, false), Dir(YAxis, false)),
      Face(Dir(YAxis, true), Dir(ZAxis, true)),
      Face(Dir(YAxis, false), Dir(ZAxis, false)),
      Face(Dir(ZAxis, true), Dir(YAxis, false)),
      Face(Dir(ZAxis, false), Dir(YAxis, false)) ]
  }

  /** Where the face looking along d sits in the face order. */
  function FaceIndex(d: Dir): (i: nat)
    ensures i < 6
  {
    match d.axis
    case XAxis => if d.positive then 0 else 1
    case YAxis => if d.positive then 2 else 3
    case ZAxis => if d.positive then 4 else 5
  }

  /** For a cube face target, the major axis direction that selects it and
      the directions in which its s and t texture coordinates grow. */
  datatype Selection = Selected(major: Dir, sAxis: Dir, tAxis: Dir) | NotACubeFace

  /** Table 8.19 of the OpenGL 4.6 Core Profile specification, one row per
      cube face target from POSITIVE_X to NEGATIVE_Z: the major axis, the
      direction of sc and the direction of tc. */
  function SelectionTable(): (rows: seq<Selection>)
    ensures |rows| == 6
  {
    [ Selected(Dir(XAxis, true), Dir(ZAxis, false), Dir(YAxis, false)),
      Selected(Dir(XAxis, false), Dir(ZAxis, true), Dir(YAxis, false)),
      Selected(Dir(YAxis, true), Dir(XAxis, true), Dir(ZAxis, true)),
      Selected(Dir(YAxis, false), Dir(XAxis, true), Dir(ZAxis, false)),
      Selected(Dir(ZAxis, true), Dir(XAxis, true), Dir(YAxis, false)),
      Selected(Dir(ZAxis, false), Dir(XAxis, false), Dir(YAxis, false)) ]
  }

  /** The selection rule for a texture target enumerant: exactly the six
      face targets select a face. */
  function CubeMapSelection(target: int): (sel: Selection)
    ensures sel.Selected? <==> TextureCubeMapPositiveX <= target < TextureCubeMapPositiveX + 6
  {
    if TextureCubeMapPositiveX <= target < TextureCubeMapPositiveX + 6
    then SelectionTable()[target - TextureCubeMapPositiveX]
    else NotACubeFace
  }

  /** Face i is rendered where the lit pass samples cube face target
      POSITIVE_X + i: its look direction is the major axis that selects that
      target, its right direction (look x up, as glm::lookAt builds it) is
      the direction in which the target's s coordinate grows, and its up
      direction the one in which t grows. */
  lemma FaceMatchesCubeMapSelection(i: nat)
    requires i < 6
    ensures var f := CubeFaces()[i];
            CubeMapSelection(TextureCubeMapPositiveX + i) == Selected(f.dir, CrossDir(f.dir, f.up), f.up)
  {
  }

  /** A shadow matrix: the projection times a look-at view from `eye` toward
      `center` with the given up vector. `eye` and `center` are points in
      thousandths; `up` is a direction (a signed unit axis, not in
      thousandths), which the look-at normalises, so only its direction counts. */
  datatype ShadowMatrix = ProjectedLookAt(proj: Projection, eye: Vec3, center: Vec3, up: Vec3)

  /** The face matrices in face order: each looks from the light toward the
      point one unit along its face's direction, with its face's up vector,
      through the shared projection. */
  method BuildShadowTransforms(lightPos: Vec3) returns (transforms: seq<ShadowMatrix>)
    ensures |transforms| == 6
    ensures forall i :: 0 <= i < 6 ==>
              transforms[i] == ProjectedLookAt(ShadowProjection(), lightPos,
                                               Add(lightPos, Times(1000, Unit(CubeFaces()[i].dir))),
                                               Unit(CubeFaces()[i].up))
  {
    var shadowProj := ShadowProjection();
    transforms := [];
    transforms := transforms + [ProjectedLookAt(shadowProj, lightPos, Add(lightPos, Vec3(1000, 0, 0)), Vec3(0, -1, 0))];
    transforms := transforms + [ProjectedLookAt(shadowProj, lightPos, Add(lightPos, Vec3(-1000, 0, 0)), Vec3(0, -1, 0))];
    transforms := transforms + [ProjectedLookAt(shadowProj, lightPos, Add(lightPos, Vec3(0, 1000, 0)), Vec3(0, 0, 1))];
    transforms := transforms + [ProjectedLookAt(shadowProj, lightPos, Add(lightPos, Vec3(0, -1000, 0)), Vec3(0, 0, -1))];
    transforms := transforms + [ProjectedLookAt(shadowProj, lightPos, Add(lightPos, Vec3(0, 0, 1000)), Vec3(0, -1, 0))];
    transforms := transforms + [ProjectedLookAt(shadowProj, lightPos, Add(lightPos, Vec3(0, 0, -1000)), Vec3(0, -1, 0))];
  }

  /** A value set on element `index` of the depth shader's `shadowMatrices`
      uniform array. */
  datatype MatrixUniform = ShadowMatrices(index: nat, value: ShadowMatrix)

  /** The loop that uploads the face matrices: element i of the uniform
      array gets transforms[i], for i from 0 to 5. */
  method SetShadowMatrices(transforms: seq<ShadowMatrix>) returns (uniforms: seq<MatrixUniform>)
    requires |transforms| >= 6
    ensures |uniforms| == 6
    ensures forall i :: 0 <= i < 6 ==> uniforms[i] == ShadowMatrices(i, transforms[i])
  {
    uniforms := [];
    for i := 0 to 6
      invariant |uniforms| == i
      invariant forall j :: 0 <= j < i ==> uniforms[j] == ShadowMatrices(j, transforms[j])
    {
      uniforms := uniforms + [ShadowMatrices(i, transforms[i])];
    }
  }
}
