/// One pass of the render loop, from the input step to the lit scene: the
/// input step updates the globals, the six face matrices are built for the
/// light and uploaded, the scene is drawn into the depth cube map, and then
/// drawn again with lighting. The light position comes in as a parameter
/// (the program derives it from the camera).
module Orchestrator {
  import opened Geometry
  import opened Animation
  import opened InputStep
  import opened Frame
  import opened Scene
  import opened ShadowFaces

  /** What the depth pass sets and draws. */
  datatype ShadowPass = ShadowPass(uniforms: seq<MatrixUniform>, farPlane: int, lightPos: Vec3,
                                   rootModel: Matrix, lightStrength: Vec3, draws: seq<Draw>)

  /** What the lit pass sets and draws. */
  datatype LitPass = LitPass(lightPos: Vec3, shadows: bool, farPlane: int,
                             rootModel: Matrix, lightStrength: Vec3, draws: seq<Draw>)

  /** A frame either renders both passes or never leaves the input step,
      when a reset's retry loop refuses every Icar3 draw it is given. */
  datatype FrameOutput = Rendered(shadow: ShadowPass, lit: LitPass) | StuckInReset

  /** One iteration of the render loop. A rendered frame leaves the globals
      as the input step makes them, keeps them consistent, uploads face
      matrix i as element i of the uniform array, and draws the same eight
      instances, placed by the updated globals, in both passes, with the
      same light position and far plane. */
  method RenderFrame(fs: FrameState, keys: Keys, draws: ResetDraws, lightPos: Vec3) returns (out: FrameOutput)
    requires fs.Valid()
    modifies fs
    ensures fs.Snapshot() == FrameStep(old(fs.Snapshot()), keys, draws).globals
    ensures out.StuckInReset? <==> FrameStep(old(fs.Snapshot()), keys, draws).Stalled?
    ensures out.Rendered? ==>
              && fs.Valid()
              && out.shadow.draws == out.lit.draws == SceneInstances(fs.Placement())
              && out.shadow.lightPos == out.lit.lightPos == lightPos
              && out.shadow.farPlane == out.lit.farPlane == FarPlane
              && out.shadow.rootModel == out.lit.rootModel == Identity
              && out.shadow.lightStrength == out.lit.lightStrength == fs.lightStrength
              && out.lit.shadows == fs.shadows
              && |out.shadow.uniforms| == 6
              && forall i :: 0 <= i < 6 ==>
                   out.shadow.uniforms[i] == ShadowMatrices(i, ProjectedLookAt(ShadowProjection(), lightPos,
                                                                Add(lightPos, Times(1000, Unit(CubeFaces()[i].dir))),
                                                                Unit(CubeFaces()[i].up)))
  {
    var stalled := fs.Step(keys, draws);
    if stalled {
      return StuckInReset;
    }

    var shadowTransforms := BuildShadowTransforms(lightPos);

    var uniforms := SetShadowMatrices(shadowTransforms);
    var depthDraws, depthRoot, depthLight, _, _ := RenderScene(fs.Placement());
    var shadow := ShadowPass(uniforms, FarPlane, lightPos, depthRoot, depthLight, depthDraws);

    var litDraws, litRoot, litLight, _, _ := RenderScene(fs.Placement());
    var lit := LitPass(lightPos, fs.shadows, FarPlane, litRoot, litLight, litDraws);

    out := Rendered(shadow, lit);
  }
}
