# Race-start scene: a verified model of its per-frame logic

The program draws a short motor-racing scene with OpenGL. Three cars (a generic
F1 car, a Renault and a Merc) sit on a road between two grandstands. A point
light hangs just below the camera, and it casts omnidirectional shadows
through a depth cube map. Each frame the program does four things:

- reads the keyboard (`processInput`);
- builds six view-projection matrices, one per cube-map face;
- draws the scene into the depth cube map;
- draws the scene again with lighting.

This project models that per-frame logic in Dafny and proves properties of it.

- **Input step** (`processInput`):
  - UP advances the three cars along the track at their per-reset rates, until the F1 car or the Renault reaches the track limit.
  - R redraws the rates from `rand()`, retrying the Merc's rate until it is no faster than the F1 car's, and puts the cars back on the grid.
  - Q and E raise and lower the light intensity within [0.1, 0.9].
  - SPACE toggles shadows through a latch, so that one press gives one toggle.
- **Scene composition** (`renderScene`): a stack of model matrices starts from the identity. Each of eight instances pushes a copy of the top, applies its translate and scale (and one rotation), is drawn, and is popped.
- **Shadow cube-face table**: six look directions and up vectors in cube-map face order, all through one 90-degree projection, uploaded as six uniforms.

The program's floats are held as exact integers in thousandths. The offsets start at 0, -5000 and -10200, and the track limit is 34500. A rate `IcarN / 1000` is the integer `IcarN`. The intensity starts at 700, moves in steps of 5 and is clamped to [100, 900].

Each `rand()` call becomes a parameter. A reset receives `ResetDraws(first, second, thirds)`: the draws for Icar1, for Icar2, and for every Icar3 attempt in order. The program's retry loop never ends if every attempt is refused. The model represents that frame as *stalled*: it keeps the draws made so far and does not finish the frame.

Modules:

- `Geometry`: integer vectors and the six signed unit axes, with their right-handed cross product.
- `Animation`: the race-start track and rate draws.
- `Lighting`: the intensity step and the shadow toggle.
- `InputStep`: one input step as a function of the globals.
- `Frame`: the globals as a class whose methods update them in place, proved against `InputStep`.
- `Scene`: the transform stack and the eight draws.
- `ShadowFaces`: the cube-face table, checked against Table 8.19 in section 8.13 of the OpenGL 4.6 Core Profile specification.
- `Orchestrator`: one iteration of the render loop.

## Model

| member | source | states |
|---|---|---|
| Animation.Advance | main.cpp:486-493 | While the F1 car and the Renault are both short of 34.5, every car moves once by its own rate. Otherwise nothing moves. |
| Animation.AdvanceHeldMovesThenStops | main.cpp:486-493 | Holding UP for n frames moves every car k times by its own rate, for some k ≤ n. The guard held before each of those k moves. If k < n, the guard has failed and the cars have stopped. |
| Animation.StoppedCarsStayPut | main.cpp:486-493 | Once the F1 car or the Renault has reached 34.5, holding UP changes nothing. |
| Animation.HeldAdvanceOvershootsLessThanATenth | main.cpp:486-493 | Take rates in [0.030, 0.099] and guarded cars that start below the limit plus their rate. Then no car ever moves backwards, and the F1 car and the Renault stay below 34.5 plus their own rate, so below 34.6. |
| Animation.DrawRate | main.cpp:496-497 | `rand() % 70 + 30` lies in [30, 99]. |
| Animation.DrawThird | main.cpp:498-500 | `rand() % Icar1 + 30` lies in [30, Icar1 + 29]. Icar1 > 0 is required, so the divisor is positive. |
| Animation.FirstFit | main.cpp:498-501 | The retry loop stops at the first accepted draw (≤ Icar1). Every earlier draw was refused. The result is the number of draws when none is accepted. |
| Animation.FirstFitIsFirstAccepted | main.cpp:498-501 | The stopping index is unique: any k with every draw before it refused, and its own draw (if any) accepted, is FirstFit. |
| Animation.LaunchRates | main.cpp:54-59 | The launch draws put Icar1 and Icar2 in [30, 99] and Icar3 in [30, Icar1 + 29]. |
| Animation.LaunchMayBreakOrdering | main.cpp:54-59 | Launch skips the retry loop, so the launch rates can break car3 ≤ car1: draws 0, 0, 29 give Icar1 = 30 and Icar3 = 59. |
| Lighting.LightStep | main.cpp:510-520 | One frame of Q/E moves the intensity by at most one 0.005 step on all channels. It goes up only with Q held and down only with E held, and is unchanged with neither. On the 0.005 grid, an intensity at most 0.9 stays at most 0.9, and one at least 0.1 stays at least 0.1. |
| Lighting.LightStepKeepsRange | main.cpp:510-520 | Suppose the channels are equal, on the 0.005 grid and within [0.1, 0.9]. Then one frame of Q/E keeps them so. |
| Lighting.LightRunInRange | main.cpp:510-520 | From any intensity in range (0.7 in particular), any sequence of Q/E frames stays in range. |
| Lighting.RaiseHeldClampsAtMax | main.cpp:510-514 | Holding Q for k frames from a grey v in range gives the grey min(v + 0.005k, 0.9). |
| Lighting.LowerHeldClampsAtMin | main.cpp:516-520 | Holding E for k frames from a grey v in range gives the grey max(v − 0.005k, 0.1). |
| Lighting.BothKeysCancelBelowMax | main.cpp:510-520 | With Q and E both held, an intensity below 0.9 is unchanged. At exactly 0.9 it drops one step, because the raise is refused and the lower is not. |
| Lighting.Debounce | main.cpp:531-539 | After a frame, the latch equals the space key's state. The flag changes exactly when space is pressed while the latch is clear. |
| Lighting.FlipsArePressEdges | main.cpp:531-539 | Over any key sequence, the number of flips equals the number of press edges. The final flag is the initial flag xor their parity. The final latch is the last key state. |
| Lighting.PressEdgesAppend | main.cpp:531-539 | The press edges of a concatenation are the edges of each part, with the second part starting from the first part's last key. |
| Lighting.SteadyKeyHasOneEdge | main.cpp:531-539 | A key held for k ≥ 1 frames has one press edge if it was up before, and none otherwise. A released key has none. |
| Lighting.HoldFlipsOnce | main.cpp:531-539 | From a clear latch, holding space for k ≥ 1 frames flips the flag exactly once. |
| Lighting.PressReleasePressFlipsTwice | main.cpp:531-539 | From a clear latch, press, release, press flips the flag twice and restores it. |
| InputStep.Launch | main.cpp:31-59 | The initialisers give a consistent state. The cars are on the grid, the intensity is 0.7, shadows are on and the latch is clear. |
| InputStep.AdvanceStep | main.cpp:486-493 | With UP held, the Z offsets take the guarded advance, and they stay put otherwise. The X and Y offsets, the draws, the rates, the light and the toggle are unchanged. |
| InputStep.ResetStep | main.cpp:495-508 | A reset stalls exactly when FirstFit finds no accepted Icar3 draw, that is, when every draw exceeds Icar1. A completed reset puts the Z offsets on the grid and keeps X and Y. It draws Icar1 and Icar2 in [30, 99] and 30 ≤ Icar3 ≤ Icar1, and sets the rates to the draws. A stalled reset moves no car and keeps the old rates. Neither touches the light or the toggle. |
| InputStep.ControlsStep | main.cpp:510-539 | Only the light and the toggle change. An intensity in range stays in range, and the latch ends equal to the space key. |
| InputStep.FrameStep | main.cpp:474-540 | Only a reset can stall. No frame changes an X or Y offset. A completed reset frame ends on the grid. Every completed frame gives the light its Q/E step and the toggle its space-key step. |
| InputStep.FrameStepKeepsConsistent | main.cpp:474-540 | A frame that completes keeps the globals consistent: rates in range, Icar3 < Icar1 + 30, rates equal to the draws, no car behind its grid slot, guarded cars below limit plus rate, intensity in range. |
| InputStep.StallsOnlyWhenEveryDrawIsRefused | main.cpp:495-501 | A frame stalls if and only if R is pressed and every Icar3 draw given to the retry loop exceeds Icar1. |
| InputStep.ResetFrameRestartsTheRace | main.cpp:486-508 | A completed R frame sets the Z offsets to exactly 0, −5 and −10.2, even with UP held, since advance runs first. It draws Icar1 and Icar2 in [30, 99] and 30 ≤ Icar3 ≤ Icar1, and sets the rates to the draws. X/Y offsets are unchanged, and the light and toggle take their own steps. |
| InputStep.ResetTwiceGivesTheSameTrack | main.cpp:495-508 | Two R frames in a row both leave the cars on the grid, and both satisfy Icar3 ≤ Icar1. |
| InputStep.AdvanceFrameNeverMovesBack | main.cpp:486-493 | Without R, a frame never stalls. The new globals are the old ones with the Z offsets moved by the guarded advance (UP held) or kept, the light given its Q/E step and the toggle its space-key step. No car moves backwards. |
| Frame.FrameState.constructor | main.cpp:31-59 | The object's fields are the launch state, which is consistent. |
| Frame.FrameState.Step | main.cpp:474-540 | Updates the fields in place to the whole-frame step of the old state. It reports a stall exactly when the step stalls, and keeps the object consistent otherwise. |
| Frame.FrameState.AdvanceCars | main.cpp:486-493 | The in-place advance equals the advance step of the old state. |
| Frame.FrameState.ResetCars | main.cpp:495-508 | The in-place reset equals the reset step of the old state, including the stalled case. |
| Frame.FrameState.RetryThird | main.cpp:498-501 | The while loop accepts exactly when FirstFit is in range. Icar3 is then the FirstFit draw. Otherwise Icar3 is the last refused draw (unchanged if there were none). |
| Frame.FrameState.RestartRace | main.cpp:502-507 | The rates take the new draws, the Z offsets return to the grid, and nothing else changes. |
| Frame.FrameState.StepControls | main.cpp:510-539 | The in-place intensity and toggle updates equal the control step of the old state. |
| Scene.SceneInstances | main.cpp:350-468 | Eight draws in order: F1Generic, Renault, Merc, three Roads, two Grandstands. Each model matrix ends in a translate then a scale. The only rotation is the first grandstand's 180° turn about Y, applied first. The cars are translated by their offsets, the roads by z = −8, 10, 28 with scale (150, 100, 150), and the grandstands share a scale and differ only in z. |
| Scene.TransformStack.constructor | main.cpp:345 | A new stack is empty, and its depth is within its peak. |
| Scene.TransformStack.Push | main.cpp:346-351 | Appends a matrix and tracks the greatest depth, so the depth stays within the peak. |
| Scene.TransformStack.Apply | main.cpp:354-356 | Replaces the top by the top with one more transform applied on the right. The depth stays within the peak. |
| Scene.TransformStack.Pop | main.cpp:362 | Removes the top. The depth stays within the peak. |
| Scene.PlaceInstance | main.cpp:351-362 | One instance block starts and ends with only the identity on the stack, reaches depth 2, and draws its mesh with translate then scale. |
| Scene.PlaceTurnedInstance | main.cpp:445-456 | As PlaceInstance, with the 180° Y rotation before the translate. |
| Scene.RenderScene | main.cpp:341-469 | The draws are exactly SceneInstances of the current offsets. The root model uniform is the identity, and the lightStrength uniform is the current intensity. The stack ends holding only the identity and never exceeds depth 2. |
| ShadowFaces.ShadowProjection | main.cpp:267-269 | One square 90° projection with 0 < near < far. |
| ShadowFaces.CubeFaces | main.cpp:271-276 | Six faces. Each up direction is perpendicular to its look direction. The look directions are pairwise distinct and cover all six signed axes, in the order +X, −X, +Y, −Y, +Z, −Z. |
| ShadowFaces.CubeMapSelection | main.cpp:147-148 | Exactly the six targets POSITIVE_X + i select a cube face. |
| ShadowFaces.FaceMatchesCubeMapSelection | main.cpp:271-276 | Face i is rendered where the cube-map lookup of target POSITIVE_X + i samples. Its look direction is that target's major axis, look × up is its s direction, and up is its t direction. |
| ShadowFaces.BuildShadowTransforms | main.cpp:269-276 | Matrix i looks from the light to light + face i's direction, with face i's up vector, through the shared projection. |
| ShadowFaces.SetShadowMatrices | main.cpp:284-285 | Element i of `shadowMatrices` receives matrix i, for i = 0..5. |
| Orchestrator.RenderFrame | main.cpp:253-309 | Runs the input step, then both passes, unless the frame stalls. Both passes draw identical instance lists (those of the updated globals) with the same light position, far plane 25, identity root model and intensity. The lit pass reads the updated shadow flag, and uniform i holds face i's matrix. |

## Left out

- Window and context set-up, callbacks, the escape key and the render-loop exit: these are GLFW event plumbing.
- Framebuffers, textures, the skybox and its draw, `loadTexture` and `loadCubemap`: graphics-API state and image-file input.
- Camera movement (LEFT_SHIFT, W/A/S/D), the mouse and scroll callbacks, and the camera's view and projection matrices: `learnopengl/camera.h` is not part of this model.
- The light position is a parameter of `Orchestrator.RenderFrame`. The program computes it as the camera position plus (0, −2, 0) in floating point.
- glm's `translate`, `scale`, `rotate`, `lookAt` and `perspective` are not computed. Matrices are lists of transforms, and shadow matrices are records of their arguments.
- The depth comparison and shadow bias live in shader files that are not part of this model.
- `deltaTime` and `Model::Draw` are wall-clock and foreign-library calls. A draw is recorded as (mesh, model matrix).
- Float rounding of the offsets, rates and intensity is not modelled. The model's thousandths are exact, whereas the program's floats may drift (for example, one extra 0.005 step past 0.9).
- Frame.FrameState.Step: a reset whose Icar3 draws are all refused stands for the program's endless retry loop. The model stops the frame there, which is weaker than non-termination.
- Frame.FrameState.RetryThird: the endless `rand()` stream is a finite list of draws.
- Orchestrator.RenderFrame: the cube-map sampling in the lit pass happens in a shader. The model relates the faces to the OpenGL selection table instead.
