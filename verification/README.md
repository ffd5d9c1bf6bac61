# Shadow-mapped campfire scene: input, persisted state and placement tables

The program renders a campfire scene. It has a ring of mountain instances, a
textured ground plane, grass billboards, a skybox, and omnidirectional shadows
from one point light. Almost all of it is graphics-driver plumbing. This
project models the parts of `src/main.cpp` that are plain sequential logic,
and proves properties about them:

- **Input state machine** (`input.dfy`, module `Input`). Three handlers share
  one state: the shadow flag and its Space-key press latch, the overlay flag,
  the camera–mouse coupling flag, and the last cursor position. Each handler
  is a pure step over that state:
  - `PollSpace` is the Space-key part of `processInput`.
  - `OnKey` is `key_callback`.
  - `OnMouse` is `mouse_callback`.
- **Persisted program state** (`persist.dfy`, module `Persist`).
  - `SaveToFile` writes ten scalars in a fixed order. These are clear colour
    r, g, b, the overlay flag, camera position x, y, z and camera front x, y, z.
  - `LoadFromFile` reads them back in the same order. It does nothing if the
    file is missing, and it stops silently when the tokens run out or the
    bool token fails to extract.
  - A file is modelled as the sequence of numbers its tokens denote.
- **Shadow cube faces** (`cubefaces.dfy`, module `CubeFaces`). The table has
  six (direction, up) pairs that feed the shadow pass's look-at matrices. The
  module checks this table against the cube map image selection table in
  section 8.13 of the OpenGL 4.6 core specification. The sampler uses that
  table to read layer `GL_TEXTURE_CUBE_MAP_POSITIVE_X + i`.
- **Instance placement** (`placement.dfy`, module `Placement`).
  - Each model matrix is built from the identity by right-multiplied
    `scale`/`translate`/`rotate` calls. It is modelled as a triple (uniform
    scale, yaw in degrees, origin).
  - The mountain translate chain appears in both the shadow pass and the
    forward pass.
  - The grass billboard loop scales, translates, then rotates every even
    instance.
- `vectors.dfy` (module `Vectors`) holds exact real 3-vectors and `Option`.

Closing the overlay with F1 does not restore `CameraMouseMovementUpdateEnabled`;
only the cursor mode changes (src/main.cpp:797-806,
`Input.F1TwiceLeavesCameraDecoupled`).

`PollSpace` takes one sample of the Space key per poll. `glfwGetKey` returns
the key state cached by the last `glfwPollEvents`, so the two calls in
`processInput` always agree and one sample per poll is exact.

The input handlers' `ImGuiEnabled` and `CameraMouseMovementUpdateEnabled` are
the program state's fields of the same names: `Input.Initial` takes them from
the loaded `Persist.ProgramState`.

## Model

| member | source | states |
|---|---|---|
| Input.Initial | src/main.cpp:38-46 | The shadow flag (:46) and its latch (:115) start off, the cursor reference is the window centre (400, 300) and the first-event flag is set (:38-40); the overlay and coupling flags are those of the loaded program state |
| Input.StartupCouplesCamera | src/main.cpp:67-111 | After constructing the program state (overlay off at :69, coupling on at :71) and loading the file, the camera starts coupled to the mouse whatever the file held, and the overlay starts off when there is no file |
| Input.PollSpace | src/main.cpp:718-726 | A Space poll sets the latch exactly when the key is down. It flips `shadows` exactly when the key is down and the latch was clear. No other field changes |
| Input.HeldSpaceIsIdle | src/main.cpp:718-722 | With the latch set, a poll that sees Space down leaves the whole state unchanged |
| Input.PollSpaceRunCountsPresses | src/main.cpp:718-726 | Over any run of polls, `shadows` has flipped exactly when the number of presses seen by the polls (rising edges of the sampled key state) is odd. The latch records whether the last poll saw the key down, and nothing else changes |
| Input.PressAndHoldTogglesOnce | src/main.cpp:718-722 | Pressing and holding Space for any number n ≥ 1 of polls from a clear latch toggles `shadows` exactly once |
| Input.HoldingLatchedIsIdle | src/main.cpp:718-722 | Holding Space for any number of polls with the latch set changes nothing |
| Input.PressReleaseCycles | src/main.cpp:718-726 | One release/press/release cycle flips `shadows`. Two cycles restore the original state with the latch clear |
| Input.OnKey | src/main.cpp:797-806 | Only F1 with action PRESS acts; any other key or action leaves the state unchanged and requests no cursor change. F1 flips the overlay. Opening it clears camera–mouse coupling and asks for a normal cursor. Closing it keeps the coupling as it was and asks for a disabled cursor. No other field changes |
| Input.F1TwiceLeavesCameraDecoupled | src/main.cpp:797-806 | From any state, two F1 presses restore the overlay flag but leave the camera decoupled from the mouse, because closing the overlay does not restore the coupling |
| Input.F1RepeatAndReleaseIgnored | src/main.cpp:798 | F1 repeat and release events leave the state unchanged |
| Input.SpaceAndKeyCommute | src/main.cpp:797-806 | The key callback and the Space poll touch disjoint fields, so applying them in either order gives the same state |
| Input.OnMouse | src/main.cpp:739-754 | The first event yields zero offsets. Later events yield x = new − last and y = last − new (reversed). The event becomes the stored position and clears the first-event flag. Offsets reach the camera exactly when coupling is on |
| Input.MouseRunTelescopes | src/main.cpp:739-754 | Over any non-empty run of cursor events, the summed offsets equal the final position minus the starting reference (y reversed). The reference is the first event when none was seen before, otherwise the stored last position |
| Input.OverlayBlocksCamera | src/main.cpp:797-806 | After F1 opens the overlay, the next cursor event does not reach the camera |
| Persist.Fresh | src/main.cpp:67-81 | A new program state has a black clear colour, the overlay off, the camera at (0, 0, 3), coupling on, the backpack at the origin and backpack scale 1 |
| Persist.SaveToFile | src/main.cpp:83-95 | The record has exactly ten scalars. The bool is written as 0 or 1 and is 1 exactly when the overlay is on |
| Persist.StoreField | src/main.cpp:97-111 | Extracting one token writes only its own field; for an integer bool token the bool becomes false for 0 and true otherwise, and the stream stays good unless that integer is not 0 or 1. Unpersisted fields never change |
| Persist.LoadFields | src/main.cpp:97-111 | The chained extraction never changes a field outside the ten saved ones |
| Persist.LoadFromFile | src/main.cpp:97-111 | A missing file leaves the state unchanged. No load touches the light, the backpack, camera–mouse coupling, or the camera's yaw, pitch or zoom |
| Persist.LoadFromFileFieldwise | src/main.cpp:97-111 | Loading writes field f from the f-th token for every f below the number of fields written, and keeps every other field. That number is the token count capped at ten, or four when the bool token is bad |
| Persist.SaveDeterminesPersisted | src/main.cpp:83-95 | Two states with the same saved record agree on clear colour, overlay flag, camera position and camera front |
| Persist.SaveLoadRoundTrip | src/main.cpp:83-111 | Loading the record saved from s into any state t reproduces s's ten saved fields and keeps all of t's other fields |
| Persist.ReloadIsIdentity | src/main.cpp:83-111 | Loading a state's own record into it changes nothing |
| Persist.TruncatedLoadWritesPrefix | src/main.cpp:97-111 | A well-formed record of k < 10 tokens writes exactly the first k fields; the rest keep their prior values |
| Persist.BadFlagStopsLoad | src/main.cpp:97-111 | A bool token at most -1 or at least 2 (integer part neither 0 nor 1) turns the overlay on, keeps the three colour tokens already read, and stops: camera position and front keep their prior values |
| CubeFaces.ShadowLookAts | src/main.cpp:438-449 | There are six look-ats, all with the light as eye. Face i's target minus the eye is that face's direction, and its up vector is the face's up |
| CubeFaces.FaceDirectionsInOrder | src/main.cpp:438-449 | Face directions are +X, −X, +Y, −Y, +Z, −Z in that order. Each up vector is a unit axis orthogonal to its direction, so no look-at is degenerate |
| CubeFaces.FacesAreOrthonormal | src/main.cpp:438-449 | For every face, the forward and side vectors are unit length and orthogonal, and the recomputed up vector equals the table's, so glm's normalisation changes nothing |
| CubeFaces.FacesMatchSelectionTable | src/main.cpp:322-323 | Layer POSITIVE_X + i is a cube-map face target. Its selection-table row has face i's direction as its major axis, face i's side vector as its s axis and face i's up vector as its t axis |
| CubeFaces.ViewMatchesSampling | src/main.cpp:438-449 | For any offset r from the light, face i's view coordinates are (sc, tc, −ma): exactly the coordinates the sampler reads from layer i for direction r |
| CubeFaces.LightIsViewOrigin | src/main.cpp:438-449 | Every face's view maps the light to the view-space origin, and its look-at target to one unit down −z |
| CubeFaces.LayersAreDistinct | src/main.cpp:322-323 | The six allocated layers are distinct targets with distinct face directions |
| Placement.ScaleBy | src/main.cpp:653 | Scaling by k keeps the rotation angle and the origin; for an unrotated transform it maps p to where the old transform maps k·p |
| Placement.Translate | src/main.cpp:654 | Translating by v maps p to where the old transform maps v + p (right multiplication), keeping the scale |
| Placement.RotateY | src/main.cpp:656 | Rotating about +Y keeps origin and scale and adds the angle modulo a full turn |
| Placement.MountainPass | src/main.cpp:467-503 | A pass resets the matrix to the identity and then draws once per step. Draw k has scale 1, no rotation, and origin equal to the sum of the first k + 1 steps |
| Placement.RunningSumIsPrefixSum | src/main.cpp:470-501 | A list of running totals of the steps equals the list of prefix sums |
| Placement.StepsReachOffsets | src/main.cpp:470-501 | The prefix sums of the shadow pass's eight steps are (2.5,0,0), (2.5,0,3), (0,0,3), (−2.5,0,3), (−2.5,0,0), (−2.5,0,−3), (0,0,−3), (2.5,0,−3) |
| Placement.BothPassesAgree | src/main.cpp:560-608 | The shadow pass and the forward pass draw the k-th mountain with the same model matrix, a pure translation to the k-th listed offset |
| Placement.MountainOffsetsDistinct | src/main.cpp:470-501 | The eight mountain positions are pairwise distinct and none is the origin |
| Placement.GrassPass | src/main.cpp:651-660 | There is one draw per offset. Draw i has scale 0.1 and stands at 0.1 × offset i, because the scale comes before the translate. Its yaw is 15·(i mod 12) degrees for even i and 0 for odd i |
| Placement.GrassAngles | src/main.cpp:655-657 | Odd billboards are never rotated. Even ones are rotated by a multiple of 30 degrees in [0, 150] |
| Placement.GrassEvenAnglesDistinct | src/main.cpp:655-657 | The six even billboards of the scene all get different angles |
| Placement.GrassScheduleOfScene | src/main.cpp:359-372 | The scene has twelve billboards, so the modulus never wraps: billboard i is rotated by 15·i degrees when i is even |

## Left out

- All OpenGL, GLFW and ImGui calls. This covers buffer, framebuffer and texture setup, draw calls, `DrawImGui`, window creation, and the cursor-mode calls themselves (`OnKey` only reports which mode it requests).
- The `Camera` class (`learnopengl/camera.h`) is not part of this model. `ProcessMouseMovement`, `ProcessKeyboard` and `ProcessMouseScroll` are opaque. `OnMouse` reports the offsets it hands over and does not model pitch clamping or basis recomputation.
- The other keys in `processInput` (Escape, W/A/S/D) and `scroll_callback` only call into the window or the camera.
- Single- and double-precision rounding. All coordinates, offsets and colours are exact reals, so float↔double conversions in `mouse_callback` and the 6-significant-digit text precision of `SaveToFile` are not modelled. The real round trip is lossy and the model's is exact.
- Textual parsing in `LoadFromFile`: a file is its sequence of numeric tokens. A malformed float token, which zeroes its field and fails the stream, is not representable. An out-of-range float token is representable but is read as an exact real, whereas the stream saturates it and fails.
- Persist.StoreField: the bool token is treated as one whole integer token. The stream reads the bool as an integer that stops at the first non-digit, so non-integer text whose integer part is 0 or 1 is read differently: "0.5" stores false, keeps the stream good and shifts every later field by one token; "1.5" stores true and does the same. Other non-integer text, such as "2.5", stores true and fails the stream, as the model does. For an out-of-range float token in a float field the model stores the exact real and keeps the stream good, while the program stores the saturated value and fails the stream.
- Persist.LoadFromFileFieldwise: inherits the limits of `Persist.StoreField`. Its field count and stored values match the program only when every float token is in range and the bool token is either an integer or a non-integer whose integer part is neither 0 nor 1 (such as "2.5", which the stream reads as 2 and fails on, as the model does).
- Persist.SaveToFile: always produces the record. The `std::ofstream` at src/main.cpp:84 writes nothing when the file cannot be opened, and that failure is not modelled because it changes no program state.
- Persist.BadFlagStopsLoad: requires the bool token to be at most -1 or at least 2, so that its integer part is neither 0 nor 1 and the stream fails on it. A non-integer bool token whose integer part is 0 or 1, such as "0.5", "1.5" or "-0.5", keeps the stream good in the program; the lemma says nothing about those.
- `Persist.Fresh`: the camera's constructor defaults (front, yaw, pitch, zoom) are not shown in the source, and the point light (src/main.cpp:74) has no initialiser and is not set by the constructor, so its initial value is indeterminate; both are parameters.
- glm `perspective` and the full `lookAt` matrix. `ViewCoords` is the look-at without normalisation, which `FacesAreOrthonormal` shows is exact for the six faces.
- The geometry shader that sends face i to layer i is not part of this model. `ViewMatchesSampling` assumes matrix i is used for layer i.
- `Placement.Translate` is defined only for transforms whose yaw is a whole number of turns, so no trigonometry is needed. Every translate in the scene happens before any rotation.
- `Placement.RotateY` keeps the angle in whole degrees. The rotation matrix produced by `glm::rotate` (cos/sin of the angle) is not modelled.
- `loadCubemap` and `loadTexture` are thin wrappers over image loading and GL.
- The time-driven ambient-light animation (uses `cos` of wall-clock time) and the shadow-pass `lightPos / 0.1` uniform, which only shaders not shown here read.
