# Gesture-driven particle Christmas tree: a verified model of the simulation

This project models the simulation core of a web scene: a Christmas tree made of
about twenty thousand glowing points, ornaments, a star, falling snow and
floating photo cards.

The user's hand, as seen by a webcam hand tracker, controls the scene:
- A closed fist (fingertips near the wrist) asks the particles to form the tree.
- An open hand scatters them.
- Moving the hand sideways while the tree is formed spins the tree with inertia.
- Raising or lowering the hand tilts it.

Every frame, a per-frame step blends a `morph` value between 0 (scattered) and 1
(tree). Each layer then places its particles between a "tree" anchor and a
"scatter" anchor drawn once at start-up. The overlay holds the photo list, the
music title and two sliders.

The model covers these parts:
- **HandTracking**: the tracker's result callback. Openness is the mean
  wrist-to-fingertip distance; the hand position is the mirrored, normalised
  midpoint of the wrist and the middle knuckle. When the hand is absent,
  openness recovers and the position decays.
- **App**: the mode threshold and the initial configuration.
- **Scene**: the per-frame tick. It covers the morph lerp; the impulse, damping,
  clamp and snap of the angular velocity; yaw, pitch and scale; the hand history;
  and the single focused-photo index.
- **Polaroid**: the focus toggle, the photo-card anchors, and the per-frame
  choice of target position and scale with their lerp rates. A card is keyed
  by its URL and position, so a card that survives a change of the photo count
  keeps its texture and transforms but draws new anchors (`Reanchor`).
- **Ornaments**, **Foliage**, **TopStar**, **Snow**: each layer's generation loop,
  its frame update or shader formula, and the wind filters driven by the
  tree's spin.
- **UI**: the photo list edits, the extension strip for music titles, and the
  music and panel toggles.

Modelling conventions:
- All quantities are `real`.
- Each `Math.random()` draw is a parameter in `[0, 1)`.
- Each angle is a pair `(cos, sin)`; where needed it is constrained to the unit
  circle or to `[-1, 1]`.
- `Math.sin`, `Math.cos` and `Math.sqrt` are passed in as functions.
- `Math.PI` is the decimal 3.141592653589793.
- three.js `lerp` and GLSL `mix` are `Numerics.Lerp`. GLSL `mod` is
  `x - y * floor(x / y)`.

Each file follows the source's own form:
- Frame callbacks that mutate refs, meshes and uniforms become classes with
  `modifies` clauses.
- Loops that fill `Float32Array` buffers become `for` loops over Dafny arrays.
  One write method per iteration states exactly which slots it changes.
- Pure formulas become functions, with lemmas about them.

Where the code and its design description differ, the model follows the code:
- The morph step is `lerp(morph, target, delta * 2)` and is not clamped. The
  lemmas about it therefore require `0 <= 2 * delta <= 1`.
- Removing a photo does not adjust the focused index. The focus stays
  positional: after a removal it can name the next photo or point past the end
  (`UI.FocusAfterRemoval`).
- The photo, star and ornament anchors use the heights the code draws, which
  are narrower than the full tree height: `TREE_HEIGHT - 2`, a fixed apex, and
  `TREE_HEIGHT - 1`.

## Model

| member | source | states |
|---|---|---|
| Types.TreeState.Value | types.ts:8-11 | The enum's numeric value is 0 or 1, and it is 1 exactly for the tree state. |
| Types.RadiusRatio | components/FoliageLayer.tsx:93 | The cone's radius ratio at height h lies in [0, 1] for heights on the tree. It falls linearly with height: ratio + h / TREE_HEIGHT is always 1/2. |
| Numerics.GlslMod | components/SnowLayer.tsx:31 | GLSL `mod` by a positive period always lands in [0, period). |
| Numerics.LerpGap | components/Scene.tsx:34 | One lerp step with factor t leaves exactly (1 - t) of the gap to the target. |
| Numerics.LerpIterGap | components/Scene.tsx:34 | After n lerp steps towards the same target with the same factor t, the gap to the target is (1 - t)^n times the initial gap. |
| Numerics.LerpInInterval | components/FoliageLayer.tsx:136-140 | A lerp with factor in [0, 1] between two points of an interval stays in that interval. |
| Geometry.LerpVec | components/TopStar.tsx:71 | Vector lerp returns the start at t = 0 and the end at t = 1. |
| Geometry.CylindricalRadius | components/FoliageLayer.tsx:97-99 | A point `(r cos θ, h, r sin θ)` with a unit angle has horizontal distance² r² from the axis and height h. |
| Geometry.SpherePointRadius | components/FoliageLayer.tsx:107-109 | A point `sr (cos φ cos λ, cos φ sin λ, sin φ)` with unit angles lies at distance² sr² from the origin. |
| HandTracking.DistanceNonNegative | hooks/useHandTracking.ts:64-68 | With a non-negative square root, every wrist-to-fingertip distance is non-negative. |
| HandTracking.TipDistanceSumNonNegative | hooks/useHandTracking.ts:61-69 | The accumulated distance over any list of fingertips is non-negative. |
| HandTracking.FingertipSum | hooks/useHandTracking.ts:59-69 | The accumulated total is the sum of the distances from landmark 0 to landmarks 8, 12, 16 and 20. |
| HandTracking.Openness | hooks/useHandTracking.ts:59-72 | The accumulating loop returns the sum of the four fingertip distances divided by 4. This average is non-negative when the square root is. |
| HandTracking.HandCenterInRange | hooks/useHandTracking.ts:81-90 | The hand position is the mirrored midpoint `(1 - (wx + kx), (wy + ky) - 1)` of wrist and knuckle. It lies in [-1, 1]² whenever the landmarks are in [0, 1]. |
| HandTracking.RecoverOpenness | hooks/useHandTracking.ts:94 | With no hand, openness never exceeds 1 and never decreases from a value at most 1. Each step either reaches 1 or adds 0.05. |
| HandTracking.RecoverOpennessClosedForm | hooks/useHandTracking.ts:94 | After n absent frames, openness is min(prev + 0.05 n, 1). |
| HandTracking.RecoverFromAboveOne | hooks/useHandTracking.ts:94 | An openness above 1 is capped to exactly 1 by the first absent frame and stays 1. |
| HandTracking.RecoveryReachesOpen | hooks/useHandTracking.ts:94 | From any non-negative openness, 20 absent frames bring it to exactly 1. |
| HandTracking.DecayHand | hooks/useHandTracking.ts:96-99 | With no hand, each coordinate of the position keeps its sign and does not grow. A non-zero position strictly shrinks. |
| HandTracking.HandTracker.constructor | hooks/useHandTracking.ts:7-8 | The tracker starts fully open (openness 1) with the hand at (0, 0). |
| HandTracking.HandTracker.OnResults | hooks/useHandTracking.ts:53-101 | With a hand, openness becomes the fingertip average and the position becomes the normalised centre. Without one, openness recovers and the position decays. Non-negative openness stays non-negative. |
| App.TargetState | App.tsx:21 | The target is the tree exactly when the pinch distance is below 0.2, and scattered exactly when it is at least 0.2. |
| App.IsPinched | App.tsx:50 | The overlay's pinch flag is true exactly when the openness is below the 0.2 threshold. |
| App.ThresholdBoundary | App.tsx:21 | A distance of exactly 0.2 scatters; distances just below it form the tree. |
| App.InitialModeIsScattered | App.tsx:21 | The tracker's initial openness of 1 yields the scattered mode and no pinch. |
| App.LostHandScatters | App.tsx:21 | Once the hand has been absent for four frames, the mode is scattered from any non-negative openness, including values above 1. |
| App.AppState.constructor | App.tsx:12-16 | The configuration starts with both scales at 1, no photos, and the default music source and title. |
| App.AppState.SetTreeScale | components/UI.tsx:298-304 | A tree-scale value from the slider's [0.5, 1.5] range is stored, and nothing else changes. |
| App.AppState.SetPhotoScale | components/UI.tsx:278-284 | A photo-scale value from the slider's [0.5, 2.0] range is stored, and nothing else changes. |
| Scene.MorphStepApproach | components/Scene.tsx:34 | For 0 <= 2 delta <= 1, one morph step stays in [0, 1], leaves exactly (1 - 2 delta) of the gap to the target, and moves towards it. |
| Scene.MorphIsLerpIter | components/Scene.tsx:34 | n morph steps towards a fixed target are n lerps with factor 2 delta. |
| Scene.MorphGap | components/Scene.tsx:34 | After n steps the gap to the target is (1 - 2 delta)^n times the initial gap, whatever the sign of the gap. |
| Scene.MorphRange | components/Scene.tsx:34 | For 0 <= 2 delta <= 1, a morph that starts in [0, 1] stays in [0, 1] for any number of steps. |
| Scene.MorphConverges | components/Scene.tsx:34 | After n steps, morph is still in [0, 1] and its gap to the target is (1 - 2 delta)^n times the initial gap. |
| Scene.FormingFromScattered | components/Scene.tsx:34 | Forming from the scattered state, morph is 1 - (1 - 2 delta)^n after n frames. |
| Scene.Kick | components/Scene.tsx:37-54 | The velocity changes before damping only in tree mode with \|dx\| > 0.001, and then by exactly 5 dx. |
| Scene.Settle | components/Scene.tsx:56-63 | Damping, clamping and snapping give a velocity in [-5, 5] that is 0 or at least 0.001 in size. Its size is at most 0.95 of the old size, and its sign never flips. Within range and above the rest speed, it is exactly 0.95 v. |
| Scene.GlideMonotone | components/Scene.tsx:57-63 | Without impulses, the speed is non-increasing frame by frame and the sign is preserved. |
| Scene.SettleWithin | components/Scene.tsx:57-63 | A velocity within c settles to within 0.95 c. |
| Scene.GlideBoundIsPow | components/Scene.tsx:57 | The damping envelope after n frames is 0.95^n times the start. |
| Scene.GlideDecay | components/Scene.tsx:57-63 | Without impulses, the speed after n frames is within 0.95^n of the initial speed. |
| Scene.GlideBoundAntitone | components/Scene.tsx:57 | The damping envelope shrinks as frames pass. |
| Scene.GlideBoundAtRest | components/Scene.tsx:57-63 | From any speed up to 5, the envelope after 167 frames is below the 0.001 rest speed. |
| Scene.GlideBoundAboveRest | components/Scene.tsx:57-63 | From full speed 5, the envelope after 166 frames is still at or above the rest speed. |
| Scene.RestWithin167 | components/Scene.tsx:57-63 | Without impulses, any velocity in [-5, 5] is exactly 0 after 167 frames and stays 0. |
| Scene.GlideFromFullSpeed | components/Scene.tsx:57-63 | From full speed, the first 166 frames apply pure damping: the velocity is 5 · 0.95^n. |
| Scene.RestBoundIsTight | components/Scene.tsx:57-63 | From full speed, the tree still spins after 166 frames and has stopped after 167, so 167 is the exact bound. |
| Scene.PitchStaysBounded | components/Scene.tsx:70-75 | For a hand height in [-1, 1], the pitch stays in [-0.3, 0.3] and leaves (1 - 2 delta) of the gap to 0.3 times the hand height. |
| Scene.ScaleStaysInSliderRange | components/Scene.tsx:78-80 | With the slider in [0.5, 1.5], the group scale stays in that range and leaves (1 - 5 delta) of its gap to the slider. |
| Scene.TickBounds | components/Scene.tsx:56-67 | After any tick the velocity meets the spin invariant, so the yaw moves by at most 5 delta. |
| Scene.NoImpulseOnlySettles | components/Scene.tsx:37-63 | When scattered or with \|dx\| <= 0.001, the velocity changes only by damping, clamp and snap. |
| Scene.SceneState.constructor | components/Scene.tsx:24-30 | The scene starts scattered (morph 0), at rest, unrotated, at scale 1, with no focus, and remembers the initial hand x. |
| Scene.SceneState.Tick | components/Scene.tsx:32-85 | One frame moves morph by the morph step, applies impulse then settling to the velocity, and sets the drag flag only in tree mode. It advances yaw by velocity times delta, steps pitch and scale, records the hand x, and keeps the focus and the spin invariant. |
| Scene.SceneState.ToggleFocus | components/PolaroidLayer.tsx:231-238 | A click toggles the single focused index and changes nothing else in the scene. |
| Polaroid.Toggle | components/PolaroidLayer.tsx:233-237 | Clicking the focused photo clears the focus; clicking any other photo focuses it. |
| Polaroid.FocusFlags | components/PolaroidLayer.tsx:242-250 | Each card's focus flag is true exactly when its index is the focused one. |
| Polaroid.AtMostOneFocused | components/PolaroidLayer.tsx:250 | Among n cards exactly one is focused if the index is in range, otherwise none. |
| Polaroid.ToggleTwiceUnfocuses | components/PolaroidLayer.tsx:233-237 | From no focus, one click on a card focuses it and a second click unfocuses it. |
| Polaroid.ToggleMovesFocus | components/PolaroidLayer.tsx:233-237 | Clicking a different card moves the focus to it in one step, and the old card is no longer focused. |
| Polaroid.ClicksFocusLastOrNothing | components/PolaroidLayer.tsx:233-237 | After any clicks, either nothing is focused or the last-clicked card is. |
| Polaroid.RepeatedClicks | components/PolaroidLayer.tsx:233-237 | n clicks on one card from no focus leave it focused exactly when n is odd. |
| Polaroid.AnchorRanges | components/PolaroidLayer.tsx:48-87 | The tree anchor's height is in [-5, 5) and its radius ratio in (1/12, 11/12]. It sits at exactly (TREE_RADIUS + 1.2) times that ratio from the axis. The gallery anchor is in [-15, 15) × [-8, 8) × [10, 25); float speed and amplitude are in [0.5, 1). |
| Polaroid.FloatBounded | components/PolaroidLayer.tsx:140-145 | The gallery float moves a card by at most its amplitude in x and y and half of it in z. |
| Polaroid.PositionRate | components/PolaroidLayer.tsx:161-184 | The position lerp factor is 0.2 for the focused card and 0.05 otherwise, a proper fraction either way. |
| Polaroid.TargetScaleCases | components/PolaroidLayer.tsx:99-150 | The target scale is 8/3 when focused, 1.2 times the slider when hovered in the gallery, and the slider otherwise. With the slider in [0.5, 2] it stays in [0.5, 8/3]. |
| Polaroid.FrameTargetSelection | components/PolaroidLayer.tsx:106-180 | While morphing, an unfocused card aims at the straight blend of its anchors, ignoring float and hover. Fully scattered it aims at the floating gallery spot; fully formed, at its tree anchor; focused, at the focus placement. |
| Polaroid.PositionApproach | components/PolaroidLayer.tsx:163-184 | Each frame, every coordinate closes its position-rate share of the gap to the target. |
| Polaroid.FrameScaleProperties | components/PolaroidLayer.tsx:101 | The frame width is 1 at aspect 1, grows strictly with the aspect, and is positive for positive aspects. |
| Polaroid.PolaroidItem.constructor | components/PolaroidLayer.tsx:27-29 | A new card holds its anchors, has no texture, aspect 1 and no hover, and sits at the origin at scale 1. |
| Polaroid.PolaroidItem.Reanchor | components/PolaroidLayer.tsx:48-87 | When the photo count changes under a card that keeps its key, its anchors are drawn afresh, and its texture, hover state and transforms are kept. |
| Polaroid.PolaroidItem.TextureLoaded | components/PolaroidLayer.tsx:33-38 | Loading marks the card loaded. The aspect becomes width / height only when both are non-zero. |
| Polaroid.PolaroidItem.SetHovered | components/PolaroidLayer.tsx:201-202 | Pointer over and pointer out set the hover flag and nothing else. |
| Polaroid.PolaroidItem.Frame | components/PolaroidLayer.tsx:91-195 | An unloaded card is inert. A loaded one moves towards its frame target at its position rate, and lerps its scale and its frame and photo widths by 0.1. |
| Ornaments.AnchorRanges | components/OrnamentsLayer.tsx:24-41 | The tree anchor's height is in [-5.5, 5.5). Its radius is in [0.8, 1.3) times TREE_RADIUS times the radius ratio, at exactly that horizontal distance. The scatter radius is in [12, 19.5), at exactly that distance from the origin. |
| Ornaments.TreeAnchorRanges | components/OrnamentsLayer.tsx:25-29 | The tree anchor's height is in [-5.5, 5.5). The cone's radius ratio there is in (1/24, 23/24]. The anchor radius is in [0.8, 1.3) times TREE_RADIUS times that ratio, and the anchor lies exactly that far from the axis. |
| Ornaments.GenerateAnchors | components/OrnamentsLayer.tsx:24-46 | The loop yields four lists of length count. Entry i of each is computed from draw i. |
| Ornaments.FloatBounded | components/OrnamentsLayer.tsx:71-74 | The bob is at most 0.2. The instance sits at the blend of its anchors raised by the bob, and at the scatter or tree anchor when morph is 0 or 1. |
| Ornaments.ScaleRange | components/OrnamentsLayer.tsx:80-81 | For morph in [0, 1], the instance scale lies in [0.4, 1.2] times the base scale, and at least 0.8 times it once formed. |
| Ornaments.SpinSettlesWhenFormed | components/OrnamentsLayer.tsx:76-78 | Fully formed, only the y rotation advances with time. Scattered, all three axes spin. |
| Ornaments.PlaceInstance | components/OrnamentsLayer.tsx:71-81 | One pass of the frame loop produces exactly the instance transform: the anchors blended by morph and raised by the bob, the base rotation advanced per axis, and the pulsing scale shrunk by the morph. |
| Ornaments.OrnamentsLayer.constructor | components/OrnamentsLayer.tsx:16-47 | The layer holds the generated anchors for its count and starts with identity instances. |
| Ornaments.OrnamentsLayer.InitialLayout | components/OrnamentsLayer.tsx:49-58 | Every instance gets the reused dummy moved to its scatter anchor. |
| Ornaments.OrnamentsLayer.Frame | components/OrnamentsLayer.tsx:60-86 | Every slot 0..count-1 is written with its blended, bobbing, spinning, pulsing transform. The dummy ends as the last slot's transform. |
| Foliage.AnchorRanges | components/FoliageLayer.tsx:91-115 | The tree anchor's height is in [-6, 6), with radius in [0, TREE_RADIUS · ratio) at exactly that horizontal distance. The scatter radius is in [7.5, 15), at exactly that distance. Sizes are in [0.5, 2). |
| Foliage.TreePoint | components/FoliageLayer.tsx:92-99 | The loop's tree computation yields the tree anchor of its draws. |
| Foliage.ScatterPoint | components/FoliageLayer.tsx:101-109 | The loop's scatter computation yields the scatter anchor of its draws. |
| Foliage.WritePoint | components/FoliageLayer.tsx:97-116 | One iteration writes point i of all five buffers from its draw and leaves every other slot unchanged. |
| Foliage.Generate | components/FoliageLayer.tsx:91-117 | Every point's tree, scatter and current position, size and random are written from its own draw. The initial positions equal the scatter anchors. |
| Foliage.VertexFormed | components/FoliageLayer.tsx:30-53 | The opacity lies in [0.7, 1] and is 1 when formed. Once formed, the drift is gone and the point sits at its tree anchor, moved only by breath and wind. |
| Foliage.WindEffectBounded | components/FoliageLayer.tsx:38 | With the wind within the spin bound and the point on the tree, the shear is at most 6. |
| Foliage.WindStepBounded | components/FoliageLayer.tsx:136-140 | One wind step keeps the uniform within 5 and closes 10% of the gap to the spin. |
| Foliage.WindStaysBounded | components/FoliageLayer.tsx:136-140 | Fed by velocities from the tick, the wind uniform never leaves [-5, 5]. |
| Foliage.FoliageLayer.constructor | components/FoliageLayer.tsx:7-13 | The layer's buffers hold FOLIAGE_COUNT generated points, each from its own draw, with the uniforms at their initial values. |
| Foliage.FoliageLayer.Frame | components/FoliageLayer.tsx:128-142 | The frame copies time and morph, caps the pixel ratio at 2, and smooths the wind, keeping it within 5. |
| TopStar.TreeAnchor | components/TopStar.tsx:16 | The star's tree anchor is (0, TREE_HEIGHT / 2 + 0.8, 0) = (0, 6.8, 0). |
| TopStar.ScatterAnchorRanges | components/TopStar.tsx:19-24 | The scatter anchor's x and z lie in [-7.5, 7.5) and y in [2.5, 17.5). |
| TopStar.RadiusAt | components/TopStar.tsx:37 | Even vertices are tips at radius 0.8; odd ones are notches at 0.4. |
| TopStar.Outline | components/TopStar.tsx:33-44 | The outline has 10 vertices: the top point (0, 0.8), then vertex i at angle i π / 5 with its radius. |
| TopStar.StartIsVertexZero | components/TopStar.tsx:34-42 | The starting point is the loop's formula at i = 0. |
| TopStar.VertexRadius | components/TopStar.tsx:38-42 | Every vertex lies at its radius from the centre. |
| TopStar.PulseScaleRange | components/TopStar.tsx:79-81 | The pulsing scale stays in [0.51, 1.15]. Formed it is the bare pulse; scattered it is 60% of it. |
| TopStar.Star.constructor | components/TopStar.tsx:14-24 | The star holds its two anchors and starts unrotated at the origin at scale 1. |
| TopStar.Star.Frame | components/TopStar.tsx:64-81 | The star sits at the blend of its anchors, spins at 1 rad/s and wobbles within ±0.1. Its scale pulses within [0.51, 1.15]. |
| Snow.DrawRanges | components/SnowLayer.tsx:92-104 | A flake starts 2 to 17 from the axis, at a height in [-10, 30), with a size in [0.2, 0.7). |
| Snow.WriteFlake | components/SnowLayer.tsx:96-104 | One iteration writes flake i of the three buffers and nothing else. |
| Snow.Generate | components/SnowLayer.tsx:85-108 | Every flake slot of the position, random and size buffers is written from its own draw. |
| Snow.WrapRange | components/SnowLayer.tsx:30-31 | The wrapped height is always in [-10, 30). |
| Snow.WrapKeepsRange | components/SnowLayer.tsx:30-31 | Heights already in [-10, 30) are not moved by the wrap. |
| Snow.WrapPeriodic | components/SnowLayer.tsx:30-31 | Falling 40 further gives the same wrapped height. |
| Snow.FallStartsAtGeneratedHeight | components/SnowLayer.tsx:26-31 | At time 0 every flake is drawn at its generated height. |
| Snow.VelocityStepBounded | components/SnowLayer.tsx:114-118 | One step keeps the snow wind within 50 and closes 5% of the gap to ten times the spin. |
| Snow.VelocityStaysBounded | components/SnowLayer.tsx:110-119 | Fed by velocities from the tick, the snow wind never leaves [-50, 50]. |
| Snow.SnowLayer.constructor | components/SnowLayer.tsx:85-108 | The layer holds the generated flakes for SNOW_COUNT draws, with both uniforms at 0. |
| Snow.SnowLayer.Frame | components/SnowLayer.tsx:110-119 | The frame copies the clock and smooths the wind towards ten times the spin, keeping it within 50. |
| UI.Uploaded | components/UI.tsx:56-63 | Upload keeps the old photos unchanged and appends the new ones in file order. |
| UI.Replaced | components/UI.tsx:68-77 | With a file picked, the list is the old one with the chosen photo set to the new URL. With none, the list is unchanged. |
| UI.RemovedOutOfRange | components/UI.tsx:79-81 | Removing at an index outside the list leaves it unchanged. |
| UI.RemovedInRange | components/UI.tsx:79-81 | Removing at a valid index deletes exactly that photo, keeping the order of the others. |
| UI.UploadThenRemove | components/UI.tsx:56-81 | Uploading one photo and removing it again restores the list. |
| UI.FocusAfterRemoval | components/UI.tsx:79-81 | The focused index is not adjusted: after removing a photo at or before it, it names the next photo, or points past the end. |
| UI.ExtensionDotCorrect | components/UI.tsx:88 | The backwards scan finds the dot of a final `.ext` exactly when the pattern `\.[^/.]+$` matches there, and finds none when it nowhere matches. |
| UI.ExtensionUnique | components/UI.tsx:88 | The pattern `\.[^/.]+$` matches at one position at most. |
| UI.StripMatchesPattern | components/UI.tsx:88 | The title is the name cut at the match of `\.[^/.]+$`, or the whole name when there is no match. |
| UI.StripIsPrefix | components/UI.tsx:88 | The title is a prefix of the file name. |
| UI.StripExamples | components/UI.tsx:88 | "song.mp3" gives "song", "a.b.c" gives "a.b", and ".bashrc" gives "". "noext", "x." and "a.b/c" are unchanged. |
| UI.Overlay.constructor | components/UI.tsx:40-41 | Music starts paused and the panel starts expanded. |
| UI.Overlay.ToggleMusic | components/UI.tsx:46-54 | Without an audio element nothing happens; otherwise the playing flag flips. |
| UI.Overlay.TogglePanel | components/UI.tsx:184 | The panel flag flips and nothing else changes. |
| UI.Overlay.UploadPhotos | components/UI.tsx:56-66 | The photo list becomes the upload result and the rest of the configuration is untouched. |
| UI.Overlay.ReplacePhoto | components/UI.tsx:68-77 | With a file picked, the chosen photo becomes the new URL and every other photo is kept. With none, the list is unchanged. The rest of the configuration is kept. |
| UI.Overlay.RemovePhoto | components/UI.tsx:79-81 | The photo list loses the photo at a valid index and is unchanged otherwise. |
| UI.Overlay.UploadMusic | components/UI.tsx:83-96 | A picked file sets the music source and the stripped title, and starts playback when there is an audio element. With no file nothing changes. |

## Left out

- MediaPipe script loading, camera start and stop, and `hands.send` (hooks/useHandTracking.ts:15-52, 103-127): browser I/O and foreign libraries. The model starts from the landmark lists the callback receives.
- Evaluating `Math.sin`, `Math.cos`, `Math.acos`, `Math.sqrt` and `Math.random`: these are inputs with range or unit-circle conditions where a property needs them. The foliage and ornament latitude `acos(2u - 1) - π/2` is given as its cosine and sine.
- Float32 and double rounding: all arithmetic is on exact reals.
- Quaternions and matrices: `lookAt`, `slerp`, the Euler tilts of the gallery, the sway quaternion, `worldToLocal`, and the camera-relative focused placement, which enters the model as a given point `focusPos`. Only the choice of position and scale targets is modelled.
- The instance matrix built by `updateMatrix`: a `Transform` records position, rotation and scale instead. The `needsUpdate` flags and material colours are not modelled.
- Rendering: fragment shaders, point sizes, bloom, noise, vignette, lights, `Environment`, `ExtrudeGeometry` with its bevel, `geometry.center`, OrbitControls auto-rotation, and the photo's offset and emissive settings.
- The snow spiral and centrifugal terms (`atan`, `length`), the turbulence and the edge fade (`smoothstep`) of the snow vertex shader. Only the fall and the height wrap are modelled.
- Audio playback, `URL.createObjectURL`, file inputs and their reset, cursor style, colour pickers and the JSX layout: DOM and I/O. An uploaded file enters the model as its URL string.
- The asynchronous texture load: it enters the model as its outcome (`TextureLoaded`), with the card inert until then.
- The mount guards (`meshRef`, `materialRef`, `groupRef`, `treeGroupRef`): they are always set while the frame callbacks run. The frame-ordering priority of the photo callback is not modelled either.
- The unused `speed` (components/Scene.tsx:43) and `lerpSpeed` (components/PolaroidLayer.tsx:161) variables, and the slider step sizes.
- HandTracking.Openness: requires a hand of 21 landmarks, which is what the tracker delivers for every detected hand; shorter lists are not modelled.
- UI.Replaced: requires an index inside the list. The overlay only offers replace buttons for existing photos; JavaScript's hole-filling assignment past the end is not modelled.
- The colour theme and the default colours in constants.ts, which hold no logic.
