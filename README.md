# Walking character: a Dafny model of the pose, the skeleton and the driver

The program renders two block-figure characters on a green ground with
OpenGL and records every frame into a GIF. Each character is a small
skeletal model. A root transform (position, rotation, scale) places it.
Two swing angles animate its arms and legs. Five constant joint offsets
say where the head and limbs attach. `drawCharacter` composes six model
matrices from these: torso, head, two arms and two legs. Each limb turns
about its own top (the shoulder or hip), not about its centre.
`processInput` walks the first character with W/S/A/D along its own
forward and right vectors. It turns the character with the arrow keys,
keeps it inside an 18 x 18 square and swings its limbs while it moves.
The render loop reads each frame back and flips it vertically in place
before writing it out.

The model has six modules:

- `Trigonometry`: sine, cosine and the degree-to-radian factor are not
  available over `real` in Dafny. They are passed in as a `Trig` record.
  `Lawful` states the facts used about them: both lie in [-1, 1],
  sin^2 + cos^2 = 1, sin 0 = 0, cos 0 = 1, and the factor is positive.
- `Linear`: glm's vectors and column-major 4x4 matrices over the reals.
  `glm::translate`, `glm::rotate` (about the X and Y axes) and `glm::scale`
  are written the way glm computes them, column by column. They are proved
  equal to right-multiplication by the translation, rotation and scaling
  matrices.
- `Skeleton`: the root, torso, head and limb matrices of `drawCharacter`,
  and what they do to points (pivot invariance, rest pose, neutral pose).
- `Pose`: the `Character` class with its fields, constructor, setters,
  getters, `updateSwing` and the six-part `DrawCharacter`.
- `Frame`: the vertical flip. `Flipped` states it on sequences. The
  in-place method `FlipFrame` works on an array and has the nested swap
  loops of the render loop. It is proved to compute `Flipped`. Flipping
  twice gives back the frame, and a flip only reorders its bytes.
- `Driver`: `processInput`, the `drawCube` model matrix, the set-up of the
  two global characters and the render loop over a sequence of per-frame
  inputs (keys, clock readings, pixels read back).

## Model

| member | source | states |
|---|---|---|
| Trigonometry.Radians | Character.cpp:46 | glm::radians keeps the sign of the angle and sends 0 to 0 |
| Trigonometry.RadiansNegate | Character.cpp:55 | converting a negated angle gives the negated radians, so the right arm turns exactly opposite to the left |
| Linear.TranslateIsProduct | Character.cpp:25 | glm::translate(m, t) is m times the translation matrix of t |
| Linear.ScaleIsProduct | Character.cpp:27 | glm::scale(m, s) is m times the diagonal scaling matrix of s |
| Linear.RotateXIsProduct | Character.cpp:46 | glm::rotate about (1, 0, 0) is m times the rotation matrix about X for that angle |
| Linear.RotateYIsProduct | Character.cpp:26 | glm::rotate about (0, 1, 0) is m times the rotation matrix about Y for that angle |
| Linear.MulTransform | Character.cpp:24-27 | applying a matrix product to a point applies the factors right to left |
| Linear.NeutralBuilders | Character.cpp:24-27 | a zero translation, a unit scale and a zero-angle rotation are the identity |
| Linear.RotateByZero | Character.cpp:46 | rotating by angle 0 about X or Y leaves any matrix unchanged |
| Linear.StepsOnIdentity | main.cpp:287-288 | translating and scaling the identity give exactly the translation and scaling matrices |
| Linear.ScaleByOne | Character.cpp:27 | a scale by (1, 1, 1) leaves any matrix unchanged |
| Linear.TranslateTranslation | Character.cpp:36-37 | translating a translation by b gives the translation by the sum of the offsets |
| Linear.TranslateApply | Character.cpp:44-47 | a translated matrix applied to p is the matrix applied to p + t |
| Linear.ScaleApply | Character.cpp:48 | a scaled matrix applied to p is the matrix applied to s * p, component-wise |
| Linear.RotateXOrigin | Character.cpp:46 | rotating a matrix about X keeps the image of the origin |
| Linear.RotateYOrigin | Character.cpp:26 | rotating a matrix about Y keeps the image of the origin |
| Linear.RotationXRigid | Character.cpp:46 | with cos^2 + sin^2 = 1 the rotation about X keeps the length of every point |
| Skeleton.RootMatrixUsesYawOnly | Character.cpp:26 | the root matrix is the same for any pitch and roll: only rotation.y is used |
| Skeleton.RootMatrixFactors | Character.cpp:24-27 | the root matrix is T(position), rotated about Y, then scaled |
| Skeleton.TurnScaleKeepOrigin | Character.cpp:26-27 | a Y rotation and a scale added after a matrix do not move the image of the origin |
| Skeleton.RootMatrixOrigin | Character.cpp:24-27 | the root matrix sends the mesh origin to the position, whatever the rotation and scale |
| Skeleton.LimbTopToJoint | Character.cpp:47-48 | scaled by a limb's proportions (length 1.5) and lowered by 0.75, the mesh top (0, 0.5, 0) is the origin of the swung frame |
| Skeleton.JointInRoot | Character.cpp:44-45 | the lifted frame's origin is offset + (0, 0.75, 0) in root space |
| Skeleton.LimbPivotFixed | Character.cpp:43-48 | for any swing, a limb's mesh top lands on root * (offset + (0, 0.75, 0)) |
| Skeleton.LimbJointStill | Character.cpp:43-48 | two swing angles put the limb's top at the same point |
| Skeleton.LimbAtRest | Character.cpp:43-48 | with swing 0, a limb sends mesh point p to root * (offset + proportions * p) |
| Skeleton.TorsoUnturned | Character.cpp:24-31 | unrotated and unscaled, the torso matrix is T(position) * S(0.8, 1.5, 0.5) |
| Skeleton.HeadAboveRoot | Character.cpp:24-38 | unrotated and unscaled, the head matrix is T(position + headOffset) * S(0.3, 0.4, 0.3) |
| Skeleton.HeadAtStandingPose | Character.cpp:36-38 | with the root at (0, 1, 0), the head is T(0, 2, 0) * S(0.3, 0.4, 0.3) |
| Pose.SwingAngle | Character.cpp:109-110 | amplitude * sin(t * speed) lies in [-amplitude, amplitude] and is 0 when t * speed is 0 |
| Pose.SwingRatio | Character.cpp:109-110 | read at the same instant, the leg swing is two thirds of the arm swing |
| Pose.Character.constructor | Character.cpp:3-16 | offsets (0,1,0), (-0.6,0,0), (0.6,0,0), (-0.3,-1,0), (0.3,-1,0); both swings 0; swing speed 7; root transform all zero |
| Pose.Character.SetPosition | Character.h:40-41 | getPosition returns the new position; rotation, scale, swings and swing speed are unchanged |
| Pose.Character.SetRotation | Character.h:44-45 | getRotation returns the new rotation; position, scale, swings and swing speed are unchanged |
| Pose.Character.SetScale | Character.h:48-49 | getScale returns the new scale; position, rotation, swings and swing speed are unchanged |
| Pose.Character.UpdateSwing | Character.cpp:106-117 | moving: arm = 45 sin(t_arm * 7), leg = 30 sin(t_leg * 7); standing: both exactly 0; deltaTime plays no part; root transform and speed unchanged; swings stay within +-45 and +-30 |
| Pose.Character.DrawCharacter | Character.cpp:19-77 | one call draws exactly six parts |
| Pose.Figure | Character.cpp:30-76 | the parts around a root matrix are exactly six; their order, colours and matrices are stated by PartOrder, RightMirrorsLeft, DrawnTorsoIs and DrawnHeadIs |
| Pose.PartOrder | Character.cpp:30-76 | parts come as torso (blue, torso mesh), head (skin), left arm, right arm (skin, arm mesh), left leg, right leg (black, leg mesh) |
| Pose.RightMirrorsLeft | Character.cpp:43-76 | the right arm and leg are the left ones with the offset mirrored in x and the swing negated |
| Pose.DrawIgnoresStoredTransform | Character.cpp:19-27 | two characters with equal swings draw the same parts whatever their stored root transforms: the root comes from the arguments |
| Pose.DrawnJointsFixed | Character.cpp:43-76 | whatever the swing, the limb tops sit on the shoulders root * (-+0.6, 0.75, 0) and hips root * (-+0.3, -0.25, 0) |
| Pose.DrawnLimbsAtRest | Character.cpp:43-76 | with both swings 0, each limb maps mesh point p to root * (offset + proportions * p) |
| Pose.DrawnTorsoIs | Character.cpp:29-31 | the first part's matrix is the root scaled by (0.8, 1.5, 0.5), so it carries mesh point p to root * ((0.8, 1.5, 0.5) o p) |
| Pose.DrawnHeadIs | Character.cpp:35-38 | the second part's matrix is the root translated by the head offset and scaled by (0.3, 0.4, 0.3), so it carries mesh point p to root * (headOffset + (0.3, 0.4, 0.3) o p) |
| Pose.StandingTorso | Character.cpp:24-31 | drawn at the origin, unrotated and unscaled, the torso is exactly S(0.8, 1.5, 0.5) |
| Pose.HeadOverRoot | Character.cpp:24-38 | drawn unrotated and unscaled at p, the head is T(p + (0, 1, 0)) * S(0.3, 0.4, 0.3) |
| Frame.RowStartIsProduct | main.cpp:244-245 | row r of R-byte rows starts at byte r * R |
| Frame.Cell | main.cpp:244-245 | the offset of byte c of row r, with the whole row it starts, lies inside a buffer of H rows |
| Frame.CellInjective | main.cpp:244-245 | two (row, byte) pairs share a byte offset exactly when they are equal |
| Frame.PixelIndex | main.cpp:244-245 | (y * width + x) * 4 is byte 4x of row y, rows being 4 * width bytes |
| Frame.Flipped | main.cpp:242-253 | the flipped buffer has the length of the original |
| Frame.FlippedCell | main.cpp:242-253 | byte c of row r of the flipped buffer is byte c of row H-1-r of the original |
| Frame.FlippedByCells | main.cpp:242-253 | a buffer that holds the mirrored original at every (row, byte) is the flipped buffer |
| Frame.FlipTwice | main.cpp:242-253 | flipping twice gives back the buffer |
| Frame.FlipPermutes | main.cpp:242-253 | the flip keeps the multiset of bytes |
| Frame.SwapByte | main.cpp:248-251 | swapping byte k of row y with byte k of row H-1-y settles one more byte of both rows and touches nothing else |
| Frame.SettleRow | main.cpp:243-252 | once a whole row pair is swapped, the next row pair can start |
| Frame.Finish | main.cpp:242 | after the first H/2 row pairs (the middle row of an odd height stays put), the buffer is the flipped original |
| Frame.FlipFrame | main.cpp:242-253 | the nested swap loop leaves the array holding the flipped original |
| Frame.FlipRow | main.cpp:243-252 | the inner loop swaps all 4 * width bytes of row y with its mirror row |
| Frame.SwapBytes | main.cpp:248-251 | one std::swap exchanges the two bytes and nothing else |
| Driver.MovementFrame | main.cpp:452-455 | forward = (sin r, 0, cos r) and right = (cos r, 0, -sin r) are level, orthogonal and of unit length |
| Driver.Clamp | main.cpp:487-489 | glm::clamp gives a value in [lo, hi], keeps a value already inside, and gives hi when hi < lo |
| Driver.ClampNearest | main.cpp:487-489 | within a proper range the clamped value is the point of the range nearest to x |
| Driver.ClampIdempotent | main.cpp:487-489 | clamping twice is clamping once |
| Driver.PairWalk | main.cpp:461-468 | a key pair moving by +k and -k along a direction moves by k times (plus - minus) |
| Driver.WalkIsDisplacement | main.cpp:461-476 | the four key moves in turn add up to speed * (W - S) * forward + speed * (A - D) * right |
| Driver.WalkByKeys | main.cpp:452-476 | the walk reaches position + the displacement of the pressed keys; isMoving holds exactly when W, S, A or D is pressed |
| Driver.NextPosition | main.cpp:458-489 | after a call, x and z lie in [-9, 9] and y is never changed |
| Driver.NextRotation | main.cpp:479-484 | the x and z rotation are never changed |
| Driver.TurnStep | main.cpp:479-484 | LEFT alone adds 0.05 to the yaw, RIGHT alone takes 0.05 off, both or neither leave it |
| Driver.ArrowsAloneDoNotMove | main.cpp:458-489 | without W, S, A or D, a position inside the bounds is unchanged |
| Driver.OpposingKeysCancel | main.cpp:461-476 | W with S and A with D cancel (the position is only clamped), yet the character counts as moving |
| Driver.StepLength | main.cpp:452-476 | one step's squared length is 0.009^2 times the number of uncancelled axes (0.009 straight, 0.009 sqrt 2 diagonally) |
| Driver.OrthonormalCombination | main.cpp:452-455 | for orthonormal f and r, p f + q r has squared length p^2 + q^2 |
| Driver.ProcessInput | main.cpp:442-503 | escape requests closing; position = NextPosition of the old position and yaw; rotation = NextRotation; scale unchanged; swings set from the clock when moving and zeroed otherwise; lastFrame becomes the frame time |
| Driver.CubeModelIsRoot | main.cpp:287-290 | drawCube's model matrix is a character root matrix for that yaw, position and scale |
| Driver.CubeCentre | main.cpp:287-290 | the cube's centre lands on its position whatever the angle and scale |
| Driver.UnrotatedCube | main.cpp:287-290 | with angle 0, the cube is scaled about its centre and then moved to the position |
| Driver.SetupScene | main.cpp:173-179 | the character stands at (0, 1, 0), unrotated, at unit scale; the scaled character stands at (5, 1, 0), rotated by 45 about each axis, scale never set; all swings 0 |
| Driver.RenderLoop | main.cpp:187-261 | passes run until escape or the inputs run out; every recorded frame is the flip of the pixels read; the scaled character is never changed; the character stays within the bounds, and its final root transform and swings are Replay of the consumed inputs over its starting state |
| Driver.RenderPass | main.cpp:235-253 | one pass: processInput, then the captured frame flipped; the close flag and frame time as processInput sets them; the character's new root transform and swings are AfterInput of its old ones |
| Driver.ReplayKeeps | main.cpp:478-493 | over any run of passes the scale, the height, the pitch and the roll never change, and the yaw is the starting yaw plus 0.05 for each pass with LEFT alone and minus 0.05 for each with RIGHT alone |
| Driver.ReplayEndsInBounds | main.cpp:486-503 | after at least one pass the character is inside the bounds, its swings are within their amplitudes, and they are zero when the last pass had no W, S, A or D |
| Driver.IdlePass | main.cpp:442-503 | a pass without W, S, A, D or an arrow key leaves a character inside the bounds where it is, with both swings reset to zero |
| Driver.CaptureFrame | main.cpp:238-239 | the frame buffer holds exactly the pixels read back |

## Left out

- OpenGL, GLSL, GLFW and the GIF writer are not modelled. This covers window and context creation, shaders, vertex buffers, uniform uploads, draw calls, `glfwSwapBuffers`, `glfwPollEvents` and `GifBegin`/`GifWriteFrame`/`GifEnd`. What `glReadPixels` delivers and what the keyboard reports are inputs of the render loop (`FrameInput`).
- Pose.Character.DrawCharacter: drawPart's GL work is reduced to a `Part` record (model matrix, colour, mesh). The view and projection matrices and the shader program are not modelled.
- Driver.RenderLoop: the drawing at the start of each pass (clear, projection, view, the ground via drawCube, the two drawCharacter calls) changes no modelled state, so the loop does not record it. The model matrices it would draw are given by `Driver.CubeModel` and `Pose.Character.DrawCharacter`.
- Driver.RenderLoop: the close flag is a local that starts false and only Escape sets it; closing the window with its close button (the `glfwWindowShouldClose` test at main.cpp:187) is modelled only by the inputs running out. The clock readings of each pass are part of its `FrameInput`; the GLFW time source is not modelled.
- Single-precision floating point is not modelled: all arithmetic is over exact reals. Rounding in the swing angles, the walk and the matrix products is therefore not captured.
- sin, cos and pi/180 are abstract: only the facts in `Lawful` are used.
- Pose.Character.UpdateSwing: each `glfwGetTime()` reading is a parameter. The arm and the leg reading are separate because the source reads the clock twice. `processInput`'s own reading (for deltaTime) is a third one (`Clock`).
- Driver.ProcessInput: the function-local `static float lastFrame` is passed in and its new value returned.
- `Character::updateRootTransform` is declared in Character.h but defined nowhere, so it is not modelled.
- Linear.RotateXIsProduct: glm::rotate builds a general axis-angle matrix. Only the axes (1, 0, 0) and (0, 1, 0) occur, and the entries that are zero for those axes are left out of `RotateX` and `RotateY`.
- The global characters have static storage, so their root transforms are zero before the set-up. `Pose.Character.constructor` states this zeroing explicitly; C++ does it before the constructor runs.
- Driver.SetupScene: `setRotation(glm::vec3(45.0f))` is 45 radians about every axis, as written. The scaled character's stored scale stays zero, because it is drawn with the explicit scale argument 1.5.
- Driver.RenderLoop: the frame size is fixed at 950 x 950 as in the source. `Frame.FlipFrame` is stated for any width and height. The source's `int` index arithmetic (at most 950 * 950 * 4) does not overflow, so it is modelled with unbounded integers.
- `framebuffer_size_callback`, the only callback the program registers (main.cpp:143), only resizes the viewport and is not modelled.
