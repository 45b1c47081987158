/**
 * The driver around the characters: processInput (keys move the global
 * character along its own forward and right vectors, arrow keys turn it,
 * the position is clamped to the visible ground), the drawCube model
 * matrix, the scene set-up and the render loop that draws, reads input and
 * flips each captured frame.
 */
module Driver {
  import opened Trigonometry
  import opened Linear
  import opened Skeleton
  import opened Pose
  import opened Frame

  /** The keys processInput polls; true means pressed. */
  datatype Keys = Keys(escape: bool, w: bool, s: bool, a: bool, d: bool, left: bool, right: bool)

  /**
   * The clock readings of one processInput call, in the order they are
   * taken: the frame time, then the arm and the leg time read by updateSwing.
   */
  datatype Clock = Clock(frame: real, arm: real, leg: real)

  const CharacterSpeed: real := 0.009
  const CharacterRotationSpeed: real := 0.05
  /** Half the side of the square the character may walk in. */
  const Bounds: real := 9.0

  /** The direction the character faces at yaw r: (sin r, 0, cos r). */
  function Forward(tr: Trig, yaw: real): Vec3 {
    Vec3(tr.sin(yaw), 0.0, tr.cos(yaw))
  }

  /** The character's right hand at yaw r: (cos r, 0, -sin r). */
  function Rightward(tr: Trig, yaw: real): Vec3 {
    Vec3(tr.cos(yaw), 0.0, -tr.sin(yaw))
  }

  /** Forward and right are level, orthogonal unit vectors. */
  lemma MovementFrame(tr: Trig, yaw: real)
    requires Lawful(tr)
    ensures Forward(tr, yaw).y == 0.0 && Rightward(tr, yaw).y == 0.0
    ensures Dot(Forward(tr, yaw), Rightward(tr, yaw)) == 0.0
    ensures Dot(Forward(tr, yaw), Forward(tr, yaw)) == 1.0
    ensures Dot(Rightward(tr, yaw), Rightward(tr, yaw)) == 1.0
  {
    assert UnitCircle(tr, yaw) == 1.0;
  }

  /** glm::clamp: min(max(x, lo), hi). */
  function Clamp(x: real, lo: real, hi: real): (r: real)
    ensures lo <= hi ==> lo <= r <= hi
    ensures lo <= x <= hi ==> r == x
    ensures hi < lo ==> r == hi
  {
    var m := if x < lo then lo else x;
    if hi < m then hi else m
  }

  /** For a proper range, the clamp is the point of the range nearest to x. */
  lemma ClampNearest(x: real, lo: real, hi: real, y: real)
    requires lo <= y <= hi
    ensures var r := Clamp(x, lo, hi);
            (r - x) * (r - x) <= (y - x) * (y - x)
  {
    var r := Clamp(x, lo, hi);
    if x < lo {
      assert r == lo && x < lo <= y;
      assert (y - x) * (y - x) - (r - x) * (r - x) == (y - r) * ((y - x) + (r - x));
    } else if hi < x {
      assert r == hi && y <= hi < x;
      assert (y - x) * (y - x) - (r - x) * (r - x) == (r - y) * ((x - y) + (x - r));
    }
  }

  /** Clamping twice is clamping once. */
  lemma ClampIdempotent(x: real, lo: real, hi: real)
    ensures Clamp(Clamp(x, lo, hi), lo, hi) == Clamp(x, lo, hi)
  {
  }

  /** +1 when only the first key is down, -1 when only the second is, 0 otherwise. */
  function Axis(plus: bool, minus: bool): real {
    (if plus then 1.0 else 0.0) - (if minus then 1.0 else 0.0)
  }

  /** The W/S/A/D movement of one call, before clamping. */
  function Displacement(tr: Trig, yaw: real, keys: Keys): Vec3 {
    Add(Times(CharacterSpeed * Axis(keys.w, keys.s), Forward(tr, yaw)),
        Times(CharacterSpeed * Axis(keys.a, keys.d), Rightward(tr, yaw)))
  }

  /** isMoving: at least one of W, S, A, D is down. */
  predicate Moving(keys: Keys) {
    keys.w || keys.s || keys.a || keys.d
  }

  /** Moving p by step when the key is down. */
  function Nudge(p: Vec3, pressed: bool, step: Vec3): Vec3 {
    if pressed then Add(p, step) else p
  }

  /** The key-by-key walk processInput performs: W, then S, A and D in turn. */
  function KeyWalk(p: Vec3, forward: Vec3, right: Vec3, keys: Keys): Vec3 {
    var afterW := Nudge(p, keys.w, Times(CharacterSpeed, forward));
    var afterS := Nudge(afterW, keys.s, Times(-CharacterSpeed, forward));
    var afterA := Nudge(afterS, keys.a, Times(CharacterSpeed, right));
    Nudge(afterA, keys.d, Times(-CharacterSpeed, right))
  }

  /** A pair of opposing keys moves p by k times their axis value along dir. */
  lemma PairWalk(p: Vec3, plus: bool, minus: bool, k: real, dir: Vec3)
    ensures Nudge(Nudge(p, plus, Times(k, dir)), minus, Times(-k, dir)) == Add(p, Times(k * Axis(plus, minus), dir))
  {
    var a := Axis(plus, minus);
    if plus && minus {
      assert a == 0.0;
    } else if plus {
      assert a == 1.0;
    } else if minus {
      assert a == -1.0;
    } else {
      assert a == 0.0;
    }
  }

  /** The walk adds up to the moves along the two axes, key pairs netted out. */
  lemma WalkIsDisplacement(p: Vec3, f: Vec3, r: Vec3, keys: Keys)
    ensures KeyWalk(p, f, r, keys)
         == Add(p, Add(Times(CharacterSpeed * Axis(keys.w, keys.s), f), Times(CharacterSpeed * Axis(keys.a, keys.d), r)))
  {
    var alongF := Times(CharacterSpeed * Axis(keys.w, keys.s), f);
    var alongR := Times(CharacterSpeed * Axis(keys.a, keys.d), r);
    var afterS := Nudge(Nudge(p, keys.w, Times(CharacterSpeed, f)), keys.s, Times(-CharacterSpeed, f));
    PairWalk(p, keys.w, keys.s, CharacterSpeed, f);
    PairWalk(afterS, keys.a, keys.d, CharacterSpeed, r);
    assert KeyWalk(p, f, r, keys) == Add(Add(p, alongF), alongR);
  }

  /** The position after one call: moved, then x and z clamped to the ground. */
  function NextPosition(tr: Trig, pos: Vec3, yaw: real, keys: Keys): (p: Vec3)
    ensures -Bounds <= p.x <= Bounds && -Bounds <= p.z <= Bounds
    ensures p.y == pos.y
  {
    var moved := Add(pos, Displacement(tr, yaw, keys));
    Vec3(Clamp(moved.x, -Bounds, Bounds), moved.y, Clamp(moved.z, -Bounds, Bounds))
  }

  /** The rotation after one call: only the yaw turns, by the arrow keys. */
  function NextRotation(rot: Vec3, keys: Keys): (r: Vec3)
    ensures r.x == rot.x && r.z == rot.z
  {
    Vec3(rot.x, rot.y + CharacterRotationSpeed * Axis(keys.left, keys.right), rot.z)
  }

  /** LEFT alone adds 0.05 to the yaw, RIGHT alone takes 0.05 off, both or neither keep it. */
  lemma TurnStep(rot: Vec3, keys: Keys)
    ensures keys.left && !keys.right ==> NextRotation(rot, keys).y == rot.y + 0.05
    ensures keys.right && !keys.left ==> NextRotation(rot, keys).y == rot.y - 0.05
    ensures keys.left == keys.right ==> NextRotation(rot, keys) == rot
  {
  }

  /** Without W, S, A or D, a position inside the bounds stays where it is. */
  lemma ArrowsAloneDoNotMove(tr: Trig, pos: Vec3, yaw: real, keys: Keys)
    requires !Moving(keys)
    requires -Bounds <= pos.x <= Bounds && -Bounds <= pos.z <= Bounds
    ensures NextPosition(tr, pos, yaw, keys) == pos
  {
    assert Displacement(tr, yaw, keys) == Zero3;
  }

  /**
   * W with S and A with D cancel: the position is only clamped, although
   * the character counts as moving and its limbs swing.
   */
  lemma OpposingKeysCancel(tr: Trig, pos: Vec3, yaw: real, keys: Keys)
    requires keys.w == keys.s && keys.a == keys.d
    ensures NextPosition(tr, pos, yaw, keys)
         == Vec3(Clamp(pos.x, -Bounds, Bounds), pos.y, Clamp(pos.z, -Bounds, Bounds))
    ensures keys.w || keys.a ==> Moving(keys)
  {
    assert Displacement(tr, yaw, keys) == Zero3;
  }

  /**
   * One step covers 0.009 for a single key and 0.009 * sqrt 2 for a
   * diagonal: its squared length is 0.009^2 times the number of
   * uncancelled axes.
   */
  lemma StepLength(tr: Trig, yaw: real, keys: Keys)
    requires Lawful(tr)
    ensures var step := Displacement(tr, yaw, keys);
            var u := Axis(keys.w, keys.s);
            var v := Axis(keys.a, keys.d);
            Dot(step, step) == CharacterSpeed * CharacterSpeed * (u * u + v * v)
  {
    var a, b := Axis(keys.w, keys.s), Axis(keys.a, keys.d);
    MovementFrame(tr, yaw);
    OrthonormalCombination(CharacterSpeed * a, CharacterSpeed * b, Forward(tr, yaw), Rightward(tr, yaw));
    SquareOfScaled(CharacterSpeed, a);
    SquareOfScaled(CharacterSpeed, b);
    assert CharacterSpeed * CharacterSpeed * (a * a + b * b)
        == CharacterSpeed * CharacterSpeed * (a * a) + CharacterSpeed * CharacterSpeed * (b * b);
  }

  /** For orthogonal unit vectors f and r, p f + q r has squared length p^2 + q^2. */
  lemma OrthonormalCombination(p: real, q: real, f: Vec3, r: Vec3)
    requires Dot(f, f) == 1.0 && Dot(r, r) == 1.0 && Dot(f, r) == 0.0
    ensures var m := Add(Times(p, f), Times(q, r));
            Dot(m, m) == p * p + q * q
  {
    var m := Add(Times(p, f), Times(q, r));
    SquareOfSum(p, q, f.x, r.x);
    SquareOfSum(p, q, f.y, r.y);
    SquareOfSum(p, q, f.z, r.z);
    assert Dot(m, m)
        == p * p * Dot(f, f) + 2.0 * p * q * Dot(f, r) + q * q * Dot(r, r);
  }

  lemma SquareOfSum(p: real, q: real, x: real, y: real)
    ensures (p * x + q * y) * (p * x + q * y) == p * p * (x * x) + 2.0 * p * q * (x * y) + q * q * (y * y)
  {
  }

  lemma SquareOfScaled(k: real, a: real)
    ensures (k * a) * (k * a) == k * k * (a * a)
  {
  }

  /**
   * processInput for the global character: escape requests the window to
   * close; the movement keys and arrow keys move and turn the character,
   * which is then clamped to the ground; the swing follows the moving flag.
   * The static lastFrame is passed in and its new value returned; the
   * frame's delta time goes to updateSwing, which ignores it.
   */
  method ProcessInput(character: Character, tr: Trig, keys: Keys, clock: Clock, shouldClose: bool, lastFrame: real)
    returns (close: bool, frameTime: real)
    requires character.Valid() && Lawful(tr)
    modifies character
    ensures character.Valid()
    ensures close == (shouldClose || keys.escape)
    ensures character.GetPosition()
         == NextPosition(tr, old(character.GetPosition()), old(character.GetRotation()).y, keys)
    ensures character.GetRotation() == NextRotation(old(character.GetRotation()), keys)
    ensures character.GetScale() == old(character.GetScale())
    ensures Moving(keys) ==> (character.armSwing == SwingAngle(tr, ArmAmplitude, clock.arm, SwingSpeed)
                              && character.legSwing == SwingAngle(tr, LegAmplitude, clock.leg, SwingSpeed))
    ensures !Moving(keys) ==> (character.armSwing == 0.0 && character.legSwing == 0.0)
    ensures frameTime == clock.frame
  {
    close := shouldClose;
    if keys.escape {
      close := true;
    }

    var currentPos := character.GetPosition();
    var currentRot := character.GetRotation();
    var isMoving;
    currentPos, isMoving := WalkByKeys(tr, currentPos, currentRot.y, keys);

    if keys.left {
      currentRot := currentRot.(y := currentRot.y + CharacterRotationSpeed);
    }
    if keys.right {
      currentRot := currentRot.(y := currentRot.y - CharacterRotationSpeed);
    }

    currentPos := currentPos.(x := Clamp(currentPos.x, -Bounds, Bounds));
    currentPos := currentPos.(z := Clamp(currentPos.z, -Bounds, Bounds));

    character.SetPosition(currentPos);
    character.SetRotation(currentRot);

    var currentFrame := clock.frame;
    var deltaTime := currentFrame - lastFrame;
    frameTime := currentFrame;

    character.UpdateSwing(deltaTime, isMoving, tr, clock.arm, clock.leg);
  }

  /**
   * The movement half of processInput: forward and right from the yaw, then
   * W, S, A and D in turn, each setting the moving flag.
   */
  method WalkByKeys(tr: Trig, pos: Vec3, yaw: real, keys: Keys) returns (moved: Vec3, isMoving: bool)
    ensures moved == Add(pos, Displacement(tr, yaw, keys))
    ensures isMoving == Moving(keys)
  {
    var forward := Forward(tr, yaw);
    var right := Rightward(tr, yaw);
    moved := pos;
    isMoving := false;
    if keys.w {
      moved := Add(moved, Times(CharacterSpeed, forward));
      isMoving := true;
    }
    if keys.s {
      moved := Sub(moved, Times(CharacterSpeed, forward));
      isMoving := true;
    }
    if keys.a {
      moved := Add(moved, Times(CharacterSpeed, right));
      isMoving := true;
    }
    if keys.d {
      moved := Sub(moved, Times(CharacterSpeed, right));
      isMoving := true;
    }
    assert moved == KeyWalk(pos, forward, right, keys);
    WalkIsDisplacement(pos, forward, right, keys);
  }

  /** drawCube's model matrix: identity, translated, turned about Y by the angle (radians), scaled. */
  function CubeModel(tr: Trig, scale: Vec3, rotationAngle: real, position: Vec3): Mat4 {
    Scale(RotateY(tr, Translate(Identity, position), rotationAngle), scale)
  }

  /** The cube is placed exactly as a character root with that yaw. */
  lemma CubeModelIsRoot(tr: Trig, scale: Vec3, rotationAngle: real, position: Vec3, pitch: real, roll: real)
    ensures CubeModel(tr, scale, rotationAngle, position)
         == RootMatrix(tr, position, Vec3(pitch, rotationAngle, roll), scale)
  {
  }

  /** The cube's centre goes to the position, whatever the angle and scale. */
  lemma CubeCentre(tr: Trig, scale: Vec3, rotationAngle: real, position: Vec3)
    ensures Transform(CubeModel(tr, scale, rotationAngle, position), Point(Zero3)) == Point(position)
  {
    RootMatrixOrigin(tr, position, Vec3(0.0, rotationAngle, 0.0), scale);
  }

  /** Unturned, the cube is scaled about its centre and then moved to the position. */
  lemma UnrotatedCube(tr: Trig, scale: Vec3, position: Vec3, p: Vec3)
    requires Lawful(tr)
    ensures Transform(CubeModel(tr, scale, 0.0, position), Point(p))
         == Point(Add(Hadamard(scale, p), position))
  {
    StepsOnIdentity(position, scale);
    RotateByZero(tr, Translation(position));
    ScaleApply(Translation(position), scale, p);
    TranslationApply(position, Hadamard(scale, p));
  }

  /**
   * The two global characters after the set-up at the top of main: the
   * character stands at (0, 1, 0), unturned, at unit scale; the scaled
   * character stands at (5, 1, 0) turned by 45 (radians) about each axis,
   * its stored scale never set.
   */
  method SetupScene() returns (character: Character, scaled: Character)
    ensures fresh(character) && fresh(scaled)
    ensures character.Valid() && scaled.Valid()
    ensures character.rootTransform == TransformParams(Vec3(0.0, 1.0, 0.0), Zero3, Unit)
    ensures scaled.rootTransform == TransformParams(Vec3(5.0, 1.0, 0.0), Vec3(45.0, 45.0, 45.0), Zero3)
    ensures character.armSwing == 0.0 && character.legSwing == 0.0
    ensures scaled.armSwing == 0.0 && scaled.legSwing == 0.0
  {
    character := new Character();
    scaled := new Character();
    character.SetPosition(Vec3(0.0, 1.0, 0.0));
    character.SetRotation(Zero3);
    character.SetScale(Unit);
    scaled.SetPosition(Vec3(5.0, 1.0, 0.0));
    scaled.SetRotation(Vec3(45.0, 45.0, 45.0));
  }

  /** The side of the window and of every captured frame, in pixels. */
  const FrameSide: nat := 950

  /** What one pass of the render loop receives from outside: the keys, the clock and the pixels read back. */
  datatype FrameInput = FrameInput(keys: Keys, clock: Clock, pixels: seq<Byte>)

  /** The part of a character that processInput changes: its root transform and its two swings. */
  datatype Stance = Stance(transform: TransformParams, armSwing: real, legSwing: real)

  function StanceOf(c: Character): Stance
    reads c
  {
    Stance(c.rootTransform, c.armSwing, c.legSwing)
  }

  /**
   * The stance after the processInput call of one pass: moved and clamped,
   * turned, the scale kept, and swinging with the clock exactly when W, S,
   * A or D is down.
   */
  function AfterInput(tr: Trig, st: Stance, input: FrameInput): Stance
    requires Lawful(tr)
  {
    var t, keys := st.transform, input.keys;
    var moving := Moving(keys);
    Stance(TransformParams(NextPosition(tr, t.position, t.rotation.y, keys), NextRotation(t.rotation, keys), t.scale),
           if moving then SwingAngle(tr, ArmAmplitude, input.clock.arm, SwingSpeed) else 0.0,
           if moving then SwingAngle(tr, LegAmplitude, input.clock.leg, SwingSpeed) else 0.0)
  }

  /** The stance after a run of passes, one processInput call each, in order. */
  function Replay(tr: Trig, st: Stance, inputs: seq<FrameInput>): Stance
    requires Lawful(tr)
    decreases |inputs|
  {
    if |inputs| == 0 then st
    else AfterInput(tr, Replay(tr, st, inputs[..|inputs| - 1]), inputs[|inputs| - 1])
  }

  /** The yaw the arrow keys add up to over a run of passes: 0.05 per pass with LEFT alone, -0.05 with RIGHT alone. */
  function Turned(inputs: seq<FrameInput>): real
    decreases |inputs|
  {
    if |inputs| == 0 then 0.0
    else Turned(inputs[..|inputs| - 1]) + CharacterRotationSpeed * Axis(inputs[|inputs| - 1].keys.left, inputs[|inputs| - 1].keys.right)
  }

  /**
   * Over any run of passes the scale, the height, the pitch and the roll
   * never change, and the yaw is the starting yaw plus what the arrow keys
   * add up to.
   */
  lemma {:induction false} ReplayKeeps(tr: Trig, st: Stance, inputs: seq<FrameInput>)
    requires Lawful(tr)
    ensures var t := Replay(tr, st, inputs).transform;
            && t.scale == st.transform.scale
            && t.position.y == st.transform.position.y
            && t.rotation.x == st.transform.rotation.x && t.rotation.z == st.transform.rotation.z
            && t.rotation.y == st.transform.rotation.y + Turned(inputs)
  {
    if |inputs| > 0 {
      ReplayKeeps(tr, st, inputs[..|inputs| - 1]);
    }
  }

  /**
   * After at least one pass the character stands inside the bounds, and its
   * swings are those of the last pass: zero unless W, S, A or D was down in it.
   */
  lemma ReplayEndsInBounds(tr: Trig, st: Stance, inputs: seq<FrameInput>)
    requires Lawful(tr) && |inputs| > 0
    ensures var r := Replay(tr, st, inputs);
            && -Bounds <= r.transform.position.x <= Bounds && -Bounds <= r.transform.position.z <= Bounds
            && -ArmAmplitude <= r.armSwing <= ArmAmplitude && -LegAmplitude <= r.legSwing <= LegAmplitude
            && (!Moving(inputs[|inputs| - 1].keys) ==> r.armSwing == 0.0 && r.legSwing == 0.0)
  {
  }

  /** A pass without W, S, A, D or an arrow key leaves a character inside the bounds where it stands and stills its limbs. */
  lemma IdlePass(tr: Trig, st: Stance, input: FrameInput)
    requires Lawful(tr)
    requires !Moving(input.keys) && !input.keys.left && !input.keys.right
    requires -Bounds <= st.transform.position.x <= Bounds && -Bounds <= st.transform.position.z <= Bounds
    ensures AfterInput(tr, st, input) == Stance(st.transform, 0.0, 0.0)
  {
    ArrowsAloneDoNotMove(tr, st.transform.position, st.transform.rotation.y, input.keys);
    TurnStep(st.transform.rotation, input.keys);
  }

  /**
   * The render loop, run over the inputs of successive passes until the
   * window is asked to close or the inputs run out. Drawing changes no
   * state; each pass then processes input and flips the captured frame in
   * place. Only the character moves: the scaled character keeps its
   * position, rotation and zero swing throughout.
   */
  method RenderLoop(character: Character, scaled: Character, tr: Trig, inputs: seq<FrameInput>)
    returns (frames: seq<seq<Byte>>)
    requires character != scaled
    requires character.Valid() && Lawful(tr)
    requires forall j | 0 <= j < |inputs| :: |inputs[j].pixels| == FrameSide * 4 * FrameSide
    modifies character
    ensures unchanged(scaled)
    ensures character.Valid()
    ensures |frames| <= |inputs|
    ensures |frames| == |inputs| || (|frames| > 0 && inputs[|frames| - 1].keys.escape)
    ensures forall j | 0 <= j < |frames| - 1 :: !inputs[j].keys.escape
    ensures forall j | 0 <= j < |frames| :: frames[j] == Flipped(inputs[j].pixels, FrameSide * 4)
    ensures |frames| > 0 ==> (-Bounds <= character.GetPosition().x <= Bounds
                              && -Bounds <= character.GetPosition().z <= Bounds)
    ensures StanceOf(character) == Replay(tr, old(StanceOf(character)), inputs[..|frames|])
  {
    var shouldClose := false;
    var lastFrame := 0.0;
    frames := [];
    var i := 0;
    while i < |inputs| && !shouldClose
      invariant 0 <= i <= |inputs| && |frames| == i
      invariant character.Valid()
      invariant unchanged(scaled)
      invariant shouldClose <==> (i > 0 && inputs[i - 1].keys.escape)
      invariant forall j | 0 <= j < i - 1 :: !inputs[j].keys.escape
      invariant forall j | 0 <= j < i :: frames[j] == Flipped(inputs[j].pixels, FrameSide * 4)
      invariant i > 0 ==> (-Bounds <= character.GetPosition().x <= Bounds
                           && -Bounds <= character.GetPosition().z <= Bounds)
      invariant StanceOf(character) == Replay(tr, old(StanceOf(character)), inputs[..i])
      decreases |inputs| - i
    {
      var frame;
      shouldClose, lastFrame, frame := RenderPass(character, tr, inputs[i], shouldClose, lastFrame);
      assert inputs[..i + 1][..i] == inputs[..i];
      frames := frames + [frame];
      i := i + 1;
    }
  }

  /**
   * The state-changing half of one pass of the render loop: processInput,
   * then the captured frame flipped in place.
   */
  method RenderPass(character: Character, tr: Trig, input: FrameInput, shouldClose: bool, lastFrame: real)
    returns (close: bool, frameTime: real, frame: seq<Byte>)
    requires character.Valid() && Lawful(tr)
    requires |input.pixels| == FrameSide * 4 * FrameSide
    modifies character
    ensures character.Valid()
    ensures close == (shouldClose || input.keys.escape)
    ensures -Bounds <= character.GetPosition().x <= Bounds && -Bounds <= character.GetPosition().z <= Bounds
    ensures frameTime == input.clock.frame
    ensures frame == Flipped(input.pixels, FrameSide * 4)
    ensures StanceOf(character) == AfterInput(tr, old(StanceOf(character)), input)
  {
    close, frameTime := ProcessInput(character, tr, input.keys, input.clock, shouldClose, lastFrame);
    var buffer := CaptureFrame(input.pixels);
    FlipFrame(buffer, FrameSide, FrameSide);
    frame := buffer[..];
  }

  /** The buffer glReadPixels fills: a fresh array holding the given pixels. */
  method CaptureFrame(pixels: seq<Byte>) returns (frame: array<Byte>)
    ensures fresh(frame)
    ensures frame[..] == pixels
  {
    frame := new Byte[|pixels|](j => if 0 <= j < |pixels| then pixels[j] else 0);
  }
}
