/**
 * The skeletal transform composer of Character::drawCharacter: the root
 * matrix shared by every body part, and the world matrix of the torso, the
 * head and each pivot-corrected limb. A drawn part is recorded as a `Part`
 * (its model matrix, its colour and the mesh it is drawn with), which is
 * everything drawPart hands to the graphics API.
 */
module Skeleton {
  import opened Trigonometry
  import opened Linear

  /** The vertex arrays the renderer draws with. */
  datatype Mesh = HeadMesh | TorsoMesh | ArmMesh | LegMesh

  /** One drawPart call: model matrix, object colour, mesh. */
  datatype Part = Part(model: Mat4, color: Vec3, mesh: Mesh)

  const TorsoProportions: Vec3 := Vec3(0.8, 1.5, 0.5)
  const HeadProportions: Vec3 := Vec3(0.3, 0.4, 0.3)
  const ArmProportions: Vec3 := Vec3(0.2, 1.5, 0.2)
  const LegProportions: Vec3 := Vec3(0.3, 1.5, 0.3)

  /** From a limb's centre up to its attachment joint, before scaling. */
  const PivotLift: Vec3 := Vec3(0.0, 0.75, 0.0)
  const PivotDrop: Vec3 := Vec3(0.0, -0.75, 0.0)

  /** The top centre of the unit cube mesh, which scaling puts at the joint. */
  const LimbTop: Vec3 := Vec3(0.0, 0.5, 0.0)

  const Blue: Vec3 := Vec3(0.0, 0.0, 1.0)
  const Skin: Vec3 := Vec3(1.0, 0.8, 0.6)
  const Black: Vec3 := Vec3(0.0, 0.0, 0.0)

  const Unit: Vec3 := Vec3(1.0, 1.0, 1.0)

  /**
   * The root matrix: identity, translated by the position, rotated about Y
   * by rotation.y (radians), then scaled.
   */
  function RootMatrix(tr: Trig, position: Vec3, rotation: Vec3, scale: Vec3): Mat4 {
    Scale(RotateY(tr, Translate(Identity, position), rotation.y), scale)
  }

  function TorsoMatrix(root: Mat4): Mat4 {
    Scale(root, TorsoProportions)
  }

  function HeadMatrix(root: Mat4, headOffset: Vec3): Mat4 {
    Scale(Translate(root, headOffset), HeadProportions)
  }

  /**
   * A limb: moved to its attachment offset, lifted to its joint, rotated
   * about X by the swing angle (degrees), lowered back and scaled.
   */
  function LimbMatrix(tr: Trig, root: Mat4, offset: Vec3, swingDegrees: real, proportions: Vec3): Mat4
    requires Lawful(tr)
  {
    var atJoint := Translate(Translate(root, offset), PivotLift);
    var swung := RotateX(tr, atJoint, Radians(tr, swingDegrees));
    Scale(Translate(swung, PivotDrop), proportions)
  }

  /** Only the yaw of the rotation reaches the root matrix. */
  lemma RootMatrixUsesYawOnly(tr: Trig, position: Vec3, rotation: Vec3, scale: Vec3, pitch: real, roll: real)
    ensures RootMatrix(tr, position, rotation, scale)
         == RootMatrix(tr, position, Vec3(pitch, rotation.y, roll), scale)
  {
  }

  /** Starting from the identity, the root matrix is the translation itself, turned and scaled. */
  lemma RootMatrixFactors(tr: Trig, position: Vec3, rotation: Vec3, scale: Vec3)
    ensures RootMatrix(tr, position, rotation, scale)
         == Scale(RotateY(tr, Translation(position), rotation.y), scale)
  {
    StepsOnIdentity(position, scale);
  }

  /** Neither a turn about Y nor a scale added after m moves the image of the origin. */
  lemma TurnScaleKeepOrigin(tr: Trig, m: Mat4, yaw: real, scale: Vec3)
    ensures Transform(Scale(RotateY(tr, m, yaw), scale), Point(Zero3)) == Transform(m, Point(Zero3))
  {
    ScaleApply(RotateY(tr, m, yaw), scale, Zero3);
    assert Hadamard(scale, Zero3) == Zero3;
    RotateYOrigin(tr, m, yaw);
  }

  /** The root matrix carries the mesh origin to the position. */
  lemma RootMatrixOrigin(tr: Trig, position: Vec3, rotation: Vec3, scale: Vec3)
    ensures Transform(RootMatrix(tr, position, rotation, scale), Point(Zero3)) == Point(position)
  {
    RootMatrixFactors(tr, position, rotation, scale);
    TurnScaleKeepOrigin(tr, Translation(position), rotation.y, scale);
    TranslationApply(position, Zero3);
    assert Add(Zero3, position) == position;
  }

  /**
   * Scaled by a limb's proportions and lowered by half its length, the top
   * centre of the mesh is the origin of the swung frame.
   */
  lemma LimbTopToJoint(swung: Mat4, proportions: Vec3)
    requires proportions.y == 1.5
    ensures Transform(Scale(Translate(swung, PivotDrop), proportions), Point(LimbTop))
         == Transform(swung, Point(Zero3))
  {
    ScaleApply(Translate(swung, PivotDrop), proportions, LimbTop);
    assert Hadamard(proportions, LimbTop) == PivotLift;
    TranslateApply(swung, PivotDrop, PivotLift);
    assert Add(PivotLift, PivotDrop) == Zero3;
  }

  /** The origin of the lifted frame is the joint, in root space. */
  lemma JointInRoot(root: Mat4, offset: Vec3)
    ensures Transform(Translate(Translate(root, offset), PivotLift), Point(Zero3))
         == Transform(root, Point(Add(offset, PivotLift)))
  {
    TranslateApply(Translate(root, offset), PivotLift, Zero3);
    assert Add(Zero3, PivotLift) == PivotLift;
    TranslateApply(root, offset, PivotLift);
    assert Add(PivotLift, offset) == Add(offset, PivotLift);
  }

  /**
   * Pivot correction: whatever the swing angle, the top centre of a limb
   * mesh lands on the root-space joint offset + (0, 0.75, 0).
   */
  lemma LimbPivotFixed(tr: Trig, root: Mat4, offset: Vec3, swingDegrees: real, proportions: Vec3)
    requires Lawful(tr)
    requires proportions.y == 1.5
    ensures Transform(LimbMatrix(tr, root, offset, swingDegrees, proportions), Point(LimbTop))
         == Transform(root, Point(Add(offset, PivotLift)))
  {
    var atJoint := Translate(Translate(root, offset), PivotLift);
    var swung := RotateX(tr, atJoint, Radians(tr, swingDegrees));
    LimbTopToJoint(swung, proportions);
    RotateXOrigin(tr, atJoint, Radians(tr, swingDegrees));
    JointInRoot(root, offset);
  }

  /** Hence the joint does not move as the limb swings. */
  lemma LimbJointStill(tr: Trig, root: Mat4, offset: Vec3, proportions: Vec3, swing1: real, swing2: real)
    requires Lawful(tr)
    requires proportions.y == 1.5
    ensures Transform(LimbMatrix(tr, root, offset, swing1, proportions), Point(LimbTop))
         == Transform(LimbMatrix(tr, root, offset, swing2, proportions), Point(LimbTop))
  {
    LimbPivotFixed(tr, root, offset, swing1, proportions);
    LimbPivotFixed(tr, root, offset, swing2, proportions);
  }

  /**
   * With no swing the limb hangs straight: every mesh point is scaled by the
   * proportions and placed at the attachment offset, in root space.
   */
  lemma LimbAtRest(tr: Trig, root: Mat4, offset: Vec3, proportions: Vec3, p: Vec3)
    requires Lawful(tr)
    ensures Transform(LimbMatrix(tr, root, offset, 0.0, proportions), Point(p))
         == Transform(root, Point(Add(offset, Hadamard(proportions, p))))
  {
    var placed := Translate(root, offset);
    var atJoint := Translate(placed, PivotLift);
    var h := Hadamard(proportions, p);
    assert Radians(tr, 0.0) == 0.0;
    RotateByZero(tr, atJoint);
    ScaleApply(Translate(atJoint, PivotDrop), proportions, p);
    TranslateApply(atJoint, PivotDrop, h);
    TranslateApply(placed, PivotLift, Add(h, PivotDrop));
    assert Add(Add(h, PivotDrop), PivotLift) == h;
    TranslateApply(root, offset, h);
    assert Add(h, offset) == Add(offset, h);
  }

  /**
   * Unrotated and unscaled, the torso is a move to the position followed by
   * a scale by the torso proportions.
   */
  lemma TorsoUnturned(tr: Trig, position: Vec3)
    requires Lawful(tr)
    ensures TorsoMatrix(RootMatrix(tr, position, Zero3, Unit))
         == Mul(Translation(position), Scaling(TorsoProportions))
  {
    RootMatrixFactors(tr, position, Zero3, Unit);
    RotateByZero(tr, Translation(position));
    ScaleByOne(Translation(position));
    ScaleIsProduct(Translation(position), TorsoProportions);
  }

  /**
   * Unrotated and unscaled, the head is the root position plus the head
   * offset, followed by the head proportions.
   */
  lemma HeadAboveRoot(tr: Trig, position: Vec3, headOffset: Vec3)
    requires Lawful(tr)
    ensures HeadMatrix(RootMatrix(tr, position, Zero3, Unit), headOffset)
         == Mul(Translation(Add(position, headOffset)), Scaling(HeadProportions))
  {
    RootMatrixFactors(tr, position, Zero3, Unit);
    RotateByZero(tr, Translation(position));
    ScaleByOne(Translation(position));
    TranslateTranslation(position, headOffset);
    ScaleIsProduct(Translation(Add(position, headOffset)), HeadProportions);
  }

  /**
   * With the root at (0, 1, 0), no rotation and unit scale, the head sits at
   * (0, 2, 0) and is scaled by (0.3, 0.4, 0.3).
   */
  lemma HeadAtStandingPose(tr: Trig)
    requires Lawful(tr)
    ensures HeadMatrix(RootMatrix(tr, Vec3(0.0, 1.0, 0.0), Zero3, Unit), Vec3(0.0, 1.0, 0.0))
         == Mul(Translation(Vec3(0.0, 2.0, 0.0)), Scaling(HeadProportions))
  {
    var up := Vec3(0.0, 1.0, 0.0);
    HeadAboveRoot(tr, up, up);
    assert Add(up, up) == Vec3(0.0, 2.0, 0.0);
  }
}
