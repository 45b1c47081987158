/**
 * The Character pose model: a root transform, the swing angles of the arms
 * and legs, the swing speed and five constant joint offsets, with the
 * setters, getters, the swing update and the six-part composition that
 * drawCharacter hands to drawPart.
 */
module Pose {
  import opened Trigonometry
  import opened Linear
  import opened Skeleton

  /** Position, rotation (radians) and scale of a character's root. */
  datatype TransformParams = TransformParams(position: Vec3, rotation: Vec3, scale: Vec3)

  /** The root transform of a character with static storage before any setter runs. */
  const ZeroTransform: TransformParams := TransformParams(Zero3, Zero3, Zero3)

  const HeadOffset: Vec3 := Vec3(0.0, 1.0, 0.0)
  const LeftArmOffset: Vec3 := Vec3(-0.6, 0.0, 0.0)
  const RightArmOffset: Vec3 := Vec3(0.6, 0.0, 0.0)
  const LeftLegOffset: Vec3 := Vec3(-0.3, -1.0, 0.0)
  const RightLegOffset: Vec3 := Vec3(0.3, -1.0, 0.0)

  const SwingSpeed: real := 7.0
  const ArmAmplitude: real := 45.0
  const LegAmplitude: real := 30.0

  /** The x-mirror image of a point: the right-side twin of a left-side offset. */
  function Mirror(v: Vec3): Vec3 {
    Vec3(-v.x, v.y, v.z)
  }

  /** amplitude * sin(time * speed): a swing angle in degrees. */
  function SwingAngle(tr: Trig, amplitude: real, time: real, speed: real): (angle: real)
    requires Lawful(tr)
    requires amplitude >= 0.0
    ensures -amplitude <= angle <= amplitude
    ensures time * speed == 0.0 ==> angle == 0.0
  {
    ScaledUnit(amplitude, tr.sin(time * speed));
    amplitude * tr.sin(time * speed)
  }

  /** A value in [-1, 1] times a non-negative a lies in [-a, a]. */
  lemma ScaledUnit(a: real, s: real)
    requires a >= 0.0 && -1.0 <= s <= 1.0
    ensures -a <= a * s <= a
  {
    assert a * (1.0 - s) >= 0.0;
    assert a * (1.0 + s) >= 0.0;
  }

  /** Read at one instant, the leg swing is two thirds of the arm swing. */
  lemma SwingRatio(tr: Trig, time: real, speed: real)
    requires Lawful(tr)
    ensures 3.0 * SwingAngle(tr, LegAmplitude, time, speed) == 2.0 * SwingAngle(tr, ArmAmplitude, time, speed)
  {
  }

  class Character {
    var rootTransform: TransformParams
    var armSwing: real
    var legSwing: real
    var swingSpeed: real

    const headOffset: Vec3
    const leftArmOffset: Vec3
    const rightArmOffset: Vec3
    const leftLegOffset: Vec3
    const rightLegOffset: Vec3

    /** The offsets and speed the constructor sets, and swings within their amplitudes. */
    ghost predicate Valid()
      reads this
    {
      && headOffset == HeadOffset
      && leftArmOffset == LeftArmOffset && rightArmOffset == RightArmOffset
      && leftLegOffset == LeftLegOffset && rightLegOffset == RightLegOffset
      && swingSpeed == SwingSpeed
      && -ArmAmplitude <= armSwing <= ArmAmplitude
      && -LegAmplitude <= legSwing <= LegAmplitude
    }

    constructor()
      ensures Valid()
      ensures headOffset == Vec3(0.0, 1.0, 0.0)
      ensures leftArmOffset == Vec3(-0.6, 0.0, 0.0) && rightArmOffset == Vec3(0.6, 0.0, 0.0)
      ensures leftLegOffset == Vec3(-0.3, -1.0, 0.0) && rightLegOffset == Vec3(0.3, -1.0, 0.0)
      ensures armSwing == 0.0 && legSwing == 0.0 && swingSpeed == 7.0
      ensures rootTransform == ZeroTransform
    {
      headOffset := HeadOffset;
      leftArmOffset := LeftArmOffset;
      rightArmOffset := RightArmOffset;
      leftLegOffset := LeftLegOffset;
      rightLegOffset := RightLegOffset;
      armSwing := 0.0;
      legSwing := 0.0;
      swingSpeed := SwingSpeed;
      rootTransform := ZeroTransform;
    }

    function GetPosition(): Vec3
      reads this
    {
      rootTransform.position
    }

    function GetRotation(): Vec3
      reads this
    {
      rootTransform.rotation
    }

    function GetScale(): Vec3
      reads this
    {
      rootTransform.scale
    }

    method SetPosition(pos: Vec3)
      modifies this
      ensures GetPosition() == pos
      ensures GetRotation() == old(GetRotation()) && GetScale() == old(GetScale())
      ensures armSwing == old(armSwing) && legSwing == old(legSwing) && swingSpeed == old(swingSpeed)
    {
      rootTransform := rootTransform.(position := pos);
    }

    method SetRotation(rot: Vec3)
      modifies this
      ensures GetRotation() == rot
      ensures GetPosition() == old(GetPosition()) && GetScale() == old(GetScale())
      ensures armSwing == old(armSwing) && legSwing == old(legSwing) && swingSpeed == old(swingSpeed)
    {
      rootTransform := rootTransform.(rotation := rot);
    }

    method SetScale(sc: Vec3)
      modifies this
      ensures GetScale() == sc
      ensures GetPosition() == old(GetPosition()) && GetRotation() == old(GetRotation())
      ensures armSwing == old(armSwing) && legSwing == old(legSwing) && swingSpeed == old(swingSpeed)
    {
      rootTransform := rootTransform.(scale := sc);
    }

    /**
     * Moving: the swings follow the sine of the clock (read once for the arms,
     * once for the legs) times the swing speed. Standing: both are reset.
     * deltaTime takes no part.
     */
    method UpdateSwing(deltaTime: real, isMoving: bool, tr: Trig, armTime: real, legTime: real)
      requires Valid() && Lawful(tr)
      modifies this
      ensures Valid()
      ensures isMoving ==> (armSwing == SwingAngle(tr, ArmAmplitude, armTime, SwingSpeed)
                            && legSwing == SwingAngle(tr, LegAmplitude, legTime, SwingSpeed))
      ensures !isMoving ==> (armSwing == 0.0 && legSwing == 0.0)
      ensures rootTransform == old(rootTransform) && swingSpeed == old(swingSpeed)
    {
      if isMoving {
        armSwing := SwingAngle(tr, ArmAmplitude, armTime, swingSpeed);
        legSwing := SwingAngle(tr, LegAmplitude, legTime, swingSpeed);
      } else {
        armSwing := 0.0;
        legSwing := 0.0;
      }
    }

    /**
     * The parts drawCharacter draws, in order: torso, head, left arm, right
     * arm, left leg, right leg. The root comes from the arguments, not from
     * the stored root transform.
     */
    function DrawCharacter(tr: Trig, scale: Vec3, rotation: Vec3, position: Vec3): (parts: seq<Part>)
      requires Lawful(tr)
      reads this
      ensures |parts| == 6
    {
      Figure(tr, RootMatrix(tr, position, rotation, scale),
             headOffset, leftArmOffset, rightArmOffset, leftLegOffset, rightLegOffset,
             armSwing, legSwing)
    }
  }

  /**
   * The six parts around a root matrix, for the given joint offsets and
   * swing angles; the right-hand limbs swing by the negated angles.
   */
  function Figure(tr: Trig, root: Mat4, head: Vec3, leftArm: Vec3, rightArm: Vec3, leftLeg: Vec3, rightLeg: Vec3,
                  armSwing: real, legSwing: real): (parts: seq<Part>)
    requires Lawful(tr)
    ensures |parts| == 6
  {
    [ Part(TorsoMatrix(root), Blue, TorsoMesh),
      Part(HeadMatrix(root, head), Skin, HeadMesh),
      Part(LimbMatrix(tr, root, leftArm, armSwing, ArmProportions), Skin, ArmMesh),
      Part(LimbMatrix(tr, root, rightArm, -armSwing, ArmProportions), Skin, ArmMesh),
      Part(LimbMatrix(tr, root, leftLeg, legSwing, LegProportions), Black, LegMesh),
      Part(LimbMatrix(tr, root, rightLeg, -legSwing, LegProportions), Black, LegMesh) ]
  }

  /** The colours and meshes of the six parts, and the order they come in. */
  lemma PartOrder(c: Character, tr: Trig, scale: Vec3, rotation: Vec3, position: Vec3)
    requires Lawful(tr)
    ensures var parts := c.DrawCharacter(tr, scale, rotation, position);
            && parts[0].color == Vec3(0.0, 0.0, 1.0) && parts[0].mesh == TorsoMesh
            && parts[1].color == Vec3(1.0, 0.8, 0.6) && parts[1].mesh == HeadMesh
            && parts[2].color == Vec3(1.0, 0.8, 0.6) && parts[2].mesh == ArmMesh
            && parts[3].color == Vec3(1.0, 0.8, 0.6) && parts[3].mesh == ArmMesh
            && parts[4].color == Vec3(0.0, 0.0, 0.0) && parts[4].mesh == LegMesh
            && parts[5].color == Vec3(0.0, 0.0, 0.0) && parts[5].mesh == LegMesh
  {
  }

  /**
   * The right arm and right leg are the left ones with the offset mirrored
   * in x and the swing angle negated.
   */
  lemma RightMirrorsLeft(c: Character, tr: Trig, scale: Vec3, rotation: Vec3, position: Vec3)
    requires c.Valid() && Lawful(tr)
    ensures var parts := c.DrawCharacter(tr, scale, rotation, position);
            var root := RootMatrix(tr, position, rotation, scale);
            && parts[2].model == LimbMatrix(tr, root, c.leftArmOffset, c.armSwing, ArmProportions)
            && parts[3].model == LimbMatrix(tr, root, Mirror(c.leftArmOffset), -c.armSwing, ArmProportions)
            && parts[4].model == LimbMatrix(tr, root, c.leftLegOffset, c.legSwing, LegProportions)
            && parts[5].model == LimbMatrix(tr, root, Mirror(c.leftLegOffset), -c.legSwing, LegProportions)
  {
  }

  /** The stored root transform takes no part in drawing. */
  lemma DrawIgnoresStoredTransform(a: Character, b: Character, tr: Trig, scale: Vec3, rotation: Vec3, position: Vec3)
    requires a.Valid() && b.Valid() && Lawful(tr)
    requires a.armSwing == b.armSwing && a.legSwing == b.legSwing
    ensures a.DrawCharacter(tr, scale, rotation, position) == b.DrawCharacter(tr, scale, rotation, position)
  {
  }

  /**
   * Whatever the swing, each limb's mesh top sits on its joint: the shoulders
   * at root * (-+0.6, 0.75, 0) and the hips at root * (-+0.3, -0.25, 0).
   */
  lemma DrawnJointsFixed(c: Character, tr: Trig, scale: Vec3, rotation: Vec3, position: Vec3)
    requires c.Valid() && Lawful(tr)
    ensures var parts := c.DrawCharacter(tr, scale, rotation, position);
            var root := RootMatrix(tr, position, rotation, scale);
            && Transform(parts[2].model, Point(LimbTop)) == Transform(root, Point(Vec3(-0.6, 0.75, 0.0)))
            && Transform(parts[3].model, Point(LimbTop)) == Transform(root, Point(Vec3(0.6, 0.75, 0.0)))
            && Transform(parts[4].model, Point(LimbTop)) == Transform(root, Point(Vec3(-0.3, -0.25, 0.0)))
            && Transform(parts[5].model, Point(LimbTop)) == Transform(root, Point(Vec3(0.3, -0.25, 0.0)))
  {
    var root := RootMatrix(tr, position, rotation, scale);
    LimbPivotFixed(tr, root, c.leftArmOffset, c.armSwing, ArmProportions);
    LimbPivotFixed(tr, root, c.rightArmOffset, -c.armSwing, ArmProportions);
    LimbPivotFixed(tr, root, c.leftLegOffset, c.legSwing, LegProportions);
    LimbPivotFixed(tr, root, c.rightLegOffset, -c.legSwing, LegProportions);
  }

  /**
   * With both swings at zero every limb hangs straight: a mesh point p of a
   * limb lands at root * (offset + proportions * p).
   */
  lemma DrawnLimbsAtRest(c: Character, tr: Trig, scale: Vec3, rotation: Vec3, position: Vec3, p: Vec3)
    requires c.Valid() && Lawful(tr)
    requires c.armSwing == 0.0 && c.legSwing == 0.0
    ensures var parts := c.DrawCharacter(tr, scale, rotation, position);
            var root := RootMatrix(tr, position, rotation, scale);
            && Transform(parts[2].model, Point(p)) == Transform(root, Point(Add(LeftArmOffset, Hadamard(ArmProportions, p))))
            && Transform(parts[3].model, Point(p)) == Transform(root, Point(Add(RightArmOffset, Hadamard(ArmProportions, p))))
            && Transform(parts[4].model, Point(p)) == Transform(root, Point(Add(LeftLegOffset, Hadamard(LegProportions, p))))
            && Transform(parts[5].model, Point(p)) == Transform(root, Point(Add(RightLegOffset, Hadamard(LegProportions, p))))
  {
    var root := RootMatrix(tr, position, rotation, scale);
    assert -c.armSwing == 0.0 && -c.legSwing == 0.0;
    LimbAtRest(tr, root, LeftArmOffset, ArmProportions, p);
    LimbAtRest(tr, root, RightArmOffset, ArmProportions, p);
    LimbAtRest(tr, root, LeftLegOffset, LegProportions, p);
    LimbAtRest(tr, root, RightLegOffset, LegProportions, p);
  }

  /** The torso is the root scaled: it carries mesh point p to root * (TorsoProportions o p). */
  lemma DrawnTorsoIs(c: Character, tr: Trig, scale: Vec3, rotation: Vec3, position: Vec3, p: Vec3)
    requires Lawful(tr)
    ensures c.DrawCharacter(tr, scale, rotation, position)[0].model
         == TorsoMatrix(RootMatrix(tr, position, rotation, scale))
    ensures Transform(c.DrawCharacter(tr, scale, rotation, position)[0].model, Point(p))
         == Transform(RootMatrix(tr, position, rotation, scale), Point(Hadamard(TorsoProportions, p)))
  {
    ScaleApply(RootMatrix(tr, position, rotation, scale), TorsoProportions, p);
  }

  /**
   * The head is the root moved by the head offset and scaled: it carries
   * mesh point p to root * (headOffset + HeadProportions o p).
   */
  lemma DrawnHeadIs(c: Character, tr: Trig, scale: Vec3, rotation: Vec3, position: Vec3, p: Vec3)
    requires Lawful(tr)
    ensures c.DrawCharacter(tr, scale, rotation, position)[1].model
         == HeadMatrix(RootMatrix(tr, position, rotation, scale), c.headOffset)
    ensures Transform(c.DrawCharacter(tr, scale, rotation, position)[1].model, Point(p))
         == Transform(RootMatrix(tr, position, rotation, scale), Point(Add(c.headOffset, Hadamard(HeadProportions, p))))
  {
    var root := RootMatrix(tr, position, rotation, scale);
    var h := Hadamard(HeadProportions, p);
    ScaleApply(Translate(root, c.headOffset), HeadProportions, p);
    TranslateApply(root, c.headOffset, h);
    assert Add(h, c.headOffset) == Add(c.headOffset, h);
  }

  /** At the origin, unrotated and unscaled, the torso is exactly a scale by (0.8, 1.5, 0.5). */
  lemma StandingTorso(c: Character, tr: Trig)
    requires Lawful(tr)
    ensures c.DrawCharacter(tr, Unit, Zero3, Zero3)[0].model == Scaling(TorsoProportions)
  {
    DrawnTorsoIs(c, tr, Unit, Zero3, Zero3, Zero3);
    TorsoUnturned(tr, Zero3);
    NeutralBuilders();
    ScaleIsProduct(Identity, TorsoProportions);
    StepsOnIdentity(Zero3, TorsoProportions);
  }

  /**
   * Unrotated and unscaled, the head is a move to the position plus
   * (0, 1, 0), followed by a scale by (0.3, 0.4, 0.3).
   */
  lemma HeadOverRoot(c: Character, tr: Trig, position: Vec3)
    requires c.Valid() && Lawful(tr)
    ensures c.DrawCharacter(tr, Unit, Zero3, position)[1].model
         == Mul(Translation(Add(position, HeadOffset)), Scaling(HeadProportions))
  {
    DrawnHeadIs(c, tr, Unit, Zero3, position, Zero3);
    HeadAboveRoot(tr, position, c.headOffset);
  }
}
