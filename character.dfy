/** The articulated runner of character.py: its sensor layout and its
    muscles. The rigid bodies, joints and limits live in the physics engine
    and are not modelled; what a physics step leaves behind, the bodies'
    positions and the muscled limbs' angles, reaches the model as a Pose. */
module Characters {
  import opened Util

  /** The angles of the seven limbs that carry a muscle. */
  datatype LimbAngles = LimbAngles(
    neck: real, rightBiceps: real, leftBiceps: real,
    leftCalf: real, leftLeg: real, rightCalf: real, rightLeg: real)

  /** Where a physics step leaves a character: the positions of the twelve
      bodies character_data_list reports and the angles of its muscled
      limbs. */
  datatype Pose = Pose(
    torso: Vec2, head: Vec2,
    rightForearm: Vec2, rightBiceps: Vec2, leftForearm: Vec2, leftBiceps: Vec2,
    rightLeg: Vec2, rightCalf: Vec2, rightFoot: Vec2,
    leftLeg: Vec2, leftCalf: Vec2, leftFoot: Vec2,
    limbAngles: LimbAngles)

  /** Where Character.__init__ places each body before any physics step;
      every body starts at angle 0. */
  const InitialPose: Pose := Pose(
    Vec2(200.0, 600.0), Vec2(230.0, 650.0),
    Vec2(230.0, 400.0), Vec2(230.0, 400.0), Vec2(230.0, 400.0), Vec2(230.0, 400.0),
    Vec2(250.0, 300.0), Vec2(250.0, 300.0), Vec2(250.0, 300.0),
    Vec2(100.0, 300.0), Vec2(100.0, 300.0), Vec2(50.0, 300.0),
    LimbAngles(0.0, 0.0, 0.0, 0.0, 0.0, 0.0, 0.0))

  /** The order in which the sensor vector lists the bodies. */
  function BodyOrder(p: Pose): (bodies: seq<Vec2>)
    ensures |bodies| == 12
  {
    [p.torso, p.head, p.rightForearm, p.rightBiceps, p.leftForearm, p.leftBiceps,
     p.rightLeg, p.rightCalf, p.rightFoot, p.leftLeg, p.leftCalf, p.leftFoot]
  }

  /** The coordinates of the given bodies, appended pair by pair as
      list.extend(vec2d_to_arr(...)) does: [x0, y0, x1, y1, ...]. */
  function Flatten(bodies: seq<Vec2>): (data: seq<real>)
    ensures |data| == 2 * |bodies|
  {
    if |bodies| == 0 then [] else Flatten(bodies[..|bodies| - 1]) + Vec2dToArr(bodies[|bodies| - 1])
  }

  /** Element 2k of the flattened list is the x and element 2k+1 the y of
      the k-th body. */
  lemma {:induction false} FlattenLayout(bodies: seq<Vec2>)
    ensures forall k :: 0 <= k < |bodies| ==>
      Flatten(bodies)[2 * k] == bodies[k].x && Flatten(bodies)[2 * k + 1] == bodies[k].y
  {
    if |bodies| > 0 {
      FlattenLayout(bodies[..|bodies| - 1]);
    }
  }

  /** character_data_list: the 24 sensor values, the x and y of each body
      in the order of BodyOrder. */
  function CharacterDataList(p: Pose): (data: seq<real>)
    ensures |data| == 24
    ensures forall k :: 0 <= k < 12 ==>
      data[2 * k] == BodyOrder(p)[k].x && data[2 * k + 1] == BodyOrder(p)[k].y
  {
    FlattenLayout(BodyOrder(p));
    Flatten(BodyOrder(p))
  }

  /** math.radians, i.e. multiplication by the double nearest pi/180. */
  const RadiansPerDegree: real := 0.017453292519943295

  function Radians(degrees: real): real {
    degrees * RadiansPerDegree
  }

  /** The state of one PhysicsLimbWithMuscle: the spring's stiffness, the
      angle of its kinematic target body, and the angle of the limb. */
  datatype MuscleState = MuscleState(stiffness: real, target: real, limbAngle: real)

  /** move_muscle as a function of the muscle's state. */
  function Move(m: MuscleState, strength: real, angle: real): (m': MuscleState)
    ensures m'.stiffness == strength
    ensures m'.target - m.limbAngle == angle
    ensures m'.limbAngle == m.limbAngle
  {
    m.(stiffness := strength, target := m.limbAngle + angle)
  }

  /** relax_muscle as a function of the muscle's state. */
  function Relax(m: MuscleState): (m': MuscleState)
    ensures m'.stiffness == 0.0
    ensures m'.target == m.target && m'.limbAngle == m.limbAngle
  {
    m.(stiffness := 0.0)
  }

  /** The seven muscles of a Character. */
  datatype Rig = Rig(
    neck: MuscleState, rightBiceps: MuscleState, leftBiceps: MuscleState,
    leftCalf: MuscleState, leftLeg: MuscleState,
    rightCalf: MuscleState, rightLeg: MuscleState)

  /** The four key commands of the game: Q and W swing the legs (and the
      arms), O and P bend the knees. */
  datatype Command = LegsQ | LegsW | KneesO | KneesP

  /** The effect of one command on the rig. */
  function Apply(r: Rig, c: Command, legStrength: real, armStrength: real): Rig {
    match c
    case LegsQ =>
      r.(leftLeg := Move(r.leftLeg, legStrength, -Radians(40.0)),
         rightLeg := Move(r.rightLeg, legStrength, Radians(40.0)),
         rightBiceps := Move(r.rightBiceps, armStrength, Radians(120.0)),
         leftBiceps := Move(r.leftBiceps, armStrength, Radians(-120.0)))
    case LegsW =>
      r.(leftLeg := Move(r.leftLeg, legStrength, Radians(40.0)),
         rightLeg := Move(r.rightLeg, legStrength, -Radians(40.0)),
         rightBiceps := Move(r.rightBiceps, armStrength, Radians(-120.0)),
         leftBiceps := Move(r.leftBiceps, armStrength, Radians(120.0)))
    case KneesO =>
      r.(leftCalf := Move(r.leftCalf, legStrength, Radians(40.0)),
         rightCalf := Move(r.rightCalf, legStrength, -Radians(40.0)))
    case KneesP =>
      r.(leftCalf := Move(r.leftCalf, legStrength, -Radians(40.0)),
         rightCalf := Move(r.rightCalf, legStrength, Radians(40.0)))
  }

  /** Offset of a muscle's target from its limb. */
  function Offset(m: MuscleState): real {
    m.target - m.limbAngle
  }

  predicate IsLegCommand(c: Command) {
    c == LegsQ || c == LegsW
  }

  /** W drives the same four muscles as Q, at the same strengths, with
      every offset negated: legs by 40 degrees, arms by 120 degrees. Neither
      touches the neck or the calves. */
  lemma LegsWMirrorsLegsQ(r: Rig, legStrength: real, armStrength: real)
    ensures var q, w := Apply(r, LegsQ, legStrength, armStrength), Apply(r, LegsW, legStrength, armStrength);
      && q.leftLeg.stiffness == w.leftLeg.stiffness == legStrength
      && q.rightLeg.stiffness == w.rightLeg.stiffness == legStrength
      && q.leftBiceps.stiffness == w.leftBiceps.stiffness == armStrength
      && q.rightBiceps.stiffness == w.rightBiceps.stiffness == armStrength
      && Offset(w.leftLeg) == -Offset(q.leftLeg) == Radians(40.0)
      && Offset(w.rightLeg) == -Offset(q.rightLeg) == -Radians(40.0)
      && Offset(w.leftBiceps) == -Offset(q.leftBiceps) == Radians(120.0)
      && Offset(w.rightBiceps) == -Offset(q.rightBiceps) == -Radians(120.0)
      && q.(leftLeg := r.leftLeg, rightLeg := r.rightLeg, leftBiceps := r.leftBiceps, rightBiceps := r.rightBiceps) == r
      && w.(leftLeg := r.leftLeg, rightLeg := r.rightLeg, leftBiceps := r.leftBiceps, rightBiceps := r.rightBiceps) == r
  {
  }

  /** O and P change only the two calves, at leg strength, with opposite
      40-degree offsets. */
  lemma KneeCommandsMoveOnlyCalves(r: Rig, legStrength: real, armStrength: real)
    ensures var o, p := Apply(r, KneesO, legStrength, armStrength), Apply(r, KneesP, legStrength, armStrength);
      && o.(leftCalf := r.leftCalf, rightCalf := r.rightCalf) == r
      && p.(leftCalf := r.leftCalf, rightCalf := r.rightCalf) == r
      && o.leftCalf.stiffness == o.rightCalf.stiffness == legStrength
      && p.leftCalf.stiffness == p.rightCalf.stiffness == legStrength
      && Offset(o.leftCalf) == -Offset(p.leftCalf) == Radians(40.0)
      && Offset(o.rightCalf) == -Offset(p.rightCalf) == -Radians(40.0)
  {
  }

  /** A leg command and a knee command drive disjoint muscles, so the order
      in which a controller issues them does not matter. */
  lemma LegAndKneeCommandsCommute(r: Rig, leg: Command, knee: Command, legStrength: real, armStrength: real)
    requires IsLegCommand(leg) && !IsLegCommand(knee)
    ensures Apply(Apply(r, leg, legStrength, armStrength), knee, legStrength, armStrength)
         == Apply(Apply(r, knee, legStrength, armStrength), leg, legStrength, armStrength)
  {
  }

  /** hold_legs: both legs at leg strength, target on the limb. */
  function LegsHeld(r: Rig, legStrength: real): (r': Rig)
    ensures r'.(leftLeg := r.leftLeg, rightLeg := r.rightLeg) == r
    ensures Offset(r'.leftLeg) == 0.0 && Offset(r'.rightLeg) == 0.0
    ensures r'.leftLeg.stiffness == legStrength && r'.rightLeg.stiffness == legStrength
  {
    r.(leftLeg := Move(r.leftLeg, legStrength, 0.0), rightLeg := Move(r.rightLeg, legStrength, 0.0))
  }

  /** hold_knees: both calves at leg strength, target on the limb. */
  function KneesHeld(r: Rig, legStrength: real): (r': Rig)
    ensures r'.(leftCalf := r.leftCalf, rightCalf := r.rightCalf) == r
    ensures Offset(r'.leftCalf) == 0.0 && Offset(r'.rightCalf) == 0.0
    ensures r'.leftCalf.stiffness == legStrength && r'.rightCalf.stiffness == legStrength
  {
    r.(leftCalf := Move(r.leftCalf, legStrength, 0.0), rightCalf := Move(r.rightCalf, legStrength, 0.0))
  }

  /** relax_legs: both legs lose their stiffness and keep their targets. */
  function LegsRelaxed(r: Rig): (r': Rig)
    ensures r'.(leftLeg := r.leftLeg, rightLeg := r.rightLeg) == r
    ensures r'.leftLeg == r.leftLeg.(stiffness := 0.0)
    ensures r'.rightLeg == r.rightLeg.(stiffness := 0.0)
  {
    r.(leftLeg := Relax(r.leftLeg), rightLeg := Relax(r.rightLeg))
  }

  /** relax_knees: both calves lose their stiffness and keep their targets. */
  function KneesRelaxed(r: Rig): (r': Rig)
    ensures r'.(leftCalf := r.leftCalf, rightCalf := r.rightCalf) == r
    ensures r'.leftCalf == r.leftCalf.(stiffness := 0.0)
    ensures r'.rightCalf == r.rightCalf.(stiffness := 0.0)
  {
    r.(leftCalf := Relax(r.leftCalf), rightCalf := Relax(r.rightCalf))
  }

  /** The angle of each muscled limb. */
  function Angles(r: Rig): LimbAngles {
    LimbAngles(r.neck.limbAngle, r.rightBiceps.limbAngle, r.leftBiceps.limbAngle,
               r.leftCalf.limbAngle, r.leftLeg.limbAngle, r.rightCalf.limbAngle, r.rightLeg.limbAngle)
  }

  /** The stiffness and target angle of each spring, in Rig order. */
  function Springs(r: Rig): seq<(real, real)> {
    [(r.neck.stiffness, r.neck.target), (r.rightBiceps.stiffness, r.rightBiceps.target),
     (r.leftBiceps.stiffness, r.leftBiceps.target), (r.leftCalf.stiffness, r.leftCalf.target),
     (r.leftLeg.stiffness, r.leftLeg.target), (r.rightCalf.stiffness, r.rightCalf.target),
     (r.rightLeg.stiffness, r.rightLeg.target)]
  }

  /** What a physics step does to the muscles: every limb turns to the
      angle the step leaves it at, while the springs keep their stiffness
      and the kinematic target bodies, which are never given an angular
      velocity, keep their angles. */
  function Settled(r: Rig, a: LimbAngles): (r': Rig)
    ensures Angles(r') == a
    ensures Springs(r') == Springs(r)
  {
    r.(neck := r.neck.(limbAngle := a.neck),
       rightBiceps := r.rightBiceps.(limbAngle := a.rightBiceps),
       leftBiceps := r.leftBiceps.(limbAngle := a.leftBiceps),
       leftCalf := r.leftCalf.(limbAngle := a.leftCalf),
       leftLeg := r.leftLeg.(limbAngle := a.leftLeg),
       rightCalf := r.rightCalf.(limbAngle := a.rightCalf),
       rightLeg := r.rightLeg.(limbAngle := a.rightLeg))
  }

  /** A command issued after a physics step aims each muscle it moves at
      the limb's current angle plus the command's offset, whatever the
      targets were before; commands never turn a limb themselves. */
  lemma CommandsFollowTheLimb(r: Rig, a: LimbAngles, legStrength: real, armStrength: real)
    ensures forall c :: Angles(Apply(Settled(r, a), c, legStrength, armStrength)) == a
    ensures var q := Apply(Settled(r, a), LegsQ, legStrength, armStrength);
      && q.leftLeg.target == a.leftLeg - Radians(40.0) && q.rightLeg.target == a.rightLeg + Radians(40.0)
      && q.rightBiceps.target == a.rightBiceps + Radians(120.0) && q.leftBiceps.target == a.leftBiceps + Radians(-120.0)
    ensures var w := Apply(Settled(r, a), LegsW, legStrength, armStrength);
      && w.leftLeg.target == a.leftLeg + Radians(40.0) && w.rightLeg.target == a.rightLeg - Radians(40.0)
      && w.rightBiceps.target == a.rightBiceps + Radians(-120.0) && w.leftBiceps.target == a.leftBiceps + Radians(120.0)
    ensures var o := Apply(Settled(r, a), KneesO, legStrength, armStrength);
      o.leftCalf.target == a.leftCalf + Radians(40.0) && o.rightCalf.target == a.rightCalf - Radians(40.0)
    ensures var p := Apply(Settled(r, a), KneesP, legStrength, armStrength);
      p.leftCalf.target == a.leftCalf - Radians(40.0) && p.rightCalf.target == a.rightCalf + Radians(40.0)
  {
  }

  /** The rig a new Character starts with: every spring slack (stiffness
      0) and every body at angle 0. */
  const SlackRig: Rig :=
    var slack := MuscleState(0.0, 0.0, 0.0);
    Rig(slack, slack, slack, slack, slack, slack, slack)

  /** The muscle-driving part of Character. Each PhysicsLimbWithMuscle is
      owned by its character alone and is held here as the MuscleState of
      its spring and target body. */
  class Character {
    var rig: Rig
    const legStrength: real
    const armStrength: real

    /** The muscles of a new character, with the given strengths. */
    constructor (legStrength: real, armStrength: real)
      ensures rig == SlackRig
      ensures this.legStrength == legStrength && this.armStrength == armStrength
    {
      rig := SlackRig;
      this.legStrength := legStrength;
      this.armStrength := armStrength;
    }

    /** The muscles after a physics step that leaves the limbs at the given
        angles. */
    method Settle(angles: LimbAngles)
      modifies this`rig
      ensures rig == Settled(old(rig), angles)
    {
      rig := Settled(rig, angles);
    }

    /** move_legs_q */
    method MoveLegsQ()
      modifies this`rig
      ensures rig == Apply(old(rig), LegsQ, legStrength, armStrength)
    {
      rig := rig.(leftLeg := Move(rig.leftLeg, legStrength, -Radians(40.0)));
      rig := rig.(rightLeg := Move(rig.rightLeg, legStrength, Radians(40.0)));
      rig := rig.(rightBiceps := Move(rig.rightBiceps, armStrength, Radians(120.0)));
      rig := rig.(leftBiceps := Move(rig.leftBiceps, armStrength, Radians(-120.0)));
    }

    /** move_legs_w */
    method MoveLegsW()
      modifies this`rig
      ensures rig == Apply(old(rig), LegsW, legStrength, armStrength)
    {
      rig := rig.(leftLeg := Move(rig.leftLeg, legStrength, Radians(40.0)));
      rig := rig.(rightLeg := Move(rig.rightLeg, legStrength, -Radians(40.0)));
      rig := rig.(rightBiceps := Move(rig.rightBiceps, armStrength, Radians(-120.0)));
      rig := rig.(leftBiceps := Move(rig.leftBiceps, armStrength, Radians(120.0)));
    }

    /** move_knees_o */
    method MoveKneesO()
      modifies this`rig
      ensures rig == Apply(old(rig), KneesO, legStrength, armStrength)
    {
      rig := rig.(leftCalf := Move(rig.leftCalf, legStrength, Radians(40.0)));
      rig := rig.(rightCalf := Move(rig.rightCalf, legStrength, -Radians(40.0)));
    }

    /** move_knees_p */
    method MoveKneesP()
      modifies this`rig
      ensures rig == Apply(old(rig), KneesP, legStrength, armStrength)
    {
      rig := rig.(leftCalf := Move(rig.leftCalf, legStrength, -Radians(40.0)));
      rig := rig.(rightCalf := Move(rig.rightCalf, legStrength, Radians(40.0)));
    }

    /** hold_legs */
    method HoldLegs()
      modifies this`rig
      ensures rig == LegsHeld(old(rig), legStrength)
    {
      rig := rig.(leftLeg := Move(rig.leftLeg, legStrength, 0.0));
      rig := rig.(rightLeg := Move(rig.rightLeg, legStrength, 0.0));
    }

    /** hold_knees */
    method HoldKnees()
      modifies this`rig
      ensures rig == KneesHeld(old(rig), legStrength)
    {
      rig := rig.(leftCalf := Move(rig.leftCalf, legStrength, 0.0));
      rig := rig.(rightCalf := Move(rig.rightCalf, legStrength, 0.0));
    }

    /** relax_legs */
    method RelaxLegs()
      modifies this`rig
      ensures rig == LegsRelaxed(old(rig))
    {
      rig := rig.(leftLeg := Relax(rig.leftLeg));
      rig := rig.(rightLeg := Relax(rig.rightLeg));
    }

    /** relax_knees */
    method RelaxKnees()
      modifies this`rig
      ensures rig == KneesRelaxed(old(rig))
    {
      rig := rig.(leftCalf := Relax(rig.leftCalf));
      rig := rig.(rightCalf := Relax(rig.rightCalf));
    }
  }
}
