/** The environment-side simulation of the DQN experiment
    (dql/gym_qwop/envs/character_simulation.py): a character driven by
    discrete action ids instead of a network. */
module DqlSim {
  import opened Util
  import opened Characters
  import CharacterSim

  /** The muscle strengths this simulation builds its character with. */
  const LegMuscleStrength: real := 1000000.0
  const ArmMuscleStrength: real := 50000.0

  /** The number of action ids that select a command. */
  const ActionCount: int := 4

  /** The command an action id selects: 0, 1, 2 and 3 are the Q, W, O and P
      keys; any other id selects nothing. */
  function CommandOf(action: int): (c: Option<Command>)
    ensures c.Some? <==> 0 <= action < ActionCount
  {
    if action == 0 then Some(LegsQ)
    else if action == 1 then Some(LegsW)
    else if action == 2 then Some(KneesO)
    else if action == 3 then Some(KneesP)
    else None
  }

  /** The action id of a key command: its position among Q, W, O, P. */
  function ActionOf(c: Command): (action: int)
    ensures 0 <= action < ActionCount
  {
    match c
    case LegsQ => 0
    case LegsW => 1
    case KneesO => 2
    case KneesP => 3
  }

  /** Every command has exactly one action id and every id below four names
      exactly one command: the dispatch is a bijection between [0, 4) and
      the commands. */
  lemma DispatchIsBijective(c: Command, action: int)
    ensures CommandOf(ActionOf(c)) == Some(c)
    ensures 0 <= action < ActionCount ==> ActionOf(CommandOf(action).value) == action
    ensures CommandOf(action) == Some(c) <==> action == ActionOf(c)
  {
  }

  class Simulation {
    var collided: bool
    const character: Character
    const outputs: seq<real>
    const fitness: real
    const color: CharacterSim.Color

    /** A new simulation: no collision, fitness 0, a fresh slack character,
        and outputs fixed to the sensor vector of the initial pose. The
        physics world and the ground are not modelled; the colour is the one
        drawn for it. */
    constructor (color: CharacterSim.Color)
      ensures fresh(character)
      ensures !collided && fitness == 0.0 && this.color == color
      ensures outputs == CharacterDataList(InitialPose) && |outputs| == 24
      ensures character.rig == SlackRig
      ensures character.legStrength == LegMuscleStrength && character.armStrength == ArmMuscleStrength
    {
      collided := false;
      character := new Character(LegMuscleStrength, ArmMuscleStrength);
      outputs := CharacterDataList(InitialPose);
      fitness := 0.0;
      this.color := color;
    }

    /** collision_detection: the physics callback only ever raises the flag. */
    method CollisionDetection()
      modifies this`collided
      ensures collided
    {
      collided := true;
    }

    /** step: the physics step leaves the bodies and limbs at pose, so the
        limbs turn while the springs keep their stiffness and targets; the
        sensor vector is then read and dropped, and the simulation's own
        fields, outputs and fitness included, do not change. */
    method Step(pose: Pose) returns (inputs: seq<real>)
      modifies character`rig
      ensures inputs == CharacterDataList(pose) && |inputs| == 24
      ensures unchanged(this)
      ensures character.rig == Settled(old(character.rig), pose.limbAngles)
    {
      character.Settle(pose.limbAngles);
      inputs := CharacterDataList(pose);
    }

    /** action: the id chooses at most one key command for the character. */
    method Action(action: int)
      modifies character`rig
      ensures CommandOf(action).Some? ==>
        character.rig == Apply(old(character.rig), CommandOf(action).value, character.legStrength, character.armStrength)
      ensures CommandOf(action).None? ==> character.rig == old(character.rig)
    {
      if action == 0 {
        character.MoveLegsQ();
      }
      if action == 1 {
        character.MoveLegsW();
      }
      if action == 2 {
        character.MoveKneesO();
      }
      if action == 3 {
        character.MoveKneesP();
      }
    }
  }
}
