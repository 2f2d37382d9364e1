/** One evolving agent of character_simulation.py: a character, its
    controller network, the last network outputs, a fitness and a colour. */
module CharacterSim {
  import opened Util
  import opened Characters
  import opened NeuralNet

  /** A raylib Color: red, green, blue and alpha bytes. */
  datatype Color = Color(r: int, g: int, b: int, a: int)

  /** The dictionary output_data builds: "color" as an (r, g, b, a) tuple,
      "network" as the network's own dictionary, and "fitness". */
  datatype SimData = SimData(color: (int, int, int, int), network: NetworkData, fitness: real)

  /** Muscle strengths every simulated character is built with. */
  const LegMuscleStrength: real := 1000000.0
  const ArmMuscleStrength: real := 50000.0

  /** `a >= 0.5 > b`: the command an output drives fires only while the
      antagonist output is below the threshold. */
  predicate Fires(a: real, b: real) {
    a >= 0.5 && 0.5 > b
  }

  /** The commands one step issues: at most one for the legs (outputs 0
      and 1) and at most one for the knees (outputs 2 and 3). */
  datatype Decision = Decision(legs: Option<Command>, knees: Option<Command>)

  function Decide(out: seq<real>): (d: Decision)
    requires |out| >= 4
    ensures d.legs == Some(LegsQ) <==> out[0] >= 0.5 && out[1] < 0.5
    ensures d.legs == Some(LegsW) <==> out[1] >= 0.5 && out[0] < 0.5
    ensures d.knees == Some(KneesO) <==> out[2] >= 0.5 && out[3] < 0.5
    ensures d.knees == Some(KneesP) <==> out[3] >= 0.5 && out[2] < 0.5
    ensures d.legs.Some? ==> IsLegCommand(d.legs.value)
    ensures d.knees.Some? ==> !IsLegCommand(d.knees.value)
  {
    Decision(
      if Fires(out[0], out[1]) then Some(LegsQ) else if Fires(out[1], out[0]) then Some(LegsW) else None,
      if Fires(out[2], out[3]) then Some(KneesO) else if Fires(out[3], out[2]) then Some(KneesP) else None)
  }

  /** When both outputs of a pair reach the threshold, neither command of
      that pair fires (there is no first-test-wins tie-break); when both are
      below it, neither fires either. */
  lemma AntagonistsCancel(out: seq<real>)
    requires |out| >= 4
    ensures (out[0] >= 0.5) == (out[1] >= 0.5) <==> Decide(out).legs == None
    ensures (out[2] >= 0.5) == (out[3] >= 0.5) <==> Decide(out).knees == None
  {
  }

  /** The leg decision reads only outputs 0 and 1, the knee decision only
      outputs 2 and 3. */
  lemma DecisionsAreLocal(out1: seq<real>, out2: seq<real>)
    requires |out1| >= 4 && |out2| >= 4
    ensures out1[0] == out2[0] && out1[1] == out2[1] ==> Decide(out1).legs == Decide(out2).legs
    ensures out1[2] == out2[2] && out1[3] == out2[3] ==> Decide(out1).knees == Decide(out2).knees
  {
  }

  /** The effect of a decision on the character's muscles. */
  function Act(r: Rig, d: Decision, legStrength: real, armStrength: real): Rig {
    var afterLegs := if d.legs.Some? then Apply(r, d.legs.value, legStrength, armStrength) else r;
    if d.knees.Some? then Apply(afterLegs, d.knees.value, legStrength, armStrength) else afterLegs
  }

  /** character_position: the torso position in screen coordinates, with
      y mirrored about 50 (screen y = 100 - physics y). */
  function CharacterPosition(pose: Pose): (p: Vec2)
    ensures p.x == pose.torso.x
    ensures p.y + pose.torso.y == 100.0
  {
    Vec2(pose.torso.x, -pose.torso.y + 100.0)
  }

  class CharacterSimulation {
    var collided: bool
    const character: Character
    var neuralNetwork: NeuralNetwork
    var outputs: seq<real>
    var fitness: real
    var color: Color

    /** A new agent: no collision, fitness 0, a fresh character and a fresh
        network of the default topology; outputs start as the sensor vector
        of the initial pose. The physics world and ground are not modelled;
        the colour is the one drawn for it. */
    constructor (draws: InitDraws, color: Color)
      ensures fresh(character) && fresh(neuralNetwork)
      ensures !collided && fitness == 0.0 && this.color == color
      ensures outputs == CharacterDataList(InitialPose)
      ensures character.legStrength == LegMuscleStrength && character.armStrength == ArmMuscleStrength
      ensures neuralNetwork.HasTopology(InputNodes, HiddenNodes, OutputNodes)
      ensures character.rig == SlackRig
    {
      collided := false;
      character := new Character(LegMuscleStrength, ArmMuscleStrength);
      neuralNetwork := new NeuralNetwork(InputNodes, HiddenNodes, OutputNodes, draws);
      outputs := CharacterDataList(InitialPose);
      fitness := 0.0;
      this.color := color;
    }

    /** collision_detection: the physics callback only ever raises the flag. */
    method CollisionDetection()
      modifies this`collided
      ensures collided
    {
      collided := true;
    }

    /** step: the physics step leaves the bodies and limbs at pose; the
        sensor vector then goes through the network, the outputs are stored,
        and the commands they decide drive the muscles from the limbs' new
        angles. */
    method Step(pose: Pose, exp: Exp)
      requires neuralNetwork.Accepts(|CharacterDataList(pose)|) && |neuralNetwork.weightsHO| >= 4
      modifies this`outputs, character`rig
      ensures outputs == old(neuralNetwork.Feedforward(exp, CharacterDataList(pose))).value
      ensures |outputs| >= 4
      ensures character.rig == Act(Settled(old(character.rig), pose.limbAngles), Decide(outputs),
                                   character.legStrength, character.armStrength)
    {
      character.Settle(pose.limbAngles);
      var inputs := CharacterDataList(pose);
      outputs := neuralNetwork.Feedforward(exp, inputs).value;
      ghost var d := Decide(outputs);
      ghost var start := character.rig;
      if outputs[0] >= 0.5 > outputs[1] {
        character.MoveLegsQ();
      }
      if outputs[1] >= 0.5 > outputs[0] {
        character.MoveLegsW();
      }
      ghost var afterLegs := character.rig;
      assert afterLegs == if d.legs.Some? then Apply(start, d.legs.value, character.legStrength, character.armStrength) else start;
      if outputs[2] >= 0.5 > outputs[3] {
        character.MoveKneesO();
      }
      if outputs[3] >= 0.5 > outputs[2] {
        character.MoveKneesP();
      }
    }

    /** output_data */
    function OutputData(): (data: SimData)
      reads this, neuralNetwork
      ensures data.network == neuralNetwork.OutputData()
      ensures data.fitness == fitness
      ensures data.color == (color.r, color.g, color.b, color.a)
    {
      SimData((color.r, color.g, color.b, color.a), neuralNetwork.OutputData(), fitness)
    }

    /** load_data: restores colour and network in place; fitness is not
        restored and keeps its current value. */
    method LoadData(data: SimData)
      modifies this`color, neuralNetwork
      ensures color == Color(data.color.0, data.color.1, data.color.2, data.color.3)
      ensures neuralNetwork == old(neuralNetwork)
      ensures OutputData() == data.(fitness := old(fitness))
    {
      color := Color(data.color.0, data.color.1, data.color.2, data.color.3);
      neuralNetwork.LoadData(data.network);
    }
  }

  /** The objects an agent owns: itself, its muscles and its network. */
  ghost function Owned(agent: CharacterSimulation): set<object>
    reads agent`neuralNetwork
  {
    {agent, agent.character, agent.neuralNetwork}
  }

  /** Every agent's objects lie in owned. */
  ghost predicate OwnedWithin(agents: seq<CharacterSimulation>, owned: set<object>)
    reads (set s | s in agents)`neuralNetwork
  {
    forall k :: 0 <= k < |agents| ==> Owned(agents[k]) <= owned
  }

  /** No two agents share an object: not the agent, not the character,
      not the network. */
  ghost predicate Separate(agents: seq<CharacterSimulation>)
    reads (set s | s in agents)`neuralNetwork
  {
    forall k, l :: 0 <= k < l < |agents| ==> Distinct(agents[k], agents[l])
  }

  /** Two agents are different objects with different characters and
      different networks. */
  ghost predicate Distinct(a: CharacterSimulation, b: CharacterSimulation)
    reads a`neuralNetwork, b`neuralNetwork
  {
    a != b && a.character != b.character && a.neuralNetwork != b.neuralNetwork
  }

  /** Two agents at different positions of a separate population share
      neither object, character nor network. */
  lemma Apart(agents: seq<CharacterSimulation>, k: nat, m: nat)
    requires Separate(agents) && k < |agents| && m < |agents| && k != m
    ensures agents[k] != agents[m] && agents[k].character != agents[m].character
    ensures agents[k].neuralNetwork != agents[m].neuralNetwork
  {
    if k < m {
      assert Distinct(agents[k], agents[m]);
    } else {
      assert Distinct(agents[m], agents[k]);
    }
  }

  /** Every agent's network has the default topology. */
  ghost predicate AllReady(agents: seq<CharacterSimulation>)
    reads (set s | s in agents)`neuralNetwork
    reads (set s | s in agents :: s.neuralNetwork)`weightsIH, (set s | s in agents :: s.neuralNetwork)`weightsHO
  {
    forall k :: 0 <= k < |agents| ==>
      agents[k].neuralNetwork.HasTopology(InputNodes, HiddenNodes, OutputNodes)
  }

  lemma AllReadyExtend(agents: seq<CharacterSimulation>, agent: CharacterSimulation)
    requires AllReady(agents)
    requires agent.neuralNetwork.HasTopology(InputNodes, HiddenNodes, OutputNodes)
    ensures AllReady(agents + [agent])
  {
  }

  lemma SeparateExtend(agents: seq<CharacterSimulation>, agent: CharacterSimulation, owned: set<object>)
    requires Separate(agents) && OwnedWithin(agents, owned)
    requires Owned(agent) !! owned
    ensures Separate(agents + [agent]) && OwnedWithin(agents + [agent], owned + Owned(agent))
  {
  }
}
