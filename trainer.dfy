/** The training loop of src/main.py: a population of agents run ten at a
    time, one frame per call, and replaced by the next generation once the
    eleventh sub-generation has started. Times are counted in frames of
    1/60 s. */
module Training {
  import opened Util
  import opened Characters
  import opened NeuralNet
  import opened CharacterSim
  import opened NextGen
  import opened Selection

  /** subgen_duration and subgen_duration_bonus: 3 s each. */
  const SubgenDuration: nat := 180
  const SubgenDurationBonus: nat := 180

  /** The size of the first generation. */
  const InitialPopulation: nat := 100

  /** The draws of one CharacterSimulation(): network samples and colour. */
  datatype SimDraws = SimDraws(init: InitDraws, color: Color)

  /** Some agent of xs is beyond the last recorded maximum. */
  predicate Beats(xs: seq<real>, lastMax: real) {
    exists x :: x in xs && x > lastMax
  }

  /** The largest of a non-empty list of values. */
  function MaxOf(xs: seq<real>): (m: real)
    requires |xs| > 0
    ensures m in xs && forall x :: x in xs ==> x <= m
  {
    if |xs| == 1 then xs[0]
    else
      var init := xs[..|xs| - 1];
      assert xs == init + [xs[|xs| - 1]];
      var m := MaxOf(init);
      if xs[|xs| - 1] > m then xs[|xs| - 1] else m
  }

  /** The recorded maximum and its time after a frame whose running agents
      stand at xs, at time now. */
  function Track(xs: seq<real>, lastMax: real, lastMaxTime: nat, now: nat): (real, nat) {
    if Beats(xs, lastMax) then (MaxOf(xs), now) else (lastMax, lastMaxTime)
  }

  /** The recorded maximum never goes down within a sub-generation; it
      moves exactly when some agent passes it, and then its time becomes
      the current time. */
  lemma TrackNeverDecreases(xs: seq<real>, lastMax: real, lastMaxTime: nat, now: nat)
    ensures Track(xs, lastMax, lastMaxTime, now).0 >= lastMax
    ensures Track(xs, lastMax, lastMaxTime, now).0 > lastMax <==> Beats(xs, lastMax)
    ensures Beats(xs, lastMax) ==> Track(xs, lastMax, lastMaxTime, now).1 == now
    ensures !Beats(xs, lastMax) ==> Track(xs, lastMax, lastMaxTime, now) == (lastMax, lastMaxTime)
  {
    if Beats(xs, lastMax) {
      var x :| x in xs && x > lastMax;
      assert x <= MaxOf(xs);
    }
  }

  /** The loop that finds max_x over the running agents and moves the
      recorded maximum (and the time it was reached) whenever it is
      beaten. max_x starts at minus infinity, None here. */
  method TrackMax(xs: seq<real>, lastMax: real, lastMaxTime: nat, appTime: nat)
    returns (maxX: Option<real>, newMax: real, newMaxTime: nat)
    ensures maxX.None? <==> |xs| == 0
    ensures maxX.Some? ==> maxX.value == MaxOf(xs)
    ensures (newMax, newMaxTime) == Track(xs, lastMax, lastMaxTime, appTime)
  {
    maxX, newMax, newMaxTime := None, lastMax, lastMaxTime;
    for k := 0 to |xs|
      invariant maxX.None? <==> k == 0
      invariant maxX.Some? ==> maxX.value in xs[..k] && forall x :: x in xs[..k] ==> x <= maxX.value
      invariant Beats(xs[..k], lastMax) ==> newMax == maxX.value && newMaxTime == appTime
      invariant !Beats(xs[..k], lastMax) ==> newMax == lastMax && newMaxTime == lastMaxTime
    {
      assert xs[..k + 1] == xs[..k] + [xs[k]];
      if maxX.None? || xs[k] > maxX.value {
        maxX := Some(xs[k]);
      }
      if maxX.value > newMax {
        newMax, newMaxTime := maxX.value, appTime;
      }
    }
    assert xs[..|xs|] == xs;
    if maxX.Some? {
      var m := MaxOf(xs);
      assert m <= maxX.value && maxX.value <= m;
    }
  }

  /** What Python raises when a pass reads sim.handler from an agent that
      never set that attribute. */
  const NoHandlerError: string := "AttributeError: 'CharacterSimulation' object has no attribute 'handler'"

  /** The max-tracking loop as src/main.py writes it: every pass first
      installs collision_detection as the separate callback of sim.handler.
      hasHandler says whether the agents' class sets that attribute: the
      CharacterSimulation of src/ never does, the one of the DQN
      environment does. Without it the first pass raises before anything
      is tracked; with it the loop is TrackMax. */
  method TrackMaxAsWritten(xs: seq<real>, hasHandler: bool, lastMax: real, lastMaxTime: nat, appTime: nat)
    returns (r: Result<(Option<real>, real, nat), string>)
    ensures r.Err? <==> |xs| > 0 && !hasHandler
    ensures r.Err? ==> r.error == NoHandlerError
    ensures r.Ok? ==>
      && (r.value.0.None? <==> |xs| == 0)
      && (r.value.0.Some? ==> r.value.0.value == MaxOf(xs))
      && (r.value.1, r.value.2) == Track(xs, lastMax, lastMaxTime, appTime)
  {
    if |xs| > 0 && !hasHandler {
      return Err(NoHandlerError);
    }
    var maxX, newMax, newMaxTime := TrackMax(xs, lastMax, lastMaxTime, appTime);
    r := Ok((maxX, newMax, newMaxTime));
  }

  /** The first frame after Start runs ten agents, so the loop as written
      fails on the very first frame with src/'s agents. */
  lemma FirstWindowRunsTen(poses: seq<Pose>)
    requires |poses| == InitialPopulation
    ensures |RunningXs(InitialPopulation, InitialSchedule.startSubgen, InitialSchedule.endSubgen, poses)| == WindowSize
  {
  }

  /** [CharacterSimulation(...) for _ in range(n)]: n new agents, each
      with its own objects. */
  method NewPopulation(n: nat, draws: nat -> SimDraws) returns (sims: seq<CharacterSimulation>, ghost owned: set<object>)
    ensures |sims| == n
    ensures fresh(owned) && OwnedWithin(sims, owned)
    ensures forall k :: 0 <= k < n ==> fresh(Owned(sims[k]))
    ensures forall k :: 0 <= k < n ==> sims[k].color == draws(k).color && sims[k].fitness == 0.0 && !sims[k].collided
    ensures AllReady(sims) && Separate(sims)
  {
    sims, owned := [], {};
    while |sims| < n
      invariant |sims| <= n
      invariant fresh(owned) && OwnedWithin(sims, owned)
      invariant forall k :: 0 <= k < |sims| ==> sims[k].color == draws(k).color && sims[k].fitness == 0.0 && !sims[k].collided
      invariant AllReady(sims) && Separate(sims)
    {
      sims, owned := Spawn(sims, draws(|sims|), owned);
    }
  }

  /** One more new agent at the end of the list. */
  method Spawn(sims: seq<CharacterSimulation>, d: SimDraws, ghost owned: set<object>)
    returns (next: seq<CharacterSimulation>, ghost nextOwned: set<object>)
    requires OwnedWithin(sims, owned) && AllReady(sims) && Separate(sims)
    ensures |next| == |sims| + 1 && next[..|sims|] == sims
    ensures fresh(Owned(next[|sims|])) && nextOwned == owned + Owned(next[|sims|])
    ensures next[|sims|].color == d.color && next[|sims|].fitness == 0.0 && !next[|sims|].collided
    ensures OwnedWithin(next, nextOwned) && AllReady(next) && Separate(next)
  {
    var sim := new CharacterSimulation(d.init, d.color);
    SeparateExtend(sims, sim, owned);
    AllReadyExtend(sims, sim);
    next := sims + [sim];
    nextOwned := owned + Owned(sim);
  }

  /** The agents at the given positions of a list, in that order. */
  function Pick(agents: seq<CharacterSimulation>, positions: seq<nat>): (picked: seq<CharacterSimulation>)
    requires forall k :: 0 <= k < |positions| ==> positions[k] < |agents|
    ensures |picked| == |positions|
    ensures forall k :: 0 <= k < |positions| ==> picked[k] == agents[positions[k]]
  {
    seq(|positions|, k requires 0 <= k < |positions| => agents[positions[k]])
  }

  predicate DistinctPositions(positions: seq<nat>) {
    forall i, j :: 0 <= i < j < |positions| ==> positions[i] != positions[j]
  }

  /** Picking agents at distinct positions keeps them ready and apart. */
  lemma PickKeeps(agents: seq<CharacterSimulation>, positions: seq<nat>, owned: set<object>)
    requires forall k :: 0 <= k < |positions| ==> positions[k] < |agents|
    requires DistinctPositions(positions)
    requires AllReady(agents) && Separate(agents) && OwnedWithin(agents, owned)
    ensures AllReady(Pick(agents, positions)) && Separate(Pick(agents, positions))
    ensures OwnedWithin(Pick(agents, positions), owned)
  {
    var picked := Pick(agents, positions);
    forall k, l | 0 <= k < l < |picked|
      ensures Distinct(picked[k], picked[l])
    {
      var p, q := positions[k], positions[l];
      if p < q {
        assert Distinct(agents[p], agents[q]);
      } else {
        assert Distinct(agents[q], agents[p]);
      }
    }
  }

  /** A slice of a population keeps its agents ready and apart. */
  lemma SliceKeeps(agents: seq<CharacterSimulation>, lo: nat, hi: nat, owned: set<object>)
    requires lo <= hi <= |agents|
    requires AllReady(agents) && Separate(agents) && OwnedWithin(agents, owned)
    ensures AllReady(agents[lo..hi]) && Separate(agents[lo..hi]) && OwnedWithin(agents[lo..hi], owned)
  {
    var part := agents[lo..hi];
    forall k, l | 0 <= k < l < |part|
      ensures Distinct(part[k], part[l])
    {
      assert Distinct(agents[lo + k], agents[lo + l]);
    }
  }

  /** Two populations over disjoint objects join into one. */
  lemma ConcatKeeps(a: seq<CharacterSimulation>, b: seq<CharacterSimulation>, ownedA: set<object>, ownedB: set<object>)
    requires AllReady(a) && Separate(a) && OwnedWithin(a, ownedA)
    requires AllReady(b) && Separate(b) && OwnedWithin(b, ownedB)
    requires ownedA !! ownedB
    ensures AllReady(a + b) && Separate(a + b) && OwnedWithin(a + b, ownedA + ownedB)
  {
    var ab := a + b;
    forall k, l | 0 <= k < l < |ab|
      ensures Distinct(ab[k], ab[l])
    {
      if l < |a| {
        assert Distinct(a[k], a[l]);
      } else if k >= |a| {
        assert Distinct(b[k - |a|], b[l - |a|]);
      } else {
        assert Owned(a[k]) <= ownedA && Owned(b[l - |a|]) <= ownedB;
      }
    }
  }

  /** The fitness of every agent from where its torso ended up. */
  function Scores(poses: seq<Pose>): (fits: seq<real>)
    ensures |fits| == |poses|
    ensures forall k :: 0 <= k < |poses| ==> fits[k] == Fitness(CharacterPosition(poses[k]).x)
  {
    seq(|poses|, k requires 0 <= k < |poses| => Fitness(CharacterPosition(poses[k]).x))
  }

  /** Each fitness paired with its position in the list. */
  function Ranking(fits: seq<real>): (r: seq<Ranked>)
    ensures |r| == |fits| && InListOrder(r)
    ensures forall k :: 0 <= k < |r| ==> r[k] == (fits[k], k)
  {
    seq(|fits|, k requires 0 <= k < |fits| => (fits[k], k))
  }

  function Positions(r: seq<Ranked>): (positions: seq<nat>)
    ensures |positions| == |r| && forall k :: 0 <= k < |r| ==> positions[k] == r[k].1
  {
    seq(|r|, k requires 0 <= k < |r| => r[k].1)
  }

  /** The sorted ranking lists every agent once, with its own fitness. */
  lemma SortedRankingEntries(fits: seq<real>)
    ensures var r := SortRanked(Ranking(fits));
      && (forall k :: 0 <= k < |r| ==> r[k].1 < |fits| && r[k].0 == fits[r[k].1])
      && DistinctPositions(Positions(r))
  {
    var r := SortRanked(Ranking(fits));
    forall k | 0 <= k < |r|
      ensures r[k].1 < |fits| && r[k].0 == fits[r[k].1]
    {
      assert r[k] in multiset(Ranking(fits));
      var i :| 0 <= i < |fits| && Ranking(fits)[i] == r[k];
    }
    forall i, j | 0 <= i < j < |r|
      ensures r[i].1 != r[j].1
    {
      assert Precedes(r[i], r[j]);
    }
  }

  /** sorted(sim_list, key=fitness): the agents in the stable order of
      their fitnesses. */
  function SortedGeneration(agents: seq<CharacterSimulation>, fits: seq<real>): (generation: seq<CharacterSimulation>)
    requires |fits| == |agents|
    ensures |generation| == |agents|
  {
    SortedRankingEntries(fits);
    Pick(agents, Positions(SortRanked(Ranking(fits))))
  }

  /** The sorted generation is ascending in fitness and holds every agent
      exactly once. */
  lemma SortedGenerationOrdered(agents: seq<CharacterSimulation>, fits: seq<real>)
    requires |fits| == |agents|
    ensures var r := SortRanked(Ranking(fits));
      && (forall k :: 0 <= k < |agents| ==> r[k].1 < |agents|)
      && (forall k :: 0 <= k < |agents| ==> SortedGeneration(agents, fits)[k] == agents[r[k].1])
      && (forall i, j :: 0 <= i < j < |agents| ==> fits[r[i].1] <= fits[r[j].1])
      && DistinctPositions(Positions(r))
  {
    SortedRankingEntries(fits);
    var r := SortRanked(Ranking(fits));
    forall i, j | 0 <= i < j < |agents|
      ensures fits[r[i].1] <= fits[r[j].1]
    {
      assert Precedes(r[i], r[j]);
    }
  }

  /** The x coordinates of the running agents, from their poses. */
  function RunningXs(n: nat, startSubgen: nat, endSubgen: nat, poses: seq<Pose>): (xs: seq<real>)
    requires |poses| == n
    ensures |xs| == |PySlice(poses, startSubgen, endSubgen)|
  {
    var running := PySlice(poses, startSubgen, endSubgen);
    seq(|running|, k requires 0 <= k < |running| => CharacterPosition(running[k]).x)
  }

  /** What an agent's network answers to the sensor vector of a pose:
      four values. */
  ghost function Answer(agent: CharacterSimulation, pose: Pose, exp: Exp): (out: seq<real>)
    requires agent.neuralNetwork.HasTopology(InputNodes, HiddenNodes, OutputNodes)
    reads agent`neuralNetwork, agent.neuralNetwork
    ensures |out| == OutputNodes && agent.neuralNetwork.Feedforward(exp, CharacterDataList(pose)) == Ok(out)
  {
    TopologyFixesShapes(agent.neuralNetwork, exp, CharacterDataList(pose), InputNodes, HiddenNodes, OutputNodes);
    agent.neuralNetwork.Feedforward(exp, CharacterDataList(pose)).value
  }

  /** The answer is what the agent's network gives for the pose, and
      after is what its muscles become when it acts on that answer. */
  ghost predicate Prepared(agent: CharacterSimulation, pose: Pose, exp: Exp, answer: seq<real>, after: Rig)
    reads agent`neuralNetwork, agent.neuralNetwork, agent.character`rig
  {
    && agent.neuralNetwork.HasTopology(InputNodes, HiddenNodes, OutputNodes)
    && agent.neuralNetwork.Feedforward(exp, CharacterDataList(pose)) == Ok(answer)
    && |answer| >= 4
    && after == Act(Settled(agent.character.rig, pose.limbAngles), Decide(answer),
                    agent.character.legStrength, agent.character.armStrength)
  }

  /** One agent of a population takes its step: its outputs become the
      given answer of its network and its muscles the given result of
      acting on it; no other agent of the population changes. */
  method StepAgent(agents: seq<CharacterSimulation>, k: nat, pose: Pose, exp: Exp, ghost answer: seq<real>, ghost after: Rig)
    requires Separate(agents) && k < |agents|
    requires Prepared(agents[k], pose, exp, answer, after)
    modifies (agents[k] as CharacterSimulation)`outputs, agents[k].character`rig
    ensures agents[k].outputs == answer && agents[k].character.rig == after
    ensures forall m :: 0 <= m < |agents| && m != k ==>
      agents[m].outputs == old(agents[m].outputs) && agents[m].character.rig == old(agents[m].character.rig)
  {
    var agent := agents[k];
    agent.Step(pose, exp);
    forall m | 0 <= m < |agents| && m != k
      ensures agents[m].outputs == old(agents[m].outputs)
      ensures agents[m].character.rig == old(agents[m].character.rig)
    {
      Apart(agents, k, m);
    }
  }

  /** The answer of every agent's network to its own pose, and what its
      muscles become when it acts on that answer. */
  lemma Prepare(agents: seq<CharacterSimulation>, poses: seq<Pose>, exp: Exp)
    returns (answers: seq<seq<real>>, driven: seq<Rig>)
    requires AllReady(agents) && |poses| == |agents|
    ensures |answers| == |driven| == |agents|
    ensures forall m {:trigger Prepared(agents[m], poses[m], exp, answers[m], driven[m])} :: 0 <= m < |agents| ==>
      Prepared(agents[m], poses[m], exp, answers[m], driven[m])
  {
    answers, driven := [], [];
    for k := 0 to |agents|
      invariant |answers| == |driven| == k
      invariant forall m {:trigger Prepared(agents[m], poses[m], exp, answers[m], driven[m])} :: 0 <= m < k ==>
        Prepared(agents[m], poses[m], exp, answers[m], driven[m])
    {
      var answer := Answer(agents[k], poses[k], exp);
      var agent := agents[k];
      answers := answers + [answer];
      driven := driven + [Act(Settled(agent.character.rig, poses[k].limbAngles), Decide(answer),
                              agent.character.legStrength, agent.character.armStrength)];
      assert Prepared(agent, poses[k], exp, answers[k], driven[k]);
    }
  }

  /** The agents at positions lo..hi take their steps in turn, each
      ending with the given answer of its network as outputs and its
      muscles as the given result of acting on it; every other agent keeps
      its outputs and muscles. */
  method StepEach(agents: seq<CharacterSimulation>, lo: nat, hi: nat, poses: seq<Pose>, exp: Exp,
                   ghost answers: seq<seq<real>>, ghost driven: seq<Rig>,
                   ghost sims: set<CharacterSimulation>, ghost characters: set<Character>)
    requires Separate(agents)
    requires lo <= hi <= |agents| == |poses| == |answers| == |driven|
    requires forall m {:trigger Prepared(agents[m], poses[m], exp, answers[m], driven[m])} :: lo <= m < hi ==>
      Prepared(agents[m], poses[m], exp, answers[m], driven[m])
    requires forall m :: 0 <= m < |agents| ==> agents[m] in sims && agents[m].character in characters
    modifies sims`outputs, characters`rig
    ensures forall m :: lo <= m < hi ==> agents[m].outputs == answers[m] && agents[m].character.rig == driven[m]
    ensures forall m :: 0 <= m < |agents| && !(lo <= m < hi) ==>
      agents[m].outputs == old(agents[m].outputs) && agents[m].character.rig == old(agents[m].character.rig)
  {
    for k := lo to hi
      invariant forall m :: lo <= m < k ==> agents[m].outputs == answers[m] && agents[m].character.rig == driven[m]
      invariant forall m :: 0 <= m < |agents| && !(lo <= m < k) ==>
        agents[m].outputs == old(agents[m].outputs) && agents[m].character.rig == old(agents[m].character.rig)
    {
      StepAgent(agents, k, poses[k], exp, answers[k], driven[k]);
    }
  }

  /** The stepping loop over positions lo..hi of a population: each of
      those agents ends with its network's answer to its pose as outputs
      and its muscles driven by that answer; every other agent keeps its
      outputs and muscles. */
  method StepRange(agents: seq<CharacterSimulation>, lo: nat, hi: nat, poses: seq<Pose>, exp: Exp,
                   ghost sims: set<CharacterSimulation>, ghost characters: set<Character>)
    requires AllReady(agents) && Separate(agents)
    requires lo <= hi <= |agents| == |poses|
    requires forall m :: 0 <= m < |agents| ==> agents[m] in sims && agents[m].character in characters
    modifies sims`outputs, characters`rig
    ensures forall m :: lo <= m < hi ==>
      && agents[m].outputs == Answer(agents[m], poses[m], exp)
      && agents[m].character.rig == Act(Settled(old(agents[m].character.rig), poses[m].limbAngles), Decide(agents[m].outputs),
                                        agents[m].character.legStrength, agents[m].character.armStrength)
    ensures forall m :: 0 <= m < |agents| && !(lo <= m < hi) ==>
      agents[m].outputs == old(agents[m].outputs) && agents[m].character.rig == old(agents[m].character.rig)
    ensures forall m :: 0 <= m < |agents| ==> agents[m].fitness == old(agents[m].fitness)
  {
    ghost var answers, driven := Prepare(agents, poses, exp);
    StepEach(agents, lo, hi, poses, exp, answers, driven, sims, characters);
    forall m | lo <= m < hi
      ensures agents[m].outputs == Answer(agents[m], poses[m], exp)
      ensures agents[m].character.rig == Act(Settled(old(agents[m].character.rig), poses[m].limbAngles), Decide(agents[m].outputs),
                                             agents[m].character.legStrength, agents[m].character.armStrength)
    {
      assert old(Prepared(agents[m], poses[m], exp, answers[m], driven[m]));
    }
  }

  /** The counters and clocks of main(), in frames. */
  datatype Schedule = Schedule(
    subgenCount: nat, startSubgen: nat, endSubgen: nat, genCount: nat,
    simTime: nat, appTime: nat, subSimTime: nat, subStartTime: nat,
    lastMax: real, lastMaxTime: nat)

  /** Their values before the first frame. */
  const InitialSchedule: Schedule := Schedule(1, 0, WindowSize, 1, 0, 0, 0, 0, 0.0, 0)

  /** The window covers the ten list positions of the current
      sub-generation, an eleventh at most, and no recorded time lies in
      the future. */
  predicate ScheduleValid(s: Schedule) {
    && 1 <= s.subgenCount <= SubgenNum + 1
    && s.startSubgen == WindowStart(s.subgenCount) && s.endSubgen == s.startSubgen + WindowSize
    && s.genCount >= 1
    && s.subStartTime <= s.appTime && s.lastMaxTime <= s.appTime
  }

  /** The window moves on: at least three seconds of it have passed and
      no agent has passed the recorded maximum for three seconds. */
  predicate Advances(s: Schedule, xs: seq<real>) {
    var now := s.appTime + 1;
    var tracked := Track(xs, s.lastMax, s.lastMaxTime, now);
    now - s.subStartTime >= SubgenDuration as int && now - tracked.1 >= SubgenDurationBonus as int
  }

  /** What one frame does to the counters when the running agents end it
      at xs: the clocks tick, the maximum is tracked, an eleventh
      sub-generation ends the generation, and the window advances when
      Advances says so (after any reset, from the times measured before
      it). */
  function NextSchedule(s: Schedule, xs: seq<real>): Schedule {
    var now := s.appTime + 1;
    var tracked := Track(xs, s.lastMax, s.lastMaxTime, now);
    var ticked := s.(simTime := s.simTime + 1, appTime := now, subSimTime := s.subSimTime + 1,
                     lastMax := tracked.0, lastMaxTime := tracked.1);
    var ended := if s.subgenCount > SubgenNum
      then ticked.(genCount := s.genCount + 1, simTime := 0, subgenCount := 1, startSubgen := 0, endSubgen := WindowSize)
      else ticked;
    if Advances(s, xs)
    then ended.(subStartTime := now, subgenCount := ended.subgenCount + 1, subSimTime := 0,
                startSubgen := ended.startSubgen + WindowSize, endSubgen := ended.endSubgen + WindowSize,
                lastMax := 0.0, lastMaxTime := 0)
    else ended
  }

  lemma InitialScheduleValid()
    ensures ScheduleValid(InitialSchedule)
  {
  }

  /** A frame keeps the schedule valid: the window stays ten wide and in
      step with the sub-generation counter. */
  lemma ScheduleStaysValid(s: Schedule, xs: seq<real>)
    requires ScheduleValid(s)
    ensures ScheduleValid(NextSchedule(s, xs))
  {
    TrackNeverDecreases(xs, s.lastMax, s.lastMaxTime, s.appTime + 1);
  }

  /** Within a generation the window slides by ten exactly when Advances
      holds, and a sliding window resets the recorded maximum and the
      sub-generation clock; otherwise the window, its start time and the
      counter stay, and the recorded maximum can only grow. */
  lemma WindowSlides(s: Schedule, xs: seq<real>)
    requires ScheduleValid(s) && s.subgenCount <= SubgenNum
    ensures var t := NextSchedule(s, xs);
      && (t.startSubgen == s.startSubgen + WindowSize <==> Advances(s, xs))
      && (Advances(s, xs) ==>
            && t.subgenCount == s.subgenCount + 1 && t.endSubgen == s.endSubgen + WindowSize
            && t.lastMax == 0.0 && t.lastMaxTime == 0 && t.subStartTime == t.appTime && t.subSimTime == 0)
      && (!Advances(s, xs) ==>
            && t.subgenCount == s.subgenCount && t.startSubgen == s.startSubgen
            && t.subStartTime == s.subStartTime && t.lastMax >= s.lastMax)
  {
    TrackNeverDecreases(xs, s.lastMax, s.lastMaxTime, s.appTime + 1);
  }

  /** No window advances before three seconds of it have passed. */
  lemma WindowLastsThreeSeconds(s: Schedule, xs: seq<real>)
    requires s.appTime + 1 - s.subStartTime < SubgenDuration as int
    ensures NextSchedule(s, xs).subStartTime == s.subStartTime
  {
  }

  /** A generation ends exactly on the frame that finds the counter past
      ten; that frame starts the next generation at window one (two, if
      the first window's times had already run out) with its clock at
      zero. */
  lemma GenerationEnds(s: Schedule, xs: seq<real>)
    requires ScheduleValid(s)
    ensures var t := NextSchedule(s, xs);
      && (t.genCount == s.genCount + 1 <==> s.subgenCount > SubgenNum)
      && (t.genCount == s.genCount <==> s.subgenCount <= SubgenNum)
      && (s.subgenCount > SubgenNum ==>
            && t.simTime == 0
            && t.subgenCount == (if Advances(s, xs) then 2 else 1)
            && t.startSubgen == WindowStart(t.subgenCount))
  {
  }

  /** The counter updates of one pass of the while loop of main(), in
      the order it makes them: the clocks tick, the maximum over the running
      agents is tracked, the elapsed times are taken, an eleventh
      sub-generation resets the counters of a generation, and the window
      advances when its time and the bonus time are both up. */
  method CountFrame(s: Schedule, xs: seq<real>) returns (t: Schedule)
    ensures t == NextSchedule(s, xs)
  {
    t := s.(simTime := s.simTime + 1, appTime := s.appTime + 1, subSimTime := s.subSimTime + 1);
    var maxX, newMax, newMaxTime := TrackMax(xs, t.lastMax, t.lastMaxTime, t.appTime);
    t := t.(lastMax := newMax, lastMaxTime := newMaxTime);
    var elapsedSubgenTime := t.appTime - t.subStartTime;
    var elapsedLastMaxTime := t.appTime - t.lastMaxTime;
    if t.subgenCount > SubgenNum {
      t := t.(genCount := t.genCount + 1, simTime := 0, subgenCount := 1, startSubgen := 0, endSubgen := WindowSize);
    }
    if elapsedSubgenTime >= SubgenDuration as int && elapsedLastMaxTime >= SubgenDurationBonus as int {
      t := t.(subStartTime := t.appTime, subgenCount := t.subgenCount + 1, subSimTime := 0,
              startSubgen := t.startSubgen + WindowSize, endSubgen := t.endSubgen + WindowSize,
              lastMax := 0.0, lastMaxTime := 0);
    }
  }

  /** The fitness of every agent from where its torso ended up. */
  method ScoreAll(agents: seq<CharacterSimulation>, poses: seq<Pose>, ghost sims: set<CharacterSimulation>)
    requires Separate(agents) && |poses| == |agents|
    requires forall m :: 0 <= m < |agents| ==> agents[m] in sims
    modifies sims`fitness
    ensures forall m :: 0 <= m < |agents| ==> agents[m].fitness == Scores(poses)[m]
  {
    var fits := Scores(poses);
    for k := 0 to |agents|
      invariant forall m :: 0 <= m < k ==> agents[m].fitness == fits[m]
    {
      agents[k].fitness := fits[k];
      forall m | 0 <= m < k
        ensures agents[m].fitness == fits[m]
      {
        Apart(agents, k, m);
      }
    }
  }

  /** The kept upper half of a sorted population is ready and apart. */
  lemma TopHalfKeeps(agents: seq<CharacterSimulation>, fits: seq<real>, owned: set<object>)
    requires |fits| == |agents|
    requires AllReady(agents) && Separate(agents) && OwnedWithin(agents, owned)
    ensures var top := TopHalf(SortedGeneration(agents, fits));
      AllReady(top) && Separate(top) && OwnedWithin(top, owned)
  {
    var n := |agents|;
    SortedGenerationOrdered(agents, fits);
    var sorted := SortedGeneration(agents, fits);
    PickKeeps(agents, Positions(SortRanked(Ranking(fits))), owned);
    SliceKeeps(sorted, n / 2, n, owned);
    assert TopHalf(sorted) == sorted[n / 2..n];
  }

  /** New children followed by the elites of the kept half form a
      population whose agents are ready and apart. */
  lemma JoinKeeps(children: seq<CharacterSimulation>, top: seq<CharacterSimulation>, childOwned: set<object>, owned: set<object>)
    requires AllReady(children) && Separate(children) && OwnedWithin(children, childOwned)
    requires AllReady(top) && Separate(top) && OwnedWithin(top, owned)
    requires childOwned !! owned
    ensures var next := children + Elites(top);
      AllReady(next) && Separate(next) && OwnedWithin(next, childOwned + owned)
  {
    SliceKeeps(top, SliceBound(|top|, |top| - EliteCount), SliceBound(|top|, |top|), owned);
    ConcatKeeps(children, Elites(top), childOwned, owned);
  }

  /** Breeding from the kept half: 101 children followed by its last
      five, unchanged. Fewer than two kept agents make random.sample fail,
      reported as !ok. */
  method Breed(top: seq<CharacterSimulation>, draws: nat -> ChildDraws, blend: (Color, Color) -> Color,
               ghost owned: set<object>)
    returns (ok: bool, next: seq<CharacterSimulation>, ghost nextOwned: set<object>)
    requires AllReady(top) && Separate(top) && OwnedWithin(top, owned)
    ensures ok <==> |top| >= 2
    ensures ok ==> |next| == ChildCount + |Elites(top)| && next[ChildCount..] == Elites(top)
    ensures ok ==> AllBred(next[..ChildCount], top, draws, blend)
    ensures !ok ==> next == []
    ensures owned <= nextOwned && fresh(nextOwned - owned)
    ensures AllReady(next) && Separate(next) && OwnedWithin(next, nextOwned)
  {
    var children;
    ghost var childOwned;
    ok, children, childOwned := MakeNextGen(top, draws, blend);
    if !ok {
      return false, [], owned;
    }
    JoinKeeps(children, top, childOwned, owned);
    next, nextOwned := children + Elites(top), childOwned + owned;
    assert next[..ChildCount] == children;
  }

  /** What main() keeps true of its sim_list: the agents are ready, share
      nothing and own objects within the given set, and there are never
      fewer than the first hundred. */
  ghost predicate Population(agents: seq<CharacterSimulation>, owned: set<object>)
    reads (set a | a in agents)`neuralNetwork
    reads (set a | a in agents :: a.neuralNetwork)`weightsIH, (set a | a in agents :: a.neuralNetwork)`weightsHO
  {
    OwnedWithin(agents, owned) && AllReady(agents) && Separate(agents) && |agents| >= InitialPopulation
  }

  /** The start of main(): a hundred new agents and the initial counters. */
  method Start(draws: nat -> SimDraws) returns (agents: seq<CharacterSimulation>, s: Schedule, ghost owned: set<object>)
    ensures Population(agents, owned) && fresh(owned) && ScheduleValid(s)
    ensures |agents| == InitialPopulation && s == InitialSchedule
    ensures forall k :: 0 <= k < |agents| ==> agents[k].color == draws(k).color && agents[k].fitness == 0.0
  {
    agents, owned := NewPopulation(InitialPopulation, draws);
    s := InitialSchedule;
  }

  /** The list positions of the agents a frame runs:
      sim_list[start_subgen:end_subgen] of a list of n agents. */
  predicate Running(s: Schedule, n: nat, k: nat) {
    SliceBound(n, s.startSubgen) <= k < SliceBound(n, s.endSubgen)
  }

  /** The end of a generation once every agent is scored: the next
      population is the 101 children of the upper half of the agents sorted
      by fitness, followed by the five best of that half, unchanged. */
  method EndGeneration(agents: seq<CharacterSimulation>, fits: seq<real>, draws: nat -> ChildDraws,
                       blend: (Color, Color) -> Color, ghost owned: set<object>)
    returns (next: seq<CharacterSimulation>, ghost nextOwned: set<object>)
    requires Population(agents, owned) && |fits| == |agents|
    ensures Population(next, nextOwned) && owned <= nextOwned && fresh(nextOwned - owned)
    ensures var top := TopHalf(SortedGeneration(agents, fits));
      && |next| == ChildCount + EliteCount && next[ChildCount..] == Elites(top)
      && AllBred(next[..ChildCount], top, draws, blend)
  {
    var top := TopHalf(SortedGeneration(agents, fits));
    TopHalfKeeps(agents, fits, owned);
    var ok;
    ok, next, nextOwned := Breed(top, draws, blend, owned);
    ElitesAreLastFive(top);
  }

  /** The generation check of a frame: past the tenth sub-generation
      every agent is scored and the population replaced; otherwise nothing
      changes. */
  method CheckGeneration(agents: seq<CharacterSimulation>, s: Schedule, poses: seq<Pose>,
                         draws: nat -> ChildDraws, blend: (Color, Color) -> Color, ghost owned: set<object>)
    returns (next: seq<CharacterSimulation>, ghost nextOwned: set<object>)
    requires Population(agents, owned) && |poses| == |agents|
    modifies (set a | a in agents)`fitness
    ensures Population(next, nextOwned) && owned <= nextOwned && fresh(nextOwned - owned)
    ensures forall k :: 0 <= k < |agents| ==>
      && agents[k].outputs == old(agents[k].outputs) && agents[k].character.rig == old(agents[k].character.rig)
      && unchanged(agents[k].neuralNetwork)
    ensures s.subgenCount <= SubgenNum ==> next == agents && forall k :: 0 <= k < |agents| ==> agents[k].fitness == old(agents[k].fitness)
    ensures s.subgenCount > SubgenNum ==>
      && (forall k :: 0 <= k < |agents| ==> agents[k].fitness == Scores(poses)[k])
      && var top := TopHalf(SortedGeneration(agents, Scores(poses)));
      && |next| == ChildCount + EliteCount && next[ChildCount..] == Elites(top)
      && AllBred(next[..ChildCount], top, draws, blend)
  {
    next, nextOwned := agents, owned;
    if s.subgenCount > SubgenNum {
      ScoreAll(agents, poses, set a | a in agents);
      next, nextOwned := EndGeneration(agents, Scores(poses), draws, blend, owned);
    }
  }

  /** The first half of a frame: the agents of the running window step,
      then the clocks and the furthest position are counted. */
  method StepWindow(agents: seq<CharacterSimulation>, s: Schedule, poses: seq<Pose>, exp: Exp)
    returns (t: Schedule)
    requires AllReady(agents) && Separate(agents) && ScheduleValid(s) && |poses| == |agents|
    modifies (set a | a in agents)`outputs, (set a | a in agents :: a.character)`rig
    ensures t == NextSchedule(s, RunningXs(|agents|, s.startSubgen, s.endSubgen, poses)) && ScheduleValid(t)
    ensures forall k :: 0 <= k < |agents| && Running(s, |agents|, k) ==>
      && agents[k].outputs == Answer(agents[k], poses[k], exp)
      && agents[k].character.rig == Act(Settled(old(agents[k].character.rig), poses[k].limbAngles), Decide(agents[k].outputs),
                                        agents[k].character.legStrength, agents[k].character.armStrength)
    ensures forall k :: 0 <= k < |agents| && !Running(s, |agents|, k) ==>
      agents[k].outputs == old(agents[k].outputs) && agents[k].character.rig == old(agents[k].character.rig)
    ensures forall k :: 0 <= k < |agents| ==> agents[k].fitness == old(agents[k].fitness)
  {
    StepRange(agents, SliceBound(|agents|, s.startSubgen), SliceBound(|agents|, s.endSubgen), poses, exp,
              set a | a in agents, set a | a in agents :: a.character);
    var xs := RunningXs(|agents|, s.startSubgen, s.endSubgen, poses);
    t := CountFrame(s, xs);
    ScheduleStaysValid(s, xs);
  }

  /** One pass of the while loop of main() without drawing: the running
      agents step, the counters move as NextSchedule says, and an eleventh
      sub-generation scores every agent and replaces the population. The
      agents outside the window are not stepped. */
  method Frame(agents: seq<CharacterSimulation>, s: Schedule, poses: seq<Pose>, exp: Exp,
               draws: nat -> ChildDraws, blend: (Color, Color) -> Color, ghost owned: set<object>)
    returns (next: seq<CharacterSimulation>, t: Schedule, ghost nextOwned: set<object>)
    requires Population(agents, owned) && ScheduleValid(s) && |poses| == |agents|
    modifies (set a | a in agents)`outputs, (set a | a in agents :: a.character)`rig, (set a | a in agents)`fitness
    ensures Population(next, nextOwned) && owned <= nextOwned && fresh(nextOwned - owned)
    ensures t == NextSchedule(s, RunningXs(|agents|, s.startSubgen, s.endSubgen, poses)) && ScheduleValid(t)
    ensures forall k :: 0 <= k < |agents| && Running(s, |agents|, k) ==>
      && agents[k].outputs == Answer(agents[k], poses[k], exp)
      && agents[k].character.rig == Act(Settled(old(agents[k].character.rig), poses[k].limbAngles), Decide(agents[k].outputs),
                                        agents[k].character.legStrength, agents[k].character.armStrength)
    ensures forall k :: 0 <= k < |agents| && !Running(s, |agents|, k) ==>
      agents[k].outputs == old(agents[k].outputs) && agents[k].character.rig == old(agents[k].character.rig)
    ensures s.subgenCount <= SubgenNum ==>
      next == agents && forall k :: 0 <= k < |agents| ==> agents[k].fitness == old(agents[k].fitness)
    ensures s.subgenCount > SubgenNum ==>
      && (forall k :: 0 <= k < |agents| ==> agents[k].fitness == Scores(poses)[k])
      && var top := TopHalf(SortedGeneration(agents, Scores(poses)));
      && |next| == ChildCount + EliteCount && next[ChildCount..] == Elites(top)
      && AllBred(next[..ChildCount], top, draws, blend)
  {
    t := StepWindow(agents, s, poses, exp);
    next, nextOwned := CheckGeneration(agents, s, poses, draws, blend, owned);
  }
}
