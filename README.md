# qwop-bot training core in Dafny

This project models the decision logic of qwop-bot, a program that teaches a
ragdoll runner to play QWOP. It has two trainers.

- **Neuro-evolution (`src/`).** Every agent is a simulated character driven
  by a small feedforward network. The training loop runs the agents ten at a
  time. Each window runs until three seconds have passed and nobody has gone
  further for three seconds. After ten windows, every agent is scored by how
  far its torso got. The list is sorted by score. The upper half breeds the
  next generation by entry-wise crossover of two distinct parents, and the
  five best agents are carried over unchanged.
- **Deep Q-learning (`dql/`).** A gym environment drives the same character
  with four discrete actions. An agent keeps a ring buffer of transitions,
  samples batches from it and decays its exploration rate.

Physics, rendering, file I/O and floating-point numerics are outside the
model. Body positions enter as values, random numbers as draws passed in,
and the exponential of the sigmoid as an unknown positive function.

Modules, one per source file:

| module | file | models |
|---|---|---|
| `Util` | util.dfy | `gen_rect_verts`, the sigmoid clamp, `vec2d_to_arr` |
| `Characters` | character.dfy | the 24-value sensor vector; muscle commands on a `Character` class |
| `NeuralNet` | neural_network.dfy | network shapes, `feedforward`, the dictionary round trip |
| `CharacterSim` | character_simulation.dfy | the agent class; the threshold decision of `step`; the snapshot |
| `CollisionDet` | collision_det.dfy | the ground-contact predicate |
| `NextGen` | next_gen.dfy | crossover into a pre-allocated 2-D array; the breeding loop |
| `Selection` | selection.dfy | fitness rounding, stable sort, top half, elites, windows |
| `Training` | trainer.dfy | the frame loop of `main()`: stepping, counters, generation change |
| `DqlSim` | dql_simulation.dfy | action dispatch of the DQN environment's simulation |
| `DqlAgent` | dql_agent.dfy | replay ring buffer, learn guard, batch sampling, epsilon decay |

## Where the model follows the code rather than its comments

- **Ties fire nothing.** A command fires only when its output is at least
  0.5 and the antagonist's is below 0.5. When both outputs of a pair reach
  0.5, neither command fires; no first-test-wins rule applies
  (`CharacterSim.AntagonistsCancel`).
- **The next population has 106 agents.** The comment above
  `make_next_gen` says 100 children, but the loop runs while fewer than 101
  exist. The top five are then appended, so each later population has 106
  agents (`Training.EndGeneration`). Windows 1-10 cover positions 0-99. The
  six agents at positions 100-105 run only in the eleventh window, which is
  also the frame in which the generation ends.
- **The mutation branch is dead.** A random number below 0.5 takes parent 1.
  Otherwise the number is at least 0.5, which is above 0.05, so parent 2 is
  taken. The Gaussian branch is never reached
  (`NextGen.MutationBranchDead`).
- **Elites keep their objects.** The five carried-over agents keep their
  network, their colour, their character and their fitness.
- **Fewer than five kept agents.** With three or four kept agents, the
  slice `[len-5:len]` has a negative start. It then yields only the last
  `5 - len` of them (`Selection.ElitesOfShortList`).
- **The sensor vector comes from another file.** `src/character_simulation.py`
  imports `character_data_list`, which `src/character.py` does not define.
  The definition in `DeepQLearningEX/gym_qwop/envs/character/character.py`
  is the one modelled.

## Model

| member | source | states |
|---|---|---|
| Util.GenRectVerts | DeepQLearningEX/gym_qwop/envs/character/util.py:7-13 | exactly four corners: (-w/2,-h/2), (-w/2,h/2), (w/2,h/2), (w/2,-h/2), in that order |
| Util.RectVertsFormBox | DeepQLearningEX/gym_qwop/envs/character/util.py:8-13 | for non-zero sizes, cyclically consecutive corners differ in exactly one coordinate; the box spans width by height and is centred on the origin |
| Util.Clamp | DeepQLearningEX/gym_qwop/envs/character/util.py:16 | the result lies in [-500, 500]; it is x inside that range and the nearer bound outside it |
| Util.ClampIdempotent | DeepQLearningEX/gym_qwop/envs/character/util.py:16 | clamping twice is clamping once |
| Util.ClampMonotone | DeepQLearningEX/gym_qwop/envs/character/util.py:16 | the clamp preserves order |
| Util.Sigmoid | DeepQLearningEX/gym_qwop/envs/character/util.py:15-17 | for any positive exponential, the value lies strictly between 0 and 1 |
| Util.SigmoidSaturates | DeepQLearningEX/gym_qwop/envs/character/util.py:16-17 | the sigmoid only sees the clamped argument; beyond ±500 it is constant |
| Util.Vec2dToArr | DeepQLearningEX/gym_qwop/envs/character/util.py:20-21 | the two-element list [x, y] |
| Characters.BodyOrder | DeepQLearningEX/gym_qwop/envs/character/character.py:269-280 | twelve bodies, in the order the sensor list reads them |
| Characters.FlattenLayout | DeepQLearningEX/gym_qwop/envs/character/character.py:268-281 | extending an empty list with [x, y] per body puts body k's x at 2k and its y at 2k+1 |
| Characters.CharacterDataList | DeepQLearningEX/gym_qwop/envs/character/character.py:267-281 | 24 values; elements 2k and 2k+1 are x and y of the k-th body: torso, head, right forearm, right biceps, left forearm, left biceps, right leg, right calf, right foot, left leg, left calf, left foot |
| Characters.Move | DeepQLearningEX/gym_qwop/envs/character/character.py:61-63 | stiffness becomes the strength; the target sits at the limb's angle plus the offset; the limb is untouched |
| Characters.Relax | DeepQLearningEX/gym_qwop/envs/character/character.py:66-67 | stiffness becomes 0; target and limb angle are unchanged |
| Characters.LegsWMirrorsLegsQ | DeepQLearningEX/gym_qwop/envs/character/character.py:230-240 | W drives the same four muscles as Q at the same strengths, with every offset negated (legs ±40°, arms ±120°); both leave the other muscles alone |
| Characters.KneeCommandsMoveOnlyCalves | DeepQLearningEX/gym_qwop/envs/character/character.py:242-248 | O and P touch only the two calves, at leg strength, with opposite ±40° offsets |
| Characters.LegAndKneeCommandsCommute | DeepQLearningEX/gym_qwop/envs/character/character.py:230-248 | a leg command and a knee command act on disjoint muscles, so their order does not matter |
| Characters.LegsHeld | DeepQLearningEX/gym_qwop/envs/character/character.py:250-252 | both leg springs at leg strength with offset 0; nothing else changes |
| Characters.KneesHeld | DeepQLearningEX/gym_qwop/envs/character/character.py:254-256 | both calf springs at leg strength with offset 0; nothing else changes |
| Characters.LegsRelaxed | DeepQLearningEX/gym_qwop/envs/character/character.py:258-260 | only the two leg springs lose their stiffness; their targets stay |
| Characters.KneesRelaxed | DeepQLearningEX/gym_qwop/envs/character/character.py:262-264 | only the two calf springs lose their stiffness; their targets stay |
| Characters.Character.constructor | DeepQLearningEX/gym_qwop/envs/character/character.py:143-144 | the character keeps both strengths, and every spring starts slack |
| Characters.Settled | src/character_simulation.py:40 | after a physics step every muscled limb is at the angle the step left it at, and every spring keeps its stiffness and target |
| Characters.CommandsFollowTheLimb | DeepQLearningEX/gym_qwop/envs/character/character.py:61-63 | a command issued after a physics step aims each muscle it moves at the limb's current angle plus the command's offset; no command turns a limb |
| Characters.Character.Settle | src/character_simulation.py:40 | the muscles become those the physics step leaves: the new limb angles, the old springs |
| Characters.Character.MoveLegsQ | DeepQLearningEX/gym_qwop/envs/character/character.py:230-234 | the muscles become those of command Q applied to the previous ones |
| Characters.Character.MoveLegsW | DeepQLearningEX/gym_qwop/envs/character/character.py:236-240 | the muscles become those of command W applied to the previous ones |
| Characters.Character.MoveKneesO | DeepQLearningEX/gym_qwop/envs/character/character.py:242-244 | the muscles become those of command O applied to the previous ones |
| Characters.Character.MoveKneesP | DeepQLearningEX/gym_qwop/envs/character/character.py:246-248 | the muscles become those of command P applied to the previous ones |
| Characters.Character.HoldLegs | DeepQLearningEX/gym_qwop/envs/character/character.py:250-252 | the muscles become LegsHeld of the previous ones |
| Characters.Character.HoldKnees | DeepQLearningEX/gym_qwop/envs/character/character.py:254-256 | the muscles become KneesHeld of the previous ones |
| Characters.Character.RelaxLegs | DeepQLearningEX/gym_qwop/envs/character/character.py:258-260 | the muscles become LegsRelaxed of the previous ones |
| Characters.Character.RelaxKnees | DeepQLearningEX/gym_qwop/envs/character/character.py:262-264 | the muscles become KneesRelaxed of the previous ones |
| NeuralNet.DotWithBias | src/neural_network.py:33-34 | dotting a row with the inputs plus the appended bias is the dot product of the first part plus the last weight times the bias |
| NeuralNet.Layer | src/neural_network.py:34 | one sigmoid value per matrix row, each strictly between 0 and 1 |
| NeuralNet.LayerAt | src/neural_network.py:34 | the k-th value of a layer is the sigmoid of row k dotted with the layer's input |
| NeuralNet.NeuralNetwork.constructor | src/neural_network.py:9-27 | weights_ih is hidden×(input+1) and weights_ho is output×(hidden+1), filled from the draws; the biases come from the draws |
| NeuralNet.NeuralNetwork.Hidden | src/neural_network.py:33-34 | one hidden value per row of weights_ih, each strictly between 0 and 1 |
| NeuralNet.NeuralNetwork.Feedforward | src/neural_network.py:29-41 | succeeds exactly when every row length matches the input length plus one; then yields one value per row of weights_ho, each strictly between 0 and 1 |
| NeuralNet.FeedforwardNodes | src/neural_network.py:33-39 | hidden value i is sigmoid(dot(row i, inputs ++ [bias_ih])); output k is sigmoid(dot(row k, hidden ++ [bias_ho])) |
| NeuralNet.TopologyFixesShapes | src/neural_network.py:19-39 | for a network of the constructor's shapes, feedforward accepts exactly input-length vectors and returns output-length vectors |
| NeuralNet.NeuralNetwork.LoadData | src/neural_network.py:43-47 | after loading, output_data returns exactly the dictionary loaded: both biases and both matrices |
| NeuralNet.LoadOutputDataRoundTrip | src/neural_network.py:43-56 | loading one network's output_data into another makes their dictionaries and their feedforward results equal |
| CharacterSim.Decide | src/character_simulation.py:43-50 | Q iff out[0] ≥ 0.5 and out[1] < 0.5; W iff out[1] ≥ 0.5 and out[0] < 0.5; O iff out[2] ≥ 0.5 and out[3] < 0.5; P iff out[3] ≥ 0.5 and out[2] < 0.5; at most one leg and one knee command |
| CharacterSim.AntagonistsCancel | src/character_simulation.py:43-50 | no leg command exactly when outputs 0 and 1 are on the same side of 0.5; likewise for the knees with outputs 2 and 3 |
| CharacterSim.DecisionsAreLocal | src/character_simulation.py:43-50 | the leg decision depends only on outputs 0-1, the knee decision only on outputs 2-3 |
| CharacterSim.CharacterPosition | src/character_simulation.py:64-65 | torso (x, y) maps to (x, 100 - y) |
| CharacterSim.CharacterSimulation.constructor | src/character_simulation.py:11-32 | not collided, fitness 0, the drawn colour, a fresh character of strengths 1 000 000 and 50 000, a fresh default network, and outputs equal to the sensor vector |
| CharacterSim.CharacterSimulation.CollisionDetection | src/character_simulation.py:34-35 | collided becomes true |
| CharacterSim.CharacterSimulation.Step | src/character_simulation.py:39-50 | the limbs turn to the angles the physics step leaves; outputs become the network's answer to the sensor vector; the muscles become the decided commands applied from the limbs' new angles |
| CharacterSim.CharacterSimulation.OutputData | src/character_simulation.py:52-58 | the colour tuple, the network's dictionary and the fitness |
| CharacterSim.CharacterSimulation.LoadData | src/character_simulation.py:60-62 | restores colour and network, so that output_data gives back the dictionary loaded except for the fitness, which is left as it was |
| CollisionDet.UpperBodyShapes | src/collision_det.py:5-10 | six shapes: head, torso, both biceps, both forearms |
| CollisionDet.OnCollision | src/collision_det.py:2-17 | true only if one shape is the ground and one is an upper-body shape |
| CollisionDet.OnCollisionSymmetric | src/collision_det.py:13-14 | the result does not depend on the order of the two shapes |
| CollisionDet.OnCollisionWithGround | src/collision_det.py:5-16 | a body part against the ground counts exactly when it is the head, torso, a biceps or a forearm (not neck, legs, calves or feet) |
| NextGen.MutationBranchDead | src/next_gen.py:16-27 | with a mutation probability below 0.5, a draw below 0.5 takes parent 1's entry and any other draw takes parent 2's |
| NextGen.MutationNeedsHalf | src/next_gen.py:16-27 | even at the comment's bound of 0.5, only a draw of exactly 0.5 reaches the Gaussian branch |
| NextGen.CrossInto | src/next_gen.py:19-27 | every cell of the pre-allocated matrix holds the crossover of the two parents' entries at the same (i, j) |
| NextGen.MakeChildNetwork | src/next_gen.py:12-47 | a fresh child whose matrices have parent 1's shapes and entry-wise crossover values, and whose biases are each copied whole from the parent chosen by their own draw |
| NextGen.ChildWeightsComeFromParents | src/next_gen.py:19-38 | every child weight equals parent 1's entry where its draw is below 0.5 and parent 2's otherwise |
| NextGen.SamplePair | src/next_gen.py:56 | two different positions of the list |
| NextGen.SamplePairReachesEveryPair | src/next_gen.py:56 | every ordered pair of different positions can be drawn |
| NextGen.BreedChild | src/next_gen.py:56-78 | a child with fresh objects, the default topology, a network crossed from the two parents, their blended colour, fitness 0, no collision, the initial sensor vector as outputs, slack muscles and strengths 1 000 000 and 50 000 |
| NextGen.BreedNext | src/next_gen.py:54-78 | one loop pass appends one child bred from the drawn pair and keeps the earlier children |
| NextGen.MakeNextGen | src/next_gen.py:51-80 | with at least two parents, exactly 101 children, each bred from two distinct parents of the list; with fewer, an error and no children |
| Selection.RoundHalfEven | src/main.py:149 | the nearest integer, with halves going to the even one |
| Selection.RoundHalfEvenUnique | src/main.py:149 | any integer with those two properties is the rounding |
| Selection.RoundHalfEvenMonotone | src/main.py:149 | rounding preserves order |
| Selection.Fitness | src/main.py:149 | round(x)/1000 lies within 0.0005 of x/1000 |
| Selection.FitnessMonotone | src/main.py:149 | an agent further right never scores lower |
| Selection.Insert | src/main.py:152 | inserting a later entry keeps the list stably sorted and adds exactly that entry |
| Selection.SortRanked | src/main.py:152 | sorted(key=fitness) is stably sorted and a permutation of its input |
| Selection.StableSortUnique | src/main.py:152 | two stably sorted permutations of the same entries are equal, so the sort result is determined |
| Selection.TopHalf | src/main.py:156-159 | the slice [len//2:len]: the last len - len//2 entries, in order |
| Selection.TopHalfOutranks | src/main.py:152-159 | every kept agent's fitness is at least every discarded agent's |
| Selection.SliceBound | src/main.py:162 | a Python slice index: clipped to [0, len], negative values counted from the end |
| Selection.ElitesAreLastFive | src/main.py:162 | with at least five kept agents, the elites are exactly the last five |
| Selection.ElitesOfShortList | src/main.py:162 | with three or four kept agents only the last 5 - len are elites; with fewer than three, all of them |
| Selection.WindowsPartition | src/main.py:63-64 | every position below 100 lies in exactly one of the ten windows |
| Selection.PySlice | src/main.py:100-101 | sim_list[start:end]: the entries from start to end clipped to the list |
| Training.MaxOf | src/main.py:131-137 | the maximum is one of the values and no value exceeds it |
| Training.TrackNeverDecreases | src/main.py:131-140 | last_max never decreases; it changes exactly when some running agent passes it, and then last_max_time becomes now |
| Training.TrackMax | src/main.py:131-140 | the loop as intended, with the handler line succeeding: max_x stays at minus infinity for an empty window and is the largest position otherwise; the new last_max and last_max_time are as Track says |
| Training.TrackMaxAsWritten | src/main.py:131-140 | the loop as written: it raises AttributeError exactly when the window is non-empty and the agents' class never sets `handler`; otherwise it gives what TrackMax gives |
| Training.FirstWindowRunsTen | src/main.py:63-75 | the first frame after the start runs ten agents, so the loop as written raises on it |
| Training.Spawn | src/main.py:50 | one fresh agent is appended, with the drawn colour, fitness 0 and no collision |
| Training.NewPopulation | src/main.py:50 | n fresh, separate agents of the default topology with their drawn colours, fitness 0 and no collision |
| Training.Scores | src/main.py:148-149 | agent k's fitness is round(x, 0)/1000 of its torso's screen x |
| Training.SortedRankingEntries | src/main.py:152 | the sort keeps each fitness with its agent and lists every agent once |
| Training.SortedGeneration | src/main.py:152 | the sorted list has as many agents as the population |
| Training.SortedGenerationOrdered | src/main.py:152 | the sorted list is the agents reordered by ascending fitness, each agent once |
| Training.RunningXs | src/main.py:132-136 | one torso x per agent of sim_list[start_subgen:end_subgen] |
| Training.Answer | src/character_simulation.py:41-42 | four outputs, which are what the agent's network answers to the pose's sensor vector |
| Training.StepAgent | src/main.py:100-102 | one agent's outputs and muscles change; every other agent's stay |
| Training.StepEach | src/main.py:100-102 | the agents in [lo, hi) are stepped in list order; all others are untouched |
| Training.StepRange | src/main.py:100-102 | each agent in [lo, hi) stores its network's answer and acts on it; the rest keep outputs and muscles |
| Training.InitialScheduleValid | src/main.py:63-75 | the initial counters describe the first window, [0, 10) |
| Training.ScheduleStaysValid | src/main.py:142-186 | every frame keeps the window at 10·(subgen_count-1) with width 10 and the counter within 1..11 |
| Training.WindowSlides | src/main.py:176-186 | within a generation, the window slides by 10 exactly when Advances holds; it then bumps the counter, resets last_max and last_max_time and restarts the clock; otherwise the window and clock stay and last_max does not decrease |
| Training.WindowLastsThreeSeconds | src/main.py:142-143 | no window ends before three seconds of it have passed |
| Training.GenerationEnds | src/main.py:167-173 | the generation count goes up exactly when subgen_count > 10; sim_time then restarts and the window returns to the first (or the second, if the same frame also advances) |
| Training.CountFrame | src/main.py:103-186 | the counters after one frame are NextSchedule of the counters before |
| Training.ScoreAll | src/main.py:148-149 | every agent's fitness becomes its score |
| Training.Breed | src/main.py:161-165 | with at least two kept agents, 101 bred children followed by the elites; with fewer, no population |
| Training.Start | src/main.py:50-75 | a valid population of 100 fresh agents and the initial counters |
| Training.EndGeneration | src/main.py:152-165 | 106 agents: 101 children bred from the upper half sorted by fitness, then that half's five best, unchanged |
| Training.CheckGeneration | src/main.py:147-173 | in the eleventh window every agent is scored and the population replaced; otherwise nothing changes |
| Training.StepWindow | src/main.py:100-143 | only the agents of sim_list[start_subgen:end_subgen] step, each from its limbs' new angles; no fitness changes; the counters move as NextSchedule says |
| Training.Frame | src/main.py:100-186 | one loop pass: the running agents step, the others do not, the counters move as NextSchedule says; up to the tenth window the population and every fitness stay, past it every agent is scored and the population becomes 101 bred children plus five elites |
| DqlSim.CommandOf | dql/gym_qwop/envs/character_simulation.py:131-139 | an id selects a command exactly when it is 0, 1, 2 or 3 |
| DqlSim.ActionOf | dql/gym_qwop/envs/character_simulation.py:131-139 | every command has an id below four |
| DqlSim.DispatchIsBijective | dql/gym_qwop/envs/character_simulation.py:131-139 | ids 0-3 and the commands Q, W, O, P correspond one to one |
| DqlSim.Simulation.constructor | dql/gym_qwop/envs/character_simulation.py:11-40 | not collided, fitness 0, a fresh slack character of strengths 1 000 000 and 50 000, outputs the 24-value sensor vector |
| DqlSim.Simulation.CollisionDetection | dql/gym_qwop/envs/character_simulation.py:42-43 | collided becomes true |
| DqlSim.Simulation.Step | dql/gym_qwop/envs/character_simulation.py:45-47 | the limbs turn to the angles the physics step leaves while the springs stay; the sensor vector is read, and the simulation's own fields, outputs and fitness included, do not change |
| DqlSim.Simulation.Action | dql/gym_qwop/envs/character_simulation.py:131-139 | ids 0-3 apply Q, W, O or P to the muscles; any other id leaves them |
| DqlAgent.Blank | dql/main.py:75-86 | a zeroed slot: zero vectors of the input size, reward 0, action 0, not done |
| DqlAgent.Replay | dql/main.py:88-97 | the ring after a history of stores keeps the size of the memory |
| DqlAgent.SlotsApart | dql/main.py:90 | counters fewer than mem_size apart use different slots |
| DqlAgent.SlotAfterRound | dql/main.py:90 | counters mem_size apart use the same slot |
| DqlAgent.ReplayKeepsLatest | dql/main.py:90-95 | the last mem_size transitions stored (or all, if fewer) each sit in slot counter % mem_size |
| DqlAgent.ReplayLeavesRest | dql/main.py:75-95 | slots the counter has not reached hold their zeroed values |
| DqlAgent.ReplayHoldsStored | dql/main.py:90-97 | each slot below the number of stores holds the latest transition whose counter names it |
| DqlAgent.StoreOverwritesOldest | dql/main.py:90-97 | once the ring is full, the next store replaces the oldest transition it holds |
| DqlAgent.ActionSpace | dql/main.py:66 | the list 0 .. num_actions-1; an id is in it exactly when 0 ≤ id < num_actions |
| DqlAgent.Choose | dql/main.py:124 | batch_size different slots, all taken from the pool |
| DqlAgent.Upto | dql/main.py:126 | np.arange(n): the positions 0 .. n-1, each once |
| DqlAgent.NextEpsilon | dql/main.py:169 | above the minimum, one decrement; otherwise the minimum |
| DqlAgent.MinimumIsFixed | dql/main.py:169 | once at the minimum, epsilon stays there |
| DqlAgent.DecayedShift | dql/main.py:169 | n+1 updates are one update followed by n |
| DqlAgent.DecayStaysBounded | dql/main.py:169 | with a non-negative decrement, epsilon never rises above its start (or the minimum) and, after one update, never lies more than one decrement below the minimum |
| DqlAgent.DecayReachesMinimum | dql/main.py:169 | with a positive decrement, enough updates bring epsilon to exactly the minimum |
| DqlAgent.Agent.MaxMem | dql/main.py:122 | min(mem_cntr, mem_size) |
| DqlAgent.Agent.constructor | dql/main.py:57-86 | mem_cntr 0, five zeroed arrays of mem_size slots, and the action space 0 .. num_actions-1 |
| DqlAgent.Agent.StoreTransition | dql/main.py:88-97 | slot mem_cntr % mem_size of all five arrays receives the transition, every other slot stays, mem_cntr grows by one, and the memory remains the replay of every stored transition |
| DqlAgent.Agent.Learn | dql/main.py:111-169 | below batch_size stores nothing happens; a batch that numpy refuses changes nothing; otherwise batch_size distinct slots below min(mem_cntr, mem_size) are read, each holding a stored transition, and epsilon takes one decay step |

## Findings

| source | as written | input that shows it | evidently intended | confidence | as-written member | corrected member |
|---|---|---|---|---|---|---|
| src/main.py:134 | every pass of the max-tracking loop reads `sim.handler`, which the `CharacterSimulation` of `src/character_simulation.py:11-32` never sets | the first frame after the start: window [0, 10) of 100 new agents; the first pass raises AttributeError | the constructor creates a collision handler as `dql/gym_qwop/envs/character_simulation.py:40` does, and the loop tracks the maximum | high, not executed | Training.TrackMaxAsWritten | Training.TrackMax |

## Left out

- Physics (pymunk bodies, joints, springs and `space.step`) is not modelled. What a physics step leaves, the bodies' positions and the muscled limbs' angles, enters as a `Pose`.
- Rendering, the camera, the window and `print` are not modelled.
- The S, L and R keys of `src/main.py:79-98` are not modelled. That covers saving to and loading from network.json and restarting with ten agents. They are file I/O and user input.
- `output_data(gen_count, generation_list)` and the output-directory counter of `src/main.py:9-25` are not modelled. They are file I/O.
- Randomness enters as draws passed in as functions: `random.random`, `random.gauss`, `random.sample`, `np.random.randn`, `np.random.choice` and the colour hue.
- The HSV colour blend of two parents (`src/next_gen.py:73-77`) is a `blend` parameter.
- `np.exp` is a positive function passed in; floats are modelled as exact reals.
- Training.NextSchedule: time is counted in whole frames of 1/60 s. The source adds 1/60 in floating point, so its sums may reach 3.0 one frame later than the model's.
- CharacterSim.CharacterSimulation.Step: the step takes the bodies' positions and limb angles after the physics step as its `pose` argument.
- `sim.handler.separate = sim.collision_detection` (`src/main.py:134`) reads an attribute that `src/character_simulation.py:11-32` never sets, so as written it raises on the first agent of the first frame (see Findings). Only the DQN simulation sets `handler` (`dql/gym_qwop/envs/character_simulation.py:40`).
- Training.TrackMax: it assumes the `handler` attribute that the DQN simulation class sets; as written the pass raises AttributeError on a non-empty window, which `Training.TrackMaxAsWritten` models.
- Training.StepWindow: it assumes the `handler` attribute that the DQN simulation class sets, so the max-tracking pass at `src/main.py:131-140` completes instead of raising.
- Training.Frame: it assumes the `handler` attribute that the DQN simulation class sets, so a frame with a non-empty window completes instead of raising at `src/main.py:134`. Installing the collision callback is not modelled beyond that; `CollisionDetection` models the callback itself.
- DqlAgent.Agent.StoreTransition: the values are stored exactly. The float32 rounding and int32 wrap-around of the numpy arrays, and numpy broadcasting of a state into a row, are not modelled.
- DqlAgent.Choose: this is one draw-driven sampling without replacement, not numpy's own algorithm. Only the properties of its result (count, distinctness, range) are claimed for `np.random.choice`.
- DqlAgent.Agent.constructor: it requires at least one memory slot. With `max_mem_size` 0, every `store_transition` divides by zero.
- The Q network, its optimiser, the loss, `gamma`, `learning_rate` and the PyTorch tensors of `dql/main.py:20-45` and `dql/main.py:120-167` are not modelled. They are foreign numerics.
- `choose_action` (`dql/main.py:99-109`) is not modelled. It is a random choice, or the argmax of the Q network.
- The episode loop of `dql/main.py:172-216` is not modelled. It is a driver over the gym environment and printing.
- `character_position` of `dql/gym_qwop/envs/character_simulation.py:128-129` is the same expression as in `src/` and is modelled once, by `CharacterSim.CharacterPosition`.
- The `character_move_*` wrappers and `draw_character` of both simulation files are not modelled separately. The wrappers only forward to the `Character` methods.
- The module `dql.gym_qwop.envs.character` that the DQN simulation imports is not part of this model. The `DeepQLearningEX` character module stands in for it.
- The ground shape that `src/collision_det.py` expects as a global is a parameter of `OnCollision`.
- Training.Frame: the state of `main()` is passed in and returned as values. Stepping, scoring and counting touch disjoint state, so `Frame` does them in the order step, count, score; the source scores before it advances the counters.
