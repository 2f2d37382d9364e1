/** Breeding of next_gen.py: entry-wise crossover of two parent networks
    and the loop that breeds the children of the next generation. */
module NextGen {
  import opened Util
  import opened Characters
  import opened NeuralNet
  import opened CharacterSim

  /** The draws behind one weight entry: the random.random() that picks the
      branch, and the random.gauss(0, 0.01) sample the mutation branch would
      use. */
  datatype EntryDraw = EntryDraw(uniform: real, gauss: real)

  /** The draws one crossover consumes, indexed by matrix entry: one per
      entry of each matrix, one coin per bias, and the samples of the
      NeuralNetwork() the child starts as. */
  datatype CrossoverDraws = CrossoverDraws(
    ih: (nat, nat) -> EntryDraw, ho: (nat, nat) -> EntryDraw,
    biasIH: real, biasHO: real, childInit: InitDraws)

  /** mutation_probability; its comment asks for a value between 0 and 0.5. */
  const MutationProbability: real := 0.05

  /** The three-way branch for one entry. */
  function CrossEntry(d: EntryDraw, mutationProbability: real, a: real, b: real): real {
    if d.uniform < 0.5 then a else if d.uniform > mutationProbability then b else d.gauss
  }

  /** With a mutation probability below 0.5 the Gaussian branch is dead:
      it needs a draw that is at least 0.5 and at most the probability.
      Every child entry comes from parent 1 (draw below 0.5) or parent 2. */
  lemma MutationBranchDead(d: EntryDraw, mutationProbability: real, a: real, b: real)
    requires mutationProbability < 0.5
    ensures d.uniform < 0.5 ==> CrossEntry(d, mutationProbability, a, b) == a
    ensures d.uniform >= 0.5 ==> CrossEntry(d, mutationProbability, a, b) == b
  {
  }

  /** Only a probability of exactly 0.5 with a draw of exactly 0.5 would
      reach the Gaussian branch. */
  lemma MutationNeedsHalf(d: EntryDraw, mutationProbability: real, a: real, b: real)
    requires mutationProbability <= 0.5
    requires CrossEntry(d, mutationProbability, a, b) != a && CrossEntry(d, mutationProbability, a, b) != b
    ensures d.uniform == 0.5 && mutationProbability == 0.5
  {
  }

  /** Number of columns of a (rectangular) matrix; numpy's shape[1]. */
  function Cols(m: Matrix): nat {
    if |m| == 0 then 0 else |m[0]|
  }

  predicate Rectangular(m: Matrix) {
    forall i :: 0 <= i < |m| ==> |m[i]| == Cols(m)
  }

  /** m2 has an entry wherever m1 has one. */
  predicate Covers(m2: Matrix, m1: Matrix) {
    |m2| >= |m1| && forall i :: 0 <= i < |m1| ==> |m2[i]| >= Cols(m1)
  }

  /** child has parent 1's shape and every entry is the crossover of the
      two parents' entries at the same position. */
  ghost predicate CrossedFrom(child: Matrix, draw: (nat, nat) -> EntryDraw, mutationProbability: real, m1: Matrix, m2: Matrix)
    requires Rectangular(m1) && Covers(m2, m1)
  {
    && IsMatrix(child, |m1|, Cols(m1))
    && forall i, j :: 0 <= i < |m1| && 0 <= j < Cols(m1) ==>
         child[i][j] == CrossEntry(draw(i, j), mutationProbability, m1[i][j], m2[i][j])
  }

  /** The rows of a 2-D array (ndarray.tolist()). */
  function RowsOf(a: array2<real>): (m: Matrix)
    reads a
    ensures IsMatrix(m, a.Length0, a.Length1)
    ensures forall i, j :: 0 <= i < a.Length0 && 0 <= j < a.Length1 ==> m[i][j] == a[i, j]
  {
    seq(a.Length0, i requires 0 <= i < a.Length0 reads a =>
      seq(a.Length1, j requires 0 <= j < a.Length1 reads a => a[i, j]))
  }

  /** The nested i/j loop that fills a zeroed child matrix entry by entry. */
  method CrossInto(a: array2<real>, draw: (nat, nat) -> EntryDraw, mutationProbability: real, m1: Matrix, m2: Matrix)
    requires Rectangular(m1) && Covers(m2, m1)
    requires a.Length0 == |m1| && a.Length1 == Cols(m1)
    modifies a
    ensures forall i, j :: 0 <= i < a.Length0 && 0 <= j < a.Length1 ==>
      a[i, j] == CrossEntry(draw(i, j), mutationProbability, m1[i][j], m2[i][j])
  {
    for i := 0 to a.Length0
      invariant forall i', j :: 0 <= i' < i && 0 <= j < a.Length1 ==>
        a[i', j] == CrossEntry(draw(i', j), mutationProbability, m1[i'][j], m2[i'][j])
    {
      for j := 0 to a.Length1
        invariant forall i', j' :: 0 <= i' < i && 0 <= j' < a.Length1 ==>
          a[i', j'] == CrossEntry(draw(i', j'), mutationProbability, m1[i'][j'], m2[i'][j'])
        invariant forall j' :: 0 <= j' < j ==>
          a[i, j'] == CrossEntry(draw(i, j'), mutationProbability, m1[i][j'], m2[i][j'])
      {
        var rand := draw(i, j).uniform;
        if rand < 0.5 {
          a[i, j] := m1[i][j];
        } else if rand > mutationProbability {
          a[i, j] := m2[i][j];
        } else {
          a[i, j] := draw(i, j).gauss;
        }
      }
    }
  }

  /** make_next_gen_child_nn: a fresh network whose matrices have parent 1's
      shapes and are crossed entry by entry, and whose biases are each taken
      whole from one parent by an independent coin. The parents are only
      read. */
  method MakeChildNetwork(nn1: NeuralNetwork, nn2: NeuralNetwork, draws: CrossoverDraws) returns (child: NeuralNetwork)
    requires Rectangular(nn1.weightsIH) && Rectangular(nn1.weightsHO)
    requires Covers(nn2.weightsIH, nn1.weightsIH) && Covers(nn2.weightsHO, nn1.weightsHO)
    ensures fresh(child)
    ensures CrossedFrom(child.weightsIH, draws.ih, MutationProbability, nn1.weightsIH, nn2.weightsIH)
    ensures CrossedFrom(child.weightsHO, draws.ho, MutationProbability, nn1.weightsHO, nn2.weightsHO)
    ensures child.biasIH == if draws.biasIH < 0.5 then nn1.biasIH else nn2.biasIH
    ensures child.biasHO == if draws.biasHO < 0.5 then nn1.biasHO else nn2.biasHO
  {
    var childWeightsIH := new real[|nn1.weightsIH|, Cols(nn1.weightsIH)];
    var childWeightsHO := new real[|nn1.weightsHO|, Cols(nn1.weightsHO)];
    CrossInto(childWeightsIH, draws.ih, MutationProbability, nn1.weightsIH, nn2.weightsIH);
    CrossInto(childWeightsHO, draws.ho, MutationProbability, nn1.weightsHO, nn2.weightsHO);
    child := new NeuralNetwork(InputNodes, HiddenNodes, OutputNodes, draws.childInit);
    child.weightsIH := RowsOf(childWeightsIH);
    child.weightsHO := RowsOf(childWeightsHO);
    child.biasIH := if draws.biasIH < 0.5 then nn1.biasIH else nn2.biasIH;
    child.biasHO := if draws.biasHO < 0.5 then nn1.biasHO else nn2.biasHO;
  }

  /** random.sample(population, 2) on n elements, from two raw draws: the
      first picks any position, the second any of the n - 1 others, a
      repeat of the first being redirected to the last slot. This is an
      abstraction of CPython's own sampling (which for two of 50 or more
      elements redraws on a repeat instead); it yields the same kind of
      pair, two distinct positions below n. */
  function SamplePair(n: nat, first: nat, second: nat): (pair: (nat, nat))
    requires n >= 2
    ensures pair.0 < n && pair.1 < n && pair.0 != pair.1
  {
    var i := first % n;
    var j := second % (n - 1);
    (i, if j == i then n - 1 else j)
  }

  lemma SmallMod(a: nat, n: nat)
    requires a < n
    ensures a % n == a
  {
  }

  /** Every ordered pair of distinct positions can be drawn. */
  lemma SamplePairReachesEveryPair(n: nat, a: nat, b: nat)
    requires n >= 2 && a < n && b < n && a != b
    ensures exists first: nat, second: nat :: SamplePair(n, first, second) == (a, b)
  {
    SmallMod(a, n);
    if b == n - 1 {
      SmallMod(a, n - 1);
      assert SamplePair(n, a, a) == (a, b);
    } else {
      SmallMod(b, n - 1);
      assert SamplePair(n, a, b) == (a, b);
    }
  }

  /** The draws behind one child: the two parent picks, its crossover, and
      the network samples and colour of the CharacterSimulation() it starts
      as (both overwritten). */
  datatype ChildDraws = ChildDraws(first: nat, second: nat, cross: CrossoverDraws, simInit: InitDraws, simColor: Color)

  /** The loop stops at 101 children, not 100. */
  const ChildCount: nat := 101

  /** child was bred from p1 and p2 with the draws d. */
  ghost predicate BredFrom(child: CharacterSimulation, p1: CharacterSimulation, p2: CharacterSimulation,
                           d: ChildDraws, blend: (Color, Color) -> Color)
    reads child`neuralNetwork, child`color, child`fitness, child`collided, child`outputs, child.neuralNetwork
    reads child.character`rig
    reads p1`neuralNetwork, p1`color, p1.neuralNetwork, p2`neuralNetwork, p2`color, p2.neuralNetwork
  {
    var nn, nn1, nn2 := child.neuralNetwork, p1.neuralNetwork, p2.neuralNetwork;
    && Rectangular(nn1.weightsIH) && Rectangular(nn1.weightsHO)
    && Covers(nn2.weightsIH, nn1.weightsIH) && Covers(nn2.weightsHO, nn1.weightsHO)
    && CrossedFrom(nn.weightsIH, d.cross.ih, MutationProbability, nn1.weightsIH, nn2.weightsIH)
    && CrossedFrom(nn.weightsHO, d.cross.ho, MutationProbability, nn1.weightsHO, nn2.weightsHO)
    && nn.biasIH == (if d.cross.biasIH < 0.5 then nn1.biasIH else nn2.biasIH)
    && nn.biasHO == (if d.cross.biasHO < 0.5 then nn1.biasHO else nn2.biasHO)
    && child.color == blend(p1.color, p2.color)
    && child.fitness == 0.0 && !child.collided
    && child.outputs == CharacterDataList(InitialPose) && child.character.rig == SlackRig
    && child.character.legStrength == LegMuscleStrength && child.character.armStrength == ArmMuscleStrength
  }

  /** Child k was bred from the pair its k-th draws sample from generation. */
  ghost predicate AllBred(children: seq<CharacterSimulation>, generation: seq<CharacterSimulation>,
                          draws: nat -> ChildDraws, blend: (Color, Color) -> Color)
    requires |generation| >= 2
    reads (set s | s in children)`neuralNetwork, (set s | s in children)`color
    reads (set s | s in children)`fitness, (set s | s in children)`collided, (set s | s in children)`outputs
    reads (set s | s in children :: s.character)`rig
    reads set s | s in children :: s.neuralNetwork
    reads (set s | s in generation)`neuralNetwork, (set s | s in generation)`color
    reads set s | s in generation :: s.neuralNetwork
  {
    forall k :: 0 <= k < |children| ==>
      var parents := SamplePair(|generation|, draws(k).first, draws(k).second);
      BredFrom(children[k], generation[parents.0], generation[parents.1], draws(k), blend)
  }

  lemma AllBredExtend(children: seq<CharacterSimulation>, child: CharacterSimulation, generation: seq<CharacterSimulation>,
                      draws: nat -> ChildDraws, blend: (Color, Color) -> Color)
    requires |generation| >= 2
    requires AllBred(children, generation, draws, blend)
    requires var parents := SamplePair(|generation|, draws(|children|).first, draws(|children|).second);
      BredFrom(child, generation[parents.0], generation[parents.1], draws(|children|), blend)
    ensures AllBred(children + [child], generation, draws, blend)
  {
  }

  /** One pass of the breeding loop for two sampled parents. */
  method BreedChild(parent1: CharacterSimulation, parent2: CharacterSimulation, d: ChildDraws, blend: (Color, Color) -> Color)
    returns (child: CharacterSimulation)
    requires parent1.neuralNetwork.HasTopology(InputNodes, HiddenNodes, OutputNodes)
    requires parent2.neuralNetwork.HasTopology(InputNodes, HiddenNodes, OutputNodes)
    ensures fresh(Owned(child))
    ensures child.neuralNetwork.HasTopology(InputNodes, HiddenNodes, OutputNodes)
    ensures BredFrom(child, parent1, parent2, d, blend)
  {
    var childNetwork := MakeChildNetwork(parent1.neuralNetwork, parent2.neuralNetwork, d.cross);
    child := new CharacterSimulation(d.simInit, d.simColor);
    child.neuralNetwork := childNetwork;
    child.color := blend(parent1.color, parent2.color);
  }

  /** make_next_gen: 101 new agents, each bred from two distinct members of
      the given list. A list of fewer than two agents makes random.sample
      fail, which is reported as !ok. Every child is a new object with its
      own character and network, of the default topology. */
  method MakeNextGen(generation: seq<CharacterSimulation>, draws: nat -> ChildDraws, blend: (Color, Color) -> Color)
    returns (ok: bool, children: seq<CharacterSimulation>, ghost owned: set<object>)
    requires AllReady(generation)
    ensures ok <==> |generation| >= 2
    ensures ok ==> |children| == ChildCount
    ensures !ok ==> children == []
    ensures forall k :: 0 <= k < |children| ==> fresh(Owned(children[k]))
    ensures fresh(owned) && OwnedWithin(children, owned)
    ensures AllReady(children)
    ensures Separate(children)
    ensures ok ==> AllBred(children, generation, draws, blend)
  {
    children, owned := [], {};
    if |generation| < 2 {
      return false, [], {};
    }
    ok := true;
    while |children| < ChildCount
      invariant |children| <= ChildCount
      invariant fresh(owned) && OwnedWithin(children, owned)
      invariant AllReady(children)
      invariant Separate(children)
      invariant AllBred(children, generation, draws, blend)
    {
      children, owned := BreedNext(generation, draws, blend, children, owned);
    }
  }

  /** One pass of the breeding loop: the next child, bred from the pair
      its draws sample, joins the list; it is a new object sharing nothing
      with the earlier children. */
  method BreedNext(generation: seq<CharacterSimulation>, draws: nat -> ChildDraws, blend: (Color, Color) -> Color,
                   children: seq<CharacterSimulation>, ghost owned: set<object>)
    returns (next: seq<CharacterSimulation>, ghost nextOwned: set<object>)
    requires AllReady(generation) && |generation| >= 2
    requires OwnedWithin(children, owned) && AllReady(children) && Separate(children)
    requires AllBred(children, generation, draws, blend)
    ensures |next| == |children| + 1 && next[..|children|] == children
    ensures fresh(Owned(next[|children|])) && nextOwned == owned + Owned(next[|children|])
    ensures OwnedWithin(next, nextOwned) && AllReady(next) && Separate(next)
    ensures AllBred(next, generation, draws, blend)
  {
    var d := draws(|children|);
    var parents := SamplePair(|generation|, d.first, d.second);
    var child := BreedChild(generation[parents.0], generation[parents.1], d, blend);
    SeparateExtend(children, child, owned);
    AllReadyExtend(children, child);
    AllBredExtend(children, child, generation, draws, blend);
    next := children + [child];
    nextOwned := owned + Owned(child);
  }

  /** The property the breeding operator rests on: a bred child's weights
      never leave the parents' values, entry by entry. */
  lemma ChildWeightsComeFromParents(child: CharacterSimulation, p1: CharacterSimulation, p2: CharacterSimulation,
                                    d: ChildDraws, blend: (Color, Color) -> Color)
    requires BredFrom(child, p1, p2, d, blend)
    ensures var nn, nn1, nn2 := child.neuralNetwork, p1.neuralNetwork, p2.neuralNetwork;
      && (forall i, j :: 0 <= i < |nn1.weightsIH| && 0 <= j < Cols(nn1.weightsIH) ==>
            nn.weightsIH[i][j] == (if d.cross.ih(i, j).uniform < 0.5 then nn1.weightsIH[i][j] else nn2.weightsIH[i][j]))
      && (forall i, j :: 0 <= i < |nn1.weightsHO| && 0 <= j < Cols(nn1.weightsHO) ==>
            nn.weightsHO[i][j] == (if d.cross.ho(i, j).uniform < 0.5 then nn1.weightsHO[i][j] else nn2.weightsHO[i][j]))
  {
  }
}
