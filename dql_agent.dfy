/** The bookkeeping of the DQN Agent of dql/main.py: the replay memory, a
    ring of five parallel arrays indexed by a store counter, the guard and
    batch sampling of learn, and the exploration rate's decay. The Q
    network, its optimiser and the loss are not part of this model. */
module DqlAgent {

  /** One remembered step: the observation, the observation after it, the
      reward, the action taken and whether the episode ended there. */
  datatype Transition = Transition(state: seq<real>, newState: seq<real>, reward: real, action: int, done: bool)

  /** A slot as np.zeros leaves it. */
  function Blank(inputDims: nat): (t: Transition)
    ensures |t.state| == inputDims && |t.newState| == inputDims
    ensures forall k :: 0 <= k < inputDims ==> t.state[k] == 0.0 && t.newState[k] == 0.0
    ensures t.reward == 0.0 && t.action == 0 && !t.done
  {
    Transition(seq(inputDims, _ => 0.0), seq(inputDims, _ => 0.0), 0.0, 0, false)
  }

  /** The memory after the transitions of history were stored one by one,
      the n-th into slot n modulo the size, over the initial slots init. */
  function Replay(init: seq<Transition>, history: seq<Transition>): (mem: seq<Transition>)
    requires |init| > 0
    ensures |mem| == |init|
    decreases |history|
  {
    if |history| == 0 then init
    else Replay(init, history[..|history| - 1])[(|history| - 1) % |init| := history[|history| - 1]]
  }

  /** A multiple of a positive n is at least n, at most -n, or zero. */
  lemma {:induction false} MultipleSign(d: int, n: int)
    requires n > 0
    ensures d >= 1 ==> d * n >= n
    ensures d <= -1 ==> d * n <= -n
    decreases if d < 0 then -d else d
  {
    if d > 1 {
      MultipleSign(d - 1, n);
    } else if d < -1 {
      MultipleSign(d + 1, n);
    }
  }

  /** Two counters less than the size apart never share a slot. */
  lemma SlotsApart(a: nat, b: nat, n: nat)
    requires 0 < n && b < a < b + n
    ensures a % n != b % n
  {
    if a % n == b % n {
      var d := a / n - b / n;
      assert d * n == a - b;
      MultipleSign(d, n);
    }
  }

  /** Going round the ring once comes back to the same slot. */
  lemma SlotAfterRound(a: nat, n: nat)
    requires 0 < n
    ensures (a + n) % n == a % n
  {
    var d := (a + n) / n - a / n - 1;
    assert d * n == a % n - (a + n) % n;
    MultipleSign(d, n);
  }

  /** The ring holds the latest transitions: each of the last |init| stored
      (all of them while fewer were stored) sits in the slot its counter
      names. */
  lemma {:induction false} ReplayKeepsLatest(init: seq<Transition>, history: seq<Transition>, k: nat)
    requires |init| > 0 && k < |history| && |history| - k <= |init|
    ensures Replay(init, history)[k % |init|] == history[k]
    decreases |history|
  {
    var last := |history| - 1;
    if k < last {
      SlotsApart(last, k, |init|);
      ReplayKeepsLatest(init, history[..last], k);
    }
  }

  /** Slots the counter has not reached yet keep their initial value. */
  lemma {:induction false} ReplayLeavesRest(init: seq<Transition>, history: seq<Transition>, j: nat)
    requires |history| <= j < |init|
    ensures Replay(init, history)[j] == init[j]
    decreases |history|
  {
    if |history| > 0 {
      var last := |history| - 1;
      assert last % |init| == last;
      ReplayLeavesRest(init, history[..last], j);
    }
  }

  /** Every slot below the number of stores holds a stored transition:
      the latest one whose counter names that slot. */
  lemma {:induction false} ReplayHoldsStored(init: seq<Transition>, history: seq<Transition>, j: nat)
    returns (i: nat)
    requires j < |history| && j < |init|
    ensures i < |history| && i % |init| == j && Replay(init, history)[j] == history[i]
    decreases |history|
  {
    var last := |history| - 1;
    if j == last % |init| {
      i := last;
    } else {
      assert j < last;
      i := ReplayHoldsStored(init, history[..last], j);
    }
  }

  /** Once the ring is full, the next store lands on the oldest transition
      it still holds. */
  lemma StoreOverwritesOldest(init: seq<Transition>, history: seq<Transition>, t: Transition)
    requires 0 < |init| <= |history|
    ensures Replay(init, history)[|history| % |init|] == history[|history| - |init|]
    ensures Replay(init, history + [t])[|history| % |init|] == t
  {
    var k := |history| - |init|;
    SlotAfterRound(k, |init|);
    ReplayKeepsLatest(init, history, k);
    assert (history + [t])[..|history|] == history;
  }

  /** A list holding its own positions holds every position. */
  lemma PositionsPresent(xs: seq<int>)
    requires forall i :: 0 <= i < |xs| ==> xs[i] == i
    ensures forall a :: 0 <= a < |xs| ==> a in xs
  {
    forall a | 0 <= a < |xs|
      ensures a in xs
    {
      assert xs[a] == a;
    }
  }

  /** The action ids the agent may choose: [i for i in range(num_actions)]. */
  function ActionSpace(numActions: int): (space: seq<int>)
    ensures |space| == if numActions > 0 then numActions else 0
    ensures forall i :: 0 <= i < |space| ==> space[i] == i
    ensures forall a :: a in space <==> 0 <= a < numActions
  {
    if numActions <= 0 then []
    else
      var space := seq(numActions, i => i);
      PositionsPresent(space);
      space
  }

  /** The positions of pool without the one at j. */
  function Without(pool: seq<nat>, j: nat): (rest: seq<nat>)
    requires j < |pool|
    ensures |rest| == |pool| - 1
    ensures forall x :: x in rest ==> x in pool
  {
    pool[..j] + pool[j + 1..]
  }

  predicate Distinct(xs: seq<nat>) {
    forall k, l :: 0 <= k < l < |xs| ==> xs[k] != xs[l]
  }

  lemma WithoutKeepsDistinct(pool: seq<nat>, j: nat)
    requires j < |pool| && Distinct(pool)
    ensures Distinct(Without(pool, j)) && pool[j] !in Without(pool, j)
  {
    var rest := Without(pool, j);
    forall k | 0 <= k < |rest|
      ensures rest[k] != pool[j]
    {
      if k < j {
        assert rest[k] == pool[k];
      } else {
        assert rest[k] == pool[k + 1];
      }
    }
  }

  /** np.random.choice(pool, count, replace=False) with the random draws
      passed in: draw n picks one of the positions still in the pool. */
  function Choose(pool: seq<nat>, count: nat, draws: nat -> nat): (batch: seq<nat>)
    requires count <= |pool| && Distinct(pool)
    ensures |batch| == count && Distinct(batch)
    ensures forall k :: 0 <= k < count ==> batch[k] in pool
    decreases count
  {
    if count == 0 then []
    else
      var j := draws(count) % |pool|;
      WithoutKeepsDistinct(pool, j);
      [pool[j]] + Choose(Without(pool, j), count - 1, draws)
  }

  /** The positions 0 .. n-1, the pool np.random.choice(n, ...) draws from. */
  function Upto(n: nat): (xs: seq<nat>)
    ensures |xs| == n && Distinct(xs)
    ensures forall k :: 0 <= k < n ==> xs[k] == k
  {
    seq(n, k => k)
  }

  /** The exploration rate after one learning step: one decrement while
      above the minimum, otherwise the minimum itself. */
  function NextEpsilon(epsilon: real, epsilonMin: real, epsilonDec: real): (next: real)
    ensures epsilon > epsilonMin ==> next == epsilon - epsilonDec
    ensures epsilon <= epsilonMin ==> next == epsilonMin
  {
    if epsilon > epsilonMin then epsilon - epsilonDec else epsilonMin
  }

  /** The exploration rate after n learning steps. */
  function Decayed(epsilon: real, epsilonMin: real, epsilonDec: real, n: nat): real
    decreases n
  {
    if n == 0 then epsilon else NextEpsilon(Decayed(epsilon, epsilonMin, epsilonDec, n - 1), epsilonMin, epsilonDec)
  }

  /** Once at the minimum, the rate stays there. */
  lemma {:induction false} MinimumIsFixed(epsilonMin: real, epsilonDec: real, n: nat)
    ensures Decayed(epsilonMin, epsilonMin, epsilonDec, n) == epsilonMin
    decreases n
  {
    if n > 0 {
      MinimumIsFixed(epsilonMin, epsilonDec, n - 1);
    }
  }

  /** Decaying n + 1 times is one step followed by n more. */
  lemma {:induction false} DecayedShift(epsilon: real, epsilonMin: real, epsilonDec: real, n: nat)
    ensures Decayed(epsilon, epsilonMin, epsilonDec, n + 1)
         == Decayed(NextEpsilon(epsilon, epsilonMin, epsilonDec), epsilonMin, epsilonDec, n)
    decreases n
  {
    if n > 0 {
      DecayedShift(epsilon, epsilonMin, epsilonDec, n - 1);
    }
  }

  /** With a non-negative decrement the rate never rises above where it
      started (or the minimum) and, after the first step, never lies more
      than one decrement below the minimum. */
  lemma {:induction false} DecayStaysBounded(epsilon: real, epsilonMin: real, epsilonDec: real, n: nat)
    requires epsilonDec >= 0.0
    ensures n > 0 ==> epsilonMin - epsilonDec <= Decayed(epsilon, epsilonMin, epsilonDec, n)
    ensures Decayed(epsilon, epsilonMin, epsilonDec, n) <= if epsilon > epsilonMin then epsilon else epsilonMin
    decreases n
  {
    if n > 0 {
      DecayStaysBounded(epsilon, epsilonMin, epsilonDec, n - 1);
    }
  }

  /** With a positive decrement the rate reaches the minimum after enough
      steps, and then stays there. */
  lemma {:induction false} DecayReachesMinimum(epsilon: real, epsilonMin: real, epsilonDec: real, n: nat)
    requires epsilonDec > 0.0 && n >= 1 && ((n - 1) as real) * epsilonDec >= epsilon - epsilonMin
    ensures Decayed(epsilon, epsilonMin, epsilonDec, n) == epsilonMin
    decreases n
  {
    DecayedShift(epsilon, epsilonMin, epsilonDec, n - 1);
    if epsilon <= epsilonMin {
      MinimumIsFixed(epsilonMin, epsilonDec, n - 1);
    } else {
      assert ((n - 2) as real) * epsilonDec == ((n - 1) as real) * epsilonDec - epsilonDec;
      DecayReachesMinimum(epsilon - epsilonDec, epsilonMin, epsilonDec, n - 1);
    }
  }

  /** What a call of learn did. */
  datatype Learning =
    | Skipped                  // fewer transitions stored than a batch
    | SampleRejected           // np.random.choice refuses the batch size
    | Learned(batch: seq<nat>, batchIndex: seq<nat>, samples: seq<Transition>)

  class Agent {
    var epsilon: real
    const epsilonMin: real
    const epsilonDec: real
    const actionSpace: seq<int>
    const memSize: nat
    const batchSize: int
    const inputDims: nat
    var memCntr: nat
    const stateMemory: array<seq<real>>
    const newStateMemory: array<seq<real>>
    const rewardMemory: array<real>
    const actionMemory: array<int>
    const terminalMemory: array<bool>
    /** Every transition stored so far, oldest first. */
    ghost var history: seq<Transition>

    /** The five arrays have one slot per memory entry. */
    ghost predicate Sized() {
      && stateMemory.Length == memSize && newStateMemory.Length == memSize
      && rewardMemory.Length == memSize && actionMemory.Length == memSize
      && terminalMemory.Length == memSize
    }

    /** The memory read slot by slot across the five arrays. */
    ghost function Memory(): (mem: seq<Transition>)
      requires Sized()
      reads stateMemory, newStateMemory, rewardMemory, actionMemory, terminalMemory
      ensures |mem| == memSize
    {
      seq(memSize, i requires 0 <= i < memSize
            reads stateMemory, newStateMemory, rewardMemory, actionMemory, terminalMemory =>
          Transition(stateMemory[i], newStateMemory[i], rewardMemory[i], actionMemory[i], terminalMemory[i]))
    }

    /** The memory is the blank ring with the stored history replayed into
        it, and the counter is the number of stores. */
    ghost predicate Valid()
      reads this, stateMemory, newStateMemory, rewardMemory, actionMemory, terminalMemory
    {
      && memSize > 0 && Sized() && stateMemory != newStateMemory
      && memCntr == |history|
      && Memory() == Replay(seq(memSize, _ => Blank(inputDims)), history)
    }

    /** The number of slots learn may sample from: min(mem_cntr, mem_size). */
    function MaxMem(): (n: nat)
      reads this
      ensures n <= memCntr && n <= memSize && (n == memCntr || n == memSize)
    {
      if memCntr < memSize then memCntr else memSize
    }

    /** A new agent: an empty memory of max_mem_size zeroed slots, counter
        0, and the actions 0 .. num_actions - 1. A memory of no slots would
        make every store divide by zero. */
    constructor (epsilon: real, inputDims: nat, batchSize: int, numActions: int,
                 maxMemSize: nat, epsilonEnd: real, epsilonDecrement: real)
      requires maxMemSize > 0
      ensures Valid() && history == [] && memCntr == 0
      ensures this.epsilon == epsilon && epsilonMin == epsilonEnd && epsilonDec == epsilonDecrement
      ensures this.batchSize == batchSize && this.inputDims == inputDims && memSize == maxMemSize
      ensures actionSpace == ActionSpace(numActions)
      ensures fresh(stateMemory) && fresh(newStateMemory) && fresh(rewardMemory)
      ensures fresh(actionMemory) && fresh(terminalMemory)
    {
      this.epsilon := epsilon;
      epsilonMin := epsilonEnd;
      epsilonDec := epsilonDecrement;
      actionSpace := ActionSpace(numActions);
      memSize := maxMemSize;
      this.batchSize := batchSize;
      this.inputDims := inputDims;
      memCntr := 0;
      stateMemory := new seq<real>[maxMemSize](_ => seq(inputDims, _ => 0.0));
      newStateMemory := new seq<real>[maxMemSize](_ => seq(inputDims, _ => 0.0));
      rewardMemory := new real[maxMemSize](_ => 0.0);
      actionMemory := new int[maxMemSize](_ => 0);
      terminalMemory := new bool[maxMemSize](_ => false);
      history := [];
    }

    /** store_transition: the transition goes into slot mem_cntr % mem_size
        of every array, every other slot stays, and the counter moves on. */
    method StoreTransition(state: seq<real>, action: int, reward: real, newState: seq<real>, done: bool)
      requires Valid()
      modifies this`memCntr, this`history
      modifies stateMemory, newStateMemory, rewardMemory, actionMemory, terminalMemory
      ensures Valid()
      ensures history == old(history) + [Transition(state, newState, reward, action, done)]
      ensures memCntr == old(memCntr) + 1
      ensures Memory() == old(Memory())[old(memCntr) % memSize := Transition(state, newState, reward, action, done)]
    {
      var index := memCntr % memSize;
      ghost var before := Memory();
      stateMemory[index] := state;
      newStateMemory[index] := newState;
      rewardMemory[index] := reward;
      actionMemory[index] := action;
      terminalMemory[index] := done;
      memCntr := memCntr + 1;
      ghost var t := Transition(state, newState, reward, action, done);
      assert (history + [t])[..|history|] == history;
      history := history + [t];
      assert Memory() == before[index := t];
    }

    /** learn, without the network update: nothing happens while fewer
        transitions than a batch are stored; otherwise batch_size distinct
        slots below min(mem_cntr, mem_size) are sampled (numpy refuses a
        batch larger than that, or a negative one), their transitions are
        read, and the exploration rate decays by one step. */
    method Learn(draws: nat -> nat) returns (r: Learning)
      requires Valid()
      modifies this`epsilon
      ensures Valid()
      ensures memCntr < batchSize ==> r == Skipped && epsilon == old(epsilon)
      ensures memCntr >= batchSize && !(0 <= batchSize <= MaxMem()) ==> r == SampleRejected && epsilon == old(epsilon)
      ensures memCntr >= batchSize && 0 <= batchSize <= MaxMem() ==>
        && r.Learned? && |r.batch| == batchSize && Distinct(r.batch)
        && (forall k :: 0 <= k < batchSize ==> r.batch[k] < MaxMem())
        && r.batchIndex == Upto(batchSize)
        && |r.samples| == batchSize
        && (forall k :: 0 <= k < batchSize ==> r.samples[k] == Memory()[r.batch[k]] && r.samples[k] in history)
        && epsilon == NextEpsilon(old(epsilon), epsilonMin, epsilonDec)
    {
      if memCntr < batchSize {
        return Skipped;
      }
      var maxMem := MaxMem();
      if !(0 <= batchSize <= maxMem) {
        return SampleRejected;
      }
      var batch := Choose(Upto(maxMem), batchSize, draws);
      var samples := seq(batchSize, k requires 0 <= k < batchSize reads stateMemory, newStateMemory, rewardMemory, actionMemory, terminalMemory =>
        Transition(stateMemory[batch[k]], newStateMemory[batch[k]], rewardMemory[batch[k]], actionMemory[batch[k]], terminalMemory[batch[k]]));
      forall k | 0 <= k < batchSize
        ensures samples[k] == Memory()[batch[k]] && samples[k] in history
      {
        var i := ReplayHoldsStored(seq(memSize, _ => Blank(inputDims)), history, batch[k]);
      }
      epsilon := if epsilon > epsilonMin then epsilon - epsilonDec else epsilonMin;
      r := Learned(batch, Upto(batchSize), samples);
    }
  }
}
