/**
 * Paired training samples and their co-shuffle (src/training_data.rs).
 *
 * `shuffle` runs one Fisher–Yates pass: at step i it swaps position i with a
 * position drawn uniformly from [i, n), and it applies the same swap to the
 * inputs and to the targets. The draws are supplied by the caller.
 */
module Training {

  datatype TrainingData = TrainingData(inputs: seq<seq<real>>, targets: seq<seq<real>>)

  /** `TrainingData::new`: panics unless the two sequences have one length; otherwise copies both. */
  function New(inputs: seq<seq<real>>, targets: seq<seq<real>>): (d: TrainingData)
    requires |inputs| == |targets|
    ensures d.inputs == inputs && d.targets == targets
    ensures |d.inputs| == |d.targets|
  {
    TrainingData(inputs, targets)
  }

  /** Every draw of a pass over n = |draws| positions lies in [i, n), as `gen_range(i..n)` guarantees. */
  predicate ValidDraws(draws: seq<nat>)
  {
    forall i :: 0 <= i < |draws| ==> i <= draws[i] < |draws|
  }

  /** s with positions i and j exchanged (the source's three-assignment swap through `tmp`). */
  function Swap<T>(s: seq<T>, i: nat, j: nat): seq<T>
    requires i < |s| && j < |s|
  {
    s[i := s[j]][j := s[i]]
  }

  /** s after the first k steps of the pass driven by `draws`. */
  function ShuffleSteps<T>(s: seq<T>, draws: seq<nat>, k: nat): (r: seq<T>)
    requires ValidDraws(draws) && |draws| == |s| && k <= |s|
    ensures |r| == |s|
    decreases k, 0
  {
    if k == 0 then s else ShuffleStep(s, draws, k - 1)
  }

  /**
   * Step i of the pass: position i swapped with position draws[i]. (A step of
   * its own, so that unfolding ShuffleSteps does not expose the swap.)
   */
  function ShuffleStep<T>(s: seq<T>, draws: seq<nat>, i: nat): (r: seq<T>)
    requires ValidDraws(draws) && |draws| == |s| && i < |s|
    ensures |r| == |s|
    decreases i, 1
  {
    Swap(ShuffleSteps(s, draws, i), i, draws[i])
  }

  /** s after the whole pass. */
  function Shuffled<T>(s: seq<T>, draws: seq<nat>): seq<T>
    requires ValidDraws(draws) && |draws| == |s|
  {
    ShuffleSteps(s, draws, |s|)
  }

  /**
   * `TrainingData::shuffle`: works on copies of both sequences (`self` is not
   * changed) and swaps the same pair of positions in both at every step.
   */
  method Shuffle(data: TrainingData, draws: seq<nat>) returns (shuffled: TrainingData)
    requires |data.inputs| == |data.targets|
    requires |draws| == |data.inputs| && ValidDraws(draws)
    ensures shuffled.inputs == Shuffled(data.inputs, draws)
    ensures shuffled.targets == Shuffled(data.targets, draws)
  {
    var shufInputs := data.inputs;
    var shufTargets := data.targets;
    for i := 0 to |data.inputs|
      invariant shufInputs == ShuffleSteps(data.inputs, draws, i)
      invariant shufTargets == ShuffleSteps(data.targets, draws, i)
    {
      var rngIdx := draws[i];

      var tmp := shufInputs[i];
      shufInputs := shufInputs[i := shufInputs[rngIdx]];
      shufInputs := shufInputs[rngIdx := tmp];

      var tmpTarget := shufTargets[i];
      shufTargets := shufTargets[i := shufTargets[rngIdx]];
      shufTargets := shufTargets[rngIdx := tmpTarget];
    }
    shuffled := TrainingData(shufInputs, shufTargets);
  }

  // ---------------------------------------------------------------------------
  // What the pass preserves
  // ---------------------------------------------------------------------------

  /** A swap keeps the multiset of elements. */
  lemma SwapPermutes<T>(s: seq<T>, i: nat, j: nat)
    requires i < |s| && j < |s|
    ensures multiset(Swap(s, i, j)) == multiset(s)
  {
    var t := s[i := s[j]];
    assert multiset(t) == multiset(s) - multiset{s[i]} + multiset{s[j]};
    assert multiset(t[j := s[i]]) == multiset(t) - multiset{t[j]} + multiset{s[i]};
  }

  /** Step k of the pass keeps the multiset of elements. */
  lemma ShuffleStepPermutes<T>(s: seq<T>, draws: seq<nat>, k: nat)
    requires ValidDraws(draws) && |draws| == |s| && 0 < k <= |s|
    ensures multiset(ShuffleSteps(s, draws, k)) == multiset(ShuffleSteps(s, draws, k - 1))
  {
    SwapPermutes(ShuffleSteps(s, draws, k - 1), k - 1, draws[k - 1]);
  }

  /** Every prefix of the pass keeps the multiset of elements. */
  lemma {:induction false} ShuffleStepsPermutes<T>(s: seq<T>, draws: seq<nat>, k: nat)
    requires ValidDraws(draws) && |draws| == |s| && k <= |s|
    ensures multiset(ShuffleSteps(s, draws, k)) == multiset(s)
  {
    if k > 0 {
      ShuffleStepsPermutes(s, draws, k - 1);
      ShuffleStepPermutes(s, draws, k);
    }
  }

  /** The shuffled sequence is a permutation of the original. */
  lemma ShuffledPermutes<T>(s: seq<T>, draws: seq<nat>)
    requires ValidDraws(draws) && |draws| == |s|
    ensures |Shuffled(s, draws)| == |s|
    ensures multiset(Shuffled(s, draws)) == multiset(s)
  {
    ShuffleStepsPermutes(s, draws, |s|);
  }

  /** The positions 0, 1, …, n - 1. */
  function Identity(n: nat): seq<nat>
  {
    seq(n, k => k)
  }

  /** Every entry of p is a position below n. */
  predicate Below(p: seq<nat>, n: nat)
  {
    forall k :: 0 <= k < |p| ==> p[k] < n
  }

  /** Reads s at the positions listed in p. */
  function Pick<T>(s: seq<T>, p: seq<nat>): seq<T>
    requires Below(p, |s|)
  {
    seq(|p|, k requires 0 <= k < |p| => s[p[k]])
  }

  /** Shuffling a re-indexed sequence re-indexes by the shuffled index list. */
  lemma {:induction false} ShuffleStepsPick<T>(s: seq<T>, p: seq<nat>, draws: seq<nat>, k: nat)
    requires Below(p, |s|)
    requires ValidDraws(draws) && |draws| == |p| && k <= |p|
    ensures Below(ShuffleSteps(p, draws, k), |s|)
    ensures ShuffleSteps(Pick(s, p), draws, k) == Pick(s, ShuffleSteps(p, draws, k))
  {
    if k > 0 {
      ShuffleStepsPick(s, p, draws, k - 1);
      var q := ShuffleSteps(p, draws, k - 1);
      var i, j := k - 1, draws[k - 1];
      var q' := Swap(q, i, j);
      assert Below(q', |s|) by {
        forall m | 0 <= m < |q'| ensures q'[m] < |s| {
          if m != i && m != j {
            assert q'[m] == q[m];
          }
        }
      }
      assert Swap(Pick(s, q), i, j) == Pick(s, q');
    }
  }

  /** The order the pass puts positions in: entry k is the original position now at k. */
  function ShuffleOrder(draws: seq<nat>): seq<nat>
    requires ValidDraws(draws)
  {
    Shuffled(Identity(|draws|), draws)
  }

  /** The shuffle order lists every position 0 … n - 1 exactly once. */
  lemma ShuffleOrderIsPermutation(draws: seq<nat>)
    requires ValidDraws(draws)
    ensures |ShuffleOrder(draws)| == |draws|
    ensures multiset(ShuffleOrder(draws)) == multiset(Identity(|draws|))
    ensures Below(ShuffleOrder(draws), |draws|)
  {
    var n := |draws|;
    ShuffledPermutes(Identity(n), draws);
    var order := ShuffleOrder(draws);
    forall k | 0 <= k < n
      ensures order[k] < n
    {
      assert order[k] in multiset(order);
      assert order[k] in Identity(n);
    }
  }

  /** Any sequence is shuffled by reading it in the shuffle order. */
  lemma ShuffledFollowsOrder<T>(s: seq<T>, draws: seq<nat>)
    requires ValidDraws(draws) && |draws| == |s|
    ensures Below(ShuffleOrder(draws), |s|)
    ensures Shuffled(s, draws) == Pick(s, ShuffleOrder(draws))
  {
    var id := Identity(|s|);
    assert Below(id, |s|);
    ShuffleStepsPick(s, id, draws, |s|);
    assert Pick(s, id) == s;
  }

  /**
   * Alignment: one permutation of the positions moves the inputs and the
   * targets alike, so the sample at position k after the shuffle is the
   * input and the target that were together at one position before it.
   */
  lemma ShuffleKeepsPairs(data: TrainingData, draws: seq<nat>)
    requires |data.inputs| == |data.targets|
    requires |draws| == |data.inputs| && ValidDraws(draws)
    ensures multiset(ShuffleOrder(draws)) == multiset(Identity(|draws|))
    ensures forall k :: 0 <= k < |draws| ==>
              && ShuffleOrder(draws)[k] < |draws|
              && Shuffled(data.inputs, draws)[k] == data.inputs[ShuffleOrder(draws)[k]]
              && Shuffled(data.targets, draws)[k] == data.targets[ShuffleOrder(draws)[k]]
  {
    ShuffleOrderIsPermutation(draws);
    ShuffledFollowsOrder(data.inputs, draws);
    ShuffledFollowsOrder(data.targets, draws);
  }

  /** The (input, target) pairs of a data set, position by position. */
  function Pairs(data: TrainingData): (ps: seq<(seq<real>, seq<real>)>)
    requires |data.inputs| == |data.targets|
    ensures |ps| == |data.inputs|
  {
    seq(|data.inputs|, k requires 0 <= k < |data.inputs| => (data.inputs[k], data.targets[k]))
  }

  /** The shuffle keeps the multiset of (input, target) pairs. */
  lemma ShufflePreservesPairs(data: TrainingData, draws: seq<nat>)
    requires |data.inputs| == |data.targets|
    requires |draws| == |data.inputs| && ValidDraws(draws)
    ensures multiset(Pairs(TrainingData(Shuffled(data.inputs, draws), Shuffled(data.targets, draws))))
         == multiset(Pairs(data))
  {
    var ps := Pairs(data);
    ShuffledFollowsOrder(data.inputs, draws);
    ShuffledFollowsOrder(data.targets, draws);
    ShuffledFollowsOrder(ps, draws);
    ShuffledPermutes(ps, draws);
    assert Pairs(TrainingData(Shuffled(data.inputs, draws), Shuffled(data.targets, draws))) == Shuffled(ps, draws);
  }
}
