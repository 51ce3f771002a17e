/**
 * The multilayer perceptron of src/network.rs.
 *
 * A network over layer sizes s[0], …, s[L] keeps, for every layer l < L, a
 * weight matrix of shape (s[l+1], s[l]) and a bias column of shape
 * (s[l+1], 1), plus the columns cached by the last forward pass. The methods
 * of `Network` update these fields in place; each one is proved against a
 * specification function over values (ForwardCache, BackwardTo, Trained).
 *
 * The activation function and its derivative are opaque `real -> real`
 * parameters, and the random initial weights are supplied by the caller.
 */
module Networks {
  import opened Matrices
  import Training

  /** The pair of functions `Activation` carries: the squashing function and its derivative. */
  datatype Activation = Activation(apply: real -> real, derivative: real -> real)

  /** The closure `|x| x * learning_rate` of back-propagation. */
  function ScaleBy(rate: real): real -> real
  {
    x => x * rate
  }

  /** A valid column of n rows. */
  predicate IsColumn(m: Matrix, n: nat)
  {
    m.Valid() && m.rows == n && m.cols == 1
  }

  /** The shape discipline: one weight matrix (s[l+1] × s[l]) and one bias column (s[l+1] × 1) per layer l < L. */
  predicate ShapedLayers(sizes: seq<nat>, weights: seq<Matrix>, biases: seq<Matrix>)
  {
    && |sizes| >= 1
    && |weights| == |sizes| - 1
    && |biases| == |sizes| - 1
    && (forall l :: 0 <= l < |weights| ==>
          weights[l].Valid() && weights[l].rows == sizes[l + 1] && weights[l].cols == sizes[l])
    && (forall l :: 0 <= l < |biases| ==> IsColumn(biases[l], sizes[l + 1]))
  }

  /** A cache that back-propagation can read: column l has s[l] rows for every l < L. */
  predicate CacheFits(sizes: seq<nat>, cache: seq<Matrix>)
  {
    && |cache| >= |sizes| - 1
    && forall l :: 0 <= l < |sizes| - 1 ==> IsColumn(cache[l], sizes[l])
  }

  /** Every draw lies in [0, 1), the range of `Matrix::random`'s `gen_range(0.0..1.0)`. */
  predicate UnitDraws(draws: seq<real>)
  {
    forall k :: 0 <= k < |draws| ==> 0.0 <= draws[k] < 1.0
  }

  // ---------------------------------------------------------------------------
  // The forward pass
  // ---------------------------------------------------------------------------

  /** One layer of `feed_forward`: f(w · x + b), element by element. */
  function LayerOutput(w: Matrix, b: Matrix, f: real -> real, x: Matrix): (y: Matrix)
    requires w.Valid() && x.Valid() && w.cols == x.rows
    requires b.Valid() && b.rows == w.rows && b.cols == x.cols
    ensures y.Valid() && y.rows == w.rows && y.cols == x.cols
    ensures forall r, c :: 0 <= r < w.rows && 0 <= c < x.cols ==>
              y.Get(r, c) == f(DotSum(w, x, r, c, w.cols) + b.Get(r, c))
  {
    Map(Sum(Product(w, x), b), f)
  }

  /**
   * The cache after the first n layers of a forward pass: the input column,
   * then each layer's output computed from the one before.
   */
  function ForwardCache(sizes: seq<nat>, weights: seq<Matrix>, biases: seq<Matrix>, f: real -> real,
                        inputs: seq<real>, n: nat): (cache: seq<Matrix>)
    requires ShapedLayers(sizes, weights, biases) && |inputs| == sizes[0] && n < |sizes|
    ensures |cache| == n + 1
    ensures cache[0] == FromVec(inputs, |inputs|, 1)
    ensures forall l :: 0 <= l <= n ==> IsColumn(cache[l], sizes[l])
  {
    if n == 0 then
      [FromVec(inputs, |inputs|, 1)]
    else
      var prev := ForwardCache(sizes, weights, biases, f, inputs, n - 1);
      prev + [LayerOutput(weights[n - 1], biases[n - 1], f, prev[n - 1])]
  }

  /** Every cached column after the first is the layer applied to the column before it. */
  lemma {:induction false} ForwardCacheLayers(sizes: seq<nat>, weights: seq<Matrix>, biases: seq<Matrix>,
                                              f: real -> real, inputs: seq<real>, n: nat)
    requires ShapedLayers(sizes, weights, biases) && |inputs| == sizes[0] && n < |sizes|
    ensures forall l :: 0 <= l < n ==>
              ForwardCache(sizes, weights, biases, f, inputs, n)[l + 1]
              == LayerOutput(weights[l], biases[l], f, ForwardCache(sizes, weights, biases, f, inputs, n)[l])
  {
    if n > 0 {
      ForwardCacheLayers(sizes, weights, biases, f, inputs, n - 1);
      var prev := ForwardCache(sizes, weights, biases, f, inputs, n - 1);
      var cache := ForwardCache(sizes, weights, biases, f, inputs, n);
      assert cache == prev + [LayerOutput(weights[n - 1], biases[n - 1], f, prev[n - 1])];
      forall l | 0 <= l < n
        ensures cache[l + 1] == LayerOutput(weights[l], biases[l], f, cache[l])
      {
        assert cache[l] == prev[l];
        if l + 1 < n {
          assert cache[l + 1] == prev[l + 1];
        }
      }
    }
  }

  /** A longer forward pass extends a shorter one: the first m + 1 columns do not depend on later layers. */
  lemma {:induction false} ForwardCachePrefix(sizes: seq<nat>, weights: seq<Matrix>, biases: seq<Matrix>,
                                              f: real -> real, inputs: seq<real>, m: nat, n: nat)
    requires ShapedLayers(sizes, weights, biases) && |inputs| == sizes[0] && m <= n < |sizes|
    ensures ForwardCache(sizes, weights, biases, f, inputs, n)[..m + 1] == ForwardCache(sizes, weights, biases, f, inputs, m)
  {
    if m < n {
      ForwardCachePrefix(sizes, weights, biases, f, inputs, m, n - 1);
      var prev := ForwardCache(sizes, weights, biases, f, inputs, n - 1);
      assert ForwardCache(sizes, weights, biases, f, inputs, n)[..m + 1] == prev[..m + 1];
    }
  }

  // ---------------------------------------------------------------------------
  // Back-propagation
  // ---------------------------------------------------------------------------

  /** The values `back_propagation` updates: the parameters and the running errors and gradients. */
  datatype Backprop = Backprop(weights: seq<Matrix>, biases: seq<Matrix>, errors: Matrix, gradients: Matrix)

  /** A single row, transposed as the source does it, is the column with the same entries. */
  lemma RowToColumn(v: seq<real>)
    ensures Transposed(FromVec(v, 1, |v|)) == FromVec(v, |v|, 1)
    ensures forall r :: 0 <= r < |v| ==> FromVec(v, |v|, 1).Get(r, 0) == v[r]
  {
    TransposeOfVector(FromVec(v, 1, |v|));
  }

  /**
   * Before the layer loop: the outputs and targets become columns (through
   * `transpose` of a single row), errors = targets - outputs and gradients =
   * the derivative applied to every output.
   */
  function InitialBackprop(weights: seq<Matrix>, biases: seq<Matrix>, outputs: seq<real>, targets: seq<real>,
                           derivative: real -> real): (s: Backprop)
    requires |outputs| == |targets|
    ensures s.weights == weights && s.biases == biases
    ensures IsColumn(s.errors, |targets|) && IsColumn(s.gradients, |targets|)
    ensures forall r :: 0 <= r < |targets| ==>
              s.errors.Get(r, 0) == targets[r] - outputs[r] && s.gradients.Get(r, 0) == derivative(outputs[r])
  {
    RowToColumn(outputs);
    RowToColumn(targets);
    var outputMatrix := Transposed(FromVec(outputs, 1, |outputs|));
    var targetMatrix := Transposed(FromVec(targets, 1, |targets|));
    Backprop(weights, biases, Difference(targetMatrix, outputMatrix), Map(outputMatrix, derivative))
  }

  /** What `back_propagation` needs of a state before it processes layer l. */
  predicate StepReady(sizes: seq<nat>, cache: seq<Matrix>, s: Backprop, l: nat)
  {
    && ShapedLayers(sizes, s.weights, s.biases)
    && l < |sizes| - 1
    && IsColumn(s.errors, sizes[l + 1])
    && IsColumn(s.gradients, sizes[l + 1])
    && l < |cache| && IsColumn(cache[l], sizes[l])
  }

  /**
   * One pass of the layer loop at layer l: scale the element-wise product of
   * gradients and errors by the learning rate, add its product with the
   * transposed cached input to the weights and add it to the biases, then
   * carry the errors back through the transposed, already updated, weights
   * and take the derivative of the cached input as the next gradients.
   */
  function BackwardStep(sizes: seq<nat>, cache: seq<Matrix>, derivative: real -> real, rate: real,
                        s: Backprop, l: nat): (n: Backprop)
    requires StepReady(sizes, cache, s, l)
    ensures ShapedLayers(sizes, n.weights, n.biases)
    ensures IsColumn(n.errors, sizes[l]) && IsColumn(n.gradients, sizes[l])
    ensures forall i :: 0 <= i < |s.weights| && i != l ==> n.weights[i] == s.weights[i] && n.biases[i] == s.biases[i]
    ensures forall r :: 0 <= r < sizes[l] ==> n.gradients.Get(r, 0) == derivative(cache[l].Get(r, 0))
  {
    var g := Map(Hadamard(s.gradients, s.errors), ScaleBy(rate));
    var w := Sum(s.weights[l], Product(g, Transposed(cache[l])));
    var b := Sum(s.biases[l], g);
    Backprop(s.weights[l := w], s.biases[l := b], Product(Transposed(w), s.errors), Map(cache[l], derivative))
  }

  /**
   * The update of layer l is the delta rule: weight (r, c) grows by
   * rate · gradient[r] · error[r] · input[c], and bias r by rate · gradient[r] · error[r].
   */
  lemma BackwardStepUpdate(sizes: seq<nat>, cache: seq<Matrix>, derivative: real -> real, rate: real,
                           s: Backprop, l: nat, r: nat, c: nat)
    requires StepReady(sizes, cache, s, l)
    requires r < sizes[l + 1] && c < sizes[l]
    ensures var n := BackwardStep(sizes, cache, derivative, rate, s, l);
            && n.weights[l].Get(r, c)
               == s.weights[l].Get(r, c) + s.gradients.Get(r, 0) * s.errors.Get(r, 0) * rate * cache[l].Get(c, 0)
            && n.biases[l].Get(r, 0)
               == s.biases[l].Get(r, 0) + s.gradients.Get(r, 0) * s.errors.Get(r, 0) * rate
  {
    var g := Map(Hadamard(s.gradients, s.errors), ScaleBy(rate));
    var t := Transposed(cache[l]);
    TransposeOfVector(cache[l]);
    assert t.Get(0, c) == cache[l].Get(c, 0);
    assert g.Get(r, 0) == s.gradients.Get(r, 0) * s.errors.Get(r, 0) * rate;
    assert DotSum(g, t, r, c, 1) == g.Get(r, 0) * t.Get(0, c);
  }

  /** The state once layers L - 1 down to l have been processed (L = |sizes| - 1); layers below l are untouched. */
  function BackwardTo(sizes: seq<nat>, cache: seq<Matrix>, derivative: real -> real, rate: real,
                      init: Backprop, l: nat): (s: Backprop)
    requires ShapedLayers(sizes, init.weights, init.biases) && CacheFits(sizes, cache)
    requires IsColumn(init.errors, sizes[|sizes| - 1]) && IsColumn(init.gradients, sizes[|sizes| - 1])
    requires l <= |sizes| - 1
    ensures ShapedLayers(sizes, s.weights, s.biases)
    ensures IsColumn(s.errors, sizes[l]) && IsColumn(s.gradients, sizes[l])
    ensures forall i :: 0 <= i < l ==> s.weights[i] == init.weights[i] && s.biases[i] == init.biases[i]
    decreases |sizes| - 1 - l
  {
    if l == |sizes| - 1 then init
    else BackwardStep(sizes, cache, derivative, rate, BackwardTo(sizes, cache, derivative, rate, init, l + 1), l)
  }

  // ---------------------------------------------------------------------------
  // Training
  // ---------------------------------------------------------------------------

  /** The trainable parameters. */
  datatype Params = Params(weights: seq<Matrix>, biases: seq<Matrix>)

  /** Every input has s[0] entries and every target s[L] entries, and the two lists pair up. */
  predicate SamplesFit(sizes: seq<nat>, data: Training.TrainingData)
  {
    && |sizes| >= 1
    && |data.inputs| == |data.targets|
    && (forall k :: 0 <= k < |data.inputs| ==> |data.inputs[k]| == sizes[0])
    && (forall k :: 0 <= k < |data.targets| ==> |data.targets[k]| == sizes[|sizes| - 1])
  }

  /** One `feed_forward` followed by one `back_propagation` of its outputs against `target`. */
  function SampleStep(sizes: seq<nat>, act: Activation, rate: real, p: Params,
                      input: seq<real>, target: seq<real>): (q: Params)
    requires ShapedLayers(sizes, p.weights, p.biases)
    requires |input| == sizes[0] && |target| == sizes[|sizes| - 1]
    ensures ShapedLayers(sizes, q.weights, q.biases)
  {
    var top := |sizes| - 1;
    var cache := ForwardCache(sizes, p.weights, p.biases, act.apply, input, top);
    var init := InitialBackprop(p.weights, p.biases, cache[top].data, target, act.derivative);
    var s := BackwardTo(sizes, cache, act.derivative, rate, init, 0);
    Params(s.weights, s.biases)
  }

  /** The parameters after the first k samples of one epoch, taken in order. */
  function EpochPasses(sizes: seq<nat>, act: Activation, rate: real, p: Params,
                       data: Training.TrainingData, k: nat): (q: Params)
    requires ShapedLayers(sizes, p.weights, p.biases) && SamplesFit(sizes, data) && k <= |data.inputs|
    ensures ShapedLayers(sizes, q.weights, q.biases)
    decreases k, 0
  {
    if k == 0 then p else AfterSample(sizes, act, rate, p, data, k - 1)
  }

  /** The parameters right after sample k of one epoch has been fed forward and back-propagated. */
  function AfterSample(sizes: seq<nat>, act: Activation, rate: real, p: Params,
                       data: Training.TrainingData, k: nat): (q: Params)
    requires ShapedLayers(sizes, p.weights, p.biases) && SamplesFit(sizes, data) && k < |data.inputs|
    ensures ShapedLayers(sizes, q.weights, q.biases)
    decreases k, 2
  {
    SampleOf(sizes, act, rate, p, data, k)
  }

  /**
   * Sample k of the epoch, taken from the parameters after the k samples
   * before it. (A step of its own, so that unfolding EpochPasses twice does
   * not yet expose a whole forward and backward pass.)
   */
  function SampleOf(sizes: seq<nat>, act: Activation, rate: real, p: Params,
                    data: Training.TrainingData, k: nat): (q: Params)
    requires ShapedLayers(sizes, p.weights, p.biases) && SamplesFit(sizes, data) && k < |data.inputs|
    ensures ShapedLayers(sizes, q.weights, q.biases)
    decreases k, 1
  {
    SampleStep(sizes, act, rate, EpochPasses(sizes, act, rate, p, data, k), data.inputs[k], data.targets[k])
  }

  /**
   * The cache an epoch leaves behind: the forward pass of its last sample,
   * under the parameters the samples before it left (the back-propagation
   * that follows reads the cache but does not change it). An epoch without
   * samples leaves the cache as it found it.
   */
  function EpochCache(sizes: seq<nat>, act: Activation, rate: real, p: Params,
                      data: Training.TrainingData, cache: seq<Matrix>): (c: seq<Matrix>)
    requires ShapedLayers(sizes, p.weights, p.biases) && SamplesFit(sizes, data)
    ensures |data.inputs| > 0 ==>
              && |c| == |sizes| && CacheFits(sizes, c)
              && c[0] == FromVec(data.inputs[|data.inputs| - 1], sizes[0], 1)
  {
    var n := |data.inputs|;
    if n == 0 then cache
    else
      var q := EpochPasses(sizes, act, rate, p, data, n - 1);
      ForwardCache(sizes, q.weights, q.biases, act.apply, data.inputs[n - 1], |sizes| - 1)
  }

  /** An epoch with samples overwrites the cache, so the cache it started from does not matter. */
  lemma EpochCacheFrom(sizes: seq<nat>, act: Activation, rate: real, p: Params,
                       data: Training.TrainingData, cache: seq<Matrix>, other: seq<Matrix>)
    requires ShapedLayers(sizes, p.weights, p.biases) && SamplesFit(sizes, data)
    requires |data.inputs| == 0 ==> cache == other
    ensures EpochCache(sizes, act, rate, p, data, cache) == EpochCache(sizes, act, rate, p, data, other)
  {
  }

  /** Sample k moves the parameters from those after k samples to those after k + 1. */
  lemma EpochPassesNext(sizes: seq<nat>, act: Activation, rate: real, p: Params,
                        data: Training.TrainingData, k: nat)
    requires ShapedLayers(sizes, p.weights, p.biases) && SamplesFit(sizes, data) && k < |data.inputs|
    ensures EpochPasses(sizes, act, rate, p, data, k + 1)
         == SampleStep(sizes, act, rate, EpochPasses(sizes, act, rate, p, data, k), data.inputs[k], data.targets[k])
  {
    assert EpochPasses(sizes, act, rate, p, data, k + 1) == AfterSample(sizes, act, rate, p, data, k);
    assert AfterSample(sizes, act, rate, p, data, k) == SampleOf(sizes, act, rate, p, data, k);
  }

  /** One shuffle keeps the samples' shapes. */
  lemma ShuffleKeepsFit(sizes: seq<nat>, data: Training.TrainingData, draws: seq<nat>)
    requires SamplesFit(sizes, data) && |draws| == |data.inputs| && Training.ValidDraws(draws)
    ensures SamplesFit(sizes, Training.TrainingData(Training.Shuffled(data.inputs, draws),
                                                    Training.Shuffled(data.targets, draws)))
  {
    Training.ShuffleKeepsPairs(data, draws);
  }

  /** One shuffle pass of n positions per epoch. */
  predicate EpochDraws(draws: seq<seq<nat>>, n: nat)
  {
    forall e :: 0 <= e < |draws| ==> |draws[e]| == n && Training.ValidDraws(draws[e])
  }

  /** The data set used by epoch e: the original one shuffled once after each earlier epoch. */
  function EpochData(sizes: seq<nat>, data: Training.TrainingData, draws: seq<seq<nat>>, e: nat): (d: Training.TrainingData)
    requires SamplesFit(sizes, data) && EpochDraws(draws, |data.inputs|) && e <= |draws|
    ensures SamplesFit(sizes, d) && |d.inputs| == |data.inputs|
  {
    if e == 0 then data
    else
      var prev := EpochData(sizes, data, draws, e - 1);
      ShuffleKeepsFit(sizes, prev, draws[e - 1]);
      Training.TrainingData(Training.Shuffled(prev.inputs, draws[e - 1]), Training.Shuffled(prev.targets, draws[e - 1]))
  }

  /** Every epoch trains on the same (input, target) pairs, only in another order. */
  lemma {:induction false} EpochDataKeepsPairs(sizes: seq<nat>, data: Training.TrainingData, draws: seq<seq<nat>>, e: nat)
    requires SamplesFit(sizes, data) && EpochDraws(draws, |data.inputs|) && e <= |draws|
    ensures multiset(Training.Pairs(EpochData(sizes, data, draws, e))) == multiset(Training.Pairs(data))
  {
    if e > 0 {
      EpochDataKeepsPairs(sizes, data, draws, e - 1);
      var prev := EpochData(sizes, data, draws, e - 1);
      Training.ShufflePreservesPairs(prev, draws[e - 1]);
      assert EpochData(sizes, data, draws, e)
          == Training.TrainingData(Training.Shuffled(prev.inputs, draws[e - 1]), Training.Shuffled(prev.targets, draws[e - 1]));
    }
  }

  /** The parameters after the first e epochs. */
  function Trained(sizes: seq<nat>, act: Activation, rate: real, p: Params,
                   data: Training.TrainingData, draws: seq<seq<nat>>, e: nat): (q: Params)
    requires ShapedLayers(sizes, p.weights, p.biases) && SamplesFit(sizes, data)
    requires EpochDraws(draws, |data.inputs|) && e <= |draws|
    ensures ShapedLayers(sizes, q.weights, q.biases)
  {
    if e == 0 then p
    else
      var d := EpochData(sizes, data, draws, e - 1);
      EpochPasses(sizes, act, rate, Trained(sizes, act, rate, p, data, draws, e - 1), d, |d.inputs|)
  }

  /** The cache after the first e epochs, each leaving the cache of its last sample. */
  function TrainedCache(sizes: seq<nat>, act: Activation, rate: real, p: Params,
                        data: Training.TrainingData, draws: seq<seq<nat>>, e: nat, cache: seq<Matrix>): (c: seq<Matrix>)
    requires ShapedLayers(sizes, p.weights, p.biases) && SamplesFit(sizes, data)
    requires EpochDraws(draws, |data.inputs|) && e <= |draws|
    ensures e == 0 || |data.inputs| == 0 ==> c == cache
  {
    if e == 0 then cache
    else
      EpochCache(sizes, act, rate, Trained(sizes, act, rate, p, data, draws, e - 1), EpochData(sizes, data, draws, e - 1),
                 TrainedCache(sizes, act, rate, p, data, draws, e - 1, cache))
  }

  /**
   * After at least one epoch only the last one decides the cache: it is the
   * forward pass of the last sample of the last epoch's data (or the cache
   * the training started with, when there are no samples).
   */
  lemma TrainedCacheLast(sizes: seq<nat>, act: Activation, rate: real, p: Params,
                          data: Training.TrainingData, draws: seq<seq<nat>>, e: nat, cache: seq<Matrix>)
    requires ShapedLayers(sizes, p.weights, p.biases) && SamplesFit(sizes, data)
    requires EpochDraws(draws, |data.inputs|) && 0 < e <= |draws|
    ensures TrainedCache(sizes, act, rate, p, data, draws, e, cache)
         == EpochCache(sizes, act, rate, Trained(sizes, act, rate, p, data, draws, e - 1), EpochData(sizes, data, draws, e - 1), cache)
  {
    var q, d := Trained(sizes, act, rate, p, data, draws, e - 1), EpochData(sizes, data, draws, e - 1);
    EpochCacheFrom(sizes, act, rate, q, d, TrainedCache(sizes, act, rate, p, data, draws, e - 1, cache), cache);
  }

  /** Epoch e trains from the parameters after e epochs on the data set of epoch e. */
  lemma TrainedNext(sizes: seq<nat>, act: Activation, rate: real, p: Params,
                    data: Training.TrainingData, draws: seq<seq<nat>>, e: nat)
    requires ShapedLayers(sizes, p.weights, p.biases) && SamplesFit(sizes, data)
    requires EpochDraws(draws, |data.inputs|) && e < |draws|
    ensures Trained(sizes, act, rate, p, data, draws, e + 1)
         == EpochPasses(sizes, act, rate, Trained(sizes, act, rate, p, data, draws, e),
                        EpochData(sizes, data, draws, e), |data.inputs|)
    ensures EpochData(sizes, data, draws, e + 1)
         == Training.TrainingData(Training.Shuffled(EpochData(sizes, data, draws, e).inputs, draws[e]),
                                  Training.Shuffled(EpochData(sizes, data, draws, e).targets, draws[e]))
  {
  }

  // ---------------------------------------------------------------------------
  // The network object
  // ---------------------------------------------------------------------------

  class Network {
    const layerSizes: seq<nat>
    var weights: seq<Matrix>
    var biases: seq<Matrix>
    var layerOutputs: seq<Matrix>
    const activation: Activation
    const learningRate: real

    /** The weights and biases keep the shape discipline. */
    predicate Valid()
      reads this
    {
      ShapedLayers(layerSizes, weights, biases)
    }

    /**
     * `Network::new`: for every layer l < L draws a random (s[l+1] × s[l])
     * weight matrix and a random (s[l+1] × 1) bias column, and starts with an
     * empty cache. `layer_sizes.len() - 1` underflows on an empty list, so
     * at least one size is required.
     */
    constructor (layerSizes: seq<nat>, activation: Activation, learningRate: real,
                 weightDraws: seq<seq<real>>, biasDraws: seq<seq<real>>)
      requires |layerSizes| >= 1
      requires |weightDraws| == |layerSizes| - 1 && |biasDraws| == |layerSizes| - 1
      requires forall l :: 0 <= l < |weightDraws| ==>
                 |weightDraws[l]| == layerSizes[l + 1] * layerSizes[l] && UnitDraws(weightDraws[l])
      requires forall l :: 0 <= l < |biasDraws| ==> |biasDraws[l]| == layerSizes[l + 1] && UnitDraws(biasDraws[l])
      ensures this.layerSizes == layerSizes && this.activation == activation && this.learningRate == learningRate
      ensures Valid() && layerOutputs == []
      ensures forall l :: 0 <= l < |weights| ==> weights[l].data == weightDraws[l] && biases[l].data == biasDraws[l]
    {
      var ws: seq<Matrix> := [];
      var bs: seq<Matrix> := [];
      for i := 0 to |layerSizes| - 1
        invariant |ws| == i && |bs| == i
        invariant forall l :: 0 <= l < i ==>
                    ws[l].Valid() && ws[l].rows == layerSizes[l + 1] && ws[l].cols == layerSizes[l]
                    && ws[l].data == weightDraws[l]
        invariant forall l :: 0 <= l < i ==> IsColumn(bs[l], layerSizes[l + 1]) && bs[l].data == biasDraws[l]
      {
        var w := Random(layerSizes[i + 1], layerSizes[i], weightDraws[i]);
        var b := Random(layerSizes[i + 1], 1, biasDraws[i]);
        ws := ws + [w];
        bs := bs + [b];
      }
      this.layerSizes := layerSizes;
      weights := ws;
      biases := bs;
      layerOutputs := [];
      this.activation := activation;
      this.learningRate := learningRate;
    }

    /**
     * `Network::feed_forward`: panics unless there are s[0] inputs; caches the
     * input column and every layer's output, and returns the last output's
     * data (transposing a single column leaves its data as it is). Only the
     * cache changes.
     */
    method FeedForward(inputs: seq<real>) returns (outputs: seq<real>)
      requires Valid()
      requires |inputs| == layerSizes[0]
      modifies this`layerOutputs
      ensures layerOutputs == ForwardCache(layerSizes, weights, biases, activation.apply, inputs, |layerSizes| - 1)
      ensures outputs == layerOutputs[|layerSizes| - 1].data
      ensures |outputs| == layerSizes[|layerSizes| - 1]
      ensures CacheFits(layerSizes, layerOutputs)
    {
      var output := FromVec(inputs, |inputs|, 1);
      layerOutputs := [output];
      for layer := 0 to |layerSizes| - 1
        invariant layerOutputs == ForwardCache(layerSizes, weights, biases, activation.apply, inputs, layer)
        invariant output == layerOutputs[layer]
      {
        var product := DotMultiply(weights[layer], output);
        var summed := Add(product, biases[layer]);
        output := Map(summed, activation.apply);
        layerOutputs := layerOutputs + [output];
      }
      var column := Transpose(output);
      TransposeOfVector(output);
      outputs := column.data;
    }

    /**
     * `Network::back_propagation`: panics unless there are s[L] targets (and
     * as many outputs, for the subtraction); needs a cache with a column of
     * s[l] rows for every layer l < L, as `feed_forward` leaves it. Walks the
     * layers from L - 1 down to 0 and updates each layer's weights and bias
     * in place; the cache is read only.
     */
    method BackPropagation(outputs: seq<real>, targets: seq<real>)
      requires Valid()
      requires |targets| == layerSizes[|layerSizes| - 1]
      requires |outputs| == |targets|
      requires CacheFits(layerSizes, layerOutputs)
      modifies this`weights, this`biases
      ensures Valid()
      ensures var final := BackwardTo(layerSizes, layerOutputs, activation.derivative, learningRate,
                                      InitialBackprop(old(weights), old(biases), outputs, targets, activation.derivative), 0);
              weights == final.weights && biases == final.biases
    {
      ghost var init := InitialBackprop(weights, biases, outputs, targets, activation.derivative);
      var outputMatrix := Transpose(FromVec(outputs, 1, |outputs|));
      var targetMatrix := Transpose(FromVec(targets, 1, |targets|));
      var errors := Subtract(targetMatrix, outputMatrix);
      var gradients := Map(outputMatrix, activation.derivative);
      for layer := |layerSizes| - 1 downto 0
        invariant Backprop(weights, biases, errors, gradients)
                  == BackwardTo(layerSizes, layerOutputs, activation.derivative, learningRate, init, layer)
      {
        errors, gradients := BackwardLayer(layer, errors, gradients);
      }
    }

    /** One pass of the layer loop of `back_propagation`, updating layer l in place. */
    method BackwardLayer(layer: nat, errors: Matrix, gradients: Matrix) returns (nextErrors: Matrix, nextGradients: Matrix)
      requires StepReady(layerSizes, layerOutputs, Backprop(weights, biases, errors, gradients), layer)
      modifies this`weights, this`biases
      ensures Backprop(weights, biases, nextErrors, nextGradients)
              == BackwardStep(layerSizes, layerOutputs, activation.derivative, learningRate,
                              Backprop(old(weights), old(biases), errors, gradients), layer)
    {
      var product := Multiply(gradients, errors);
      var scaled := Map(product, ScaleBy(learningRate));

      var inputRow := Transpose(layerOutputs[layer]);
      var delta := DotMultiply(scaled, inputRow);
      var newWeights := Add(weights[layer], delta);
      weights := weights[layer := newWeights];
      var newBiases := Add(biases[layer], scaled);
      biases := biases[layer := newBiases];

      var weightsBack := Transpose(weights[layer]);
      nextErrors := DotMultiply(weightsBack, errors);
      nextGradients := Map(layerOutputs[layer], activation.derivative);
    }

    /**
     * `Network::train`: panics (in `TrainingData::new`) unless there are as many
     * targets as inputs; runs epochs + 1 passes (`0..=epochs`, epochs a u16),
     * each feeding forward and back-propagating every sample in order, then
     * reshuffles the data set with that epoch's draws.
     */
    method Train(inputs: seq<seq<real>>, targets: seq<seq<real>>, epochs: nat, shuffleDraws: seq<seq<nat>>)
      requires Valid()
      requires epochs < 0x1_0000
      requires SamplesFit(layerSizes, Training.TrainingData(inputs, targets))
      requires |shuffleDraws| == epochs + 1 && EpochDraws(shuffleDraws, |inputs|)
      modifies this`weights, this`biases, this`layerOutputs
      ensures Valid()
      ensures Params(weights, biases)
              == Trained(layerSizes, activation, learningRate, old(Params(weights, biases)),
                         Training.TrainingData(inputs, targets), shuffleDraws, epochs + 1)
      ensures layerOutputs
              == EpochCache(layerSizes, activation, learningRate,
                            Trained(layerSizes, activation, learningRate, old(Params(weights, biases)),
                                    Training.TrainingData(inputs, targets), shuffleDraws, epochs),
                            EpochData(layerSizes, Training.TrainingData(inputs, targets), shuffleDraws, epochs),
                            old(layerOutputs))
    {
      ghost var start := Params(weights, biases);
      ghost var original := Training.TrainingData(inputs, targets);
      var data := Training.New(inputs, targets);
      for epoch := 0 to epochs + 1
        invariant Valid()
        invariant data == EpochData(layerSizes, original, shuffleDraws, epoch)
        invariant Params(weights, biases) == Trained(layerSizes, activation, learningRate, start, original, shuffleDraws, epoch)
        invariant layerOutputs == TrainedCache(layerSizes, activation, learningRate, start, original, shuffleDraws, epoch, old(layerOutputs))
      {
        TrainedNext(layerSizes, activation, learningRate, start, original, shuffleDraws, epoch);
        data := TrainEpoch(data, shuffleDraws[epoch]);
      }
      TrainedCacheLast(layerSizes, activation, learningRate, start, original, shuffleDraws, epochs + 1, old(layerOutputs));
    }

    /** One pass of the epoch loop of `train`: every sample in order, then the reshuffle. */
    method TrainEpoch(data: Training.TrainingData, draws: seq<nat>) returns (next: Training.TrainingData)
      requires Valid() && SamplesFit(layerSizes, data)
      requires |draws| == |data.inputs| && Training.ValidDraws(draws)
      modifies this`weights, this`biases, this`layerOutputs
      ensures Valid()
      ensures Params(weights, biases) == EpochPasses(layerSizes, activation, learningRate, old(Params(weights, biases)), data, |data.inputs|)
      ensures layerOutputs == EpochCache(layerSizes, activation, learningRate, old(Params(weights, biases)), data, old(layerOutputs))
      ensures next == Training.TrainingData(Training.Shuffled(data.inputs, draws), Training.Shuffled(data.targets, draws))
    {
      RunEpoch(data);
      next := Training.Shuffle(data, draws);
    }

    /** One epoch of `train`: a forward pass and a back-propagation for every sample, in order. */
    method RunEpoch(data: Training.TrainingData)
      requires Valid() && SamplesFit(layerSizes, data)
      modifies this`weights, this`biases, this`layerOutputs
      ensures Valid()
      ensures Params(weights, biases) == EpochPasses(layerSizes, activation, learningRate, old(Params(weights, biases)), data, |data.inputs|)
      ensures layerOutputs == EpochCache(layerSizes, activation, learningRate, old(Params(weights, biases)), data, old(layerOutputs))
    {
      ghost var before := Params(weights, biases);
      for i := 0 to |data.inputs|
        invariant Valid()
        invariant Params(weights, biases) == EpochPasses(layerSizes, activation, learningRate, before, data, i)
        invariant i == 0 ==> layerOutputs == old(layerOutputs)
        invariant i > 0 ==>
                    var q := EpochPasses(layerSizes, activation, learningRate, before, data, i - 1);
                    layerOutputs == ForwardCache(layerSizes, q.weights, q.biases, activation.apply, data.inputs[i - 1], |layerSizes| - 1)
      {
        TrainSample(data.inputs[i], data.targets[i], before, data, i);
      }
    }

    /**
     * The body of the sample loop of `train`: one forward pass of sample k,
     * then one back-propagation of its outputs against its target. Taken
     * from the parameters the first k samples of the epoch leave, it leaves
     * those of the first k + 1.
     */
    method TrainSample(input: seq<real>, target: seq<real>, ghost start: Params, ghost data: Training.TrainingData, ghost k: nat)
      requires Valid()
      requires ShapedLayers(layerSizes, start.weights, start.biases) && SamplesFit(layerSizes, data) && k < |data.inputs|
      requires input == data.inputs[k] && target == data.targets[k]
      requires Params(weights, biases) == EpochPasses(layerSizes, activation, learningRate, start, data, k)
      modifies this`weights, this`biases, this`layerOutputs
      ensures Valid()
      ensures Params(weights, biases) == EpochPasses(layerSizes, activation, learningRate, start, data, k + 1)
      ensures layerOutputs == ForwardCache(layerSizes, old(weights), old(biases), activation.apply, input, |layerSizes| - 1)
    {
      var outputs := FeedForward(input);
      BackPropagation(outputs, target);
      EpochPassesNext(layerSizes, activation, learningRate, start, data, k);
    }
  }
}
