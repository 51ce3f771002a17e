# A verified model of a small neural-network crate

The crate implements a dense feed-forward neural network trained by
back-propagation, plus the beginnings of a NEAT (NeuroEvolution of
Augmenting Topologies) genome. This project models its core in Dafny and
proves what the code guarantees.

- **Matrices** (`matrix.dfy`): row-major `f64` matrices with constructors,
  element-wise sum, difference and product, the matrix product
  (`dot_multiply`) and `transpose`. The index formula of `transpose` is
  modelled exactly as written. It is the true transpose only for square
  matrices and single rows or columns; `Matrices.TransposeIsTrueIff` proves
  exactly when, and `Matrices.TransposeTwoByThree` shows the permutation the
  code produces on a 2 × 3 matrix. It is still an involution on every shape.
  The true transpose reverses every product, (a · b)ᵀ = bᵀ · aᵀ; the code's
  transpose does so on square matrices but not on the product test's own
  matrices (see "## Findings").
- **Training data** (`training_data.dfy`): paired inputs and targets and the
  Fisher–Yates co-shuffle. It is proved to be a permutation that moves the
  inputs and the targets alike, so every (input, target) pair survives.
- **Network** (`network.dfy`): the `Network` object with its weight, bias and
  cached-output fields, updated in place by `feed_forward`,
  `back_propagation` and `train`. Each method is proved against
  specification functions:
  - `ForwardCache` for the forward pass;
  - `BackwardStep` / `BackwardTo` for the layer loop of back-propagation,
    whose per-element effect is the delta rule (`BackwardStepUpdate`);
  - `EpochPasses`, `EpochData` and `Trained` for the epoch loop.

  The code accepts a list of a single layer size, which makes a network with
  no weights, so the model accepts it too.
- **NEAT scaffolding**:
  - `innovation.dfy`: the innovation registry, whose two global `i8`
    counters become one explicit object.
  - `node_gene.dfy` and `connection_gene.dfy`: the gene records.
  - `genome.dfy`: the genome, whose two id-keyed maps are updated by
    `add_node_gene` and `add_connection_gene`. Its invariant
    (`Genomes.WellFormed`) has three parts:
    - every gene is keyed by its own issued id;
    - every connection joins copies of two of the genome's nodes, never out
      of an output and never into an input;
    - no (in, out) pair is connected twice.

Every random draw of the source becomes a parameter carrying the range the
generator guarantees. Panics (shape mismatches, an empty range, an `i8`
overflow, a `usize` underflow) become preconditions.

## Model

| member | source | states |
|---|---|---|
| Matrices.Zero | src/matrix.rs:26-38 | a rows × cols matrix whose every element is 0 |
| Matrices.Random | src/matrix.rs:11-24 | a rows × cols matrix holding the draws in order, every element in [0, 1) |
| Matrices.FromVec | src/matrix.rs:40-51 | panics unless the length is rows · cols; otherwise the given buffer with that shape |
| Matrices.FromVecOfData | src/matrix.rs:40-51 | rebuilding a valid matrix from its own buffer and shape gives it back |
| Matrices.FromVec2D | src/matrix.rs:53-59 | rows = number of inner vectors, cols = length of the first (which must exist), data = the rows concatenated, with no rectangularity check |
| Matrices.FlattenRectangular | src/matrix.rs:57 | flattening a rectangular grid puts grid[r][c] at offset r · width + c |
| Matrices.FromVec2DRectangular | src/matrix.rs:53-59 | for a rectangular grid the result is valid and element (r, c) is grid[r][c] |
| Matrices.Map | src/matrix.rs:61-71 | same shape, every element replaced by its image under f |
| Matrices.Sum | src/matrix.rs:73-90 | element (r, c) of the sum is a[r, c] + b[r, c], same shape |
| Matrices.Add | src/matrix.rs:73-90 | the push loop builds exactly the element-wise sum |
| Matrices.SumCommutes | src/matrix.rs:73-90 | a + b = b + a |
| Matrices.Difference | src/matrix.rs:92-109 | element (r, c) of the difference is a[r, c] − b[r, c], same shape |
| Matrices.Subtract | src/matrix.rs:92-109 | the push loop builds exactly the element-wise difference |
| Matrices.DifferenceThenSum | src/matrix.rs:73-109 | (a − b) + b = a |
| Matrices.Hadamard | src/matrix.rs:137-156 | element (r, c) is a[r, c] · b[r, c], same shape |
| Matrices.Multiply | src/matrix.rs:137-156 | the row/column push loop builds exactly the element-wise product |
| Matrices.Product | src/matrix.rs:111-135 | a (a.rows × b.cols) matrix whose element (r, c) is Σ_k a[r, k] · b[k, c] |
| Matrices.RowTimesColumn | src/matrix.rs:120-124 | the inner loop's running sum equals Σ_k a[r, k] · b[k, c] |
| Matrices.DotMultiply | src/matrix.rs:111-135 | the zeroed buffer, written in place at r · cols + c, ends as the matrix product |
| Matrices.ProductExample | src/matrix.rs:205-223 | [[1,2,3],[4,5,6]] · [[1,2],[3,4],[5,6]] = [[22,28],[49,64]] |
| Matrices.Transposed | src/matrix.rs:158-170 | the shape becomes (cols × rows) and the buffer keeps its length |
| Matrices.TransposedAt | src/matrix.rs:162 | output offset r · cols + c holds input offset c · rows + r |
| Matrices.Transpose | src/matrix.rs:158-170 | the nested push loop builds exactly the transpose as written |
| Matrices.TransposeTwice | src/matrix.rs:158-170 | transposing twice gives back the original, for every shape |
| Matrices.TransposeOfVector | src/matrix.rs:158-170 | a single row or column keeps its buffer; only the shape swaps |
| Matrices.TransposeRowExample | src/matrix.rs:256-271 | [[1, 2]] transposes to [[1], [2]] |
| Matrices.TransposeOfSquare | src/matrix.rs:158-170 | on a square matrix T[r, c] = m[c, r] |
| Matrices.TransposeTwoByThree | src/matrix.rs:162 | a 2 × 3 buffer [d0..d5] becomes [d0, d2, d4, d1, d3, d5] |
| Matrices.TransposedEntry | src/matrix.rs:162 | for offsets given as numbers, output offset k = r · cols + c holds input offset j = c · rows + r |
| Matrices.TransposeIsTrueIff | src/matrix.rs:158-170 | the result is the true transpose for every matrix of a shape exactly when the shape is square or has one row or one column |
| Matrices.TrueTransposeReversesProduct | src/matrix.rs:111-135 | the true transpose reverses every product, (a · b)ᵀ = bᵀ · aᵀ, whatever the shapes |
| Matrices.TransposeReversesSquareProduct | src/matrix.rs:158-170 | on square matrices of one size the source's transpose reverses products as well |
| Matrices.TransposeOfProductStart | src/matrix.rs:162 | for a 2 × 3 matrix a and a 3 × 2 matrix b, (a · b)ᵀ as written starts with a0·b0 + a1·b2 + a2·b4 |
| Matrices.ProductOfTransposesStart | src/matrix.rs:162 | for the same shapes, bᵀ · aᵀ as written starts with b0·a0 + b3·a4 + b1·a3 |
| Matrices.FirstRowOfTransposed | src/matrix.rs:162 | for a 3 × 2 matrix b, row 0 of bᵀ as written holds b0, b3, b1 |
| Matrices.FirstColumnOfTransposed | src/matrix.rs:162 | for a 2 × 3 matrix a, column 0 of aᵀ as written holds a0, a4, a3 |
| Matrices.TransposedGetAt | src/matrix.rs:162 | element (r, c) of the transpose as written sits at buffer offset r · rows + c = r2 · cols + c2, so it is the input element at offset c2 · rows + r2 |
| Matrices.TransposeReversesProductFails | src/matrix.rs:205-223 | on the matrices of the product test the source's transpose does not reverse the product: 22 against 29 |
| Training.New | src/training_data.rs:9-17 | panics unless inputs and targets have one length; otherwise keeps both |
| Training.Shuffle | src/training_data.rs:19-40 | the swap loop applies the same pass of swaps, driven by the draws, to the inputs and the targets |
| Training.ShuffleSteps | src/training_data.rs:24-34 | every prefix of the pass keeps the length |
| Training.SwapPermutes | src/training_data.rs:27-33 | one swap keeps the multiset of elements |
| Training.ShuffleStepsPermutes | src/training_data.rs:24-34 | every prefix of the pass keeps the multiset of elements |
| Training.ShuffledPermutes | src/training_data.rs:57-64 | the shuffled sequence is a permutation of the original, so every original sample is still present |
| Training.ShuffleStepsPick | src/training_data.rs:24-34 | shuffling a re-indexed sequence re-indexes it by the shuffled index list |
| Training.ShuffleOrderIsPermutation | src/training_data.rs:24-34 | the order the pass produces lists every position exactly once |
| Training.ShuffledFollowsOrder | src/training_data.rs:24-34 | any sequence is shuffled by reading it in that one order |
| Training.ShuffleKeepsPairs | src/training_data.rs:24-34 | after the shuffle, input k and target k come from one original position |
| Training.ShufflePreservesPairs | src/training_data.rs:19-40 | the shuffle keeps the multiset of (input, target) pairs |
| Networks.LayerOutput | src/network.rs:45-48 | one layer: element r is f(Σ_k w[r, k] · x[k] + b[r]), of shape (w.rows × 1) |
| Networks.ForwardCache | src/network.rs:41-51 | the cache starts with the input column and holds one column of s[l] rows per layer |
| Networks.ForwardCacheLayers | src/network.rs:44-51 | every cached column after the first is the layer applied to the column before it |
| Networks.ForwardCachePrefix | src/network.rs:44-51 | a longer forward pass extends a shorter one |
| Networks.RowToColumn | src/network.rs:61-62 | a single row, transposed by the source's formula, is the column with the same entries |
| Networks.InitialBackprop | src/network.rs:61-64 | errors = targets − outputs and gradients = derivative(outputs), both columns of s[L] rows |
| Networks.BackwardStep | src/network.rs:67-74 | one layer update keeps every shape, changes only layer l, and sets the gradients to the derivative of the cached input |
| Networks.BackwardStepUpdate | src/network.rs:67-71 | weight (r, c) grows by rate · gradient[r] · error[r] · input[c], and bias r by rate · gradient[r] · error[r] |
| Networks.BackwardTo | src/network.rs:66-75 | processing layers L−1 down to l keeps every shape and leaves the layers below l untouched |
| Networks.SampleStep | src/network.rs:84-87 | one forward pass and one back-propagation of a sample keep the shape discipline |
| Networks.EpochPasses | src/network.rs:84-87 | the parameters after the first k samples of an epoch keep the shape discipline |
| Networks.EpochPassesNext | src/network.rs:84-87 | sample k moves the parameters from those after k samples to those after k + 1 |
| Networks.ShuffleKeepsFit | src/network.rs:88 | reshuffling keeps every input of s[0] entries and every target of s[L] entries |
| Networks.EpochData | src/network.rs:79-89 | the data set of every epoch fits the network and has the original number of samples |
| Networks.EpochDataKeepsPairs | src/network.rs:80-89 | every epoch trains on the original (input, target) pairs, only reordered |
| Networks.Trained | src/network.rs:78-90 | the parameters after any number of epochs keep the shape discipline |
| Networks.EpochCache | src/network.rs:84-87 | after an epoch with samples the cache has one column per layer that fits the network and starts with the last sample's input |
| Networks.EpochCacheFrom | src/network.rs:85 | an epoch with samples overwrites the cache, so the cache it found does not matter |
| Networks.TrainedCache | src/network.rs:78-90 | the cache after e epochs; with no epoch or no samples it is the cache training started with |
| Networks.TrainedCacheLast | src/network.rs:78-90 | after at least one epoch the cache is the one the last epoch leaves, from the parameters and the data of that epoch |
| Networks.TrainedNext | src/network.rs:80-89 | epoch e trains from the parameters of the first e epochs on the data of epoch e; the next epoch's data is that data reshuffled |
| Networks.Network.constructor | src/network.rs:17-34 | one random weight matrix (s[l+1] × s[l]) and one bias column per layer, and an empty cache |
| Networks.Network.FeedForward | src/network.rs:36-54 | panics unless there are s[0] inputs; the cache becomes the full forward pass, and the result is the last column's data with s[L] entries |
| Networks.Network.BackPropagation | src/network.rs:56-76 | panics unless there are s[L] targets; the in-place loop leaves exactly the weights and biases of the backward specification, and the shapes are kept |
| Networks.Network.BackwardLayer | src/network.rs:67-74 | one pass of the layer loop updates the weights and biases in place and returns the errors and gradients exactly as BackwardStep describes |
| Networks.Network.Train | src/network.rs:78-90 | epochs + 1 epochs of per-sample training, reshuffling after each, give the parameters Trained describes, and leave the cache of the last sample of the last epoch, computed before that sample's update (the old cache when there are no samples) |
| Networks.Network.TrainEpoch | src/network.rs:84-88 | one epoch pass trains on every sample in order, leaves the cache EpochCache describes, and returns the reshuffled data |
| Networks.Network.RunEpoch | src/network.rs:84-87 | the sample loop gives the parameters of EpochPasses over the whole data set and leaves the forward pass of the last sample in the cache, or the old cache when there are no samples |
| Networks.Network.TrainSample | src/network.rs:85-86 | a forward pass and a back-propagation of sample k take the parameters after k samples to those after k + 1, and leave in the cache the forward pass of the sample under the parameters before the update |
| Innovation.InnovationRegistry.constructor | src/neat/innovation.rs:1-2 | both counters start at 0 and nothing has been issued |
| Innovation.InnovationRegistry.CurrentNode | src/neat/innovation.rs:4-8 | returns the node counter, which is the number of node ids issued and at least every one of them; changes nothing |
| Innovation.InnovationRegistry.CurrentConnection | src/neat/innovation.rs:10-14 | returns the connection counter, which is the number of connection ids issued and at least every one of them; changes nothing |
| Innovation.InnovationRegistry.NextNode | src/neat/innovation.rs:16-21 | requires the counter below 127; returns the old counter + 1, which is larger than every earlier node id and is the new counter; the issued ids stay 1, 2, 3, …; the connection counter does not move |
| Innovation.InnovationRegistry.NextConnection | src/neat/innovation.rs:23-28 | the same for connection ids; the node counter does not move |
| NodeGenes.NodeTypeOf | src/neat/node_gene.rs:11-20 | input exactly for index 0, output exactly for index 1, hidden for every other index |
| NodeGenes.EveryNodeTypeSampled | src/neat/node_gene.rs:12-19 | every node type comes from exactly one index in the sampled range [0, 3) |
| NodeGenes.New | src/neat/node_gene.rs:30-37 | stores exactly the given id and type, with an activation in [-1, 1) |
| NodeGenes.Random | src/neat/node_gene.rs:39-47 | stores the given id, an activation in [-1, 1) and the type the drawn index maps to |
| ConnectionGenes.New | src/neat/connection_gene.rs:14-25 | keeps both node genes and the id unchanged, with a weight in [-1, 1); puts no condition on the nodes |
| Genomes.WellFormedAsCountersGrow | src/neat/innovation.rs:16-28 | ids issued meanwhile, to any genome, keep a genome well formed |
| Genomes.AddNodeKeeps | src/neat/genome.rs:38-43 | a node under the next node id lands on a free key, grows the map by one and keeps the genome well formed |
| Genomes.AddConnectionKeeps | src/neat/genome.rs:97-104 | an admissible connection under the next connection id lands on a free key, keeps the genome well formed, and its pair is then connected |
| Genomes.Genome.Empty | src/neat/genome.rs:20-25 | the genome starts with two empty maps |
| Genomes.Genome.New | src/neat/genome.rs:19-36 | node_size nodes (none for a size ≤ 0) under the next node ids, the k-th built from the k-th draw; then connection_size connections unless a connection's candidates run out, the k-th under the k-th next connection id, joining the first candidate of the k-th draw admissible against the connections before it, with that draw's weight and flag (Genomes.ConnectionsFrom); the connection counter advances once per connection; the result is well formed |
| Genomes.Genome.AddNodeGenes | src/neat/genome.rs:27-29 | the node loop on a genome without nodes: the node counter advances by the number of draws, and the k-th new id holds the node built from the k-th draw (Genomes.NodesFrom); the connections are unchanged |
| Genomes.NodesFromNext | src/neat/genome.rs:38-43 | one more node under the next id, built from the next draw, extends that description by one draw |
| Genomes.Genome.AddConnectionGenes | src/neat/genome.rs:31-33 | the connection loop: the keys are exactly the next connection ids, one per draw used, and the k-th joins the first candidate of draw k admissible against the connections before it, with its weight and flag (Genomes.ConnectionsFrom); it stops at a draw whose candidates hold no admissible pair; the nodes are unchanged |
| Genomes.Genome.AddNextConnection | src/neat/genome.rs:31-33 | one pass of that loop: either the connections grow by the one ConnectionsFrom describes for the next draw, or nothing changes and no candidate of the draw is admissible |
| Genomes.FirstAdmissible | src/neat/genome.rs:53-95 | the index of the first admissible candidate pair (the one the sampling loop stops at), or the number of candidates when there is none; every earlier candidate is inadmissible |
| Genomes.FirstAdmissibleUnique | src/neat/genome.rs:53-95 | an admissible candidate with none admissible before it is the one FirstAdmissible picks |
| Genomes.ConnectionsFromNext | src/neat/genome.rs:97-104 | one more connection under the next id, joining the first admissible candidate of the next draw, extends ConnectionsFrom by that draw |
| Genomes.NewConnectionFrom | src/neat/genome.rs:97-104 | the connection under the next id is the one the next draw describes, judged against the connections before it |
| Genomes.KeptConnectionsFrom | src/neat/genome.rs:103-104 | inserting the next connection leaves the description of every earlier one intact |
| Genomes.KeptConnectionFrom | src/neat/genome.rs:103-104 | the same for one earlier connection |
| Genomes.ConnectionsFromJoin | src/neat/genome.rs:103-104 | the new connection and the earlier ones, each as described, make up ConnectionsFrom for one more draw |
| Genomes.CreateGenomes | src/neat/genome.rs:131-138 | the test's two genomes on one registry: nodes 1–5 and 6–8, each built from its draw; the first genome's connections under ids from 1 and the second's under the ids after them, each as its draws describe; the second well formed, and one connection id issued per connection held |
| Genomes.FirstGenome | src/neat/genome.rs:133-134 | the test's first call on a fresh registry takes node ids 1 to 5 and connection ids from 1, as its draws describe |
| Genomes.SecondGenome | src/neat/genome.rs:135-137 | the test's second call is allowed on the registry the first one leaves, takes node ids 6 to 8, and its connections follow the first genome's ids, as its draws describe |
| Genomes.Genome.AddNodeGene | src/neat/genome.rs:38-43 | inserts exactly one node, under the next node id, which was not yet a key; the connections are unchanged |
| Genomes.Genome.AddConnectionGene | src/neat/genome.rs:45-105 | a connection is added exactly when some candidate is admissible (both nodes present, the source not an output, the target not an input, the pair not yet connected). It is added for the first such candidate, under the next connection id, between copies of the two node entries. The nodes and the earlier connections are unchanged |
| Genomes.Genome.IsConnected | src/neat/genome.rs:81-90 | the scan reports exactly whether a connection already runs from the in-node to the out-node |

## Left out

- Random number generation is not modelled. Every draw (`gen_range`, `gen_bool`) is a caller-supplied value, or a sequence of values, whose precondition is the range the generator guarantees.
- Floating point is not modelled. `f64` and `f32` are exact reals, so rounding, NaN and infinities are outside the model. As a result `Matrices.SumCommutes` and `Matrices.DifferenceThenSum` hold here but not always in IEEE arithmetic.
- src/activation.rs is not part of this model. `Networks.Activation` is an arbitrary pair of functions, the activation and its derivative, so the sigmoid's numerics are not modelled.
- Networks.SampleStep: the model claims only that one training step keeps the shape discipline. It does not claim that the step reduces the error; that is numerical behaviour. Likewise, the XOR training test at src/network.rs:93-123 is not modelled.
- Networks.BackwardStep: the error is carried back through `transpose` as the code writes it, which is not the true transpose for non-square weights (src/network.rs:73). The model therefore does not claim the update is the true gradient. The network keeps the transpose as written, rather than the corrected one of "## Findings", so that it describes what the code computes.
- `Display` for matrices and every `println!` are output only.
- The `assert_ne!` checks of the shuffle test (src/training_data.rs:55-56) are not a guarantee of the code, because the identity permutation is a possible shuffle. The model proves the `contains` checks instead (`Training.ShuffledPermutes`).
- `usize` arithmetic is unbounded here, so an overflow of `rows * cols` is not modelled.
- The empty stubs `Genome::feed_forward`, `mutate`, `calculate_distance`, `fitness` and `crossover` have no behaviour to model.
- The thread-unsafety of the `static mut` counters is not modelled: one explicit registry stands for them, and every operation receives it.
- Innovation.InnovationRegistry.NextNode: an increment past 127 is a precondition. This matches the panic of a debug build; the wrap-around of a release build is not modelled. The same holds for NextConnection.
- Genomes.Genome.AddConnectionGene: the unbounded sampling loop is given a finite list of candidate pairs. When none of them is admissible the model returns `found = false`, where the source keeps sampling, possibly forever. The method also demands a connection id below 127 in that case, where the source never reaches `next_connection`.
- Genomes.Genome.New: returns `complete = false` when a connection's candidates run out, a point where the source would still be sampling.
- src/neat.rs and src/lib.rs only declare modules and are not part of this model.

## Findings

| source | as written | input that shows it | evidently intended | confidence | as-written member | corrected member |
|---|---|---|---|---|---|---|
| src/matrix.rs:158-170 | walking the input's rows r and columns c, `transpose` pushes `data[c * rows + r]`, so a matrix that is neither square nor a single row or column is not transposed, and (a · b)ᵀ = bᵀ · aᵀ fails | a = [[1,2,3],[4,5,6]], b = [[1,2],[3,4],[5,6]] (the product test's matrices): (a · b)ᵀ starts with 22, bᵀ · aᵀ with 29 | the true transpose, element (r, c) of the result being element (c, r) of the input, which reverses every product | high; not executed | Matrices.TransposeReversesProductFails | Matrices.TrueTransposeReversesProduct |
