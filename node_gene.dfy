/**
 * Node genes of a NEAT genome (src/neat/node_gene.rs).
 *
 * The random activation and the random node-type index are parameters:
 * `activationDraw` is what `gen_range(-1.0..1.0)` returned and `typeDraw`
 * what `gen_range(0..3)` returned.
 */
module NodeGenes {
  import opened Innovation

  datatype NodeType = Input | Output | Hidden

  /**
   * The `Distribution<NodeType>` sampler's mapping from the drawn index to a
   * node type: 0 is an input, 1 an output, and 2 or any other value hidden.
   */
  function NodeTypeOf(index: int): (t: NodeType)
    ensures t == Input <==> index == 0
    ensures t == Output <==> index == 1
    ensures t == Hidden <==> index != 0 && index != 1
  {
    match index
    case 0 => Input
    case 1 => Output
    case 2 => Hidden
    case _ => Hidden
  }

  /** Every node type is the image of exactly one index in the sampled range [0, 3). */
  lemma EveryNodeTypeSampled(t: NodeType)
    ensures exists k :: 0 <= k < 3 && NodeTypeOf(k) == t
    ensures forall j, k :: 0 <= j < 3 && 0 <= k < 3 && NodeTypeOf(j) == t && NodeTypeOf(k) == t ==> j == k
  {
    var k := match t
      case Input => 0
      case Output => 1
      case Hidden => 2;
    assert NodeTypeOf(k) == t;
  }

  /** A node gene; equality is structural over all three fields. */
  datatype NodeGene = NodeGene(activation: real, innovationId: i8, nodeType: NodeType)
  {
    /** The activation lies in the half-open range [-1, 1) that `gen_range(-1.0..1.0)` samples. */
    predicate Valid()
    {
      -1.0 <= activation < 1.0
    }
  }

  /** `NodeGene::new`: the given id and type with a random activation. */
  function New(innovationId: i8, nodeType: NodeType, activationDraw: real): (g: NodeGene)
    requires -1.0 <= activationDraw < 1.0
    ensures g.Valid()
    ensures g.innovationId == innovationId && g.nodeType == nodeType
    ensures g.activation == activationDraw
  {
    NodeGene(activationDraw, innovationId, nodeType)
  }

  /** `NodeGene::random`: the given id with a random activation and a random type. */
  function Random(innovationId: i8, activationDraw: real, typeDraw: int): (g: NodeGene)
    requires -1.0 <= activationDraw < 1.0
    requires 0 <= typeDraw < 3
    ensures g.Valid()
    ensures g.innovationId == innovationId && g.activation == activationDraw
    ensures g.nodeType == NodeTypeOf(typeDraw)
  {
    NodeGene(activationDraw, innovationId, NodeTypeOf(typeDraw))
  }
}
