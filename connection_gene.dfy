/**
 * Connection genes of a NEAT genome (src/neat/connection_gene.rs).
 *
 * `weightDraw` is what `gen_range(-1.0..1.0)` returned and `enabledDraw`
 * what `gen_bool(0.5)` returned.
 */
module ConnectionGenes {
  import opened Innovation
  import opened NodeGenes

  /** A connection gene carries copies of both endpoint node genes. */
  datatype ConnectionGene = ConnectionGene(inNode: NodeGene, outNode: NodeGene, weight: real, enabled: bool, innovationId: i8)
  {
    /** The weight lies in the half-open range [-1, 1). */
    predicate Valid()
    {
      -1.0 <= weight < 1.0
    }

    /** The (in, out) node ids the connection joins. */
    function Endpoints(): (i8, i8)
    {
      (inNode.innovationId, outNode.innovationId)
    }
  }

  /**
   * `ConnectionGene::new`: keeps both node genes and the id as given. It
   * checks nothing about the nodes: any pair, in either role, is accepted.
   */
  function New(inNode: NodeGene, outNode: NodeGene, innovationId: i8, weightDraw: real, enabledDraw: bool): (c: ConnectionGene)
    requires -1.0 <= weightDraw < 1.0
    ensures c.Valid()
    ensures c.inNode == inNode && c.outNode == outNode && c.innovationId == innovationId
    ensures c.Endpoints() == (inNode.innovationId, outNode.innovationId)
    ensures c.weight == weightDraw && c.enabled == enabledDraw
  {
    ConnectionGene(inNode, outNode, weightDraw, enabledDraw, innovationId)
  }
}
