/**
 * A NEAT genome (src/neat/genome.rs): node genes and connection genes, each
 * in a map keyed by innovation id.
 *
 * The registry that issues the ids is shared by every genome, so it is passed
 * to each operation. Every random draw is a parameter. The endless sampling
 * loop of `add_connection_gene` is given a finite list of candidate
 * (in, out) id pairs, tried in order. When none of them is admissible, the
 * model reports that no connection was found; the source would go on
 * sampling instead.
 */
module Genomes {
  import opened Innovation
  import opened NodeGenes
  import opened ConnectionGenes

  // ---------------------------------------------------------------------------
  // The genome invariant, on the two maps
  // ---------------------------------------------------------------------------

  /** Each node is stored under its own id, which the registry has issued. */
  predicate NodesKeyed(nodes: map<i8, NodeGene>, latestNode: i8)
  {
    forall id :: id in nodes ==> nodes[id].innovationId == id && 1 <= id <= latestNode && nodes[id].Valid()
  }

  /** Some connection already runs from inId to outId. */
  predicate Connected(conns: map<i8, ConnectionGene>, inId: i8, outId: i8)
  {
    exists id :: id in conns && conns[id].Endpoints() == (inId, outId)
  }

  /**
   * The rules a new connection from inId to outId must meet: both nodes
   * belong to the genome, the source is not an output, the target is not an
   * input, and the pair is not already connected.
   */
  predicate Admissible(nodes: map<i8, NodeGene>, conns: map<i8, ConnectionGene>, inId: i8, outId: i8)
  {
    && inId in nodes && outId in nodes
    && nodes[inId].nodeType != Output
    && nodes[outId].nodeType != Input
    && !Connected(conns, inId, outId)
  }

  /** c runs between copies of two of the genome's nodes, in roles they may take. */
  predicate Joins(nodes: map<i8, NodeGene>, c: ConnectionGene)
  {
    && c.Valid()
    && c.inNode.innovationId in nodes && nodes[c.inNode.innovationId] == c.inNode
    && c.outNode.innovationId in nodes && nodes[c.outNode.innovationId] == c.outNode
    && c.inNode.nodeType != Output
    && c.outNode.nodeType != Input
  }

  /**
   * Each connection is stored under its own issued id and joins the genome's
   * nodes, and no two connections share an (in, out) pair.
   */
  predicate ConnectionsKeyed(nodes: map<i8, NodeGene>, conns: map<i8, ConnectionGene>, latestConnection: i8)
  {
    && (forall id :: id in conns ==>
          conns[id].innovationId == id && 1 <= id <= latestConnection && Joins(nodes, conns[id]))
    && (forall i, j :: i in conns && j in conns && i != j ==> conns[i].Endpoints() != conns[j].Endpoints())
  }

  predicate WellFormed(nodes: map<i8, NodeGene>, conns: map<i8, ConnectionGene>, latestNode: i8, latestConnection: i8)
  {
    NodesKeyed(nodes, latestNode) && ConnectionsKeyed(nodes, conns, latestConnection)
  }

  /** Ids issued meanwhile (to another genome, say) keep a genome well formed. */
  lemma WellFormedAsCountersGrow(nodes: map<i8, NodeGene>, conns: map<i8, ConnectionGene>,
                                 latestNode: i8, latestConnection: i8, laterNode: i8, laterConnection: i8)
    requires WellFormed(nodes, conns, latestNode, latestConnection)
    requires latestNode <= laterNode && latestConnection <= laterConnection
    ensures WellFormed(nodes, conns, laterNode, laterConnection)
  {
  }

  /**
   * A node stored under the next node id lands on a free key, so the map
   * grows by one, and the genome stays well formed.
   */
  lemma AddNodeKeeps(nodes: map<i8, NodeGene>, conns: map<i8, ConnectionGene>,
                     latestNode: i8, latestConnection: i8, g: NodeGene)
    requires WellFormed(nodes, conns, latestNode, latestConnection)
    requires 0 <= latestNode && g.innovationId as int == latestNode as int + 1 && g.Valid()
    ensures g.innovationId !in nodes
    ensures |nodes[g.innovationId := g]| == |nodes| + 1
    ensures WellFormed(nodes[g.innovationId := g], conns, g.innovationId, latestConnection)
  {
    var grown := nodes[g.innovationId := g];
    forall id | id in conns
      ensures Joins(grown, conns[id])
    {
      assert Joins(nodes, conns[id]);
    }
  }

  /**
   * An admissible connection stored under the next connection id lands on a
   * free key and keeps the genome well formed; its pair is then connected.
   */
  lemma AddConnectionKeeps(nodes: map<i8, NodeGene>, conns: map<i8, ConnectionGene>,
                           latestNode: i8, latestConnection: i8,
                           inId: i8, outId: i8, id: i8, weightDraw: real, enabledDraw: bool)
    requires WellFormed(nodes, conns, latestNode, latestConnection)
    requires Admissible(nodes, conns, inId, outId)
    requires 0 <= latestConnection && id as int == latestConnection as int + 1
    requires -1.0 <= weightDraw < 1.0
    ensures id !in conns
    ensures var grown := conns[id := ConnectionGenes.New(nodes[inId], nodes[outId], id, weightDraw, enabledDraw)];
            && Connected(grown, inId, outId)
            && WellFormed(nodes, grown, latestNode, id)
  {
    var c := ConnectionGenes.New(nodes[inId], nodes[outId], id, weightDraw, enabledDraw);
    var grown := conns[id := c];
    assert grown[id].Endpoints() == (inId, outId);
    forall i, j | i in grown && j in grown && i != j
      ensures grown[i].Endpoints() != grown[j].Endpoints()
    {
      if i == id {
        assert j in conns;
      } else if j == id {
        assert i in conns;
      }
    }
  }

  // ---------------------------------------------------------------------------
  // Random draws
  // ---------------------------------------------------------------------------

  /** The draws one `add_node_gene` consumes: an activation and a node-type index. */
  datatype NodeDraw = NodeDraw(activation: real, typeDraw: int)

  predicate ValidNodeDraw(d: NodeDraw)
  {
    -1.0 <= d.activation < 1.0 && 0 <= d.typeDraw < 3
  }

  /**
   * The draws one `add_connection_gene` consumes: the (in, out) id pairs it
   * tries, in order, then the weight and the enabled flag of the new gene.
   */
  datatype ConnectionDraw = ConnectionDraw(candidates: seq<(i8, i8)>, weight: real, enabled: bool)

  /** Every candidate id lies in 1..=latestNode, the range `gen_range(1..=current_node())` samples. */
  predicate CandidatesWithin(candidates: seq<(i8, i8)>, latestNode: i8)
  {
    forall k :: 0 <= k < |candidates| ==>
      1 <= candidates[k].0 <= latestNode && 1 <= candidates[k].1 <= latestNode
  }

  /**
   * The nodes `Genome::new` adds after the node counter stood at `latest`:
   * one under each of the next |draws| ids, the k-th built from draws[k].
   */
  ghost predicate NodesFrom(nodes: map<i8, NodeGene>, latest: i8, draws: seq<NodeDraw>)
  {
    && (forall id :: id in nodes <==> latest < id && id as int <= latest as int + |draws|)
    && (forall id :: id in nodes ==>
          var k := id as int - latest as int - 1;
          && 0 <= k < |draws| && ValidNodeDraw(draws[k])
          && nodes[id] == NodeGenes.Random(id, draws[k].activation, draws[k].typeDraw))
  }

  /** One more node, under the next id and built from the next draw, extends NodesFrom by that draw. */
  lemma NodesFromNext(before: map<i8, NodeGene>, latest: i8, draws: seq<NodeDraw>, i: nat, after: map<i8, NodeGene>)
    requires i < |draws| && ValidNodeDraw(draws[i]) && latest as int + i + 1 <= 127
    requires NodesFrom(before, latest, draws[..i])
    requires var id := (latest as int + i + 1) as i8;
             after == before[id := NodeGenes.Random(id, draws[i].activation, draws[i].typeDraw)]
    ensures NodesFrom(after, latest, draws[..i + 1])
  {
    var id := (latest as int + i + 1) as i8;
    assert draws[..i + 1][i] == draws[i];
    forall other | other in after && other != id
      ensures var k := other as int - latest as int - 1; 0 <= k < i && draws[..i + 1][k] == draws[..i][k]
    {
    }
  }

  /**
   * The index of the first admissible pair among the candidates, which
   * `add_connection_gene` tries in order; |candidates| when there is none.
   */
  function FirstAdmissible(nodes: map<i8, NodeGene>, conns: map<i8, ConnectionGene>, candidates: seq<(i8, i8)>): (p: nat)
    ensures p <= |candidates|
    ensures p < |candidates| ==> Admissible(nodes, conns, candidates[p].0, candidates[p].1)
    ensures forall k :: 0 <= k < p ==> !Admissible(nodes, conns, candidates[k].0, candidates[k].1)
  {
    if |candidates| == 0 then 0
    else if Admissible(nodes, conns, candidates[0].0, candidates[0].1) then 0
    else 1 + FirstAdmissible(nodes, conns, candidates[1..])
  }

  /** An admissible candidate with no admissible one before it is the first admissible one. */
  lemma FirstAdmissibleUnique(nodes: map<i8, NodeGene>, conns: map<i8, ConnectionGene>, candidates: seq<(i8, i8)>, p: nat)
    requires p < |candidates| && Admissible(nodes, conns, candidates[p].0, candidates[p].1)
    requires forall k :: 0 <= k < p ==> !Admissible(nodes, conns, candidates[k].0, candidates[k].1)
    ensures FirstAdmissible(nodes, conns, candidates) == p
  {
  }

  /** The connections stored under ids below bound. */
  ghost function Below(conns: map<i8, ConnectionGene>, bound: int): map<i8, ConnectionGene>
  {
    map id | id in conns && id as int < bound :: conns[id]
  }

  /**
   * The connections `Genome::new` adds after the connection counter stood at
   * `latest`: one under each of the next |draws| ids, the k-th joining the
   * first candidate pair of draws[k] that is admissible against the
   * connections added before it, with the weight and flag of draws[k].
   */
  ghost predicate ConnectionsFrom(conns: map<i8, ConnectionGene>, nodes: map<i8, NodeGene>, latest: i8, draws: seq<ConnectionDraw>)
  {
    && (forall id :: id in conns <==> latest < id && id as int <= latest as int + |draws|)
    && (forall id :: id in conns ==> ConnectionFrom(conns, nodes, latest, draws, id))
  }

  /** The connection under id is the one ConnectionsFrom describes for it. */
  ghost predicate ConnectionFrom(conns: map<i8, ConnectionGene>, nodes: map<i8, NodeGene>, latest: i8,
                                 draws: seq<ConnectionDraw>, id: i8)
    requires id in conns
  {
    var k := id as int - latest as int - 1;
    && 0 <= k < |draws| && -1.0 <= draws[k].weight < 1.0
    && var candidates := draws[k].candidates;
       var p := FirstAdmissible(nodes, Below(conns, id as int), candidates);
       && p < |candidates|
       && conns[id] == ConnectionGenes.New(nodes[candidates[p].0], nodes[candidates[p].1],
                                           id, draws[k].weight, draws[k].enabled)
  }

  /**
   * One more connection, under the next id and joining the first admissible
   * candidate of the next draw, extends ConnectionsFrom by that draw.
   */
  lemma ConnectionsFromNext(before: map<i8, ConnectionGene>, nodes: map<i8, NodeGene>, latest: i8,
                            draws: seq<ConnectionDraw>, j: nat, after: map<i8, ConnectionGene>)
    requires j < |draws| && latest as int + j + 1 <= 127 && -1.0 <= draws[j].weight < 1.0
    requires ConnectionsFrom(before, nodes, latest, draws[..j])
    requires FirstAdmissible(nodes, before, draws[j].candidates) < |draws[j].candidates|
    requires var id := (latest as int + j + 1) as i8;
             var candidates := draws[j].candidates;
             var p := FirstAdmissible(nodes, before, candidates);
             after == before[id := ConnectionGenes.New(nodes[candidates[p].0], nodes[candidates[p].1],
                                                       id, draws[j].weight, draws[j].enabled)]
    ensures ConnectionsFrom(after, nodes, latest, draws[..j + 1])
  {
    var id := (latest as int + j + 1) as i8;
    NewConnectionFrom(before, nodes, latest, draws, j, after);
    KeptConnectionsFrom(before, nodes, latest, draws, j, id, after[id]);
    ConnectionsFromJoin(before, nodes, latest, draws[..j + 1], id, after[id]);
  }

  /** The next connection and the earlier ones, each as described, make up ConnectionsFrom. */
  lemma ConnectionsFromJoin(before: map<i8, ConnectionGene>, nodes: map<i8, NodeGene>, latest: i8,
                            draws: seq<ConnectionDraw>, id: i8, c: ConnectionGene)
    requires id as int == latest as int + |draws|
    requires forall other :: other in before <==> latest < other && other < id
    requires id in before[id := c] && ConnectionFrom(before[id := c], nodes, latest, draws, id)
    requires forall other :: other in before ==>
               other in before[id := c] && ConnectionFrom(before[id := c], nodes, latest, draws, other)
    ensures ConnectionsFrom(before[id := c], nodes, latest, draws)
  {
  }

  /** Every connection under a lower id keeps its description when the next one is added. */
  lemma KeptConnectionsFrom(before: map<i8, ConnectionGene>, nodes: map<i8, NodeGene>, latest: i8,
                            draws: seq<ConnectionDraw>, j: nat, id: i8, c: ConnectionGene)
    requires j < |draws|
    requires forall other :: other in before ==> other < id && ConnectionFrom(before, nodes, latest, draws[..j], other)
    ensures forall other :: other in before ==>
              other in before[id := c] && ConnectionFrom(before[id := c], nodes, latest, draws[..j + 1], other)
  {
    forall other | other in before
      ensures other in before[id := c] && ConnectionFrom(before[id := c], nodes, latest, draws[..j + 1], other)
    {
      KeptConnectionFrom(before, nodes, latest, draws, j, id, c, other);
    }
  }

  /** The connection under the next id is the one the next draw describes. */
  lemma NewConnectionFrom(before: map<i8, ConnectionGene>, nodes: map<i8, NodeGene>, latest: i8,
                          draws: seq<ConnectionDraw>, j: nat, after: map<i8, ConnectionGene>)
    requires j < |draws| && latest as int + j + 1 <= 127 && -1.0 <= draws[j].weight < 1.0
    requires forall other :: other in before ==> other as int <= latest as int + j
    requires FirstAdmissible(nodes, before, draws[j].candidates) < |draws[j].candidates|
    requires var id := (latest as int + j + 1) as i8;
             var candidates := draws[j].candidates;
             var p := FirstAdmissible(nodes, before, candidates);
             after == before[id := ConnectionGenes.New(nodes[candidates[p].0], nodes[candidates[p].1],
                                                       id, draws[j].weight, draws[j].enabled)]
    ensures (latest as int + j + 1) as i8 in after
    ensures ConnectionFrom(after, nodes, latest, draws[..j + 1], (latest as int + j + 1) as i8)
  {
    var id := (latest as int + j + 1) as i8;
    assert draws[..j + 1][j] == draws[j];
    BelowAll(before, id as int);
    BelowGrown(before, id, after[id], id as int);
  }

  /** A connection under a lower id keeps its description when the next one is added. */
  lemma KeptConnectionFrom(before: map<i8, ConnectionGene>, nodes: map<i8, NodeGene>, latest: i8,
                           draws: seq<ConnectionDraw>, j: nat, id: i8, c: ConnectionGene, other: i8)
    requires j < |draws| && other in before && other < id
    requires ConnectionFrom(before, nodes, latest, draws[..j], other)
    ensures other in before[id := c]
    ensures ConnectionFrom(before[id := c], nodes, latest, draws[..j + 1], other)
  {
    var k := other as int - latest as int - 1;
    assert draws[..j + 1][k] == draws[..j][k];
    BelowGrown(before, id, c, other as int);
  }

  /** Keys all under the bound: nothing is cut off. */
  lemma BelowAll(conns: map<i8, ConnectionGene>, bound: int)
    requires forall id :: id in conns ==> id as int < bound
    ensures Below(conns, bound) == conns
  {
  }

  /** A key at or above the bound does not show below it. */
  lemma BelowGrown(conns: map<i8, ConnectionGene>, id: i8, c: ConnectionGene, bound: int)
    requires bound <= id as int
    ensures Below(conns[id := c], bound) == Below(conns, bound)
  {
  }

  /** How many times `for _ in 0..n` runs for an `i8` bound n. */
  function Count(n: i8): nat
  {
    if n <= 0 then 0 else n as int
  }

  // ---------------------------------------------------------------------------
  // The genome
  // ---------------------------------------------------------------------------

  class Genome {
    var nodeGenes: map<i8, NodeGene>
    var connectionGenes: map<i8, ConnectionGene>

    ghost predicate Valid(reg: InnovationRegistry)
      reads this, reg
    {
      reg.Valid() && WellFormed(nodeGenes, connectionGenes, reg.latestNode, reg.latestConnection)
    }

    /** The empty genome `new` starts from. */
    constructor Empty()
      ensures nodeGenes == map[] && connectionGenes == map[]
    {
      nodeGenes, connectionGenes := map[], map[];
    }

    /**
     * `Genome::new`: adds node_size nodes, then connection_size connections.
     * `complete` is false when some connection's candidates held no
     * admissible pair; the source would still be sampling at that point.
     */
    static method New(nodeSize: i8, connectionSize: i8, reg: InnovationRegistry,
                      nodeDraws: seq<NodeDraw>, connectionDraws: seq<ConnectionDraw>)
      returns (genome: Genome, complete: bool)
      requires reg.Valid()
      requires reg.latestNode as int + Count(nodeSize) <= 127
      requires reg.latestConnection as int + Count(connectionSize) <= 127
      requires Count(connectionSize) > 0 ==> reg.latestNode as int + Count(nodeSize) >= 1
      requires |nodeDraws| == Count(nodeSize)
      requires forall k :: 0 <= k < |nodeDraws| ==> ValidNodeDraw(nodeDraws[k])
      requires |connectionDraws| == Count(connectionSize)
      requires forall k :: 0 <= k < |connectionDraws| ==>
                 && CandidatesWithin(connectionDraws[k].candidates, (reg.latestNode as int + Count(nodeSize)) as i8)
                 && -1.0 <= connectionDraws[k].weight < 1.0
      modifies reg
      ensures fresh(genome) && genome.Valid(reg)
      ensures reg.latestNode as int == old(reg.latestNode) as int + Count(nodeSize)
      ensures |genome.nodeGenes| == Count(nodeSize)
      ensures NodesFrom(genome.nodeGenes, old(reg.latestNode), nodeDraws)
      ensures reg.latestConnection as int == old(reg.latestConnection) as int + |genome.connectionGenes|
      ensures |genome.connectionGenes| <= Count(connectionSize)
      ensures ConnectionsFrom(genome.connectionGenes, genome.nodeGenes, old(reg.latestConnection),
                              connectionDraws[..|genome.connectionGenes|])
      ensures complete ==> |genome.connectionGenes| == Count(connectionSize)
      ensures !complete ==>
                && |genome.connectionGenes| < Count(connectionSize)
                && var failed := connectionDraws[|genome.connectionGenes|].candidates;
                   forall k :: 0 <= k < |failed| ==>
                     !Admissible(genome.nodeGenes, genome.connectionGenes, failed[k].0, failed[k].1)
    {
      genome := new Genome.Empty();
      genome.AddNodeGenes(reg, nodeDraws);
      complete := genome.AddConnectionGenes(reg, connectionDraws);
    }

    /** The node loop of `Genome::new`: one `add_node_gene` per draw, on a genome without nodes. */
    method AddNodeGenes(reg: InnovationRegistry, draws: seq<NodeDraw>)
      requires Valid(reg) && nodeGenes == map[]
      requires reg.latestNode as int + |draws| <= 127
      requires forall k :: 0 <= k < |draws| ==> ValidNodeDraw(draws[k])
      modifies this, reg
      ensures Valid(reg)
      ensures reg.latestNode as int == old(reg.latestNode) as int + |draws|
      ensures reg.latestConnection == old(reg.latestConnection) && connectionGenes == old(connectionGenes)
      ensures |nodeGenes| == |draws| && NodesFrom(nodeGenes, old(reg.latestNode), draws)
    {
      for i := 0 to |draws|
        invariant Valid(reg)
        invariant reg.latestNode as int == old(reg.latestNode) as int + i
        invariant reg.latestConnection == old(reg.latestConnection) && connectionGenes == old(connectionGenes)
        invariant |nodeGenes| == i && NodesFrom(nodeGenes, old(reg.latestNode), draws[..i])
      {
        ghost var before := nodeGenes;
        AddNodeGene(reg, draws[i].activation, draws[i].typeDraw);
        NodesFromNext(before, old(reg.latestNode), draws, i, nodeGenes);
      }
      assert draws[..|draws|] == draws;
    }

    /**
     * The connection loop of `Genome::new`: one `add_connection_gene` per
     * draw, on a genome without connections, stopping with `complete` false
     * at the first draw whose candidates hold no admissible pair.
     */
    method AddConnectionGenes(reg: InnovationRegistry, draws: seq<ConnectionDraw>) returns (complete: bool)
      requires Valid(reg) && connectionGenes == map[]
      requires reg.latestConnection as int + |draws| <= 127
      requires |draws| > 0 ==> reg.latestNode >= 1
      requires forall k :: 0 <= k < |draws| ==>
                 CandidatesWithin(draws[k].candidates, reg.latestNode) && -1.0 <= draws[k].weight < 1.0
      modifies this, reg
      ensures Valid(reg)
      ensures nodeGenes == old(nodeGenes) && reg.latestNode == old(reg.latestNode)
      ensures reg.latestConnection as int == old(reg.latestConnection) as int + |connectionGenes|
      ensures complete ==> |connectionGenes| == |draws|
      ensures |connectionGenes| <= |draws|
      ensures ConnectionsFrom(connectionGenes, nodeGenes, old(reg.latestConnection), draws[..|connectionGenes|])
      ensures !complete ==>
                && |connectionGenes| < |draws|
                && var failed := draws[|connectionGenes|].candidates;
                   forall k :: 0 <= k < |failed| ==>
                     !Admissible(nodeGenes, connectionGenes, failed[k].0, failed[k].1)
    {
      complete := true;
      var j := 0;
      while j < |draws|
        invariant j <= |draws|
        invariant Valid(reg)
        invariant nodeGenes == old(nodeGenes) && reg.latestNode == old(reg.latestNode)
        invariant reg.latestConnection as int == old(reg.latestConnection) as int + j
        invariant |connectionGenes| == j
        invariant ConnectionsFrom(connectionGenes, nodeGenes, old(reg.latestConnection), draws[..j])
      {
        var found := AddNextConnection(reg, draws, j, old(reg.latestConnection));
        if !found {
          complete := false;
          break;
        }
        j := j + 1;
      }
    }

    /**
     * One pass of the connection loop: `add_connection_gene` with the j-th
     * draw, on a genome holding the connections of the draws before it.
     */
    method AddNextConnection(reg: InnovationRegistry, draws: seq<ConnectionDraw>, j: nat, ghost start: i8)
      returns (found: bool)
      requires j < |draws| && start as int + |draws| <= 127
      requires Valid(reg) && reg.latestNode >= 1 && reg.latestConnection as int == start as int + j
      requires CandidatesWithin(draws[j].candidates, reg.latestNode) && -1.0 <= draws[j].weight < 1.0
      requires |connectionGenes| == j && ConnectionsFrom(connectionGenes, nodeGenes, start, draws[..j])
      modifies this, reg
      ensures Valid(reg)
      ensures nodeGenes == old(nodeGenes) && reg.latestNode == old(reg.latestNode)
      ensures found ==>
                && reg.latestConnection as int == start as int + j + 1
                && |connectionGenes| == j + 1
                && ConnectionsFrom(connectionGenes, nodeGenes, start, draws[..j + 1])
      ensures !found ==>
                && connectionGenes == old(connectionGenes) && reg.latestConnection == old(reg.latestConnection)
                && forall k :: 0 <= k < |draws[j].candidates| ==>
                     !Admissible(nodeGenes, connectionGenes, draws[j].candidates[k].0, draws[j].candidates[k].1)
    {
      var draw := draws[j];
      ghost var before := connectionGenes;
      var attempt;
      found, attempt := AddConnectionGene(reg, draw.candidates, draw.weight, draw.enabled);
      if found {
        FirstAdmissibleUnique(nodeGenes, before, draw.candidates, attempt);
        ConnectionsFromNext(before, nodeGenes, start, draws, j, connectionGenes);
      }
    }

    /** `add_node_gene`: stores a random node under the next node id, a key not yet in use. */
    method AddNodeGene(reg: InnovationRegistry, activationDraw: real, typeDraw: int)
      requires Valid(reg) && reg.latestNode < 127
      requires -1.0 <= activationDraw < 1.0 && 0 <= typeDraw < 3
      modifies this, reg
      ensures Valid(reg)
      ensures reg.latestNode as int == old(reg.latestNode) as int + 1
      ensures reg.latestConnection == old(reg.latestConnection)
      ensures reg.latestNode !in old(nodeGenes)
      ensures nodeGenes == old(nodeGenes)[reg.latestNode := NodeGenes.Random(reg.latestNode, activationDraw, typeDraw)]
      ensures |nodeGenes| == |old(nodeGenes)| + 1
      ensures connectionGenes == old(connectionGenes)
    {
      var id := reg.NextNode();
      var node := NodeGenes.Random(id, activationDraw, typeDraw);
      AddNodeKeeps(nodeGenes, connectionGenes, old(reg.latestNode), reg.latestConnection, node);
      nodeGenes := nodeGenes[node.innovationId := node];
    }

    /**
     * `add_connection_gene`: tries the candidate pairs in order and adds a
     * connection for the first admissible one, under the next connection id,
     * between copies of the two node entries.
     */
    method AddConnectionGene(reg: InnovationRegistry, candidates: seq<(i8, i8)>, weightDraw: real, enabledDraw: bool)
      returns (found: bool, attempt: nat)
      requires Valid(reg) && reg.latestNode >= 1 && reg.latestConnection < 127
      requires CandidatesWithin(candidates, reg.latestNode)
      requires -1.0 <= weightDraw < 1.0
      modifies this, reg
      ensures Valid(reg)
      ensures nodeGenes == old(nodeGenes) && reg.latestNode == old(reg.latestNode)
      ensures found <==> exists k :: 0 <= k < |candidates| &&
                           Admissible(nodeGenes, old(connectionGenes), candidates[k].0, candidates[k].1)
      ensures found ==>
                && attempt < |candidates|
                && Admissible(nodeGenes, old(connectionGenes), candidates[attempt].0, candidates[attempt].1)
                && (forall k :: 0 <= k < attempt ==>
                      !Admissible(nodeGenes, old(connectionGenes), candidates[k].0, candidates[k].1))
                && reg.latestConnection as int == old(reg.latestConnection) as int + 1
                && reg.latestConnection !in old(connectionGenes)
                && connectionGenes == old(connectionGenes)[reg.latestConnection :=
                     ConnectionGenes.New(nodeGenes[candidates[attempt].0], nodeGenes[candidates[attempt].1],
                                         reg.latestConnection, weightDraw, enabledDraw)]
      ensures !found ==> connectionGenes == old(connectionGenes) && unchanged(reg)
    {
      found, attempt := false, 0;
      var inId: i8, outId: i8 := 0, 0;
      while attempt < |candidates|
        invariant attempt <= |candidates|
        invariant unchanged(this) && unchanged(reg)
        invariant forall k :: 0 <= k < attempt ==>
                    !Admissible(nodeGenes, connectionGenes, candidates[k].0, candidates[k].1)
      {
        inId, outId := candidates[attempt].0, candidates[attempt].1;
        if inId !in nodeGenes || outId !in nodeGenes {
          attempt := attempt + 1;
          continue;
        }
        if nodeGenes[inId].nodeType == Output || nodeGenes[outId].nodeType == Input {
          attempt := attempt + 1;
          continue;
        }
        var taken := IsConnected(inId, outId);
        if !taken {
          found := true;
          break;
        }
        attempt := attempt + 1;
      }
      if found {
        var id := reg.NextConnection();
        var connection := ConnectionGenes.New(nodeGenes[inId], nodeGenes[outId], id, weightDraw, enabledDraw);
        AddConnectionKeeps(nodeGenes, connectionGenes, reg.latestNode, old(reg.latestConnection),
                           inId, outId, id, weightDraw, enabledDraw);
        connectionGenes := connectionGenes[connection.innovationId := connection];
      }
    }

    /** The scan over the existing connections: whether one already runs from inId to outId. */
    method IsConnected(inId: i8, outId: i8) returns (taken: bool)
      ensures taken == Connected(connectionGenes, inId, outId)
    {
      taken := false;
      var unseen := connectionGenes.Keys;
      while unseen != {}
        invariant unseen <= connectionGenes.Keys
        invariant forall id :: id in connectionGenes && id !in unseen ==>
                    connectionGenes[id].Endpoints() != (inId, outId)
        decreases |unseen|
      {
        var id :| id in unseen;
        var conn := connectionGenes[id];
        if inId == conn.inNode.innovationId && outId == conn.outNode.innovationId {
          taken := true;
          break;
        }
        unseen := unseen - {id};
      }
    }
  }

  /**
   * The source's test `create_genome`: on one registry, starting from
   * nothing issued, `Genome::new(5, 4)` and then `Genome::new(3, 3)`. The
   * first genome holds nodes 1 to 5 and the second nodes 6 to 8, each built
   * from its own draw; the connection counter has advanced once for every
   * connection either genome holds.
   */
  method CreateGenomes(firstNodes: seq<NodeDraw>, firstConnections: seq<ConnectionDraw>,
                       secondNodes: seq<NodeDraw>, secondConnections: seq<ConnectionDraw>)
    returns (first: Genome, second: Genome, reg: InnovationRegistry)
    requires |firstNodes| == 5 && |secondNodes| == 3
    requires forall k :: 0 <= k < |firstNodes| ==> ValidNodeDraw(firstNodes[k])
    requires forall k :: 0 <= k < |secondNodes| ==> ValidNodeDraw(secondNodes[k])
    requires |firstConnections| == 4 && |secondConnections| == 3
    requires forall k :: 0 <= k < |firstConnections| ==>
               CandidatesWithin(firstConnections[k].candidates, 5) && -1.0 <= firstConnections[k].weight < 1.0
    requires forall k :: 0 <= k < |secondConnections| ==>
               CandidatesWithin(secondConnections[k].candidates, 8) && -1.0 <= secondConnections[k].weight < 1.0
    ensures second.Valid(reg) && reg.latestNode == 8
    ensures NodesFrom(first.nodeGenes, 0, firstNodes) && NodesFrom(second.nodeGenes, 5, secondNodes)
    ensures reg.latestConnection as int == |first.connectionGenes| + |second.connectionGenes|
    ensures |first.connectionGenes| <= 4 && |second.connectionGenes| <= 3
    ensures ConnectionsFrom(first.connectionGenes, first.nodeGenes, 0, firstConnections[..|first.connectionGenes|])
    ensures ConnectionsFrom(second.connectionGenes, second.nodeGenes, |first.connectionGenes| as i8,
                            secondConnections[..|second.connectionGenes|])
  {
    reg := new InnovationRegistry();
    first := FirstGenome(reg, firstNodes, firstConnections);
    second := SecondGenome(reg, secondNodes, secondConnections);
  }

  /** The first call of `create_genome`, on a registry that has issued nothing. */
  method FirstGenome(reg: InnovationRegistry, nodeDraws: seq<NodeDraw>, connectionDraws: seq<ConnectionDraw>)
    returns (genome: Genome)
    requires reg.Valid() && reg.latestNode == 0 && reg.latestConnection == 0
    requires |nodeDraws| == 5 && forall k :: 0 <= k < |nodeDraws| ==> ValidNodeDraw(nodeDraws[k])
    requires |connectionDraws| == 4
    requires forall k :: 0 <= k < |connectionDraws| ==>
               CandidatesWithin(connectionDraws[k].candidates, 5) && -1.0 <= connectionDraws[k].weight < 1.0
    modifies reg
    ensures fresh(genome) && reg.Valid() && reg.latestNode == 5 && NodesFrom(genome.nodeGenes, 0, nodeDraws)
    ensures reg.latestConnection as int == |genome.connectionGenes| <= 4
    ensures ConnectionsFrom(genome.connectionGenes, genome.nodeGenes, 0, connectionDraws[..|genome.connectionGenes|])
  {
    var complete: bool;
    genome, complete := Genome.New(5, 4, reg, nodeDraws, connectionDraws);
  }

  /** The second call of `create_genome`, on a registry that has issued 5 node ids and at most 4 connection ids. */
  method SecondGenome(reg: InnovationRegistry, nodeDraws: seq<NodeDraw>, connectionDraws: seq<ConnectionDraw>)
    returns (genome: Genome)
    requires reg.Valid() && reg.latestNode == 5 && 0 <= reg.latestConnection <= 4
    requires |nodeDraws| == 3 && forall k :: 0 <= k < |nodeDraws| ==> ValidNodeDraw(nodeDraws[k])
    requires |connectionDraws| == 3
    requires forall k :: 0 <= k < |connectionDraws| ==>
               CandidatesWithin(connectionDraws[k].candidates, 8) && -1.0 <= connectionDraws[k].weight < 1.0
    modifies reg
    ensures genome.Valid(reg) && reg.latestNode == 8 && NodesFrom(genome.nodeGenes, 5, nodeDraws)
    ensures reg.latestConnection as int == old(reg.latestConnection) as int + |genome.connectionGenes|
    ensures |genome.connectionGenes| <= 3
    ensures ConnectionsFrom(genome.connectionGenes, genome.nodeGenes, old(reg.latestConnection),
                            connectionDraws[..|genome.connectionGenes|])
  {
    var complete: bool;
    genome, complete := Genome.New(3, 3, reg, nodeDraws, connectionDraws);
  }
}
