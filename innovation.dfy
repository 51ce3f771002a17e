/**
 * The innovation registry (src/neat/innovation.rs).
 *
 * The source keeps two global `i8` counters, `LATEST_NODE` and
 * `LATEST_CONNECTION`, both starting at 0. `next_*` increments a counter and
 * returns its new value, so the ids handed out are 1, 2, 3, … in order.
 * Here the two globals are the fields of one explicit registry object, and
 * the ids handed out so far are recorded in two ghost fields.
 */
module Innovation {

  /** Rust's `i8`. An increment past 127 overflows, which panics in a debug build. */
  newtype i8 = x: int | -128 <= x < 128

  /** ids are exactly 1, 2, …, latest, in the order they were issued. */
  ghost predicate CountsFromOne(ids: seq<i8>, latest: i8)
  {
    && |ids| == latest as int
    && forall k :: 0 <= k < |ids| ==> ids[k] as int == k + 1
  }

  class InnovationRegistry {
    var latestNode: i8
    var latestConnection: i8
    /** The node ids `next_node` has returned so far, oldest first. */
    ghost var issuedNodes: seq<i8>
    /** The connection ids `next_connection` has returned so far, oldest first. */
    ghost var issuedConnections: seq<i8>

    ghost predicate Valid()
      reads this
    {
      CountsFromOne(issuedNodes, latestNode) && CountsFromOne(issuedConnections, latestConnection)
    }

    /** Both counters start at 0 and nothing has been issued. */
    constructor ()
      ensures Valid()
      ensures latestNode == 0 && latestConnection == 0
      ensures issuedNodes == [] && issuedConnections == []
    {
      latestNode, latestConnection := 0, 0;
      issuedNodes, issuedConnections := [], [];
    }

    /** `current_node`: the last node id issued, which is also how many have been issued. */
    method CurrentNode() returns (id: i8)
      requires Valid()
      ensures id == latestNode
      ensures id as int == |issuedNodes|
      ensures forall k :: 0 <= k < |issuedNodes| ==> issuedNodes[k] <= id
    {
      id := latestNode;
    }

    /** `current_connection`: the last connection id issued, which is also how many have been issued. */
    method CurrentConnection() returns (id: i8)
      requires Valid()
      ensures id == latestConnection
      ensures id as int == |issuedConnections|
      ensures forall k :: 0 <= k < |issuedConnections| ==> issuedConnections[k] <= id
    {
      id := latestConnection;
    }

    /**
     * `next_node`: a node id larger than every one issued before; the
     * connection counter does not move.
     */
    method NextNode() returns (id: i8)
      requires Valid() && latestNode < 127
      modifies this
      ensures Valid()
      ensures id as int == old(latestNode) as int + 1 && latestNode == id
      ensures issuedNodes == old(issuedNodes) + [id]
      ensures forall k :: 0 <= k < |old(issuedNodes)| ==> old(issuedNodes)[k] < id
      ensures latestConnection == old(latestConnection) && issuedConnections == old(issuedConnections)
    {
      latestNode := latestNode + 1;
      issuedNodes := issuedNodes + [latestNode];
      id := latestNode;
    }

    /**
     * `next_connection`: a connection id larger than every one issued before;
     * the node counter does not move.
     */
    method NextConnection() returns (id: i8)
      requires Valid() && latestConnection < 127
      modifies this
      ensures Valid()
      ensures id as int == old(latestConnection) as int + 1 && latestConnection == id
      ensures issuedConnections == old(issuedConnections) + [id]
      ensures forall k :: 0 <= k < |old(issuedConnections)| ==> old(issuedConnections)[k] < id
      ensures latestNode == old(latestNode) && issuedNodes == old(issuedNodes)
    {
      latestConnection := latestConnection + 1;
      issuedConnections := issuedConnections + [latestConnection];
      id := latestConnection;
    }
  }
}
