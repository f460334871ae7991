/**
 * `ClusterManager::distribute_vm`: among the nodes whose available resources cover the
 * request, pick the one with the least current load (the first such node in iteration order
 * when several tie, as `min_by_key` does), create the VM there, and only then update that
 * node's state.
 *
 * The node table is a sequence in the map's iteration order. Creating the VM and updating
 * the node are not part of this model; they are passed in as functions.
 */
module Cluster {
  import opened Wrappers

  datatype NodeState = NodeState(id: string, availableResources: nat, currentLoad: nat)

  const NO_SUITABLE_NODE: string := "No suitable node found"

  /** The filter `available_resources >= requirements`. */
  predicate Eligible(n: NodeState, requirements: nat) {
    n.availableResources >= requirements
  }

  /**
   * The index `min_by_key(current_load)` picks among the eligible nodes: an eligible node
   * whose load is no greater than any eligible node's, and strictly smaller than that of
   * every eligible node before it. None exactly when no node is eligible.
   */
  function SelectNode(nodes: seq<NodeState>, requirements: nat): (r: Option<nat>)
    ensures r.None? <==> forall j :: 0 <= j < |nodes| ==> !Eligible(nodes[j], requirements)
    ensures r.Some? ==>
      && r.value < |nodes|
      && Eligible(nodes[r.value], requirements)
      && (forall j :: 0 <= j < |nodes| && Eligible(nodes[j], requirements) ==>
            nodes[r.value].currentLoad <= nodes[j].currentLoad)
      && (forall j :: 0 <= j < r.value && Eligible(nodes[j], requirements) ==>
            nodes[r.value].currentLoad < nodes[j].currentLoad)
  {
    if |nodes| == 0 then None
    else
      var rest := SelectNode(nodes[1..], requirements);
      if Eligible(nodes[0], requirements)
         && (rest.None? || nodes[0].currentLoad <= nodes[1..][rest.value].currentLoad)
      then Some(0)
      else if rest.Some? then Some(rest.value + 1)
      else None
  }

  /**
   * `distribute_vm` on the node table: the result and the table afterwards. `create` is the
   * outcome of `create_vm_on_node` for a node id; `update` is the state `update_node_state`
   * gives the chosen node.
   */
  function DistributeIn(nodes: seq<NodeState>, requirements: nat,
                        create: string -> Result<string, string>, update: NodeState -> NodeState)
    : (Result<string, string>, seq<NodeState>)
  {
    match SelectNode(nodes, requirements)
    case None => (Err(NO_SUITABLE_NODE), nodes)
    case Some(k) =>
      match create(nodes[k].id)
      case Err(e) => (Err(e), nodes)
      case Ok(vmId) => (Ok(vmId), nodes[k := update(nodes[k])])
  }

  /**
   * When no node is eligible, `distribute_vm` fails with "No suitable node found" and changes
   * nothing. Otherwise the VM goes to an eligible node of least load: the result is whatever
   * creation there produced; if creation fails nothing is updated, and if it succeeds only
   * the chosen node is updated.
   */
  lemma DistributeCharacterised(nodes: seq<NodeState>, requirements: nat,
                                create: string -> Result<string, string>, update: NodeState -> NodeState)
    ensures var (r, after) := DistributeIn(nodes, requirements, create, update);
      && ((forall j :: 0 <= j < |nodes| ==> !Eligible(nodes[j], requirements)) ==>
            r == Err(NO_SUITABLE_NODE) && after == nodes)
      && (r.Err? ==> after == nodes)
    ensures var (r, after) := DistributeIn(nodes, requirements, create, update);
      var target := SelectNode(nodes, requirements);
      target.Some? ==>
        var k := target.value;
        && k < |nodes| && Eligible(nodes[k], requirements)
        && (forall i :: 0 <= i < |nodes| && Eligible(nodes[i], requirements) ==>
              nodes[k].currentLoad <= nodes[i].currentLoad)
        && r == create(nodes[k].id)
        && (r.Ok? ==>
              && |after| == |nodes| && after[k] == update(nodes[k])
              && forall j :: 0 <= j < |nodes| && j != k ==> after[j] == nodes[j])
  {
  }

  class ClusterManager {
    var nodes: seq<NodeState>

    constructor (initial: seq<NodeState>)
      ensures nodes == initial
    {
      nodes := initial;
    }

    /** `distribute_vm`. */
    method DistributeVm(requirements: nat, create: string -> Result<string, string>,
                        update: NodeState -> NodeState) returns (r: Result<string, string>)
      modifies this
      ensures (r, nodes) == DistributeIn(old(nodes), requirements, create, update)
    {
      var target := SelectNode(nodes, requirements);
      if target.None? {
        return Err(NO_SUITABLE_NODE);
      }
      var k := target.value;
      var created := create(nodes[k].id);
      if created.Err? {
        return Err(created.error);
      }
      nodes := nodes[k := update(nodes[k])];
      r := Ok(created.value);
    }
  }
}
