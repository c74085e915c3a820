/** The dispatcher's picture of the cluster: decoded peer state with an optional
    authoritative entry for the local node. */
module ClusterState {
  import opened Text
  import opened Gossip
  import opened Ranking

  datatype NodeState = NodeState(id: NodeId, accepts: bool, workers: seq<WorkerView>)

  datatype Cluster = Cluster(members: seq<NodeId>, states: map<NodeId, NodeState>)

  datatype View = View(cluster: Cluster, local: Option<NodeState>)

  /** `DispatchView::new`: a local entry counts only for a member. */
  function NewView(cluster: Cluster, local: Option<NodeState>): View {
    View(cluster, if local.Some? && local.value.id in cluster.members then local else None)
  }

  /** The states in effect: the local entry replaces the gossiped one. */
  function States(view: View): map<NodeId, NodeState> {
    if view.local.Some? then view.cluster.states[view.local.value.id := view.local.value] else view.cluster.states
  }

  function StateOf(view: View, id: NodeId): Option<NodeState> {
    if view.local.Some? && view.local.value.id == id then view.local
    else if id in view.cluster.states then Some(view.cluster.states[id])
    else None
  }

  lemma StateOfIsEffective(view: View, id: NodeId)
    ensures StateOf(view, id).Some? <==> id in States(view)
    ensures id in States(view) ==> StateOf(view, id) == Some(States(view)[id])
  {
  }

  /** Gossip decodes each state under its own node id. */
  predicate Keyed(states: map<NodeId, NodeState>) {
    forall id | id in states :: states[id].id == id
  }

  /** One iteration order over the states; a hash map may yield any. */
  predicate Enumerates(order: seq<NodeId>, states: map<NodeId, NodeState>) {
    && (forall i | 0 <= i < |order| :: order[i] in states)
    && (forall id | id in states :: id in order)
    && (forall i, j | 0 <= i < j < |order| :: order[i] != order[j])
  }

  predicate HasRoom(node: NodeState, capacity: nat) {
    node.accepts && exists i :: 0 <= i < |node.workers| && node.workers[i].depth < capacity
  }
}
