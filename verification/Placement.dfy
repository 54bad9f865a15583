/** Node selection: `pick_node` (src/provision.rs) and `pick_node_with_reset`
    (src/controller.rs). */
module Placement {
  import opened Base

  type Node = string

  datatype NodeInfo = NodeInfo(name: Node, ready: bool)

  datatype Phase = Pending | Running | Failed | Unknown | Succeeded

  /** A share-manager pod: `target` is its node selector, `bound` says that
      `spec.nodeName` is set, `ours` marks a pod created by the controller, not
      by the CSI driver. */
  datatype Pod = Pod(target: Node, bound: bool, phase: Phase, deleting: bool, ours: bool)

  function HostOf(p: Pod): Option<Node> {
    if p.bound then Some(p.target) else None
  }

  /** A pod listing as the picker sees it: the `spec.nodeName` of every
      share-manager pod, absent while the pod has not been bound. */
  type PodListing = seq<Option<Node>>

  predicate NodeReady(nodes: seq<NodeInfo>, n: Node) {
    NodeInfo(n, true) in nodes
  }

  predicate Eligible(pods: PodListing, nodes: seq<NodeInfo>, n: Node) {
    NodeReady(nodes, n) && Some(n) !in pods
  }

  /** The first ready node of the listing that is neither avoided nor occupied. */
  function PickNode(pods: PodListing, nodes: seq<NodeInfo>, avoid: seq<Node>): (r: Option<Node>)
    ensures r.Some? ==> Eligible(pods, nodes, r.value) && r.value !in avoid
    ensures r.None? ==> forall n | Eligible(pods, nodes, n) :: n in avoid
  {
    if nodes == [] then None
    else if nodes[0].ready && nodes[0].name !in avoid && Some(nodes[0].name) !in pods then
      assert nodes[0] == NodeInfo(nodes[0].name, true);
      Some(nodes[0].name)
    else
      assert forall n | NodeInfo(n, true) in nodes :: nodes[0] == NodeInfo(n, true) || NodeInfo(n, true) in nodes[1..];
      PickNode(pods, nodes[1..], avoid)
  }

  predicate Takeable(pods: PodListing, nodes: seq<NodeInfo>, avoid: seq<Node>, i: nat) {
    i < |nodes| && nodes[i].ready && nodes[i].name !in avoid && Some(nodes[i].name) !in pods
  }

  /** The node picked is the first of the listing that can be taken. */
  lemma {:induction false} PickNodeTakesFirst(pods: PodListing, nodes: seq<NodeInfo>, avoid: seq<Node>) returns (i: nat)
    requires PickNode(pods, nodes, avoid).Some?
    ensures Takeable(pods, nodes, avoid, i) && PickNode(pods, nodes, avoid) == Some(nodes[i].name)
    ensures forall j: nat | j < i :: !Takeable(pods, nodes, avoid, j)
  {
    if Takeable(pods, nodes, avoid, 0) {
      i := 0;
    } else {
      var rest := PickNodeTakesFirst(pods, nodes[1..], avoid);
      i := rest + 1;
      assert forall j: nat | 0 < j :: Takeable(pods, nodes, avoid, j) <==> Takeable(pods, nodes[1..], avoid, j - 1);
    }
  }

  /** `prior_nodes` after the "all nodes tried" rule fired: only the latest failure. */
  function Reset(prior: seq<Node>): seq<Node>
    requires prior != []
  {
    [Last(prior)]
  }

  datatype Picked = Picked(node: Option<Node>, prior: seq<Node>)

  /** `pick_node_with_reset` for listings that do not change between its two attempts. */
  function PickWithReset(pods: PodListing, nodes: seq<NodeInfo>, prior: seq<Node>): Picked {
    var first := PickNode(pods, nodes, prior);
    if first.Some? || |prior| <= 1 then Picked(first, prior)
    else Picked(PickNode(pods, nodes, Reset(prior)), Reset(prior))
  }

  /** The pick succeeds exactly when an eligible node other than the latest
      failure exists; it never returns a node of the history it leaves behind,
      the latest failure stays in that history, and the history is cut exactly
      when it had more than one entry and held every eligible node. */
  lemma PickWithResetComplete(pods: PodListing, nodes: seq<NodeInfo>, prior: seq<Node>)
    ensures var r := PickWithReset(pods, nodes, prior);
      && (r.node.Some? <==> exists n :: Eligible(pods, nodes, n) && (prior == [] || n != Last(prior)))
      && (r.node.Some? ==> Eligible(pods, nodes, r.node.value) && r.node.value !in r.prior)
      && (prior != [] ==> r.prior != [] && Last(r.prior) == Last(prior))
      && (r.prior != prior ==> |prior| > 1 && r.prior == [Last(prior)])
      && (r.prior == prior || forall n | Eligible(pods, nodes, n) :: n in prior)
      && (|prior| > 1 && (forall n | Eligible(pods, nodes, n) :: n in prior) ==> r.prior == [Last(prior)])
  {
    var first := PickNode(pods, nodes, prior);
    if first.Some? {
      assert Eligible(pods, nodes, first.value) && (prior == [] || first.value != Last(prior));
    } else if |prior| > 1 {
      var second := PickNode(pods, nodes, Reset(prior));
      if second.Some? {
        assert Eligible(pods, nodes, second.value) && second.value != Last(prior);
      }
    }
  }
}
