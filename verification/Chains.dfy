/**
The chain below a node: from a filter to the node it filters, and from an overlay to its backing node.
*/
module Chains {
  import opened BlockGraph
  import opened Topology

  /** bdrv_filter_or_cow_child */
  function ChainChild(node: Node): Option<EdgeId> {
    if node.drv.None? then None
    else if node.drv.value.isFilter && node.backing.None? then node.file
    else node.backing
  }

  /** bdrv_filter_or_cow_bs */
  function ChainNext(g: Graph, n: NodeId): Option<NodeId>
    requires n in g.nodes
  {
    var c := ChainChild(g.nodes[n]);
    if c.Some? && c.value in g.edges then g.edges[c.value].bs else None
  }

  ghost predicate IsChain(g: Graph, q: seq<NodeId>, a: NodeId, b: NodeId) {
    && |q| > 0 && q[0] == a && q[|q| - 1] == b
    && (forall i :: 0 <= i < |q| ==> q[i] in g.nodes)
    && (forall i :: 0 <= i < |q| - 1 ==> ChainNext(g, q[i]) == Some(q[i + 1]))
  }

  /** bdrv_chain_contains */
  ghost predicate ChainContains(g: Graph, a: NodeId, b: NodeId) {
    exists q :: IsChain(g, q, a, b)
  }

  /** Node `p` is on the chain of `from`, right above `to`. */
  ghost predicate CowParent(g: Graph, from: NodeId, to: NodeId, p: NodeId) {
    p in g.nodes && ChainContains(g, from, p) && ChainNext(g, p) == Some(to)
  }

  lemma CowParentExists(g: Graph, from: NodeId, to: NodeId)
    requires ChainContains(g, from, to) && from != to
    ensures exists p :: CowParent(g, from, to, p)
  {
    var q :| IsChain(g, q, from, to);
    var p := q[|q| - 2];
    assert IsChain(g, q[..|q| - 1], from, p);
    assert CowParent(g, from, to, p);
  }

  /** The link of the chain of `from` that leads to `to`. */
  ghost function SubchainLink(g: Graph, from: NodeId, to: NodeId): EdgeId
    requires ChainContains(g, from, to) && from != to
  {
    CowParentExists(g, from, to);
    var p :| CowParent(g, from, to, p);
    ChainChild(g.nodes[p]).value
  }

  lemma ChainStepIsChild(g: Graph, a: NodeId, b: NodeId)
    requires Linked(g) && a in g.nodes && ChainNext(g, a) == Some(b)
    ensures HasChild(g, a, b) && b in g.nodes && ChainChild(g.nodes[a]).value in EdgesFrom(g, a)
  {
    assert NodeOk(g, a);
    assert EdgeOk(g, ChainChild(g.nodes[a]).value);
  }

  /** A chain that goes through `to` does not come back to it. */
  lemma NoWayBack(g: Graph, q: seq<NodeId>, to: NodeId, p: NodeId)
    requires Linked(g) && Acyclic(g) && IsChain(g, q, to, p)
    ensures ChainNext(g, p) != Some(to)
  {
    if ChainNext(g, p) == Some(to) {
      var c := q + [to];
      forall i | 0 <= i < |c| - 1
        ensures HasChild(g, c[i], c[i + 1])
      {
        ChainStepIsChild(g, c[i], c[i + 1]);
      }
      assert IsPath(g, c, to, to);
    }
  }

  lemma {:induction false} ChainsAgree(
      g: Graph, q: seq<NodeId>, r: seq<NodeId>, a: NodeId, to: NodeId, p: NodeId, p2: NodeId)
    requires Linked(g) && Acyclic(g) && IsChain(g, q, a, p) && IsChain(g, r, a, p2)
    requires ChainNext(g, p) == Some(to) && ChainNext(g, p2) == Some(to)
    ensures p == p2
    decreases |q|
  {
    if |q| > 1 && |r| > 1 {
      ChainsAgree(g, q[1..], r[1..], q[1], to, p, p2);
    } else if |q| > 1 {
      NoWayBack(g, q[1..], to, p);
    } else if |r| > 1 {
      NoWayBack(g, r[1..], to, p2);
    }
  }

  /** There is one node right above `to`, so it does not matter how it is found. */
  lemma OneCowParent(g: Graph, from: NodeId, to: NodeId, p: NodeId)
    requires Linked(g) && Acyclic(g) && ChainContains(g, from, to) && from != to && CowParent(g, from, to, p)
    ensures ChainChild(g.nodes[p]) == Some(SubchainLink(g, from, to))
  {
    CowParentExists(g, from, to);
    forall p2 | CowParent(g, from, to, p2)
      ensures p2 == p
    {
      var q :| IsChain(g, q, from, p);
      var r :| IsChain(g, r, from, p2);
      ChainsAgree(g, q, r, from, to, p, p2);
    }
  }

  /** The loop of bdrv_replace_node_common that walks down the chain to the node right above `to`. */
  method FindCowParent(g: Graph, from: NodeId, to: NodeId) returns (p: NodeId)
    requires ChainContains(g, from, to) && from != to
    ensures CowParent(g, from, to, p)
  {
    p := from;
    ghost var rest :| IsChain(g, rest, from, to);
    ghost var above := [from];
    while ChainNext(g, p) != Some(to)
      invariant IsChain(g, rest, p, to) && p != to && IsChain(g, above, from, p)
      decreases |rest|
    {
      rest := rest[1..];
      above := above + [rest[0]];
      p := ChainNext(g, p).value;
    }
  }
}
