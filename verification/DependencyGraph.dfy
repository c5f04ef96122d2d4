/** The dependency relation of a board and what "acyclic" means for it.

    A board's graph maps each existing ticket id to the list of ids it waits for.
    An id that no ticket has is a ghost: it is no node, and an edge to it is ignored. */
module DependencyGraph {
  import opened Sequences

  type TicketId = nat
  type Graph = map<TicketId, seq<TicketId>>

  /** `a` waits for `b`, and both tickets exist. */
  predicate Edge(g: Graph, a: TicketId, b: TicketId) {
    a in g && b in g && b in g[a]
  }

  ghost predicate Walk(g: Graph, p: seq<TicketId>) {
    forall i :: 0 <= i < |p| - 1 ==> Edge(g, p[i], p[i + 1])
  }

  ghost predicate ClosedWalk(g: Graph, p: seq<TicketId>) {
    |p| >= 2 && p[0] == p[|p| - 1] && Walk(g, p)
  }

  ghost predicate Acyclic(g: Graph) {
    forall p :: !ClosedWalk(g, p)
  }

  /** No ticket waits for an id that does not exist. */
  ghost predicate Closed(g: Graph) {
    forall a, b :: a in g && b in g[a] ==> b in g
  }

  /** A certificate of acyclicity: every ticket ranks above the tickets it waits for. */
  ghost predicate Ranked(g: Graph, rank: map<TicketId, nat>) {
    forall a, b {:trigger Edge(g, a, b)} :: Edge(g, a, b) ==> a in rank && b in rank && rank[b] < rank[a]
  }

  lemma {:induction false} WalkDescends(g: Graph, rank: map<TicketId, nat>, p: seq<TicketId>)
    requires Ranked(g, rank) && Walk(g, p) && |p| >= 2
    ensures p[0] in rank && p[|p| - 1] in rank && rank[p[|p| - 1]] < rank[p[0]]
  {
    assert Edge(g, p[0], p[1]);
    if |p| > 2 {
      assert Walk(g, p[1..]) by {
        forall i | 0 <= i < |p[1..]| - 1 ensures Edge(g, p[1..][i], p[1..][i + 1]) {
          assert Edge(g, p[i + 1], p[i + 2]);
        }
      }
      WalkDescends(g, rank, p[1..]);
    }
  }

  /** A ranked graph has no closed walk. */
  lemma RankedIsAcyclic(g: Graph, rank: map<TicketId, nat>)
    requires Ranked(g, rank)
    ensures Acyclic(g)
  {
    forall p ensures !ClosedWalk(g, p) {
      if ClosedWalk(g, p) {
        WalkDescends(g, rank, p);
      }
    }
  }

  /** The first `n` ids of `s` are all in `keys`. */
  ghost predicate Covered(s: seq<TicketId>, n: nat, keys: set<TicketId>)
    requires n <= |s|
  {
    n == 0 || (s[n - 1] in keys && Covered(s, n - 1, keys))
  }

  lemma {:induction false} CoveredGrows(s: seq<TicketId>, n: nat, keys: set<TicketId>, more: set<TicketId>)
    requires n <= |s| && Covered(s, n, keys) && keys <= more
    ensures Covered(s, n, more)
  {
    if n > 0 {
      CoveredGrows(s, n - 1, keys, more);
    }
  }

  lemma {:induction false} CoveredMember(s: seq<TicketId>, n: nat, keys: set<TicketId>, i: nat)
    requires i < n <= |s| && Covered(s, n, keys)
    ensures s[i] in keys
  {
    if i < n - 1 {
      CoveredMember(s, n - 1, keys, i);
    }
  }

  /** `order` lists exactly the tickets of the graph (the iteration order of the board). */
  ghost predicate Lists(order: seq<TicketId>, g: Graph) {
    Covered(order, |order|, g.Keys) && forall a :: a in g ==> a in order
  }

  /** Stepping back onto a walk closes it. */
  lemma SteppingBackCloses(g: Graph, p: seq<TicketId>, i: nat, b: TicketId)
    requires Walk(g, p) && i < |p| && p[i] == b && Edge(g, p[|p| - 1], b)
    ensures ClosedWalk(g, p[i..] + [b])
  {
    var c := p[i..] + [b];
    forall j | 0 <= j < |c| - 1 ensures Edge(g, c[j], c[j + 1]) {
      assert c[j] == p[i + j];
      if j < |c| - 2 {
        assert Edge(g, p[i + j], p[i + j + 1]);
      }
    }
  }

  /** From any node of `nodes`, walking inside `nodes` ends in a node with no edge into `nodes`. */
  lemma {:induction false} FollowToSink(g: Graph, nodes: set<TicketId>, p: seq<TicketId>) returns (sink: TicketId)
    requires Acyclic(g) && |p| >= 1 && Walk(g, p) && Distinct(p)
    requires forall i :: 0 <= i < |p| ==> p[i] in nodes
    ensures sink in nodes && forall b :: b in nodes ==> !Edge(g, sink, b)
    decreases |nodes| - |p|
  {
    DistinctBound(p, nodes);
    var last := p[|p| - 1];
    if b :| b in nodes && Edge(g, last, b) {
      forall i | 0 <= i < |p| ensures p[i] != b {
        if p[i] == b {
          SteppingBackCloses(g, p, i, b);
        }
      }
      DistinctBound(p + [b], nodes);
      sink := FollowToSink(g, nodes, p + [b]);
    } else {
      sink := last;
    }
  }

  /** In an acyclic graph every nonempty set of nodes has a member waiting for nothing inside the set. */
  lemma SinkExists(g: Graph, nodes: set<TicketId>) returns (sink: TicketId)
    requires Acyclic(g) && nodes != {}
    ensures sink in nodes && forall b :: b in nodes ==> !Edge(g, sink, b)
  {
    var start :| start in nodes;
    sink := FollowToSink(g, nodes, [start]);
  }

  lemma {:induction false} RankNodes(g: Graph, nodes: set<TicketId>) returns (rank: map<TicketId, nat>)
    requires Acyclic(g)
    ensures rank.Keys == nodes && forall a :: a in nodes ==> rank[a] < |nodes|
    ensures forall a, b :: a in nodes && b in nodes && Edge(g, a, b) ==> rank[b] < rank[a]
    decreases |nodes|
  {
    if nodes == {} {
      rank := map[];
    } else {
      var sink := SinkExists(g, nodes);
      var rest := RankNodes(g, nodes - {sink});
      rank := (map a | a in rest :: rest[a] + 1) + map[sink := 0];
    }
  }

  /** Every acyclic graph has a ranking: with `RankedIsAcyclic`, the two notions coincide. */
  lemma AcyclicHasRank(g: Graph) returns (rank: map<TicketId, nat>)
    requires Acyclic(g)
    ensures Ranked(g, rank) && rank.Keys == g.Keys
  {
    rank := RankNodes(g, g.Keys);
  }

  lemma WalkTransfers(g: Graph, h: Graph, p: seq<TicketId>)
    requires Walk(g, p)
    requires forall a, b :: Edge(g, a, b) ==> Edge(h, a, b)
    ensures Walk(h, p)
  {
    forall i | 0 <= i < |p| - 1 ensures Edge(h, p[i], p[i + 1]) {
      assert Edge(g, p[i], p[i + 1]);
    }
  }

  /** Fewer edges never create a cycle. */
  lemma SubgraphAcyclic(g: Graph, h: Graph)
    requires Acyclic(h)
    requires forall a, b :: Edge(g, a, b) ==> Edge(h, a, b)
    ensures Acyclic(g)
  {
    forall p | Walk(g, p) ensures Walk(h, p) {
      WalkTransfers(g, h, p);
    }
    assert forall p :: ClosedWalk(g, p) ==> ClosedWalk(h, p);
  }
}
