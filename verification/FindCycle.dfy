/** The iterative depth-first cycle finder of the board. */
module FindCycle {
  import opened Sequences
  import opened Wrappers
  import opened DependencyGraph

  /** A cycle as reported: first id repeated at the end, no other repetition, each id waiting for the next. */
  ghost predicate IsCycle(g: Graph, c: seq<TicketId>) {
    ClosedWalk(g, c) && Distinct(c[..|c| - 1])
  }

  const GRAY := 1
  const BLACK := 2

  /** A stack frame: a node and the position of its dependency iterator. */
  datatype Frame = Frame(node: TicketId, pos: nat)

  function ColorOf(color: map<TicketId, nat>, a: TicketId): nat {
    if a in color then color[a] else 0
  }

  /** The `path` list mirrors the frame stack and follows dependency edges; it lists exactly the gray nodes. */
  ghost predicate PathInv(g: Graph, color: map<TicketId, nat>, stack: seq<Frame>, path: seq<TicketId>) {
    && |path| == |stack|
    && Distinct(path)
    && (forall i :: 0 <= i < |stack| ==>
                      path[i] == stack[i].node && path[i] in g && stack[i].pos <= |g[path[i]]|)
    && (forall i :: 0 <= i < |stack| - 1 ==> Edge(g, path[i], path[i + 1]))
    && (forall a :: ColorOf(color, a) == GRAY <==> a in path)
  }

  ghost predicate Settled(g: Graph, color: map<TicketId, nat>, a: TicketId) {
    a in g ==> ColorOf(color, a) == BLACK
  }

  /** Everything a frame's iterator has passed is finished, except the successor the walk now stands on. */
  ghost predicate PassedInv(g: Graph, color: map<TicketId, nat>, stack: seq<Frame>)
    requires forall i :: 0 <= i < |stack| ==> stack[i].node in g && stack[i].pos <= |g[stack[i].node]|
  {
    forall i, j :: 0 <= i < |stack| && 0 <= j < stack[i].pos ==>
                     var next := g[stack[i].node][j];
                     Settled(g, color, next) || (i + 1 < |stack| && next == stack[i + 1].node)
  }

  /** Finished nodes wait only for finished nodes of lower rank. */
  ghost predicate DoneInv(g: Graph, color: map<TicketId, nat>, rank: map<TicketId, nat>) {
    && (forall a :: a in color ==> a in g && (color[a] == GRAY || color[a] == BLACK))
    && (forall a :: a in rank <==> ColorOf(color, a) == BLACK)
    && (forall a :: a in rank ==> rank[a] < |rank|)
    && (forall a, b {:trigger Edge(g, a, b)} :: a in rank && Edge(g, a, b) ==> b in rank && rank[b] < rank[a])
  }

  ghost predicate Dfs(g: Graph, color: map<TicketId, nat>, stack: seq<Frame>, path: seq<TicketId>,
                      rank: map<TicketId, nat>)
  {
    DoneInv(g, color, rank) && PathInv(g, color, stack, path) && PassedInv(g, color, stack)
  }

  lemma GrayBackEdge(g: Graph, color: map<TicketId, nat>, stack: seq<Frame>, path: seq<TicketId>, k: nat,
                     next: TicketId)
    requires PathInv(g, color, stack, path) && k < |path| && path[k] == next
    requires Edge(g, path[|path| - 1], next)
    ensures IsCycle(g, path[k..] + [next])
  {
    var c := path[k..] + [next];
    assert c[..|c| - 1] == path[k..];
    forall i | 0 <= i < |c| - 1 ensures Edge(g, c[i], c[i + 1]) {
      assert c[i] == path[k + i];
      if i < |c| - 2 {
        assert c[i + 1] == path[k + i + 1];
        assert Edge(g, path[k + i], path[k + i + 1]);
      }
    }
  }

  /** Between two roots: nothing is gray. */
  ghost predicate Idle(g: Graph, color: map<TicketId, nat>, rank: map<TicketId, nat>) {
    DoneInv(g, color, rank) && forall a :: a in color ==> color[a] == BLACK
  }

  lemma MeetsGray(g: Graph, color: map<TicketId, nat>, frames: seq<Frame>, top: Frame, path: seq<TicketId>,
                  rank: map<TicketId, nat>, next: TicketId)
    requires Dfs(g, color, frames + [top], path, rank) && ColorOf(color, next) == GRAY
    requires top.node in g && next in g[top.node] && next in g
    ensures next in path && path[|path| - 1] == top.node && Edge(g, path[|path| - 1], next)
  {
    assert path[|path| - 1] == (frames + [top])[|frames|].node;
  }

  lemma StartRoot(g: Graph, color: map<TicketId, nat>, rank: map<TicketId, nat>, root: TicketId)
    requires Idle(g, color, rank) && root in g && ColorOf(color, root) == 0
    ensures Dfs(g, color[root := GRAY], [Frame(root, 0)], [root], rank)
  {
  }

  lemma AdvanceFrame(g: Graph, color: map<TicketId, nat>, frames: seq<Frame>, top: Frame, path: seq<TicketId>,
                     rank: map<TicketId, nat>)
    requires Dfs(g, color, frames + [top], path, rank) && top.node in g && top.pos < |g[top.node]|
    requires Settled(g, color, g[top.node][top.pos])
    ensures Dfs(g, color, frames + [Frame(top.node, top.pos + 1)], path, rank)
  {
    var stack := frames + [top];
    var stack' := frames + [Frame(top.node, top.pos + 1)];
    assert forall i :: 0 <= i < |frames| ==> stack'[i] == stack[i];
    assert path[|path| - 1] == stack[|stack| - 1].node;
    forall i, j | 0 <= i < |stack'| && 0 <= j < stack'[i].pos
      ensures Settled(g, color, g[stack'[i].node][j])
              || (i + 1 < |stack'| && g[stack'[i].node][j] == stack'[i + 1].node)
    {
      if j < stack[i].pos {
        assert Settled(g, color, g[stack[i].node][j])
               || (i + 1 < |stack| && g[stack[i].node][j] == stack[i + 1].node);
      }
    }
  }

  lemma PushPath(g: Graph, color: map<TicketId, nat>, frames: seq<Frame>, top: Frame, path: seq<TicketId>,
                 next: TicketId)
    requires PathInv(g, color, frames + [top], path) && top.node in g && top.pos < |g[top.node]|
    requires next == g[top.node][top.pos] && next in g && ColorOf(color, next) == 0
    ensures PathInv(g, color[next := GRAY], frames + [Frame(top.node, top.pos + 1), Frame(next, 0)], path + [next])
  {
    var stack := frames + [top];
    var stack' := frames + [Frame(top.node, top.pos + 1), Frame(next, 0)];
    var path' := path + [next];
    assert path[|path| - 1] == stack[|stack| - 1].node == top.node;
    assert Edge(g, top.node, next);
    assert next !in path;
    assert forall i :: 0 <= i < |path| ==> path'[i] == path[i];
    assert forall i :: 0 <= i < |frames| ==> stack'[i] == stack[i];
    assert forall a :: a in path' <==> a in path || a == next;
    forall i | 0 <= i < |stack'| - 1 ensures Edge(g, path'[i], path'[i + 1]) {
      if i < |path| - 1 {
        assert Edge(g, path[i], path[i + 1]);
      }
    }
  }

  lemma PushPassed(g: Graph, color: map<TicketId, nat>, frames: seq<Frame>, top: Frame, next: TicketId)
    requires var stack := frames + [top];
      && (forall i :: 0 <= i < |stack| ==> stack[i].node in g && stack[i].pos <= |g[stack[i].node]|)
      && PassedInv(g, color, stack)
    requires top.node in g && top.pos < |g[top.node]| && next == g[top.node][top.pos]
    requires next in g && ColorOf(color, next) == 0
    ensures var stack' := frames + [Frame(top.node, top.pos + 1), Frame(next, 0)];
      && (forall i :: 0 <= i < |stack'| ==> stack'[i].node in g && stack'[i].pos <= |g[stack'[i].node]|)
      && PassedInv(g, color[next := GRAY], stack')
  {
    var stack := frames + [top];
    var stack' := frames + [Frame(top.node, top.pos + 1), Frame(next, 0)];
    assert forall i :: 0 <= i < |stack| ==> stack'[i].node == stack[i].node;
    assert stack[|frames|] == top;
    forall i, j | 0 <= i < |stack'| && 0 <= j < stack'[i].pos
      ensures Settled(g, color[next := GRAY], g[stack'[i].node][j])
              || (i + 1 < |stack'| && g[stack'[i].node][j] == stack'[i + 1].node)
    {
      if j < stack[i].pos {
        assert Settled(g, color, g[stack[i].node][j])
               || (i + 1 < |stack| && g[stack[i].node][j] == stack[i + 1].node);
      }
    }
  }

  lemma PushDone(g: Graph, color: map<TicketId, nat>, rank: map<TicketId, nat>, next: TicketId)
    requires DoneInv(g, color, rank) && next in g && ColorOf(color, next) == 0
    ensures DoneInv(g, color[next := GRAY], rank)
  {}

  lemma PushFrame(g: Graph, color: map<TicketId, nat>, frames: seq<Frame>, top: Frame, path: seq<TicketId>,
                  rank: map<TicketId, nat>, next: TicketId)
    requires Dfs(g, color, frames + [top], path, rank) && top.node in g && top.pos < |g[top.node]|
    requires next == g[top.node][top.pos] && next in g && ColorOf(color, next) == 0
    ensures Dfs(g, color[next := GRAY], frames + [Frame(top.node, top.pos + 1), Frame(next, 0)], path + [next], rank)
  {
    PushPath(g, color, frames, top, path, next);
    PushPassed(g, color, frames, top, next);
    PushDone(g, color, rank, next);
  }

  lemma PopFrame(g: Graph, color: map<TicketId, nat>, frames: seq<Frame>, top: Frame, path: seq<TicketId>,
                 rank: map<TicketId, nat>)
    requires Dfs(g, color, frames + [top], path, rank) && top.node in g && top.pos == |g[top.node]|
    ensures top.node in color
    ensures Dfs(g, color[top.node := BLACK], frames, path[..|path| - 1], rank[top.node := |rank|])
  {
    var stack := frames + [top];
    assert stack[|stack| - 1].node in path && ColorOf(color, top.node) == GRAY;
    var color' := color[top.node := BLACK];
    var path' := path[..|path| - 1];
    assert path == path' + [top.node] by {
      assert path[|path| - 1] == stack[|stack| - 1].node;
    }
    assert forall a :: a in path <==> a in path' || a == top.node;
    assert forall i :: 0 <= i < |frames| ==> frames[i] == stack[i];
    forall b | Edge(g, top.node, b) ensures ColorOf(color, b) == BLACK {
      var j :| 0 <= j < |g[top.node]| && g[top.node][j] == b;
      assert Settled(g, color, g[stack[|stack| - 1].node][j]);
    }
    assert top.node !in rank;
    assert DoneInv(g, color', rank[top.node := |rank|]);
    forall i, j | 0 <= i < |frames| && 0 <= j < frames[i].pos
      ensures Settled(g, color', g[frames[i].node][j])
              || (i + 1 < |frames| && g[frames[i].node][j] == frames[i + 1].node)
    {
      assert Settled(g, color, g[stack[i].node][j])
             || (i + 1 < |stack| && g[stack[i].node][j] == stack[i + 1].node);
    }
    assert PathInv(g, color', frames, path') by {
      forall i | 0 <= i < |frames| - 1 ensures Edge(g, path'[i], path'[i + 1]) {
        assert Edge(g, path[i], path[i + 1]);
      }
    }
  }

  lemma EmptyStackIsIdle(g: Graph, color: map<TicketId, nat>, stack: seq<Frame>, path: seq<TicketId>,
                         rank: map<TicketId, nat>)
    requires Dfs(g, color, stack, path, rank) && |stack| == 0
    ensures Idle(g, color, rank)
  {
    assert forall a :: a in color ==> ColorOf(color, a) != GRAY;
  }

  lemma AllFinished(order: seq<TicketId>, g: Graph, color: map<TicketId, nat>, rank: map<TicketId, nat>)
    requires Idle(g, color, rank)
    requires Lists(order, g) && Covered(order, |order|, color.Keys)
    ensures Acyclic(g)
  {
    forall a, b | Edge(g, a, b) ensures a in rank && b in rank && rank[b] < rank[a] {
      var i :| 0 <= i < |order| && order[i] == a;
      CoveredMember(order, |order|, color.Keys, i);
      assert ColorOf(color, a) == BLACK;
    }
    RankedIsAcyclic(g, rank);
  }

  /** `path.index(x)`: the first position of `x`. */
  method IndexOf(path: seq<TicketId>, x: TicketId) returns (k: nat)
    requires x in path
    ensures k < |path| && path[k] == x
    ensures forall i :: 0 <= i < k ==> path[i] != x
  {
    k := 0;
    while path[k] != x
      invariant k < |path|
      invariant forall i :: 0 <= i < k ==> path[i] != x
      decreases |path| - k
    {
      k := k + 1;
    }
  }

  /** The termination measure: a node turned gray, or the colored nodes are the same and the stack is shorter. */
  ghost predicate Progress(color: map<TicketId, nat>, stack: seq<Frame>, color': map<TicketId, nat>,
                           stack': seq<Frame>)
  {
    color.Keys <= color'.Keys && (color.Keys == color'.Keys ==> |stack'| < |stack|)
  }

  /** Run a frame's iterator past finished and non-existing ids, up to the next gray or white node. */
  method Skip(deps: Graph, color: map<TicketId, nat>, ghost frames: seq<Frame>, node: TicketId, start: nat,
              ghost path: seq<TicketId>, ghost rank: map<TicketId, nat>)
    returns (pos: nat)
    requires node in deps && start <= |deps[node]|
    requires Dfs(deps, color, frames + [Frame(node, start)], path, rank)
    ensures start <= pos <= |deps[node]| && Dfs(deps, color, frames + [Frame(node, pos)], path, rank)
    ensures pos < |deps[node]| ==> !Settled(deps, color, deps[node][pos])
  {
    pos := start;
    while pos < |deps[node]|
      invariant start <= pos <= |deps[node]| && Dfs(deps, color, frames + [Frame(node, pos)], path, rank)
    {
      var next := deps[node][pos];
      if next in deps && ColorOf(color, next) != BLACK {
        return;
      }
      AdvanceFrame(deps, color, frames, Frame(node, pos), path, rank);
      pos := pos + 1;
    }
  }

  /** One round of the search: run the top frame's iterator until it meets a gray node (a cycle),
      pushes a new node, or is exhausted and popped. */
  method Round(deps: Graph, color: map<TicketId, nat>, stack: seq<Frame>, path: seq<TicketId>,
               ghost rank: map<TicketId, nat>)
    returns (cycle: Option<seq<TicketId>>, color': map<TicketId, nat>, stack': seq<Frame>,
             path': seq<TicketId>, ghost rank': map<TicketId, nat>)
    requires |stack| > 0 && Dfs(deps, color, stack, path, rank)
    ensures cycle.Some? ==> IsCycle(deps, cycle.value)
    ensures cycle.None? ==> Dfs(deps, color', stack', path', rank') && Progress(color, stack, color', stack')
  {
    cycle, color', stack', path', rank' := None, color, stack, path, rank;
    var node := stack[|stack| - 1].node;
    ghost var frames := stack[..|stack| - 1];
    assert stack == frames + [stack[|stack| - 1]];
    var pos := Skip(deps, color, frames, node, stack[|stack| - 1].pos, path, rank);
    if pos == |deps[node]| {
      PopFrame(deps, color, frames, Frame(node, pos), path, rank);
      rank' := rank[node := |rank|];
      color' := color[node := BLACK];
      stack' := stack[..|stack| - 1];
      path' := path[..|path| - 1];
      return;
    }
    var next := deps[node][pos];
    if ColorOf(color, next) == GRAY {
      MeetsGray(deps, color, frames, Frame(node, pos), path, rank, next);
      var k := IndexOf(path, next);
      GrayBackEdge(deps, color, frames + [Frame(node, pos)], path, k, next);
      cycle := Some(path[k..] + [next]);
    } else {
      PushFrame(deps, color, frames, Frame(node, pos), path, rank, next);
      stack' := stack[..|stack| - 1] + [Frame(node, pos + 1), Frame(next, 0)];
      color' := color[next := GRAY];
      path' := path + [next];
    }
  }

  /** Unless the root is finished already, search everything reachable from it;
      without a cycle, all of it ends up finished. */
  method SearchFrom(root: TicketId, deps: Graph, color0: map<TicketId, nat>, ghost rank0: map<TicketId, nat>)
    returns (cycle: Option<seq<TicketId>>, color: map<TicketId, nat>, ghost rank: map<TicketId, nat>)
    requires root in deps.Keys && Idle(deps, color0, rank0)
    ensures cycle.Some? ==> IsCycle(deps, cycle.value)
    ensures cycle.None? ==> Idle(deps, color, rank)
    ensures cycle.None? ==> root in color.Keys && color0.Keys <= color.Keys
  {
    cycle, color, rank := None, color0, rank0;
    if ColorOf(color, root) != 0 {
      return;
    }
    StartRoot(deps, color, rank, root);
    var stack := [Frame(root, 0)];
    color := color[root := GRAY];
    var path := [root];
    while |stack| > 0
      invariant cycle.None? && Dfs(deps, color, stack, path, rank)
      invariant root in color.Keys && color0.Keys <= color.Keys
      decreases deps.Keys - color.Keys, |stack|
    {
      cycle, color, stack, path, rank := Round(deps, color, stack, path, rank);
      if cycle.Some? {
        return;
      }
    }
    EmptyStackIsIdle(deps, color, stack, path, rank);
  }

  /** Searches from every root in board order: a cycle if there is one, None if the graph is acyclic. */
  method FindCycle(order: seq<TicketId>, deps: Graph) returns (cycle: Option<seq<TicketId>>)
    requires Lists(order, deps)
    ensures cycle.Some? ==> IsCycle(deps, cycle.value)
    ensures cycle.None? <==> Acyclic(deps)
  {
    var color: map<TicketId, nat> := map[];
    ghost var rank: map<TicketId, nat> := map[];
    for r := 0 to |order|
      invariant Idle(deps, color, rank)
      invariant Covered(order, r, color.Keys)
    {
      CoveredMember(order, |order|, deps.Keys, r);
      ghost var before := color.Keys;
      var found;
      found, color, rank := SearchFrom(order[r], deps, color, rank);
      if found.Some? {
        return found;
      }
      CoveredGrows(order, r, before, color.Keys);
    }
    AllFinished(order, deps, color, rank);
    cycle := None;
  }
}
