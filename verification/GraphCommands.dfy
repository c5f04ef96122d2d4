/** The commands that wire the dependency graph: create (with --after / --blocks), dep and plan.

    A ticket file is a map entry, `os.unlink` removes it. The dependency gate inside `save` may abort a
    `set_deps` half-way through a command; which ids it lets through is the parameter `admits`. */
module GraphCommands {
  import opened Sequences
  import opened Wrappers
  import opened DependencyGraph
  import FindCycle

  /** What every command keeps: no dependency on a missing ticket and no cycle. */
  ghost predicate WellFormed(g: Graph) {
    Closed(g) && Acyclic(g)
  }

  /** The graph `check_graph` examines: the board with pending dependency lists laid over existing tickets. */
  function Overlay(g: Graph, pending: Graph): Graph {
    map t | t in g :: if t in pending then pending[t] else g[t]
  }

  /** A new ticket nobody waits for yet cannot close a cycle. */
  lemma NewTicketKeepsWellFormed(g: Graph, id: TicketId, deps: seq<TicketId>)
    requires WellFormed(g) && id !in g && forall d :: d in deps ==> d in g
    ensures WellFormed(g[id := deps])
  {
    var h := g[id := deps];
    var rank := AcyclicHasRank(g);
    var top := RankBound(rank);
    var rank' := rank[id := top];
    forall a, b | Edge(h, a, b) ensures a in rank' && b in rank' && rank'[b] < rank'[a] {
      if a != id {
        assert b in g[a];
        assert Edge(g, a, b);
      } else {
        assert b in g && b in rank.Keys;
      }
    }
    RankedIsAcyclic(h, rank');
  }

  lemma RankBound(rank: map<TicketId, nat>) returns (top: nat)
    ensures forall a :: a in rank ==> rank[a] < top
  {
    if rank == map[] {
      top := 0;
    } else {
      var a :| a in rank;
      var rest := RankBound(rank - {a});
      top := if rank[a] < rest then rest else rank[a] + 1;
      forall b | b in rank ensures rank[b] < top {
        if b != a {
          assert b in rank - {a};
        }
      }
    }
  }

  /** Stopping a rewiring half-way leaves a graph between the old one and the checked one. */
  ghost predicate Between(g: Graph, h: Graph, full: Graph) {
    && h.Keys == g.Keys == full.Keys
    && forall t :: t in h ==> h[t] == g[t] || h[t] == full[t]
  }

  lemma PartialRewiringKeepsWellFormed(g: Graph, h: Graph, full: Graph)
    requires WellFormed(g) && Between(g, h, full) && Acyclic(full)
    requires forall t, d :: t in g && d in g[t] ==> d in full[t]
    requires forall t, d :: t in full && d in full[t] ==> d in full
    ensures WellFormed(h)
  {
    forall a, b | Edge(h, a, b) ensures Edge(full, a, b) {
    }
    SubgraphAcyclic(h, full);
  }

  /** On a well-formed board where every ticket is open or released, some open ticket is ready. */
  lemma SomeTicketIsReady(g: Graph, open: set<TicketId>, released: set<TicketId>) returns (t: TicketId)
    requires WellFormed(g) && open != {} && open <= g.Keys
    requires forall a :: a in g ==> a in open || a in released
    ensures t in open && forall d :: d in g[t] ==> d in released
  {
    t := SinkExists(g, open);
    forall d | d in g[t] ensures d in released {
      assert Edge(g, t, d);
    }
  }

  // ---- the lists a command computes ----

  /** `dep --after`: append each id that is not in the list yet. */
  function AddMissing(deps: seq<TicketId>, refs: seq<TicketId>): seq<TicketId>
    decreases |refs|
  {
    if |refs| == 0 then deps
    else AddMissing(if refs[0] in deps then deps else deps + [refs[0]], refs[1..])
  }

  /** `list.remove`: drop the first occurrence, if there is one. */
  function RemoveFirst(deps: seq<TicketId>, x: TicketId): seq<TicketId> {
    if |deps| == 0 then []
    else if deps[0] == x then deps[1..]
    else [deps[0]] + RemoveFirst(deps[1..], x)
  }

  /** `dep --drop`: remove one occurrence of each id. */
  function DropEach(deps: seq<TicketId>, refs: seq<TicketId>): seq<TicketId>
    decreases |refs|
  {
    if |refs| == 0 then deps else DropEach(RemoveFirst(deps, refs[0]), refs[1..])
  }

  lemma {:induction false} AddMissingMembers(deps: seq<TicketId>, refs: seq<TicketId>, x: TicketId)
    ensures x in AddMissing(deps, refs) <==> x in deps || x in refs
    ensures Distinct(deps) ==> Distinct(AddMissing(deps, refs))
    decreases |refs|
  {
    if |refs| > 0 {
      assert x in refs <==> x == refs[0] || x in refs[1..];
      AddMissingMembers(if refs[0] in deps then deps else deps + [refs[0]], refs[1..], x);
    }
  }

  lemma {:induction false} RemoveFirstMembers(deps: seq<TicketId>, y: TicketId, x: TicketId)
    ensures x in RemoveFirst(deps, y) ==> x in deps
    ensures x in deps && x != y ==> x in RemoveFirst(deps, y)
    ensures Distinct(deps) ==> y !in RemoveFirst(deps, y)
  {
    if |deps| > 0 {
      RemoveFirstMembers(deps[1..], y, x);
      if Distinct(deps) {
        assert Distinct(deps[1..]);
      }
      assert x in deps <==> x == deps[0] || x in deps[1..];
    }
  }

  lemma {:induction false} RemoveFirstDistinct(deps: seq<TicketId>, y: TicketId)
    requires Distinct(deps)
    ensures Distinct(RemoveFirst(deps, y))
  {
    if |deps| > 0 && deps[0] != y {
      RemoveFirstDistinct(deps[1..], y);
      RemoveFirstMembers(deps[1..], y, deps[0]);
    }
  }

  /** A list without repetitions ends up exactly as the command line says: the old ids and the added ones,
      less the dropped ones. */
  lemma {:induction false} DropEachMembers(deps: seq<TicketId>, refs: seq<TicketId>, x: TicketId)
    ensures x in DropEach(deps, refs) ==> x in deps
    ensures Distinct(deps) ==> (x in DropEach(deps, refs) <==> x in deps && x !in refs)
    ensures Distinct(deps) ==> Distinct(DropEach(deps, refs))
    decreases |refs|
  {
    if |refs| > 0 {
      RemoveFirstMembers(deps, refs[0], x);
      if Distinct(deps) {
        RemoveFirstDistinct(deps, refs[0]);
      }
      DropEachMembers(RemoveFirst(deps, refs[0]), refs[1..], x);
      assert x in refs <==> x == refs[0] || x in refs[1..];
    }
  }

  lemma RewiredMembers(deps: seq<TicketId>, after: seq<TicketId>, drop: seq<TicketId>)
    ensures var list := DropEach(AddMissing(deps, after), drop);
      && (forall x :: x in list ==> x in deps || x in after)
      && (Distinct(deps) ==> Distinct(list) && forall x :: x in list <==> (x in deps || x in after) && x !in drop)
  {
    var added := AddMissing(deps, after);
    AddMissingMembers(deps, after, 0);
    DropEachMembers(added, drop, 0);
    forall x: TicketId
      ensures x in DropEach(added, drop) ==> x in deps || x in after
      ensures Distinct(deps) ==> (x in DropEach(added, drop) <==> (x in deps || x in after) && x !in drop)
    {
      AddMissingMembers(deps, after, x);
      DropEachMembers(added, drop, x);
    }
  }

  /** Dropping an id takes out its first occurrence and moves nothing else. */
  lemma {:induction false} RemoveFirstIs(deps: seq<TicketId>, x: TicketId, i: nat)
    requires i <= |deps| && x !in deps[..i] && (i < |deps| ==> deps[i] == x)
    ensures RemoveFirst(deps, x) == if i < |deps| then deps[..i] + deps[i + 1..] else deps
  {
    if i > 0 {
      assert deps[0] == deps[..i][0];
      assert deps[1..][..i - 1] == deps[..i][1..];
      var rest := deps[1..];
      RemoveFirstIs(rest, x, i - 1);
      if i < |deps| {
        assert rest[i..] == deps[i + 1..];
        assert deps[..i] == [deps[0]] + rest[..i - 1];
      }
    } else if deps != [] {
      assert deps[..0] + deps[1..] == deps[1..];
    }
  }

  // ---- the commands ----

  datatype Outcome =
    | Done(id: TicketId)
    | NoSuchTicket
    | SelfDependency
    | CycleRefused(cycle: seq<TicketId>)
    | GateRefused(at: TicketId)

  /** `create --blocks`: every blocked ticket additionally waits for the new one. */
  function BlocksPending(g: Graph, id: TicketId, blocks: seq<TicketId>): Graph {
    map t | t in g && t in blocks :: g[t] + [id]
  }

  /** The board after a fully successful create. */
  function Created(g: Graph, id: TicketId, deps: seq<TicketId>, blocks: seq<TicketId>): Graph {
    var g1 := g[id := deps];
    Overlay(g1, BlocksPending(g, id, blocks))
  }

  lemma CreatedIs(g: Graph, id: TicketId, after: seq<TicketId>, blocks: seq<TicketId>)
    requires id !in g
    ensures var h := Created(g, id, after, blocks);
      && h.Keys == g.Keys + {id} && h[id] == after
      && (forall t :: t in g ==> h[t] == g[t] + if t in blocks then [id] else [])
      && (blocks == [] ==> h == g[id := after])
  {}

  function Rewired(g: Graph, id: TicketId, after: seq<TicketId>, drop: seq<TicketId>): Graph
    requires id in g
  {
    g[id := DropEach(AddMissing(g[id], after), drop)]
  }

  /** A dependency named in a plan: a key of the plan, or else the ticket id the name spells, if it spells one. */
  datatype Ref = Ref(name: string, id: Option<TicketId>)
  datatype PlanItem = PlanItem(key: string, deps: seq<Ref>)

  /** The keys of the first `n` items; the i-th item got id `first + i`. A later key wins. */
  function KeyMap(items: seq<PlanItem>, first: TicketId, n: nat): map<string, TicketId>
    requires n <= |items|
  {
    if n == 0 then map[]
    else
      var m := KeyMap(items, first, n - 1);
      if items[n - 1].key == "" then m else m[items[n - 1].key := first + n - 1]
  }

  /** The plan item a name stands for: the last one with that key. */
  ghost predicate NamesItem(items: seq<PlanItem>, name: string, k: int) {
    0 <= k < |items| && name != "" && items[k].key == name && forall l :: k < l < |items| ==> items[l].key != name
  }

  /** What a dependency in a plan means: the ticket of the item it names, or else the ticket whose id it spells. */
  ghost predicate Means(items: seq<PlanItem>, first: TicketId, ref: Ref, t: TicketId) {
    || NamesItem(items, ref.name, t - first)
    || (ref.id == Some(t) && forall k :: 0 <= k < |items| ==> ref.name == "" || items[k].key != ref.name)
  }

  lemma {:induction false} KeyMapIs(items: seq<PlanItem>, first: TicketId, n: nat, name: string)
    requires n <= |items|
    ensures name in KeyMap(items, first, n) ==> NamesItem(items[..n], name, KeyMap(items, first, n)[name] - first)
    ensures name !in KeyMap(items, first, n) ==> name == "" || forall k :: 0 <= k < n ==> items[k].key != name
  {
    if n > 0 {
      KeyMapIs(items, first, n - 1, name);
      assert items[..n][..n - 1] == items[..n - 1];
    }
  }

  /** A name resolves to the ticket it means, if it means one. */
  lemma ResolveIs(items: seq<PlanItem>, first: TicketId, ref: Ref, t: TicketId)
    ensures Resolve(ref, KeyMap(items, first, |items|)) == Some(t) <==> Means(items, first, ref, t)
  {
    KeyMapIs(items, first, |items|, ref.name);
    assert items[..|items|] == items;
  }

  function Resolve(ref: Ref, keys: map<string, TicketId>): Option<TicketId> {
    if ref.name in keys then Some(keys[ref.name]) else ref.id
  }

  predicate Known(ref: Ref, keys: map<string, TicketId>, existing: set<TicketId>) {
    Resolve(ref, keys).Some? && Resolve(ref, keys).value in existing
  }

  predicate AllKnown(items: seq<PlanItem>, keys: map<string, TicketId>, existing: set<TicketId>) {
    forall i, j :: 0 <= i < |items| && 0 <= j < |items[i].deps| ==> Known(items[i].deps[j], keys, existing)
  }

  function ResolveAll(refs: seq<Ref>, keys: map<string, TicketId>): (ids: seq<TicketId>)
    requires forall j :: 0 <= j < |refs| ==> Resolve(refs[j], keys).Some?
    ensures |ids| == |refs| && forall j :: 0 <= j < |refs| ==> Resolve(refs[j], keys) == Some(ids[j])
  {
    if |refs| == 0 then []
    else ResolveAll(refs[..|refs| - 1], keys) + [Resolve(refs[|refs| - 1], keys).value]
  }

  /** The board with a plan's first `n` tickets created, still without dependencies. */
  function Blank(g: Graph, first: TicketId, n: nat): Graph {
    if n == 0 then g else Blank(g, first, n - 1)[first + n - 1 := []]
  }

  /** The board after a successful plan, as far as the first `n` items. */
  function Planned(g: Graph, items: seq<PlanItem>, first: TicketId, keys: map<string, TicketId>, n: nat): Graph
    requires n <= |items| && AllKnown(items, keys, Blank(g, first, |items|).Keys)
  {
    if n == 0 then g
    else Planned(g, items, first, keys, n - 1)[first + n - 1 := ResolveAll(items[n - 1].deps, keys)]
  }

  /** The name means a ticket that exists or that the plan makes. */
  ghost predicate MeansOne(items: seq<PlanItem>, first: TicketId, ref: Ref, existing: set<TicketId>) {
    exists t: TicketId :: Means(items, first, ref, t) && (t in existing || first <= t < first + |items|)
  }

  ghost predicate AllMean(items: seq<PlanItem>, first: TicketId, existing: set<TicketId>) {
    forall i, j :: 0 <= i < |items| && 0 <= j < |items[i].deps| ==> MeansOne(items, first, items[i].deps[j], existing)
  }

  /** The board gained one ticket per item, waiting for what the item's names mean, in their order. */
  ghost predicate PlannedAs(g: Graph, items: seq<PlanItem>, first: TicketId, h: Graph) {
    && (forall t :: t in h <==> t in g || first <= t < first + |items|)
    && (forall t :: t in g ==> t in h && h[t] == g[t])
    && (forall i :: 0 <= i < |items| ==> first + i in h && AsMeant(items, first, items[i].deps, h[first + i]))
  }

  ghost predicate AsMeant(items: seq<PlanItem>, first: TicketId, refs: seq<Ref>, ids: seq<TicketId>) {
    |ids| == |refs| && forall j :: 0 <= j < |refs| ==> Means(items, first, refs[j], ids[j])
  }

  lemma {:induction false} BlankAt(g: Graph, first: TicketId, n: nat, t: TicketId)
    requires forall t :: t in g ==> t < first
    ensures t in Blank(g, first, n) <==> t in g || first <= t < first + n
    ensures t in Blank(g, first, n) ==> Blank(g, first, n)[t] == if t in g then g[t] else []
  {
    if n > 0 {
      BlankAt(g, first, n - 1, t);
    }
  }

  lemma BlankKeys(g: Graph, first: TicketId, n: nat)
    requires forall t :: t in g ==> t < first
    ensures forall t :: t in Blank(g, first, n) <==> t in g || first <= t < first + n
  {
    forall t: TicketId ensures t in Blank(g, first, n) <==> t in g || first <= t < first + n {
      BlankAt(g, first, n, t);
    }
  }

  /** A plan's tickets, and only they, get new dependency lists. */
  lemma {:induction false} PlannedAt(g: Graph, items: seq<PlanItem>, first: TicketId, keys: map<string, TicketId>,
                                     n: nat, t: TicketId)
    requires n <= |items| && AllKnown(items, keys, Blank(g, first, |items|).Keys)
    requires forall t :: t in g ==> t < first
    ensures t in Planned(g, items, first, keys, n) <==> t in g || first <= t < first + n
    ensures t in g ==> Planned(g, items, first, keys, n)[t] == g[t]
    ensures first <= t < first + n ==>
              Planned(g, items, first, keys, n)[t] == ResolveAll(items[t - first].deps, keys)
  {
    if n > 0 {
      PlannedAt(g, items, first, keys, n - 1, t);
    }
  }

  lemma KnownMeans(g: Graph, items: seq<PlanItem>, first: TicketId)
    requires forall t :: t in g ==> t < first
    ensures AllKnown(items, KeyMap(items, first, |items|), Blank(g, first, |items|).Keys)
            <==> AllMean(items, first, g.Keys)
  {
    var keys := KeyMap(items, first, |items|);
    BlankKeys(g, first, |items|);
    forall i, j | 0 <= i < |items| && 0 <= j < |items[i].deps|
      ensures Known(items[i].deps[j], keys, Blank(g, first, |items|).Keys)
              <==> MeansOne(items, first, items[i].deps[j], g.Keys)
    {
      var ref := items[i].deps[j];
      forall t: TicketId ensures Resolve(ref, keys) == Some(t) <==> Means(items, first, ref, t) {
        ResolveIs(items, first, ref, t);
      }
      if Resolve(ref, keys).Some? {
        assert Means(items, first, ref, Resolve(ref, keys).value);
      }
    }
  }

  lemma PlannedMeans(g: Graph, items: seq<PlanItem>, first: TicketId)
    requires forall t :: t in g ==> t < first
    requires AllKnown(items, KeyMap(items, first, |items|), Blank(g, first, |items|).Keys)
    ensures PlannedAs(g, items, first, Planned(g, items, first, KeyMap(items, first, |items|), |items|))
  {
    var keys := KeyMap(items, first, |items|);
    var h := Planned(g, items, first, keys, |items|);
    forall t: TicketId
      ensures t in h <==> t in g || first <= t < first + |items|
      ensures t in g ==> h[t] == g[t]
    {
      PlannedAt(g, items, first, keys, |items|, t);
    }
    forall i | 0 <= i < |items| ensures AsMeant(items, first, items[i].deps, h[first + i]) {
      PlannedAt(g, items, first, keys, |items|, first + i);
      ResolvedAsMeant(items, first, items[i].deps);
    }
  }

  lemma ResolvedAsMeant(items: seq<PlanItem>, first: TicketId, refs: seq<Ref>)
    requires forall j :: 0 <= j < |refs| ==> Resolve(refs[j], KeyMap(items, first, |items|)).Some?
    ensures AsMeant(items, first, refs, ResolveAll(refs, KeyMap(items, first, |items|)))
  {
    var ids := ResolveAll(refs, KeyMap(items, first, |items|));
    forall j | 0 <= j < |refs| ensures Means(items, first, refs[j], ids[j]) {
      ResolveIs(items, first, refs[j], ids[j]);
    }
  }

  /** Removing the tickets of a refused plan restores the board it started from. */
  function Unlinked(g: Graph, first: TicketId, n: nat): Graph {
    if n == 0 then g else Unlinked(g, first, n - 1) - {first + n - 1}
  }

  lemma {:induction false} UnlinkedAt(g: Graph, first: TicketId, n: nat)
    ensures forall t :: t in Unlinked(g, first, n) <==> t in g && !(first <= t < first + n)
    ensures forall t :: t in Unlinked(g, first, n) ==> Unlinked(g, first, n)[t] == g[t]
  {
    if n > 0 {
      UnlinkedAt(g, first, n - 1);
    }
  }

  lemma UnlinkRestores(g: Graph, first: TicketId, n: nat)
    requires forall t :: t in g ==> t < first
    ensures Unlinked(Blank(g, first, n), first, n) == g
  {
    UnlinkedAt(Blank(g, first, n), first, n);
    forall t: TicketId ensures t in Unlinked(Blank(g, first, n), first, n) <==> t in g
      ensures t in g ==> Unlinked(Blank(g, first, n), first, n)[t] == g[t]
    {
      BlankAt(g, first, n, t);
    }
    assert Unlinked(Blank(g, first, n), first, n).Keys == g.Keys;
  }

  /** The number after the largest in use; 1 on an empty board. */
  ghost predicate NextNumber(used: set<TicketId>, id: TicketId) {
    0 < id && (id == 1 || id - 1 in used) && forall t :: t in used ==> t < id
  }

  datatype Command =
    | CreateCommand(after: seq<TicketId>, blocks: seq<TicketId>)
    | DepCommand(id: TicketId, after: seq<TicketId>, drop: seq<TicketId>)
    | PlanCommand(items: seq<PlanItem>)

  class Board {
    var deps: Graph

    constructor ()
      ensures deps == map[] && WellFormed(deps)
    {
      deps := map[];
      RankedIsAcyclic(map[], map[]);
    }

    /** The directory listing. */
    method LoadAll() returns (order: seq<TicketId>)
      ensures Lists(order, deps)
    {
      var rest := deps.Keys;
      order := [];
      while rest != {}
        invariant rest <= deps.Keys
        invariant Covered(order, |order|, deps.Keys)
        invariant forall a :: a in deps ==> a in rest || a in order
        decreases rest
      {
        var t :| t in rest;
        CoveredSnoc(order, deps.Keys, t);
        order := order + [t];
        rest := rest - {t};
      }
    }

    /** `_alloc`: one more than the largest number in use. */
    method NextId() returns (id: TicketId)
      ensures NextNumber(deps.Keys, id)
    {
      var order := LoadAll();
      id := 1;
      for i := 0 to |order|
        invariant 0 < id && (id == 1 || id - 1 in deps) && forall j :: 0 <= j < i ==> order[j] < id
      {
        CoveredMember(order, |order|, deps.Keys, i);
        if order[i] >= id {
          id := order[i] + 1;
        }
      }
    }

    /** Report a cycle of the board with `pending` laid over it, or None exactly when there is none. */
    method CheckGraph(pending: Graph) returns (cycle: Option<seq<TicketId>>)
      ensures cycle.Some? ==> FindCycle.IsCycle(Overlay(deps, pending), cycle.value)
      ensures cycle.None? <==> Acyclic(Overlay(deps, pending))
    {
      var order := LoadAll();
      var g := Overlay(deps, pending);
      assert g.Keys == deps.Keys;
      cycle := FindCycle.FindCycle(order, g);
    }

    /** `create`: refuse unknown references; otherwise write the new ticket, check the graph with the pending
        edges, and remove the ticket again when they would close a cycle. */
    method Create(after: seq<TicketId>, blocks: seq<TicketId>, admits: TicketId -> bool) returns (r: Outcome)
      modifies this
      ensures r.NoSuchTicket? <==> exists ref :: ref in after + blocks && ref !in old(deps)
      ensures r.NoSuchTicket? || r.CycleRefused? ==> deps == old(deps)
      ensures r.Done? ==> NextNumber(old(deps).Keys, r.id) && deps.Keys == old(deps).Keys + {r.id}
      ensures r.Done? ==> deps[r.id] == after && forall t :: t in old(deps) ==>
                deps[t] == old(deps)[t] + if t in blocks then [r.id] else []
      ensures r.Done? && blocks != [] ==> Acyclic(deps) && forall t :: t in blocks ==> admits(t)
      ensures r.CycleRefused? ==>
                exists id :: NextNumber(old(deps).Keys, id)
                             && FindCycle.IsCycle(Created(old(deps), id, after, blocks), r.cycle)
      ensures r.GateRefused? ==> r.at in blocks && !admits(r.at)
      ensures r.GateRefused? ==>
                exists id :: NextNumber(old(deps).Keys, id)
                             && Between(old(deps)[id := after], deps, Created(old(deps), id, after, blocks))
      ensures !r.SelfDependency?
      ensures WellFormed(old(deps)) ==> WellFormed(deps)
    {
      var refs := after + blocks;
      for i := 0 to |refs|
        invariant forall j :: 0 <= j < i ==> refs[j] in deps
      {
        if refs[i] !in deps {
          return NoSuchTicket;
        }
      }
      assert forall d :: d in after || d in blocks ==> d in refs;
      var id := NextId();
      ghost var g := deps;
      CreatedIs(g, id, after, blocks);
      deps := deps[id := after];
      if WellFormed(g) {
        NewTicketKeepsWellFormed(g, id, after);
      }
      r := Done(id);
      if |blocks| > 0 {
        r := Block(id, after, blocks, admits, g);
      }
    }

    /** The second half of `create`: the new ticket is on the board, the blocked ones are to wait for it. */
    method Block(id: TicketId, after: seq<TicketId>, blocks: seq<TicketId>, admits: TicketId -> bool, ghost g: Graph)
      returns (r: Outcome)
      requires id !in g && deps == g[id := after] && forall t :: t in after || t in blocks ==> t in g
      modifies this
      ensures r == Done(id) || r.CycleRefused? || r.GateRefused?
      ensures r.Done? ==> deps == Created(g, id, after, blocks) && Acyclic(deps)
      ensures r.Done? ==> forall t :: t in blocks ==> admits(t)
      ensures r.CycleRefused? ==> deps == g && FindCycle.IsCycle(Created(g, id, after, blocks), r.cycle)
      ensures r.GateRefused? ==> r.at in blocks && !admits(r.at)
      ensures r.GateRefused? ==> Between(g[id := after], deps, Created(g, id, after, blocks))
      ensures WellFormed(g) ==> WellFormed(deps)
    {
      assert deps - {id} == g;
      if WellFormed(g) {
        NewTicketKeepsWellFormed(g, id, after);
      }
      var pending := BlocksPending(deps - {id}, id, blocks);
      var cycle := CheckGraph(pending);
      if cycle.Some? {
        deps := deps - {id};
        return CycleRefused(cycle.value);
      }
      r := SetPending(blocks, pending, id, admits);
      if WellFormed(g) {
        PartialRewiringKeepsWellFormed(g[id := after], deps, Created(g, id, after, blocks));
      }
    }

    /** Write the pending dependency lists one ticket at a time; the gate inside `save` may stop it. */
    method SetPending(targets: seq<TicketId>, pending: Graph, id: TicketId, admits: TicketId -> bool)
      returns (r: Outcome)
      requires pending.Keys <= deps.Keys && forall t :: t in targets <==> t in pending
      modifies this
      ensures Between(old(deps), deps, Overlay(old(deps), pending))
      ensures r == Done(id) || (r.GateRefused? && r.at in targets && !admits(r.at))
      ensures r == Done(id) ==> forall t :: t in targets ==> admits(t)
      ensures r == Done(id) ==> deps == Overlay(old(deps), pending)
    {
      ghost var g := deps;
      var written: set<TicketId> := {};
      for i := 0 to |targets|
        invariant deps.Keys == g.Keys && written <= pending.Keys
        invariant forall j :: 0 <= j < i ==> targets[j] in written
        invariant forall t :: t in written ==> deps[t] == pending[t] && admits(t)
        invariant forall t :: t in g && t !in written ==> deps[t] == g[t]
      {
        var other := targets[i];
        if other !in written {
          if !admits(other) {
            return GateRefused(other);
          }
          deps := deps[other := pending[other]];
          written := written + {other};
        }
      }
      r := Done(id);
    }

    /** `dep`: append the new references, drop the given ones, and write the list back unless it closes a cycle. */
    method Dep(id: TicketId, after: seq<TicketId>, drop: seq<TicketId>, admits: TicketId -> bool)
      returns (r: Outcome)
      modifies this
      ensures r.Done? ==> r.id == id && id in old(deps) && deps == Rewired(old(deps), id, after, drop)
      ensures !r.Done? ==> deps == old(deps)
      ensures r.NoSuchTicket? <==>
              id !in old(deps) || exists i :: 0 <= i < |after| && after[i] !in old(deps) && id !in after[..i]
      ensures r.SelfDependency? <==>
              id in old(deps) && exists i :: 0 <= i < |after| && after[i] == id
                                             && forall j :: 0 <= j < i ==> after[j] in old(deps)
      ensures !r.NoSuchTicket? && !r.SelfDependency? ==>
                id in old(deps)
                && (r.CycleRefused? <==> !Acyclic(Rewired(old(deps), id, after, drop)))
                && (r.CycleRefused? ==> FindCycle.IsCycle(Rewired(old(deps), id, after, drop), r.cycle))
                && (r.Done? ==> admits(id)) && (r.GateRefused? ==> r.at == id && !admits(id))
      ensures r.Done? ==> deps.Keys == old(deps).Keys && forall t :: t in deps && t != id ==> deps[t] == old(deps)[t]
      ensures r.Done? ==> forall x :: x in deps[id] ==> x in old(deps)[id] || x in after
      ensures r.Done? && Distinct(old(deps)[id]) ==>
                Distinct(deps[id])
                && forall x :: x in deps[id] <==> (x in old(deps)[id] || x in after) && x !in drop
      ensures WellFormed(old(deps)) ==> WellFormed(deps)
    {
      if id !in deps {
        return NoSuchTicket;
      }
      var list := deps[id];
      for i := 0 to |after|
        invariant forall j :: 0 <= j < i ==> after[j] in deps && after[j] != id
        invariant AddMissing(list, after[i..]) == AddMissing(deps[id], after)
      {
        if after[i] !in deps {
          return NoSuchTicket;
        }
        if after[i] == id {
          return SelfDependency;
        }
        assert after[i..][1..] == after[i + 1..];
        if after[i] !in list {
          list := list + [after[i]];
        }
      }
      ghost var added := list;
      for i := 0 to |drop|
        invariant DropEach(list, drop[i..]) == DropEach(added, drop)
      {
        assert drop[i..][1..] == drop[i + 1..];
        list := RemoveFirst(list, drop[i]);
      }
      assert list == DropEach(AddMissing(deps[id], after), drop);
      var cycle := CheckGraph(map[id := list]);
      assert Overlay(deps, map[id := list]) == deps[id := list];
      if cycle.Some? {
        return CycleRefused(cycle.value);
      }
      if !admits(id) {
        return GateRefused(id);
      }
      RewiredStaysClosed(deps, id, after, drop);
      RewiredMembers(deps[id], after, drop);
      deps := deps[id := list];
      r := Done(id);
    }

    /** `plan`: create every ticket blank, resolve the named dependencies, check the graph with all of them laid
        over, and only then write them; an unknown name or a cycle removes every ticket made. */
    method Plan(items: seq<PlanItem>) returns (r: Outcome, first: TicketId)
      modifies this
      ensures NextNumber(old(deps).Keys, first)
      ensures r.NoSuchTicket? <==> !AllMean(items, first, old(deps).Keys)
      ensures r.NoSuchTicket? || r.CycleRefused? ==> deps == old(deps)
      ensures r.NoSuchTicket? || r.CycleRefused? || r.Done?
      ensures r.CycleRefused? ==> exists h :: PlannedAs(old(deps), items, first, h) && FindCycle.IsCycle(h, r.cycle)
      ensures r.Done? ==> PlannedAs(old(deps), items, first, deps) && Acyclic(deps)
      ensures WellFormed(old(deps)) ==> WellFormed(deps)
    {
      first := NextId();
      ghost var g := deps;
      var keys := MakeAll(items, first);
      KnownMeans(g, items, first);
      var known, pending, targets := CollectPending(items, first, keys);
      if !known {
        RemoveMade(first, |items|);
        UnlinkRestores(g, first, |items|);
        return NoSuchTicket, first;
      }
      PlannedIsOverlay(g, items, first, keys, pending);
      PlannedMeans(g, items, first);
      var cycle := CheckGraph(pending);
      if cycle.Some? {
        RemoveMade(first, |items|);
        UnlinkRestores(g, first, |items|);
        return CycleRefused(cycle.value), first;
      }
      PendingMade(g, items, first, keys, pending);
      // New tickets are open and without an owner, which the gate never refuses.
      r := SetPending(targets, pending, first, _ => true);
      PlannedClosed(g, items, first, keys);
    }

    method MakeAll(items: seq<PlanItem>, first: TicketId) returns (keys: map<string, TicketId>)
      modifies this
      ensures deps == Blank(old(deps), first, |items|) && keys == KeyMap(items, first, |items|)
    {
      keys := map[];
      for i := 0 to |items|
        invariant keys == KeyMap(items, first, i) && deps == Blank(old(deps), first, i)
      {
        deps := deps[first + i := []];
        if items[i].key != "" {
          keys := keys[items[i].key := first + i];
        }
      }
    }

    /** Resolve every named dependency against the plan's keys and the tickets on the board. */
    method CollectPending(items: seq<PlanItem>, first: TicketId, keys: map<string, TicketId>)
      returns (known: bool, pending: Graph, targets: seq<TicketId>)
      ensures known <==> AllKnown(items, keys, deps.Keys)
      ensures known ==> PendingFor(items, first, keys, |items|, pending)
      ensures forall t :: t in targets <==> t in pending
    {
      known, pending, targets := true, map[], [];
      for i := 0 to |items|
        invariant AllKnown(items[..i], keys, deps.Keys)
        invariant PendingFor(items, first, keys, i, pending)
        invariant forall t :: t in targets <==> t in pending
      {
        for j := 0 to |items[i].deps|
          invariant forall l :: 0 <= l < j ==> Known(items[i].deps[l], keys, deps.Keys)
        {
          if !Known(items[i].deps[j], keys, deps.Keys) {
            known := false;
            return;
          }
        }
        if |items[i].deps| > 0 {
          pending := pending[first + i := ResolveAll(items[i].deps, keys)];
          targets := targets + [first + i];
        }
      }
      assert items[..|items|] == items;
    }

    method RemoveMade(first: TicketId, n: nat)
      modifies this
      ensures deps == Unlinked(old(deps), first, n)
    {
      for i := 0 to n
        invariant deps == Unlinked(old(deps), first, i)
      {
        deps := deps - {first + i};
      }
    }

    /** Any sequence of commands, refused and rolled-back ones included, keeps the board well formed. Each command
        meets a gate of its own, since what the gate lets through depends on the board at that time. */
    method Run(commands: seq<Command>, admits: seq<TicketId -> bool>)
      requires WellFormed(deps) && |admits| == |commands|
      modifies this
      ensures WellFormed(deps)
    {
      for i := 0 to |commands|
        invariant WellFormed(deps)
      {
        match commands[i] {
          case CreateCommand(after, blocks) =>
            var _ := Create(after, blocks, admits[i]);
          case DepCommand(id, after, drop) =>
            var _ := Dep(id, after, drop, admits[i]);
          case PlanCommand(items) =>
            var _, _ := Plan(items);
        }
      }
    }
  }

  lemma CoveredSnoc(s: seq<TicketId>, keys: set<TicketId>, t: TicketId)
    requires Covered(s, |s|, keys) && t in keys
    ensures Covered(s + [t], |s| + 1, keys)
  {
    CoveredPrefix(s, s + [t], |s|, keys);
  }

  lemma {:induction false} CoveredPrefix(s: seq<TicketId>, r: seq<TicketId>, n: nat, keys: set<TicketId>)
    requires n <= |s| <= |r| && s == r[..|s|] && Covered(s, n, keys)
    ensures Covered(r, n, keys)
  {
    if n > 0 {
      CoveredPrefix(s, r, n - 1, keys);
    }
  }

  lemma RewiredStaysClosed(g: Graph, id: TicketId, after: seq<TicketId>, drop: seq<TicketId>)
    requires id in g && forall j :: 0 <= j < |after| ==> after[j] in g
    ensures Closed(g) ==> Closed(Rewired(g, id, after, drop))
  {
    if Closed(g) {
      forall a, b | a in Rewired(g, id, after, drop) && b in Rewired(g, id, after, drop)[a] ensures b in g {
        if a == id {
          AddMissingMembers(g[id], after, b);
          DropEachMembers(AddMissing(g[id], after), drop, b);
        }
      }
    }
  }

  /** The pending lists of a plan's first `n` items; an item without dependencies has none. */
  ghost predicate PendingFor(items: seq<PlanItem>, first: TicketId, keys: map<string, TicketId>, n: nat,
                             pending: Graph)
    requires n <= |items|
    requires forall k, j :: 0 <= k < n && 0 <= j < |items[k].deps| ==> Resolve(items[k].deps[j], keys).Some?
  {
    && (forall t :: t in pending ==> first <= t < first + n && |items[t - first].deps| > 0)
    && (forall i :: 0 <= i < n && |items[i].deps| > 0 ==>
                      first + i in pending && pending[first + i] == ResolveAll(items[i].deps, keys))
  }

  lemma PendingMade(g: Graph, items: seq<PlanItem>, first: TicketId, keys: map<string, TicketId>, pending: Graph)
    requires forall t :: t in g ==> t < first
    requires AllKnown(items, keys, Blank(g, first, |items|).Keys)
    requires PendingFor(items, first, keys, |items|, pending)
    ensures pending.Keys <= Blank(g, first, |items|).Keys
  {
    BlankKeys(g, first, |items|);
  }

  ghost predicate SameAt(g: Graph, h: Graph, t: TicketId) {
    (t in g <==> t in h) && (t in g ==> g[t] == h[t])
  }

  lemma SameGraph(g: Graph, h: Graph)
    requires forall t :: SameAt(g, h, t)
    ensures g == h
  {
    forall t: TicketId ensures t in g <==> t in h ensures t in g ==> g[t] == h[t] {
      assert SameAt(g, h, t);
    }
  }

  lemma OverlayAt(g: Graph, items: seq<PlanItem>, first: TicketId, keys: map<string, TicketId>, pending: Graph,
                  t: TicketId)
    requires forall t :: t in g ==> t < first
    requires AllKnown(items, keys, Blank(g, first, |items|).Keys)
    requires PendingFor(items, first, keys, |items|, pending)
    ensures SameAt(Overlay(Blank(g, first, |items|), pending), Planned(g, items, first, keys, |items|), t)
  {
    BlankAt(g, first, |items|, t);
    PlannedAt(g, items, first, keys, |items|, t);
    if first <= t < first + |items| {
      var i := t - first;
      if |items[i].deps| > 0 {
        assert first + i in pending && pending[first + i] == ResolveAll(items[i].deps, keys);
      } else {
        assert t !in pending;
      }
    }
  }

  lemma PlannedIsOverlay(g: Graph, items: seq<PlanItem>, first: TicketId, keys: map<string, TicketId>, pending: Graph)
    requires forall t :: t in g ==> t < first
    requires AllKnown(items, keys, Blank(g, first, |items|).Keys)
    requires PendingFor(items, first, keys, |items|, pending)
    ensures Overlay(Blank(g, first, |items|), pending) == Planned(g, items, first, keys, |items|)
  {
    var o := Overlay(Blank(g, first, |items|), pending);
    var p := Planned(g, items, first, keys, |items|);
    forall t ensures SameAt(o, p, t) {
      OverlayAt(g, items, first, keys, pending, t);
    }
    SameGraph(o, p);
  }

  lemma PlannedClosed(g: Graph, items: seq<PlanItem>, first: TicketId, keys: map<string, TicketId>)
    requires forall t :: t in g ==> t < first
    requires AllKnown(items, keys, Blank(g, first, |items|).Keys)
    ensures Closed(g) ==> Closed(Planned(g, items, first, keys, |items|))
  {
    var p := Planned(g, items, first, keys, |items|);
    if Closed(g) {
      forall a, b | a in p && b in p[a] ensures b in p {
        BlankAt(g, first, |items|, b);
        PlannedAt(g, items, first, keys, |items|, a);
        PlannedAt(g, items, first, keys, |items|, b);
        if a !in g {
          var deps := items[a - first].deps;
          var j :| 0 <= j < |p[a]| && p[a][j] == b;
          assert Known(deps[j], keys, Blank(g, first, |items|).Keys);
        }
      }
    }
  }

  /** `unblocked`: in board order, every open ticket that waits for released tickets only. */
  method Unblocked(order: seq<TicketId>, g: Graph, open: set<TicketId>, released: set<TicketId>)
    returns (ready: seq<TicketId>)
    requires Lists(order, g)
    ensures forall t :: t in ready <==> t in g && t in open && forall d :: d in g[t] ==> d in released
    ensures WellFormed(g) && open <= g.Keys && open != {} && (forall a :: a in g ==> a in open || a in released)
            ==> |ready| > 0
  {
    ready := [];
    for i := 0 to |order|
      invariant forall t :: t in ready <==>
                            t in order[..i] && t in g && t in open && forall d :: d in g[t] ==> d in released
    {
      var t := order[i];
      CoveredMember(order, |order|, g.Keys, i);
      if t in open && forall d :: d in g[t] ==> d in released {
        ready := ready + [t];
      }
      assert order[..i + 1] == order[..i] + [t];
    }
    assert order[..|order|] == order;
    if WellFormed(g) && open <= g.Keys && open != {} && forall a :: a in g ==> a in open || a in released {
      var t := SomeTicketIsReady(g, open, released);
      assert t in ready;
    }
  }
}
