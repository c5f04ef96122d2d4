/** Ordering the commits of a merge so that parents are merged before their descendants. */
module Ancestry {
  import opened Sequences
  import opened Wrappers

  type Sha = string
  type Relation = (Sha, Sha) -> bool

  /** What git guarantees of `merge-base --is-ancestor` on distinct commits. */
  ghost predicate AncestorOrder(anc: Relation) {
    && (forall a, b, c :: anc(a, b) && anc(b, c) ==> anc(a, c))
    && (forall a, b :: anc(a, b) && anc(b, a) ==> a == b)
  }

  /** Every ancestor comes before each of its descendants. */
  ghost predicate AncestorsFirst(s: seq<Sha>, anc: Relation) {
    forall i, j :: 0 <= i < |s| && 0 <= j < |s| && i != j && anc(s[i], s[j]) ==> i < j
  }

  // ---- what the loops compute ----

  /** The distinct commits the given names resolve to, in order of first appearance. */
  function Unique(names: seq<string>, resolve: string -> Option<Sha>): seq<Sha> {
    if |names| == 0 then []
    else
      var u := Unique(names[..|names| - 1], resolve);
      var r := resolve(names[|names| - 1]);
      if r.Some? && r.value != "" && r.value !in u then u + [r.value] else u
  }

  /** No other member of `among` is an ancestor of `c`. */
  predicate IsRoot(c: Sha, among: seq<Sha>, anc: Relation) {
    forall i :: 0 <= i < |among| ==> !(among[i] != c && anc(among[i], c))
  }

  function Roots(cands: seq<Sha>, among: seq<Sha>, anc: Relation): seq<Sha> {
    if |cands| == 0 then []
    else
      var r := Roots(cands[..|cands| - 1], among, anc);
      if IsRoot(cands[|cands| - 1], among, anc) then r + [cands[|cands| - 1]] else r
  }

  function Without(s: seq<Sha>, gone: seq<Sha>): seq<Sha> {
    if |s| == 0 then []
    else
      var r := Without(s[..|s| - 1], gone);
      if s[|s| - 1] in gone then r else r + [s[|s| - 1]]
  }

  /** Layer by layer: all current roots in their order, then the rest. */
  function Peel(remaining: seq<Sha>, anc: Relation): seq<Sha>
    decreases |remaining|
  {
    var roots := Roots(remaining, remaining, anc);
    WithoutShrinks(remaining, roots, anc);
    if |roots| == 0 then remaining else roots + Peel(Without(remaining, roots), anc)
  }

  lemma {:induction false} UniqueDistinct(names: seq<string>, resolve: string -> Option<Sha>)
    ensures Distinct(Unique(names, resolve))
    ensures forall c :: c in Unique(names, resolve) <==>
                        c != "" && exists i :: 0 <= i < |names| && resolve(names[i]) == Some(c)
  {
    if |names| > 0 {
      var n := |names| - 1;
      UniqueDistinct(names[..n], resolve);
      forall c ensures c in Unique(names, resolve) <==>
                       c != "" && exists i :: 0 <= i < |names| && resolve(names[i]) == Some(c)
      {
        if c in Unique(names[..n], resolve) {
          var i :| 0 <= i < n && resolve(names[..n][i]) == Some(c);
          assert resolve(names[i]) == Some(c);
        } else if i :| 0 <= i < |names| && resolve(names[i]) == Some(c) {
          assert i < n ==> resolve(names[..n][i]) == Some(c);
        }
      }
    }
  }

  lemma {:induction false} RootsMembers(cands: seq<Sha>, among: seq<Sha>, anc: Relation)
    ensures forall c :: c in Roots(cands, among, anc) <==> c in cands && IsRoot(c, among, anc)
    ensures Distinct(cands) ==> Distinct(Roots(cands, among, anc))
  {
    if |cands| > 0 {
      RootsMembers(cands[..|cands| - 1], among, anc);
      assert cands == cands[..|cands| - 1] + [cands[|cands| - 1]];
    }
  }

  lemma {:induction false} WithoutMembers(s: seq<Sha>, gone: seq<Sha>)
    ensures forall c :: c in Without(s, gone) <==> c in s && c !in gone
    ensures Distinct(s) ==> Distinct(Without(s, gone))
    ensures |Without(s, gone)| <= |s|
    ensures (exists c :: c in gone && c in s) ==> |Without(s, gone)| < |s|
  {
    if |s| > 0 {
      WithoutMembers(s[..|s| - 1], gone);
      assert s == s[..|s| - 1] + [s[|s| - 1]];
    }
  }

  lemma WithoutShrinks(remaining: seq<Sha>, roots: seq<Sha>, anc: Relation)
    requires roots == Roots(remaining, remaining, anc)
    ensures |roots| > 0 ==> |Without(remaining, roots)| < |remaining|
  {
    RootsMembers(remaining, remaining, anc);
    WithoutMembers(remaining, roots);
    if |roots| > 0 {
      assert roots[0] in roots;
    }
  }

  /** A nonempty list of commits always has a root: following ancestors inside the list cannot go on forever. */
  lemma {:induction false} RootExists(among: seq<Sha>, todo: seq<Sha>, best: Sha, anc: Relation)
    returns (root: Sha)
    requires AncestorOrder(anc) && best in among && best !in todo
    requires forall c :: c in todo ==> c in among
    requires forall c :: c in among && c != best && anc(c, best) ==> c in todo
    ensures root in among && IsRoot(root, among, anc)
    decreases |todo|
  {
    if i :| 0 <= i < |among| && among[i] != best && anc(among[i], best) {
      var c := among[i];
      var rest := Without(todo, [c]);
      WithoutMembers(todo, [c]);
      assert c in [c] && c in todo;
      forall d | d in among && d != c && anc(d, c) ensures d in rest {
        assert anc(d, best);
        assert d != best;
      }
      root := RootExists(among, rest, c, anc);
    } else {
      root := best;
    }
  }

  /** The no-roots fallback is never taken. */
  lemma AlwaysARoot(among: seq<Sha>, anc: Relation)
    requires AncestorOrder(anc) && |among| > 0
    ensures |Roots(among, among, anc)| > 0
  {
    var start := among[0];
    WithoutMembers(among, [start]);
    assert start in [start];
    var root := RootExists(among, Without(among, [start]), start, anc);
    RootsMembers(among, among, anc);
  }

  lemma {:induction false} PeelMembers(remaining: seq<Sha>, anc: Relation, c: Sha)
    ensures c in Peel(remaining, anc) <==> c in remaining
    decreases |remaining|
  {
    var roots := Roots(remaining, remaining, anc);
    if |roots| > 0 {
      WithoutShrinks(remaining, roots, anc);
      RootsMembers(remaining, remaining, anc);
      WithoutMembers(remaining, roots);
      PeelMembers(Without(remaining, roots), anc, c);
    }
  }

  /** Peeling rearranges its input: the same commits, none twice. */
  lemma {:induction false} PeelRearranges(remaining: seq<Sha>, anc: Relation)
    requires Distinct(remaining)
    ensures Distinct(Peel(remaining, anc))
    ensures forall c :: c in Peel(remaining, anc) <==> c in remaining
    decreases |remaining|
  {
    forall c ensures c in Peel(remaining, anc) <==> c in remaining {
      PeelMembers(remaining, anc, c);
    }
    var roots := Roots(remaining, remaining, anc);
    if |roots| > 0 {
      WithoutShrinks(remaining, roots, anc);
      RootsMembers(remaining, remaining, anc);
      var rest := Without(remaining, roots);
      WithoutMembers(remaining, roots);
      PeelRearranges(rest, anc);
      var tail := Peel(rest, anc);
      forall i | 0 <= i < |tail| ensures tail[i] !in roots {
        PeelMembers(rest, anc, tail[i]);
      }
      DistinctConcat(roots, tail);
    }
  }

  /** The result is a linear extension of the ancestor order. */
  lemma {:induction false} PeelPutsAncestorsFirst(remaining: seq<Sha>, anc: Relation)
    requires Distinct(remaining) && AncestorOrder(anc)
    ensures AncestorsFirst(Peel(remaining, anc), anc)
    decreases |remaining|
  {
    if |remaining| > 0 {
      var roots := Roots(remaining, remaining, anc);
      AlwaysARoot(remaining, anc);
      WithoutShrinks(remaining, roots, anc);
      RootsMembers(remaining, remaining, anc);
      WithoutMembers(remaining, roots);
      var rest := Without(remaining, roots);
      PeelRearranges(rest, anc);
      PeelPutsAncestorsFirst(rest, anc);
      var tail := Peel(rest, anc);
      var p := Peel(remaining, anc);
      assert p == roots + tail;
      forall i, j | 0 <= i < |p| && 0 <= j < |p| && i != j && anc(p[i], p[j]) ensures i < j {
        PeelRearranges(remaining, anc);
        if j < |roots| {
          RootHasNoAncestor(remaining, p[j], p[i], anc);
        } else if |roots| <= i {
          assert anc(tail[i - |roots|], tail[j - |roots|]);
        }
      }
    }
  }

  lemma RootHasNoAncestor(among: seq<Sha>, root: Sha, other: Sha, anc: Relation)
    requires IsRoot(root, among, anc) && other in among && other != root
    ensures !anc(other, root)
  {
    var i :| 0 <= i < |among| && among[i] == other;
  }

  lemma {:induction false} WithoutNothing(s: seq<Sha>, gone: seq<Sha>)
    requires forall c :: c in s ==> c !in gone
    ensures Without(s, gone) == s
  {
    if |s| > 0 {
      WithoutNothing(s[..|s| - 1], gone);
    }
  }

  lemma {:induction false} WithoutConcat(s: seq<Sha>, t: seq<Sha>, gone: seq<Sha>)
    ensures Without(s + t, gone) == Without(s, gone) + Without(t, gone)
  {
    if |t| == 0 {
      assert s + t == s;
    } else {
      assert (s + t)[..|s + t| - 1] == s + t[..|t| - 1];
      WithoutConcat(s, t[..|t| - 1], gone);
    }
  }

  lemma RemovesOne(s: seq<Sha>, i: nat)
    requires i < |s| && Distinct(s)
    ensures s[..i] + s[i + 1..] == Without(s, [s[i]])
  {
    assert s == s[..i] + [s[i]] + s[i + 1..];
    WithoutConcat(s[..i] + [s[i]], s[i + 1..], [s[i]]);
    WithoutConcat(s[..i], [s[i]], [s[i]]);
    WithoutNothing(s[..i], [s[i]]);
    WithoutNothing(s[i + 1..], [s[i]]);
  }

  lemma {:induction false} WithoutOneMore(s: seq<Sha>, gone: seq<Sha>, c: Sha)
    ensures Without(Without(s, gone), [c]) == Without(s, gone + [c])
  {
    if |s| > 0 {
      var x := s[|s| - 1];
      WithoutOneMore(s[..|s| - 1], gone, c);
      assert x in gone + [c] <==> x in gone || x == c;
      if x !in gone {
        assert Without(s, gone) == Without(s[..|s| - 1], gone) + [x];
      }
    }
  }

  // ---- the code ----

  /** `list.remove`. */
  method Remove(s: seq<Sha>, c: Sha) returns (r: seq<Sha>)
    requires c in s && Distinct(s)
    ensures r == Without(s, [c])
  {
    var i := 0;
    while s[i] != c
      invariant i < |s| && c in s[i..]
      decreases |s| - i
    {
      i := i + 1;
    }
    r := s[..i] + s[i + 1..];
    RemovesOne(s, i);
  }

  /** Oldest-first unique commits. Names that do not resolve are skipped. `fellBack` tells whether the
      no-roots branch, which appends what is left in input order, was taken. */
  method OrderByAncestry(names: seq<string>, resolve: string -> Option<Sha>, anc: Relation)
    returns (ordered: seq<Sha>, fellBack: bool)
    ensures ordered == Peel(Unique(names, resolve), anc)
    ensures Distinct(ordered)
    ensures forall c :: c in ordered <==> c in Unique(names, resolve)
    ensures AncestorOrder(anc) ==> AncestorsFirst(ordered, anc) && !fellBack
  {
    var unique := ResolveUnique(names, resolve);
    UniqueDistinct(names, resolve);
    PeelRearranges(unique, anc);
    if AncestorOrder(anc) {
      PeelPutsAncestorsFirst(unique, anc);
    }
    ordered, fellBack := PeelLayers(unique, anc);
  }

  method ResolveUnique(names: seq<string>, resolve: string -> Option<Sha>) returns (unique: seq<Sha>)
    ensures unique == Unique(names, resolve)
  {
    unique := [];
    var seen: set<Sha> := {};
    for i := 0 to |names|
      invariant unique == Unique(names[..i], resolve)
      invariant forall c :: c in seen <==> c in unique
    {
      assert names[..i + 1][..i] == names[..i];
      var full := resolve(names[i]);
      if full.Some? && full.value != "" && full.value !in seen {
        seen := seen + {full.value};
        unique := unique + [full.value];
      }
    }
    assert names[..|names|] == names;
  }

  lemma LayerStep(ordered: seq<Sha>, remaining: seq<Sha>, anc: Relation)
    requires Distinct(remaining) && |remaining| > 0
    ensures var roots := Roots(remaining, remaining, anc);
            var rest := Without(remaining, roots);
            && (AncestorOrder(anc) ==> |roots| > 0)
            && (|roots| == 0 ==> Peel(remaining, anc) == remaining)
            && (|roots| > 0 ==> Distinct(rest) && |rest| < |remaining|
                                && ordered + Peel(remaining, anc) == (ordered + roots) + Peel(rest, anc))
  {
    var roots := Roots(remaining, remaining, anc);
    WithoutShrinks(remaining, roots, anc);
    WithoutMembers(remaining, roots);
    if AncestorOrder(anc) {
      AlwaysARoot(remaining, anc);
    }
  }

  method PeelLayers(unique: seq<Sha>, anc: Relation) returns (ordered: seq<Sha>, fellBack: bool)
    requires Distinct(unique)
    ensures ordered == Peel(unique, anc)
    ensures AncestorOrder(anc) ==> !fellBack
  {
    ordered, fellBack := [], false;
    var remaining := unique;
    while |remaining| > 0
      invariant Distinct(remaining)
      invariant Peel(unique, anc) == ordered + Peel(remaining, anc)
      invariant !fellBack
      decreases |remaining|
    {
      var roots := FindRoots(remaining, anc);
      LayerStep(ordered, remaining, anc);
      if |roots| == 0 {
        ordered := ordered + remaining;
        fellBack := true;
        return;
      }
      ordered, remaining := TakeRoots(ordered, remaining, roots, anc);
    }
  }

  /** The candidates no other remaining commit is an ancestor of. */
  method FindRoots(remaining: seq<Sha>, anc: Relation) returns (roots: seq<Sha>)
    ensures roots == Roots(remaining, remaining, anc)
  {
    roots := [];
    for i := 0 to |remaining|
      invariant roots == Roots(remaining[..i], remaining, anc)
    {
      assert remaining[..i + 1][..i] == remaining[..i];
      var below := false;
      for j := 0 to |remaining|
        invariant below <==> exists k :: 0 <= k < j && remaining[k] != remaining[i] && anc(remaining[k], remaining[i])
      {
        if remaining[j] != remaining[i] && anc(remaining[j], remaining[i]) {
          below := true;
        }
      }
      if !below {
        roots := roots + [remaining[i]];
      }
    }
    assert remaining[..|remaining|] == remaining;
  }

  lemma RootsStandApart(remaining: seq<Sha>, roots: seq<Sha>, anc: Relation, i: nat)
    requires Distinct(remaining) && roots == Roots(remaining, remaining, anc) && i < |roots|
    ensures roots[i] in remaining && roots[i] !in roots[..i]
    ensures roots[..i + 1] == roots[..i] + [roots[i]]
  {
    RootsMembers(remaining, remaining, anc);
    assert roots[i] in roots;
  }

  lemma NextGone(remaining: seq<Sha>, gone: seq<Sha>, c: Sha)
    requires Distinct(remaining) && c in remaining && c !in gone
    ensures c in Without(remaining, gone) && Distinct(Without(remaining, gone))
    ensures Without(Without(remaining, gone), [c]) == Without(remaining, gone + [c])
  {
    WithoutMembers(remaining, gone);
    WithoutOneMore(remaining, gone, c);
  }

  method TakeRoots(ordered0: seq<Sha>, remaining0: seq<Sha>, roots: seq<Sha>, anc: Relation)
    returns (ordered: seq<Sha>, remaining: seq<Sha>)
    requires Distinct(remaining0) && roots == Roots(remaining0, remaining0, anc)
    ensures ordered == ordered0 + roots && remaining == Without(remaining0, roots)
  {
    ordered, remaining := ordered0, remaining0;
    WithoutNothing(remaining0, []);
    for i := 0 to |roots|
      invariant ordered == ordered0 + roots[..i]
      invariant remaining == Without(remaining0, roots[..i])
    {
      RootsStandApart(remaining0, roots, anc, i);
      NextGone(remaining0, roots[..i], roots[i]);
      ConcatAssoc(ordered0, roots[..i], [roots[i]]);
      ordered := ordered + [roots[i]];
      remaining := Remove(remaining, roots[i]);
    }
    assert roots[..|roots|] == roots;
  }
}
