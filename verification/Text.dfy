/** Stripping and joining of strings, as the host language does them. */
module Text {
  import opened Sequences

  /** The characters the host language strips. */
  predicate IsSpace(c: char) {
    || c == ' ' || '\t' <= c <= '\r' || '\U{1C}' <= c <= '\U{1F}' || c == '\U{85}' || c == '\U{A0}' || c == '\U{1680}'
    || '\U{2000}' <= c <= '\U{200A}' || c == '\U{2028}' || c == '\U{2029}' || c == '\U{202F}' || c == '\U{205F}'
    || c == '\U{3000}'
  }

  function TrimLeft(s: string): string {
    if s != "" && IsSpace(s[0]) then TrimLeft(s[1..]) else s
  }

  function TrimRight(s: string): string {
    if s != "" && IsSpace(s[|s| - 1]) then TrimRight(s[..|s| - 1]) else s
  }

  function Trim(s: string): string {
    TrimRight(TrimLeft(s))
  }

  /** Nothing to strip at either end. */
  predicate Trimmed(s: string) {
    s != "" ==> !IsSpace(s[0]) && !IsSpace(s[|s| - 1])
  }

  lemma {:induction false} TrimLeftEnds(s: string)
    ensures TrimLeft(s) != "" ==> !IsSpace(TrimLeft(s)[0])
    decreases |s|
  {
    if s != "" && IsSpace(s[0]) {
      TrimLeftEnds(s[1..]);
    }
  }

  lemma {:induction false} TrimRightEnds(s: string)
    ensures var t := TrimRight(s);
      t != "" ==> !IsSpace(t[|t| - 1]) && s != "" && t[0] == s[0]
    decreases |s|
  {
    if s != "" && IsSpace(s[|s| - 1]) {
      TrimRightEnds(s[..|s| - 1]);
    }
  }

  lemma TrimIsTrimmed(s: string)
    ensures Trimmed(Trim(s))
  {
    TrimLeftEnds(s);
    TrimRightEnds(TrimLeft(s));
  }

  lemma TrimKeepsTrimmed(s: string)
    requires Trimmed(s)
    ensures Trim(s) == s
  {}

  lemma TrimIdempotent(s: string)
    ensures Trim(Trim(s)) == Trim(s)
  {
    TrimIsTrimmed(s);
    TrimKeepsTrimmed(Trim(s));
  }

  // ---- joining with a bar ----

  function JoinBars(parts: seq<string>): string {
    if parts == [] then "" else if |parts| == 1 then parts[0] else parts[0] + "|" + JoinBars(parts[1..])
  }

  /** A bar that could stand between two stripped parts: no white space beside it. */
  predicate LooseBar(s: string, i: nat) {
    i < |s| && s[i] == '|' && (i == 0 || !IsSpace(s[i - 1])) && (i == |s| - 1 || !IsSpace(s[i + 1]))
  }

  /** No bar at which the text could be cut. */
  ghost predicate Tight(s: string) {
    forall i: nat :: !LooseBar(s, i)
  }

  /** Tight, or nothing but a bar. */
  ghost predicate Firm(s: string) {
    Tight(s) || s == "|"
  }

  /** What a part of a fingerprint looks like. */
  predicate Stripped(s: string) {
    s != "" && Trimmed(s)
  }

  ghost predicate AllStripped(parts: seq<string>) {
    forall i :: 0 <= i < |parts| ==> Stripped(parts[i])
  }

  /** The first loose bar from `i` on, or the end. */
  function FirstBar(s: string, i: nat): (r: nat)
    requires i <= |s|
    ensures i <= r <= |s| && (r < |s| ==> LooseBar(s, r)) && forall j: nat :: i <= j < r ==> !LooseBar(s, j)
    decreases |s| - i
  {
    if i == |s| || LooseBar(s, i) then i else FirstBar(s, i + 1)
  }

  /** The text cut at every loose bar. */
  function Pieces(s: string): (r: seq<string>)
    ensures r != []
    decreases |s|
  {
    var i := FirstBar(s, 0);
    if i == |s| then [s] else [s[..i]] + Pieces(s[i + 1..])
  }

  function AllPieces(parts: seq<string>): seq<string> {
    if parts == [] then [] else Pieces(parts[0]) + AllPieces(parts[1..])
  }

  lemma {:induction false} JoinPieces(s: string)
    ensures JoinBars(Pieces(s)) == s
    decreases |s|
  {
    var i := FirstBar(s, 0);
    if i < |s| {
      JoinPieces(s[i + 1..]);
      assert Pieces(s)[1..] == Pieces(s[i + 1..]);
      assert s == s[..i] + "|" + s[i + 1..];
    }
  }

  /** Around the bar between two stripped texts nothing changes, and the bar itself is loose. */
  lemma LooseBarJoin(a: string, r: string, i: nat)
    requires Trimmed(a) && r != "" && !IsSpace(r[0])
    ensures var s := a + "|" + r;
      && (i < |a| ==> (LooseBar(s, i) <==> LooseBar(a, i)))
      && LooseBar(s, |a|)
  {
    var s := a + "|" + r;
    assert s[|a|] == '|' && (a != "" ==> s[|a| - 1] == a[|a| - 1]) && s[|a| + 1] == r[0];
    if i < |a| {
      assert s[i] == a[i] && (i > 0 ==> s[i - 1] == a[i - 1]) && (i + 1 < |a| ==> s[i + 1] == a[i + 1]);
    }
  }

  lemma FirstBarJoin(a: string, r: string)
    requires Trimmed(a) && r != "" && !IsSpace(r[0])
    ensures FirstBar(a + "|" + r, 0) == FirstBar(a, 0)
  {
    var i, j := FirstBar(a, 0), FirstBar(a + "|" + r, 0);
    LooseBarJoin(a, r, i);
    LooseBarJoin(a, r, j);
  }

  lemma CutPieces(s: string, i: nat)
    requires FirstBar(s, 0) == i < |s|
    ensures Pieces(s) == [s[..i]] + Pieces(s[i + 1..])
  {}

  lemma AfterBar(a: string, r: string, i: nat)
    requires Trimmed(a) && LooseBar(a, i)
    ensures Trimmed(a[i + 1..])
    ensures (a + "|" + r)[..i] == a[..i] && (a + "|" + r)[i + 1..] == a[i + 1..] + "|" + r
  {
    var c := a[i + 1..];
    assert c != "" ==> c[|c| - 1] == a[|a| - 1];
  }

  lemma {:induction false} PiecesConcat(a: string, r: string)
    requires Trimmed(a) && r != "" && !IsSpace(r[0])
    ensures Pieces(a + "|" + r) == Pieces(a) + Pieces(r)
    decreases |a|
  {
    var s, i := a + "|" + r, FirstBar(a, 0);
    FirstBarJoin(a, r);
    CutPieces(s, i);
    if i == |a| {
      assert s[..i] == a && s[i + 1..] == r;
    } else {
      AfterBar(a, r, i);
      PiecesConcat(a[i + 1..], r);
      ConcatAssoc([a[..i]], Pieces(a[i + 1..]), Pieces(r));
    }
  }

  lemma JoinStarts(parts: seq<string>)
    requires parts != [] && AllStripped(parts)
    ensures JoinBars(parts) != "" && !IsSpace(JoinBars(parts)[0])
  {
    assert Stripped(parts[0]);
  }

  lemma {:induction false} PiecesOfJoin(parts: seq<string>)
    requires parts != [] && AllStripped(parts)
    ensures Pieces(JoinBars(parts)) == AllPieces(parts)
    decreases |parts|
  {
    var rest := parts[1..];
    if rest == [] {
      assert AllPieces(rest) == [] && Pieces(parts[0]) + [] == Pieces(parts[0]);
    } else {
      assert AllStripped(rest) by {
        assert forall i :: 0 <= i < |rest| ==> rest[i] == parts[i + 1];
      }
      PiecesOfJoin(rest);
      JoinStarts(rest);
      assert Stripped(parts[0]);
      PiecesConcat(parts[0], JoinBars(rest));
    }
  }

  // ---- how many parts a list of pieces can make ----

  /** A part takes a piece that is not empty, or two. */
  function Weight(pieces: seq<string>): nat {
    if pieces == [] then 0 else (if pieces[0] == "" then 1 else 2) + Weight(pieces[1..])
  }

  lemma {:induction false} WeightConcat(a: seq<string>, b: seq<string>)
    ensures Weight(a + b) == Weight(a) + Weight(b)
    decreases |a|
  {
    if a == [] {
      assert a + b == b;
    } else {
      WeightConcat(a[1..], b);
      assert (a + b)[1..] == a[1..] + b;
    }
  }

  lemma CutWeight(s: string)
    requires FirstBar(s, 0) < |s|
    ensures var i := FirstBar(s, 0);
      Weight(Pieces(s)) == (if i == 0 then 1 else 2) + Weight(Pieces(s[i + 1..]))
  {
    var i := FirstBar(s, 0);
    assert Pieces(s)[0] == s[..i] && Pieces(s)[1..] == Pieces(s[i + 1..]);
  }

  lemma WholeWeight(s: string)
    requires FirstBar(s, 0) == |s|
    ensures Pieces(s) == [s] && Weight(Pieces(s)) == if s == "" then 1 else 2
  {
    assert [s][1..] == [];
  }

  lemma PiecesWeigh(s: string)
    ensures Weight(Pieces(s)) >= 1 && (Weight(Pieces(s)) == 1 <==> s == "")
  {
    if FirstBar(s, 0) == |s| {
      WholeWeight(s);
    } else {
      CutWeight(s);
      var t := s[FirstBar(s, 0) + 1..];
      assert Pieces(t) != [];
    }
  }

  lemma BarPieces()
    ensures Pieces("|") == ["", ""] && !Tight("|")
  {
    var s := "|";
    assert LooseBar(s, 0);
    assert FirstBar(s, 0) == 0 && s[..0] == "" && s[1..] == "";
    WholeWeight("");
    assert [""] + [""] == ["", ""];
  }

  lemma PartWeight(s: string)
    requires Stripped(s)
    ensures Weight(Pieces(s)) >= 2 && (Weight(Pieces(s)) == 2 <==> Firm(s))
    ensures Firm(s) ==> Pieces(s) == if s == "|" then ["", ""] else [s]
  {
    var i := FirstBar(s, 0);
    BarPieces();
    if i == |s| {
      WholeWeight(s);
      assert Tight(s);
    } else {
      assert LooseBar(s, i);
      CutWeight(s);
      PiecesWeigh(s[i + 1..]);
      assert s[i + 1..] == "" && i == 0 ==> s == "|";
    }
  }

  lemma {:induction false} PartsWeigh(parts: seq<string>)
    requires AllStripped(parts)
    ensures Weight(AllPieces(parts)) >= 2 * |parts|
    ensures Weight(AllPieces(parts)) == 2 * |parts| <==> forall i :: 0 <= i < |parts| ==> Firm(parts[i])
    decreases |parts|
  {
    if parts != [] {
      var rest := parts[1..];
      assert forall i :: 0 <= i < |rest| ==> rest[i] == parts[i + 1];
      assert forall i :: 1 <= i < |parts| ==> parts[i] == rest[i - 1];
      assert Stripped(parts[0]);
      PartsWeigh(rest);
      PartWeight(parts[0]);
      WeightConcat(Pieces(parts[0]), AllPieces(rest));
    }
  }

  lemma {:induction false} FirmParts(a: seq<string>, b: seq<string>)
    requires |a| == |b| && AllStripped(a) && AllStripped(b) && AllPieces(a) == AllPieces(b)
    requires forall i :: 0 <= i < |a| ==> Firm(a[i]) && Firm(b[i])
    ensures a == b
    decreases |a|
  {
    if a != [] {
      var c, d := a[1..], b[1..];
      assert forall i :: 0 <= i < |c| ==> c[i] == a[i + 1] && d[i] == b[i + 1];
      assert Stripped(a[0]) && Stripped(b[0]) && Firm(a[0]) && Firm(b[0]);
      PartWeight(a[0]);
      PartWeight(b[0]);
      SameHead(Pieces(a[0]), AllPieces(c), Pieces(b[0]), AllPieces(d), a[0], b[0]);
      FirmParts(c, d);
      assert a == [a[0]] + c && b == [b[0]] + d;
    }
  }

  lemma SameHead(p: seq<string>, r: seq<string>, q: seq<string>, t: seq<string>, a: string, b: string)
    requires a != "" && b != "" && p + r == q + t
    requires p == (if a == "|" then ["", ""] else [a]) && q == (if b == "|" then ["", ""] else [b])
    ensures a == b && r == t
  {
    assert (p + r)[0] == p[0] && (q + t)[0] == q[0];
    assert (p + r)[|p|..] == r && (q + t)[|q|..] == t;
  }

  /** On stripped parts joining is injective as soon as one side is firm: the other one then is, too. */
  lemma JoinInjective(a: seq<string>, b: seq<string>)
    requires |a| == |b| && AllStripped(a) && AllStripped(b) && JoinBars(a) == JoinBars(b)
    requires forall i :: 0 <= i < |a| ==> Firm(a[i])
    ensures a == b
  {
    if a != [] {
      PiecesOfJoin(a);
      PiecesOfJoin(b);
    }
    PartsWeigh(a);
    PartsWeigh(b);
    FirmParts(a, b);
  }

  lemma TailWeighs(a: seq<string>)
    requires a != [] && AllStripped(a)
    ensures AllStripped(a[1..]) && Pieces(JoinBars(a)) == Pieces(a[0]) + AllPieces(a[1..])
    ensures Weight(Pieces(JoinBars(a))) == Weight(Pieces(a[0])) + Weight(AllPieces(a[1..]))
    ensures Weight(AllPieces(a[1..])) >= 2 * (|a| - 1)
    ensures Weight(AllPieces(a[1..])) == 2 * (|a| - 1) <==> forall i :: 1 <= i < |a| ==> Firm(a[i])
  {
    var c := a[1..];
    assert forall i :: 0 <= i < |c| ==> c[i] == a[i + 1];
    assert forall i :: 1 <= i < |a| ==> a[i] == c[i - 1];
    PiecesOfJoin(a);
    PartsWeigh(c);
    WeightConcat(Pieces(a[0]), AllPieces(c));
  }

  lemma SameSplit<T>(p: seq<T>, r: seq<T>, q: seq<T>, t: seq<T>)
    requires p + r == q + t && |p| == |q|
    ensures p == q && r == t
  {
    assert (p + r)[..|p|] == p && (q + t)[..|q|] == q;
    assert (p + r)[|p|..] == r && (q + t)[|q|..] == t;
  }

  lemma SameFirst(a: seq<string>, b: seq<string>)
    requires |a| == |b| && a != [] && AllStripped(a) && AllStripped(b) && Pieces(a[0]) == Pieces(b[0])
    requires AllPieces(a[1..]) == AllPieces(b[1..]) && forall i :: 1 <= i < |a| ==> Firm(a[i]) && Firm(b[i])
    ensures a == b
  {
    var c, d := a[1..], b[1..];
    JoinPieces(a[0]);
    JoinPieces(b[0]);
    assert forall i :: 0 <= i < |c| ==> c[i] == a[i + 1] && d[i] == b[i + 1];
    FirmParts(c, d);
    assert a == [a[0]] + c && b == [b[0]] + d;
  }

  /** If one side is firm from its second part on only, a different list that joins to the same text, with a tight
      second part, cuts the first part: its second part is a later piece of that. */
  lemma JoinCutsFirst(a: seq<string>, b: seq<string>)
    requires |a| == |b| >= 2 && AllStripped(a) && AllStripped(b) && JoinBars(a) == JoinBars(b)
    requires (forall i :: 1 <= i < |a| ==> Firm(a[i])) && Tight(b[1])
    ensures a == b || exists k :: CutAt(a[0], k, b[1])
  {
    var p, r, q, t := Pieces(a[0]), AllPieces(a[1..]), Pieces(b[0]), AllPieces(b[1..]);
    TailWeighs(a);
    TailWeighs(b);
    LongerIsHeavier(p, r, q, t);
    if |q| == |p| {
      SameSplit(p, r, q, t);
      SameFirst(a, b);
    } else {
      assert b[1..][0] == b[1];
      SecondIsPiece(a[0], b[0], b[1..], r);
    }
  }

  /** The `k`th piece of the text is `w`, and something stands before it. */
  predicate CutAt(s: string, k: nat, w: string) {
    0 < k < |Pieces(s)| && Pieces(s)[k] == w && (k == 1 ==> Pieces(s)[0] != "")
  }

  lemma LongerIsHeavier(p: seq<string>, r: seq<string>, q: seq<string>, t: seq<string>)
    requires p + r == q + t
    ensures |q| > |p| ==> Weight(q) > Weight(p)
  {
    if |q| > |p| {
      assert (p + r)[..|p|] == p && (q + t)[..|p|] == q[..|p|];
      assert q == p + q[|p|..];
      WeightConcat(p, q[|p|..]);
    }
  }

  lemma SecondIsPiece(x: string, y: string, d: seq<string>, rest: seq<string>)
    requires Stripped(y) && d != [] && Stripped(d[0]) && Tight(d[0])
    requires Pieces(x) + rest == Pieces(y) + AllPieces(d) && |Pieces(y)| < |Pieces(x)|
    ensures CutAt(x, |Pieces(y)|, d[0])
  {
    var p, q := Pieces(x), Pieces(y);
    PartWeight(d[0]);
    assert LooseBar("|", 0);
    assert AllPieces(d)[0] == d[0];
    assert (p + rest)[|q|] == p[|q|] && (q + AllPieces(d))[|q|] == d[0];
    assert (p + rest)[0] == p[0] && (q + AllPieces(d))[0] == q[0];
    if |q| == 1 {
      JoinPieces(y);
    }
  }

  // ---- cutting and joining again ----

  lemma {:induction false} JoinConcat(u: seq<string>, v: seq<string>)
    requires u != [] && v != []
    ensures JoinBars(u + v) == JoinBars(u) + "|" + JoinBars(v)
    decreases |u|
  {
    assert (u + v)[1..] == u[1..] + v;
    if |u| == 1 {
      assert u[1..] + v == v;
    } else {
      JoinConcat(u[1..], v);
      PairFirst(u[0], JoinBars(u[1..]), JoinBars(v));
    }
  }

  lemma {:induction false} PiecesTrimmed(s: string, k: nat)
    requires Trimmed(s) && k < |Pieces(s)|
    ensures Trimmed(Pieces(s)[k])
    decreases |s|
  {
    var i := FirstBar(s, 0);
    if i < |s| {
      var t := s[i + 1..];
      assert LooseBar(s, i) && (t != "" ==> t[|t| - 1] == s[|s| - 1]);
      if k > 0 {
        PiecesTrimmed(t, k - 1);
      }
    }
  }

  lemma {:induction false} JoinTrimmed(parts: seq<string>)
    requires parts != [] && forall i :: 0 <= i < |parts| ==> Trimmed(parts[i])
    ensures Trimmed(JoinBars(parts)) && (|parts| > 1 ==> JoinBars(parts) != "")
    decreases |parts|
  {
    assert Trimmed(parts[0]);
    if |parts| > 1 {
      JoinTrimmed(parts[1..]);
      var j, rest := JoinBars(parts), JoinBars(parts[1..]);
      assert rest != "" ==> j[|j| - 1] == rest[|rest| - 1];
    }
  }

  /** A first part cut at a piece: the piece becomes the second part, and the third one takes what is left over. */
  function CutParts(a: seq<string>, k: nat): (b: seq<string>)
    requires |a| > 3 && 0 < k < |Pieces(a[0])|
    ensures |b| == |a|
  {
    var ps := Pieces(a[0]);
    [JoinBars(ps[..k]), ps[k], JoinBars(ps[k + 1..] + a[1..3])] + a[3..]
  }

  lemma CutPartsJoin(a: seq<string>, k: nat)
    requires |a| > 3 && 0 < k < |Pieces(a[0])|
    ensures JoinBars(CutParts(a, k)) == JoinBars(a)
  {
    var ps, v := Pieces(a[0]), a[3..];
    var u, r := ps[..k], ps[k + 1..] + a[1..3];
    JoinThree(JoinBars(u), ps[k], JoinBars(r), v);
    JoinConcat(r, v);
    JoinConcat([ps[k]], r + v);
    JoinConcat(u, [ps[k]] + (r + v));
    CutPartsAgain(ps, a, k);
    JoinConcat(ps, a[1..]);
    JoinPieces(a[0]);
  }

  lemma CutPartsAgain(ps: seq<string>, a: seq<string>, k: nat)
    requires |a| > 3 && 0 < k < |ps|
    ensures ps[..k] + ([ps[k]] + ((ps[k + 1..] + a[1..3]) + a[3..])) == ps + a[1..]
  {
    assert a[1..3] + a[3..] == a[1..];
    ConcatAssoc(ps[k + 1..], a[1..3], a[3..]);
    ConcatAssoc([ps[k]], ps[k + 1..], a[1..]);
    ConcatAssoc(ps[..k], [ps[k]] + ps[k + 1..], a[1..]);
    assert ps[..k] + ([ps[k]] + ps[k + 1..]) == ps;
  }

  lemma JoinCons(x: string, v: seq<string>)
    requires v != []
    ensures JoinBars([x] + v) == x + "|" + JoinBars(v)
  {
    assert ([x] + v)[1..] == v;
  }

  lemma JoinThree(x: string, y: string, z: string, v: seq<string>)
    requires v != []
    ensures JoinBars([x, y, z] + v) == x + "|" + (y + "|" + (z + "|" + JoinBars(v)))
  {
    JoinCons(z, v);
    JoinCons(y, [z] + v);
    JoinCons(x, [y] + ([z] + v));
    assert [x, y, z] + v == [x] + ([y] + ([z] + v));
  }

  lemma CutHeadStripped(s: string, k: nat)
    requires Stripped(s) && 0 < k < |Pieces(s)| && (k == 1 ==> Pieces(s)[0] != "")
    ensures Stripped(JoinBars(Pieces(s)[..k]))
  {
    var u := Pieces(s)[..k];
    forall i | 0 <= i < k ensures Trimmed(u[i]) {
      PiecesTrimmed(s, i);
    }
    JoinTrimmed(u);
  }

  lemma CutTailStripped(s: string, k: nat, y: string, z: string)
    requires Stripped(s) && Stripped(y) && Stripped(z) && k < |Pieces(s)|
    ensures var t := JoinBars(Pieces(s)[k + 1..] + [y, z]); Stripped(t) && t != z
  {
    var r := Pieces(s)[k + 1..] + [y, z];
    forall i | 0 <= i < |r| ensures Trimmed(r[i]) {
      if i < |r| - 2 {
        PiecesTrimmed(s, k + 1 + i);
      }
    }
    JoinTrimmed(r);
    assert r == (Pieces(s)[k + 1..] + [y]) + [z];
    JoinConcat(Pieces(s)[k + 1..] + [y], [z]);
    assert |JoinBars(r)| > |z|;
  }

  // ---- moving a bar between neighbours ----

  /** Parts that join pairwise to the same text join to the same text. */
  lemma {:induction false} JoinPairs(p: seq<string>, q: seq<string>, i: nat)
    requires |p| == |q| && i + 1 < |p| && p[i] + "|" + p[i + 1] == q[i] + "|" + q[i + 1]
    requires forall j :: 0 <= j < |p| && j != i && j != i + 1 ==> q[j] == p[j]
    ensures JoinBars(p) == JoinBars(q)
    decreases i
  {
    var a, b := p[1..], q[1..];
    assert forall j :: 0 <= j < |a| ==> a[j] == p[j + 1] && b[j] == q[j + 1];
    if i > 0 {
      JoinPairs(a, b, i - 1);
    } else if |p| == 2 {
      assert JoinBars(a) == p[1] && JoinBars(b) == q[1];
    } else {
      assert a[1..] == b[1..];
      var rest := JoinBars(a[1..]);
      PairFirst(p[0], p[1], rest);
      PairFirst(q[0], q[1], rest);
    }
  }

  lemma PairFirst(x: string, y: string, rest: string)
    ensures x + "|" + (y + "|" + rest) == (x + "|" + y) + "|" + rest
  {}
}
