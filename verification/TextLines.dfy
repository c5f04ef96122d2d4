/** Splitting text into lines and joining lines again. */
module TextLines {
  import opened Sequences
  import opened Text

  /** The characters the host language ends lines at. */
  predicate IsBreak(c: char) {
    '\n' <= c <= '\r' || '\U{1C}' <= c <= '\U{1E}' || c == '\U{85}' || c == '\U{2028}' || c == '\U{2029}'
  }

  /** Carriage return and line feed together end one line. */
  function BreakWidth(s: string): (w: nat)
    requires s != ""
    ensures 1 <= w <= |s|
  {
    if s[0] == '\r' && |s| > 1 && s[1] == '\n' then 2 else 1
  }

  /** A final line end opens no further line. */
  function Lines(s: string): (lines: seq<string>)
    ensures lines == [] <==> s == ""
    decreases |s|
  {
    if s == "" then []
    else if IsBreak(s[0]) then [""] + Lines(s[BreakWidth(s)..])
    else Prepend(s[0], Lines(s[1..]))
  }

  /** The character in front of the first line. */
  function Prepend(c: char, lines: seq<string>): seq<string> {
    if lines == [] then [[c]] else [[c] + lines[0]] + lines[1..]
  }

  function JoinLines(lines: seq<string>): string {
    if lines == [] then "" else if |lines| == 1 then lines[0] else lines[0] + "\n" + JoinLines(lines[1..])
  }

  /** No line end at the end. */
  predicate Unended(s: string) {
    s != "" ==> !IsBreak(s[|s| - 1])
  }

  /** Lines are separated by plain newlines only. */
  predicate Plain(s: string) {
    forall i :: 0 <= i < |s| && IsBreak(s[i]) ==> s[i] == '\n'
  }

  lemma BreaksAreSpace(c: char)
    requires IsBreak(c)
    ensures IsSpace(c)
  {}

  lemma UnendedRest(a: string, k: nat)
    requires Unended(a) && k <= |a|
    ensures Unended(a[k..])
    ensures k == |a| > 0 ==> !IsBreak(a[k - 1])
  {}

  lemma LinesOfChar(c: char, rest: string)
    requires !IsBreak(c)
    ensures Lines([c] + rest) == Prepend(c, Lines(rest))
  {
    var s := [c] + rest;
    assert s[0] == c && s[1..] == rest;
  }

  lemma LinesOfBreak(eol: string, rest: string)
    requires (|eol| == 1 && IsBreak(eol[0]) && (eol[0] == '\r' && rest != "" ==> rest[0] != '\n')) || eol == "\r\n"
    ensures Lines(eol + rest) == [""] + Lines(rest)
  {
    var s := eol + rest;
    assert s[0] == eol[0] && s[|eol|..] == rest;
    assert |s| > 1 ==> s[1] == if |eol| == 1 then rest[0] else '\n';
    assert BreakWidth(s) == |eol|;
  }

  lemma PrependConcat(c: char, head: seq<string>, tail: seq<string>)
    requires head != []
    ensures Prepend(c, head + tail) == Prepend(c, head) + tail
  {
    assert (head + tail)[0] == head[0] && (head + tail)[1..] == head[1..] + tail;
  }

  /** One character more in front. */
  lemma LinesAppendChar(c: char, a: string, b: string, tail: seq<string>)
    requires !IsBreak(c) && Lines(b) == (if a == "" then [""] else Lines(a)) + tail
    ensures Lines([c] + b) == Lines([c] + a) + tail
  {
    LinesOfChar(c, b);
    LinesOfChar(c, a);
    PrependConcat(c, if a == "" then [""] else Lines(a), tail);
    assert [c] + "" == [c];
  }

  /** One line end more in front. */
  lemma LinesAppendBreak(eol: string, a: string, b: string, tail: seq<string>)
    requires a != "" && b != "" && a[0] == b[0] && Lines(b) == Lines(a) + tail
    requires (|eol| == 1 && IsBreak(eol[0]) && (eol[0] == '\r' ==> a[0] != '\n')) || eol == "\r\n"
    ensures Lines(eol + b) == Lines(eol + a) + tail
  {
    LinesOfBreak(eol, a);
    LinesOfBreak(eol, b);
    ConcatAssoc([""], Lines(a), tail);
  }

  /** A newline splits a text into the lines before and the lines after. */
  lemma {:induction false} LinesAppend(a: string, r: string)
    requires Unended(a)
    ensures Lines(a + "\n" + r) == (if a == "" then [""] else Lines(a)) + Lines(r)
    decreases |a|
  {
    if a == "" {
      LinesOfBreak("\n", r);
      assert a + "\n" + r == "\n" + r;
    } else {
      var w := if IsBreak(a[0]) then BreakWidth(a) else 1;
      var eol, rest := a[..w], a[w..];
      UnendedRest(a, w);
      LinesAppend(rest, r);
      var b := rest + "\n" + r;
      assert a == eol + rest && a + "\n" + r == eol + b;
      if IsBreak(a[0]) {
        assert eol == [a[0]] || eol == "\r\n";
        assert rest != "";
        LinesAppendBreak(eol, rest, b, Lines(r));
      } else {
        assert eol == [a[0]];
        LinesAppendChar(a[0], rest, b, Lines(r));
      }
    }
  }

  lemma {:induction false} JoinOfLines(s: string)
    requires Plain(s) && Unended(s)
    ensures JoinLines(Lines(s)) == s
    decreases |s|
  {
    if |s| > 1 {
      var rest := s[1..];
      UnendedRest(s, 1);
      assert forall j :: 0 <= j < |rest| ==> rest[j] == s[1 + j];
      JoinOfLines(rest);
      if IsBreak(s[0]) {
        assert s == "" + "\n" + rest;
        JoinCons("", Lines(rest));
      } else {
        JoinHead(s[0], Lines(rest));
        LinesOfChar(s[0], rest);
        assert s == [s[0]] + rest;
      }
    }
  }

  lemma JoinHead(c: char, lines: seq<string>)
    requires lines != []
    ensures JoinLines(Prepend(c, lines)) == [c] + JoinLines(lines)
  {
    var more := [[c] + lines[0]] + lines[1..];
    assert more[1..] == lines[1..];
    if |lines| > 1 {
      assert ([c] + lines[0]) + "\n" + JoinLines(lines[1..]) == [c] + (lines[0] + "\n" + JoinLines(lines[1..]));
    }
  }

  lemma JoinCons(line: string, lines: seq<string>)
    requires lines != []
    ensures JoinLines([line] + lines) == line + "\n" + JoinLines(lines)
  {
    assert ([line] + lines)[1..] == lines;
  }

  lemma {:induction false} JoinEmptyLast(lines: seq<string>)
    requires lines != []
    ensures JoinLines(lines + [""]) == JoinLines(lines) + "\n"
    decreases |lines|
  {
    var more := lines + [""];
    assert more[1..] == lines[1..] + [""];
    if |lines| > 1 {
      JoinEmptyLast(lines[1..]);
      assert lines[0] + "\n" + (JoinLines(lines[1..]) + "\n") == (lines[0] + "\n" + JoinLines(lines[1..])) + "\n";
    }
  }

  lemma TrimmedUnended(s: string)
    requires Trimmed(s)
    ensures Unended(s)
  {
    if s != "" && IsBreak(s[|s| - 1]) {
      BreaksAreSpace(s[|s| - 1]);
    }
  }

  // ---- stripping pieces ----

  lemma {:induction false} TrimRightConcat(a: string, b: string)
    ensures TrimRight(a + b) == if TrimRight(b) != "" then a + TrimRight(b) else TrimRight(a)
    decreases |b|
  {
    var s := a + b;
    if b == "" {
      assert s == a;
    } else if IsSpace(b[|b| - 1]) {
      assert s[..|s| - 1] == a + b[..|b| - 1];
      TrimRightConcat(a, b[..|b| - 1]);
    } else {
      assert s[|s| - 1] == b[|b| - 1];
    }
  }

  lemma {:induction false} TrimLeftSnoc(s: string, c: char)
    requires IsSpace(c)
    ensures TrimLeft(s + [c]) == if TrimLeft(s) == "" then "" else TrimLeft(s) + [c]
    decreases |s|
  {
    var t := s + [c];
    if s == "" {
      assert t[1..] == "";
    } else if IsSpace(s[0]) {
      assert t[1..] == s[1..] + [c];
      TrimLeftSnoc(s[1..], c);
    }
  }

  lemma {:induction false} TrimOfTrimRight(s: string)
    ensures Trim(TrimRight(s)) == Trim(s)
    decreases |s|
  {
    if s != "" && IsSpace(s[|s| - 1]) {
      var rest := s[..|s| - 1];
      assert s == rest + [s[|s| - 1]];
      TrimLeftSnoc(rest, s[|s| - 1]);
      var t := TrimLeft(rest);
      if t != "" {
        assert (t + [s[|s| - 1]])[..|t|] == t;
      }
      TrimOfTrimRight(rest);
    }
  }
}
