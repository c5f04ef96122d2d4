/** The body of a sounding note: headed sections, printed and parsed back. */
module Sounding {
  import opened Wrappers
  import opened Sequences
  import opened Text
  import opened TextLines

  datatype Section = Cause | Change | Proof | Deps | Questions

  datatype QuestionField = Plainly(text: string) | Items(items: seq<string>)

  datatype Fields = Fields(cause: string, change: string, proof: string, deps: string, questions: QuestionField)

  // ---- headings ----

  function LowerChar(c: char): char {
    if 'A' <= c <= 'Z' then c - 'A' + 'a' else c
  }

  function Lower(s: string): (r: string)
    ensures |r| == |s| && forall i :: 0 <= i < |s| ==> r[i] == LowerChar(s[i])
  {
    if s == "" then "" else [LowerChar(s[0])] + Lower(s[1..])
  }

  function DropColons(s: string): string {
    if s != "" && s[|s| - 1] == ':' then DropColons(s[..|s| - 1]) else s
  }

  function Hashes(s: string): (n: nat)
    ensures n <= |s|
  {
    if s != "" && s[0] == '#' then 1 + Hashes(s[1..]) else 0
  }

  function Alias(heading: string): Option<Section> {
    if heading == "cause or spec" || heading == "cause" || heading == "spec" then Some(Cause)
    else if heading == "change" then Some(Change)
    else if heading == "proof" || heading == "proof commands" || heading == "prove" then Some(Proof)
    else if heading == "deps" || heading == "dependencies" || heading == "after" then Some(Deps)
    else if heading == "open questions" || heading == "open question" || heading == "questions" then Some(Questions)
    else None
  }

  /** One to three hashes, white space, and a known title in any case, colons at its end ignored. */
  function Heading(line: string): Option<Section> {
    var l := Trim(line);
    var n := Hashes(l);
    if 1 <= n <= 3 && n < |l| && IsSpace(l[n]) then Alias(DropColons(Lower(Trim(l[n..])))) else None
  }

  // ---- parsing ----

  datatype Parsing = Parsing(sections: map<Section, string>, current: Option<Section>, buf: seq<string>)

  const START := Parsing(map[Cause := "", Change := "", Proof := "", Deps := "", Questions := ""], None, [])

  function Flushed(p: Parsing): map<Section, string> {
    if p.current.Some? then p.sections[p.current.value := Trim(JoinLines(p.buf))] else p.sections
  }

  function Step(p: Parsing, line: string): Parsing {
    match Heading(line)
    case Some(k) => Parsing(Flushed(p), Some(k), [])
    case None => if p.current.Some? then p.(buf := p.buf + [line]) else p
  }

  function Fold(p: Parsing, lines: seq<string>): Parsing
    decreases |lines|
  {
    if lines == [] then p else Fold(Step(p, lines[0]), lines[1..])
  }

  function Parse(body: string): map<Section, string> {
    Flushed(Fold(START, Lines(body)))
  }

  method ParseSoundBody(body: string) returns (sections: map<Section, string>)
    ensures sections == Parse(body)
  {
    sections := START.sections;
    var current: Option<Section> := None;
    var buf := [];
    var lines := Lines(body);
    for i := 0 to |lines|
      invariant Fold(Parsing(sections, current, buf), lines[i..]) == Fold(START, lines)
    {
      assert lines[i..][1..] == lines[i + 1..];
      var found := Heading(lines[i]);
      if found.Some? {
        if current.Some? {
          sections := sections[current.value := Trim(JoinLines(buf))];
        }
        current := found;
        buf := [];
      } else if current.Some? {
        buf := buf + [lines[i]];
      }
    }
    if current.Some? {
      sections := sections[current.value := Trim(JoinLines(buf))];
    }
  }

  // ---- printing ----

  function Word(k: Section): string {
    match k
    case Cause => "Cause or spec"
    case Change => "Change"
    case Proof => "Proof"
    case Deps => "Deps"
    case Questions => "Open questions"
  }

  function Title(k: Section): string {
    "## " + Word(k)
  }

  function Bulleted(items: seq<string>): seq<string> {
    if items == [] then [] else ["- " + items[0]] + Bulleted(items[1..])
  }

  function Rendered(q: QuestionField): string {
    match q
    case Plainly(text) => if text == "" then "(none)" else text
    case Items(items) => if items == [] then "(none)" else JoinLines(Bulleted(items))
  }

  function Block(k: Section, body: string): string {
    Title(k) + "\n" + body
  }

  function JoinBlank(parts: seq<string>): string {
    if parts == [] then "" else if |parts| == 1 then parts[0] else parts[0] + "\n\n" + JoinBlank(parts[1..])
  }

  function Kept(parts: seq<string>): seq<string> {
    if parts == [] then [] else (if parts[0] != "" then [parts[0]] else []) + Kept(parts[1..])
  }

  function Blocks(f: Fields): seq<string> {
    [Block(Cause, Trim(f.cause)), Block(Change, Trim(f.change)), Block(Proof, Trim(f.proof)), Block(Deps, Trim(f.deps)),
     Block(Questions, Rendered(f.questions))]
  }

  function Preamble(thought: string, extra: string): seq<string> {
    (if thought != "" then [Trim(thought)] else []) + (if extra != "" then [Trim(extra)] else [])
  }

  function Format(thought: string, f: Fields, extra: string): string {
    Trim(JoinBlank(Kept(Preamble(thought, extra) + Blocks(f)))) + "\n"
  }

  method FormatSoundBody(thought: string, f: Fields, extra: string) returns (body: string)
    ensures body == Format(thought, f, extra)
  {
    var parts: seq<string> := [];
    if thought != "" {
      parts := parts + [Trim(thought)];
    }
    if extra != "" {
      parts := parts + [Trim(extra)];
    }
    assert parts == Preamble(thought, extra);
    parts := parts + [Block(Cause, Trim(f.cause))];
    parts := parts + [Block(Change, Trim(f.change))];
    parts := parts + [Block(Proof, Trim(f.proof))];
    parts := parts + [Block(Deps, Trim(f.deps))];
    parts := parts + [Block(Questions, Rendered(f.questions))];
    assert parts == Preamble(thought, extra) + Blocks(f);
    body := Trim(JoinBlank(Kept(parts))) + "\n";
  }

  // ---- headings printed are headings read ----

  lemma TitleRead(title: string, word: string)
    requires title == "## " + word && word != "" && Trimmed(word)
    ensures Heading(title) == Alias(DropColons(Lower(word)))
  {
    TrimKeepsTrimmed(title);
    assert title[1..] == "# " + word && title[1..][1..] == " " + word && title[1..][1..][0] == ' ';
    assert Hashes(" " + word) == 0;
    assert Hashes(title) == 2;
    assert title[2..] == " " + word;
    assert (" " + word)[1..] == word;
    assert TrimLeft(" " + word) == TrimLeft(word);
    TrimKeepsTrimmed(word);
    assert TrimLeft(word) == word;
  }

  function LowWord(k: Section): string {
    match k
    case Cause => "cause or spec"
    case Change => "change"
    case Proof => "proof"
    case Deps => "deps"
    case Questions => "open questions"
  }

  predicate IsLower(low: string, s: string) {
    |low| == |s| && forall i :: 0 <= i < |s| ==> low[i] == LowerChar(s[i])
  }

  lemma LowerIs(low: string, s: string)
    requires IsLower(low, s)
    ensures Lower(s) == low
  {}

  lemma LowCause()
    ensures IsLower(LowWord(Cause), Word(Cause))
  {}

  lemma LowQuestions()
    ensures IsLower(LowWord(Questions), Word(Questions))
  {}

  lemma LowOthers()
    ensures IsLower(LowWord(Change), Word(Change)) && IsLower(LowWord(Proof), Word(Proof))
    ensures IsLower(LowWord(Deps), Word(Deps))
  {}

  lemma WordsAreLow(k: Section)
    ensures IsLower(LowWord(k), Word(k))
  {
    LowCause();
    LowQuestions();
    LowOthers();
  }

  lemma AliasOfWords(k: Section)
    ensures Alias(LowWord(k)) == Some(k) && DropColons(LowWord(k)) == LowWord(k)
  {}

  lemma WordsTrimmed(k: Section)
    ensures Word(k) != "" && Trimmed(Word(k))
  {}

  lemma TitlesAreHeadings(k: Section)
    ensures Heading(Title(k)) == Some(k)
  {
    WordsTrimmed(k);
    WordsAreLow(k);
    LowerIs(LowWord(k), Word(k));
    AliasOfWords(k);
    TitleRead(Title(k), Word(k));
  }

  // ---- reading blocks back ----

  lemma {:induction false} FoldConcat(p: Parsing, a: seq<string>, b: seq<string>)
    ensures Fold(p, a + b) == Fold(Fold(p, a), b)
    decreases |a|
  {
    if a == [] {
      assert a + b == b;
    } else {
      assert (a + b)[1..] == a[1..] + b;
      FoldConcat(Step(p, a[0]), a[1..], b);
    }
  }

  predicate NoHeadings(lines: seq<string>) {
    forall i :: 0 <= i < |lines| ==> Heading(lines[i]).None?
  }

  /** Lines that are no headings collect under the current one. */
  lemma {:induction false} FoldBody(p: Parsing, lines: seq<string>)
    requires p.current.Some? && NoHeadings(lines)
    ensures Fold(p, lines) == p.(buf := p.buf + lines)
    decreases |lines|
  {
    if lines == [] {
      assert p.buf + lines == p.buf;
    } else {
      FoldBody(Step(p, lines[0]), lines[1..]);
      ConcatAssoc(p.buf, [lines[0]], lines[1..]);
      assert lines == [lines[0]] + lines[1..];
    }
  }

  /** The lines of a section's body; an empty one still takes a line. */
  function BodyLines(body: string): seq<string> {
    if body == "" then [""] else Lines(body)
  }

  /** A field can be printed: plain newlines only, no recognised heading, nothing to strip at the end. */
  predicate Printable(body: string) {
    Plain(body) && NoHeadings(Lines(body)) && Unended(body)
  }

  lemma EmptyLineIsNoHeading()
    ensures Heading("").None?
  {}

  /** A heading and its body, read from any state. */
  lemma BlockRead(p: Parsing, k: Section, body: string, tail: seq<string>)
    requires Printable(body) && (tail == [] || tail == [""])
    ensures Fold(p, [Title(k)] + (BodyLines(body) + tail)) == Parsing(Flushed(p), Some(k), BodyLines(body) + tail)
  {
    var lines := BodyLines(body) + tail;
    TitlesAreHeadings(k);
    EmptyLineIsNoHeading();
    assert NoHeadings(lines);
    var q := Parsing(Flushed(p), Some(k), []);
    assert Step(p, Title(k)) == q;
    assert ([Title(k)] + lines)[1..] == lines;
    FoldBody(q, lines);
    assert q.buf + lines == lines;
  }

  lemma TrimNewline(s: string)
    ensures Trim(s + "\n") == Trim(s)
  {
    TrimRightConcat(s, "\n");
    assert TrimRight("\n") == TrimRight("");
    TrimOfTrimRight(s + "\n");
    TrimOfTrimRight(s);
  }

  /** What is collected for a body, with or without the blank line that follows it, strips to the body stripped. */
  lemma CollectedBody(body: string, tail: seq<string>)
    requires Printable(body) && (tail == [] || tail == [""])
    ensures Trim(JoinLines(BodyLines(body) + tail)) == Trim(body)
  {
    var lines := BodyLines(body);
    assert lines + [] == lines;
    assert JoinLines(lines) == body by {
      if body != "" {
        JoinOfLines(body);
      }
    }
    if tail == [""] {
      JoinEmptyLast(lines);
      TrimNewline(body);
    }
  }

  lemma TitleUnended(k: Section)
    ensures Title(k) != "" && Unended(Title(k)) && Lines(Title(k)) == [Title(k)]
  {
    match k
    case Cause => OneLine(Title(k));
    case Change => OneLine(Title(k));
    case Proof => OneLine(Title(k));
    case Deps => OneLine(Title(k));
    case Questions => OneLine(Title(k));
  }

  lemma {:induction false} OneLine(s: string)
    requires s != "" && forall i :: 0 <= i < |s| ==> !IsBreak(s[i])
    ensures Lines(s) == [s] && Unended(s)
    decreases |s|
  {
    var c, rest := s[0], s[1..];
    assert s == [c] + rest;
    LinesOfChar(c, rest);
    if rest != "" {
      OneLine(rest);
      assert Prepend(c, [rest]) == [[c] + rest];
    } else {
      assert [c] + rest == [c];
    }
  }

  lemma LinesOfTwo(title: string, body: string, rest: string)
    requires title != "" && Unended(title) && Lines(title) == [title] && Unended(body)
    ensures Lines(title + "\n" + (body + "\n" + rest)) == [title] + (BodyLines(body) + Lines(rest))
  {
    LinesAppend(body, rest);
    LinesAppend(title, body + "\n" + rest);
  }

  lemma BlankFirst(rest: string)
    ensures Lines("\n" + rest) == [""] + Lines(rest)
  {
    LinesAppend("", rest);
    assert "" + "\n" + rest == "\n" + rest;
  }

  lemma BlockText(title: string, body: string, rest: string)
    ensures title + "\n" + body + "\n\n" + rest == title + "\n" + (body + "\n" + ("\n" + rest))
  {}

  /** The lines of a block in the middle of the text. */
  lemma BlockLines(k: Section, body: string, rest: string)
    requires Unended(body)
    ensures Lines(Block(k, body) + "\n\n" + rest) == ([Title(k)] + (BodyLines(body) + [""])) + Lines(rest)
  {
    TitleUnended(k);
    BlockText(Title(k), body, rest);
    LinesOfTwo(Title(k), body, "\n" + rest);
    BlankFirst(rest);
    ConcatAssoc(BodyLines(body), [""], Lines(rest));
    ConcatAssoc([Title(k)], BodyLines(body) + [""], Lines(rest));
  }

  /** One block in the middle: it becomes the current section, and will be flushed as its body stripped. */
  lemma MiddleBlock(p: Parsing, k: Section, body: string, rest: string) returns (q: Parsing)
    requires Printable(body)
    ensures Fold(p, Lines(Block(k, body) + "\n\n" + rest)) == Fold(q, Lines(rest))
    ensures Flushed(q) == Flushed(p)[k := Trim(body)]
  {
    BlockLines(k, body, rest);
    FoldConcat(p, [Title(k)] + (BodyLines(body) + [""]), Lines(rest));
    BlockRead(p, k, body, [""]);
    q := Parsing(Flushed(p), Some(k), BodyLines(body) + [""]);
    CollectedBody(body, [""]);
  }

  /** The last block, its body right-stripped and ended by one newline. */
  function LastText(k: Section, body: string): string {
    if body == "" then Title(k) + "\n" else Block(k, body) + "\n"
  }

  lemma LastBlock(p: Parsing, k: Section, body: string)
    requires Printable(body)
    ensures Flushed(Fold(p, Lines(LastText(k, body)))) == Flushed(p)[k := Trim(body)]
  {
    TitleUnended(k);
    if body == "" {
      LinesAppend(Title(k), "");
      assert Title(k) + "\n" + "" == Title(k) + "\n";
      TitlesAreHeadings(k);
      assert Fold(p, [Title(k)]) == Step(p, Title(k)) by {
        assert [Title(k)][1..] == [];
      }
      assert Lines(LastText(k, body)) == [Title(k)] + Lines("");
    } else {
      LinesAppend(body, "");
      LinesAppend(Title(k), body + "\n" + "");
      assert LastText(k, body) == Title(k) + "\n" + (body + "\n" + "");
      assert BodyLines(body) + [] == BodyLines(body) && Lines(body) + Lines("") == Lines(body);
      BlockRead(p, k, body, []);
      CollectedBody(body, []);
    }
  }

  // ---- the printed text ----

  function FiveBlocks(a: string, b: string, c: string, d: string, last: string): string {
    Block(Cause, a) + "\n\n"
    + (Block(Change, b) + "\n\n" + (Block(Proof, c) + "\n\n" + (Block(Deps, d) + "\n\n" + last)))
  }

  /** Whatever was read before, the five blocks decide all sections. */
  lemma FiveRead(p: Parsing, a: string, b: string, c: string, d: string, e: string)
    requires Printable(a) && Printable(b) && Printable(c) && Printable(d) && Printable(e)
    ensures Flushed(Fold(p, Lines(FiveBlocks(a, b, c, d, LastText(Questions, e)))))
            == map[Cause := Trim(a), Change := Trim(b), Proof := Trim(c), Deps := Trim(d), Questions := Trim(e)]
  {
    var last := LastText(Questions, e);
    var four := Block(Deps, d) + "\n\n" + last;
    var three := Block(Proof, c) + "\n\n" + four;
    var two := Block(Change, b) + "\n\n" + three;
    var p1 := MiddleBlock(p, Cause, a, two);
    var p2 := MiddleBlock(p1, Change, b, three);
    var p3 := MiddleBlock(p2, Proof, c, four);
    var p4 := MiddleBlock(p3, Deps, d, last);
    LastBlock(p4, Questions, e);
    AllSections(Flushed(p), Trim(a), Trim(b), Trim(c), Trim(d), Trim(e));
  }

  lemma AllSections(m: map<Section, string>, a: string, b: string, c: string, d: string, e: string)
    ensures m[Cause := a][Change := b][Proof := c][Deps := d][Questions := e]
            == map[Cause := a, Change := b, Proof := c, Deps := d, Questions := e]
  {
    var n := map[Cause := a, Change := b, Proof := c, Deps := d, Questions := e];
    forall k: Section ensures k in n {
      assert k == Cause || k == Change || k == Proof || k == Deps || k == Questions;
    }
  }

  lemma {:induction false} KeptConcat(a: seq<string>, b: seq<string>)
    ensures Kept(a + b) == Kept(a) + Kept(b)
    decreases |a|
  {
    if a == [] {
      assert a + b == b;
    } else {
      assert (a + b)[1..] == a[1..] + b;
      KeptConcat(a[1..], b);
    }
  }

  lemma {:induction false} JoinBlankConcat(a: seq<string>, b: seq<string>)
    requires a != [] && b != []
    ensures JoinBlank(a + b) == JoinBlank(a) + "\n\n" + JoinBlank(b)
    decreases |a|
  {
    assert (a + b)[1..] == a[1..] + b;
    if |a| > 1 {
      JoinBlankConcat(a[1..], b);
      assert a[0] + "\n\n" + (JoinBlank(a[1..]) + "\n\n" + JoinBlank(b))
             == a[0] + "\n\n" + JoinBlank(a[1..]) + "\n\n" + JoinBlank(b);
    }
  }

  lemma JoinBlankCons(x: string, parts: seq<string>)
    requires parts != []
    ensures JoinBlank([x] + parts) == x + "\n\n" + JoinBlank(parts)
  {
    assert ([x] + parts)[1..] == parts;
  }

  lemma JoinFive(a: string, b: string, c: string, d: string, e: string)
    ensures JoinBlank([a, b, c, d, e])
            == a + "\n\n" + (b + "\n\n" + (c + "\n\n" + (d + "\n\n" + e)))
  {
    JoinBlankCons(d, [e]);
    assert [d] + [e] == [d, e];
    JoinBlankCons(c, [d, e]);
    assert [c] + [d, e] == [c, d, e];
    JoinBlankCons(b, [c, d, e]);
    assert [b] + [c, d, e] == [b, c, d, e];
    JoinBlankCons(a, [b, c, d, e]);
    assert [a] + [b, c, d, e] == [a, b, c, d, e];
  }

  lemma BlocksKept(f: Fields)
    ensures Kept(Blocks(f)) == Blocks(f)
    ensures JoinBlank(Blocks(f))
            == FiveBlocks(Trim(f.cause), Trim(f.change), Trim(f.proof), Trim(f.deps),
                          Block(Questions, Rendered(f.questions)))
  {
    var bs := Blocks(f);
    JoinFive(bs[0], bs[1], bs[2], bs[3], bs[4]);
    KeptAll(bs);
  }

  lemma {:induction false} KeptAll(parts: seq<string>)
    requires forall i :: 0 <= i < |parts| ==> parts[i] != ""
    ensures Kept(parts) == parts
    decreases |parts|
  {
    if parts != [] {
      KeptAll(parts[1..]);
      assert parts == [parts[0]] + parts[1..];
    }
  }

  /** The kept preamble is nothing, or stripped text. */
  lemma PreambleTrimmed(thought: string, extra: string)
    ensures var pre := Kept(Preamble(thought, extra));
      pre != [] ==> JoinBlank(pre) != "" && Trimmed(JoinBlank(pre))
  {
    TrimIsTrimmed(thought);
    TrimIsTrimmed(extra);
    var t, x := Trim(thought), Trim(extra);
    var pre := Kept(Preamble(thought, extra));
    KeptConcat(if thought != "" then [t] else [], if extra != "" then [x] else []);
    assert Kept([]) == [];
    assert forall s :: Kept([s]) == if s != "" then [s] else [];
    assert pre == [] || pre == [t] || pre == [x] || pre == [t, x];
    if pre == [t, x] {
      assert [t, x][1..] == [x];
      assert JoinBlank(pre) == t + "\n\n" + x;
    }
  }

  /** Stripping the whole text strips only the end of the last block. */
  lemma StripAtEnd(front: string, last: string)
    requires last != "" && last[0] == '#'
    requires front != "" ==> !IsSpace(front[0])
    ensures Trim(front + last) == front + TrimRight(last)
  {
    TrimRightConcat(front, last);
    TrimRightEnds(last);
    NonblankRight(last);
    assert (front + last)[0] == if front == "" then last[0] else front[0];
  }

  lemma {:induction false} NonblankRight(s: string)
    requires s != "" && !IsSpace(s[0])
    ensures TrimRight(s) != "" && TrimRight(s)[0] == s[0]
    decreases |s|
  {
    if IsSpace(s[|s| - 1]) {
      NonblankRight(s[..|s| - 1]);
    }
  }

  lemma LastBlockStripped(q: string)
    ensures TrimRight(Block(Questions, q)) + "\n" == LastText(Questions, TrimRight(q))
  {
    WordsTrimmed(Questions);
    TrimRightConcat(Title(Questions) + "\n", q);
    TrimRightConcat(Title(Questions), "\n");
    assert TrimRight("\n") == "";
    assert Title(Questions)[|Title(Questions)| - 1] == Word(Questions)[|Word(Questions)| - 1];
  }

  /** Everything before the last block. */
  function Front(a: string, b: string, c: string, d: string): string {
    Block(Cause, a) + "\n\n" + Block(Change, b) + "\n\n" + Block(Proof, c) + "\n\n" + Block(Deps, d) + "\n\n"
  }

  lemma FrontOfFive(a: string, b: string, c: string, d: string, last: string)
    ensures FiveBlocks(a, b, c, d, last) == Front(a, b, c, d) + last
  {}

  lemma FrontStarts(a: string, b: string, c: string, d: string)
    ensures Front(a, b, c, d) != "" && Front(a, b, c, d)[0] == '#'
  {
    assert Front(a, b, c, d)[0] == Title(Cause)[0];
  }

  function FormatHead(pre: seq<string>): string {
    if pre == [] then "" else JoinBlank(pre) + "\n\n"
  }

  lemma HeadAndBlocks(pre: seq<string>, blocks: seq<string>)
    requires blocks != []
    ensures JoinBlank(pre + blocks) == FormatHead(pre) + JoinBlank(blocks)
  {
    if pre != [] {
      JoinBlankConcat(pre, blocks);
    } else {
      assert pre + blocks == blocks;
    }
  }

  /** Stripping head, front and last block together. */
  lemma StripWhole(head: string, front: string, q: string)
    requires head != "" ==> !IsSpace(head[0])
    requires front != "" && front[0] == '#'
    ensures Trim(head + (front + Block(Questions, q))) + "\n" == head + (front + LastText(Questions, TrimRight(q)))
  {
    var last := Block(Questions, q);
    ConcatAssoc(head, front, last);
    assert last[0] == Title(Questions)[0];
    assert (head + front)[0] == if head == "" then front[0] else head[0];
    StripAtEnd(head + front, last);
    LastBlockStripped(q);
    ConcatAssoc(head + front, TrimRight(last), "\n");
    ConcatAssoc(head, front, TrimRight(last) + "\n");
  }

  /** What the printer prints, spelled out: the preamble, the five blocks, one newline at the end. */
  lemma FormatIs(thought: string, f: Fields, extra: string)
    ensures Format(thought, f, extra)
            == FormatHead(Kept(Preamble(thought, extra)))
               + FiveBlocks(Trim(f.cause), Trim(f.change), Trim(f.proof), Trim(f.deps),
                            LastText(Questions, TrimRight(Rendered(f.questions))))
  {
    var pre := Kept(Preamble(thought, extra));
    var q := Rendered(f.questions);
    var a, b, c, d := Trim(f.cause), Trim(f.change), Trim(f.proof), Trim(f.deps);
    KeptConcat(Preamble(thought, extra), Blocks(f));
    BlocksKept(f);
    HeadAndBlocks(pre, Blocks(f));
    FrontOfFive(a, b, c, d, Block(Questions, q));
    FrontOfFive(a, b, c, d, LastText(Questions, TrimRight(q)));
    FrontStarts(a, b, c, d);
    PreambleTrimmed(thought, extra);
    HeadStarts(pre);
    StripWhole(FormatHead(pre), Front(a, b, c, d), q);
  }

  lemma HeadStarts(pre: seq<string>)
    requires pre != [] ==> JoinBlank(pre) != "" && Trimmed(JoinBlank(pre))
    ensures FormatHead(pre) != "" ==> !IsSpace(FormatHead(pre)[0])
  {}

  /** The five fields as they will be read: stripped, "(none)" for no questions. */
  function Expected(f: Fields): map<Section, string> {
    map[Cause := Trim(f.cause), Change := Trim(f.change), Proof := Trim(f.proof), Deps := Trim(f.deps),
        Questions := Trim(Rendered(f.questions))]
  }

  /** No stripped field holds a recognised heading, or line ends other than newlines. */
  predicate PrintableFields(f: Fields) {
    && Printable(Trim(f.cause)) && Printable(Trim(f.change)) && Printable(Trim(f.proof)) && Printable(Trim(f.deps))
    && Printable(TrimRight(Rendered(f.questions)))
  }

  lemma TwoBreaks(head: string, text: string)
    ensures head + "\n\n" + text == head + "\n" + ("\n" + text)
  {}

  lemma HeadLines(head: string, text: string)
    requires head != "" && Unended(head)
    ensures Lines(head + "\n\n" + text) == (Lines(head) + [""]) + Lines(text)
  {
    TwoBreaks(head, text);
    LinesAppend(head, "\n" + text);
    BlankFirst(text);
    ConcatAssoc(Lines(head), [""], Lines(text));
  }

  /** The preamble is read as some state of the parser, whatever it holds. */
  lemma PreambleRead(pre: seq<string>, text: string) returns (p: Parsing)
    requires pre != [] ==> JoinBlank(pre) != "" && Trimmed(JoinBlank(pre))
    ensures Fold(START, Lines(FormatHead(pre) + text)) == Fold(p, Lines(text))
  {
    if pre == [] {
      p := START;
      assert "" + text == text;
    } else {
      var head := JoinBlank(pre);
      TrimmedUnended(head);
      HeadLines(head, text);
      FoldConcat(START, Lines(head) + [""], Lines(text));
      p := Fold(START, Lines(head) + [""]);
    }
  }

  /** Parsing what was printed gives every field back, whatever headings the preamble holds. */
  lemma RoundTrip(thought: string, f: Fields, extra: string)
    requires PrintableFields(f)
    ensures Parse(Format(thought, f, extra)) == Expected(f)
  {
    var q := TrimRight(Rendered(f.questions));
    var five := FiveBlocks(Trim(f.cause), Trim(f.change), Trim(f.proof), Trim(f.deps), LastText(Questions, q));
    FormatIs(thought, f, extra);
    PreambleTrimmed(thought, extra);
    var p := PreambleRead(Kept(Preamble(thought, extra)), five);
    FiveRead(p, Trim(f.cause), Trim(f.change), Trim(f.proof), Trim(f.deps), q);
    TrimIdempotent(f.cause);
    TrimIdempotent(f.change);
    TrimIdempotent(f.proof);
    TrimIdempotent(f.deps);
    TrimOfTrimRight(Rendered(f.questions));
  }

  // ---- what comes before the sections ----

  /** A part before the sections, stripped, with the blank line that follows it; nothing if there is nothing in it. */
  function Lead(s: string): string {
    if Trim(s) == "" then "" else Trim(s) + "\n\n"
  }

  lemma KeptFront(part: string, parts: seq<string>)
    requires Kept(parts) != []
    ensures Kept([part] + parts) != []
    ensures JoinBlank(Kept([part] + parts)) == (if part == "" then "" else part + "\n\n") + JoinBlank(Kept(parts))
  {
    assert ([part] + parts)[1..] == parts;
    if part != "" {
      assert ([part] + Kept(parts))[1..] == Kept(parts);
    } else {
      assert [] + Kept(parts) == Kept(parts);
    }
  }

  lemma KeptLead(text: string, parts: seq<string>)
    requires Kept(parts) != []
    ensures var lead := if text != "" then [Trim(text)] else [];
      Kept(lead + parts) != [] && JoinBlank(Kept(lead + parts)) == Lead(text) + JoinBlank(Kept(parts))
  {
    if text != "" {
      KeptFront(Trim(text), parts);
    } else {
      assert [] + parts == parts;
    }
  }

  lemma {:induction false} TrimRightFront(a: string, b: string)
    requires TrimRight(b) != ""
    ensures TrimRight(a + b) == a + TrimRight(b)
    decreases |b|
  {
    assert b != "" && (a + b)[|a + b| - 1] == b[|b| - 1];
    if IsSpace(b[|b| - 1]) {
      assert (a + b)[..|a + b| - 1] == a + b[..|b| - 1];
      TrimRightFront(a, b[..|b| - 1]);
    }
  }

  /** The sections start with a hash, so they are not stripped away at either end. */
  lemma TrimLed(lead: string, body: string)
    requires (lead == "" || !IsSpace(lead[0])) && body != "" && body[0] == '#'
    ensures Trim(lead + body) == lead + Trim(body)
  {
    TrimKeepsHash(body);
    TrimRightFront(lead, body);
    assert TrimLeft(body) == body && TrimLeft(lead + body) == lead + body;
  }

  lemma {:induction false} TrimKeepsHash(body: string)
    requires body != "" && body[0] == '#'
    ensures TrimRight(body) != ""
    decreases |body|
  {
    if IsSpace(body[|body| - 1]) {
      assert |body| > 1;
      TrimKeepsHash(body[..|body| - 1]);
    }
  }

  lemma LeadStarts(thought: string, extra: string)
    ensures var lead := Lead(thought) + Lead(extra); lead == "" || !IsSpace(lead[0])
  {
    TrimIsTrimmed(thought);
    TrimIsTrimmed(extra);
  }

  lemma BlocksJoined(f: Fields)
    ensures Kept(Blocks(f)) != [] && JoinBlank(Kept(Blocks(f))) != "" && JoinBlank(Kept(Blocks(f)))[0] == '#'
  {
    BlocksKept(f);
  }

  lemma PreambleJoined(thought: string, f: Fields, extra: string)
    ensures JoinBlank(Kept(Preamble(thought, extra) + Blocks(f)))
            == Lead(thought) + Lead(extra) + JoinBlank(Kept(Blocks(f)))
  {
    var first := if thought != "" then [Trim(thought)] else [];
    var second := if extra != "" then [Trim(extra)] else [];
    BlocksJoined(f);
    KeptLead(extra, Blocks(f));
    KeptLead(thought, second + Blocks(f));
    ConcatAssoc(first, second, Blocks(f));
    ConcatAssoc(Lead(thought), Lead(extra), JoinBlank(Kept(Blocks(f))));
  }

  /** Nothing printed is lost: the thought comes first, then the extra text, each stripped and followed by a blank line,
      then the sections as they are printed without them. */
  lemma PreambleIsKept(thought: string, f: Fields, extra: string)
    ensures Format(thought, f, extra) == Lead(thought) + Lead(extra) + Format("", f, "")
  {
    var body := JoinBlank(Kept(Blocks(f)));
    PreambleJoined(thought, f, extra);
    PreambleJoined("", f, "");
    BlocksJoined(f);
    LeadStarts(thought, extra);
    TrimLed(Lead(thought) + Lead(extra), body);
    assert Lead("") + Lead("") + body == body;
    ConcatAssoc(Lead(thought) + Lead(extra), Trim(body), "\n");
  }

  // ---- which lines are headings ----

  /** The titles each section goes by. */
  function Names(k: Section): set<string> {
    match k
    case Cause => {"cause or spec", "cause", "spec"}
    case Change => {"change"}
    case Proof => {"proof", "proof commands", "prove"}
    case Deps => {"deps", "dependencies", "after"}
    case Questions => {"open questions", "open question", "questions"}
  }

  /** The second text is the first with its capitals made small. */
  predicate SmallOf(s: string, small: string) {
    |s| == |small|
    && forall i :: 0 <= i < |s| ==>
         if 'A' <= s[i] && s[i] <= 'Z' then small[i] as int == s[i] as int + 32 else small[i] == s[i]
  }

  predicate AllBlank(s: string) {
    forall i :: 0 <= i < |s| ==> IsSpace(s[i])
  }

  function Times(c: char, n: nat): string {
    seq(n, _ => c)
  }

  lemma {:induction false} HashesInFront(n: nat, rest: string)
    requires rest != "" ==> rest[0] != '#'
    ensures Hashes(Times('#', n) + rest) == n
  {
    if n > 0 {
      assert (Times('#', n) + rest)[1..] == Times('#', n - 1) + rest;
      HashesInFront(n - 1, rest);
    } else {
      assert Times('#', 0) + rest == rest;
    }
  }

  lemma {:induction false} HashesSplit(s: string)
    ensures s == Times('#', Hashes(s)) + s[Hashes(s)..]
    decreases |s|
  {
    if s != "" && s[0] == '#' {
      HashesSplit(s[1..]);
      assert s == ['#'] + s[1..];
      assert s[1..][Hashes(s[1..])..] == s[Hashes(s)..];
      assert Times('#', Hashes(s)) == ['#'] + Times('#', Hashes(s[1..]));
    }
  }

  lemma {:induction false} TrimGap(gap: string, s: string)
    requires AllBlank(gap) && s != "" && !IsSpace(s[0])
    ensures TrimLeft(gap + s) == s
    decreases |gap|
  {
    if gap == "" {
      assert gap + s == s;
    } else {
      assert (gap + s)[1..] == gap[1..] + s;
      TrimGap(gap[1..], s);
    }
  }

  lemma {:induction false} GapSplit(s: string) returns (gap: string)
    ensures s == gap + TrimLeft(s) && AllBlank(gap)
    decreases |s|
  {
    gap := "";
    if s != "" && IsSpace(s[0]) {
      gap := GapSplit(s[1..]);
      gap := [s[0]] + gap;
    }
  }

  lemma {:induction false} ColonsAtEnd(s: string, c: nat)
    requires s != "" ==> s[|s| - 1] != ':'
    ensures DropColons(s + Times(':', c)) == s
  {
    var t := s + Times(':', c);
    if c > 0 {
      assert t[..|t| - 1] == s + Times(':', c - 1);
      ColonsAtEnd(s, c - 1);
    } else {
      assert t == s;
    }
  }

  lemma {:induction false} ColonsSplit(s: string)
    ensures |DropColons(s)| <= |s| && s == DropColons(s) + Times(':', |s| - |DropColons(s)|)
    decreases |s|
  {
    if s != "" && s[|s| - 1] == ':' {
      var rest := s[..|s| - 1];
      ColonsSplit(rest);
      assert s == rest + [':'];
      assert Times(':', |s| - |DropColons(s)|) == Times(':', |rest| - |DropColons(s)|) + [':'];
    } else {
      assert s + Times(':', 0) == s;
    }
  }

  lemma NamesAreWords(k: Section, name: string)
    requires name in Names(k)
    ensures name != "" && 'a' <= name[0] <= 'z' && 'a' <= name[|name| - 1] <= 'z' && Alias(name) == Some(k)
  {}

  lemma AliasIsName(name: string)
    ensures Alias(name).Some? ==> name in Names(Alias(name).value)
  {}

  /** A heading, stripped: one to three hashes, white space, a title in small or capital letters, and colons. */
  predicate HeadingParts(line: string, k: Section, n: nat, gap: string, word: string, name: string, c: nat) {
    && Trim(line) == Times('#', n) + (gap + (word + Times(':', c)))
    && 1 <= n && n <= 3 && gap != "" && AllBlank(gap) && SmallOf(word, name) && name in Names(k)
  }

  lemma WordEnds(word: string, name: string, c: nat)
    requires SmallOf(word, name) && name != "" && 'a' <= name[0] <= 'z' && 'a' <= name[|name| - 1] <= 'z'
    ensures word + Times(':', c) != "" && Trimmed(word + Times(':', c))
  {
    var text := word + Times(':', c);
    assert text[0] == word[0] && text[|text| - 1] == if c == 0 then word[|word| - 1] else ':';
  }

  lemma WordLow(word: string, name: string, c: nat)
    requires SmallOf(word, name) && name != "" && name[|name| - 1] != ':'
    ensures DropColons(Lower(word + Times(':', c))) == name
  {
    LowerIs(name + Times(':', c), word + Times(':', c));
    ColonsAtEnd(name, c);
  }

  lemma TitleText(k: Section, word: string, name: string, c: nat)
    requires SmallOf(word, name) && name in Names(k)
    ensures var text := word + Times(':', c);
      text != "" && Trimmed(text) && Alias(DropColons(Lower(text))) == Some(k)
  {
    NamesAreWords(k, name);
    WordEnds(word, name, c);
    WordLow(word, name, c);
  }

  /** Such a line is read as the heading of its section. */
  lemma HeadingRead(line: string, k: Section, n: nat, gap: string, word: string, name: string, c: nat)
    requires HeadingParts(line, k, n, gap, word, name, c)
    ensures Heading(line) == Some(k)
  {
    var l := Trim(line);
    var text := word + Times(':', c);
    TitleText(k, word, name, c);
    HashesInFront(n, gap + text);
    assert l[n..] == gap + text && l[n] == gap[0];
    TrimGap(gap, text);
    assert Trim(l[n..]) == text;
  }

  lemma {:induction false} GapEnds(s: string)
    requires s != "" && !IsSpace(s[|s| - 1])
    ensures var t := TrimLeft(s); t != "" && !IsSpace(t[0]) && t[|t| - 1] == s[|s| - 1]
    decreases |s|
  {
    if IsSpace(s[0]) {
      assert |s| > 1;
      GapEnds(s[1..]);
    }
  }

  lemma LowerColon(c: char)
    ensures LowerChar(c) == ':' ==> c == ':'
  {}

  /** A text that is a name and colons in small letters is a spelling of the name, and the same colons. */
  lemma SmallSplit(text: string, small: string, name: string, c: nat)
    requires |small| == |text| && forall i :: 0 <= i < |text| ==> small[i] == LowerChar(text[i])
    requires small == name + Times(':', c)
    ensures text == text[..|name|] + Times(':', c) && SmallOf(text[..|name|], name)
  {
    forall i | |name| <= i < |text| ensures text[i] == ':' {
      assert small[i] == Times(':', c)[i - |name|];
      LowerColon(text[i]);
    }
    forall i | 0 <= i < |name| ensures name[i] == LowerChar(text[i]) {
      assert small[i] == name[i];
    }
  }

  /** No other line is. */
  lemma HeadingIs(line: string)
    returns (n: nat, gap: string, word: string, name: string, c: nat)
    requires Heading(line).Some?
    ensures HeadingParts(line, Heading(line).value, n, gap, word, name, c)
  {
    var l := Trim(line);
    n := Hashes(l);
    var rest := l[n..];
    HashesSplit(l);
    gap := GapSplit(rest);
    var text := TrimLeft(rest);
    TrimIsTrimmed(line);
    assert rest[|rest| - 1] == l[|l| - 1];
    GapEnds(rest);
    assert Trim(rest) == text && gap != "";
    var small := Lower(text);
    ColonsSplit(small);
    name := DropColons(small);
    c := |small| - |name|;
    word := text[..|name|];
    AliasIsName(name);
    SmallSplit(text, small, name, c);
  }

  // ---- how the questions are printed ----

  predicate NoBreaks(s: string) {
    forall i :: 0 <= i < |s| ==> !IsBreak(s[i])
  }

  lemma {:induction false} BulletLines(items: seq<string>)
    requires items != [] && forall i :: 0 <= i < |items| ==> NoBreaks(items[i])
    ensures var lines := Lines(JoinLines(Bulleted(items)));
      |lines| == |items| && forall i :: 0 <= i < |items| ==> lines[i] == "- " + items[i]
    decreases |items|
  {
    var line := "- " + items[0];
    assert NoBreaks(line);
    OneLine(line);
    if |items| > 1 {
      var rest := items[1..];
      BulletLines(rest);
      TextLines.JoinCons(line, Bulleted(rest));
      LinesAppend(line, JoinLines(Bulleted(rest)));
    } else {
      assert Bulleted(items) == [line];
    }
  }

  /** Each listed question takes one line behind a dash; a text stands as it is; nothing to ask is "(none)". */
  lemma QuestionsPrinted(q: QuestionField)
    ensures q == Plainly("") || q == Items([]) ==> Rendered(q) == "(none)"
    ensures q.Plainly? && q.text != "" ==> Rendered(q) == q.text
    ensures q.Items? && q.items != [] && (forall i :: 0 <= i < |q.items| ==> NoBreaks(q.items[i])) ==>
              var lines := Lines(Rendered(q));
              |lines| == |q.items| && forall i :: 0 <= i < |lines| ==> lines[i] == "- " + q.items[i]
  {
    if q.Items? && q.items != [] && forall i :: 0 <= i < |q.items| ==> NoBreaks(q.items[i]) {
      BulletLines(q.items);
    }
  }
}
