/** Pairing run starts with run ends in an event log (no receipts), against a plain stack per seat and run number. */
module RunPairing {
  import opened Wrappers
  import opened Sequences

  type Seat = string

  datatype Kind = RunStart | RunEnd | Other

  /** An empty `runId` means the event carries none. `result` stands for exit code, outcome, duration and tokens. */
  datatype Event = Event(kind: Kind, seat: Seat, runId: string, runNo: Option<int>, dry: bool, ticket: string,
                         harness: string, trigger: seq<string>, startedAt: string, endedAt: string, at: string,
                         result: string)

  datatype Key = Id(id: string) | Legacy(n: nat)

  datatype Row = Row(seat: Seat, runId: string, runNo: Option<int>, ticket: string, harness: string,
                     trigger: seq<string>, started: string, ended: string, open: bool, result: string)

  datatype Table = Table(runs: map<Key, Row>, order: seq<Key>, legacySeq: nat)

  const EMPTY := Table(map[], [], 0)

  // ---- one event ----

  predicate OpenLegacyRow(runs: map<Key, Row>, k: Key, seat: Seat, no: Option<int>) {
    k in runs && runs[k].seat == seat && runs[k].runNo == no && runs[k].open && runs[k].runId == ""
  }

  /** The open rows without a run id of one seat and run number, oldest first. */
  function OpenRows(order: seq<Key>, runs: map<Key, Row>, seat: Seat, no: Option<int>): seq<Key> {
    if order == [] then []
    else var k := order[|order| - 1];
      OpenRows(order[..|order| - 1], runs, seat, no) + if OpenLegacyRow(runs, k, seat, no) then [k] else []
  }

  function Latest(t: Table, seat: Seat, no: Option<int>): Option<Key> {
    var open := OpenRows(t.order, t.runs, seat, no);
    if open == [] then None else Some(open[|open| - 1])
  }

  /** The order without the (one) occurrence of a key. */
  function Without(order: seq<Key>, k: Key): seq<Key> {
    if order == [] then [] else if order[0] == k then order[1..] else [order[0]] + Without(order[1..], k)
  }

  lemma WithoutCons(x: Key, ks: seq<Key>, k: Key)
    ensures Without([x] + ks, k) == if x == k then ks else [x] + Without(ks, k)
  {
    assert ([x] + ks)[1..] == ks;
  }

  lemma {:induction false} WithoutAfter(front: seq<Key>, back: seq<Key>, k: Key)
    requires k !in front
    ensures Without(front + back, k) == front + Without(back, k)
    decreases |front|
  {
    if front == [] {
      assert front + back == back;
    } else {
      var x, rest := front[0], front[1..];
      assert front == [x] + rest;
      WithoutAfter(rest, back, k);
      ConcatAssoc([x], rest, back);
      WithoutCons(x, rest + back, k);
      ConcatAssoc([x], rest, Without(back, k));
    }
  }

  lemma WithoutFirst(order: seq<Key>, i: nat, k: Key)
    requires i <= |order| && k !in order[..i] && (i < |order| ==> order[i] == k)
    ensures Without(order, k) == if i < |order| then order[..i] + order[i + 1..] else order
  {
    WithoutAfter(order[..i], order[i..], k);
    assert order == order[..i] + order[i..];
  }

  function Drop(t: Table, k: Key): Table {
    Table(t.runs - {k}, Without(t.order, k), t.legacySeq)
  }

  function Or(a: string, b: string): string {
    if a != "" then a else b
  }

  /** The fields an event adds to its row: what is there stays, and an end closes. */
  function Filled(r: Row, e: Event): Row {
    var started := Or(r.started, Or(e.startedAt, if e.kind.RunStart? then e.at else ""));
    var noted := r.(seat := Or(r.seat, e.seat), runNo := if r.runNo.None? then e.runNo else r.runNo,
                    ticket := Or(r.ticket, e.ticket), harness := Or(r.harness, e.harness),
                    trigger := if r.trigger != [] then r.trigger else e.trigger, started := started);
    if e.kind.RunEnd? then noted.(open := false, ended := Or(e.endedAt, e.at), result := e.result) else noted
  }

  function Blank(e: Event): Row {
    Row(e.seat, e.runId, e.runNo, "", "", [], "", "", true, "")
  }

  function KeyOf(t: Table, e: Event): Key {
    if e.runId != "" then Id(e.runId)
    else if e.kind.RunEnd? && Latest(t, e.seat, e.runNo).Some? then Latest(t, e.seat, e.runNo).value
    else Legacy(t.legacySeq + 1)
  }

  function Recorded(t: Table, e: Event): Table {
    var k := KeyOf(t, e);
    var before := if k in t.runs then t.runs[k] else Blank(e);
    Table(t.runs[k := Filled(before, e)], if k in t.runs then t.order else t.order + [k],
          if k == Legacy(t.legacySeq + 1) then t.legacySeq + 1 else t.legacySeq)
  }

  function DryEnded(t: Table, e: Event): Table {
    if e.runId != "" then
      if Id(e.runId) in t.runs && t.runs[Id(e.runId)].open then Drop(t, Id(e.runId)) else t
    else match Latest(t, e.seat, e.runNo)
         case Some(k) => Drop(t, k)
         case None => t
  }

  predicate Ignored(e: Event) {
    e.kind.Other? || e.seat == "" || (e.dry && e.kind.RunStart?)
  }

  function Step(t: Table, e: Event): Table {
    if Ignored(e) then t else if e.dry then DryEnded(t, e) else Recorded(t, e)
  }

  function Steps(t: Table, es: seq<Event>): Table
    decreases |es|
  {
    if es == [] then t else Steps(Step(t, es[0]), es[1..])
  }

  // ---- the loops over the event log ----

  class RunTable {
    var runs: map<Key, Row>
    var order: seq<Key>
    var legacySeq: nat

    constructor ()
      ensures State() == EMPTY
    {
      runs, order, legacySeq := map[], [], 0;
    }

    function State(): Table
      reads this
    {
      Table(runs, order, legacySeq)
    }

    /** Looks from the newest row back. */
    method OpenLegacy(seat: Seat, no: Option<int>) returns (hit: Option<Key>)
      ensures hit == Latest(State(), seat, no)
    {
      var i := |order|;
      assert order[..i] == order;
      while i > 0
        invariant 0 <= i <= |order|
        invariant OpenRows(order[..i], runs, seat, no) == OpenRows(order, runs, seat, no)
      {
        assert order[..i][..i - 1] == order[..i - 1];
        if OpenLegacyRow(runs, order[i - 1], seat, no) {
          return Some(order[i - 1]);
        }
        i := i - 1;
      }
      hit := None;
    }

    method DropRow(k: Key)
      modifies this
      ensures State() == Drop(old(State()), k)
    {
      runs := runs - {k};
      var i := 0;
      while i < |order| && order[i] != k
        invariant 0 <= i <= |order| && k !in order[..i]
      {
        i := i + 1;
      }
      WithoutFirst(order, i, k);
      if i < |order| {
        order := order[..i] + order[i + 1..];
      }
    }

    method Apply(e: Event)
      modifies this
      ensures State() == Step(old(State()), e)
    {
      if e.kind.Other? || e.seat == "" {
        return;
      }
      if e.dry {
        if e.kind.RunEnd? {
          if e.runId != "" {
            if Id(e.runId) in runs && runs[Id(e.runId)].open {
              DropRow(Id(e.runId));
            }
          } else {
            var hit := OpenLegacy(e.seat, e.runNo);
            if hit.Some? {
              DropRow(hit.value);
            }
          }
        }
        return;
      }
      var k := Id(e.runId);
      if e.runId == "" {
        var hit := OpenLegacy(e.seat, e.runNo);
        if e.kind.RunEnd? && hit.Some? {
          k := hit.value;
        } else {
          k := Legacy(legacySeq + 1);
        }
      }
      if k == Legacy(legacySeq + 1) {
        legacySeq := legacySeq + 1;
      }
      if k !in runs {
        runs := runs[k := Blank(e)];
        order := order + [k];
      }
      runs := runs[k := Filled(runs[k], e)];
    }

    method ApplyAll(es: seq<Event>)
      modifies this
      ensures State() == Steps(old(State()), es)
    {
      for i := 0 to |es|
        invariant Steps(State(), es[i..]) == Steps(old(State()), es)
      {
        assert es[i..][1..] == es[i + 1..];
        Apply(es[i]);
      }
    }
  }

  // ---- the table is well formed ----

  /** `order` lists exactly the keys of `runs`, once each; rows without a run id are numbered, and numbered so far. */
  ghost predicate Valid(t: Table) {
    && Distinct(t.order)
    && (forall k :: k in t.order <==> k in t.runs)
    && (forall k :: k in t.runs && k.Legacy? ==> 0 < k.n <= t.legacySeq && t.runs[k].runId == "")
    && (forall k :: k in t.runs && k.Id? ==> k.id != "" && t.runs[k].runId == k.id)
  }

  lemma {:induction false} WithoutMembers(order: seq<Key>, k: Key)
    requires Distinct(order)
    ensures Distinct(Without(order, k))
    ensures forall x :: x in Without(order, k) <==> x in order && x != k
    decreases |order|
  {
    if order != [] {
      var rest := order[1..];
      assert Distinct(rest) by {
        forall i, j | 0 <= i < j < |rest| ensures rest[i] != rest[j] {
          assert order[i + 1] != order[j + 1];
        }
      }
      assert order[0] !in rest by {
        forall i | 0 <= i < |rest| ensures rest[i] != order[0] {
          assert order[0] != order[i + 1];
        }
      }
      assert order == [order[0]] + rest;
      WithoutMembers(rest, k);
      if order[0] != k {
        DistinctConcat([order[0]], Without(rest, k));
      }
    }
  }

  lemma {:induction false} OpenRowsMember(order: seq<Key>, runs: map<Key, Row>, seat: Seat, no: Option<int>, k: Key)
    ensures k in OpenRows(order, runs, seat, no) <==> k in order && OpenLegacyRow(runs, k, seat, no)
    decreases |order|
  {
    if order != [] {
      var rest := order[..|order| - 1];
      OpenRowsMember(rest, runs, seat, no, k);
      assert order == rest + [order[|order| - 1]];
    }
  }

  lemma LatestIsOpen(t: Table, seat: Seat, no: Option<int>)
    requires Valid(t) && Latest(t, seat, no).Some?
    ensures var k := Latest(t, seat, no).value; k in t.runs && k.Legacy? && OpenLegacyRow(t.runs, k, seat, no)
  {
    var open := OpenRows(t.order, t.runs, seat, no);
    OpenRowsMember(t.order, t.runs, seat, no, open[|open| - 1]);
  }

  lemma DropValid(t: Table, k: Key)
    requires Valid(t)
    ensures Valid(Drop(t, k))
  {
    WithoutMembers(t.order, k);
  }

  lemma RecordedValid(t: Table, e: Event)
    requires Valid(t) && !Ignored(e)
    ensures Valid(Recorded(t, e))
  {
    if e.runId == "" && Latest(t, e.seat, e.runNo).Some? {
      LatestIsOpen(t, e.seat, e.runNo);
    }
    var k := KeyOf(t, e);
    if k !in t.runs {
      DistinctConcat(t.order, [k]);
    }
  }

  lemma StepValid(t: Table, e: Event)
    requires Valid(t)
    ensures Valid(Step(t, e))
  {
    if !Ignored(e) {
      if !e.dry {
        RecordedValid(t, e);
      } else if e.runId != "" {
        DropValid(t, Id(e.runId));
      } else if Latest(t, e.seat, e.runNo).Some? {
        DropValid(t, Latest(t, e.seat, e.runNo).value);
      }
    }
  }

  lemma {:induction false} StepsValid(t: Table, es: seq<Event>)
    requires Valid(t)
    ensures Valid(Steps(t, es))
    decreases |es|
  {
    if es != [] {
      StepValid(t, es[0]);
      StepsValid(Step(t, es[0]), es[1..]);
    }
  }

  // ---- the reference: one stack per seat and run number ----

  datatype Slot = Slot(seat: Seat, no: Option<int>)

  /** `numbered` counts the rows ever numbered; `starts`, `lone` and `consumed` the starts, the ends that matched
      nothing, and the starts a dry end took back. */
  datatype Ref = Ref(numbered: nat, stacks: map<Slot, seq<nat>>, starts: nat, lone: nat, consumed: nat)

  const FRESH := Ref(0, map[], 0, 0, 0)

  function StackOf(r: Ref, s: Slot): seq<nat> {
    if s in r.stacks then r.stacks[s] else []
  }

  function RefStep(r: Ref, e: Event): Ref {
    var s := Slot(e.seat, e.runNo);
    var st := StackOf(r, s);
    if Ignored(e) || e.runId != "" then r
    else if e.kind.RunStart? then
      r.(numbered := r.numbered + 1, stacks := r.stacks[s := st + [r.numbered + 1]], starts := r.starts + 1)
    else if st != [] then
      r.(stacks := r.stacks[s := st[..|st| - 1]], consumed := if e.dry then r.consumed + 1 else r.consumed)
    else if e.dry then r
    else r.(numbered := r.numbered + 1, lone := r.lone + 1)
  }

  function RefSteps(r: Ref, es: seq<Event>): Ref
    decreases |es|
  {
    if es == [] then r else RefSteps(RefStep(r, es[0]), es[1..])
  }

  function LegacyKeys(ns: seq<nat>): (ks: seq<Key>)
    ensures |ks| == |ns|
  {
    if ns == [] then [] else LegacyKeys(ns[..|ns| - 1]) + [Legacy(ns[|ns| - 1])]
  }

  function LegacyCount(order: seq<Key>): nat {
    if order == [] then 0 else (if order[0].Legacy? then 1 else 0) + LegacyCount(order[1..])
  }

  predicate RepAt(t: Table, r: Ref, seat: Seat, no: Option<int>) {
    OpenRows(t.order, t.runs, seat, no) == LegacyKeys(StackOf(r, Slot(seat, no)))
  }

  ghost predicate Rep(t: Table, r: Ref) {
    && t.legacySeq == r.numbered
    && LegacyCount(t.order) + r.consumed == r.starts + r.lone
    && forall seat, no :: RepAt(t, r, seat, no)
  }

  // ---- how open rows change ----

  lemma {:induction false} OpenRowsSame(order: seq<Key>, a: map<Key, Row>, b: map<Key, Row>, seat: Seat,
                                        no: Option<int>)
    requires forall k :: k in order ==> (OpenLegacyRow(a, k, seat, no) <==> OpenLegacyRow(b, k, seat, no))
    ensures OpenRows(order, a, seat, no) == OpenRows(order, b, seat, no)
    decreases |order|
  {
    if order != [] {
      var rest := order[..|order| - 1];
      assert forall k :: k in rest ==> k in order;
      assert order[|order| - 1] in order;
      OpenRowsSame(rest, a, b, seat, no);
    }
  }

  lemma {:induction false} OpenRowsFront(order: seq<Key>, runs: map<Key, Row>, seat: Seat, no: Option<int>)
    requires order != []
    ensures OpenRows(order, runs, seat, no)
            == (if OpenLegacyRow(runs, order[0], seat, no) then [order[0]] else [])
               + OpenRows(order[1..], runs, seat, no)
    decreases |order|
  {
    var rest := order[..|order| - 1];
    if rest == [] {
      assert order[1..] == [];
    } else {
      OpenRowsFront(rest, runs, seat, no);
      assert rest[1..] == order[1..][..|order| - 2];
    }
  }

  lemma {:induction false} WithoutAbsent(ks: seq<Key>, k: Key)
    requires k !in ks
    ensures Without(ks, k) == ks
    decreases |ks|
  {
    if ks != [] {
      assert ks == [ks[0]] + ks[1..];
      WithoutAbsent(ks[1..], k);
    }
  }

  lemma {:induction false} WithoutLast(ks: seq<Key>)
    requires ks != [] && Distinct(ks)
    ensures Without(ks, ks[|ks| - 1]) == ks[..|ks| - 1]
    decreases |ks|
  {
    if |ks| > 1 {
      var rest := ks[1..];
      DistinctTail(ks);
      WithoutLast(rest);
      assert ks[0] != ks[|ks| - 1];
      assert ks[..|ks| - 1] == [ks[0]] + rest[..|rest| - 1];
    }
  }

  lemma DistinctTail(ks: seq<Key>)
    requires ks != [] && Distinct(ks)
    ensures Distinct(ks[1..]) && ks[0] !in ks[1..]
  {
    var rest := ks[1..];
    forall i, j | 0 <= i < j < |rest| ensures rest[i] != rest[j] {
      assert ks[i + 1] != ks[j + 1];
    }
    forall i | 0 <= i < |rest| ensures rest[i] != ks[0] {
      assert ks[0] != ks[i + 1];
    }
  }

  /** Closing or dropping a row takes it out of the open rows, wherever it was. */
  lemma {:induction false} OpenRowsWithout(order: seq<Key>, a: map<Key, Row>, more: seq<Key>, b: map<Key, Row>, k: Key,
                                           seat: Seat, no: Option<int>)
    requires Distinct(order) && (more == order || more == Without(order, k))
    requires !OpenLegacyRow(b, k, seat, no)
    requires forall x :: x in order && x != k ==> (OpenLegacyRow(a, x, seat, no) <==> OpenLegacyRow(b, x, seat, no))
    ensures OpenRows(more, b, seat, no) == Without(OpenRows(order, a, seat, no), k)
    decreases |order|
  {
    if order != [] {
      var rest := order[1..];
      DistinctTail(order);
      assert order == [order[0]] + rest;
      OpenRowsFront(order, a, seat, no);
      OpenRowsFront(order, b, seat, no);
      WithoutCons(order[0], OpenRows(rest, a, seat, no), k);
      assert [] + OpenRows(rest, a, seat, no) == OpenRows(rest, a, seat, no);
      if order[0] == k {
        OpenRowsSame(rest, a, b, seat, no);
        OpenRowsMember(rest, a, seat, no, k);
        WithoutAbsent(OpenRows(rest, a, seat, no), k);
      } else {
        var left := if more == order then rest else Without(rest, k);
        OpenRowsWithout(rest, a, left, b, k, seat, no);
        assert more == [order[0]] + left;
        assert more[1..] == left;
        OpenRowsFront(more, b, seat, no);
      }
    }
  }

  lemma {:induction false} OpenRowsDistinct(order: seq<Key>, runs: map<Key, Row>, seat: Seat, no: Option<int>)
    requires Distinct(order)
    ensures Distinct(OpenRows(order, runs, seat, no))
    decreases |order|
  {
    if order != [] {
      DistinctTail(order);
      OpenRowsFront(order, runs, seat, no);
      OpenRowsDistinct(order[1..], runs, seat, no);
      OpenRowsMember(order[1..], runs, seat, no, order[0]);
      if OpenLegacyRow(runs, order[0], seat, no) {
        DistinctConcat([order[0]], OpenRows(order[1..], runs, seat, no));
      }
    }
  }

  /** Taking the latest open row away pops the stack of its slot and touches no other. */
  lemma LatestTakenAway(t: Table, n: Table, seat: Seat, no: Option<int>, s: Seat, o: Option<int>)
    requires Valid(t) && Latest(t, seat, no).Some?
    requires var k := Latest(t, seat, no).value;
      && (n.order == t.order || n.order == Without(t.order, k))
      && (k in n.runs ==> !n.runs[k].open)
      && (forall x :: x != k ==> (x in n.runs <==> x in t.runs) && (x in t.runs ==> n.runs[x] == t.runs[x]))
    ensures var open := OpenRows(t.order, t.runs, s, o);
      OpenRows(n.order, n.runs, s, o) == if s == seat && o == no then open[..|open| - 1] else open
  {
    var k := Latest(t, seat, no).value;
    var open := OpenRows(t.order, t.runs, s, o);
    LatestIsOpen(t, seat, no);
    OpenRowsWithout(t.order, t.runs, n.order, n.runs, k, s, o);
    if s == seat && o == no {
      OpenRowsDistinct(t.order, t.runs, s, o);
      WithoutLast(open);
    } else {
      OpenRowsMember(t.order, t.runs, s, o, k);
      WithoutAbsent(open, k);
    }
  }

  lemma {:induction false} LegacyCountWithout(order: seq<Key>, k: Key)
    requires k in order
    ensures LegacyCount(Without(order, k)) == LegacyCount(order) - if k.Legacy? then 1 else 0
    decreases |order|
  {
    if order[0] != k {
      assert order == [order[0]] + order[1..];
      LegacyCountWithout(order[1..], k);
    }
  }

  lemma {:induction false} LegacyCountSnoc(order: seq<Key>, k: Key)
    ensures LegacyCount(order + [k]) == LegacyCount(order) + if k.Legacy? then 1 else 0
    decreases |order|
  {
    if order != [] {
      assert (order + [k])[1..] == order[1..] + [k];
      LegacyCountSnoc(order[1..], k);
    }
  }

  // ---- every event acts on the table as on the stacks ----

  lemma IdEventKeepsStacks(t: Table, r: Ref, e: Event)
    requires Valid(t) && Rep(t, r) && (Ignored(e) || e.runId != "")
    ensures Rep(Step(t, e), r)
  {
    var n := Step(t, e);
    if !Ignored(e) {
      var k := Id(e.runId);
      if !e.dry && k !in t.runs {
        LegacyCountSnoc(t.order, k);
      } else if e.dry && k in t.runs {
        LegacyCountWithout(t.order, k);
      }
      forall seat, no ensures RepAt(n, r, seat, no) {
        assert RepAt(t, r, seat, no);
        IdEventKeepsOpenRows(t, e, seat, no);
      }
    }
  }

  lemma IdDropKeepsOpenRows(t: Table, k: Key, seat: Seat, no: Option<int>)
    requires Valid(t) && k.Id? && k in t.runs
    ensures OpenRows(Drop(t, k).order, Drop(t, k).runs, seat, no) == OpenRows(t.order, t.runs, seat, no)
  {
    OpenRowsMember(t.order, t.runs, seat, no, k);
    OpenRowsWithout(t.order, t.runs, Drop(t, k).order, Drop(t, k).runs, k, seat, no);
    WithoutAbsent(OpenRows(t.order, t.runs, seat, no), k);
  }

  lemma IdEventKeepsOpenRows(t: Table, e: Event, seat: Seat, no: Option<int>)
    requires Valid(t) && !Ignored(e) && e.runId != ""
    ensures OpenRows(Step(t, e).order, Step(t, e).runs, seat, no) == OpenRows(t.order, t.runs, seat, no)
  {
    var k := Id(e.runId);
    if e.dry {
      if k in t.runs {
        IdDropKeepsOpenRows(t, k, seat, no);
      }
    } else {
      var n := Recorded(t, e);
      OpenRowsSame(t.order, t.runs, n.runs, seat, no);
      if k !in t.runs {
        assert n.order[..|n.order| - 1] == t.order;
      }
    }
  }

  /** A new numbered row is pushed if it is open. */
  lemma NewRowPushes(t: Table, e: Event, seat: Seat, no: Option<int>)
    requires Valid(t) && !Ignored(e) && !e.dry && KeyOf(t, e) == Legacy(t.legacySeq + 1)
    ensures OpenRows(Step(t, e).order, Step(t, e).runs, seat, no)
            == OpenRows(t.order, t.runs, seat, no)
               + if e.kind.RunStart? && seat == e.seat && no == e.runNo then [Legacy(t.legacySeq + 1)] else []
  {
    var n := Step(t, e);
    assert n.order[..|n.order| - 1] == t.order;
    OpenRowsSame(t.order, t.runs, n.runs, seat, no);
  }

  /** The top of the reference stack is the latest open row. */
  lemma TopIsLatest(t: Table, r: Ref, seat: Seat, no: Option<int>)
    requires RepAt(t, r, seat, no)
    ensures var st := StackOf(r, Slot(seat, no));
      Latest(t, seat, no) == if st == [] then None else Some(Legacy(st[|st| - 1]))
  {}

  lemma RefPopped(r: Ref, e: Event, seat: Seat, no: Option<int>)
    requires !Ignored(e) && e.runId == "" && e.kind.RunEnd? && StackOf(r, Slot(e.seat, e.runNo)) != []
    ensures var st := StackOf(r, Slot(seat, no));
      StackOf(RefStep(r, e), Slot(seat, no)) == if seat == e.seat && no == e.runNo then st[..|st| - 1] else st
  {}

  lemma RefPushed(r: Ref, e: Event, seat: Seat, no: Option<int>)
    requires !Ignored(e) && e.runId == "" && !e.dry
    requires e.kind.RunStart? || StackOf(r, Slot(e.seat, e.runNo)) == []
    ensures StackOf(RefStep(r, e), Slot(seat, no))
            == StackOf(r, Slot(seat, no))
               + if e.kind.RunStart? && seat == e.seat && no == e.runNo then [r.numbered + 1] else []
  {}

  lemma EndTakesLatest(t: Table, e: Event)
    requires Valid(t) && !Ignored(e) && e.runId == "" && e.kind.RunEnd? && Latest(t, e.seat, e.runNo).Some?
    ensures var k := Latest(t, e.seat, e.runNo).value; var n := Step(t, e);
      && (n.order == t.order || n.order == Without(t.order, k))
      && (k in n.runs ==> !n.runs[k].open)
      && (forall x :: x != k ==> (x in n.runs <==> x in t.runs) && (x in t.runs ==> n.runs[x] == t.runs[x]))
  {
    LatestIsOpen(t, e.seat, e.runNo);
  }

  lemma PoppedRepAt(t: Table, r: Ref, e: Event, seat: Seat, no: Option<int>)
    requires Valid(t) && RepAt(t, r, e.seat, e.runNo) && RepAt(t, r, seat, no)
    requires !Ignored(e) && e.runId == "" && e.kind.RunEnd? && StackOf(r, Slot(e.seat, e.runNo)) != []
    ensures RepAt(Step(t, e), RefStep(r, e), seat, no)
  {
    TopIsLatest(t, r, e.seat, e.runNo);
    EndTakesLatest(t, e);
    LatestTakenAway(t, Step(t, e), e.seat, e.runNo, seat, no);
    RefPopped(r, e, seat, no);
  }

  lemma PushedKey(t: Table, r: Ref, e: Event)
    requires RepAt(t, r, e.seat, e.runNo) && e.runId == ""
    requires e.kind.RunStart? || StackOf(r, Slot(e.seat, e.runNo)) == []
    ensures KeyOf(t, e) == Legacy(t.legacySeq + 1)
  {
    TopIsLatest(t, r, e.seat, e.runNo);
  }

  lemma PushedRepAt(t: Table, r: Ref, e: Event, seat: Seat, no: Option<int>)
    requires Valid(t) && RepAt(t, r, e.seat, e.runNo) && RepAt(t, r, seat, no) && t.legacySeq == r.numbered
    requires !Ignored(e) && e.runId == "" && !e.dry
    requires e.kind.RunStart? || StackOf(r, Slot(e.seat, e.runNo)) == []
    ensures RepAt(Step(t, e), RefStep(r, e), seat, no)
  {
    PushedKey(t, r, e);
    NewRowPushes(t, e, seat, no);
    RefPushed(r, e, seat, no);
    Pushed(t, r, Step(t, e), RefStep(r, e), seat, no, e.kind.RunStart? && seat == e.seat && no == e.runNo,
           r.numbered + 1);
  }

  lemma Pushed(t: Table, r: Ref, n: Table, q: Ref, seat: Seat, no: Option<int>, push: bool, k: nat)
    requires RepAt(t, r, seat, no)
    requires OpenRows(n.order, n.runs, seat, no)
             == OpenRows(t.order, t.runs, seat, no) + if push then [Legacy(k)] else []
    requires StackOf(q, Slot(seat, no)) == StackOf(r, Slot(seat, no)) + if push then [k] else []
    ensures RepAt(n, q, seat, no)
  {
    var st := StackOf(r, Slot(seat, no));
    if push {
      PushedKeys(st, k);
    } else {
      assert st + [] == st;
    }
  }

  lemma PushedKeys(st: seq<nat>, n: nat)
    ensures LegacyKeys(st + [n]) == LegacyKeys(st) + [Legacy(n)]
  {
    assert (st + [n])[..|st|] == st;
  }

  lemma StackEventCounts(t: Table, r: Ref, e: Event)
    requires Valid(t) && Rep(t, r) && !Ignored(e) && e.runId == ""
    ensures var n, q := Step(t, e), RefStep(r, e);
      n.legacySeq == q.numbered && LegacyCount(n.order) + q.consumed == q.starts + q.lone
  {
    assert RepAt(t, r, e.seat, e.runNo);
    TopIsLatest(t, r, e.seat, e.runNo);
    var latest := Latest(t, e.seat, e.runNo);
    if e.kind.RunEnd? && latest.Some? {
      LatestIsOpen(t, e.seat, e.runNo);
      if e.dry {
        LegacyCountWithout(t.order, latest.value);
      }
    } else if !e.dry {
      LegacyCountSnoc(t.order, Legacy(t.legacySeq + 1));
    }
  }

  lemma StackEventRep(t: Table, r: Ref, e: Event)
    requires Valid(t) && Rep(t, r) && !Ignored(e) && e.runId == ""
    ensures Rep(Step(t, e), RefStep(r, e))
  {
    StackEventCounts(t, r, e);
    forall seat, no ensures RepAt(Step(t, e), RefStep(r, e), seat, no) {
      assert RepAt(t, r, e.seat, e.runNo) && RepAt(t, r, seat, no);
      if e.kind.RunEnd? && StackOf(r, Slot(e.seat, e.runNo)) != [] {
        PoppedRepAt(t, r, e, seat, no);
      } else if !e.dry {
        PushedRepAt(t, r, e, seat, no);
      } else {
        TopIsLatest(t, r, e.seat, e.runNo);
      }
    }
  }

  lemma StepRep(t: Table, r: Ref, e: Event)
    requires Valid(t) && Rep(t, r)
    ensures Rep(Step(t, e), RefStep(r, e))
  {
    if Ignored(e) || e.runId != "" {
      IdEventKeepsStacks(t, r, e);
    } else {
      StackEventRep(t, r, e);
    }
  }

  lemma {:induction false} StepsRep(t: Table, r: Ref, es: seq<Event>)
    requires Valid(t) && Rep(t, r)
    ensures Rep(Steps(t, es), RefSteps(r, es))
    decreases |es|
  {
    if es != [] {
      StepRep(t, r, es[0]);
      StepValid(t, es[0]);
      StepsRep(Step(t, es[0]), RefStep(r, es[0]), es[1..]);
    }
  }

  /** After any log: the rows still open for a seat and run number are the reference stack of that slot, the rows
      without a run id number the starts plus the unmatched ends less the starts dry ends took back, and `order` lists
      exactly the rows, once each. */
  lemma PairingIsAStack(es: seq<Event>, seat: Seat, no: Option<int>)
    ensures var t := Steps(EMPTY, es); var r := RefSteps(FRESH, es);
      && OpenRows(t.order, t.runs, seat, no) == LegacyKeys(StackOf(r, Slot(seat, no)))
      && LegacyCount(t.order) == r.starts + r.lone - r.consumed
      && Distinct(t.order) && forall k :: k in t.order <==> k in t.runs
  {
    assert Rep(EMPTY, FRESH) by {
      forall s, o ensures RepAt(EMPTY, FRESH, s, o) {
      }
    }
    StepsRep(EMPTY, FRESH, es);
    StepsValid(EMPTY, es);
    assert RepAt(Steps(EMPTY, es), RefSteps(FRESH, es), seat, no);
  }

  /** An end without a run id closes the row on top of its stack with its own stamps, or takes it away if it is dry;
      without an open row a dry end leaves no trace. */
  lemma EndClosesTop(es: seq<Event>, e: Event)
    requires e.kind.RunEnd? && e.seat != "" && e.runId == ""
    ensures var t := Steps(EMPTY, es); var st := StackOf(RefSteps(FRESH, es), Slot(e.seat, e.runNo));
      var n := Step(t, e);
      && (st != [] ==> Legacy(st[|st| - 1]) in t.runs)
      && (st != [] && !e.dry ==>
            var k := Legacy(st[|st| - 1]);
            n.order == t.order && n.runs == t.runs[k := Filled(t.runs[k], e)] && !n.runs[k].open)
      && (st != [] && e.dry ==> n.runs == t.runs - {Legacy(st[|st| - 1])})
      && (st == [] && e.dry ==> n == t)
  {
    var t := Steps(EMPTY, es);
    PairingIsAStack(es, e.seat, e.runNo);
    StepsValid(EMPTY, es);
    TopIsLatest(t, RefSteps(FRESH, es), e.seat, e.runNo);
    if Latest(t, e.seat, e.runNo).Some? {
      LatestIsOpen(t, e.seat, e.runNo);
      EndOfLatest(t, e);
    }
  }

  lemma EndOfLatest(t: Table, e: Event)
    requires Valid(t) && e.kind.RunEnd? && e.seat != "" && e.runId == "" && Latest(t, e.seat, e.runNo).Some?
    requires Latest(t, e.seat, e.runNo).value in t.runs
    ensures var k := Latest(t, e.seat, e.runNo).value; var n := Step(t, e);
      && (!e.dry ==> n.order == t.order && n.runs == t.runs[k := Filled(t.runs[k], e)])
      && (e.dry ==> n.runs == t.runs - {k})
  {}

  // ---- rows with a run id ----

  datatype IdRow = Absent | OpenRow | ClosedRow

  /** What the events that carry one run id, taken alone, make of it. */
  function IdStep(s: IdRow, e: Event): IdRow {
    if Ignored(e) then s
    else if e.dry then (if s == OpenRow then Absent else s)
    else if e.kind.RunEnd? || s == ClosedRow then ClosedRow
    else OpenRow
  }

  function IdSteps(s: IdRow, es: seq<Event>, id: string): IdRow
    decreases |es|
  {
    if es == [] then s else IdSteps(if es[0].runId == id then IdStep(s, es[0]) else s, es[1..], id)
  }

  function IdState(t: Table, id: string): IdRow {
    if Id(id) !in t.runs then Absent else if t.runs[Id(id)].open then OpenRow else ClosedRow
  }

  lemma IdStepExact(t: Table, e: Event, id: string)
    requires Valid(t) && id != ""
    ensures IdState(Step(t, e), id) == if e.runId == id then IdStep(IdState(t, id), e) else IdState(t, id)
  {
    if e.runId == "" && Latest(t, e.seat, e.runNo).Some? {
      LatestIsOpen(t, e.seat, e.runNo);
    }
  }

  /** One row per run id that survives, whatever the other events do. */
  lemma {:induction false} IdRowsAreOnePerId(t: Table, es: seq<Event>, id: string)
    requires Valid(t) && id != ""
    ensures IdState(Steps(t, es), id) == IdSteps(IdState(t, id), es, id)
    decreases |es|
  {
    if es != [] {
      IdStepExact(t, es[0], id);
      StepValid(t, es[0]);
      IdRowsAreOnePerId(Step(t, es[0]), es[1..], id);
    }
  }

  // ---- what the rows say ----

  /** The first of these events to say anything says this; empty if none does. */
  ghost predicate FirstSaid<T>(v: seq<T>, told: seq<Event>, says: Event -> seq<T>) {
    if v == [] then forall i :: 0 <= i < |told| ==> says(told[i]) == []
    else exists i :: 0 <= i < |told| && says(told[i]) == v && forall j :: 0 <= j < i ==> says(told[j]) == []
  }

  ghost predicate FirstNumber(no: Option<int>, told: seq<Event>) {
    if no.None? then forall i :: 0 <= i < |told| ==> told[i].runNo.None?
    else exists i :: 0 <= i < |told| && told[i].runNo == no && forall j :: 0 <= j < i ==> told[j].runNo.None?
  }

  /** The end of a row is its last end event's; without one it is open. */
  ghost predicate LastEnd(row: Row, told: seq<Event>) {
    if row.open then row.ended == "" && row.result == "" && forall i :: 0 <= i < |told| ==> !told[i].kind.RunEnd?
    else exists i :: 0 <= i < |told| && told[i].kind.RunEnd? && (forall j :: i < j < |told| ==> !told[j].kind.RunEnd?)
                     && row.ended == (if told[i].endedAt == "" then told[i].at else told[i].endedAt)
                     && row.result == told[i].result
  }

  ghost function TicketOf(e: Event): string {
    e.ticket
  }

  ghost function HarnessOf(e: Event): string {
    e.harness
  }

  ghost function TriggerOf(e: Event): seq<string> {
    e.trigger
  }

  /** A start without a start stamp began when it was logged. */
  ghost function StampOf(e: Event): string {
    if e.startedAt == "" && e.kind.RunStart? then e.at else e.startedAt
  }

  ghost predicate Says(row: Row, told: seq<Event>) {
    && FirstSaid(row.ticket, told, TicketOf)
    && FirstSaid(row.harness, told, HarnessOf)
    && FirstSaid(row.trigger, told, TriggerOf)
    && FirstSaid(row.started, told, StampOf)
    && LastEnd(row, told)
  }

  ghost predicate Identified(row: Row, told: seq<Event>)
    requires told != []
  {
    row.seat == told[0].seat != "" && FirstNumber(row.runNo, told)
  }

  /** The row of a key is there iff events told of it, and says what they told. */
  ghost predicate RowSays(t: Table, k: Key, told: seq<Event>) {
    if told == [] then k !in t.runs else k in t.runs && Identified(t.runs[k], told) && Says(t.runs[k], told)
  }

  lemma FirstSaidSnoc<T>(v: seq<T>, told: seq<Event>, e: Event, says: Event -> seq<T>)
    requires FirstSaid(v, told, says)
    ensures FirstSaid(if v != [] then v else says(e), told + [e], says)
  {
    var more := told + [e];
    assert forall i :: 0 <= i < |told| ==> more[i] == told[i];
    assert more[|told|] == e;
  }

  lemma FirstNumberSnoc(no: Option<int>, told: seq<Event>, e: Event)
    requires FirstNumber(no, told)
    ensures FirstNumber(if no.None? then e.runNo else no, told + [e])
  {
    var more := told + [e];
    assert forall i :: 0 <= i < |told| ==> more[i] == told[i];
    assert more[|told|] == e;
  }

  lemma LastEndSnoc(row: Row, told: seq<Event>, e: Event)
    requires LastEnd(row, told)
    ensures LastEnd(Filled(row, e), told + [e])
  {
    var more := told + [e];
    assert forall i :: 0 <= i < |told| ==> more[i] == told[i];
    assert more[|told|] == e;
  }

  lemma TextsSnoc(row: Row, told: seq<Event>, e: Event)
    requires Says(row, told)
    ensures FirstSaid(Filled(row, e).ticket, told + [e], TicketOf)
    ensures FirstSaid(Filled(row, e).harness, told + [e], HarnessOf)
    ensures FirstSaid(Filled(row, e).trigger, told + [e], TriggerOf)
  {
    FirstSaidSnoc(row.ticket, told, e, TicketOf);
    FirstSaidSnoc(row.harness, told, e, HarnessOf);
    FirstSaidSnoc(row.trigger, told, e, TriggerOf);
  }

  lemma SaysSnoc(row: Row, told: seq<Event>, e: Event)
    requires Says(row, told)
    ensures Says(Filled(row, e), told + [e])
  {
    TextsSnoc(row, told, e);
    FirstSaidSnoc(row.started, told, e, StampOf);
    LastEndSnoc(row, told, e);
  }

  lemma BlankSays(e: Event)
    ensures Says(Blank(e), [])
  {}

  lemma IdentifiedFirst(e: Event)
    requires e.seat != ""
    ensures Identified(Filled(Blank(e), e), [] + [e])
  {
    assert ([] + [e])[0] == e;
  }

  lemma IdentifiedSnoc(row: Row, told: seq<Event>, e: Event)
    requires told != [] && Identified(row, told)
    ensures Identified(Filled(row, e), told + [e])
  {
    FirstNumberSnoc(row.runNo, told, e);
  }

  lemma RecordedSays(t: Table, e: Event, k: Key, told: seq<Event>)
    requires Valid(t) && !Ignored(e) && RowSays(t, k, told)
    ensures RowSays(Recorded(t, e), k, if k == KeyOf(t, e) then told + [e] else told)
  {
    if k == KeyOf(t, e) {
      var row := if k in t.runs then t.runs[k] else Blank(e);
      if told == [] {
        BlankSays(e);
        IdentifiedFirst(e);
      } else {
        IdentifiedSnoc(row, told, e);
      }
      SaysSnoc(row, told, e);
      assert Recorded(t, e).runs[k] == Filled(row, e);
    }
  }

  /** What the events of one run id tell of its row: a dry end of an open row takes back all that was told. */
  function ToldStep(told: seq<Event>, e: Event, id: string): seq<Event> {
    if Ignored(e) || e.runId != id then told
    else if !e.dry then told + [e]
    else if forall i :: 0 <= i < |told| ==> !told[i].kind.RunEnd? then []
    else told
  }

  function ToldSteps(told: seq<Event>, es: seq<Event>, id: string): seq<Event>
    decreases |es|
  {
    if es == [] then told else ToldSteps(ToldStep(told, es[0], id), es[1..], id)
  }

  lemma StepSaysId(t: Table, e: Event, id: string, told: seq<Event>)
    requires Valid(t) && id != "" && RowSays(t, Id(id), told)
    ensures RowSays(Step(t, e), Id(id), ToldStep(told, e, id))
  {
    if !Ignored(e) {
      if e.runId == "" && Latest(t, e.seat, e.runNo).Some? {
        LatestIsOpen(t, e.seat, e.runNo);
      }
      if !e.dry {
        RecordedSays(t, e, Id(id), told);
      }
    }
  }

  lemma {:induction false} StepsSayId(t: Table, es: seq<Event>, id: string, told: seq<Event>)
    requires Valid(t) && id != "" && RowSays(t, Id(id), told)
    ensures RowSays(Steps(t, es), Id(id), ToldSteps(told, es, id))
    decreases |es|
  {
    if es != [] {
      StepSaysId(t, es[0], id, told);
      StepValid(t, es[0]);
      StepsSayId(Step(t, es[0]), es[1..], id, ToldStep(told, es[0], id));
    }
  }

  /** After any log, a run id has a row iff its own events left one, and the row says what they said first: seat, run
      number, ticket, harness, trigger and start; and what its last end said of the end. */
  lemma IdRowSays(es: seq<Event>, id: string)
    requires id != ""
    ensures RowSays(Steps(EMPTY, es), Id(id), ToldSteps([], es, id))
  {
    StepsSayId(EMPTY, es, id, []);
  }

  /** What the events without a run id tell of the `n`-th numbered row: its start, and the end that popped it. */
  function NumberedStep(told: seq<Event>, r: Ref, e: Event, n: nat): seq<Event> {
    var st := StackOf(r, Slot(e.seat, e.runNo));
    if Ignored(e) || e.runId != "" then told
    else if e.kind.RunStart? || (st == [] && !e.dry) then (if n == r.numbered + 1 then [e] else told)
    else if st == [] || n != st[|st| - 1] then told
    else if e.dry then [] else told + [e]
  }

  function NumberedSteps(told: seq<Event>, r: Ref, es: seq<Event>, n: nat): seq<Event>
    decreases |es|
  {
    if es == [] then told else NumberedSteps(NumberedStep(told, r, es[0], n), RefStep(r, es[0]), es[1..], n)
  }

  lemma NumberedKey(t: Table, r: Ref, e: Event)
    requires Rep(t, r) && !Ignored(e) && !e.dry
    ensures var st := StackOf(r, Slot(e.seat, e.runNo));
      KeyOf(t, e) == if e.runId != "" then Id(e.runId)
                     else if e.kind.RunEnd? && st != [] then Legacy(st[|st| - 1])
                     else Legacy(r.numbered + 1)
  {
    assert RepAt(t, r, e.seat, e.runNo);
    TopIsLatest(t, r, e.seat, e.runNo);
  }

  lemma StepSaysNumbered(t: Table, r: Ref, e: Event, n: nat, told: seq<Event>)
    requires Valid(t) && Rep(t, r) && RowSays(t, Legacy(n), told)
    ensures RowSays(Step(t, e), Legacy(n), NumberedStep(told, r, e, n))
  {
    if !Ignored(e) {
      assert RepAt(t, r, e.seat, e.runNo);
      TopIsLatest(t, r, e.seat, e.runNo);
      if !e.dry {
        NumberedKey(t, r, e);
        RecordedSays(t, e, Legacy(n), told);
        assert n == r.numbered + 1 ==> told == [] && told + [e] == [e];
      }
    }
  }

  lemma {:induction false} StepsSayNumbered(t: Table, r: Ref, es: seq<Event>, n: nat, told: seq<Event>)
    requires Valid(t) && Rep(t, r) && RowSays(t, Legacy(n), told)
    ensures RowSays(Steps(t, es), Legacy(n), NumberedSteps(told, r, es, n))
    decreases |es|
  {
    if es != [] {
      StepSaysNumbered(t, r, es[0], n, told);
      StepValid(t, es[0]);
      StepRep(t, r, es[0]);
      StepsSayNumbered(Step(t, es[0]), RefStep(r, es[0]), es[1..], n, NumberedStep(told, r, es[0], n));
    }
  }

  /** After any log, the `n`-th numbered row is there iff it was opened and not taken back, and says what its start and
      the end that popped it said. */
  lemma NumberedRowSays(es: seq<Event>, n: nat)
    ensures RowSays(Steps(EMPTY, es), Legacy(n), NumberedSteps([], FRESH, es, n))
  {
    assert Rep(EMPTY, FRESH) by {
      forall s, o ensures RepAt(EMPTY, FRESH, s, o) {
      }
    }
    StepsSayNumbered(EMPTY, FRESH, es, n, []);
  }
}
