/** Choosing a seat for each ticket of a route pass, and how evenly a pass spreads its tickets.

    Loads are counted in halves: a claim or a reservation weighs two, a suggestion made in this pass one. */
module RoutePass {
  import opened Wrappers
  import opened Sequences

  type Name = string
  type Load = map<Name, int>

  /** What the board knows of a seat: headroom left in percent, unknown or known, and its cost class. */
  datatype Seat = Seat(remaining: Option<real>, cost: int)

  /** `fits` holds the score of every seat that can take the ticket. */
  datatype Ticket = Ticket(open: bool, fits: map<Name, real>, reservedFor: Name, depsDone: bool)

  /** The seats of a pass: eligible ones in order, limited ones sorted by name. */
  datatype Roster = Roster(eligible: seq<Name>, limited: seq<Name>, seats: map<Name, Seat>)

  datatype Row = Row(name: Name, limited: bool, remaining: Option<real>, cost: int, score: real, load: int)

  // ---- ranking ----

  datatype Rank = Rank(limited: int, empty: int, load: int, avail: int, headroom: real, cost: int, fit: real)

  /** The tuple rows are compared by, most significant part first; see `Before`. */
  function RankKey(limited: bool, remaining: Option<real>, cost: int, score: real, load: int): Rank {
    var avail := if remaining.None? then 1 else if remaining.value > 0.0 then 0 else 2;
    var headroom := if avail == 0 then -remaining.value else 0.0;
    Rank(if limited then 1 else 0, if avail == 2 then 1 else 0, load, avail, headroom, cost, -score)
  }

  predicate Before(a: Rank, b: Rank) {
    if a.limited != b.limited then a.limited < b.limited
    else if a.empty != b.empty then a.empty < b.empty
    else if a.load != b.load then a.load < b.load
    else if a.avail != b.avail then a.avail < b.avail
    else if a.headroom != b.headroom then a.headroom < b.headroom
    else if a.cost != b.cost then a.cost < b.cost
    else a.fit < b.fit
  }

  function KeyOf(r: Row): Rank {
    RankKey(false, r.remaining, r.cost, r.score, r.load)
  }

  function OpenRows(rows: seq<Row>): seq<Row> {
    if rows == [] then [] else (if rows[0].limited then [] else [rows[0]]) + OpenRows(rows[1..])
  }

  /** The first of the rows that no row ranks before: the head of a stable sort. */
  function Best(rows: seq<Row>): (r: Row)
    requires rows != []
    ensures r in rows
  {
    if |rows| == 1 then rows[0]
    else var rest := Best(rows[1..]); if Before(KeyOf(rest), KeyOf(rows[0])) then rest else rows[0]
  }

  lemma {:induction false} BestIsLeast(rows: seq<Row>, i: nat)
    requires i < |rows|
    ensures !Before(KeyOf(rows[i]), KeyOf(Best(rows)))
    decreases |rows|
  {
    if |rows| > 1 {
      BestIsLeast(rows[1..], if i == 0 then 0 else i - 1);
    }
  }

  function PickSeat(rows: seq<Row>): Option<Name> {
    if OpenRows(rows) == [] then None else Some(Best(OpenRows(rows)).name)
  }

  lemma {:induction false} OpenRowsMember(rows: seq<Row>, r: Row)
    ensures r in OpenRows(rows) <==> r in rows && !r.limited
    decreases |rows|
  {
    if rows != [] {
      OpenRowsMember(rows[1..], r);
      assert rows == [rows[0]] + rows[1..];
    }
  }

  /** Known to have nothing left. */
  predicate Spent(r: Row) {
    r.remaining.Some? && r.remaining.value <= 0.0
  }

  /** Why one unlimited seat is chosen over another: it is not spent; it carries less; its headroom is known; it has
      more headroom; it costs less; it fits better; in this order. */
  predicate Better(q: Row, r: Row) {
    if Spent(q) != Spent(r) then Spent(r)
    else if q.load != r.load then q.load < r.load
    else if !Spent(q) && q.remaining.Some? != r.remaining.Some? then q.remaining.Some?
    else if !Spent(q) && q.remaining.Some? && q.remaining.value != r.remaining.value
    then q.remaining.value > r.remaining.value
    else if q.cost != r.cost then q.cost < r.cost
    else q.score > r.score
  }

  lemma BeforeIsBetter(q: Row, r: Row)
    ensures Before(KeyOf(q), KeyOf(r)) <==> Better(q, r)
  {}

  predicate Leads(rows: seq<Row>, r: Row) {
    !r.limited && forall q :: q in rows && !q.limited ==> !Better(q, r)
  }

  /** The first row of those it leads: every unlimited row before it is worse. */
  ghost predicate FirstLeader(rows: seq<Row>, i: nat) {
    && i < |rows| && Leads(rows, rows[i])
    && forall j :: 0 <= j < i && !rows[j].limited ==> Better(rows[i], rows[j])
  }

  /** The best row comes from a place before which everything is worse. */
  lemma {:induction false} BestPlace(rows: seq<Row>) returns (i: nat)
    requires rows != []
    ensures i < |rows| && rows[i] == Best(rows) && forall j :: 0 <= j < i ==> Better(rows[i], rows[j])
    decreases |rows|
  {
    i := 0;
    if |rows| > 1 {
      var k := BestPlace(rows[1..]);
      if Before(KeyOf(Best(rows[1..])), KeyOf(rows[0])) {
        i := k + 1;
        forall j | 0 <= j < i ensures Better(rows[i], rows[j]) {
          BeforeIsBetter(rows[i], rows[0]);
          assert j > 0 ==> rows[j] == rows[1..][j - 1];
        }
      }
    }
  }

  /** Where the unlimited rows come from. */
  lemma {:induction false} OpenPlace(rows: seq<Row>, k: nat) returns (i: nat)
    requires k < |OpenRows(rows)|
    ensures i < |rows| && rows[i] == OpenRows(rows)[k] && !rows[i].limited
    ensures forall j :: 0 <= j < i && !rows[j].limited ==> rows[j] in OpenRows(rows)[..k]
    decreases |rows|
  {
    if !rows[0].limited && k == 0 {
      i := 0;
    } else {
      var head := if rows[0].limited then [] else [rows[0]];
      assert OpenRows(rows) == head + OpenRows(rows[1..]);
      var m := OpenPlace(rows[1..], k - |head|);
      i := m + 1;
      assert OpenRows(rows)[..k] == head + OpenRows(rows[1..])[..k - |head|];
      forall j | 0 <= j < i && !rows[j].limited ensures rows[j] in OpenRows(rows)[..k] {
        if j > 0 {
          assert rows[1..][j - 1] == rows[j];
        }
      }
    }
  }

  /** A pick names the first of the unlimited rows that no unlimited row is better than; there is none only if every row
      is limited. */
  lemma PickIsBest(rows: seq<Row>)
    ensures PickSeat(rows).None? <==> forall r :: r in rows ==> r.limited
    ensures PickSeat(rows).Some? ==> exists i: nat :: FirstLeader(rows, i) && rows[i].name == PickSeat(rows).value
    ensures PickSeat(rows).Some? ==> exists r :: r in rows && r.name == PickSeat(rows).value && Leads(rows, r)
  {
    var open := OpenRows(rows);
    forall r ensures r in open <==> r in rows && !r.limited {
      OpenRowsMember(rows, r);
    }
    if open != [] {
      var best := Best(open);
      forall q | q in rows && !q.limited ensures !Better(q, best) {
        var i :| 0 <= i < |open| && open[i] == q;
        BestIsLeast(open, i);
        BeforeIsBetter(q, best);
      }
      assert Leads(rows, best);
      var k := BestPlace(open);
      var i := OpenPlace(rows, k);
      assert FirstLeader(rows, i);
    }
  }

  // ---- loads and candidates ----

  function LoadOf(load: Load, n: Name): int {
    if n in load then load[n] else 0
  }

  function Reservations(tickets: seq<Ticket>, n: Name): nat {
    if tickets == [] then 0
    else (if tickets[0].open && tickets[0].reservedFor == n then 1 else 0) + Reservations(tickets[1..], n)
  }

  /** Claims plus a whole for each open reservation. */
  method SeatLoad(tickets: seq<Ticket>, claims: Load) returns (load: Load)
    ensures forall n :: n != "" ==> LoadOf(load, n) == LoadOf(claims, n) + 2 * Reservations(tickets, n)
  {
    load := claims;
    for i := 0 to |tickets|
      invariant forall n :: n != "" ==>
        LoadOf(load, n) + 2 * Reservations(tickets[i..], n) == LoadOf(claims, n) + 2 * Reservations(tickets, n)
    {
      var who := tickets[i].reservedFor;
      assert tickets[i..][1..] == tickets[i + 1..];
      if tickets[i].open && who != "" {
        load := load[who := LoadOf(load, who) + 2];
      }
    }
  }

  /** A ticket's own reservation does not count against the seat it is reserved for. */
  function WithoutOwn(load: Load, t: Ticket): Load {
    if t.reservedFor == "" || LoadOf(load, t.reservedFor) == 0 then load
    else load[t.reservedFor := LoadOf(load, t.reservedFor) - 2]
  }

  function SeatOf(seats: map<Name, Seat>, n: Name): Seat {
    if n in seats then seats[n] else Seat(None, 1)
  }

  /** The row of an eligible seat, if it fits. */
  function EligibleRow(t: Ticket, n: Name, seats: map<Name, Seat>, load: Load): seq<Row> {
    if n !in t.fits then []
    else [Row(n, false, SeatOf(seats, n).remaining, SeatOf(seats, n).cost, t.fits[n], LoadOf(load, n))]
  }

  function EligibleRows(t: Ticket, eligible: seq<Name>, seats: map<Name, Seat>, load: Load): seq<Row> {
    if eligible == [] then []
    else EligibleRow(t, eligible[0], seats, load) + EligibleRows(t, eligible[1..], seats, load)
  }

  /** The row of a limited seat, if the ticket fits it. */
  function LimitedRow(t: Ticket, eligible: seq<Name>, n: Name, seats: map<Name, Seat>): seq<Row> {
    if n in eligible || n !in t.fits then [] else [Row(n, true, None, SeatOf(seats, n).cost, 0.0, 0)]
  }

  function LimitedRows(t: Ticket, eligible: seq<Name>, limited: seq<Name>, seats: map<Name, Seat>): seq<Row> {
    if limited == [] then []
    else LimitedRow(t, eligible, limited[0], seats) + LimitedRows(t, eligible, limited[1..], seats)
  }

  method RankedRows(t: Ticket, eligible: seq<Name>, seats: map<Name, Seat>, load: Load) returns (rows: seq<Row>)
    ensures rows == EligibleRows(t, eligible, seats, load)
  {
    rows := [];
    for i := 0 to |eligible|
      invariant rows + EligibleRows(t, eligible[i..], seats, load) == EligibleRows(t, eligible, seats, load)
    {
      assert eligible[i..][1..] == eligible[i + 1..];
      ConcatAssoc(rows, EligibleRow(t, eligible[i], seats, load), EligibleRows(t, eligible[i + 1..], seats, load));
      rows := rows + EligibleRow(t, eligible[i], seats, load);
    }
  }

  /** The candidates of a ticket: first the eligible seats it fits, then the limited ones, given sorted. */
  method CandidateRows(t: Ticket, eligible: seq<Name>, limited: seq<Name>, seats: map<Name, Seat>, load: Load)
    returns (rows: seq<Row>)
    ensures rows == EligibleRows(t, eligible, seats, load) + LimitedRows(t, eligible, limited, seats)
  {
    rows := RankedRows(t, eligible, seats, load);
    ghost var all := rows + LimitedRows(t, eligible, limited, seats);
    for i := 0 to |limited|
      invariant rows + LimitedRows(t, eligible, limited[i..], seats) == all
    {
      assert limited[i..][1..] == limited[i + 1..];
      ConcatAssoc(rows, LimitedRow(t, eligible, limited[i], seats), LimitedRows(t, eligible, limited[i + 1..], seats));
      rows := rows + LimitedRow(t, eligible, limited[i], seats);
    }
  }

  // ---- a pass ----

  /** The load after one ticket: a reservation replaces the ticket's old one, and every pick counts half. */
  function Counted(load: Load, t: Ticket, pick: Option<Name>): Load {
    if pick.None? then load
    else var base := if t.depsDone then load else WithoutOwn(load, t);
      base[pick.value := LoadOf(base, pick.value) + 1]
  }

  function Candidates(t: Ticket, roster: Roster, load: Load): seq<Row> {
    EligibleRows(t, roster.eligible, roster.seats, WithoutOwn(load, t))
    + LimitedRows(t, roster.eligible, roster.limited, roster.seats)
  }

  function Pick(t: Ticket, roster: Roster, load: Load): Option<Name> {
    PickSeat(Candidates(t, roster, load))
  }

  datatype Outcome = Outcome(picks: seq<Option<Name>>, load: Load)

  /** A pass over the tickets in order, as a function of the first ones. */
  function Pass(tickets: seq<Ticket>, roster: Roster, load: Load): (o: Outcome)
    ensures |o.picks| == |tickets|
  {
    if tickets == [] then Outcome([], load)
    else
      var last := tickets[|tickets| - 1];
      var before := Pass(tickets[..|tickets| - 1], roster, load);
      var pick := Pick(last, roster, before.load);
      Outcome(before.picks + [pick], Counted(before.load, last, pick))
  }

  lemma PassSnoc(tickets: seq<Ticket>, t: Ticket, roster: Roster, load: Load)
    ensures var before := Pass(tickets, roster, load);
      var pick := Pick(t, roster, before.load);
      Pass(tickets + [t], roster, load) == Outcome(before.picks + [pick], Counted(before.load, t, pick))
  {
    var more := tickets + [t];
    assert more[..|more| - 1] == tickets && more[|more| - 1] == t;
  }

  method RouteOne(t: Ticket, roster: Roster, load: Load)
    returns (pick: Option<Name>, counted: Load)
    ensures pick == Pick(t, roster, load) && counted == Counted(load, t, pick)
  {
    var own := WithoutOwn(load, t);
    var rows := CandidateRows(t, roster.eligible, roster.limited, roster.seats, own);
    pick := PickSeat(rows);
    counted := load;
    if pick.Some? {
      if !t.depsDone {
        counted := own;
      }
      counted := counted[pick.value := LoadOf(counted, pick.value) + 1];
    }
  }

  method RouteTickets(tickets: seq<Ticket>, roster: Roster, start: Load)
    returns (picks: seq<Option<Name>>, load: Load)
    ensures Outcome(picks, load) == Pass(tickets, roster, start)
  {
    picks, load := [], start;
    for i := 0 to |tickets|
      invariant Outcome(picks, load) == Pass(tickets[..i], roster, start)
    {
      assert tickets[..i + 1] == tickets[..i] + [tickets[i]];
      PassSnoc(tickets[..i], tickets[i], roster, start);
      var pick;
      pick, load := RouteOne(tickets[i], roster, load);
      picks := picks + [pick];
    }
    assert tickets[..|tickets|] == tickets;
  }

  // ---- limited seats ----

  lemma {:induction false} EligibleRowsMember(t: Ticket, eligible: seq<Name>, seats: map<Name, Seat>, load: Load,
                                              r: Row)
    ensures r in EligibleRows(t, eligible, seats, load) <==>
      r.name in eligible && r.name in t.fits
      && r == Row(r.name, false, SeatOf(seats, r.name).remaining, SeatOf(seats, r.name).cost, t.fits[r.name],
                  LoadOf(load, r.name))
    decreases |eligible|
  {
    if eligible != [] {
      EligibleRowsMember(t, eligible[1..], seats, load, r);
      assert eligible == [eligible[0]] + eligible[1..];
    }
  }

  lemma {:induction false} LimitedRowsMember(t: Ticket, eligible: seq<Name>, limited: seq<Name>,
                                             seats: map<Name, Seat>, r: Row)
    ensures r in LimitedRows(t, eligible, limited, seats) <==>
      r.name in limited && r.name !in eligible && r.name in t.fits
      && r == Row(r.name, true, None, SeatOf(seats, r.name).cost, 0.0, 0)
    decreases |limited|
  {
    if limited != [] {
      LimitedRowsMember(t, eligible, limited[1..], seats, r);
      assert limited == [limited[0]] + limited[1..];
    }
  }

  /** What a seat offers for a ticket: its own headroom and cost, unknown and medium if nothing is known of it; how well
      the ticket fits; and its load, without the reservation the ticket itself has put there. */
  predicate Offers(t: Ticket, roster: Roster, load: Load, n: Name, r: Row) {
    && r.name == n && !r.limited && n in t.fits && r.score == t.fits[n]
    && (if n in roster.seats then r.remaining == roster.seats[n].remaining && r.cost == roster.seats[n].cost
        else r.remaining.None? && r.cost == 1)
    && var l := if n in load then load[n] else 0;
       r.load == if n == t.reservedFor && n != "" && l != 0 then l - 2 else l
  }

  /** A limited seat is listed for the note only: neither headroom nor load nor fit. */
  predicate ListedOnly(t: Ticket, roster: Roster, r: Row) {
    && r.limited && r.name in roster.limited && r.name !in roster.eligible && r.name in t.fits
    && r.remaining.None? && r.score == 0.0 && r.load == 0
    && r.cost == if r.name in roster.seats then roster.seats[r.name].cost else 1
  }

  /** The rows are what the eligible seats that fit offer, and the limited seats that fit and are not eligible. */
  lemma CandidatesAre(t: Ticket, roster: Roster, load: Load, r: Row)
    ensures r in Candidates(t, roster, load) <==>
      (r.name in roster.eligible && Offers(t, roster, load, r.name, r)) || ListedOnly(t, roster, r)
  {
    EligibleRowsMember(t, roster.eligible, roster.seats, WithoutOwn(load, t), r);
    LimitedRowsMember(t, roster.eligible, roster.limited, roster.seats, r);
  }

  /** The picked seat is eligible and fits, and no eligible seat that fits offers better. */
  lemma PickRow(t: Ticket, roster: Roster, load: Load, n: Name) returns (best: Row, other: Row)
    requires n in roster.eligible && n in t.fits
    ensures Pick(t, roster, load) == Some(best.name) && best.name in roster.eligible
    ensures Offers(t, roster, load, best.name, best) && Offers(t, roster, load, n, other) && !Better(other, best)
  {
    var rows := Candidates(t, roster, load);
    var seat := SeatOf(roster.seats, n);
    other := Row(n, false, seat.remaining, seat.cost, t.fits[n], LoadOf(WithoutOwn(load, t), n));
    CandidatesAre(t, roster, load, other);
    PickIsBest(rows);
    best :| best in rows && best.name == PickSeat(rows).value && Leads(rows, best);
    CandidatesAre(t, roster, load, best);
  }

  /** What a pick does to the loads: half a unit more on the seat picked, and, if the reservation moves, a whole one
      less where the ticket was reserved before. */
  lemma CountedLoad(load: Load, t: Ticket, pick: Option<Name>, n: Name)
    ensures var l := if n in load then load[n] else 0;
      LoadOf(Counted(load, t, pick), n)
      == l + (if pick == Some(n) then 1 else 0)
         - (if pick.Some? && !t.depsDone && n == t.reservedFor && n != "" && l != 0 then 2 else 0)
  {}

  /** Nobody is picked exactly when no eligible seat fits; in particular a limited seat is never picked. */
  lemma PickIffSomebodyFits(t: Ticket, roster: Roster, load: Load)
    ensures var pick := Pick(t, roster, load);
      && (pick.Some? <==> exists n :: n in roster.eligible && n in t.fits)
      && (pick.Some? ==> pick.value in roster.eligible && pick.value in t.fits)
  {
    if n :| n in roster.eligible && n in t.fits {
      var best, other := PickRow(t, roster, load, n);
    } else {
      var rows := Candidates(t, roster, load);
      forall r | r in rows ensures r.limited {
        CandidatesAre(t, roster, load, r);
      }
      PickIsBest(rows);
    }
  }

  // ---- even spreading ----

  function Count(picks: seq<Option<Name>>, n: Name): nat {
    if picks == [] then 0 else Count(picks[..|picks| - 1], n) + if picks[|picks| - 1] == Some(n) then 1 else 0
  }

  /** Every eligible seat fits the ticket, and the ticket carries no reservation yet. */
  predicate FitsAll(t: Ticket, eligible: seq<Name>) {
    t.reservedFor == "" && forall n :: n in eligible ==> n in t.fits
  }

  predicate HasHeadroom(seats: map<Name, Seat>, n: Name) {
    SeatOf(seats, n).remaining.Some? ==> SeatOf(seats, n).remaining.value > 0.0
  }

  /** The picked seat is one of least load. */
  lemma PickHasLeastLoad(t: Ticket, roster: Roster, load: Load, n: Name)
    requires FitsAll(t, roster.eligible) && n in roster.eligible
    requires forall m :: m in roster.eligible ==> HasHeadroom(roster.seats, m)
    ensures var pick := Pick(t, roster, load);
      pick.Some? && pick.value in roster.eligible && LoadOf(load, pick.value) <= LoadOf(load, n)
  {
    var best, other := PickRow(t, roster, load, n);
  }

  lemma CountSnoc(picks: seq<Option<Name>>, p: Option<Name>, n: Name)
    ensures Count(picks + [p], n) == Count(picks, n) + if p == Some(n) then 1 else 0
  {
    assert (picks + [p])[..|picks|] == picks;
  }

  /** Each pick adds half a unit; a picked seat is never more than that above the other. */
  predicate Level(picks: seq<Option<Name>>, start: Load, load: Load, a: Name, b: Name) {
    && LoadOf(load, a) == LoadOf(start, a) + Count(picks, a)
    && LoadOf(load, b) == LoadOf(start, b) + Count(picks, b)
    && (Count(picks, a) > 0 ==> LoadOf(load, a) <= LoadOf(load, b) + 1)
  }

  lemma LevelStep(picks: seq<Option<Name>>, start: Load, load: Load, t: Ticket, pick: Name, a: Name, b: Name)
    requires Level(picks, start, load, a, b) && t.reservedFor == "" && LoadOf(load, pick) <= LoadOf(load, b)
    ensures Level(picks + [Some(pick)], start, Counted(load, t, Some(pick)), a, b)
  {
    CountSnoc(picks, Some(pick), a);
    CountSnoc(picks, Some(pick), b);
  }

  lemma {:induction false} LoadsStayLevel(tickets: seq<Ticket>, roster: Roster, start: Load, a: Name, b: Name)
    requires forall i :: 0 <= i < |tickets| ==> FitsAll(tickets[i], roster.eligible)
    requires forall m :: m in roster.eligible ==> HasHeadroom(roster.seats, m)
    requires a in roster.eligible && b in roster.eligible
    ensures var o := Pass(tickets, roster, start);
      Level(o.picks, start, o.load, a, b)
    decreases |tickets|
  {
    if tickets != [] {
      var first, last := tickets[..|tickets| - 1], tickets[|tickets| - 1];
      assert forall i :: 0 <= i < |first| ==> first[i] == tickets[i];
      assert FitsAll(last, roster.eligible);
      LoadsStayLevel(first, roster, start, a, b);
      var before := Pass(first, roster, start);
      assert tickets == first + [last];
      PassSnoc(first, last, roster, start);
      PickHasLeastLoad(last, roster, before.load, b);
      LevelStep(before.picks, start, before.load, last, Pick(last, roster, before.load).value, a, b);
    }
  }

  /** Seats with claimed work are busy and not eligible, so without reservations eligible seats start level: after any
      number of tickets they have been picked equally often, give or take one. */
  lemma EvenSpread(tickets: seq<Ticket>, roster: Roster, start: Load,
                   a: Name, b: Name)
    requires forall i :: 0 <= i < |tickets| ==> FitsAll(tickets[i], roster.eligible)
    requires forall m :: m in roster.eligible ==> HasHeadroom(roster.seats, m) && LoadOf(start, m) == 0
    requires a in roster.eligible && b in roster.eligible
    ensures var picks := Pass(tickets, roster, start).picks;
      -1 <= Count(picks, a) - Count(picks, b) <= 1
  {
    LoadsStayLevel(tickets, roster, start, a, b);
    LoadsStayLevel(tickets, roster, start, b, a);
  }

  /** A seat starting ahead is left alone until the others have caught up: counts make good the difference in start
      load, give or take one. */
  lemma SpreadCatchesUp(tickets: seq<Ticket>, roster: Roster, start: Load,
                        a: Name, b: Name)
    requires forall i :: 0 <= i < |tickets| ==> FitsAll(tickets[i], roster.eligible)
    requires forall m :: m in roster.eligible ==> HasHeadroom(roster.seats, m)
    requires a in roster.eligible && b in roster.eligible
    ensures var picks := Pass(tickets, roster, start).picks;
      Count(picks, a) > 0 ==>
        Count(picks, a) <= Count(picks, b) + LoadOf(start, b) - LoadOf(start, a) + 1
  {
    LoadsStayLevel(tickets, roster, start, a, b);
  }
}
