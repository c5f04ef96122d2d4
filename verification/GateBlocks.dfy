/** The accept gate over a whole board: every command that can release a ticket repairs the gate blocks of its
    successors, recursively, through the same save. */
module GateBlocks {
  import opened Wrappers
  import opened Release
  import opened DependencyGraph
  import opened TicketStatus

  // ---- what is kept ----

  /** A gate block names a dependency that is not released, unless it is one of the releases being worked off; work in
      progress or in review carries no gate block. */
  predicate BlockSound(ts: Tickets, t: Ticket, pending: set<TicketId>) {
    && (t.block.Some? ==> t.block.value in t.deps && (t.block.value in pending || !IsReleased(ts, t.block.value)))
    && (t.status == Claimed || t.status == Review ==> t.block.None?)
  }

  ghost predicate SoundBut(ts: Tickets, pending: set<TicketId>) {
    forall x :: x in ts ==> BlockSound(ts, ts[x], pending)
  }

  /** The board property: no stale gate block. */
  ghost predicate Sound(ts: Tickets) {
    SoundBut(ts, {})
  }

  /** Ranks certify that dependencies are acyclic. */
  ghost predicate Ranks(ts: Tickets, rank: map<TicketId, nat>, top: nat) {
    && (forall x :: x in ts ==> x in rank && rank[x] <= top)
    && (forall x, d :: x in ts && d in ts[x].deps && d in ts ==> rank[d] < rank[x])
  }

  /** What working off a release may do to one ticket: nothing; drop gate marks of closed or submitted work; settle the
      rest. */
  predicate Soft(a: Tickets, b: Tickets, x: TicketId)
    requires x in a && x in b
  {
    var s, t := a[x], b[x];
    || t == s
    || (t.deps == s.deps && t.evidence == s.evidence
        && (if s.status == Done || s.status == Review then t.status == s.status && t.owner == s.owner
            else Settled(b, t))
        && (t.block == s.block || t.block.None? || !IsReleased(b, t.block.value))
        && (forall g :: g in t.gateNotes ==> g in s.gateNotes || !IsReleased(b, g)))
  }

  /** Nothing at or below level `r` changed, and the rest changed softly. */
  ghost predicate Softened(a: Tickets, b: Tickets, rank: map<TicketId, nat>, r: int) {
    && a.Keys == b.Keys
    && (forall x :: x in a ==> Soft(a, b, x))
    && (forall x :: x in a && x in rank && rank[x] <= r ==> b[x] == a[x])
  }

  lemma SoftReleased(a: Tickets, b: Tickets, rank: map<TicketId, nat>, r: int, x: TicketId)
    requires Softened(a, b, rank, r)
    ensures IsReleased(a, x) <==> IsReleased(b, x)
  {
    assert x in a ==> Soft(a, b, x);
  }

  lemma SoftSettled(a: Tickets, b: Tickets, rank: map<TicketId, nat>, r: int, c: Ticket)
    requires Softened(a, b, rank, r)
    ensures Settled(a, c) <==> Settled(b, c)
  {
    forall d | d in c.deps ensures IsReleased(a, d) <==> IsReleased(b, d) {
      SoftReleased(a, b, rank, r, d);
    }
    FirstUnreleasedSame(a, b, c.deps);
  }

  lemma SoftTransitive(a: Tickets, b: Tickets, c: Tickets, rank: map<TicketId, nat>, r: int, q: int)
    requires Softened(a, b, rank, r) && Softened(b, c, rank, q) && r <= q
    ensures Softened(a, c, rank, r)
  {
    forall x | x in a ensures Soft(a, c, x) {
      assert Soft(a, b, x) && Soft(b, c, x);
      SoftSettled(b, c, rank, q, b[x]);
      if b[x].block.Some? {
        SoftReleased(b, c, rank, q, b[x].block.value);
      }
    }
  }

  lemma SoftRanks(a: Tickets, b: Tickets, rank: map<TicketId, nat>, r: int, top: nat)
    requires Ranks(a, rank, top) && Softened(a, b, rank, r)
    ensures Ranks(b, rank, top)
  {
    forall x | x in a ensures b[x].deps == a[x].deps {
      assert Soft(a, b, x);
    }
  }

  /** Reconciling one successor is a soft change. */
  lemma ReconcileIsSoft(a: Tickets, c: TicketId, p: TicketId, rank: map<TicketId, nat>, r: int, locked: bool)
    requires c in a && IsReleased(a, p) && c in rank && r < rank[c] && NeedsReconciling(a[c], p, locked)
    ensures Softened(a, a[c := Reconciled(a, a[c], p)], rank, r)
    ensures NeverStarted(a[c], p) ==> Settled(a[c := Reconciled(a, a[c], p)], Reconciled(a, a[c], p))
  {
    var b := a[c := Reconciled(a, a[c], p)];
    forall d ensures IsReleased(a, d) <==> IsReleased(b, d) {
    }
    FirstUnreleasedSame(a, b, a[c].deps);
    assert Soft(a, b, c);
  }

  /** A sound board stays sound but for the releases still pending. */
  lemma ReconcileIsSound(a: Tickets, c: TicketId, p: TicketId, pending: set<TicketId>, locked: bool)
    requires SoundBut(a, pending) && c in a && IsReleased(a, p) && NeedsReconciling(a[c], p, locked)
    ensures SoundBut(a[c := Reconciled(a, a[c], p)], pending)
    ensures Reconciled(a, a[c], p).block != Some(p) && p !in Reconciled(a, a[c], p).gateNotes
    ensures !GateRefuses(a, c, Reconciled(a, a[c], p))
  {
    var b := a[c := Reconciled(a, a[c], p)];
    assert BlockSound(a, a[c], pending);
    forall x | x in b ensures BlockSound(b, b[x], pending) {
      assert BlockSound(a, a[x], pending);
    }
  }

  // ---- saving ----

  /** The dependency gate every save applies to active work and to new owners. */
  predicate GateRefuses(ts: Tickets, id: TicketId, t: Ticket) {
    && (t.status == Claimed || (t.owner != "" && (id in ts ==> t.owner != ts[id].owner)))
    && FirstUnreleased(ts, t.deps).Some?
  }

  /** If `x` waits for `p`, no mark of the gate for `p` is left on it, and if it stalled on `p` it is settled. */
  predicate WorkedOff(snapshot: Tickets, now: Tickets, x: TicketId, p: TicketId) {
    x in snapshot && x in now && p in snapshot[x].deps ==>
      now[x].block != Some(p) && p !in now[x].gateNotes && (Stalled(snapshot[x], p) ==> Settled(now, now[x]))
  }

  /** Every successor of `p` has been dealt with. */
  ghost predicate Opened(before: Tickets, now: Tickets, p: TicketId) {
    forall c :: WorkedOff(before, now, c, p)
  }

  ghost predicate AllWorkedOff(snapshot: Tickets, now: Tickets, todo: set<TicketId>, p: TicketId) {
    forall x :: x !in todo ==> WorkedOff(snapshot, now, x, p)
  }

  lemma WorkedOffStays(snapshot: Tickets, before: Tickets, now: Tickets, todo: set<TicketId>, x: TicketId, p: TicketId,
                       rank: map<TicketId, nat>, r: int)
    requires Softened(before, now, rank, r) && IsReleased(before, p)
    requires AllWorkedOff(snapshot, before, todo, p) && WorkedOff(snapshot, now, x, p)
    ensures AllWorkedOff(snapshot, now, todo - {x}, p)
  {
    SoftReleased(before, now, rank, r, p);
    forall y | y !in todo - {x} ensures WorkedOff(snapshot, now, y, p) {
      if y != x && y in before {
        assert WorkedOff(snapshot, before, y, p) && Soft(before, now, y);
        SoftSettled(before, now, rank, r, before[y]);
        SoftReleased(before, now, rank, r, p);
      }
    }
  }

  /** With every successor dealt with, the release is no longer pending. */
  lemma NoBlocksLeft(snapshot: Tickets, now: Tickets, pending: set<TicketId>, p: TicketId, rank: map<TicketId, nat>,
                     r: int)
    requires SoundBut(now, pending + {p}) && AllWorkedOff(snapshot, now, {}, p) && Softened(snapshot, now, rank, r)
    ensures SoundBut(now, pending) && Opened(snapshot, now, p)
  {
    forall x | x in now ensures BlockSound(now, now[x], pending) {
      assert BlockSound(now, now[x], pending + {p}) && WorkedOff(snapshot, now, x, p) && Soft(snapshot, now, x);
    }
    assert forall c :: c !in {} ==> WorkedOff(snapshot, now, c, p);
  }

  lemma PendingUnreleased(ts: Tickets, pending: set<TicketId>, p: TicketId)
    requires SoundBut(ts, pending + {p}) && !IsReleased(ts, p)
    ensures SoundBut(ts, pending)
  {
    forall x | x in ts ensures BlockSound(ts, ts[x], pending) {
      assert BlockSound(ts, ts[x], pending + {p});
    }
  }

  lemma SoundWider(ts: Tickets, pending: set<TicketId>, x: TicketId)
    requires SoundBut(ts, pending)
    ensures SoundBut(ts, pending + {x})
  {
    forall y | y in ts ensures BlockSound(ts, ts[y], pending + {x}) {
      assert BlockSound(ts, ts[y], pending);
    }
  }

  /** A successor that shows no mark of the gate any more has been settled on the way. */
  lemma SkippedIsWorkedOff(snapshot: Tickets, now: Tickets, x: TicketId, p: TicketId, rank: map<TicketId, nat>, r: int)
    requires Softened(snapshot, now, rank, r) && x in now && !NeedsReconciling(now[x], p, false)
    ensures WorkedOff(snapshot, now, x, p)
  {
    assert Soft(snapshot, now, x);
  }

  lemma SavedIsWorkedOff(snapshot: Tickets, before: Tickets, now: Tickets, x: TicketId, p: TicketId,
                         rank: map<TicketId, nat>, r: int, q: int)
    requires x in before && x in snapshot && x in rank && q == rank[x] && IsReleased(before, p)
    requires Softened(snapshot, before, rank, r)
    requires Softened(before[x := Reconciled(before, before[x], p)], now, rank, q)
    requires NeverStarted(before[x], p) ==>
               Settled(before[x := Reconciled(before, before[x], p)], Reconciled(before, before[x], p))
    requires Reconciled(before, before[x], p).block != Some(p) && p !in Reconciled(before, before[x], p).gateNotes
    ensures WorkedOff(snapshot, now, x, p)
  {
    var t := Reconciled(before, before[x], p);
    assert now[x] == t;
    assert Soft(snapshot, before, x);
    SoftSettled(before[x := t], now, rank, q, t);
  }

  // ---- commands ----

  predicate SameDeps(a: Tickets, b: Tickets) {
    a.Keys == b.Keys && forall x :: x in a ==> b[x].deps == a[x].deps
  }

  /** Documentation and planning work that was not submitted; it releases without a verdict. */
  predicate DocsExempt(e: Evidence) {
    e.docsRole && !e.reviewed
  }

  /** Open or blocked, and `p` is the only predecessor still missing. */
  predicate Waiting(ts: Tickets, c: TicketId, p: TicketId) {
    c in ts && p in ts[c].deps && (ts[c].status == Open || ts[c].status == Blocked)
    && forall d :: d in ts[c].deps ==> d == p || IsReleased(ts, d)
  }

  function GatedOn(c: Ticket, p: TicketId): Ticket {
    c.(status := Blocked, owner := "", block := Some(p), gateNotes := c.gateNotes + {p})
  }

  /** Of the tickets not left to do, those that waited for `p` alone are gated on it; nothing else changed. */
  ghost predicate WaitersGated(snapshot: Tickets, now: Tickets, todo: set<TicketId>, p: TicketId) {
    snapshot.Keys == now.Keys
    && forall c :: c in snapshot ==>
         now[c] == if c !in todo && Waiting(snapshot, c, p) then GatedOn(snapshot[c], p) else snapshot[c]
  }

  lemma WaitersStep(snapshot: Tickets, now: Tickets, todo: set<TicketId>, c: TicketId, p: TicketId)
    requires WaitersGated(snapshot, now, todo, p) && c in todo && c in snapshot
    ensures now[c] == snapshot[c]
    ensures !Waiting(snapshot, c, p) ==> WaitersGated(snapshot, now, todo - {c}, p)
    ensures Waiting(snapshot, c, p) ==> WaitersGated(snapshot, now[c := GatedOn(now[c], p)], todo - {c}, p)
  {}

  function Submitted(t: Ticket, who: string, head: Sha): Ticket {
    t.(status := Review, owner := if t.owner != "" then t.owner else who,
       evidence := Superseded(t.evidence).(head := head, reviewed := true))
  }

  function WithVerdict(t: Ticket, sha: Sha): Ticket {
    t.(evidence := t.evidence.(accepts := t.evidence.accepts + [Accept(sha, true)]))
  }

  function MergedAs(t: Ticket, pin: Sha): Ticket {
    t.(status := Done, evidence := t.evidence.(merge := Some(Merge(pin, true))))
  }

  function Returned(t: Ticket): Ticket {
    t.(status := Open, owner := "", evidence := Superseded(t.evidence))
  }

  /** No verdict on record counts. */
  predicate NothingCounts(e: Evidence) {
    && (forall i :: 0 <= i < |e.accepts| ==> !e.accepts[i].live)
    && (e.merge.Some? ==> !e.merge.value.live)
  }

  /** Verdicts are recorded for this ticket alone. */
  predicate OthersKeepEvidence(a: Tickets, b: Tickets, id: TicketId) {
    a.Keys == b.Keys && forall x :: x in a && x != id ==> b[x].evidence == a[x].evidence
  }

  /** Claim locks only go, and only those of tickets that end without an owner. */
  ghost predicate LocksDropped(now: Tickets, had: set<TicketId>, left: set<TicketId>) {
    left <= had
    && forall x :: x in had && x !in left ==>
         x in now && now[x].owner == "" && (now[x].status == Open || now[x].status == Blocked)
  }

  /** No claim lock is left on work that waited for `p` and had not started. */
  ghost predicate Unlocked(before: Tickets, locks: set<TicketId>, p: TicketId) {
    forall c :: c in before && p in before[c].deps && NeverStarted(before[c], p) ==> c !in locks
  }

  lemma SameWaiters(a: Tickets, b: Tickets, p: TicketId, locks: set<TicketId>, rank: map<TicketId, nat>, top: nat)
    requires Ranks(a, rank, top) && p in a && a.Keys == b.Keys && forall x :: x in a && x != p ==> b[x] == a[x]
    ensures Unlocked(b, locks, p) ==> Unlocked(a, locks, p)
  {
    assert p !in a[p].deps;
  }

  lemma DroppedStays(before: Tickets, now: Tickets, had: set<TicketId>, mid: set<TicketId>, left: set<TicketId>,
                     rank: map<TicketId, nat>, r: int)
    requires LocksDropped(before, had, mid) && LocksDropped(now, mid, left) && Softened(before, now, rank, r)
    ensures LocksDropped(now, had, left)
  {
    forall x | x in had && x !in left
      ensures x in now && now[x].owner == "" && (now[x].status == Open || now[x].status == Blocked)
    {
      if x !in mid {
        assert Soft(before, now, x);
      }
    }
  }

  /** After a close without release, seen from before the close. */
  lemma ClosedUnreleased(before: Tickets, t: Ticket, id: TicketId, now: Tickets, had: set<TicketId>,
                         left: set<TicketId>, rank: map<TicketId, nat>, top: nat)
    requires Ranks(before, rank, top) && id in before && t.deps == before[id].deps
    requires WaitersGated(before[id := t], now, {}, id)
    requires forall c :: c in left <==> c in had && !Waiting(before[id := t], c, id)
    ensures now[id] == t && LocksDropped(now, had, left)
    ensures forall c :: c in left <==> c in had && !Waiting(before, c, id)
    ensures forall c :: c in before && c != id ==>
      var s := before[c];
      if id in s.deps && (s.status == Open || s.status == Blocked)
         && forall d :: d in s.deps ==> d == id || IsReleased(before, d)
      then now[c] == s.(status := Blocked, owner := "", block := Some(id), gateNotes := s.gateNotes + {id})
           && c !in left
      else now[c] == s && (c in left <==> c in had)
    ensures forall c :: c in before ==> now[c].evidence == before[id := t][c].evidence
  {
    assert id !in before[id].deps;
    WaitingSame(before, before[id := t], id);
    assert !Waiting(before, id, id) && !Waiting(before[id := t], id, id);
  }

  lemma SaveReady(ts: Tickets, id: TicketId, t: Ticket, rank: map<TicketId, nat>, top: nat)
    requires Sound(ts) && Ranks(ts, rank, top) && id in ts && t.deps == ts[id].deps && BlockSound(ts, t, {})
    ensures SoundBut(ts[id := t], {} + {id})
  {
    var n := ts[id := t];
    forall x | x in n ensures BlockSound(n, n[x], {} + {id}) {
      assert BlockSound(ts, ts[x], {});
    }
  }

  lemma AfterSave(before: Tickets, id: TicketId, t: Ticket, now: Tickets, rank: map<TicketId, nat>, top: nat)
    requires Ranks(before, rank, top) && id in before && t.deps == before[id].deps
    requires Softened(before[id := t], now, rank, rank[id])
    ensures Ranks(now, rank, top) && SameDeps(before, now) && now[id] == t
    ensures Opened(before[id := t], now, id) ==> Opened(before, now, id)
    ensures OthersKeepEvidence(before, now, id)
  {
    SoftRanks(before[id := t], now, rank, rank[id], top);
    forall x | x in before
      ensures now[x].deps == before[x].deps && (x != id ==> now[x].evidence == before[x].evidence)
    {
      assert Soft(before[id := t], now, x);
    }
    if Opened(before[id := t], now, id) {
      forall c ensures WorkedOff(before, now, c, id) {
        assert WorkedOff(before[id := t], now, c, id);
      }
    }
  }

  lemma AfterReopen(before: Tickets, mid: Tickets, now: Tickets, id: TicketId, rank: map<TicketId, nat>, top: nat)
    requires Ranks(mid, rank, top) && SameDeps(before, mid) && Opened(before, mid, id) && IsReleased(mid, id)
    requires Softened(mid, now, rank, rank[id])
    ensures Ranks(now, rank, top) && SameDeps(before, now) && IsReleased(now, id) && Opened(before, now, id)
    ensures OthersKeepEvidence(mid, now, id)
  {
    SoftRanks(mid, now, rank, rank[id], top);
    SoftReleased(mid, now, rank, rank[id], id);
    forall x | x in before ensures now[x].deps == before[x].deps && now[x].evidence == mid[x].evidence {
      assert Soft(mid, now, x);
    }
    forall c ensures WorkedOff(before, now, c, id) {
      if c in before {
        assert WorkedOff(before, mid, c, id) && Soft(mid, now, c);
        SoftSettled(mid, now, rank, rank[id], mid[c]);
      }
    }
  }

  lemma OpenedFrom(before: Tickets, mid: Tickets, now: Tickets, id: TicketId, rank: map<TicketId, nat>, top: nat)
    requires Ranks(before, rank, top) && id in before && id in mid && mid == before[id := mid[id]]
    requires Opened(mid, now, id)
    ensures Opened(before, now, id)
  {
    forall c ensures WorkedOff(before, now, c, id) {
      assert WorkedOff(mid, now, c, id);
    }
  }

  lemma WaitingSame(a: Tickets, b: Tickets, p: TicketId)
    requires a.Keys == b.Keys && forall x :: x in a && x != p ==> b[x] == a[x]
    ensures forall c :: c in a && c != p ==> (Waiting(a, c, p) <==> Waiting(b, c, p))
  {
    forall c | c in a && c != p ensures Waiting(a, c, p) <==> Waiting(b, c, p) {
      forall d | d in a[c].deps && d != p ensures IsReleased(a, d) <==> IsReleased(b, d) {
      }
    }
  }

  /** What a release means for a successor marked by the gate, or owned too early, on a board without stale blocks: if
      it was the last one missing, the successor is open, unowned, without a gate block and without a claim lock, so
      that anybody can claim it; otherwise it waits for one that is missing. */
  lemma LastReleaseOpens(before: Tickets, now: Tickets, locks: set<TicketId>, p: TicketId, c: TicketId)
    requires Sound(now) && SameDeps(before, now) && Opened(before, now, p) && Unlocked(before, locks, p) && c in before
    requires p in before[c].deps
    requires var t := before[c]; var marked := t.block == Some(p) || p in t.gateNotes;
      && (t.status == Blocked || t.status == Open || (t.status == Claimed && marked)) && (marked || t.owner != "")
    ensures now[c].owner == "" && c !in locks
    ensures (forall d :: d in now[c].deps ==> IsReleased(now, d)) <==> now[c].status == Open && now[c].block.None?
    ensures now[c].status == Open
            || (now[c].status == Blocked && now[c].block.Some? && now[c].block.value in now[c].deps
                && !IsReleased(now, now[c].block.value))
  {
    assert WorkedOff(before, now, c, p);
    assert BlockSound(now, now[c], {});
  }

  class Board {
    var tickets: Tickets
    var locks: set<TicketId>

    constructor (tickets: Tickets, locks: set<TicketId>)
      ensures this.tickets == tickets && this.locks == locks
    {
      this.tickets, this.locks := tickets, locks;
    }

    /** `save`: the gate, the file, and, if the ticket is released now, its successors. */
    method Save(id: TicketId, t: Ticket, ghost rank: map<TicketId, nat>, ghost top: nat, ghost pending: set<TicketId>)
      returns (ok: bool)
      requires id in tickets && t.deps == tickets[id].deps && Ranks(tickets, rank, top)
      requires GateRefuses(tickets, id, t) || SoundBut(tickets[id := t], pending + {id})
      modifies this
      ensures ok <==> !GateRefuses(old(tickets), id, t)
      ensures ok <==> (forall d :: d in t.deps ==> IsReleased(old(tickets), d))
                      || (t.status != Claimed && (t.owner == "" || t.owner == old(tickets)[id].owner))
      ensures !ok ==> tickets == old(tickets)
      ensures ok ==> SoundBut(tickets, pending) && Softened(old(tickets)[id := t], tickets, rank, rank[id])
      ensures ok && Released(t) ==> Opened(old(tickets)[id := t], tickets, id)
      ensures ok && Released(t) ==> Unlocked(old(tickets)[id := t], locks, id)
      ensures ok && !Released(t) ==> tickets == old(tickets)[id := t] && locks == old(locks)
      ensures if ok then LocksDropped(tickets, old(locks), locks) else locks == old(locks)
      decreases top - rank[id], 2
    {
      if GateRefuses(tickets, id, t) {
        return false;
      }
      tickets := tickets[id := t];
      ok := true;
      if Released(t) {
        ReopenSuccessors(id, rank, top, pending);
      } else {
        PendingUnreleased(tickets, pending, id);
      }
    }

    /** `_reopen_unverified_successors`. */
    method ReopenSuccessors(p: TicketId, ghost rank: map<TicketId, nat>, ghost top: nat, ghost pending: set<TicketId>)
      requires p in tickets && Ranks(tickets, rank, top) && SoundBut(tickets, pending + {p})
      modifies this
      ensures SoundBut(tickets, pending)
      ensures Softened(old(tickets), tickets, rank, rank[p])
      ensures IsReleased(old(tickets), p) ==> Opened(old(tickets), tickets, p)
      ensures IsReleased(old(tickets), p) ==> Unlocked(old(tickets), locks, p)
      ensures LocksDropped(tickets, old(locks), locks)
      decreases top - rank[p], 1
    {
      if !IsReleased(tickets, p) {
        PendingUnreleased(tickets, pending, p);
        return;
      }
      var snapshot := tickets;
      var todo := snapshot.Keys;
      while todo != {}
        invariant SoundBut(tickets, pending + {p}) && Softened(snapshot, tickets, rank, rank[p])
        invariant todo <= snapshot.Keys && AllWorkedOff(snapshot, tickets, todo, p)
        invariant LocksDropped(tickets, old(locks), locks)
        invariant forall c :: c in snapshot && c !in todo && p in snapshot[c].deps && NeverStarted(snapshot[c], p)
                              ==> c !in locks
        decreases todo
      {
        var x :| x in todo;
        ghost var before, mid := tickets, locks;
        ReconcileOne(x, p, snapshot, rank, top, pending);
        DroppedStays(before, tickets, old(locks), mid, locks, rank, rank[p]);
        SoftReleased(snapshot, before, rank, rank[p], p);
        WorkedOffStays(snapshot, before, tickets, todo, x, p, rank, rank[p]);
        todo := todo - {x};
      }
      NoBlocksLeft(snapshot, tickets, pending, p, rank, rank[p]);
    }

    /** One listed successor, reloaded and, if the gate or a stale start marks it, saved reconciled. */
    method ReconcileOne(x: TicketId, p: TicketId, snapshot: Tickets, ghost rank: map<TicketId, nat>, ghost top: nat,
                        ghost pending: set<TicketId>)
      requires x in snapshot && p in snapshot && IsReleased(snapshot, p) && Ranks(snapshot, rank, top)
      requires SoundBut(tickets, pending + {p}) && Softened(snapshot, tickets, rank, rank[p])
      modifies this
      ensures SoundBut(tickets, pending + {p}) && Softened(snapshot, tickets, rank, rank[p])
      ensures Softened(old(tickets), tickets, rank, rank[p])
      ensures WorkedOff(snapshot, tickets, x, p)
      ensures LocksDropped(tickets, old(locks), locks)
      ensures p in snapshot[x].deps && NeverStarted(snapshot[x], p) ==> x !in locks
      decreases top - rank[p], 0
    {
      if p !in snapshot[x].deps {
        return;
      }
      SoftReleased(snapshot, tickets, rank, rank[p], p);
      SoftRanks(snapshot, tickets, rank, rank[p], top);
      var c := tickets[x];
      assert Soft(snapshot, tickets, x);
      if !NeedsReconciling(c, p, x in locks) {
        SkippedIsWorkedOff(snapshot, tickets, x, p, rank, rank[p]);
        return;
      }
      if NeverStarted(c, p) {
        locks := locks - {x};
      }
      ghost var before := tickets;
      var t := Reconciled(tickets, c, p);
      ReconcileIsSoft(tickets, x, p, rank, rank[p], true);
      ReconcileIsSound(tickets, x, p, pending + {p}, true);
      SoundWider(tickets[x := t], pending + {p}, x);
      var ok := Save(x, t, rank, top, pending + {p});
      SoftTransitive(before, before[x := t], tickets, rank, rank[p], rank[x]);
      SoftTransitive(snapshot, before, tickets, rank, rank[p], rank[p]);
      SavedIsWorkedOff(snapshot, before, tickets, x, p, rank, rank[p], rank[x]);
    }

    // ---- commands ----

    ghost predicate Valid(rank: map<TicketId, nat>, top: nat)
      reads this
    {
      Sound(tickets) && Ranks(tickets, rank, top)
    }

    /** A save at the top of a command. */
    method SaveAlone(id: TicketId, t: Ticket, ghost rank: map<TicketId, nat>, ghost top: nat) returns (ok: bool)
      requires Valid(rank, top) && id in tickets && t.deps == tickets[id].deps
      requires GateRefuses(tickets, id, t) || BlockSound(tickets, t, {})
      modifies this
      ensures Valid(rank, top) && SameDeps(old(tickets), tickets)
      ensures ok <==> !GateRefuses(old(tickets), id, t)
      ensures !ok ==> tickets == old(tickets)
      ensures ok ==> tickets[id] == t && (Released(t) ==> Opened(old(tickets), tickets, id))
      ensures ok && Released(t) ==> Unlocked(old(tickets), locks, id)
      ensures if ok then LocksDropped(tickets, old(locks), locks) else locks == old(locks)
      ensures OthersKeepEvidence(old(tickets), tickets, id)
      ensures ok && !Released(t) ==> tickets == old(tickets)[id := t] && locks == old(locks)
    {
      ghost var before := tickets;
      if !GateRefuses(tickets, id, t) {
        SaveReady(tickets, id, t, rank, top);
      }
      ok := Save(id, t, rank, top, {});
      if ok {
        assert {} + {id} == {id};
        AfterSave(before, id, t, tickets, rank, top);
        SameWaiters(before, before[id := t], id, locks, rank, top);
      }
    }

    method ReopenAgain(id: TicketId, ghost rank: map<TicketId, nat>, ghost top: nat, ghost before: Tickets,
                       ghost had: set<TicketId>)
      requires LocksDropped(tickets, had, locks) && Unlocked(before, locks, id)
      requires Valid(rank, top) && IsReleased(tickets, id) && SameDeps(before, tickets) && Opened(before, tickets, id)
      modifies this
      ensures Valid(rank, top) && SameDeps(before, tickets) && Opened(before, tickets, id)
      ensures IsReleased(tickets, id) && id in old(tickets) && tickets[id] == old(tickets)[id]
      ensures OthersKeepEvidence(old(tickets), tickets, id)
      ensures LocksDropped(tickets, had, locks) && Unlocked(before, locks, id)
    {
      ghost var mid, kept := tickets, locks;
      SoundWider(tickets, {}, id);
      ReopenSuccessors(id, rank, top, {});
      DroppedStays(mid, tickets, had, kept, locks, rank, rank[id]);
      AfterReopen(before, mid, tickets, id, rank, top);
    }

    /** `done`: closes, then either releases (evidence, the operator's flag, or unreviewed documentation work) or gates
        the successors that waited for this ticket alone. */
    method CloseTicket(id: TicketId, operator: bool, ghost rank: map<TicketId, nat>, ghost top: nat)
      requires Valid(rank, top) && id in tickets
      modifies this
      ensures Valid(rank, top) && SameDeps(old(tickets), tickets) && tickets[id].status == Done
      ensures IsReleased(tickets, id) <==> operator || DocsExempt(old(tickets)[id].evidence)
                                           || Released(old(tickets)[id].(status := Done))
      ensures OthersKeepEvidence(old(tickets), tickets, id)
      ensures var e := old(tickets)[id].evidence;
        tickets[id].evidence
        == if (operator || DocsExempt(e)) && !Released(old(tickets)[id].(status := Done))
           then e.(override := true) else e
      ensures IsReleased(tickets, id) ==> Opened(old(tickets), tickets, id) && Unlocked(old(tickets), locks, id)
      ensures LocksDropped(tickets, old(locks), locks)
      ensures !IsReleased(tickets, id) ==> forall c :: c in locks <==> c in old(locks) && !Waiting(old(tickets), c, id)
      ensures !IsReleased(tickets, id) ==> forall c :: c in old(tickets) && c != id ==>
        var t := old(tickets)[c];
        if id in t.deps && (t.status == Open || t.status == Blocked)
           && forall d :: d in t.deps ==> d == id || IsReleased(old(tickets), d)
        then tickets[c] == t.(status := Blocked, owner := "", block := Some(id), gateNotes := t.gateNotes + {id})
             && c !in locks
        else tickets[c] == t && (c in locks <==> c in old(locks))
    {
      ghost var before := tickets;
      var t := tickets[id].(status := Done);
      assert BlockSound(tickets, tickets[id], {});
      var ok := SaveAlone(id, t, rank, top);
      if Released(t) {
        ReopenAgain(id, rank, top, before, old(locks));
      } else if operator || DocsExempt(t.evidence) {
        var free := t.(evidence := t.evidence.(override := true));
        ghost var mid := tickets;
        assert BlockSound(tickets, tickets[id], {});
        ok := SaveAlone(id, free, rank, top);
        OpenedFrom(before, mid, tickets, id, rank, top);
        SameWaiters(before, mid, id, locks, rank, top);
        ReopenAgain(id, rank, top, before, old(locks));
      } else {
        BlockSuccessors(id, rank, top);
        ClosedUnreleased(before, t, id, tickets, old(locks), locks, rank, top);
      }
    }

    /** `_block_unverified_successors`. */
    method BlockSuccessors(p: TicketId, ghost rank: map<TicketId, nat>, ghost top: nat)
      requires Valid(rank, top) && p in tickets && !IsReleased(tickets, p)
      modifies this
      ensures Valid(rank, top) && SameDeps(old(tickets), tickets)
      ensures WaitersGated(old(tickets), tickets, {}, p)
      ensures forall c :: c in locks <==> c in old(locks) && !Waiting(old(tickets), c, p)
    {
      var snapshot := tickets;
      var todo := snapshot.Keys;
      while todo != {}
        invariant todo <= snapshot.Keys && Valid(rank, top) && SameDeps(snapshot, tickets)
        invariant WaitersGated(snapshot, tickets, todo, p) && !IsReleased(tickets, p)
        invariant forall c :: c in locks <==> c in old(locks) && (c in todo || !Waiting(snapshot, c, p))
        decreases todo
      {
        var c :| c in todo;
        WaitersStep(snapshot, tickets, todo, c, p);
        todo := todo - {c};
        if Waiting(snapshot, c, p) {
          locks := locks - {c};
          var ok := SaveAlone(c, GatedOn(tickets[c], p), rank, top);
        }
      }
    }

    /** `accept`, by a reviewer who may: the verdict names the submitted commit or another. */
    method AcceptTicket(id: TicketId, sha: Sha, allowed: bool, ghost rank: map<TicketId, nat>, ghost top: nat)
      returns (ok: bool)
      requires Valid(rank, top) && id in tickets
      modifies this
      ensures Valid(rank, top) && SameDeps(old(tickets), tickets)
      ensures ok <==> allowed && (old(tickets)[id].status == Review || old(tickets)[id].status == Done)
      ensures !ok ==> tickets == old(tickets)
      ensures OthersKeepEvidence(old(tickets), tickets, id)
      ensures var e := old(tickets)[id].evidence;
        ok ==> tickets[id] == old(tickets)[id].(evidence := e.(accepts := e.accepts + [Accept(sha, true)]))
      ensures ok && IsReleased(tickets, id) ==>
                Opened(old(tickets), tickets, id) && Unlocked(old(tickets), locks, id)
      ensures if ok then LocksDropped(tickets, old(locks), locks) else locks == old(locks)
      ensures ok && !IsReleased(tickets, id) ==>
                tickets == old(tickets)[id := WithVerdict(old(tickets)[id], sha)] && locks == old(locks)
      ensures ok ==> (IsReleased(tickets, id) <==>
                old(tickets)[id].status == Done
                && (IsReleased(old(tickets), id) || sha == old(tickets)[id].evidence.head != ""))
    {
      if !allowed || (tickets[id].status != Review && tickets[id].status != Done) {
        return false;
      }
      ghost var before := tickets;
      var e := tickets[id].evidence;
      var t := WithVerdict(tickets[id], sha);
      assert BlockSound(tickets, tickets[id], {});
      ok := SaveAlone(id, t, rank, top);
      AcceptCounts(e, sha);
      if Released(t) {
        ReopenAgain(id, rank, top, before, old(locks));
      }
    }

    /** The close a merge writes. */
    method MergeTicket(id: TicketId, pin: Sha, ghost rank: map<TicketId, nat>, ghost top: nat)
      requires Valid(rank, top) && id in tickets
      modifies this
      ensures Valid(rank, top) && SameDeps(old(tickets), tickets)
      ensures OthersKeepEvidence(old(tickets), tickets, id)
      ensures var t := old(tickets)[id];
        tickets[id] == t.(status := Done, evidence := t.evidence.(merge := Some(Merge(pin, true))))
      ensures IsReleased(tickets, id) ==> Opened(old(tickets), tickets, id) && Unlocked(old(tickets), locks, id)
      ensures LocksDropped(tickets, old(locks), locks)
      ensures !IsReleased(tickets, id) ==>
                tickets == old(tickets)[id := MergedAs(old(tickets)[id], pin)] && locks == old(locks)
      ensures var e := old(tickets)[id].evidence;
        IsReleased(tickets, id) <==> pin == e.head != "" || Accepted(e) || e.override
    {
      var t := MergedAs(tickets[id], pin);
      assert BlockSound(tickets, tickets[id], {});
      var ok := SaveAlone(id, t, rank, top);
    }

    /** `review`: submits a commit; earlier verdicts stop counting. */
    method SubmitForReview(id: TicketId, who: string, head: Sha, ghost rank: map<TicketId, nat>, ghost top: nat)
      returns (ok: bool)
      requires Valid(rank, top) && id in tickets
      modifies this
      ensures Valid(rank, top) && SameDeps(old(tickets), tickets)
      ensures ok <==> FirstUnreleased(old(tickets), old(tickets)[id].deps).None?
                      && old(tickets)[id].status in {Claimed, Blocked, Open}
      ensures tickets == if ok then old(tickets)[id := tickets[id]] else old(tickets)
      ensures var t := old(tickets)[id];
        ok ==> tickets[id] == t.(status := Review, owner := if t.owner == "" then who else t.owner,
                                 evidence := tickets[id].evidence)
      ensures var e := old(tickets)[id].evidence; var f := tickets[id].evidence;
        ok ==> f.head == head && f.reviewed && NothingCounts(f) && f == e.(head := head, reviewed := true,
                                                                         accepts := f.accepts, merge := f.merge)
    {
      var t := tickets[id];
      if FirstUnreleased(tickets, t.deps).Some? || t.status !in {Claimed, Blocked, Open} {
        return false;
      }
      assert BlockSound(tickets, t, {});
      ok := SaveAlone(id, Submitted(t, who, head), rank, top);
    }

    /** `reopen` to the pool. */
    method ReopenTicket(id: TicketId, ghost rank: map<TicketId, nat>, ghost top: nat) returns (ok: bool)
      requires Valid(rank, top) && id in tickets
      modifies this
      ensures Valid(rank, top) && SameDeps(old(tickets), tickets)
      ensures ok <==> FirstUnverified(old(tickets), old(tickets)[id].deps).None?
      ensures tickets == if ok then old(tickets)[id := tickets[id]] else old(tickets)
      ensures ok ==> tickets[id] == old(tickets)[id].(status := Open, owner := "", evidence := tickets[id].evidence)
      ensures var e := old(tickets)[id].evidence; var f := tickets[id].evidence;
        ok ==> NothingCounts(f) && f == e.(accepts := f.accepts, merge := f.merge)
      ensures locks == if ok then old(locks) - {id} else old(locks)
    {
      var t := tickets[id];
      if FirstUnverified(tickets, t.deps).Some? {
        return false;
      }
      assert BlockSound(tickets, t, {});
      ok := SaveAlone(id, Returned(t), rank, top);
      locks := locks - {id};
    }

    /** `try_claim`. */
    method ClaimTicket(id: TicketId, who: string, ghost rank: map<TicketId, nat>, ghost top: nat) returns (ok: bool)
      requires Valid(rank, top) && id in tickets && who != ""
      modifies this
      ensures Valid(rank, top) && SameDeps(old(tickets), tickets)
      ensures ok <==> id !in old(locks) && old(tickets)[id].status == Open
                      && FirstUnreleased(old(tickets), old(tickets)[id].deps).None?
      ensures tickets == if ok then old(tickets)[id := old(tickets)[id].(status := Claimed, owner := who)]
                         else old(tickets)
      ensures locks == if ok then old(locks) + {id} else old(locks)
    {
      if id in locks {
        return false;
      }
      locks := locks + {id};
      var t := tickets[id];
      if t.status != Open || FirstUnreleased(tickets, t.deps).Some? {
        locks := locks - {id};
        return false;
      }
      assert BlockSound(tickets, t, {});
      ok := SaveAlone(id, t.(status := Claimed, owner := who), rank, top);
    }

    /** `block`, by hand. */
    method BlockTicket(id: TicketId, ghost rank: map<TicketId, nat>, ghost top: nat)
      requires Valid(rank, top) && id in tickets
      modifies this
      ensures Valid(rank, top) && tickets == old(tickets)[id := old(tickets)[id].(status := Blocked)]
    {
      assert BlockSound(tickets, tickets[id], {});
      var ok := SaveAlone(id, tickets[id].(status := Blocked), rank, top);
    }
  }

  // ---- runs ----

  datatype Command =
    | Close(id: TicketId, operator: bool)
    | AcceptOne(id: TicketId, sha: Sha, allowed: bool)
    | MergeOne(id: TicketId, pin: Sha)
    | Submit(id: TicketId, who: string, head: Sha)
    | Return(id: TicketId)
    | Claim(id: TicketId, who: string)
    | Block(id: TicketId)

  function DepsOf(ts: Tickets): Graph {
    map x | x in ts :: ts[x].deps
  }

  lemma AcyclicBoardRanked(ts: Tickets) returns (rank: map<TicketId, nat>, top: nat)
    requires Acyclic(DepsOf(ts))
    ensures Ranks(ts, rank, top)
  {
    var g := DepsOf(ts);
    top := |g.Keys|;
    rank := RankNodes(g, g.Keys);
    forall x, d | x in ts && d in ts[x].deps && d in ts ensures rank[d] < rank[x] {
      assert Edge(g, x, d);
    }
  }

  /** What one command may do to the evidence of the ticket it names. */
  predicate EvidenceStep(e: Evidence, f: Evidence, cmd: Command) {
    || f == e
    || (match cmd
        case Close(_, operator) => f == e.(override := true) && (operator || (e.docsRole && !e.reviewed))
        case AcceptOne(_, sha, _) => f == e.(accepts := e.accepts + [Accept(sha, true)])
        case MergeOne(_, pin) => f == e.(merge := Some(Merge(pin, true)))
        case Submit(_, _, head) =>
          NothingCounts(f) && f == e.(head := head, reviewed := true, accepts := f.accepts, merge := f.merge)
        case Return(_) => NothingCounts(f) && f == e.(accepts := f.accepts, merge := f.merge)
        case Claim(_, _) => false
        case Block(_) => false)
  }

  method Execute(b: Board, cmd: Command, ghost rank: map<TicketId, nat>, ghost top: nat)
    requires b.Valid(rank, top)
    modifies b
    ensures b.Valid(rank, top) && SameDeps(old(b.tickets), b.tickets)
    ensures OthersKeepEvidence(old(b.tickets), b.tickets, cmd.id)
    ensures cmd.id in b.tickets ==> EvidenceStep(old(b.tickets)[cmd.id].evidence, b.tickets[cmd.id].evidence, cmd)
  {
    if cmd.id !in b.tickets || (cmd.Claim? && cmd.who == "") {
      return;
    }
    match cmd {
      case Close(id, operator) => b.CloseTicket(id, operator, rank, top);
      case AcceptOne(id, sha, allowed) => var ok := b.AcceptTicket(id, sha, allowed, rank, top);
      case MergeOne(id, pin) => b.MergeTicket(id, pin, rank, top);
      case Submit(id, who, head) => var ok := b.SubmitForReview(id, who, head, rank, top);
      case Return(id) => var ok := b.ReopenTicket(id, rank, top);
      case Claim(id, who) => var ok := b.ClaimTicket(id, who, rank, top);
      case Block(id) => b.BlockTicket(id, rank, top);
    }
  }

  /** Gate blocks never go stale: from an acyclic board without stale blocks, any sequence of commands leaves one. */
  method RunCommands(b: Board, cmds: seq<Command>)
    requires Sound(b.tickets) && Acyclic(DepsOf(b.tickets))
    modifies b
    ensures Sound(b.tickets) && SameDeps(old(b.tickets), b.tickets)
  {
    ghost var rank, top := AcyclicBoardRanked(b.tickets);
    for i := 0 to |cmds|
      invariant b.Valid(rank, top) && SameDeps(old(b.tickets), b.tickets)
    {
      Execute(b, cmds[i], rank, top);
    }
  }

  // ---- what releases a submitted ticket ----

  /** The submitted commit is one of these, and no verdict on them counts; nor does an exemption. */
  predicate Undecided(e: Evidence, heads: set<Sha>) {
    && e.head in heads && !e.override && (e.docsRole ==> e.reviewed)
    && (forall i :: 0 <= i < |e.accepts| && e.accepts[i].live ==> e.accepts[i].sha !in heads)
    && (e.merge.Some? && e.merge.value.live ==> e.merge.value.pin !in heads)
  }

  /** The command neither accepts nor merges one of these commits for the ticket, nor closes it as its operator; what it
      submits is one of them. */
  predicate Silent(cmd: Command, id: TicketId, heads: set<Sha>) {
    cmd.id == id ==>
      match cmd
      case Close(_, operator) => !operator
      case AcceptOne(_, sha, _) => sha !in heads
      case MergeOne(_, pin) => pin !in heads
      case Submit(_, _, head) => head in heads
      case _ => true
  }

  lemma StaysUndecided(e: Evidence, f: Evidence, cmd: Command, heads: set<Sha>)
    requires Undecided(e, heads) && EvidenceStep(e, f, cmd) && Silent(cmd, cmd.id, heads)
    ensures Undecided(f, heads)
  {}

  lemma UndecidedIsNotReleased(ts: Tickets, id: TicketId, heads: set<Sha>)
    requires id in ts && Undecided(ts[id].evidence, heads)
    ensures !IsReleased(ts, id)
  {}

  /** A ticket no counting verdict names stays unreleased, whatever is closed, claimed, blocked, returned, submitted or
      decided meanwhile, until one of its submitted commits is accepted or merged, or its operator closes it. */
  method RunUndecided(b: Board, cmds: seq<Command>, id: TicketId, ghost heads: set<Sha>)
    requires Sound(b.tickets) && Acyclic(DepsOf(b.tickets))
    requires id in b.tickets && Undecided(b.tickets[id].evidence, heads)
    requires forall i :: 0 <= i < |cmds| ==> Silent(cmds[i], id, heads)
    modifies b
    ensures Sound(b.tickets) && SameDeps(old(b.tickets), b.tickets)
    ensures id in b.tickets && Undecided(b.tickets[id].evidence, heads) && !IsReleased(b.tickets, id)
  {
    ghost var rank, top := AcyclicBoardRanked(b.tickets);
    for i := 0 to |cmds|
      invariant b.Valid(rank, top) && SameDeps(old(b.tickets), b.tickets)
      invariant id in b.tickets && Undecided(b.tickets[id].evidence, heads)
    {
      ghost var before := b.tickets;
      Execute(b, cmds[i], rank, top);
      if cmds[i].id == id {
        StaysUndecided(before[id].evidence, b.tickets[id].evidence, cmds[i], heads);
      }
    }
    UndecidedIsNotReleased(b.tickets, id, heads);
  }

  /** From a submission on, or from a return to the pool, only an accept or a merge of a commit submitted for the
      ticket, or an override, releases it. */
  method RunFromSubmission(b: Board, first: Command, cmds: seq<Command>, ghost heads: set<Sha>)
    requires Sound(b.tickets) && Acyclic(DepsOf(b.tickets)) && first.id in b.tickets
    requires first.Submit? || first.Return?
    requires var e := b.tickets[first.id].evidence;
      && !e.override && (first.Return? ==> e.head in heads && (e.docsRole ==> e.reviewed))
      && (first.Submit? ==> first.head in heads)
    requires forall i :: 0 <= i < |cmds| ==> Silent(cmds[i], first.id, heads)
    modifies b
    ensures var refused := if first.Submit?
                           then FirstUnreleased(old(b.tickets), old(b.tickets)[first.id].deps).Some?
                                || old(b.tickets)[first.id].status !in {Claimed, Blocked, Open}
                           else FirstUnverified(old(b.tickets), old(b.tickets)[first.id].deps).Some?;
      refused || (first.id in b.tickets && !IsReleased(b.tickets, first.id))
  {
    ghost var rank, top := AcyclicBoardRanked(b.tickets);
    var ok;
    if first.Submit? {
      ok := b.SubmitForReview(first.id, first.who, first.head, rank, top);
    } else {
      ok := b.ReopenTicket(first.id, rank, top);
    }
    if ok {
      SameDepsAcyclic(old(b.tickets), b.tickets);
      RunUndecided(b, cmds, first.id, heads);
    }
  }

  lemma SameDepsAcyclic(a: Tickets, b: Tickets)
    requires SameDeps(a, b)
    ensures DepsOf(a) == DepsOf(b)
  {}
}
