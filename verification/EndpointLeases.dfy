/** What a process read under a seat lock is still what the file says when it writes; hence stale wakers are isolated
    from later bindings and fences count bindings. No assumption is made on unlocked removals. */
module EndpointLeases {
  import opened Wrappers
  import opened Endpoint
  import opened EndpointProtocol

  /** The lease an operation observed, 0 when it names none. */
  function Observed(op: Op): Lease {
    match op
    case Heartbeat(_, _, _, _) => 0
    case Reserve(_, lease, _) => lease
    case Finish(_, lease, _, _, _) => lease
    case Remove(lease, _) => lease
  }

  predicate Matches(op: Op, ep: Record) {
    Observed(op) != 0 ==> ep.lease == Observed(op)
  }

  /** The file is as read, unless somebody removed it without the lock. */
  predicate Faithful(files: map<Seat, Record>, pr: Proc) {
    match pr
    case BindWrite(seat, _, existing, _, _) => seat in files ==> existing == Some(files[seat])
    case OpWrite(seat, op, ep, _) => Matches(op, ep) && (seat in files ==> files[seat] == ep)
    case OpUnlink(seat, op, ep) =>
      Matches(op, ep) && (seat in files ==> files[seat].lease == ep.lease && files[seat].fence == ep.fence)
    case _ => true
  }

  predicate Operating(pr: Proc) {
    pr.OpWant? || pr.OpHeld? || pr.OpWrite? || pr.OpUnlink?
  }

  /** Every lease in a file or in a waker's hands is non-empty and has been issued. */
  predicate Issued(pr: Proc, issued: Lease) {
    && (Operating(pr) && !pr.op.Heartbeat? ==> 0 < Observed(pr.op) <= issued)
    && (pr.OpWrite? || pr.OpUnlink? ==> 0 < pr.ep.lease <= issued)
    && (pr.BindWrite? && pr.existing.Some? ==> 0 < pr.existing.value.lease <= issued)
    && (pr.Poking? ==> 0 < pr.lease <= issued)
  }

  ghost predicate Inv(s: State) {
    && Exclusive(s)
    && (forall p :: p in s.procs ==> Faithful(s.files, s.procs[p]))
    && (forall p :: p in s.procs ==> Issued(s.procs[p], s.issued))
    && (forall seat :: seat in s.files ==> 0 < s.files[seat].lease <= s.issued)
    && (forall p :: p in s.procs && s.procs[p].OpWrite? ==> s.procs[p].readAt <= s.clock)
  }

  lemma QuietInv(s: State)
    requires Quiet(s)
    ensures Inv(s)
  {}

  /** A seat's file changes only under its lock, or disappears. */
  lemma FileChange(s: State, a: Action, seat: Seat)
    requires Enabled(s, a)
    requires Stored(Next(s, a).files, seat) != Stored(s.files, seat)
    ensures seat !in Next(s, a).files || (Mover(a).Some? && SeatLock(At(s, Mover(a).value)) == Some(seat))
  {}

  lemma MoverFaithful(s: State, a: Action, p: Pid)
    requires Inv(s) && Enabled(s, a) && Mover(a) == Some(p)
    ensures Faithful(Next(s, a).files, At(Next(s, a), p))
  {
    if a.WriteOp? {
      assert Faithful(s.files, s.procs[p]);
    }
  }

  lemma IssuedGrows(s: State, a: Action)
    requires Enabled(s, a)
    ensures Next(s, a).issued >= s.issued
  {}

  lemma ReaderIssued(s: State, a: Action, p: Pid)
    requires Enabled(s, a) && Mover(a) == Some(p) && Issued(At(s, p), s.issued) && (a.ReadOp? || a.Decide?)
    requires Stored(s.files, At(s, p).seat).Some? ==> 0 < s.files[At(s, p).seat].lease <= s.issued
    ensures Issued(At(Next(s, a), p), s.issued)
  {}

  lemma PositionIssued(s: State, a: Action, p: Pid)
    requires Enabled(s, a) && Mover(a) == Some(p) && Issued(At(s, p), s.issued) && !a.ReadOp? && !a.Decide?
    requires a.Observe? || a.ObserveStale? ==> 0 < s.files[a.seat].lease <= s.issued
    ensures Issued(At(Next(s, a), p), s.issued)
  {}

  lemma MoverIssued(s: State, a: Action, p: Pid)
    requires Inv(s) && Enabled(s, a) && Mover(a) == Some(p)
    ensures Issued(At(Next(s, a), p), Next(s, a).issued)
  {
    assert Issued(At(s, p), s.issued);
    if a.ReadOp? || a.Decide? {
      ReaderIssued(s, a, p);
    } else {
      PositionIssued(s, a, p);
    }
    IssuedGrows(s, a);
  }

  lemma BystanderFaithful(s: State, a: Action, q: Pid)
    requires Inv(s) && Enabled(s, a) && q in s.procs && Mover(a) != Some(q)
    ensures Faithful(Next(s, a).files, s.procs[q])
    ensures Issued(s.procs[q], Next(s, a).issued)
  {
    var pr := s.procs[q];
    assert Faithful(s.files, pr);
    if SeatLock(pr).Some? && Stored(Next(s, a).files, pr.seat) != Stored(s.files, pr.seat) {
      FileChange(s, a, pr.seat);
    }
  }

  lemma WriteIssued(s: State, a: Action, seat: Seat)
    requires Enabled(s, a) && (a.WriteOp? || a.WriteBind?) && At(s, a.p).seat == seat
    requires Issued(At(s, a.p), s.issued)
    ensures seat in Next(s, a).files && 0 < Next(s, a).files[seat].lease <= Next(s, a).issued
  {
    if a.WriteOp? {
      var o := s.procs[a.p];
      assert Updated(o.op, o.ep, a.t).lease == o.ep.lease;
    }
  }

  lemma LeasesIssued(s: State, a: Action, seat: Seat)
    requires Inv(s) && Enabled(s, a) && seat in Next(s, a).files
    ensures 0 < Next(s, a).files[seat].lease <= Next(s, a).issued
  {
    IssuedGrows(s, a);
    if (a.WriteOp? || a.WriteBind?) && At(s, a.p).seat == seat {
      assert Issued(s.procs[a.p], s.issued);
      WriteIssued(s, a, seat);
    } else {
      FileSame(s, a, seat);
    }
  }

  lemma ProcsKept(s: State, a: Action, p: Pid)
    requires Inv(s) && Enabled(s, a) && p in Next(s, a).procs
    ensures Faithful(Next(s, a).files, Next(s, a).procs[p]) && Issued(Next(s, a).procs[p], Next(s, a).issued)
    ensures Next(s, a).procs[p].OpWrite? ==> Next(s, a).procs[p].readAt <= Next(s, a).clock
  {
    OnlyMoverMoves(s, a);
    if Mover(a) == Some(p) {
      MoverFaithful(s, a, p);
      MoverIssued(s, a, p);
    } else {
      BystanderFaithful(s, a, p);
    }
  }

  lemma InvKept(s: State, a: Action)
    requires Inv(s) && Enabled(s, a)
    ensures Inv(Next(s, a))
  {
    ExclusiveKept(s, a);
    var n := Next(s, a);
    forall p | p in n.procs
      ensures Faithful(n.files, n.procs[p]) && Issued(n.procs[p], n.issued)
      ensures n.procs[p].OpWrite? ==> n.procs[p].readAt <= n.clock
    {
      ProcsKept(s, a, p);
    }
    forall seat | seat in n.files ensures 0 < n.files[seat].lease <= n.issued {
      LeasesIssued(s, a, seat);
    }
  }

  lemma {:induction false} InvRun(s: State, es: seq<Action>)
    requires Inv(s) && ValidRun(s, es)
    ensures Inv(Run(s, es))
    decreases |es|
  {
    if es != [] {
      InvKept(s, es[0]);
      InvRun(Next(s, es[0]), es[1..]);
    }
  }

  // ---- stale wakers ----

  /** A step of a process that observed a lease leaves alone every record bound under another lease. */
  lemma StaleStepHarmless(s: State, a: Action, p: Pid, seat: Seat)
    requires Inv(s) && Enabled(s, a) && Mover(a) == Some(p) && Operating(At(s, p))
    requires Observed(At(s, p).op) != 0
    requires seat in s.files && s.files[seat].lease != Observed(At(s, p).op)
    ensures Stored(Next(s, a).files, seat) == Stored(s.files, seat)
  {
    assert Faithful(s.files, s.procs[p]);
  }

  /** The process has nothing to do with the seat, or is a waker that observed another binding of it. */
  predicate StaleFor(pr: Proc, seat: Seat, lease: Lease) {
    || pr.Idle?
    || pr.seat != seat
    || (Operating(pr) && Observed(pr.op) != 0 && Observed(pr.op) != lease)
    || (pr.Poking? && pr.lease != lease)
  }

  /** The event starts nothing new on the seat and does not remove its file without the lock. */
  predicate Avoids(a: Action, seat: Seat) {
    match a
    case UnlockedRemove(o) => o != seat
    case StartBind(_, o, _, _) => o != seat
    case StartHeartbeat(_, o, _, _, _, _) => o != seat
    case Observe(_, o, _) => o != seat
    case ObserveStale(_, o) => o != seat
    case _ => true
  }

  ghost predicate OnlyStale(s: State, seat: Seat, lease: Lease) {
    forall p :: p in s.procs ==> StaleFor(s.procs[p], seat, lease)
  }

  lemma StaleStays(s: State, a: Action, p: Pid, seat: Seat)
    requires Inv(s) && Enabled(s, a) && Avoids(a, seat) && Mover(a) == Some(p)
    requires seat in s.files && StaleFor(At(s, p), seat, s.files[seat].lease)
    ensures StaleFor(At(Next(s, a), p), seat, s.files[seat].lease)
    ensures Stored(Next(s, a).files, seat) == Stored(s.files, seat)
  {
    if Operating(At(s, p)) {
      assert Faithful(s.files, s.procs[p]);
    }
    if At(s, p).Poking? {
      assert Issued(s.procs[p], s.issued);
    }
  }

  lemma StaleStep(s: State, a: Action, seat: Seat)
    requires Inv(s) && Enabled(s, a) && Avoids(a, seat)
    requires seat in s.files && OnlyStale(s, seat, s.files[seat].lease)
    ensures OnlyStale(Next(s, a), seat, s.files[seat].lease)
    ensures Stored(Next(s, a).files, seat) == Stored(s.files, seat)
  {
    OnlyMoverMoves(s, a);
    if Mover(a).Some? {
      assert StaleFor(At(s, Mover(a).value), seat, s.files[seat].lease);
      StaleStays(s, a, Mover(a).value, seat);
    }
  }

  lemma {:induction false} StaleRun(s: State, es: seq<Action>, seat: Seat)
    requires Inv(s) && ValidRun(s, es) && forall a :: a in es ==> Avoids(a, seat)
    requires seat in s.files && OnlyStale(s, seat, s.files[seat].lease)
    ensures Stored(Run(s, es).files, seat) == Stored(s.files, seat)
    decreases |es|
  {
    if es != [] {
      assert es[0] in es;
      StaleStep(s, es[0], seat);
      InvKept(s, es[0]);
      assert Stored(Next(s, es[0]).files, seat).Some?;
      StaleRun(Next(s, es[0]), es[1..], seat);
    }
  }

  /** However many wakers hold earlier leases of a seat at the moment a bind lands there, and however they, and the
      rest of the board, go on (reserving, poking, committing, dropping, crashing): the new record is untouched. */
  lemma LaterBindUntouched(s: State, before: seq<Action>, p: Pid, after: seq<Action>, seat: Seat)
    requires Quiet(s) && ValidRun(s, before)
    requires var m := Run(s, before);
      && Enabled(m, WriteBind(p)) && At(m, p).seat == seat
      && ValidRun(Next(m, WriteBind(p)), after)
      && forall q :: q in m.procs && q != p && !m.procs[q].Idle? && m.procs[q].seat == seat
           ==> m.procs[q].Poking? || (Operating(m.procs[q]) && !m.procs[q].op.Heartbeat?)
    requires forall a :: a in after ==> Avoids(a, seat)
    ensures var m := Run(s, before);
      Stored(Run(Next(m, WriteBind(p)), after).files, seat)
      == Some(Bound(At(m, p).existing, At(m, p).who, m.issued + 1, m.clock))
  {
    QuietInv(s);
    InvRun(s, before);
    var m := Run(s, before);
    var n := Next(m, WriteBind(p));
    InvKept(m, WriteBind(p));
    forall q | q in n.procs ensures StaleFor(n.procs[q], seat, n.files[seat].lease) {
      if q != p {
        assert Issued(m.procs[q], m.issued);
      }
    }
    StaleRun(n, after, seat);
  }

  // ---- fences ----

  ghost predicate NeverRemoved(s: State, es: seq<Action>, seat: Seat)
    requires ValidRun(s, es)
    decreases |es|
  {
    seat in s.files && (es == [] || NeverRemoved(Next(s, es[0]), es[1..], seat))
  }

  predicate BindsSeat(s: State, a: Action, seat: Seat) {
    a.WriteBind? && At(s, a.p).BindWrite? && At(s, a.p).seat == seat
  }

  ghost function Rebinds(s: State, es: seq<Action>, seat: Seat): nat
    requires ValidRun(s, es)
    decreases |es|
  {
    if es == [] then 0
    else (if BindsSeat(s, es[0], seat) then 1 else 0) + Rebinds(Next(s, es[0]), es[1..], seat)
  }

  predicate SameBinding(r: Record, ep: Record) {
    r.fence == ep.fence && r.lease == ep.lease && r.who == ep.who
  }

  lemma WriteKeepsBinding(s: State, p: Pid, t: Time, seat: Seat)
    requires Inv(s) && Enabled(s, WriteOp(p, t)) && seat in s.files
    ensures seat in Next(s, WriteOp(p, t)).files && SameBinding(Next(s, WriteOp(p, t)).files[seat], s.files[seat])
  {
    var o := s.procs[p];
    assert Faithful(s.files, o) && SameBinding(Updated(o.op, o.ep, t), o.ep);
  }

  lemma FenceStep(s: State, a: Action, seat: Seat)
    requires Inv(s) && Enabled(s, a) && seat in s.files && seat in Next(s, a).files
    ensures Next(s, a).files[seat].fence == s.files[seat].fence + if BindsSeat(s, a, seat) then 1 else 0
    ensures BindsSeat(s, a, seat) ==> Next(s, a).files[seat].lease > s.files[seat].lease
                                      && Next(s, a).files[seat].prevLease == s.files[seat].lease
    ensures !BindsSeat(s, a, seat) ==> SameBinding(Next(s, a).files[seat], s.files[seat])
  {
    if a.WriteOp? {
      WriteKeepsBinding(s, a.p, a.t, seat);
    } else if BindsSeat(s, a, seat) {
      assert Faithful(s.files, s.procs[a.p]);
    } else {
      FileSame(s, a, seat);
    }
  }

  /** While a record is not removed its fence rises by one for each bind that lands, and by nothing else. */
  lemma {:induction false} FenceCountsRebinds(s: State, es: seq<Action>, seat: Seat)
    requires Inv(s) && ValidRun(s, es) && NeverRemoved(s, es, seat)
    ensures seat in Run(s, es).files
    ensures Run(s, es).files[seat].fence == s.files[seat].fence + Rebinds(s, es, seat)
    ensures Rebinds(s, es, seat) == 0 ==> Run(s, es).files[seat].lease == s.files[seat].lease
    ensures Rebinds(s, es, seat) > 0 ==> Run(s, es).files[seat].lease > s.files[seat].lease
    decreases |es|
  {
    if es != [] {
      FenceStep(s, es[0], seat);
      InvKept(s, es[0]);
      FenceCountsRebinds(Next(s, es[0]), es[1..], seat);
    }
  }

  // ---- live seats ----

  /** A bind of another session that does not name the record's lease. */
  predicate Intruder(who: Session, presented: Lease, r: Record) {
    !SameSession(r.who, who) && (presented == 0 || presented != r.lease)
  }

  /** Every bind under way on the seat is an intruder's, and none has been let through. */
  predicate OnlyIntrudes(pr: Proc, seat: Seat, r: Record) {
    && (pr.BindWant? || pr.BindFp? || pr.BindHeld? || pr.BindScan? ==>
          (pr.seat == seat ==> Intruder(pr.who, pr.presented, r)))
    && !(pr.BindWrite? && pr.seat == seat)
  }

  /** The record's session is seen live by whoever decides about the seat, and whoever starts to bind it intrudes. */
  predicate LiveStep(s: State, a: Action, seat: Seat, r: Record) {
    && (a.StartBind? && a.seat == seat ==> Intruder(a.who, a.presented, r))
    && (a.Decide? && At(s, a.p).BindScan? && At(s, a.p).seat == seat ==> a.live)
  }

  ghost predicate LiveRun(s: State, es: seq<Action>, seat: Seat, r: Record)
    requires ValidRun(s, es)
    decreases |es|
  {
    es == [] || (LiveStep(s, es[0], seat, r) && LiveRun(Next(s, es[0]), es[1..], seat, r))
  }

  lemma IntruderStopped(s: State, a: Action, p: Pid, seat: Seat)
    requires Enabled(s, a) && Mover(a) == Some(p) && seat in s.files && LiveStep(s, a, seat, s.files[seat])
    requires OnlyIntrudes(At(s, p), seat, s.files[seat])
    ensures OnlyIntrudes(At(Next(s, a), p), seat, s.files[seat])
  {
    if a.Decide? && At(s, p).seat == seat {
      SameSessionIsSameKey(s.files[seat].who, At(s, p).who);
    }
  }

  predicate SameIntrusion(r: Record, q: Record) {
    r.who == q.who && r.lease == q.lease
  }

  lemma IntrusionSame(pr: Proc, seat: Seat, r: Record, q: Record)
    requires SameIntrusion(r, q)
    ensures OnlyIntrudes(pr, seat, r) <==> OnlyIntrudes(pr, seat, q)
  {}

  /** A live record is not taken over: however many other sessions try to bind the seat without naming its lease, the
      seat keeps session, lease and fence; and the whole record, if nobody else works on it. */
  lemma {:induction false} LiveSeatKept(s: State, es: seq<Action>, seat: Seat, r: Record)
    requires Inv(s) && ValidRun(s, es) && NeverRemoved(s, es, seat) && SameBinding(s.files[seat], r)
    requires LiveRun(s, es, seat, r) && forall p :: p in s.procs ==> OnlyIntrudes(s.procs[p], seat, r)
    ensures seat in Run(s, es).files && SameBinding(Run(s, es).files[seat], r)
    ensures (forall a :: a in es ==> !a.WriteOp?) ==> Run(s, es).files[seat] == s.files[seat]
    decreases |es|
  {
    if es != [] {
      var a, n := es[0], Next(s, es[0]);
      assert !BindsSeat(s, a, seat);
      FenceStep(s, a, seat);
      if !a.WriteOp? {
        FileSame(s, a, seat);
      }
      OnlyMoverMoves(s, a);
      forall p | p in n.procs ensures OnlyIntrudes(n.procs[p], seat, r) {
        assert OnlyIntrudes(At(s, p), seat, r);
        if Mover(a) == Some(p) {
          IntrusionSame(At(s, p), seat, r, s.files[seat]);
          IntruderStopped(s, a, p, seat);
          IntrusionSame(At(n, p), seat, r, s.files[seat]);
        }
      }
      InvKept(s, a);
      assert a in es && forall b :: b in es[1..] ==> b in es;
      LiveSeatKept(n, es[1..], seat, r);
    }
  }

  /** And a stale one can be: with its locks free, a session no other seat stores gets the seat. */
  lemma StaleSeatTaken(s: State, p: Pid, seat: Seat, who: Session, presented: Lease)
    requires Enabled(s, Decide(p, false)) && At(s, p).seat == seat && At(s, p).who == who
    ensures var n := Next(s, Decide(p, false));
      && Enabled(n, WriteBind(p))
      && seat in Next(n, WriteBind(p)).files && Next(n, WriteBind(p)).files[seat].who == who
  {}
}
