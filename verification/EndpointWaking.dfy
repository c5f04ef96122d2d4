/** One message retried by any number of wakers on one seat: at most one poke is in progress under one lease, and none
    after a recorded delivery. */
module EndpointWaking {
  import opened Wrappers
  import opened Endpoint
  import opened EndpointProtocol
  import opened EndpointLeases

  /** Poking for the message, or done poking and not yet recorded. */
  predicate InPhase(pr: Proc, seat: Seat, m: string) {
    || (pr.Poking? && pr.seat == seat && pr.mid == m)
    || ((pr.OpWant? || pr.OpHeld? || pr.OpWrite?) && pr.seat == seat && pr.op.Finish? && pr.op.mid == m)
  }

  function PhaseLease(pr: Proc): Lease
    requires pr.Poking? || (Operating(pr) && pr.op.Finish?)
  {
    if pr.Poking? then pr.lease else pr.op.lease
  }

  function PhaseSince(pr: Proc): Time
    requires pr.Poking? || (Operating(pr) && pr.op.Finish?)
  {
    if pr.Poking? then pr.since else pr.op.since
  }

  /** No other message is sent to the seat meanwhile. */
  predicate OneMessage(a: Action, seat: Seat, m: string) {
    a.Observe? && a.seat == seat ==> a.mid == m
  }

  /** Every poke in progress, and every unrecorded one, is still within the in-flight time. */
  ghost predicate Timely(s: State, seat: Seat, m: string) {
    forall p :: p in s.procs && InPhase(s.procs[p], seat, m) ==> s.clock <= PhaseSince(s.procs[p]) + INFLIGHT_TTL
  }

  ghost predicate TimelyRun(s: State, es: seq<Action>, seat: Seat, m: string)
    requires ValidRun(s, es)
    decreases |es|
  {
    Timely(s, seat, m) && (es == [] || TimelyRun(Next(s, es[0]), es[1..], seat, m))
  }

  // ---- the invariant ----

  /** A record bound under the lease of an unfinished poke carries that poke's mark. */
  predicate Marked(r: Record, pr: Proc, seat: Seat, m: string) {
    InPhase(pr, seat, m) && r.lease == PhaseLease(pr) ==> r.inflight == Some(InFlight(m, PhaseSince(pr)))
  }

  predicate PendingOn(pr: Proc, seat: Seat) {
    pr.OpWrite? && pr.seat == seat
  }

  /** What is known of one process. */
  predicate Sane(pr: Proc, seat: Seat, m: string) {
    && (InPhase(pr, seat, m) ==> PhaseSince(pr) > 0)
    && (pr.OpWrite? ==> pr.readAt > 0)
    && (Operating(pr) && (pr.op.Reserve? || pr.op.Finish?) && pr.seat == seat ==> pr.op.mid == m)
    && (pr.Poking? && pr.seat == seat ==> pr.mid == m)
  }

  /** What is known of two processes. */
  predicate Compatible(q: Proc, p: Proc, seat: Seat, m: string) {
    InPhase(p, seat, m) ==>
      && (InPhase(q, seat, m) ==> PhaseLease(p) != PhaseLease(q))
      && (PendingOn(q, seat) ==> Marked(q.ep, p, seat, m))
      && (PendingOn(q, seat) && q.op.Reserve? ==> q.ep.lease != PhaseLease(p))
  }

  ghost predicate WakeInv(s: State, seat: Seat, m: string) {
    && s.clock > 0
    && (forall p :: p in s.procs ==> Sane(s.procs[p], seat, m))
    && (forall p :: p in s.procs && seat in s.files ==> Marked(s.files[seat], s.procs[p], seat, m))
    && (forall p :: p in s.procs && PendingOn(s.procs[p], seat) ==> Marked(s.procs[p].ep, s.procs[p], seat, m))
    && (forall p, q :: p in s.procs && q in s.procs && p != q ==> Compatible(s.procs[q], s.procs[p], seat, m))
  }

  lemma QuietWake(s: State, seat: Seat, m: string)
    requires Quiet(s)
    ensures WakeInv(s, seat, m)
  {}

  /** Nobody reserves while a poke under the record's lease is within its time. */
  lemma ReservedMeansNoPhase(s: State, q: Pid, p: Pid, seat: Seat, m: string)
    requires Inv(s) && WakeInv(s, seat, m) && Timely(s, seat, m) && m != ""
    requires q in s.procs && s.procs[q].OpHeld? && s.procs[q].seat == seat && s.procs[q].op.Reserve?
    requires Decision(s.procs[q].op, Stored(s.files, seat), s.clock).Write?
    requires p in s.procs && InPhase(s.procs[p], seat, m)
    ensures s.files[seat].lease != PhaseLease(s.procs[p])
  {
    assert Marked(s.files[seat], s.procs[p], seat, m);
    assert Sane(s.procs[p], seat, m) && Sane(s.procs[q], seat, m);
  }

  lemma SaneKept(s: State, a: Action, p: Pid, seat: Seat, m: string)
    requires WakeInv(s, seat, m) && Enabled(s, a) && OneMessage(a, seat, m) && m != "" && Mover(a) == Some(p)
    ensures Sane(At(Next(s, a), p), seat, m)
  {
    assert p in s.procs ==> Sane(s.procs[p], seat, m);
  }

  /** The mover enters the phase only by a reservation's write. */
  lemma EntersPhase(s: State, a: Action, p: Pid, seat: Seat, m: string)
    requires WakeInv(s, seat, m) && Enabled(s, a) && m != "" && Mover(a) == Some(p)
    requires InPhase(At(Next(s, a), p), seat, m)
    ensures (InPhase(At(s, p), seat, m) && PhaseLease(At(s, p)) == PhaseLease(At(Next(s, a), p))
             && PhaseSince(At(s, p)) == PhaseSince(At(Next(s, a), p)))
            || (a.WriteOp? && PendingOn(At(s, p), seat) && At(s, p).op.Reserve?
                && PhaseLease(At(Next(s, a), p)) == At(s, p).ep.lease && PhaseSince(At(Next(s, a), p)) == a.t)
  {
    assert p in s.procs ==> Sane(s.procs[p], seat, m);
  }

  lemma BindStaysMarked(s: State, q: Pid, p: Pid, seat: Seat, m: string)
    requires Inv(s) && Enabled(s, WriteBind(q)) && At(s, q).seat == seat && p in s.procs
    ensures Marked(Next(s, WriteBind(q)).files[seat], s.procs[p], seat, m)
  {
    assert Issued(s.procs[p], s.issued);
  }

  lemma FileStaysMarked(s: State, a: Action, p: Pid, seat: Seat, m: string)
    requires Inv(s) && WakeInv(s, seat, m) && Enabled(s, a) && m != ""
    requires p in s.procs && Mover(a) != Some(p) && seat in Next(s, a).files
    ensures Marked(Next(s, a).files[seat], s.procs[p], seat, m)
  {
    if a.WriteOp? && At(s, a.p).seat == seat {
      WriteStaysMarked(s, a, p, seat, m);
    } else if a.WriteBind? && At(s, a.p).seat == seat {
      BindStaysMarked(s, a.p, p, seat, m);
    } else {
      FileSame(s, a, seat);
      assert Marked(s.files[seat], s.procs[p], seat, m);
    }
  }

  lemma WriteStaysMarked(s: State, a: Action, p: Pid, seat: Seat, m: string)
    requires Inv(s) && WakeInv(s, seat, m) && Enabled(s, a) && a.WriteOp? && PendingOn(At(s, a.p), seat)
    requires p in s.procs && a.p != p
    ensures Marked(Updated(At(s, a.p).op, At(s, a.p).ep, a.t), s.procs[p], seat, m)
  {
    var q := a.p;
    assert Compatible(s.procs[q], s.procs[p], seat, m);
    assert Sane(s.procs[q], seat, m) && Faithful(s.files, s.procs[q]);
  }

  lemma OwnFileMarked(s: State, a: Action, p: Pid, seat: Seat, m: string)
    requires Inv(s) && WakeInv(s, seat, m) && Enabled(s, a) && m != "" && Mover(a) == Some(p)
    requires seat in Next(s, a).files
    ensures Marked(Next(s, a).files[seat], At(Next(s, a), p), seat, m)
  {
    if InPhase(At(Next(s, a), p), seat, m) {
      EntersPhase(s, a, p, seat, m);
      if !a.WriteOp? {
        assert Marked(s.files[seat], s.procs[p], seat, m);
      }
    }
  }

  lemma OwnPendingMarked(s: State, a: Action, p: Pid, seat: Seat, m: string)
    requires Inv(s) && WakeInv(s, seat, m) && Enabled(s, a) && m != "" && Mover(a) == Some(p)
    requires PendingOn(At(Next(s, a), p), seat)
    ensures Marked(At(Next(s, a), p).ep, At(Next(s, a), p), seat, m)
  {
    PendingWasRead(s, a, p);
    assert Marked(s.files[seat], s.procs[p], seat, m);
  }

  /** A pair stays compatible when its poking side moves. */
  lemma PokerMoves(s: State, a: Action, p: Pid, q: Pid, seat: Seat, m: string)
    requires Inv(s) && WakeInv(s, seat, m) && Enabled(s, a) && m != "" && Mover(a) == Some(p)
    requires q in s.procs && q != p
    ensures Compatible(s.procs[q], At(Next(s, a), p), seat, m)
  {
    if InPhase(At(Next(s, a), p), seat, m) {
      EntersPhase(s, a, p, seat, m);
      assert Compatible(s.procs[q], s.procs[p], seat, m);
      assert Compatible(s.procs[p], s.procs[q], seat, m);
    }
  }

  /** Who enters the phase, or reads the record for its own purposes, under the eyes of a poker. */
  lemma OtherEnters(s: State, a: Action, q: Pid, p: Pid, seat: Seat, m: string)
    requires Inv(s) && WakeInv(s, seat, m) && Enabled(s, a) && m != "" && Mover(a) == Some(q)
    requires p in s.procs && q != p && InPhase(s.procs[p], seat, m) && InPhase(At(Next(s, a), q), seat, m)
    ensures PhaseLease(s.procs[p]) != PhaseLease(At(Next(s, a), q))
  {
    EntersPhase(s, a, q, seat, m);
    assert Compatible(s.procs[q], s.procs[p], seat, m);
  }

  lemma OtherReads(s: State, a: Action, q: Pid, p: Pid, seat: Seat, m: string)
    requires Inv(s) && WakeInv(s, seat, m) && Timely(s, seat, m) && Enabled(s, a) && m != "" && Mover(a) == Some(q)
    requires p in s.procs && q != p && InPhase(s.procs[p], seat, m) && PendingOn(At(Next(s, a), q), seat)
    ensures var n := At(Next(s, a), q);
      Marked(n.ep, s.procs[p], seat, m) && (n.op.Reserve? ==> n.ep.lease != PhaseLease(s.procs[p]))
  {
    PendingWasRead(s, a, q);
    assert Marked(s.files[seat], s.procs[p], seat, m);
    if At(Next(s, a), q).op.Reserve? {
      ReservedMeansNoPhase(s, q, p, seat, m);
    }
  }

  /** A pair stays compatible when the other side moves. */
  lemma OtherMoves(s: State, a: Action, q: Pid, p: Pid, seat: Seat, m: string)
    requires Inv(s) && WakeInv(s, seat, m) && Timely(s, seat, m) && Enabled(s, a) && m != "" && Mover(a) == Some(q)
    requires p in s.procs && q != p
    ensures Compatible(At(Next(s, a), q), s.procs[p], seat, m)
  {
    if InPhase(s.procs[p], seat, m) {
      if InPhase(At(Next(s, a), q), seat, m) {
        OtherEnters(s, a, q, p, seat, m);
      }
      if PendingOn(At(Next(s, a), q), seat) {
        OtherReads(s, a, q, p, seat, m);
      }
    }
  }

  lemma CompatibleKept(s: State, a: Action, q: Pid, p: Pid, seat: Seat, m: string)
    requires Inv(s) && WakeInv(s, seat, m) && Timely(s, seat, m) && Enabled(s, a) && m != ""
    requires p in Next(s, a).procs && q in Next(s, a).procs && p != q
    ensures Compatible(Next(s, a).procs[q], Next(s, a).procs[p], seat, m)
  {
    OnlyMoverMoves(s, a);
    if Mover(a) == Some(p) {
      PokerMoves(s, a, p, q, seat, m);
    } else if Mover(a) == Some(q) {
      OtherMoves(s, a, q, p, seat, m);
    } else {
      assert Compatible(s.procs[q], s.procs[p], seat, m);
    }
  }

  lemma OneKept(s: State, a: Action, p: Pid, seat: Seat, m: string)
    requires Inv(s) && WakeInv(s, seat, m) && Enabled(s, a) && OneMessage(a, seat, m) && m != ""
    requires p in Next(s, a).procs
    ensures var pr := Next(s, a).procs[p];
      && Sane(pr, seat, m)
      && (seat in Next(s, a).files ==> Marked(Next(s, a).files[seat], pr, seat, m))
      && (PendingOn(pr, seat) ==> Marked(pr.ep, pr, seat, m))
  {
    OnlyMoverMoves(s, a);
    if Mover(a) == Some(p) {
      SaneKept(s, a, p, seat, m);
      if seat in Next(s, a).files {
        OwnFileMarked(s, a, p, seat, m);
      }
      if PendingOn(At(Next(s, a), p), seat) {
        OwnPendingMarked(s, a, p, seat, m);
      }
    } else {
      assert Sane(s.procs[p], seat, m);
      if seat in Next(s, a).files {
        FileStaysMarked(s, a, p, seat, m);
      }
    }
  }

  lemma ClockRuns(s: State, a: Action)
    requires Enabled(s, a)
    ensures Next(s, a).clock >= s.clock
  {}

  lemma WakeInvKept(s: State, a: Action, seat: Seat, m: string)
    requires Inv(s) && WakeInv(s, seat, m) && Timely(s, seat, m) && Enabled(s, a) && OneMessage(a, seat, m) && m != ""
    ensures WakeInv(Next(s, a), seat, m)
  {
    ClockRuns(s, a);
    var n := Next(s, a);
    forall p | p in n.procs
      ensures Sane(n.procs[p], seat, m)
      ensures seat in n.files ==> Marked(n.files[seat], n.procs[p], seat, m)
      ensures PendingOn(n.procs[p], seat) ==> Marked(n.procs[p].ep, n.procs[p], seat, m)
    {
      OneKept(s, a, p, seat, m);
    }
    forall p, q | p in n.procs && q in n.procs && p != q ensures Compatible(n.procs[q], n.procs[p], seat, m) {
      CompatibleKept(s, a, q, p, seat, m);
    }
  }

  lemma {:induction false} WakeInvRun(s: State, es: seq<Action>, seat: Seat, m: string)
    requires Inv(s) && WakeInv(s, seat, m) && m != "" && ValidRun(s, es) && TimelyRun(s, es, seat, m)
    requires forall a :: a in es ==> OneMessage(a, seat, m)
    ensures Inv(Run(s, es)) && WakeInv(Run(s, es), seat, m)
    decreases |es|
  {
    if es != [] {
      assert es[0] in es;
      WakeInvKept(s, es[0], seat, m);
      InvKept(s, es[0]);
      WakeInvRun(Next(s, es[0]), es[1..], seat, m);
    }
  }

  predicate PokingUnder(pr: Proc, seat: Seat, m: string, lease: Lease) {
    pr.Poking? && pr.seat == seat && pr.mid == m && pr.lease == lease
  }

  /** However many wakers retry the message, crash or find the seat rebound: never two pokes at a time under a lease. */
  lemma SinglePoke(s: State, es: seq<Action>, seat: Seat, m: string, lease: Lease, p: Pid, q: Pid)
    requires Quiet(s) && m != "" && ValidRun(s, es) && TimelyRun(s, es, seat, m)
    requires forall a :: a in es ==> OneMessage(a, seat, m)
    requires p != q
    ensures !(PokingUnder(At(Run(s, es), p), seat, m, lease) && PokingUnder(At(Run(s, es), q), seat, m, lease))
  {
    QuietInv(s);
    QuietWake(s, seat, m);
    WakeInvRun(s, es, seat, m);
    var n := Run(s, es);
    if p in n.procs && q in n.procs {
      assert Compatible(n.procs[q], n.procs[p], seat, m);
    }
  }

  // ---- abandoned reservations ----

  lemma {:induction false} Wait(s: State, n: nat) returns (es: seq<Action>)
    ensures ValidRun(s, es) && Run(s, es) == s.(clock := s.clock + n)
    ensures |es| == n && forall a :: a in es ==> a.Tick?
    decreases n
  {
    if n == 0 {
      es := [];
    } else {
      var rest := Wait(Next(s, Tick), n - 1);
      es := [Tick] + rest;
      assert es[1..] == rest;
    }
  }

  /** A fresh waker of an undelivered message on a seat nobody locks gets to poke exactly when no mark of that message
      is still within its time. */
  lemma WakerGetsThroughIff(s: State, q: Pid, seat: Seat, m: string)
    requires seat in s.files && SeatFree(s, seat) && At(s, q).Idle? && m != ""
    requires s.files[seat].deliveryId != m
    ensures var es := [Observe(q, seat, m), TakeSeat(q), ReadOp(q)];
      var blocked := s.files[seat].inflight.Some? && s.files[seat].inflight.value.id == m
                     && InflightFresh(s.files[seat], s.clock);
      && ValidRun(s, es) && Run(s, es).clock == s.clock
      && (blocked ==> At(Run(s, es), q).Idle?)
      && (!blocked ==> At(Run(s, es), q).OpWrite? && At(Run(s, es), q).op.Reserve?)
  {
    RunSnoc(s, [], Observe(q, seat, m));
    var es := [] + [Observe(q, seat, m)];
    RunSnoc(s, es, TakeSeat(q));
    RunSnoc(s, es + [TakeSeat(q)], ReadOp(q));
    assert es + [TakeSeat(q)] + [ReadOp(q)] == [Observe(q, seat, m), TakeSeat(q), ReadOp(q)];
    assert !Rebound(s.files[seat], s.files[seat].lease, s.files[seat].fence);
  }

  /** A reservation whose waker died stops blocking: one second past its time a new waker gets through. */
  lemma AbandonedReservationExpires(s: State, q: Pid, seat: Seat, m: string) returns (es: seq<Action>)
    requires seat in s.files && SeatFree(s, seat) && At(s, q).Idle? && m != ""
    requires s.files[seat].deliveryId != m && s.files[seat].inflight.Some?
    ensures ValidRun(s, es) && At(Run(s, es), q).OpWrite? && At(Run(s, es), q).op.Reserve?
    ensures var expiry := s.files[seat].inflight.value.since + INFLIGHT_TTL + 1;
      Run(s, es).clock == if s.clock < expiry then expiry else s.clock
  {
    var expiry := s.files[seat].inflight.value.since + INFLIGHT_TTL + 1;
    var n := if s.clock < expiry then expiry - s.clock else 0;
    var es1 := Wait(s, n);
    var s1 := Run(s, es1);
    var es2 := [Observe(q, seat, m), TakeSeat(q), ReadOp(q)];
    WakerGetsThroughIff(s1, q, seat, m);
    RunConcat(s, es1, es2);
    es := es1 + es2;
  }

  // ---- after a recorded delivery ----

  predicate DeliveredOn(r: Record, m: string, lease: Lease) {
    r.lease == lease ==> r.deliveryId == m
  }

  /** Every record of the lease carries the delivery, and nobody pokes or is about to poke under it. */
  ghost predicate Delivered(s: State, seat: Seat, m: string, lease: Lease) {
    && 0 < lease <= s.issued
    && (seat in s.files ==> DeliveredOn(s.files[seat], m, lease))
    && (forall p :: p in s.procs ==> Settled(s.procs[p], seat, m, lease))
  }

  predicate Settled(pr: Proc, seat: Seat, m: string, lease: Lease) {
    && (InPhase(pr, seat, m) ==> PhaseLease(pr) != lease)
    && (PendingOn(pr, seat) ==> DeliveredOn(pr.ep, m, lease))
    && (PendingOn(pr, seat) && pr.op.Reserve? ==> pr.ep.lease != lease)
    && (Operating(pr) && (pr.op.Reserve? || pr.op.Finish?) && pr.seat == seat ==> pr.op.mid == m)
    && (pr.Poking? && pr.seat == seat ==> pr.mid == m)
  }

  /** The write that records a delivery settles the message for the lease it was observed under. */
  lemma CommitSettles(s: State, a: Action, seat: Seat, m: string)
    requires Inv(s) && WakeInv(s, seat, m) && Enabled(s, a) && m != ""
    requires a.WriteOp? && At(s, a.p).seat == seat && At(s, a.p).op.Finish?
    requires RecordsDelivery(m, At(s, a.p).op.outcome)
    ensures Delivered(Next(s, a), seat, m, At(s, a.p).op.lease)
  {
    var p := a.p;
    var lease := At(s, p).op.lease;
    assert Sane(s.procs[p], seat, m) && Faithful(s.files, s.procs[p]) && Issued(s.procs[p], s.issued);
    OnlyMoverMoves(s, a);
    var n := Next(s, a);
    forall q | q in n.procs ensures Settled(n.procs[q], seat, m, lease) {
      if q != p {
        assert Compatible(s.procs[q], s.procs[p], seat, m) && Sane(s.procs[q], seat, m);
      }
    }
  }

  lemma MoverSettled(s: State, a: Action, p: Pid, seat: Seat, m: string, lease: Lease)
    requires Enabled(s, a) && OneMessage(a, seat, m) && m != "" && Mover(a) == Some(p)
    requires Settled(At(s, p), seat, m, lease) && (seat in s.files ==> DeliveredOn(s.files[seat], m, lease))
    ensures Settled(At(Next(s, a), p), seat, m, lease)
  {
    if At(Next(s, a), p).OpWrite? {
      PendingWasRead(s, a, p);
    }
  }

  lemma WriteDelivered(s: State, p: Pid, t: Time, seat: Seat, m: string, lease: Lease)
    requires Delivered(s, seat, m, lease) && Enabled(s, WriteOp(p, t)) && m != "" && At(s, p).seat == seat
    ensures DeliveredOn(Next(s, WriteOp(p, t)).files[seat], m, lease)
  {
    var o := s.procs[p];
    assert Settled(o, seat, m, lease) && DeliveredOn(Updated(o.op, o.ep, t), m, lease);
  }

  lemma FileDelivered(s: State, a: Action, seat: Seat, m: string, lease: Lease)
    requires Inv(s) && Delivered(s, seat, m, lease) && Enabled(s, a) && m != "" && seat in Next(s, a).files
    ensures DeliveredOn(Next(s, a).files[seat], m, lease)
  {
    if a.WriteOp? && At(s, a.p).seat == seat {
      WriteDelivered(s, a.p, a.t, seat, m, lease);
    } else if !(a.WriteBind? && At(s, a.p).seat == seat) {
      FileSame(s, a, seat);
    }
  }

  lemma SettledKept(s: State, a: Action, p: Pid, seat: Seat, m: string, lease: Lease)
    requires Delivered(s, seat, m, lease) && Enabled(s, a) && OneMessage(a, seat, m) && m != ""
    requires p in Next(s, a).procs
    ensures Settled(Next(s, a).procs[p], seat, m, lease)
  {
    OnlyMoverMoves(s, a);
    assert Settled(At(s, p), seat, m, lease);
    if Mover(a) == Some(p) {
      MoverSettled(s, a, p, seat, m, lease);
    }
  }

  lemma DeliveredKept(s: State, a: Action, seat: Seat, m: string, lease: Lease)
    requires Inv(s) && Delivered(s, seat, m, lease) && Enabled(s, a) && OneMessage(a, seat, m) && m != ""
    ensures Delivered(Next(s, a), seat, m, lease)
  {
    IssuedGrows(s, a);
    var n := Next(s, a);
    if seat in n.files {
      FileDelivered(s, a, seat, m, lease);
    }
    forall p | p in n.procs ensures Settled(n.procs[p], seat, m, lease) {
      SettledKept(s, a, p, seat, m, lease);
    }
  }

  lemma {:induction false} DeliveredRun(s: State, es: seq<Action>, seat: Seat, m: string, lease: Lease)
    requires Inv(s) && Delivered(s, seat, m, lease) && m != "" && ValidRun(s, es)
    requires forall a :: a in es ==> OneMessage(a, seat, m)
    ensures Delivered(Run(s, es), seat, m, lease)
    decreases |es|
  {
    if es != [] {
      assert es[0] in es;
      DeliveredKept(s, es[0], seat, m, lease);
      InvKept(s, es[0]);
      DeliveredRun(Next(s, es[0]), es[1..], seat, m, lease);
    }
  }

  /** Once a commit has recorded the delivery, nobody pokes for the message under that lease again; the clock does not
      matter any more. */
  lemma NoPokeAfterDelivery(s: State, before: seq<Action>, commit: Action, after: seq<Action>, seat: Seat, m: string,
                            p: Pid)
    requires Quiet(s) && m != "" && ValidRun(s, before) && TimelyRun(s, before, seat, m)
    requires forall a :: a in before || a in after ==> OneMessage(a, seat, m)
    requires var c := Run(s, before);
      && Enabled(c, commit) && commit.WriteOp? && At(c, commit.p).seat == seat && At(c, commit.p).op.Finish?
      && RecordsDelivery(m, At(c, commit.p).op.outcome)
      && ValidRun(Next(c, commit), after)
    ensures var c := Run(s, before);
      !PokingUnder(At(Run(Next(c, commit), after), p), seat, m, At(c, commit.p).op.lease)
  {
    QuietInv(s);
    QuietWake(s, seat, m);
    WakeInvRun(s, before, seat, m);
    var c := Run(s, before);
    var lease := At(c, commit.p).op.lease;
    CommitSettles(c, commit, seat, m);
    InvKept(c, commit);
    DeliveredRun(Next(c, commit), after, seat, m, lease);
    var n := Run(Next(c, commit), after);
    if p in n.procs {
      assert Settled(n.procs[p], seat, m, lease);
    }
  }
}
