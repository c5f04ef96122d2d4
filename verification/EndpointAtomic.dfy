/** Interleaved operations are calls of the store, one after the other: whatever the processes do between each other's
    steps, the files are what the store makes of one sequence of calls, each taking effect at one step. */
module EndpointAtomic {
  import opened Wrappers
  import opened Endpoint
  import opened EndpointProtocol
  import opened EndpointLeases
  import opened EndpointUniqueness

  function Now(s: State): Contents {
    Contents(s.files, s.issued)
  }

  /** The call that takes effect with the step, if any: an operation's at its write or its unlink, a bind's at its
      write. */
  function CallOf(s: State, a: Action): Option<Call>
    requires a.WriteOp? ==> At(s, a.p).OpWrite?
    requires a.Unlink? ==> At(s, a.p).OpUnlink?
    requires a.WriteBind? ==> At(s, a.p).BindWrite?
  {
    match a
    case WriteOp(p, t) =>
      var o := At(s, p);
      Some(if Dropping(o.op) then Note(o.seat, o.op.mid, o.op.lease, o.op.fence, o.op.outcome, t)
           else Operate(o.seat, o.op, o.readAt, t))
    case Unlink(p) => Some(Operate(At(s, p).seat, At(s, p).op, s.clock, s.clock))
    case WriteBind(p) =>
      var b := At(s, p);
      Some(Commit(b.seat, b.who, b.presented, b.live, s.clock))
    case UnlockedRemove(seat) => Some(Discard(seat))
    case _ => None
  }

  ghost function Calls(s: State, es: seq<Action>): seq<Call>
    requires ValidRun(s, es)
    decreases |es|
  {
    if es == [] then []
    else (match CallOf(s, es[0]) case None => [] case Some(c) => [c]) + Calls(Next(s, es[0]), es[1..])
  }

  // ---- between its read and its write a process is told the truth ----

  /** A record has been read and is about to be replaced; a first bind replaces none. */
  predicate Replacing(pr: Proc) {
    pr.OpWrite? || (pr.BindWrite? && pr.existing.Some?)
  }

  ghost predicate Caught(s: State, seat: Seat) {
    exists p :: p in s.procs && Replacing(s.procs[p]) && s.procs[p].seat == seat
  }

  /** No unlocked removal catches anybody. */
  ghost predicate Gentle(s: State, a: Action) {
    a.UnlockedRemove? ==> !Caught(s, a.seat)
  }

  ghost predicate GentleRun(s: State, es: seq<Action>)
    decreases |es|
  {
    es == [] || (Enabled(s, es[0]) && Gentle(s, es[0]) && GentleRun(Next(s, es[0]), es[1..]))
  }

  /** The record read allowed what the process is about to do. */
  predicate Decided(pr: Proc) {
    match pr
    case BindWrite(_, who, existing, presented, live) => MayBind(existing, live, who, presented)
    case OpWrite(_, op, ep, readAt) => Decision(op, Some(ep), readAt).Write?
    case OpUnlink(_, op, ep) =>
      if op.Remove? then MayRemove(ep, op.lease, op.fence) else Dropping(op) && !Rebound(ep, op.lease, op.fence)
    case _ => true
  }

  /** That record is the one on file. */
  predicate Settled(files: map<Seat, Record>, pr: Proc) {
    match pr
    case BindWrite(seat, _, existing, _, _) => existing == Stored(files, seat)
    case OpWrite(seat, _, ep, _) => Stored(files, seat) == Some(ep)
    case _ => true
  }

  ghost predicate AllDecided(s: State) {
    forall p :: p in s.procs ==> Decided(s.procs[p])
  }

  ghost predicate AtomicInv(s: State) {
    && Inv(s) && UniqueInv(s) && AllDecided(s)
    && forall p :: p in s.procs ==> Settled(s.files, s.procs[p])
  }

  lemma DecidedKept(s: State, a: Action)
    requires AllDecided(s) && Enabled(s, a)
    ensures AllDecided(Next(s, a))
  {
    OnlyMoverMoves(s, a);
    var n := Next(s, a);
    forall p | p in n.procs ensures Decided(n.procs[p]) {
      assert p in s.procs ==> Decided(s.procs[p]);
    }
  }

  lemma {:induction false} DecidedRun(s: State, es: seq<Action>)
    requires AllDecided(s) && ValidRun(s, es)
    ensures AllDecided(Run(s, es))
    decreases |es|
  {
    if es != [] {
      DecidedKept(s, es[0]);
      DecidedRun(Next(s, es[0]), es[1..]);
    }
  }

  lemma MoverSettled(s: State, a: Action, p: Pid)
    requires Enabled(s, a) && Mover(a) == Some(p)
    ensures Settled(Next(s, a).files, At(Next(s, a), p))
  {}

  lemma BystanderSettled(s: State, a: Action, q: Pid)
    requires AtomicInv(s) && Enabled(s, a) && Gentle(s, a) && q in s.procs && Mover(a) != Some(q)
    ensures Settled(Next(s, a).files, s.procs[q])
  {
    var pr := s.procs[q];
    assert Settled(s.files, pr);
    if (pr.OpWrite? || pr.BindWrite?) && !(a.UnlockedRemove? && a.seat == pr.seat) {
      LockedFileChange(s, a, q);
    }
  }

  /** Nobody else changes the file of a seat whose lock is held, but for a removal without the lock. */
  lemma LockedFileChange(s: State, a: Action, q: Pid)
    requires Exclusive(s) && Enabled(s, a) && q in s.procs && Mover(a) != Some(q) && SeatLock(s.procs[q]).Some?
    requires !(a.UnlockedRemove? && a.seat == s.procs[q].seat)
    ensures Stored(Next(s, a).files, s.procs[q].seat) == Stored(s.files, s.procs[q].seat)
  {
    if a.WriteOp? || a.Unlink? || a.WriteBind? {
      assert SeatLock(s.procs[a.p]) == Some(s.procs[a.p].seat);
    }
  }

  lemma GentleIsGuarded(s: State, a: Action)
    requires Enabled(s, a) && Gentle(s, a)
    ensures Guarded(s, a)
  {}

  lemma AtomicInvKept(s: State, a: Action)
    requires AtomicInv(s) && Enabled(s, a) && Gentle(s, a)
    ensures AtomicInv(Next(s, a))
  {
    InvKept(s, a);
    GentleIsGuarded(s, a);
    UniqueInvKept(s, a);
    DecidedKept(s, a);
    OnlyMoverMoves(s, a);
    var n := Next(s, a);
    forall p | p in n.procs ensures Settled(n.files, n.procs[p]) {
      if Mover(a) == Some(p) {
        MoverSettled(s, a, p);
      } else {
        BystanderSettled(s, a, p);
      }
    }
  }

  // ---- which steps act as calls ----

  /** What a write was decided on is still so: the record to be replaced is there, and no other seat has got the
      session meanwhile. */
  ghost predicate StillSo(s: State, a: Action) {
    match a
    case WriteOp(p, _) => At(s, p).OpWrite? ==> At(s, p).seat in s.files
    case WriteBind(p) =>
      var b := At(s, p);
      b.BindWrite? ==> (b.existing.Some? ==> b.seat in s.files) && !TakenElsewhere(s.files, b.seat, b.who)
    case _ => true
  }

  /** The step does to the files what its call does. */
  ghost predicate ActsAsCall(s: State, a: Action)
    requires Enabled(s, a)
  {
    Now(Next(s, a)) == match CallOf(s, a) case None => Now(s) case Some(c) => Called(Now(s), c)
  }

  lemma WriteIsCallIff(s: State, p: Pid, t: Time)
    requires Inv(s) && AllDecided(s) && Enabled(s, WriteOp(p, t))
    ensures ActsAsCall(s, WriteOp(p, t)) <==> At(s, p).seat in s.files
  {
    var o := s.procs[p];
    assert Faithful(s.files, o) && Decided(o);
    assert o.seat in Next(s, WriteOp(p, t)).files;
  }

  lemma BindIsCallIff(s: State, p: Pid)
    requires Inv(s) && AllDecided(s) && Enabled(s, WriteBind(p))
    ensures ActsAsCall(s, WriteBind(p)) <==>
            (At(s, p).existing.Some? ==> At(s, p).seat in s.files)
            && !TakenElsewhere(s.files, At(s, p).seat, At(s, p).who)
  {
    var b := s.procs[p];
    assert Faithful(s.files, b) && Decided(b) && Issued(b, s.issued);
    var n := Next(s, WriteBind(p));
    assert n.issued == s.issued + 1 && n.files[b.seat] == Bound(b.existing, b.who, s.issued + 1, s.clock);
  }

  lemma UnlinkActsAsCall(s: State, p: Pid)
    requires Inv(s) && AllDecided(s) && Enabled(s, Unlink(p))
    ensures ActsAsCall(s, Unlink(p))
  {
    var o := s.procs[p];
    assert Decided(o) && Faithful(s.files, o);
    assert o.seat !in s.files ==> s.files - {o.seat} == s.files;
  }

  lemma ActsAsCallIff(s: State, a: Action)
    requires Inv(s) && AllDecided(s) && Enabled(s, a)
    ensures ActsAsCall(s, a) <==> StillSo(s, a)
  {
    match a
    case WriteOp(p, t) => WriteIsCallIff(s, p, t);
    case WriteBind(p) => BindIsCallIff(s, p);
    case Unlink(p) => UnlinkActsAsCall(s, p);
    case _ =>
  }

  lemma StepIsCall(s: State, a: Action)
    requires AtomicInv(s) && Enabled(s, a)
    ensures ActsAsCall(s, a)
  {
    ActsAsCallIff(s, a);
    if a.WriteOp? || a.WriteBind? {
      assert Settled(s.files, s.procs[a.p]) && Scanned(s.files, s.procs[a.p]);
    }
  }

  lemma {:induction false} AtomicRun(s: State, es: seq<Action>)
    requires AtomicInv(s) && GentleRun(s, es)
    ensures ValidRun(s, es) && Now(Run(s, es)) == CallAll(Now(s), Calls(s, es))
    decreases |es|
  {
    if es != [] {
      StepIsCall(s, es[0]);
      AtomicInvKept(s, es[0]);
      AtomicRun(Next(s, es[0]), es[1..]);
      var rest := Calls(Next(s, es[0]), es[1..]);
      match CallOf(s, es[0])
      case None => assert [] + rest == rest;
      case Some(c) => assert ([c] + rest)[1..] == rest;
    }
  }

  /** However binds, keep-alives, wakes, removals and crashes interleave, the files are what the store's methods, called
      one after the other at the steps where they take effect, make of the files at the start. */
  lemma RunIsSequential(s: State, es: seq<Action>)
    requires Quiet(s) && Unique(s.files) && GentleRun(s, es)
    ensures ValidRun(s, es) && Now(Run(s, es)) == CallAll(Now(s), Calls(s, es))
  {
    QuietInv(s);
    QuietUnique(s);
    AtomicRun(s, es);
  }

  /** Over every run, whatever was removed without a lock: a step acts as its call on the files of that moment exactly
      when what its write was decided on is still so. */
  lemma StepIsCallIff(start: State, es: seq<Action>, a: Action)
    requires Quiet(start) && ValidRun(start, es) && Enabled(Run(start, es), a)
    ensures ActsAsCall(Run(start, es), a) <==> StillSo(Run(start, es), a)
  {
    QuietInv(start);
    InvRun(start, es);
    DecidedRun(start, es);
    ActsAsCallIff(Run(start, es), a);
  }

  // ---- the guard on removals is exact ----

  /** Whatever happens next, as long as removals keep to the guard, every step acts as its call. */
  ghost predicate StaysSequential(s: State) {
    forall es, a :: ValidRun(s, es) && GentleRun(s, es) && Enabled(Run(s, es), a) ==> ActsAsCall(Run(s, es), a)
  }

  lemma {:induction false} AtomicInvRun(s: State, es: seq<Action>)
    requires AtomicInv(s) && GentleRun(s, es)
    ensures ValidRun(s, es) && AtomicInv(Run(s, es))
    decreases |es|
  {
    if es != [] {
      AtomicInvKept(s, es[0]);
      AtomicInvRun(Next(s, es[0]), es[1..]);
    }
  }

  lemma AtomicStays(s: State)
    requires AtomicInv(s)
    ensures StaysSequential(s)
  {
    forall es, a | ValidRun(s, es) && GentleRun(s, es) && Enabled(Run(s, es), a) ensures ActsAsCall(Run(s, es), a) {
      AtomicInvRun(s, es);
      StepIsCall(Run(s, es), a);
    }
  }

  lemma CaughtWrite(s: State, p: Pid) returns (a: Action)
    requires AtomicInv(s) && p in s.procs && Replacing(s.procs[p])
    ensures var n := Next(s, UnlockedRemove(s.procs[p].seat)); Enabled(n, a) && !ActsAsCall(n, a)
  {
    var n := Next(s, UnlockedRemove(s.procs[p].seat));
    a := if s.procs[p].OpWrite? then WriteOp(p, s.procs[p].readAt) else WriteBind(p);
    InvKept(s, UnlockedRemove(s.procs[p].seat));
    DecidedKept(s, UnlockedRemove(s.procs[p].seat));
    ActsAsCallIff(n, a);
  }

  /** In every state such a run can reach, a removal without the lock leaves everything a sequence of calls for good
      exactly when it takes no record from under a process about to replace it. */
  lemma RemovalSequentialIff(start: State, es: seq<Action>, seat: Seat)
    requires Quiet(start) && Unique(start.files) && ValidRun(start, es) && GentleRun(start, es)
    ensures StaysSequential(Next(Run(start, es), UnlockedRemove(seat))) <==> !Caught(Run(start, es), seat)
  {
    QuietInv(start);
    QuietUnique(start);
    AtomicInvRun(start, es);
    var s := Run(start, es);
    var n := Next(s, UnlockedRemove(seat));
    if p :| p in s.procs && Replacing(s.procs[p]) && s.procs[p].seat == seat {
      var a := CaughtWrite(s, p);
      assert ValidRun(n, []) && GentleRun(n, []) && Run(n, []) == n;
    } else {
      AtomicInvKept(s, UnlockedRemove(seat));
      AtomicStays(n);
    }
  }

  // ---- every call can be carried out ----

  lemma OperationWrites(s: State, p: Pid) returns (es: seq<Action>)
    requires At(s, p).OpWrite? && At(s, p).readAt == s.clock
    ensures ValidRun(s, es)
    ensures var o := At(s, p); var n := Run(s, es);
      && n.issued == s.issued && (At(n, p).Idle? || At(n, p).Poking?)
      && n.files == if Dropping(o.op) then s.files - {o.seat} else s.files[o.seat := Updated(o.op, o.ep, s.clock)]
  {
    var o := At(s, p);
    RunSnoc(s, [], WriteOp(p, s.clock));
    es := [] + [WriteOp(p, s.clock)];
    if Dropping(o.op) {
      RunSnoc(s, es, Unlink(p));
      es := es + [Unlink(p)];
      assert Run(s, es).files == s.files - {o.seat};
    }
  }

  /** An operation whose seat lock is free can run to its end, and does what its call does. */
  lemma OperationRuns(s: State, p: Pid) returns (es: seq<Action>)
    requires At(s, p).OpWant? && SeatFree(s, At(s, p).seat)
    ensures var o := At(s, p);
      && ValidRun(s, es) && Now(Run(s, es)) == Called(Now(s), Operate(o.seat, o.op, s.clock, s.clock))
      && (At(Run(s, es), p).Idle? || At(Run(s, es), p).Poking?)
  {
    var o := At(s, p);
    RunSnoc(s, [], TakeSeat(p));
    es := [] + [TakeSeat(p)];
    RunSnoc(s, es, ReadOp(p));
    es := es + [ReadOp(p)];
    match Decision(o.op, Stored(s.files, o.seat), s.clock)
    case Write =>
      var rest := OperationWrites(Run(s, es), p);
      RunConcat(s, es, rest);
      es := es + rest;
    case Delete =>
      RunSnoc(s, es, Unlink(p));
      es := es + [Unlink(p)];
    case _ =>
  }

  lemma {:induction false} LooksThrough(s: State, p: Pid) returns (es: seq<Action>)
    requires At(s, p).BindScan? && SessionKey(At(s, p).who).Some?
    requires forall o :: o in At(s, p).todo ==> KeyOn(s.files, o) != SessionKey(At(s, p).who)
    ensures ValidRun(s, es) && Run(s, es) == Go(s, p, At(s, p).(todo := {}))
    decreases At(s, p).todo
  {
    var b := At(s, p);
    if b.todo == {} {
      es := [];
      assert s.procs[p := b] == s.procs;
    } else {
      var o :| o in b.todo;
      var n := Next(s, Look(p, o));
      var rest := LooksThrough(n, p);
      es := [Look(p, o)] + rest;
      assert es[1..] == rest;
      assert Go(n, p, b.(todo := {})) == Go(s, p, b.(todo := {}));
    }
  }

  lemma BindListed(s: State, p: Pid) returns (es: seq<Action>)
    requires At(s, p).BindWant? && SeatFree(s, At(s, p).seat) && FpFree(s, SessionKey(At(s, p).who))
    ensures var b := At(s, p);
      ValidRun(s, es) && Run(s, es) == Go(s, p, BindScan(b.seat, b.who, b.presented, s.files.Keys - {b.seat}))
  {
    RunSnoc(s, [], TakeFp(p));
    es := [] + [TakeFp(p)];
    RunSnoc(s, es, TakeSeatToBind(p));
    es := es + [TakeSeatToBind(p)];
    RunSnoc(s, es, List(p));
    es := es + [List(p)];
  }

  lemma BindDecides(s: State, p: Pid, live: bool) returns (es: seq<Action>)
    requires Enabled(s, Decide(p, live)) && !TakenElsewhere(s.files, At(s, p).seat, At(s, p).who)
    ensures var b := At(s, p);
      && ValidRun(s, es) && At(Run(s, es), p).Idle?
      && Now(Run(s, es)) == Called(Now(s), Commit(b.seat, b.who, b.presented, live, s.clock))
  {
    RunSnoc(s, [], Decide(p, live));
    es := [] + [Decide(p, live)];
    if At(Run(s, es), p).BindWrite? {
      RunSnoc(s, es, WriteBind(p));
      es := es + [WriteBind(p)];
    }
  }

  /** A bind whose locks are free can run to its end, whether the record of its seat is seen live or not, and does what
      its call does. */
  lemma BindRuns(s: State, p: Pid, live: bool) returns (es: seq<Action>)
    requires At(s, p).BindWant? && SeatFree(s, At(s, p).seat) && FpFree(s, SessionKey(At(s, p).who))
    ensures var b := At(s, p);
      && ValidRun(s, es) && At(Run(s, es), p).Idle?
      && Now(Run(s, es)) == Called(Now(s), Commit(b.seat, b.who, b.presented, live, s.clock))
  {
    var b := At(s, p);
    es := BindListed(s, p);
    var n := Run(s, es);
    if TakenElsewhere(s.files, b.seat, b.who) {
      var o :| o in s.files && o != b.seat && SessionKey(b.who).Some?
               && SessionKey(s.files[o].who) == SessionKey(b.who);
      RunSnoc(s, es, Look(p, o));
      es := es + [Look(p, o)];
    } else {
      if SessionKey(b.who).Some? {
        var looks := LooksThrough(n, p);
        RunConcat(s, es, looks);
        es := es + looks;
      }
      var rest := BindDecides(Run(s, es), p, live);
      RunConcat(s, es, rest);
      es := es + rest;
    }
  }
}
