/** Seats, binders, keep-alives and wakers of one board as a step machine: every lock acquisition, every file read and
    every file write or unlink is a step of its own, and any number of processes interleave. Locks are held by
    program position, so a crash releases them. */
module EndpointProtocol {
  import opened Wrappers
  import opened Endpoint

  type Pid = nat

  datatype Proc =
    | Idle
    // binding: fingerprint lock, seat lock, listing, one look per listed seat, own record, write
    | BindWant(seat: Seat, who: Session, presented: Lease)
    | BindFp(seat: Seat, who: Session, presented: Lease)
    | BindHeld(seat: Seat, who: Session, presented: Lease)
    | BindScan(seat: Seat, who: Session, presented: Lease, todo: set<Seat>)
    | BindWrite(seat: Seat, who: Session, existing: Option<Record>, presented: Lease, live: bool)
    // an operation: seat lock, read, write or unlink
    | OpWant(seat: Seat, op: Op)
    | OpHeld(seat: Seat, op: Op)
    | OpWrite(seat: Seat, op: Op, ep: Record, readAt: Time)
    | OpUnlink(seat: Seat, op: Op, ep: Record)
    // between reservation and commit no lock is held
    | Poking(seat: Seat, mid: string, lease: Lease, fence: nat, since: Time)

  datatype State = State(files: map<Seat, Record>, procs: map<Pid, Proc>, issued: Lease, clock: Time)

  datatype Action =
    | Tick
    | Crash(p: Pid)
    | UnlockedRemove(seat: Seat)
    | StartBind(p: Pid, seat: Seat, who: Session, presented: Lease)
    | TakeFp(p: Pid)
    | TakeSeatToBind(p: Pid)
    | List(p: Pid)
    | Look(p: Pid, other: Seat)
    | Decide(p: Pid, live: bool)
    | WriteBind(p: Pid)
    | StartHeartbeat(p: Pid, seat: Seat, presented: Lease, thread: string, sessionId: string, pidDead: bool)
    | Observe(p: Pid, seat: Seat, mid: string)
    | ObserveStale(p: Pid, seat: Seat)
    | TakeSeat(p: Pid)
    | ReadOp(p: Pid)
    | WriteOp(p: Pid, t: Time)
    | Unlink(p: Pid)
    | EndPoke(p: Pid, outcome: string)

  // ---- locks ----

  function At(s: State, p: Pid): Proc {
    if p in s.procs then s.procs[p] else Idle
  }

  function SeatLock(pr: Proc): Option<Seat> {
    if pr.BindHeld? || pr.BindScan? || pr.BindWrite? || pr.OpHeld? || pr.OpWrite? || pr.OpUnlink?
    then Some(pr.seat) else None
  }

  function FpLock(pr: Proc): Option<Key> {
    if pr.BindFp? || pr.BindHeld? || pr.BindScan? || pr.BindWrite? then SessionKey(pr.who) else None
  }

  ghost predicate SeatFree(s: State, seat: Seat) {
    forall p :: p in s.procs ==> SeatLock(s.procs[p]) != Some(seat)
  }

  ghost predicate FpFree(s: State, key: Option<Key>) {
    key.Some? ==> forall p :: p in s.procs ==> FpLock(s.procs[p]) != key
  }

  /** Where an operation goes on after its write. */
  function AfterWrite(seat: Seat, op: Op, ep: Record, t: Time): Proc {
    match op
    case Reserve(mid, _, _) => Poking(seat, mid, ep.lease, ep.fence, t)
    case _ => if Dropping(op) then OpUnlink(seat, op, ep) else Idle
  }

  // ---- steps ----

  ghost predicate Enabled(s: State, a: Action) {
    match a
    case Tick => true
    case Crash(p) => true
    case UnlockedRemove(seat) => true
    case StartBind(p, seat, who, presented) => At(s, p).Idle?
    case TakeFp(p) => At(s, p).BindWant? && FpFree(s, SessionKey(At(s, p).who))
    case TakeSeatToBind(p) => At(s, p).BindFp? && SeatFree(s, At(s, p).seat)
    case List(p) => At(s, p).BindHeld?
    case Look(p, other) => At(s, p).BindScan? && other in At(s, p).todo
    case Decide(p, live) => At(s, p).BindScan? && (At(s, p).todo == {} || SessionKey(At(s, p).who).None?)
    case WriteBind(p) => At(s, p).BindWrite?
    case StartHeartbeat(p, seat, presented, thread, sessionId, pidDead) => At(s, p).Idle?
    case Observe(p, seat, mid) => At(s, p).Idle? && seat in s.files
    case ObserveStale(p, seat) => At(s, p).Idle? && seat in s.files
    case TakeSeat(p) => At(s, p).OpWant? && SeatFree(s, At(s, p).seat)
    case ReadOp(p) => At(s, p).OpHeld?
    case WriteOp(p, t) => At(s, p).OpWrite? && At(s, p).readAt <= t <= s.clock
    case Unlink(p) => At(s, p).OpUnlink?
    case EndPoke(p, outcome) => At(s, p).Poking?
  }

  function Go(s: State, p: Pid, pr: Proc): State {
    s.(procs := s.procs[p := pr])
  }

  function Put(s: State, seat: Seat, r: Record): State {
    s.(files := s.files[seat := r])
  }

  function Drop(s: State, seat: Seat): State {
    s.(files := s.files - {seat})
  }

  ghost function Next(s: State, a: Action): State
    requires Enabled(s, a)
  {
    match a
    case Tick => s.(clock := s.clock + 1)
    case Crash(p) => Go(s, p, Idle)
    case UnlockedRemove(seat) => Drop(s, seat)
    case StartBind(p, seat, who, presented) => Go(s, p, BindWant(seat, who, presented))
    case TakeFp(p) => Go(s, p, BindFp(At(s, p).seat, At(s, p).who, At(s, p).presented))
    case TakeSeatToBind(p) => Go(s, p, BindHeld(At(s, p).seat, At(s, p).who, At(s, p).presented))
    case List(p) =>
      Go(s, p, BindScan(At(s, p).seat, At(s, p).who, At(s, p).presented, s.files.Keys - {At(s, p).seat}))
    case Look(p, other) =>
      if SessionKey(At(s, p).who).Some? && KeyOn(s.files, other) == SessionKey(At(s, p).who) then Go(s, p, Idle)
      else Go(s, p, At(s, p).(todo := At(s, p).todo - {other}))
    case Decide(p, live) =>
      var b := At(s, p);
      if MayBind(Stored(s.files, b.seat), live, b.who, b.presented)
      then Go(s, p, BindWrite(b.seat, b.who, Stored(s.files, b.seat), b.presented, live))
      else Go(s, p, Idle)
    case WriteBind(p) =>
      var b := At(s, p);
      Go(Put(s, b.seat, Bound(b.existing, b.who, s.issued + 1, s.clock)), p, Idle).(issued := s.issued + 1)
    case StartHeartbeat(p, seat, presented, thread, sessionId, pidDead) =>
      Go(s, p, OpWant(seat, Heartbeat(presented, thread, sessionId, pidDead)))
    case Observe(p, seat, mid) => Go(s, p, OpWant(seat, Reserve(mid, s.files[seat].lease, s.files[seat].fence)))
    case ObserveStale(p, seat) => Go(s, p, OpWant(seat, Remove(s.files[seat].lease, s.files[seat].fence)))
    case TakeSeat(p) => Go(s, p, OpHeld(At(s, p).seat, At(s, p).op))
    case ReadOp(p) =>
      var o := At(s, p);
      var ep := Stored(s.files, o.seat);
      (match Decision(o.op, ep, s.clock)
       case Refuse => Go(s, p, Idle)
       case Write => Go(s, p, OpWrite(o.seat, o.op, ep.value, s.clock))
       case Poke => Go(s, p, Poking(o.seat, "", ep.value.lease, ep.value.fence, s.clock))
       case Delete => Go(s, p, OpUnlink(o.seat, o.op, ep.value)))
    case WriteOp(p, t) =>
      var o := At(s, p);
      Go(Put(s, o.seat, Updated(o.op, o.ep, t)), p, AfterWrite(o.seat, o.op, o.ep, t))
    case Unlink(p) => Go(Drop(s, At(s, p).seat), p, Idle)
    case EndPoke(p, outcome) =>
      var k := At(s, p);
      Go(s, p, OpWant(k.seat, Finish(k.mid, k.lease, k.fence, outcome, k.since)))
  }

  ghost predicate ValidRun(s: State, es: seq<Action>)
    decreases |es|
  {
    es == [] || (Enabled(s, es[0]) && ValidRun(Next(s, es[0]), es[1..]))
  }

  ghost function Run(s: State, es: seq<Action>): State
    requires ValidRun(s, es)
    decreases |es|
  {
    if es == [] then s else Run(Next(s, es[0]), es[1..])
  }

  lemma {:induction false} RunConcat(s: State, es: seq<Action>, fs: seq<Action>)
    requires ValidRun(s, es) && ValidRun(Run(s, es), fs)
    ensures ValidRun(s, es + fs) && Run(s, es + fs) == Run(Run(s, es), fs)
    decreases |es|
  {
    if es == [] {
      assert es + fs == fs;
    } else {
      RunConcat(Next(s, es[0]), es[1..], fs);
      assert (es + fs)[1..] == es[1..] + fs;
    }
  }

  lemma RunSnoc(s: State, es: seq<Action>, a: Action)
    requires ValidRun(s, es) && Enabled(Run(s, es), a)
    ensures ValidRun(s, es + [a]) && Run(s, es + [a]) == Next(Run(s, es), a)
  {
    var n := Run(s, es);
    assert [a][1..] == [] && ValidRun(Next(n, a), []);
    assert ValidRun(n, [a]) && Run(n, [a]) == Next(n, a);
    RunConcat(s, es, [a]);
  }

  /** A board nobody is working on; every stored lease has been issued. */
  ghost predicate Quiet(s: State) {
    && s.procs == map[]
    && s.clock > 0
    && forall seat :: seat in s.files ==> 0 < s.files[seat].lease <= s.issued
  }

  // ---- mutual exclusion ----

  ghost predicate SeatsExclusive(procs: map<Pid, Proc>) {
    forall p, q :: p in procs && q in procs && p != q && SeatLock(procs[p]).Some?
      ==> SeatLock(procs[p]) != SeatLock(procs[q])
  }

  ghost predicate FpsExclusive(procs: map<Pid, Proc>) {
    forall p, q :: p in procs && q in procs && p != q && FpLock(procs[p]).Some?
      ==> FpLock(procs[p]) != FpLock(procs[q])
  }

  /** Every lock has at most one holder. */
  ghost predicate Exclusive(s: State) {
    SeatsExclusive(s.procs) && FpsExclusive(s.procs)
  }

  /** Who is moving, if anyone. */
  function Mover(a: Action): Option<Pid> {
    match a
    case Tick => None
    case UnlockedRemove(_) => None
    case _ => Some(a.p)
  }

  /** A step changes the program position of its mover alone. */
  lemma OnlyMoverMoves(s: State, a: Action)
    requires Enabled(s, a)
    ensures Mover(a).None? ==> Next(s, a).procs == s.procs
    ensures Mover(a).Some? ==> Next(s, a).procs == s.procs[Mover(a).value := At(Next(s, a), Mover(a).value)]
  {}

  /** A process is about to write only what it has just read under the lock. */
  lemma PendingWasRead(s: State, a: Action, p: Pid)
    requires Enabled(s, a) && Mover(a) == Some(p) && At(Next(s, a), p).OpWrite?
    ensures var n := At(Next(s, a), p);
      && a.ReadOp? && At(s, p).OpHeld? && n.seat == At(s, p).seat && n.op == At(s, p).op
      && Stored(s.files, n.seat) == Some(n.ep) && n.readAt == s.clock && Decision(n.op, Some(n.ep), s.clock).Write?
  {}

  /** Only a write to the seat, or its removal, changes the seat's file. */
  lemma FileSame(s: State, a: Action, seat: Seat)
    requires Enabled(s, a) && seat in Next(s, a).files
    requires !((a.WriteOp? || a.WriteBind?) && At(s, a.p).seat == seat)
    ensures Stored(Next(s, a).files, seat) == Stored(s.files, seat)
  {}

  /** A lock is held after the step only by its earlier holder, or by a mover who found it free. */
  lemma LockWasFree(s: State, a: Action, p: Pid)
    requires Enabled(s, a) && Mover(a) == Some(p)
    ensures var l := SeatLock(At(Next(s, a), p)); l.None? || l == SeatLock(At(s, p)) || SeatFree(s, l.value)
    ensures var l := FpLock(At(Next(s, a), p)); l.None? || l == FpLock(At(s, p)) || FpFree(s, l)
  {}

  lemma SeatsStayExclusive(s: State, p: Pid, pr: Proc)
    requires SeatsExclusive(s.procs)
    requires SeatLock(pr).None? || SeatLock(pr) == SeatLock(At(s, p)) || SeatFree(s, SeatLock(pr).value)
    ensures SeatsExclusive(s.procs[p := pr])
  {}

  lemma FpsStayExclusive(s: State, p: Pid, pr: Proc)
    requires FpsExclusive(s.procs)
    requires FpLock(pr).None? || FpLock(pr) == FpLock(At(s, p)) || FpFree(s, FpLock(pr))
    ensures FpsExclusive(s.procs[p := pr])
  {}

  lemma ExclusiveKept(s: State, a: Action)
    requires Exclusive(s) && Enabled(s, a)
    ensures Exclusive(Next(s, a))
  {
    OnlyMoverMoves(s, a);
    if Mover(a).Some? {
      var p := Mover(a).value;
      LockWasFree(s, a, p);
      SeatsStayExclusive(s, p, At(Next(s, a), p));
      FpsStayExclusive(s, p, At(Next(s, a), p));
    }
  }
}
