/** No provider session is ever stored under two seats, as long as nobody removes a seat's file without the lock
    between the read and the write of an operation on it; and one such removal is enough to lose the property. */
module EndpointUniqueness {
  import opened Wrappers
  import opened Endpoint
  import opened EndpointProtocol
  import opened EndpointLeases

  ghost predicate Unique(files: map<Seat, Record>) {
    forall o, t :: o in files && t in files && o != t && SessionKey(files[o].who).Some?
      ==> SessionKey(files[o].who) != SessionKey(files[t].who)
  }

  /** Some process has read the seat's record, which carries a session, and is about to write it back. */
  ghost predicate PendingTouch(s: State, seat: Seat) {
    exists p :: p in s.procs && s.procs[p].OpWrite? && s.procs[p].seat == seat
                && SessionKey(s.procs[p].ep.who).Some?
  }

  ghost predicate Guarded(s: State, a: Action) {
    a.UnlockedRemove? ==> !PendingTouch(s, a.seat)
  }

  ghost predicate GuardedRun(s: State, es: seq<Action>)
    decreases |es|
  {
    es == [] || (Enabled(s, es[0]) && Guarded(s, es[0]) && GuardedRun(Next(s, es[0]), es[1..]))
  }

  lemma {:induction false} GuardedIsValid(s: State, es: seq<Action>)
    requires GuardedRun(s, es)
    ensures ValidRun(s, es)
    decreases |es|
  {
    if es != [] {
      GuardedIsValid(Next(s, es[0]), es[1..]);
    }
  }

  /** None of the looked-at seats stores the session. */
  ghost predicate Absent(files: map<Seat, Record>, who: Session, seat: Seat, todo: set<Seat>) {
    SessionKey(who).Some? ==>
      forall o :: o in files && o != seat && o !in todo ==> SessionKey(files[o].who) != SessionKey(who)
  }

  ghost predicate Scanned(files: map<Seat, Record>, pr: Proc) {
    match pr
    case BindScan(seat, who, _, todo) => Absent(files, who, seat, todo)
    case BindWrite(seat, who, _, _, _) => Absent(files, who, seat, {})
    case OpWrite(seat, _, ep, _) => SessionKey(ep.who).Some? ==> KeyOn(files, seat) == SessionKey(ep.who)
    case _ => true
  }

  ghost predicate UniqueInv(s: State) {
    && Exclusive(s)
    && Unique(s.files)
    && forall p :: p in s.procs ==> Scanned(s.files, s.procs[p])
  }

  lemma QuietUnique(s: State)
    requires Quiet(s) && Unique(s.files)
    ensures UniqueInv(s)
  {}

  /** A session appears on a seat only by a bind that holds the session's fingerprint lock. */
  lemma KeyAppears(s: State, a: Action, o: Seat)
    requires UniqueInv(s) && Enabled(s, a)
    ensures var k := KeyOn(Next(s, a).files, o);
      k.None? || k == KeyOn(s.files, o)
      || (a.WriteBind? && At(s, a.p).BindWrite? && At(s, a.p).seat == o && k == FpLock(At(s, a.p)))
  {
    if a.WriteOp? {
      WriteKeepsKeys(s, a.p, a.t, o);
    } else if !a.WriteBind? {
      assert KeyOn(Next(s, a).files, o).None? || Stored(Next(s, a).files, o) == Stored(s.files, o);
    }
  }

  lemma WriteKeepsKeys(s: State, p: Pid, t: Time, o: Seat)
    requires UniqueInv(s) && Enabled(s, WriteOp(p, t))
    ensures var k := KeyOn(Next(s, WriteOp(p, t)).files, o); k.None? || k == KeyOn(s.files, o)
  {
    var pr := s.procs[p];
    assert Scanned(s.files, pr);
    assert Updated(pr.op, pr.ep, t).who == pr.ep.who;
  }

  lemma UniqueKept(s: State, a: Action)
    requires UniqueInv(s) && Enabled(s, a)
    ensures Unique(Next(s, a).files)
  {
    var n := Next(s, a);
    forall o, t | o in n.files && t in n.files && o != t && SessionKey(n.files[o].who).Some?
      ensures SessionKey(n.files[o].who) != SessionKey(n.files[t].who)
    {
      KeyAppears(s, a, o);
      KeyAppears(s, a, t);
      assert KeyOn(n.files, o) == SessionKey(n.files[o].who);
      assert KeyOn(n.files, t) == SessionKey(n.files[t].who);
      if a.WriteBind? {
        assert Scanned(s.files, s.procs[a.p]);
      }
    }
  }

  /** A seat that did not store the session still does not, unless its writer holds the session's lock. */
  lemma AbsentKept(s: State, a: Action, who: Session, seat: Seat, todo: set<Seat>)
    requires UniqueInv(s) && Enabled(s, a) && Absent(s.files, who, seat, todo)
    requires a.WriteBind? && SessionKey(who).Some? ==> FpLock(At(s, a.p)) != SessionKey(who)
    ensures Absent(Next(s, a).files, who, seat, todo)
  {
    var n := Next(s, a);
    forall o | o in n.files && o != seat && o !in todo && SessionKey(who).Some?
      ensures SessionKey(n.files[o].who) != SessionKey(who)
    {
      KeyAppears(s, a, o);
      assert KeyOn(n.files, o) == SessionKey(n.files[o].who);
    }
  }

  lemma BystanderScanned(s: State, a: Action, q: Pid)
    requires UniqueInv(s) && Enabled(s, a) && Guarded(s, a) && q in s.procs && Mover(a) != Some(q)
    ensures Scanned(Next(s, a).files, s.procs[q])
  {
    var pr := s.procs[q];
    assert Scanned(s.files, pr);
    match pr
    case BindScan(seat, who, _, todo) => AbsentKept(s, a, who, seat, todo);
    case BindWrite(seat, who, _, _, _) => AbsentKept(s, a, who, seat, {});
    case OpWrite(seat, _, ep, _) =>
      if Stored(Next(s, a).files, seat) != Stored(s.files, seat) {
        FileChange(s, a, seat);
      }
    case _ =>
  }

  lemma ScannerScanned(s: State, a: Action, p: Pid)
    requires UniqueInv(s) && Enabled(s, a) && Mover(a) == Some(p) && (a.Look? || a.Decide?)
    ensures Scanned(Next(s, a).files, At(Next(s, a), p))
  {
    assert Scanned(s.files, s.procs[p]);
  }

  lemma MoverScanned(s: State, a: Action, p: Pid)
    requires UniqueInv(s) && Enabled(s, a) && Mover(a) == Some(p)
    ensures Scanned(Next(s, a).files, At(Next(s, a), p))
  {
    if a.Look? || a.Decide? {
      ScannerScanned(s, a, p);
    } else {
      var pr := At(Next(s, a), p);
      assert !pr.BindWrite?;
      assert pr.BindScan? ==> a.List?;
      assert pr.OpWrite? ==> a.ReadOp?;
    }
  }

  lemma UniqueInvKept(s: State, a: Action)
    requires UniqueInv(s) && Enabled(s, a) && Guarded(s, a)
    ensures UniqueInv(Next(s, a))
  {
    ExclusiveKept(s, a);
    UniqueKept(s, a);
    OnlyMoverMoves(s, a);
    var n := Next(s, a);
    forall p | p in n.procs ensures Scanned(n.files, n.procs[p]) {
      if Mover(a) == Some(p) {
        MoverScanned(s, a, p);
      } else {
        BystanderScanned(s, a, p);
      }
    }
  }

  lemma {:induction false} UniqueInvRun(s: State, es: seq<Action>)
    requires UniqueInv(s) && GuardedRun(s, es)
    ensures ValidRun(s, es) && UniqueInv(Run(s, es))
    decreases |es|
  {
    if es != [] {
      UniqueInvKept(s, es[0]);
      UniqueInvRun(Next(s, es[0]), es[1..]);
    }
  }

  /** Under every interleaving of binds, keep-alives, wakes, removals and crashes. */
  lemma NoSessionOnTwoSeats(s: State, es: seq<Action>)
    requires Quiet(s) && Unique(s.files) && GuardedRun(s, es)
    ensures ValidRun(s, es) && Unique(Run(s, es).files)
  {
    QuietUnique(s);
    UniqueInvRun(s, es);
  }

  // ---- the guard is exact ----

  ghost predicate StaysUnique(s: State) {
    forall es :: GuardedRun(s, es) ==> ValidRun(s, es) && Unique(Run(s, es).files)
  }

  lemma {:induction false} LockedRunIsGuarded(s: State, es: seq<Action>)
    requires ValidRun(s, es) && forall a :: a in es ==> !a.UnlockedRemove?
    ensures GuardedRun(s, es)
    decreases |es|
  {
    if es != [] {
      LockedRunIsGuarded(Next(s, es[0]), es[1..]);
    }
  }

  lemma Larger(xs: set<nat>) returns (n: nat)
    ensures forall x :: x in xs ==> x < n
    decreases xs
  {
    if xs == {} {
      n := 0;
    } else {
      var x :| x in xs;
      var m := Larger(xs - {x});
      assert forall y :: y in xs ==> y == x || y in xs - {x};
      n := if x < m then m else x + 1;
    }
  }

  /** A scan whose seats all store other sessions can run to its end. */
  lemma {:induction false} ScanAll(s: State, q: Pid) returns (es: seq<Action>)
    requires At(s, q).BindScan? && SessionKey(At(s, q).who).Some?
    requires forall o :: o in At(s, q).todo ==> KeyOn(s.files, o) != SessionKey(At(s, q).who)
    ensures ValidRun(s, es) && Run(s, es) == Go(s, q, At(s, q).(todo := {}))
    ensures forall a :: a in es ==> !a.UnlockedRemove?
    decreases At(s, q).todo
  {
    if At(s, q).todo == {} {
      es := [];
      assert s.procs[q := s.procs[q]] == s.procs;
    } else {
      var o :| o in At(s, q).todo;
      var n := Next(s, Look(q, o));
      assert At(n, q).todo == At(s, q).todo - {o};
      var rest := ScanAll(n, q);
      es := [Look(q, o)] + rest;
      assert es[1..] == rest;
      assert Go(n, q, At(n, q).(todo := {})) == Go(s, q, At(s, q).(todo := {}));
    }
  }

  /** An idle process starts to bind a session, whose locks are free, to an unused seat. */
  lemma StartBinding(s: State, q: Pid, t: Seat, who: Session) returns (es: seq<Action>)
    requires At(s, q).Idle? && SeatFree(s, t) && FpFree(s, SessionKey(who))
    ensures ValidRun(s, es) && forall a :: a in es ==> !a.UnlockedRemove?
    ensures Run(s, es) == Go(s, q, BindScan(t, who, 0, s.files.Keys - {t}))
  {
    es := [];
    RunSnoc(s, es, StartBind(q, t, who, 0));
    es := es + [StartBind(q, t, who, 0)];
    RunSnoc(s, es, TakeFp(q));
    es := es + [TakeFp(q)];
    RunSnoc(s, es, TakeSeatToBind(q));
    es := es + [TakeSeatToBind(q)];
    RunSnoc(s, es, List(q));
    es := es + [List(q)];
  }

  /** A binder whose scan found nothing writes its record. */
  lemma FinishBinding(s: State, q: Pid) returns (es: seq<Action>)
    requires At(s, q).BindScan? && At(s, q).todo == {} && At(s, q).seat !in s.files
    ensures ValidRun(s, es) && forall a :: a in es ==> !a.UnlockedRemove?
    ensures var b := At(s, q);
      Run(s, es) == Go(Put(s, b.seat, Bound(None, b.who, s.issued + 1, s.clock)), q, Idle).(issued := s.issued + 1)
  {
    RunSnoc(s, [], Decide(q, false));
    es := [] + [Decide(q, false)];
    RunSnoc(s, es, WriteBind(q));
    es := es + [WriteBind(q)];
  }

  /** An idle process binds a session no seat stores to an unused seat. */
  lemma BindElsewhere(s: State, q: Pid, t: Seat, who: Session) returns (es: seq<Action>)
    requires At(s, q).Idle? && SessionKey(who).Some? && t !in s.files && SeatFree(s, t)
    requires FpFree(s, SessionKey(who))
    requires forall o :: o in s.files ==> KeyOn(s.files, o) != SessionKey(who)
    ensures ValidRun(s, es) && forall a :: a in es ==> !a.UnlockedRemove?
    ensures Run(s, es) == Go(Put(s, t, Bound(None, who, s.issued + 1, s.clock)), q, Idle).(issued := s.issued + 1)
  {
    var es1 := StartBinding(s, q, t, who);
    var s1 := Run(s, es1);
    var es2 := ScanAll(s1, q);
    RunConcat(s, es1, es2);
    var s2 := Run(s1, es2);
    var es3 := FinishBinding(s2, q);
    RunConcat(s, es1 + es2, es3);
    es := es1 + es2 + es3;
    assert Run(s2, es3).procs == s.procs[q := Idle];
  }

  /** Kills whoever holds the fingerprint lock of a session. */
  lemma FreeFp(s: State, key: Option<Key>) returns (es: seq<Action>)
    requires Exclusive(s) && key.Some?
    ensures ValidRun(s, es) && forall a :: a in es ==> !a.UnlockedRemove?
    ensures FpFree(Run(s, es), key)
    ensures Run(s, es).files == s.files && Run(s, es).clock == s.clock
    ensures forall p :: p in s.procs && FpLock(s.procs[p]) != key
              ==> p in Run(s, es).procs && Run(s, es).procs[p] == s.procs[p]
  {
    if FpFree(s, key) {
      es := [];
    } else {
      var r :| r in s.procs && FpLock(s.procs[r]) == key;
      es := [Crash(r)];
      assert es[1..] == [];
      assert Run(s, es) == Next(s, Crash(r));
    }
  }

  lemma UnusedSeat(s: State, seats: set<Seat>, t: Seat)
    requires forall p :: p in s.procs && !s.procs[p].Idle? ==> s.procs[p].seat in seats
    requires t !in seats
    ensures SeatFree(s, t)
  {}

  /** Writing back what was read stores its session again. */
  lemma WriteBack(s: State, p: Pid, t: Seat)
    requires p in s.procs && s.procs[p].OpWrite? && s.procs[p].readAt <= s.clock
    requires t in s.files && t != s.procs[p].seat && SessionKey(s.procs[p].ep.who).Some?
    requires SessionKey(s.files[t].who) == SessionKey(s.procs[p].ep.who)
    ensures Enabled(s, WriteOp(p, s.procs[p].readAt)) && !Unique(Next(s, WriteOp(p, s.procs[p].readAt)).files)
  {
    var n := Next(s, WriteOp(p, s.procs[p].readAt));
    assert n.files[s.procs[p].seat].who == s.procs[p].ep.who;
    assert t in n.files && n.files[t] == s.files[t];
  }

  /** While an operation holds a session nobody stores any more, another seat can bind it first. */
  lemma RebindThenWriteBack(s: State, p: Pid) returns (es: seq<Action>)
    requires p in s.procs && s.procs[p].OpWrite? && s.procs[p].readAt <= s.clock
    requires SessionKey(s.procs[p].ep.who).Some? && FpFree(s, SessionKey(s.procs[p].ep.who))
    requires forall o :: o in s.files ==> KeyOn(s.files, o) != SessionKey(s.procs[p].ep.who)
    ensures ValidRun(s, es) && !Unique(Run(s, es).files) && forall a :: a in es ==> !a.UnlockedRemove?
  {
    var q := Larger(s.procs.Keys);
    var seats := s.files.Keys + set r | r in s.procs && !s.procs[r].Idle? :: s.procs[r].seat;
    var t := Larger(seats);
    UnusedSeat(s, seats, t);
    var es1 := BindElsewhere(s, q, t, s.procs[p].ep.who);
    var k := Run(s, es1);
    WriteBack(k, p, t);
    RunSnoc(s, es1, WriteOp(p, s.procs[p].readAt));
    es := es1 + [WriteOp(p, s.procs[p].readAt)];
  }

  /** If a removal catches an operation between its read and its write, the session can end up on two seats. */
  lemma RemovalLosesUniqueness(s: State, seat: Seat) returns (es: seq<Action>)
    requires UniqueInv(s) && Inv(s) && PendingTouch(s, seat)
    ensures var n := Next(s, UnlockedRemove(seat));
      GuardedRun(n, es) && ValidRun(n, es) && !Unique(Run(n, es).files)
  {
    var p :| p in s.procs && s.procs[p].OpWrite? && s.procs[p].seat == seat && SessionKey(s.procs[p].ep.who).Some?;
    var who := s.procs[p].ep.who;
    assert Scanned(s.files, s.procs[p]);
    var n := Next(s, UnlockedRemove(seat));
    assert forall o :: o in n.files ==> KeyOn(n.files, o) != SessionKey(who);
    var es1 := FreeFp(n, SessionKey(who));
    var es2 := RebindThenWriteBack(Run(n, es1), p);
    RunConcat(n, es1, es2);
    es := es1 + es2;
    LockedRunIsGuarded(n, es);
  }

  /** In every state reached so far, an unlocked removal keeps the property for good exactly when the seat has no
      operation between its read and its write. */
  lemma UnlockedRemovalSafeIff(start: State, es: seq<Action>, seat: Seat)
    requires Quiet(start) && Unique(start.files) && GuardedRun(start, es) && ValidRun(start, es)
    ensures var s := Run(start, es);
      StaysUnique(Next(s, UnlockedRemove(seat))) <==> !PendingTouch(s, seat)
  {
    QuietUnique(start);
    UniqueInvRun(start, es);
    QuietInv(start);
    InvRun(start, es);
    var s := Run(start, es);
    var n := Next(s, UnlockedRemove(seat));
    if PendingTouch(s, seat) {
      var fs := RemovalLosesUniqueness(s, seat);
    } else {
      UniqueInvKept(s, UnlockedRemove(seat));
      forall fs | GuardedRun(n, fs) ensures ValidRun(n, fs) && Unique(Run(n, fs).files) {
        UniqueInvRun(n, fs);
      }
    }
  }
}
