/** Claims, assignments and unlocked re-saves of a whole board as a step machine. A claim takes the agent's hold lock,
    reads every ticket one by one, creates the ticket's claim lock exclusively, loads, publishes. An assignment to a
    new owner loads first and then takes the new owner's hold lock, reads every ticket, publishes. Reviewing, closing,
    blocking, reopening and rewiring are single steps. */
module OneHold {
  import opened Wrappers
  import opened Generations
  import opened DependencyGraph
  import opened TicketStatus

  type Pid = nat

  /** What ownership decisions read of a ticket file; `deps`: the tickets it waits for. */
  datatype Slip = Slip(status: Status, owner: Agent, gen: nat, deps: set<TicketId>)

  /** What a process does under an agent's hold lock. */
  datatype Errand =
    | Claiming(tid: TicketId, to: Agent, resave: bool)
    | Moving(tid: TicketId, to: Agent, image: Slip, expected: Option<nat>)

  datatype Proc =
    | Idle
    | Want(e: Errand)
    | Held(e: Errand)
    | Scan(e: Errand, todo: set<TicketId>)
    | Cleared(e: Errand)
    // the claim lock of the ticket is ours
    | Locked(e: Errand)
    | Saving(e: Errand, image: Slip)
    // a copy about to be written back without the hold lock
    | Resaving(tid: TicketId, image: Slip)

  /** `locks`: tickets whose claim lock file exists. `verdicts`: tickets with evidence on record that releases them once
      they are done; it comes and goes freely. */
  datatype State =
    State(tickets: map<TicketId, Slip>, locks: set<TicketId>, verdicts: set<TicketId>, procs: map<Pid, Proc>)

  datatype Action =
    | Create(t: TicketId, deps: set<TicketId>)
    | Release(t: TicketId, status: Status)
    | Reopen(t: TicketId)
    | Rewire(t: TicketId, deps: set<TicketId>)
    | Judge(t: TicketId, releases: bool)
    | StartClaim(p: Pid, tid: TicketId, to: Agent, resave: bool)
    | StartMove(p: Pid, tid: TicketId, to: Agent)
    | StartEdit(p: Pid, tid: TicketId)
    | TakeAgent(p: Pid)
    | List(p: Pid)
    | Look(p: Pid, x: TicketId)
    | Clear(p: Pid)
    | Excl(p: Pid)
    | LoadOpen(p: Pid)
    | Save(p: Pid)
    | SaveMove(p: Pid)
    | Resave(p: Pid)
    | Crash(p: Pid)

  function At(s: State, p: Pid): Proc {
    if p in s.procs then s.procs[p] else Idle
  }

  predicate HoldsAgent(pr: Proc) {
    pr.Held? || pr.Scan? || pr.Cleared? || pr.Locked? || pr.Saving?
  }

  ghost predicate AgentFree(s: State, a: Agent) {
    forall p :: p in s.procs && HoldsAgent(s.procs[p]) ==> s.procs[p].e.to != a
  }

  predicate HeldBy(t: Slip, a: Agent) {
    t.status == Claimed && t.owner == a
  }

  predicate Released(s: State, d: TicketId) {
    d in s.tickets && s.tickets[d].status == Done && d in s.verdicts
  }

  predicate Ready(s: State, image: Slip) {
    forall d :: d in image.deps ==> Released(s, d)
  }

  /** A write is refused if it claims the ticket, or changes its owner, before the predecessors it names are
      released. */
  predicate Gated(s: State, tid: TicketId, image: Slip) {
    && (image.status == Claimed || (image.owner != "" && (tid in s.tickets ==> image.owner != s.tickets[tid].owner)))
    && !Ready(s, image)
  }

  predicate Current(tickets: map<TicketId, Slip>, tid: TicketId, gen: nat, expected: Option<nat>) {
    tid in tickets ==> !PublishRefused(tickets[tid].gen, gen, expected)
  }

  predicate Lands(s: State, tid: TicketId, image: Slip, expected: Option<nat>) {
    !Gated(s, tid, image) && Current(s.tickets, tid, image.gen, expected)
  }

  /** What one atomic replacement leaves on disk. */
  function Publish(s: State, tid: TicketId, image: Slip, expected: Option<nat>): map<TicketId, Slip> {
    if Lands(s, tid, image, expected) then s.tickets[tid := image] else s.tickets
  }

  /** The assigned copy; a lease is issued only when somebody else owned the ticket, and then the load's generation is
      presented. */
  function MoveErrand(tid: TicketId, now: Slip, to: Agent): Errand {
    if now.owner != "" && now.owner != to
    then Moving(tid, to, Slip(Claimed, to, now.gen + 1, now.deps), Some(now.gen))
    else Moving(tid, to, Slip(Claimed, to, now.gen, now.deps), None)
  }

  /** A claim of the loaded ticket, under a lease of the next generation. */
  function ClaimOf(now: Slip, to: Agent): Slip {
    Slip(Claimed, to, now.gen + 1, now.deps)
  }

  ghost predicate Enabled(s: State, a: Action) {
    match a
    case Create(t, deps) => t !in s.tickets && deps <= s.tickets.Keys
    case Release(t, to) => t in s.tickets && (to == Review || to == Done || to == Blocked)
    case Reopen(t) => t in s.tickets
    case Rewire(t, deps) => t in s.tickets && deps <= s.tickets.Keys - {t}
    case Judge(t, releases) => true
    case StartClaim(p, tid, to, resave) => At(s, p).Idle? && tid in s.tickets && to != ""
    case StartMove(p, tid, to) =>
      && At(s, p).Idle? && tid in s.tickets && to != ""
      && (s.tickets[tid].status == Review || (s.tickets[tid].status == Claimed && s.tickets[tid].owner != to))
    case StartEdit(p, tid) => At(s, p).Idle? && tid in s.tickets
    case TakeAgent(p) => At(s, p).Want? && AgentFree(s, At(s, p).e.to)
    case List(p) => At(s, p).Held?
    case Look(p, x) => At(s, p).Scan? && x in At(s, p).todo
    case Clear(p) => At(s, p).Scan? && At(s, p).todo == {}
    case Excl(p) => At(s, p).Cleared? && At(s, p).e.Claiming?
    case LoadOpen(p) => At(s, p).Locked? && At(s, p).e.tid in s.tickets
    case Save(p) => At(s, p).Saving?
    case SaveMove(p) => At(s, p).Cleared? && At(s, p).e.Moving?
    case Resave(p) => At(s, p).Resaving?
    case Crash(p) => true
  }

  function Go(s: State, p: Pid, pr: Proc): State {
    s.(procs := s.procs[p := pr])
  }

  ghost function Next(s: State, a: Action): State
    requires Enabled(s, a)
  {
    match a
    case Create(t, deps) => s.(tickets := s.tickets[t := Slip(Open, "", 0, deps)])
    case Release(t, to) => s.(tickets := s.tickets[t := s.tickets[t].(status := to)])
    case Reopen(t) => s.(tickets := s.tickets[t := s.tickets[t].(status := Open, owner := "")], locks := s.locks - {t})
    case Rewire(t, deps) => s.(tickets := s.tickets[t := s.tickets[t].(deps := deps)])
    case Judge(t, releases) => s.(verdicts := if releases then s.verdicts + {t} else s.verdicts - {t})
    case StartClaim(p, tid, to, resave) => Go(s, p, Want(Claiming(tid, to, resave)))
    case StartMove(p, tid, to) => Go(s, p, Want(MoveErrand(tid, s.tickets[tid], to)))
    case StartEdit(p, tid) => Go(s, p, Resaving(tid, s.tickets[tid]))
    case TakeAgent(p) => Go(s, p, Held(At(s, p).e))
    case List(p) => Go(s, p, Scan(At(s, p).e, s.tickets.Keys - {At(s, p).e.tid}))
    case Look(p, x) =>
      var e := At(s, p).e;
      if x in s.tickets && HeldBy(s.tickets[x], e.to) then Go(s, p, Idle)
      else Go(s, p, Scan(e, At(s, p).todo - {x}))
    case Clear(p) => Go(s, p, Cleared(At(s, p).e))
    case Excl(p) =>
      var e := At(s, p).e;
      if e.tid in s.locks then Go(s, p, Idle) else Go(s, p, Locked(e)).(locks := s.locks + {e.tid})
    case LoadOpen(p) =>
      var e := At(s, p).e;
      if s.tickets[e.tid].status == Open && Ready(s, s.tickets[e.tid]) then Go(s, p, Saving(e, s.tickets[e.tid]))
      else Go(s, p, Idle).(locks := s.locks - {e.tid})
    case Save(p) =>
      var e := At(s, p).e;
      var image := ClaimOf(At(s, p).image, e.to);
      if Lands(s, e.tid, image, None)
      then Go(s, p, if e.Claiming? && e.resave then Resaving(e.tid, image) else Idle)
           .(tickets := s.tickets[e.tid := image])
      else Go(s, p, Idle)
    case SaveMove(p) =>
      var e := At(s, p).e;
      Go(s, p, Idle).(tickets := Publish(s, e.tid, e.image, e.expected))
    case Resave(p) => Go(s, p, Idle).(tickets := Publish(s, At(s, p).tid, At(s, p).image, None))
    case Crash(p) => Go(s, p, Idle)
  }

  ghost predicate ValidRun(s: State, es: seq<Action>)
    decreases |es|
  {
    es == [] || (Enabled(s, es[0]) && ValidRun(Next(s, es[0]), es[1..]))
  }

  ghost function Run(s: State, es: seq<Action>): State
    requires ValidRun(s, es)
    decreases |es|
  {
    if es == [] then s else Run(Next(s, es[0]), es[1..])
  }

  // ---- one active hold ----

  /** No agent owns two claimed tickets. */
  ghost predicate OneActive(tickets: map<TicketId, Slip>) {
    forall x, y :: x in tickets && y in tickets && x != y && tickets[x].owner != ""
                   && HeldBy(tickets[x], tickets[x].owner)
      ==> !HeldBy(tickets[y], tickets[x].owner)
  }

  /** The agent holds nothing but possibly `tid` and tickets left aside. */
  ghost predicate NothingElse(tickets: map<TicketId, Slip>, a: Agent, tid: TicketId, aside: set<TicketId>) {
    forall x :: x in tickets && x != tid && x !in aside ==> !HeldBy(tickets[x], a)
  }

  /** What every process's errand keeps: its ticket exists, and the generation a transfer presents was the ticket's. */
  predicate Fits(tickets: map<TicketId, Slip>, pr: Proc) {
    && (pr.Resaving? ==> pr.tid in tickets)
    && (!pr.Idle? && !pr.Resaving? ==>
      && pr.e.to != "" && pr.e.tid in tickets
      && (pr.e.Moving? ==>
        && pr.e.image.owner == pr.e.to && pr.e.image.status == Claimed
        && (pr.e.expected.Some? ==> pr.e.expected.value <= tickets[pr.e.tid].gen))
      && ((pr.Locked? || pr.Saving?) ==> pr.e.Claiming?))
  }

  /** Whether the errand can still end in a claim: a claim that has not loaded the ticket yet can, once the ticket is
      reopened; a loaded image can unless the ticket's generation has moved past it. */
  predicate CanLand(tickets: map<TicketId, Slip>, pr: Proc) {
    match pr
    case Scan(e, _) => e.Moving? ==> Current(tickets, e.tid, e.image.gen, e.expected)
    case Cleared(e) => e.Moving? ==> Current(tickets, e.tid, e.image.gen, e.expected)
    case Saving(e, image) => Current(tickets, e.tid, image.gen + 1, None)
    case _ => pr.Locked?
  }

  /** The predecessors in an image that is loaded already: it cannot land while one of them is claimed. */
  function LoadedDeps(pr: Proc): set<TicketId> {
    match pr
    case Scan(e, _) => if e.Moving? then e.image.deps else {}
    case Cleared(e) => if e.Moving? then e.image.deps else {}
    case Saving(_, image) => image.deps
    case _ => {}
  }

  ghost predicate ScanTrue(tickets: map<TicketId, Slip>, pr: Proc) {
    match pr
    case Scan(e, todo) => NothingElse(tickets, e.to, e.tid, todo + LoadedDeps(pr))
    case Cleared(e) => NothingElse(tickets, e.to, e.tid, LoadedDeps(pr))
    case Locked(e) => NothingElse(tickets, e.to, e.tid, {})
    case Saving(e, _) => NothingElse(tickets, e.to, e.tid, LoadedDeps(pr))
    case _ => true
  }

  ghost predicate AgentsExclusive(procs: map<Pid, Proc>) {
    forall p, q :: p in procs && q in procs && p != q && HoldsAgent(procs[p]) && HoldsAgent(procs[q])
      ==> procs[p].e.to != procs[q].e.to
  }

  ghost predicate HoldInv(s: State) {
    && OneActive(s.tickets)
    && AgentsExclusive(s.procs)
    && (forall p :: p in s.procs ==> Fits(s.tickets, s.procs[p]))
    && (forall p :: p in s.procs && CanLand(s.tickets, s.procs[p]) ==> ScanTrue(s.tickets, s.procs[p]))
  }

  /** A scan for the agent, on its way to take another ticket, will not look at this ticket any more. */
  predicate Passed(pr: Proc, tid: TicketId, a: Agent) {
    && (pr.Scan? || pr.Cleared? || pr.Locked? || pr.Saving?)
    && pr.e.to == a && pr.e.tid != tid
    && (pr.Scan? ==> tid !in pr.todo)
  }

  /** The write is refused, or claims nothing for anybody, or the ticket is claimed by that agent already; or the agent
      holds nothing else and nobody who can still claim for the agent has already passed the ticket, but for images
      that wait for this very ticket. */
  ghost predicate ResaveSafe(s: State, tid: TicketId, image: Slip) {
    || !Lands(s, tid, image, None)
    || image.owner == "" || image.status != Claimed
    || (tid in s.tickets && HeldBy(s.tickets[tid], image.owner))
    || (NothingElse(s.tickets, image.owner, tid, {})
        && forall q :: q in s.procs && Passed(s.procs[q], tid, image.owner) && CanLand(s.tickets, s.procs[q])
             ==> tid in LoadedDeps(s.procs[q]))
  }

  ghost predicate Guarded(s: State, a: Action) {
    a.Resave? && At(s, a.p).Resaving? ==> ResaveSafe(s, At(s, a.p).tid, At(s, a.p).image)
  }

  /** Who is moving, if anyone. */
  function Mover(a: Action): Option<Pid> {
    match a
    case Create(_, _) => None
    case Release(_, _) => None
    case Reopen(_) => None
    case Rewire(_, _) => None
    case Judge(_, _) => None
    case _ => Some(a.p)
  }

  lemma OnlyMoverMoves(s: State, a: Action)
    requires Enabled(s, a)
    ensures Mover(a).None? ==> Next(s, a).procs == s.procs
    ensures Mover(a).Some? ==> Next(s, a).procs == s.procs[Mover(a).value := At(Next(s, a), Mover(a).value)]
  {}

  lemma OnlyForward(s: State, a: Action, x: TicketId)
    requires Enabled(s, a) && x in s.tickets
    ensures x in Next(s, a).tickets && s.tickets[x].gen <= Next(s, a).tickets[x].gen
  {}

  /** Who can claim after a step could claim before it. */
  lemma DeadStaysDead(s: State, a: Action, pr: Proc)
    requires Enabled(s, a) && Fits(s.tickets, pr)
    ensures Fits(Next(s, a).tickets, pr)
    ensures CanLand(Next(s, a).tickets, pr) ==> CanLand(s.tickets, pr)
  {
    if !pr.Idle? {
      OnlyForward(s, a, if pr.Resaving? then pr.tid else pr.e.tid);
    }
  }

  /** A ticket comes to be held by an agent only through a claim or transfer under that agent's lock, or a re-save. */
  lemma HoldAppears(s: State, a: Action, x: TicketId, who: Agent)
    requires HoldInv(s) && Enabled(s, a) && who != ""
    requires x in Next(s, a).tickets && HeldBy(Next(s, a).tickets[x], who)
    ensures (x in s.tickets && HeldBy(s.tickets[x], who))
            || (a.Resave? && At(s, a.p).tid == x && HeldBy(At(s, a.p).image, who)
                && Lands(s, x, At(s, a.p).image, None))
            || ((a.Save? || a.SaveMove?) && At(s, a.p).e.tid == x && At(s, a.p).e.to == who
                && CanLand(s.tickets, At(s, a.p)) && forall d :: d in LoadedDeps(At(s, a.p)) ==> Released(s, d))
  {
    assert Mover(a).Some? && Mover(a).value in s.procs ==> Fits(s.tickets, s.procs[Mover(a).value]);
  }

  lemma NotBothHeld(s: State, a: Action, x: TicketId, y: TicketId, who: Agent)
    requires HoldInv(s) && Enabled(s, a) && Guarded(s, a) && who != "" && x != y
    requires x in Next(s, a).tickets && y in Next(s, a).tickets
    ensures !(HeldBy(Next(s, a).tickets[x], who) && HeldBy(Next(s, a).tickets[y], who))
  {
    if HeldBy(Next(s, a).tickets[x], who) {
      HoldAppears(s, a, x, who);
    }
    if HeldBy(Next(s, a).tickets[y], who) {
      HoldAppears(s, a, y, who);
    }
    assert (a.Save? || a.SaveMove?) && CanLand(s.tickets, At(s, a.p)) ==> ScanTrue(s.tickets, s.procs[a.p]);
  }

  lemma OneActiveKept(s: State, a: Action)
    requires HoldInv(s) && Enabled(s, a) && Guarded(s, a)
    ensures OneActive(Next(s, a).tickets)
  {
    var n := Next(s, a);
    forall x, y | x in n.tickets && y in n.tickets && x != y && n.tickets[x].owner != ""
                  && HeldBy(n.tickets[x], n.tickets[x].owner)
      ensures !HeldBy(n.tickets[y], n.tickets[x].owner)
    {
      NotBothHeld(s, a, x, y, n.tickets[x].owner);
    }
  }

  lemma NothingElseKept(s: State, a: Action, q: Pid, aside: set<TicketId>)
    requires HoldInv(s) && Enabled(s, a) && Guarded(s, a) && q in s.procs && Mover(a) != Some(q)
    requires HoldsAgent(s.procs[q]) && NothingElse(s.tickets, s.procs[q].e.to, s.procs[q].e.tid, aside)
    requires CanLand(s.tickets, s.procs[q]) && LoadedDeps(s.procs[q]) <= aside
    requires forall x :: x != s.procs[q].e.tid && x !in aside ==> Passed(s.procs[q], x, s.procs[q].e.to)
    ensures NothingElse(Next(s, a).tickets, s.procs[q].e.to, s.procs[q].e.tid, aside)
  {
    var e := s.procs[q].e;
    var n := Next(s, a);
    assert Fits(s.tickets, s.procs[q]);
    forall x | x in n.tickets && x != e.tid && x !in aside ensures !HeldBy(n.tickets[x], e.to) {
      assert Passed(s.procs[q], x, e.to);
      if HeldBy(n.tickets[x], e.to) {
        HoldAppears(s, a, x, e.to);
      }
    }
  }

  lemma BystanderScan(s: State, a: Action, q: Pid)
    requires HoldInv(s) && Enabled(s, a) && Guarded(s, a) && q in s.procs && Mover(a) != Some(q)
    requires CanLand(s.tickets, s.procs[q])
    ensures ScanTrue(Next(s, a).tickets, s.procs[q])
  {
    var pr := s.procs[q];
    assert ScanTrue(s.tickets, pr);
    match pr
    case Scan(_, todo) => NothingElseKept(s, a, q, todo + LoadedDeps(pr));
    case Cleared(_) => NothingElseKept(s, a, q, LoadedDeps(pr));
    case Locked(_) => NothingElseKept(s, a, q, {});
    case Saving(_, _) => NothingElseKept(s, a, q, LoadedDeps(pr));
    case _ =>
  }

  lemma MoverFits(s: State, a: Action, p: Pid)
    requires HoldInv(s) && Enabled(s, a) && Mover(a) == Some(p)
    ensures Fits(Next(s, a).tickets, At(Next(s, a), p))
  {
    if p in s.procs {
      DeadStaysDead(s, a, s.procs[p]);
    }
  }

  lemma MoverScan(s: State, a: Action, p: Pid)
    requires HoldInv(s) && Enabled(s, a) && Mover(a) == Some(p)
    requires CanLand(Next(s, a).tickets, At(Next(s, a), p))
    ensures ScanTrue(Next(s, a).tickets, At(Next(s, a), p))
  {
    if p in s.procs {
      assert CanLand(s.tickets, s.procs[p]) ==> ScanTrue(s.tickets, s.procs[p]);
      assert Fits(s.tickets, s.procs[p]);
    }
  }

  lemma AgentsStayExclusive(s: State, a: Action)
    requires HoldInv(s) && Enabled(s, a)
    ensures AgentsExclusive(Next(s, a).procs)
  {
    OnlyMoverMoves(s, a);
    if Mover(a).Some? {
      var p := Mover(a).value;
      var pr := At(Next(s, a), p);
      assert HoldsAgent(pr) ==> AgentFree(s, pr.e.to) || (HoldsAgent(At(s, p)) && At(s, p).e.to == pr.e.to);
    }
  }

  lemma HoldInvKept(s: State, a: Action)
    requires HoldInv(s) && Enabled(s, a) && Guarded(s, a)
    ensures HoldInv(Next(s, a))
  {
    OneActiveKept(s, a);
    AgentsStayExclusive(s, a);
    OnlyMoverMoves(s, a);
    var n := Next(s, a);
    forall q | q in n.procs
      ensures Fits(n.tickets, n.procs[q]) && (CanLand(n.tickets, n.procs[q]) ==> ScanTrue(n.tickets, n.procs[q]))
    {
      if Mover(a) == Some(q) {
        MoverFits(s, a, q);
        if CanLand(n.tickets, n.procs[q]) {
          MoverScan(s, a, q);
        }
      } else {
        DeadStaysDead(s, a, s.procs[q]);
        if CanLand(n.tickets, n.procs[q]) {
          BystanderScan(s, a, q);
        }
      }
    }
  }

  ghost predicate GuardedRun(s: State, es: seq<Action>)
    decreases |es|
  {
    es == [] || (Enabled(s, es[0]) && Guarded(s, es[0]) && GuardedRun(Next(s, es[0]), es[1..]))
  }

  lemma {:induction false} HoldInvRun(s: State, es: seq<Action>)
    requires HoldInv(s) && GuardedRun(s, es)
    ensures ValidRun(s, es) && HoldInv(Run(s, es))
    decreases |es|
  {
    if es != [] {
      HoldInvKept(s, es[0]);
      HoldInvRun(Next(s, es[0]), es[1..]);
    }
  }

  /** Under every interleaving in which each unlocked re-save is safe at the moment it lands. */
  lemma NoSecondHold(s: State, es: seq<Action>)
    requires s.procs == map[] && OneActive(s.tickets) && GuardedRun(s, es)
    ensures ValidRun(s, es) && OneActive(Run(s, es).tickets)
  {
    HoldInvRun(s, es);
  }

  // ---- runs ----

  lemma {:induction false} RunConcat(s: State, es: seq<Action>, fs: seq<Action>)
    requires ValidRun(s, es) && ValidRun(Run(s, es), fs)
    ensures ValidRun(s, es + fs) && Run(s, es + fs) == Run(Run(s, es), fs)
    decreases |es|
  {
    if es == [] {
      assert es + fs == fs;
    } else {
      RunConcat(Next(s, es[0]), es[1..], fs);
      assert (es + fs)[1..] == es[1..] + fs;
    }
  }

  lemma RunSnoc(s: State, es: seq<Action>, a: Action)
    requires ValidRun(s, es) && Enabled(Run(s, es), a)
    ensures ValidRun(s, es + [a]) && Run(s, es + [a]) == Next(Run(s, es), a)
  {
    var n := Run(s, es);
    assert [a][1..] == [] && ValidRun(Next(n, a), []);
    assert ValidRun(n, [a]) && Run(n, [a]) == Next(n, a);
    RunConcat(s, es, [a]);
  }

  /** A scan that meets no held ticket runs to its end. */
  lemma {:induction false} ScanAll(s: State, p: Pid) returns (es: seq<Action>)
    requires At(s, p).Scan?
    requires forall x :: x in At(s, p).todo && x in s.tickets ==> !HeldBy(s.tickets[x], At(s, p).e.to)
    ensures ValidRun(s, es) && Run(s, es) == Go(s, p, Scan(At(s, p).e, {})) && forall a :: a in es ==> !a.Resave?
    decreases At(s, p).todo
  {
    if At(s, p).todo == {} {
      es := [];
      assert s.procs[p := s.procs[p]] == s.procs;
    } else {
      var x :| x in At(s, p).todo;
      var n := Next(s, Look(p, x));
      var rest := ScanAll(n, p);
      es := [Look(p, x)] + rest;
      assert es[1..] == rest;
      assert Go(n, p, Scan(At(s, p).e, {})) == Go(s, p, Scan(At(s, p).e, {}));
    }
  }

  // ---- the guard is exact ----

  /** Whatever happens next, as long as re-saves keep to the guard, nobody holds two tickets. */
  ghost predicate StaysOneActive(s: State) {
    forall es :: ValidRun(s, es) && GuardedRun(s, es) ==> OneActive(Run(s, es).tickets)
  }

  lemma {:induction false} NoResaveIsGuarded(s: State, es: seq<Action>)
    requires ValidRun(s, es) && forall a :: a in es ==> !a.Resave?
    ensures GuardedRun(s, es)
    decreases |es|
  {
    if es != [] {
      assert es[0] in es && forall a :: a in es[1..] ==> a in es;
      NoResaveIsGuarded(Next(s, es[0]), es[1..]);
    }
  }

  /** The run ends with the ticket claimed by the agent and `keep` as it was, without a re-save. */
  ghost predicate EndsClaimed(s: State, es: seq<Action>, tid: TicketId, a: Agent, keep: TicketId) {
    && ValidRun(s, es) && (forall x :: x in es ==> !x.Resave?)
    && var end := Run(s, es).tickets;
      tid in end && HeldBy(end[tid], a) && keep in end && keep in s.tickets && end[keep] == s.tickets[keep]
  }

  lemma EndsLater(s: State, es: seq<Action>, fs: seq<Action>, tid: TicketId, a: Agent, keep: TicketId)
    requires ValidRun(s, es) && (forall x :: x in es ==> !x.Resave?)
    requires keep in s.tickets && keep in Run(s, es).tickets && Run(s, es).tickets[keep] == s.tickets[keep]
    requires EndsClaimed(Run(s, es), fs, tid, a, keep)
    ensures EndsClaimed(s, es + fs, tid, a, keep)
  {
    RunConcat(s, es, fs);
  }

  /** Other people's work: every ticket of `ds` is there, done and released; processes, locks, generations and the
      ticket `keep` are as before. */
  ghost predicate Finished(s: State, n: State, ds: set<TicketId>, keep: TicketId) {
    && n.procs == s.procs && n.locks == s.locks
    && (forall d :: d in ds ==> Released(n, d))
    && (forall x :: x in s.tickets ==> x in n.tickets && n.tickets[x].gen == s.tickets[x].gen)
    && (forall x :: x in n.tickets && n.tickets[x].status == Claimed ==> x in s.tickets && n.tickets[x] == s.tickets[x])
    && keep in s.tickets && keep in n.tickets && n.tickets[keep] == s.tickets[keep]
  }

  lemma FinishOne(s: State, d: TicketId, keep: TicketId) returns (es: seq<Action>)
    requires keep in s.tickets && d != keep
    ensures ValidRun(s, es) && Finished(s, Run(s, es), {d}, keep) && forall x :: x in es ==> !x.Resave?
    ensures forall o :: Released(s, o) ==> Released(Run(s, es), o)
  {
    es := [];
    if d !in s.tickets {
      RunSnoc(s, es, Create(d, {}));
      es := es + [Create(d, {})];
    }
    RunSnoc(s, es, Release(d, Done));
    es := es + [Release(d, Done)];
    RunSnoc(s, es, Judge(d, true));
    es := es + [Judge(d, true)];
  }

  lemma {:induction false} FinishAll(s: State, ds: set<TicketId>, keep: TicketId) returns (es: seq<Action>)
    requires keep in s.tickets && keep !in ds
    ensures ValidRun(s, es) && Finished(s, Run(s, es), ds, keep) && forall x :: x in es ==> !x.Resave?
    decreases ds
  {
    es := [];
    if ds != {} {
      var d :| d in ds;
      var most := FinishAll(s, ds - {d}, keep);
      var last := FinishOne(Run(s, most), d, keep);
      RunConcat(s, most, last);
      es := most + last;
      assert forall x :: x in ds ==> x == d || x in ds - {d};
    }
  }

  lemma FromSaving(s: State, q: Pid, keep: TicketId) returns (es: seq<Action>)
    requires At(s, q).Saving? && CanLand(s.tickets, At(s, q)) && Fits(s.tickets, At(s, q))
    requires keep in s.tickets && keep != At(s, q).e.tid && keep !in At(s, q).image.deps
    ensures EndsClaimed(s, es, At(s, q).e.tid, At(s, q).e.to, keep)
  {
    es := FinishAll(s, At(s, q).image.deps, keep);
    RunSnoc(s, es, Save(q));
    es := es + [Save(q)];
  }

  lemma FromLocked(s: State, q: Pid, keep: TicketId) returns (es: seq<Action>)
    requires At(s, q).Locked? && At(s, q).e.tid in s.tickets && keep in s.tickets && keep != At(s, q).e.tid
    ensures EndsClaimed(s, es, At(s, q).e.tid, At(s, q).e.to, keep)
  {
    var tid := At(s, q).e.tid;
    RunSnoc(s, [], Reopen(tid));
    es := [] + [Reopen(tid)];
    RunSnoc(s, es, Rewire(tid, {}));
    es := es + [Rewire(tid, {})];
    RunSnoc(s, es, LoadOpen(q));
    es := es + [LoadOpen(q)];
    RunSnoc(s, es, Save(q));
    es := es + [Save(q)];
  }

  lemma FromCleared(s: State, q: Pid, keep: TicketId) returns (es: seq<Action>)
    requires At(s, q).Cleared? && CanLand(s.tickets, At(s, q)) && Fits(s.tickets, At(s, q))
    requires keep in s.tickets && keep != At(s, q).e.tid && keep !in LoadedDeps(At(s, q))
    ensures EndsClaimed(s, es, At(s, q).e.tid, At(s, q).e.to, keep)
  {
    var e := At(s, q).e;
    if e.Moving? {
      es := FinishAll(s, e.image.deps, keep);
      RunSnoc(s, es, SaveMove(q));
      es := es + [SaveMove(q)];
    } else {
      RunSnoc(s, [], Reopen(e.tid));
      es := [] + [Reopen(e.tid)];
      RunSnoc(s, es, Excl(q));
      es := es + [Excl(q)];
      var rest := FromLocked(Run(s, es), q, keep);
      EndsLater(s, es, rest, e.tid, e.to, keep);
      es := es + rest;
    }
  }

  /** A scan that meets no held ticket, for an errand that can still land, ends in the claim. */
  lemma FromScan(s: State, q: Pid, keep: TicketId) returns (es: seq<Action>)
    requires At(s, q).Scan? && CanLand(s.tickets, At(s, q)) && Fits(s.tickets, At(s, q))
    requires forall x :: x in At(s, q).todo && x in s.tickets ==> !HeldBy(s.tickets[x], At(s, q).e.to)
    requires keep in s.tickets && keep != At(s, q).e.tid && keep !in LoadedDeps(At(s, q))
    ensures EndsClaimed(s, es, At(s, q).e.tid, At(s, q).e.to, keep)
  {
    es := ScanAll(s, q);
    RunSnoc(s, es, Clear(q));
    es := es + [Clear(q)];
    var rest := FromCleared(Run(s, es), q, keep);
    EndsLater(s, es, rest, At(s, q).e.tid, At(s, q).e.to, keep);
    es := es + rest;
  }

  lemma PassedClaims(s: State, q: Pid, tid: TicketId, a: Agent) returns (es: seq<Action>)
    requires q in s.procs && Passed(s.procs[q], tid, a) && tid in s.tickets && tid !in LoadedDeps(s.procs[q])
    requires CanLand(s.tickets, s.procs[q]) && Fits(s.tickets, s.procs[q])
    requires NothingElse(s.tickets, a, tid, {})
    ensures EndsClaimed(s, es, s.procs[q].e.tid, a, tid)
  {
    match s.procs[q]
    case Scan(_, _) => es := FromScan(s, q, tid);
    case Cleared(_) => es := FromCleared(s, q, tid);
    case Locked(_) => es := FromLocked(s, q, tid);
    case Saving(_, _) => es := FromSaving(s, q, tid);
  }

  lemma UnsafeResaveBreaks(s: State, p: Pid)
    requires HoldInv(s) && Enabled(s, Resave(p)) && !ResaveSafe(s, At(s, p).tid, At(s, p).image)
    ensures !StaysOneActive(Next(s, Resave(p)))
  {
    var tid, image := At(s, p).tid, At(s, p).image;
    var n := Next(s, Resave(p));
    assert n.tickets == s.tickets[tid := image] && HeldBy(n.tickets[tid], image.owner);
    if x :| x in s.tickets && x != tid && HeldBy(s.tickets[x], image.owner) {
      assert HeldBy(n.tickets[x], n.tickets[tid].owner);
      assert ValidRun(n, []) && GuardedRun(n, []) && !OneActive(Run(n, []).tickets);
    } else {
      var q :| q in s.procs && Passed(s.procs[q], tid, image.owner) && CanLand(s.tickets, s.procs[q])
               && tid !in LoadedDeps(s.procs[q]);
      DeadStaysDead(s, Resave(p), s.procs[q]);
      assert n.procs[q] == s.procs[q] && CanLand(n.tickets, n.procs[q]);
      var es := PassedClaims(n, q, tid, image.owner);
      NoResaveIsGuarded(n, es);
      var end := Run(n, es).tickets;
      assert HeldBy(end[n.procs[q].e.tid], image.owner) && end[tid] == n.tickets[tid];
      assert !OneActive(end);
    }
  }

  lemma SafeResaveKeeps(s: State, p: Pid)
    requires HoldInv(s) && Enabled(s, Resave(p)) && ResaveSafe(s, At(s, p).tid, At(s, p).image)
    ensures StaysOneActive(Next(s, Resave(p)))
  {
    HoldInvKept(s, Resave(p));
    var n := Next(s, Resave(p));
    forall es | ValidRun(n, es) && GuardedRun(n, es) ensures OneActive(Run(n, es).tickets) {
      HoldInvRun(n, es);
    }
  }

  /** In every state such a run can reach: writing the copy back keeps everybody to one claimed ticket for good exactly
      when the guard holds at that moment. */
  lemma ResaveSafeIff(start: State, es: seq<Action>, p: Pid)
    requires start.procs == map[] && OneActive(start.tickets) && ValidRun(start, es) && GuardedRun(start, es)
    requires Enabled(Run(start, es), Resave(p))
    ensures var s := Run(start, es);
      StaysOneActive(Next(s, Resave(p))) <==> ResaveSafe(s, At(s, p).tid, At(s, p).image)
  {
    HoldInvRun(start, es);
    var s := Run(start, es);
    if ResaveSafe(s, At(s, p).tid, At(s, p).image) {
      SafeResaveKeeps(s, p);
    } else {
      UnsafeResaveBreaks(s, p);
    }
  }

  // ---- how the unguarded re-save of an assignment goes wrong ----

  /** An agent that holds nothing, and whose lock is free, can claim an open ticket that has no claim lock and whose
      predecessors are released. */
  lemma ClaimRun(s: State, p: Pid, tid: TicketId, to: Agent, resave: bool) returns (es: seq<Action>)
    requires At(s, p).Idle? && tid in s.tickets && s.tickets[tid].status == Open && tid !in s.locks && to != ""
    requires AgentFree(s, to) && NothingElse(s.tickets, to, tid, {}) && Ready(s, s.tickets[tid])
    ensures var image := ClaimOf(s.tickets[tid], to);
      && ValidRun(s, es)
      && Run(s, es) == State(s.tickets[tid := image], s.locks + {tid}, s.verdicts,
                             s.procs[p := if resave then Resaving(tid, image) else Idle])
  {
    es := StartClaiming(s, p, tid, to, resave);
    es := ScanThrough(s, p, es, Claiming(tid, to, resave));
    var rest := FinishClaim(Run(s, es), p);
    RunConcat(s, es, rest);
    es := es + rest;
  }

  lemma StartClaiming(s: State, p: Pid, tid: TicketId, to: Agent, resave: bool) returns (es: seq<Action>)
    requires At(s, p).Idle? && tid in s.tickets && to != "" && AgentFree(s, to)
    ensures ValidRun(s, es) && Run(s, es) == Go(s, p, Scan(Claiming(tid, to, resave), s.tickets.Keys - {tid}))
    ensures es != [] && es[0] == StartClaim(p, tid, to, resave)
  {
    RunSnoc(s, [], StartClaim(p, tid, to, resave));
    es := [] + [StartClaim(p, tid, to, resave)];
    RunSnoc(s, es, TakeAgent(p));
    es := es + [TakeAgent(p)];
    RunSnoc(s, es, List(p));
    es := es + [List(p)];
  }

  /** With the listing read, an agent that holds nothing else gets through the whole scan. */
  lemma ScanThrough(s: State, p: Pid, begun: seq<Action>, e: Errand) returns (es: seq<Action>)
    requires ValidRun(s, begun) && Run(s, begun) == Go(s, p, Scan(e, s.tickets.Keys - {e.tid})) && begun != []
    requires NothingElse(s.tickets, e.to, e.tid, {})
    ensures ValidRun(s, es) && Run(s, es) == Go(s, p, Scan(e, {})) && es != [] && es[0] == begun[0]
  {
    var looks := ScanAll(Run(s, begun), p);
    RunConcat(s, begun, looks);
    es := begun + looks;
  }

  lemma TakeClaimLock(s: State, p: Pid) returns (es: seq<Action>)
    requires At(s, p).Scan? && At(s, p).todo == {} && At(s, p).e.Claiming? && At(s, p).e.tid !in s.locks
    ensures ValidRun(s, es)
    ensures Run(s, es) == Go(s, p, Locked(At(s, p).e)).(locks := s.locks + {At(s, p).e.tid})
  {
    RunSnoc(s, [], Clear(p));
    es := [] + [Clear(p)];
    RunSnoc(s, es, Excl(p));
    es := es + [Excl(p)];
  }

  lemma FinishClaim(s: State, p: Pid) returns (es: seq<Action>)
    requires At(s, p).Scan? && At(s, p).todo == {} && At(s, p).e.Claiming?
    requires var tid := At(s, p).e.tid;
      tid in s.tickets && s.tickets[tid].status == Open && tid !in s.locks && Ready(s, s.tickets[tid])
    ensures var e := At(s, p).e; var image := ClaimOf(s.tickets[e.tid], e.to);
      && ValidRun(s, es)
      && Run(s, es) == State(s.tickets[e.tid := image], s.locks + {e.tid}, s.verdicts,
                             s.procs[p := if e.resave then Resaving(e.tid, image) else Idle])
  {
    es := TakeClaimLock(s, p);
    RunSnoc(s, es, LoadOpen(p));
    es := es + [LoadOpen(p)];
    RunSnoc(s, es, Save(p));
    es := es + [Save(p)];
  }

  /** A claim of a ticket that is not open, or not ready, gives the claim lock back and changes nothing. */
  lemma RefusedClaimRun(s: State, p: Pid, tid: TicketId, to: Agent, resave: bool) returns (es: seq<Action>)
    requires At(s, p).Idle? && tid in s.tickets && tid !in s.locks && to != ""
    requires AgentFree(s, to) && NothingElse(s.tickets, to, tid, {})
    requires s.tickets[tid].status != Open
             || exists d :: d in s.tickets[tid].deps
                            && !(d in s.tickets && s.tickets[d].status == Done && d in s.verdicts)
    ensures ValidRun(s, es) && Run(s, es) == s.(procs := s.procs[p := Idle])
    ensures es != [] && es[0] == StartClaim(p, tid, to, resave) && LoadOpen(p) in es
  {
    es := StartClaiming(s, p, tid, to, resave);
    es := ScanThrough(s, p, es, Claiming(tid, to, resave));
    var rest := RefuseClaim(Run(s, es), p);
    RunConcat(s, es, rest);
    es := es + rest;
  }

  lemma RefuseClaim(s: State, p: Pid) returns (es: seq<Action>)
    requires At(s, p).Scan? && At(s, p).todo == {} && At(s, p).e.Claiming? && At(s, p).e.tid !in s.locks
    requires At(s, p).e.tid in s.tickets
    requires s.tickets[At(s, p).e.tid].status != Open || !Ready(s, s.tickets[At(s, p).e.tid])
    ensures ValidRun(s, es) && Run(s, es) == Go(s, p, Idle) && LoadOpen(p) in es
  {
    es := TakeClaimLock(s, p);
    RunSnoc(s, es, LoadOpen(p));
    es := es + [LoadOpen(p)];
    assert s.locks + {At(s, p).e.tid} - {At(s, p).e.tid} == s.locks;
  }

  /** A ticket refused for its predecessors is not lost: once they are released the same agent can claim it. */
  lemma RefusedThenClaimed(s: State, p: Pid, tid: TicketId, to: Agent) returns (es: seq<Action>)
    requires At(s, p).Idle? && tid in s.tickets && s.tickets[tid].status == Open && tid !in s.locks && to != ""
    requires AgentFree(s, to) && NothingElse(s.tickets, to, tid, {}) && tid !in s.tickets[tid].deps
    requires !Ready(s, s.tickets[tid])
    ensures ValidRun(s, es)
    ensures var t := Run(s, es).tickets;
      && tid in t && t[tid] == Slip(Claimed, to, s.tickets[tid].gen + 1, s.tickets[tid].deps)
      && tid in Run(s, es).locks
  {
    var refused := RefusedClaimRun(s, p, tid, to, false);
    var n := Run(s, refused);
    var work := FinishAll(n, s.tickets[tid].deps, tid);
    var m := Run(n, work);
    RunConcat(s, refused, work);
    var claim := ClaimRun(m, p, tid, to, false);
    RunConcat(s, refused + work, claim);
    es := refused + work + claim;
  }

  lemma StartMoving(s: State, p: Pid, tid: TicketId, to: Agent) returns (es: seq<Action>)
    requires Enabled(s, StartMove(p, tid, to)) && AgentFree(s, to)
    ensures ValidRun(s, es)
    ensures Run(s, es) == Go(s, p, Scan(MoveErrand(tid, s.tickets[tid], to), s.tickets.Keys - {tid}))
    ensures es != [] && es[0] == StartMove(p, tid, to)
  {
    RunSnoc(s, [], StartMove(p, tid, to));
    es := [] + [StartMove(p, tid, to)];
    RunSnoc(s, es, TakeAgent(p));
    es := es + [TakeAgent(p)];
    RunSnoc(s, es, List(p));
    es := es + [List(p)];
  }

  lemma FinishMove(s: State, p: Pid) returns (es: seq<Action>)
    requires At(s, p).Scan? && At(s, p).todo == {} && At(s, p).e.Moving?
    ensures var e := At(s, p).e;
      ValidRun(s, es) && Run(s, es) == Go(s, p, Idle).(tickets := Publish(s, e.tid, e.image, e.expected))
  {
    RunSnoc(s, [], Clear(p));
    es := [] + [Clear(p)];
    RunSnoc(s, es, SaveMove(p));
    es := es + [SaveMove(p)];
  }

  lemma MoveLands(s: State, tid: TicketId, to: Agent)
    requires tid in s.tickets && Ready(s, s.tickets[tid])
    ensures var t := s.tickets[tid]; var e := MoveErrand(tid, t, to);
      Publish(s, tid, e.image, e.expected)
      == s.tickets[tid := Slip(Claimed, to, if t.owner == "" || t.owner == to then t.gen else t.gen + 1, t.deps)]
  {}

  /** An agent that holds nothing else, and whose lock is free, can be assigned work in review or claimed by another if
      its predecessors are released: it is claimed then, under a new generation if it was somebody else's. */
  lemma AssignRun(s: State, p: Pid, tid: TicketId, to: Agent) returns (es: seq<Action>)
    requires At(s, p).Idle? && tid in s.tickets && to != ""
    requires s.tickets[tid].status == Review || (s.tickets[tid].status == Claimed && s.tickets[tid].owner != to)
    requires AgentFree(s, to) && NothingElse(s.tickets, to, tid, {}) && Ready(s, s.tickets[tid])
    ensures var t := s.tickets[tid];
      var gen := if t.owner == "" || t.owner == to then t.gen else t.gen + 1;
      && ValidRun(s, es) && es != [] && es[0] == StartMove(p, tid, to)
      && Run(s, es) == State(s.tickets[tid := Slip(Claimed, to, gen, t.deps)], s.locks, s.verdicts, s.procs[p := Idle])
  {
    es := StartMoving(s, p, tid, to);
    es := ScanThrough(s, p, es, MoveErrand(tid, s.tickets[tid], to));
    MoveLands(Run(s, es), tid, to);
    var rest := FinishMove(Run(s, es), p);
    RunConcat(s, es, rest);
    es := es + rest;
  }

  /** An agent that holds other work is given neither: claim and assignment both end where they began. */
  lemma BusyIsRefused(s: State, p: Pid, first: Action, other: TicketId) returns (es: seq<Action>)
    requires (first.StartClaim? || first.StartMove?) && first.p == p && Enabled(s, first) && AgentFree(s, first.to)
    requires other in s.tickets && other != first.tid
    requires s.tickets[other].status == Claimed && s.tickets[other].owner == first.to
    ensures ValidRun(s, es) && es != [] && es[0] == first && Run(s, es) == s.(procs := s.procs[p := Idle])
  {
    if first.StartClaim? {
      es := StartClaiming(s, p, first.tid, first.to, first.resave);
    } else {
      es := StartMoving(s, p, first.tid, first.to);
    }
    RunSnoc(s, es, Look(p, other));
    es := es + [Look(p, other)];
  }

  /** A copy written back without the hold lock replaces the ticket iff the ticket is not newer and the copy claims
      nothing and names no new owner, or all its predecessors are released; nothing else changes. */
  lemma ResaveLandsIff(s: State, p: Pid)
    requires At(s, p).Resaving? && At(s, p).tid in s.tickets
    ensures var tid, image := At(s, p).tid, At(s, p).image; var t := s.tickets[tid];
      var allowed := (image.status != Claimed && (image.owner == "" || image.owner == t.owner))
        || forall d :: d in image.deps ==> d in s.tickets && s.tickets[d].status == Done && d in s.verdicts;
      Enabled(s, Resave(p)) &&
      Next(s, Resave(p))
      == State(if allowed && t.gen <= image.gen then s.tickets[tid := image] else s.tickets, s.locks, s.verdicts,
               s.procs[p := Idle])
  {
    assert Ready(s, At(s, p).image) <==> forall d :: d in At(s, p).image.deps ==> Released(s, d);
  }

  /** What is done does not stop releasing. */
  lemma ReadyStays(s: State, n: State, image: Slip)
    requires Ready(s, image) && n.verdicts == s.verdicts
    requires forall d :: d in s.tickets && s.tickets[d].status == Done ==>
      d in n.tickets && n.tickets[d] == s.tickets[d]
    ensures Ready(n, image)
  {
    forall d | d in image.deps ensures Released(n, d) {
      assert Released(s, d);
    }
  }

  /** An assignment claims a ticket and is delayed, and the agent sends the ticket to review. */
  lemma ClaimThenReview(s: State, x: TicketId, a: Agent) returns (es: seq<Action>)
    requires s.procs == map[] && x in s.tickets && s.tickets[x].status == Open && x !in s.locks && a != ""
    requires Ready(s, s.tickets[x]) && forall t :: t in s.tickets ==> !HeldBy(s.tickets[t], a)
    ensures var image := ClaimOf(s.tickets[x], a);
      && ValidRun(s, es)
      && Run(s, es) == State(s.tickets[x := image.(status := Review)], s.locks + {x}, s.verdicts,
                             map[0 := Resaving(x, image)])
  {
    es := ClaimRun(s, 0, x, a, true);
    RunSnoc(s, es, Release(x, Review));
    es := es + [Release(x, Review)];
  }

  /** On any quiet board with two open tickets whose predecessors are released, an agent who holds nothing can end up
      holding both: an assignment claims the first and is delayed, the agent sends it to review and claims the second,
      and the delayed assignment writes its copy of the first back. */
  lemma DelayedAssignmentMakesSecondHold(s: State, x: TicketId, y: TicketId, a: Agent) returns (es: seq<Action>)
    requires s.procs == map[] && OneActive(s.tickets) && a != "" && x != y
    requires x in s.tickets && y in s.tickets && s.tickets[x].status == Open && s.tickets[y].status == Open
    requires x !in s.locks && y !in s.locks && Ready(s, s.tickets[x]) && Ready(s, s.tickets[y])
    requires forall t :: t in s.tickets ==> !HeldBy(s.tickets[t], a)
    ensures ValidRun(s, es) && x in Run(s, es).tickets && y in Run(s, es).tickets
    ensures HeldBy(Run(s, es).tickets[x], a) && HeldBy(Run(s, es).tickets[y], a)
  {
    var image := ClaimOf(s.tickets[x], a);
    es := ClaimThenReview(s, x, a);
    var n := Run(s, es);
    ReadyStays(s, n, s.tickets[y]);
    var more := ClaimRun(n, 1, y, a, false);
    RunConcat(s, es, more);
    es := es + more;
    var m := Run(s, es);
    ReadyStays(s, m, image);
    assert At(m, 0) == Resaving(x, image) && Lands(m, x, image, None);
    RunSnoc(s, es, Resave(0));
    es := es + [Resave(0)];
  }

  // ---- claims of one ticket ----

  /** Inside the part of a claim that owns the ticket's claim lock. */
  predicate Winning(pr: Proc, t: TicketId) {
    (pr.Locked? || pr.Saving?) && pr.e.tid == t
  }

  predicate Wins(s: State, a: Action, t: TicketId) {
    a.Save? && At(s, a.p).Saving? && At(s, a.p).e.tid == t
    && Lands(s, t, ClaimOf(At(s, a.p).image, At(s, a.p).e.to), None)
  }

  ghost function Claims(s: State, es: seq<Action>, t: TicketId): nat
    requires ValidRun(s, es)
    decreases |es|
  {
    if es == [] then 0 else (if Wins(s, es[0], t) then 1 else 0) + Claims(Next(s, es[0]), es[1..], t)
  }

  /** The claim lock belongs to one claimant, or to nobody any more once it was won. */
  ghost predicate ClaimInv(s: State, t: TicketId, won: bool) {
    && (forall p :: p in s.procs && Winning(s.procs[p], t) ==> t in s.locks && !won)
    && (forall p, q :: p in s.procs && q in s.procs && p != q && Winning(s.procs[p], t) ==> !Winning(s.procs[q], t))
    && (won ==> t in s.locks)
  }

  lemma ClaimInvKept(s: State, a: Action, t: TicketId, won: bool)
    requires ClaimInv(s, t, won) && Enabled(s, a) && a != Reopen(t)
    ensures Wins(s, a, t) ==> !won
    ensures ClaimInv(Next(s, a), t, won || Wins(s, a, t))
  {
    OnlyMoverMoves(s, a);
    if Mover(a).Some? {
      var p := Mover(a).value;
      var n := Next(s, a);
      assert p in s.procs && Winning(s.procs[p], t) ==> t in s.locks && !won;
      assert Winning(At(n, p), t) ==> Winning(At(s, p), t) || t !in s.locks;
      assert t in s.locks && t !in n.locks ==> Winning(At(s, p), t) && !Winning(At(n, p), t);
    }
  }

  lemma {:induction false} ClaimInvRun(s: State, es: seq<Action>, t: TicketId, won: bool)
    requires ClaimInv(s, t, won) && ValidRun(s, es) && Reopen(t) !in es
    ensures Claims(s, es, t) + (if won then 1 else 0) <= 1
    decreases |es|
  {
    if es != [] {
      assert es[0] in es;
      ClaimInvKept(s, es[0], t, won);
      ClaimInvRun(Next(s, es[0]), es[1..], t, won || Wins(s, es[0], t));
    }
  }

  /** Any number of processes may try to claim a ticket nobody reopens: at most one claim of it succeeds. */
  lemma ClaimedAtMostOnce(s: State, es: seq<Action>, t: TicketId)
    requires s.procs == map[] && ValidRun(s, es) && Reopen(t) !in es
    ensures Claims(s, es, t) <= 1
  {
    ClaimInvRun(s, es, t, false);
  }
}
