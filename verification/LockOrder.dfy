/** The locks the board's commands take: what each command enters and leaves, in order, and why no run of them can end
    in processes waiting for each other in a circle.

    The dependency graph is fixed while the commands run. An operating-system lock entered again by its holder is never
    waited for. */
module LockOrder {
  import opened Wrappers
  import opened DependencyGraph
  import opened Sequences

  type Pid = nat

  datatype Lock = Agent(name: string) | Ticket(id: TicketId)

  datatype Instr = Enter(lock: Lock) | Leave

  // ---- what the commands do ----

  /** A save: the ticket's own section, and, if the ticket is released now, the reconciling of its successors. */
  datatype Save = Save(id: TicketId, successors: seq<Successor>)

  /** A successor is looked at under its lock, and saved there if it needs reconciling. */
  datatype Successor = Skipped(id: TicketId) | Reconciled(save: Save)

  /** A save by itself or wrapped in its ticket's section; an agent's hold lock, with nothing, a save or a wrapped save
      inside; a handover, which publishes inside the ticket's section without saving; one command after the other. */
  datatype Command =
    | Plain(save: Save)
    | Wrapped(save: Save)
    | Holding(agent: string, attempt: Option<Save>, wrapped: bool)
    | Handoff(id: TicketId)
    | Sequence(first: Command, second: Command)

  /** The successors of a save are tickets that wait for the saved one. */
  predicate ValidSave(deps: Graph, s: Save)
    decreases s
  {
    forall i :: 0 <= i < |s.successors| ==> ValidSuccessor(deps, s.id, s.successors[i])
  }

  predicate ValidSuccessor(deps: Graph, id: TicketId, s: Successor)
    decreases s
  {
    match s
    case Skipped(c) => Edge(deps, c, id)
    case Reconciled(save) => Edge(deps, save.id, id) && ValidSave(deps, save)
  }

  predicate ValidCommand(deps: Graph, c: Command) {
    match c
    case Plain(save) => ValidSave(deps, save)
    case Wrapped(save) => ValidSave(deps, save)
    case Holding(_, attempt, _) => attempt.Some? ==> ValidSave(deps, attempt.value)
    case Handoff(_) => true
    case Sequence(first, second) => ValidCommand(deps, first) && ValidCommand(deps, second)
  }

  /** The section of the saved ticket is left before its successors are reconciled. */
  function SaveTrace(s: Save): seq<Instr> {
    Section(Ticket(s.id), []) + SuccessorsTrace(s.successors)
  }

  function SuccessorsTrace(ss: seq<Successor>): seq<Instr> {
    if ss == [] then [] else SuccessorTrace(ss[0]) + SuccessorsTrace(ss[1..])
  }

  /** A successor is saved inside its own section, so its save enters the same lock again. */
  function SuccessorTrace(s: Successor): seq<Instr> {
    match s
    case Skipped(id) => Section(Ticket(id), [])
    case Reconciled(save) => Section(Ticket(save.id), SaveTrace(save))
  }

  function Section(lock: Lock, body: seq<Instr>): seq<Instr> {
    [Enter(lock)] + body + [Leave]
  }

  /** Claims and transfers save under the agent's hold lock; a transfer that relabels the claim lock wraps its save in
      the ticket's section. */
  function Held(attempt: Option<Save>, wrapped: bool): seq<Instr> {
    if attempt.None? then []
    else if wrapped then Section(Ticket(attempt.value.id), SaveTrace(attempt.value))
    else SaveTrace(attempt.value)
  }

  function Trace(c: Command): seq<Instr> {
    match c
    case Plain(save) => SaveTrace(save)
    case Wrapped(save) => Section(Ticket(save.id), SaveTrace(save))
    case Holding(agent, attempt, wrapped) => Section(Agent(agent), Held(attempt, wrapped))
    case Handoff(id) => Section(Ticket(id), [])
    case Sequence(first, second) => Trace(first) + Trace(second)
  }

  // ---- their acquisitions are in order ----

  /** With nothing held; or a ticket's lock directly inside an agent's, inside itself, or inside the lock of a ticket it
      waits for. */
  predicate InOrder(deps: Graph, stack: seq<Lock>, lock: Lock) {
    || stack == []
    || (lock.Ticket? && var top := stack[|stack| - 1];
        top.Agent? || top == lock || Edge(deps, lock.id, top.id))
  }

  /** Run from these open sections, the instructions enter locks in order and leave every section. */
  predicate Ordered(deps: Graph, stack: seq<Lock>, code: seq<Instr>)
    decreases |code|
  {
    if code == [] then stack == []
    else match code[0]
         case Enter(lock) => InOrder(deps, stack, lock) && Ordered(deps, stack + [lock], code[1..])
         case Leave => stack != [] && Ordered(deps, stack[..|stack| - 1], code[1..])
  }

  lemma EnterOrdered(deps: Graph, stack: seq<Lock>, lock: Lock, rest: seq<Instr>)
    requires InOrder(deps, stack, lock) && Ordered(deps, stack + [lock], rest)
    ensures Ordered(deps, stack, [Enter(lock)] + rest)
  {
    assert ([Enter(lock)] + rest)[1..] == rest;
  }

  lemma LeaveOrdered(deps: Graph, stack: seq<Lock>, lock: Lock, rest: seq<Instr>)
    requires Ordered(deps, stack, rest)
    ensures Ordered(deps, stack + [lock], [Leave] + rest)
  {
    assert ([Leave] + rest)[1..] == rest && (stack + [lock])[..|stack|] == stack;
  }

  lemma SectionOrdered(deps: Graph, stack: seq<Lock>, lock: Lock, body: seq<Instr>, rest: seq<Instr>)
    requires InOrder(deps, stack, lock) && Ordered(deps, stack + [lock], body + ([Leave] + rest))
    ensures Ordered(deps, stack, Section(lock, body) + rest)
  {
    EnterOrdered(deps, stack, lock, body + ([Leave] + rest));
    ConcatAssoc([Enter(lock)] + body, [Leave], rest);
    ConcatAssoc([Enter(lock)], body, [Leave] + rest);
  }

  lemma EmptySectionOrdered(deps: Graph, stack: seq<Lock>, lock: Lock, rest: seq<Instr>)
    requires InOrder(deps, stack, lock) && Ordered(deps, stack, rest)
    ensures Ordered(deps, stack, Section(lock, []) + rest)
  {
    LeaveOrdered(deps, stack, lock, rest);
    assert [] + ([Leave] + rest) == [Leave] + rest;
    SectionOrdered(deps, stack, lock, [], rest);
  }

  /** The sections in which a ticket may be saved: none, an agent's, or its own. */
  predicate SavesUnder(stack: seq<Lock>, id: TicketId) {
    stack == [] || stack[|stack| - 1].Agent? || stack[|stack| - 1] == Ticket(id)
  }

  lemma {:induction false} SaveOrdered(deps: Graph, stack: seq<Lock>, s: Save, rest: seq<Instr>)
    requires ValidSave(deps, s) && SavesUnder(stack, s.id) && Ordered(deps, stack, rest)
    ensures Ordered(deps, stack, SaveTrace(s) + rest)
    decreases s
  {
    SuccessorsOrdered(deps, stack, s.id, s.successors, rest);
    EmptySectionOrdered(deps, stack, Ticket(s.id), SuccessorsTrace(s.successors) + rest);
    ConcatAssoc(Section(Ticket(s.id), []), SuccessorsTrace(s.successors), rest);
  }

  lemma {:induction false} SuccessorsOrdered(deps: Graph, stack: seq<Lock>, id: TicketId, ss: seq<Successor>,
                                             rest: seq<Instr>)
    requires SavesUnder(stack, id) && Ordered(deps, stack, rest)
    requires forall i :: 0 <= i < |ss| ==> ValidSuccessor(deps, id, ss[i])
    ensures Ordered(deps, stack, SuccessorsTrace(ss) + rest)
    decreases ss
  {
    if ss == [] {
      assert SuccessorsTrace(ss) + rest == rest;
    } else {
      SuccessorsOrdered(deps, stack, id, ss[1..], rest);
      SuccessorOrdered(deps, stack, id, ss[0], SuccessorsTrace(ss[1..]) + rest);
      ConcatAssoc(SuccessorTrace(ss[0]), SuccessorsTrace(ss[1..]), rest);
    }
  }

  lemma {:induction false} SuccessorOrdered(deps: Graph, stack: seq<Lock>, id: TicketId, s: Successor,
                                            rest: seq<Instr>)
    requires SavesUnder(stack, id) && Ordered(deps, stack, rest) && ValidSuccessor(deps, id, s)
    ensures Ordered(deps, stack, SuccessorTrace(s) + rest)
    decreases s
  {
    match s
    case Skipped(c) => EmptySectionOrdered(deps, stack, Ticket(c), rest);
    case Reconciled(save) =>
      LeaveOrdered(deps, stack, Ticket(save.id), rest);
      SaveOrdered(deps, stack + [Ticket(save.id)], save, [Leave] + rest);
      SectionOrdered(deps, stack, Ticket(save.id), SaveTrace(save), rest);
  }

  /** A save wrapped in its ticket's own section. */
  lemma WrappedOrdered(deps: Graph, stack: seq<Lock>, s: Save, rest: seq<Instr>)
    requires ValidSave(deps, s) && (stack == [] || stack[|stack| - 1].Agent?) && Ordered(deps, stack, rest)
    ensures Ordered(deps, stack, Section(Ticket(s.id), SaveTrace(s)) + rest)
  {
    LeaveOrdered(deps, stack, Ticket(s.id), rest);
    SaveOrdered(deps, stack + [Ticket(s.id)], s, [Leave] + rest);
    SectionOrdered(deps, stack, Ticket(s.id), SaveTrace(s), rest);
  }

  /** What a claim or a transfer does inside the agent's hold lock. */
  lemma HeldOrdered(deps: Graph, stack: seq<Lock>, attempt: Option<Save>, wrapped: bool, rest: seq<Instr>)
    requires stack != [] && stack[|stack| - 1].Agent? && Ordered(deps, stack, rest)
    requires attempt.Some? ==> ValidSave(deps, attempt.value)
    ensures Ordered(deps, stack, Held(attempt, wrapped) + rest)
  {
    if attempt.None? {
      assert [] + rest == rest;
    } else if wrapped {
      WrappedOrdered(deps, stack, attempt.value, rest);
    } else {
      SaveOrdered(deps, stack, attempt.value, rest);
    }
  }

  /** Every command, started with nothing held, enters locks in order and leaves them all. */
  lemma {:induction false} CommandOrdered(deps: Graph, c: Command, rest: seq<Instr>)
    requires ValidCommand(deps, c) && Ordered(deps, [], rest)
    ensures Ordered(deps, [], Trace(c) + rest)
  {
    match c
    case Plain(save) => SaveOrdered(deps, [], save, rest);
    case Wrapped(save) => WrappedOrdered(deps, [], save, rest);
    case Holding(agent, attempt, wrapped) =>
      LeaveOrdered(deps, [], Agent(agent), rest);
      HeldOrdered(deps, [] + [Agent(agent)], attempt, wrapped, [Leave] + rest);
      SectionOrdered(deps, [], Agent(agent), Held(attempt, wrapped), rest);
    case Handoff(id) => EmptySectionOrdered(deps, [], Ticket(id), rest);
    case Sequence(first, second) =>
      CommandOrdered(deps, second, rest);
      CommandOrdered(deps, first, Trace(second) + rest);
      ConcatAssoc(Trace(first), Trace(second), rest);
  }

  // ---- any number of processes run commands ----

  /** Open sections, outermost first, and what is left to do. */
  datatype Proc = Proc(stack: seq<Lock>, code: seq<Instr>)

  type State = map<Pid, Proc>

  datatype Action = Start(p: Pid, command: Command) | Step(p: Pid) | Crash(p: Pid)

  const IDLE := Proc([], [])

  function At(s: State, p: Pid): Proc {
    if p in s then s[p] else IDLE
  }

  /** `p` is about to enter a lock that `q` is inside of. */
  predicate WaitsFor(s: State, p: Pid, q: Pid) {
    p in s && q in s && p != q && s[p].code != [] && s[p].code[0].Enter? && s[p].code[0].lock in s[q].stack
  }

  ghost predicate Blocked(s: State, p: Pid) {
    exists q :: WaitsFor(s, p, q)
  }

  ghost predicate Enabled(deps: Graph, s: State, a: Action) {
    match a
    case Start(p, command) => At(s, p) == IDLE && ValidCommand(deps, command)
    case Step(p) => At(s, p).code != [] && !Blocked(s, p)
    case Crash(p) => true
  }

  function Next(s: State, a: Action): State {
    var pr := At(s, a.p);
    match a
    case Start(p, command) => s[p := Proc([], Trace(command))]
    case Step(p) =>
      if pr.code == [] then s
      else if pr.code[0].Enter? then s[p := Proc(pr.stack + [pr.code[0].lock], pr.code[1..])]
      else s[p := Proc(if pr.stack == [] then [] else pr.stack[..|pr.stack| - 1], pr.code[1..])]
    case Crash(p) => s[p := IDLE]
  }

  ghost predicate ValidRun(deps: Graph, s: State, es: seq<Action>)
    decreases |es|
  {
    es == [] || (Enabled(deps, s, es[0]) && ValidRun(deps, Next(s, es[0]), es[1..]))
  }

  function Run(s: State, es: seq<Action>): State
    decreases |es|
  {
    if es == [] then s else Run(Next(s, es[0]), es[1..])
  }

  // ---- levels ----

  /** Agent locks below all ticket locks, tickets above what they wait for. */
  function Level(rank: map<TicketId, nat>, lock: Lock): nat {
    if lock.Agent? then 0 else if lock.id in rank then 1 + rank[lock.id] else 1
  }

  /** Entries go up, repeating a ticket's lock at most next to itself. */
  predicate Rising(rank: map<TicketId, nat>, stack: seq<Lock>, lock: Lock) {
    stack == []
    || (var top := stack[|stack| - 1];
        (top == lock && lock.Ticket?) || Level(rank, top) < Level(rank, lock))
  }

  predicate Ascending(rank: map<TicketId, nat>, stack: seq<Lock>) {
    stack == [] || (Ascending(rank, stack[..|stack| - 1]) && Rising(rank, stack[..|stack| - 1], stack[|stack| - 1]))
  }

  ghost predicate Inv(deps: Graph, rank: map<TicketId, nat>, s: State) {
    && (forall p :: p in s ==> Ascending(rank, s[p].stack))
    && (forall p :: p in s ==> Ordered(deps, s[p].stack, s[p].code))
    && (forall p, q, l :: p in s && q in s && p != q && l in s[p].stack ==> l !in s[q].stack)
  }

  lemma InOrderRises(deps: Graph, rank: map<TicketId, nat>, stack: seq<Lock>, lock: Lock)
    requires Ranked(deps, rank) && InOrder(deps, stack, lock)
    ensures Rising(rank, stack, lock)
  {}

  /** Nothing in an ascending stack is above its top. */
  lemma {:induction false} BelowTop(rank: map<TicketId, nat>, stack: seq<Lock>, k: nat)
    requires k < |stack| && Ascending(rank, stack)
    ensures Level(rank, stack[k]) <= Level(rank, stack[|stack| - 1])
    decreases |stack|
  {
    if k < |stack| - 1 {
      BelowTop(rank, stack[..|stack| - 1], k);
    }
  }

  /** A blocked process wants something above everything it holds. */
  lemma WantsHigher(deps: Graph, rank: map<TicketId, nat>, s: State, p: Pid, q: Pid, l: Lock)
    requires Ranked(deps, rank) && Inv(deps, rank, s) && WaitsFor(s, p, q) && l in s[p].stack
    ensures Level(rank, l) < Level(rank, s[p].code[0].lock)
  {
    var k :| 0 <= k < |s[p].stack| && s[p].stack[k] == l;
    BelowTop(rank, s[p].stack, k);
    InOrderRises(deps, rank, s[p].stack, s[p].code[0].lock);
    assert s[p].code[0].lock !in s[p].stack;
  }

  lemma StepOrdered(deps: Graph, rank: map<TicketId, nat>, s: State, p: Pid)
    requires Ranked(deps, rank) && Inv(deps, rank, s) && Enabled(deps, s, Step(p))
    ensures var n := Next(s, Step(p))[p]; Ascending(rank, n.stack) && Ordered(deps, n.stack, n.code)
  {
    var pr := s[p];
    var n := Next(s, Step(p))[p];
    if pr.code[0].Enter? {
      InOrderRises(deps, rank, pr.stack, pr.code[0].lock);
      assert n.stack[..|n.stack| - 1] == pr.stack;
    }
  }

  lemma StepExclusive(deps: Graph, rank: map<TicketId, nat>, s: State, p: Pid, q: Pid, l: Lock)
    requires Inv(deps, rank, s) && Enabled(deps, s, Step(p)) && q in s && q != p
    requires l in Next(s, Step(p))[p].stack
    ensures l !in s[q].stack
  {
    assert !WaitsFor(s, p, q);
  }

  lemma InvWith(deps: Graph, rank: map<TicketId, nat>, s: State, p: Pid, n: Proc)
    requires Inv(deps, rank, s) && Ascending(rank, n.stack) && Ordered(deps, n.stack, n.code)
    requires forall q, l :: q in s && q != p && l in n.stack ==> l !in s[q].stack
    ensures Inv(deps, rank, s[p := n])
  {}

  lemma CommandStarts(deps: Graph, c: Command)
    requires ValidCommand(deps, c)
    ensures Ordered(deps, [], Trace(c))
  {
    CommandOrdered(deps, c, []);
    assert Trace(c) + [] == Trace(c);
  }

  lemma InvKept(deps: Graph, rank: map<TicketId, nat>, s: State, a: Action)
    requires Ranked(deps, rank) && Inv(deps, rank, s) && Enabled(deps, s, a)
    ensures Inv(deps, rank, Next(s, a))
  {
    match a
    case Start(p, command) =>
      CommandStarts(deps, command);
      InvWith(deps, rank, s, p, Proc([], Trace(command)));
    case Step(p) =>
      StepOrdered(deps, rank, s, p);
      var n := Next(s, a)[p];
      forall q, l | q in s && q != p && l in n.stack ensures l !in s[q].stack {
        StepExclusive(deps, rank, s, p, q, l);
      }
      InvWith(deps, rank, s, p, n);
    case Crash(p) => InvWith(deps, rank, s, p, IDLE);
  }

  lemma {:induction false} InvRun(deps: Graph, rank: map<TicketId, nat>, s: State, es: seq<Action>)
    requires Ranked(deps, rank) && Inv(deps, rank, s) && ValidRun(deps, s, es)
    ensures Inv(deps, rank, Run(s, es))
    decreases |es|
  {
    if es != [] {
      InvKept(deps, rank, s, es[0]);
      InvRun(deps, rank, Next(s, es[0]), es[1..]);
    }
  }

  // ---- waiting ----

  ghost predicate WaitChain(s: State, ps: seq<Pid>) {
    forall i :: 0 <= i < |ps| - 1 ==> WaitsFor(s, ps[i], ps[i + 1])
  }

  function Wanted(s: State, p: Pid): Lock
    requires p in s && s[p].code != [] && s[p].code[0].Enter?
  {
    s[p].code[0].lock
  }

  lemma {:induction false} ChainRises(deps: Graph, rank: map<TicketId, nat>, s: State, ps: seq<Pid>)
    requires Ranked(deps, rank) && Inv(deps, rank, s) && WaitChain(s, ps) && |ps| >= 3
    ensures WaitsFor(s, ps[0], ps[1]) && WaitsFor(s, ps[|ps| - 2], ps[|ps| - 1])
    ensures Level(rank, Wanted(s, ps[0])) < Level(rank, Wanted(s, ps[|ps| - 2]))
    decreases |ps|
  {
    var rest := ps[1..];
    assert WaitsFor(s, ps[0], ps[1]) && WaitsFor(s, ps[1], ps[2]);
    WantsHigher(deps, rank, s, ps[1], ps[2], Wanted(s, ps[0]));
    if |ps| > 3 {
      assert WaitChain(s, rest) by {
        forall i | 0 <= i < |rest| - 1 ensures WaitsFor(s, rest[i], rest[i + 1]) {
          assert WaitsFor(s, ps[i + 1], ps[i + 2]);
        }
      }
      ChainRises(deps, rank, s, rest);
      assert rest[|rest| - 2] == ps[|ps| - 2] && rest[|rest| - 1] == ps[|ps| - 1];
    }
  }

  lemma StartOrdered(deps: Graph, rank: map<TicketId, nat>)
    ensures Inv(deps, rank, map[])
  {}

  /** On an acyclic board no run of the commands ends in processes waiting for each other in a circle. */
  lemma NoDeadlock(deps: Graph, es: seq<Action>, ps: seq<Pid>)
    requires Acyclic(deps) && ValidRun(deps, map[], es) && |ps| >= 2 && ps[0] == ps[|ps| - 1]
    ensures !WaitChain(Run(map[], es), ps)
  {
    var rank := AcyclicHasRank(deps);
    StartOrdered(deps, rank);
    InvRun(deps, rank, map[], es);
    var s := Run(map[], es);
    if WaitChain(s, ps) {
      assert WaitsFor(s, ps[0], ps[1]);
      var more := ps + [ps[1]];
      assert WaitChain(s, more) by {
        forall i | 0 <= i < |more| - 1 ensures WaitsFor(s, more[i], more[i + 1]) {
          assert i < |ps| - 1 ==> WaitsFor(s, ps[i], ps[i + 1]);
        }
      }
      ChainRises(deps, rank, s, more);
    }
  }

  /** Following the waits from a blocked process ends, within the levels above it, at a process that can go on. */
  lemma {:induction false} FollowWaits(deps: Graph, rank: map<TicketId, nat>, s: State, p: Pid, top: nat)
    returns (q: Pid)
    requires Ranked(deps, rank) && Inv(deps, rank, s) && Blocked(s, p)
    requires forall r :: r in s && s[r].code != [] && s[r].code[0].Enter? ==> Level(rank, Wanted(s, r)) <= top
    ensures q in s && s[q].stack != [] && !Blocked(s, q)
    decreases top - Level(rank, Wanted(s, p))
  {
    q :| WaitsFor(s, p, q);
    if Blocked(s, q) {
      var r :| WaitsFor(s, q, r);
      WantsHigher(deps, rank, s, q, r, Wanted(s, p));
      q := FollowWaits(deps, rank, s, q, top);
    }
  }

  lemma {:induction false} HighestWant(rank: map<TicketId, nat>, s: State, ps: set<Pid>) returns (top: nat)
    ensures forall r :: r in ps && r in s && s[r].code != [] && s[r].code[0].Enter? ==> Level(rank, Wanted(s, r)) <= top
    decreases ps
  {
    top := 0;
    if ps != {} {
      var p :| p in ps;
      var rest := HighestWant(rank, s, ps - {p});
      top := if p in s && s[p].code != [] && s[p].code[0].Enter? && rest < Level(rank, Wanted(s, p))
             then Level(rank, Wanted(s, p)) else rest;
      assert forall r :: r in ps ==> r == p || r in ps - {p};
    }
  }

  /** Whenever a process waits, some process inside a lock can take its next step. */
  lemma SomebodyMoves(deps: Graph, es: seq<Action>, p: Pid) returns (q: Pid)
    requires Acyclic(deps) && ValidRun(deps, map[], es) && Blocked(Run(map[], es), p)
    ensures var s := Run(map[], es); At(s, q).stack != [] && Enabled(deps, s, Step(q))
  {
    var rank := AcyclicHasRank(deps);
    StartOrdered(deps, rank);
    InvRun(deps, rank, map[], es);
    var s := Run(map[], es);
    var top := HighestWant(rank, s, s.Keys);
    q := FollowWaits(deps, rank, s, p, top);
    assert Ordered(deps, s[q].stack, s[q].code);
  }

  // ---- cyclic dependencies ----

  lemma {:induction false} RunSnoc(deps: Graph, s: State, es: seq<Action>, a: Action)
    requires ValidRun(deps, s, es) && Enabled(deps, Run(s, es), a)
    ensures ValidRun(deps, s, es + [a]) && Run(s, es + [a]) == Next(Run(s, es), a)
    decreases |es|
  {
    if es == [] {
      assert es + [a] == [a] && [a][1..] == [];
    } else {
      assert (es + [a])[1..] == es[1..] + [a];
      RunSnoc(deps, Next(s, es[0]), es[1..], a);
    }
  }

  /** A wrapped save whose ticket is released, with one successor to look at. */
  function SaveAndLook(a: TicketId, b: TicketId): Command {
    Wrapped(Save(a, [Skipped(b)]))
  }

  function ToLook(b: TicketId): seq<Instr> {
    [Enter(Ticket(b)), Leave, Leave]
  }

  lemma SaveAndLookTrace(a: TicketId, b: TicketId)
    ensures Trace(SaveAndLook(a, b)) == [Enter(Ticket(a)), Enter(Ticket(a)), Leave] + ToLook(b)
  {
    var one := [Skipped(b)];
    assert one[1..] == [];
    assert SuccessorsTrace(one) == Section(Ticket(b), []);
  }

  /** The state with `p` inside these sections and about to run this code. */
  function Saving(s: State, p: Pid, stack: seq<Lock>, code: seq<Instr>): State {
    s[p := Proc(stack, code)]
  }

  lemma StepEnters(s: State, p: Pid, stack: seq<Lock>, lock: Lock, rest: seq<Instr>)
    ensures Next(Saving(s, p, stack, [Enter(lock)] + rest), Step(p)) == Saving(s, p, stack + [lock], rest)
  {
    assert ([Enter(lock)] + rest)[1..] == rest;
  }

  lemma StepLeaves(s: State, p: Pid, stack: seq<Lock>, lock: Lock, rest: seq<Instr>)
    ensures Next(Saving(s, p, stack + [lock], [Leave] + rest), Step(p)) == Saving(s, p, stack, rest)
  {
    assert ([Leave] + rest)[1..] == rest && (stack + [lock])[..|stack|] == stack;
  }

  lemma NobodyBlocks(s: State, p: Pid, t: Lock, stack: seq<Lock>, code: seq<Instr>)
    requires forall q :: q in s && q != p ==> t !in s[q].stack
    requires code != [] && (code[0].Enter? ==> code[0].lock == t)
    ensures !Blocked(Saving(s, p, stack, code), p)
  {}

  /** The command runs until it is about to enter the successor's lock. */
  lemma RunToSuccessor(deps: Graph, es: seq<Action>, p: Pid, a: TicketId, b: TicketId) returns (fs: seq<Action>)
    requires Edge(deps, b, a) && ValidRun(deps, map[], es) && At(Run(map[], es), p) == IDLE
    requires forall q :: q in Run(map[], es) && q != p ==> Ticket(a) !in Run(map[], es)[q].stack
    ensures ValidRun(deps, map[], fs)
    ensures Run(map[], fs) == Saving(Run(map[], es), p, [Ticket(a)], ToLook(b))
  {
    var s, t := Run(map[], es), Ticket(a);
    var c2 := [Leave] + ToLook(b);
    var c1 := [Enter(t)] + c2;
    var c0 := [Enter(t)] + c1;
    SaveAndLookTrace(a, b);
    assert Trace(SaveAndLook(a, b)) == c0;
    assert ValidSuccessor(deps, a, Skipped(b));
    RunSnoc(deps, map[], es, Start(p, SaveAndLook(a, b)));
    fs := es + [Start(p, SaveAndLook(a, b))];
    assert Run(map[], fs) == Saving(s, p, [], c0) && [] + [t] == [t];
    fs := RunStep(deps, fs, p, t, s, [], c0);
    StepEnters(s, p, [], t, c1);
    fs := RunStep(deps, fs, p, t, s, [t], c1);
    StepEnters(s, p, [t], t, c2);
    fs := RunStep(deps, fs, p, t, s, [t] + [t], c2);
    StepLeaves(s, p, [t], t, ToLook(b));
  }

  lemma RunStep(deps: Graph, es: seq<Action>, p: Pid, t: Lock, s: State, stack: seq<Lock>, code: seq<Instr>)
    returns (fs: seq<Action>)
    requires ValidRun(deps, map[], es) && Run(map[], es) == Saving(s, p, stack, code)
    requires forall q :: q in s && q != p ==> t !in s[q].stack
    requires code != [] && (code[0].Enter? ==> code[0].lock == t)
    ensures ValidRun(deps, map[], fs) && Run(map[], fs) == Next(Saving(s, p, stack, code), Step(p))
  {
    NobodyBlocks(s, p, t, stack, code);
    RunSnoc(deps, map[], es, Step(p));
    fs := es + [Step(p)];
  }

  /** A cycle `c` of distinct tickets, the first repeated at the end: process `i` saves `c[i + 1]` in its section and is
      about to look at `c[i]`, which waits for it. */
  ghost predicate HoldUp(s: State, c: seq<TicketId>, k: nat)
    requires k < |c|
  {
    && (forall i: nat :: i < k ==> i in s && s[i] == Proc([Ticket(c[i + 1])], ToLook(c[i])))
    && (forall i :: i in s ==> i < k)
  }

  lemma {:induction false} HoldUpRun(deps: Graph, c: seq<TicketId>, k: nat) returns (es: seq<Action>)
    requires Walk(deps, c) && k < |c| && Distinct(c[1..])
    ensures ValidRun(deps, map[], es) && HoldUp(Run(map[], es), c, k)
    decreases k
  {
    if k == 0 {
      es := [];
    } else {
      var before := HoldUpRun(deps, c, k - 1);
      assert Edge(deps, c[k - 1], c[k]);
      forall q | q in Run(map[], before) ensures Ticket(c[k]) !in Run(map[], before)[q].stack {
        assert c[1..][q] == c[q + 1] && c[1..][k - 1] == c[k];
      }
      es := RunToSuccessor(deps, before, k - 1, c[k], c[k - 1]);
    }
  }

  lemma HeldUpWaits(s: State, c: seq<TicketId>, i: nat, j: nat)
    requires |c| > 0 && HoldUp(s, c, |c| - 1) && i < |c| - 1 && j < |c| - 1 && i != j && c[j + 1] == c[i]
    ensures WaitsFor(s, i, j)
  {
    assert i in s && s[i] == Proc([Ticket(c[i + 1])], ToLook(c[i]));
    assert j in s && s[j] == Proc([Ticket(c[j + 1])], ToLook(c[j]));
    assert ToLook(c[i])[0] == Enter(Ticket(c[i]));
  }

  /** Each process waits for the one before it, the first for the last. */
  function Backwards(n: nat): seq<Pid>
    requires n > 0
  {
    seq(n + 1, i requires 0 <= i <= n => if i == n then n - 1 else n - 1 - i)
  }

  /** On any cycle of distinct tickets as many processes block each other for ever. */
  lemma CycleDeadlocks(deps: Graph, c: seq<TicketId>) returns (es: seq<Action>)
    requires ClosedWalk(deps, c) && |c| > 2 && Distinct(c[..|c| - 1])
    ensures ValidRun(deps, map[], es) && WaitChain(Run(map[], es), Backwards(|c| - 1))
  {
    var n := |c| - 1;
    RotatedDistinct(c);
    es := HoldUpRun(deps, c, n);
    var s, ps := Run(map[], es), Backwards(n);
    forall k | 0 <= k < |ps| - 1 ensures WaitsFor(s, ps[k], ps[k + 1]) {
      HeldUpWaits(s, c, ps[k], ps[k + 1]);
    }
  }

  lemma RotatedDistinct(c: seq<TicketId>)
    requires |c| >= 2 && c[0] == c[|c| - 1] && Distinct(c[..|c| - 1])
    ensures Distinct(c[1..])
  {
    var d := c[..|c| - 1];
    forall i, j | 0 <= i < j < |c| - 1 ensures c[1..][i] != c[1..][j] {
      assert d[i + 1] == c[i + 1];
      if j + 1 < |c| - 1 {
        assert d[j + 1] == c[j + 1];
      } else {
        assert d[0] == c[j + 1];
      }
    }
  }

  /** Every closed walk goes round a cycle of distinct tickets. */
  lemma {:induction false} SimpleCycle(deps: Graph, p: seq<TicketId>) returns (c: seq<TicketId>)
    requires ClosedWalk(deps, p) && forall a :: !Edge(deps, a, a)
    ensures ClosedWalk(deps, c) && |c| > 2 && Distinct(c[..|c| - 1])
    decreases |p|
  {
    var d := p[..|p| - 1];
    if Distinct(d) {
      c := p;
      assert Edge(deps, p[0], p[1]);
    } else {
      var i, j :| 0 <= i < j < |d| && d[i] == d[j];
      var q := p[i..j + 1];
      forall k | 0 <= k < |q| - 1 ensures Edge(deps, q[k], q[k + 1]) {
        assert Edge(deps, p[i + k], p[i + k + 1]);
      }
      c := SimpleCycle(deps, q);
    }
  }

  /** Whatever commands run, nobody ever waits in a circle. */
  ghost predicate DeadlockFree(deps: Graph) {
    forall es, ps :: ValidRun(deps, map[], es) && |ps| >= 2 && ps[0] == ps[|ps| - 1]
      ==> !WaitChain(Run(map[], es), ps)
  }

  /** Acyclicity is what it takes: where no ticket waits for itself, the commands are free of deadlock iff the
      dependencies are acyclic. */
  lemma DeadlockFreeIff(deps: Graph)
    requires forall a :: !Edge(deps, a, a)
    ensures DeadlockFree(deps) <==> Acyclic(deps)
  {
    if Acyclic(deps) {
      forall es, ps | ValidRun(deps, map[], es) && |ps| >= 2 && ps[0] == ps[|ps| - 1]
        ensures !WaitChain(Run(map[], es), ps)
      {
        NoDeadlock(deps, es, ps);
      }
    } else {
      var p :| ClosedWalk(deps, p);
      var c := SimpleCycle(deps, p);
      var es := CycleDeadlocks(deps, c);
      var ps := Backwards(|c| - 1);
      assert ps[0] == ps[|ps| - 1] && WaitChain(Run(map[], es), ps);
    }
  }
}
