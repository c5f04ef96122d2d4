/** Compare-and-publish of one ticket file: any number of processes load it, edit their copy, take the ticket's mutation
    lock, check twice and replace the file, in any interleaving; handovers are written the same way. */
module Publishing {
  import opened Wrappers
  import opened Generations

  type Pid = nat

  /** The file: the ownership part, everything else, and the handover note. */
  datatype Doc = Doc(ticket: Ticket, body: string, handoff: string)

  /** A copy under edit. `basis` is the generation it was loaded at. */
  datatype Draft = Draft(doc: Doc, basis: nat, bumped: bool, expected: Option<nat>)

  datatype Proc =
    | Idle
    | Editing(draft: Draft)
    | Locked(draft: Draft)
    | Checked(draft: Draft)
    | Ready(draft: Draft)
    | HandoffLocked(actor: Option<Agent>, note: string)
    | HandoffRead(actor: Option<Agent>, doc: Doc, expected: nat)
    | HandoffReady(actor: Option<Agent>, doc: Doc, expected: nat)

  /** One replaced file. */
  datatype Entry = Entry(basis: nat, bumped: bool, expected: Option<nat>, published: nat)

  datatype State = State(disk: Doc, procs: map<Pid, Proc>, log: seq<Entry>)

  datatype Action =
    | Load(p: Pid)
    | Edit(p: Pid, doc: Doc)
    | Bump(p: Pid, owner: Agent, present: bool)
    | Lock(p: Pid)
    | Check(p: Pid)
    | Recheck(p: Pid)
    | Land(p: Pid)
    | LockForHandoff(p: Pid, actor: Option<Agent>, note: string)
    | ReadForHandoff(p: Pid)
    | RecheckHandoff(p: Pid)
    | LandHandoff(p: Pid)
    | Crash(p: Pid)

  function At(s: State, p: Pid): Proc {
    if p in s.procs then s.procs[p] else Idle
  }

  predicate HoldsLock(pr: Proc) {
    !pr.Idle? && !pr.Editing?
  }

  ghost predicate Free(s: State) {
    forall p :: p in s.procs ==> !HoldsLock(s.procs[p])
  }

  function Generation(d: Doc): nat {
    d.ticket.generation
  }

  predicate Refused(disk: Doc, draft: Draft) {
    PublishRefused(Generation(disk), Generation(draft.doc), draft.expected)
  }

  predicate NotTheirs(disk: Doc, actor: Option<Agent>) {
    actor.Some? && disk.ticket.owner != actor.value
  }

  /** Ordinary edits change anything but the generation; ownership may move without a lease, as when nobody owned the
      ticket. */
  ghost predicate Enabled(s: State, a: Action) {
    match a
    case Load(p) => At(s, p).Idle?
    case Edit(p, doc) => At(s, p).Editing? && Generation(doc) == Generation(At(s, p).draft.doc)
    case Bump(p, owner, present) => At(s, p).Editing? && !At(s, p).draft.bumped
    case Lock(p) => At(s, p).Editing? && Free(s)
    case Check(p) => At(s, p).Locked?
    case Recheck(p) => At(s, p).Checked?
    case Land(p) => At(s, p).Ready?
    case LockForHandoff(p, actor, note) => At(s, p).Idle? && Free(s)
    case ReadForHandoff(p) => At(s, p).HandoffLocked?
    case RecheckHandoff(p) => At(s, p).HandoffRead?
    case LandHandoff(p) => At(s, p).HandoffReady?
    case Crash(p) => true
  }

  function Go(s: State, p: Pid, pr: Proc): State {
    s.(procs := s.procs[p := pr])
  }

  ghost function Next(s: State, a: Action): State
    requires Enabled(s, a)
  {
    match a
    case Load(p) => Go(s, p, Editing(Draft(s.disk, Generation(s.disk), false, None)))
    case Edit(p, doc) => Go(s, p, Editing(At(s, p).draft.(doc := doc)))
    case Bump(p, owner, present) =>
      var d := At(s, p).draft;
      Go(s, p, Editing(d.(doc := d.doc.(ticket := Transferred(d.doc.ticket, owner)), bumped := true,
                          expected := if present then Some(Generation(d.doc)) else None)))
    case Lock(p) => Go(s, p, Locked(At(s, p).draft))
    case Check(p) => Go(s, p, if Refused(s.disk, At(s, p).draft) then Idle else Checked(At(s, p).draft))
    case Recheck(p) => Go(s, p, if Refused(s.disk, At(s, p).draft) then Idle else Ready(At(s, p).draft))
    case Land(p) =>
      var d := At(s, p).draft;
      State(d.doc, s.procs[p := Idle], s.log + [Entry(d.basis, d.bumped, d.expected, Generation(d.doc))])
    case LockForHandoff(p, actor, note) => Go(s, p, HandoffLocked(actor, note))
    case ReadForHandoff(p) =>
      var h := At(s, p);
      Go(s, p, if NotTheirs(s.disk, h.actor) then Idle
               else HandoffRead(h.actor, s.disk.(handoff := h.note), Generation(s.disk)))
    case RecheckHandoff(p) =>
      var h := At(s, p);
      Go(s, p, if NotTheirs(s.disk, h.actor) || PublishRefused(Generation(s.disk), Generation(h.doc), Some(h.expected))
               then Idle else HandoffReady(h.actor, h.doc, h.expected))
    case LandHandoff(p) =>
      var h := At(s, p);
      State(h.doc, s.procs[p := Idle], s.log + [Entry(h.expected, false, Some(h.expected), Generation(h.doc))])
    case Crash(p) => Go(s, p, Idle)
  }

  ghost predicate ValidRun(s: State, es: seq<Action>)
    decreases |es|
  {
    es == [] || (Enabled(s, es[0]) && ValidRun(Next(s, es[0]), es[1..]))
  }

  ghost function Run(s: State, es: seq<Action>): State
    requires ValidRun(s, es)
    decreases |es|
  {
    if es == [] then s else Run(Next(s, es[0]), es[1..])
  }

  // ---- what every run keeps ----

  predicate DraftSane(d: Draft) {
    && Generation(d.doc) == d.basis + (if d.bumped then 1 else 0)
    && (d.expected.Some? ==> d.bumped && d.expected.value == d.basis)
  }

  /** A process that holds the lock knows what is on disk. */
  predicate ProcSane(disk: Doc, pr: Proc) {
    match pr
    case Editing(d) => DraftSane(d)
    case Locked(d) => DraftSane(d)
    case Checked(d) => DraftSane(d)
    case Ready(d) => DraftSane(d) && !Refused(disk, d)
    case HandoffRead(_, doc, expected) => doc == disk.(handoff := doc.handoff) && expected == Generation(doc)
    case HandoffReady(actor, doc, expected) =>
      doc == disk.(handoff := doc.handoff) && expected == Generation(doc) && !NotTheirs(disk, actor)
    case _ => true
  }

  /** The write proves how current it is: it bumps nothing, or it presents the generation it bumps. */
  predicate Checkable(e: Entry) {
    !e.bumped || e.expected.Some?
  }

  /** A checkable write was loaded no earlier than every publication before it. */
  ghost predicate LogSane(log: seq<Entry>, current: nat) {
    && (forall j :: 0 <= j < |log| ==> log[j].published <= current)
    && (forall j :: 0 <= j < |log| ==> log[j].published == log[j].basis + if log[j].bumped then 1 else 0)
    && (forall i, j :: 0 <= i < j < |log| && Checkable(log[j]) ==> log[i].published <= log[j].basis)
  }

  ghost predicate Inv(s: State) {
    && (forall p, q :: p in s.procs && q in s.procs && p != q && HoldsLock(s.procs[p]) ==> !HoldsLock(s.procs[q]))
    && (forall p :: p in s.procs ==> ProcSane(s.disk, s.procs[p]))
    && LogSane(s.log, Generation(s.disk))
  }

  lemma LogGrows(log: seq<Entry>, current: nat, e: Entry)
    requires LogSane(log, current) && e.published == e.basis + (if e.bumped then 1 else 0)
    requires e.bumped && e.expected.Some? ==> e.basis == current
    requires current <= e.published
    ensures LogSane(log + [e], e.published)
  {}

  lemma InvKept(s: State, a: Action)
    requires Inv(s) && Enabled(s, a)
    ensures Inv(Next(s, a))
    ensures Generation(s.disk) <= Generation(Next(s, a).disk)
  {
    var p := a.p;
    assert p in s.procs ==> ProcSane(s.disk, s.procs[p]);
    if a.Land? {
      var d := At(s, p).draft;
      LogGrows(s.log, Generation(s.disk), Entry(d.basis, d.bumped, d.expected, Generation(d.doc)));
    } else if a.LandHandoff? {
      var h := At(s, p);
      LogGrows(s.log, Generation(s.disk), Entry(h.expected, false, Some(h.expected), Generation(h.doc)));
    }
  }

  lemma {:induction false} InvRun(s: State, es: seq<Action>)
    requires Inv(s) && ValidRun(s, es)
    ensures Inv(Run(s, es)) && Generation(s.disk) <= Generation(Run(s, es).disk)
    decreases |es|
  {
    if es != [] {
      InvKept(s, es[0]);
      InvRun(Next(s, es[0]), es[1..]);
    }
  }

  ghost predicate Start(s: State) {
    s.procs == map[] && s.log == []
  }

  /** Under every interleaving the generation on disk never goes down. */
  lemma GenerationNeverDecreases(s: State, before: seq<Action>, after: seq<Action>)
    requires Start(s) && ValidRun(s, before) && ValidRun(Run(s, before), after)
    ensures Generation(Run(s, before).disk) <= Generation(Run(Run(s, before), after).disk)
  {
    InvRun(s, before);
    InvRun(Run(s, before), after);
  }

  /** A write that bumps nothing, or that presents the generation it bumps, never lands after a publication of a later
      generation than it was loaded at. */
  lemma StaleWriteNeverLands(s: State, es: seq<Action>, i: nat, j: nat)
    requires Start(s) && ValidRun(s, es) && i < j < |Run(s, es).log|
    requires Checkable(Run(s, es).log[j])
    ensures Run(s, es).log[i].published <= Run(s, es).log[j].basis
  {
    InvRun(s, es);
  }

  /** Of several transfers prepared from the same generation and presenting it, at most one lands. */
  lemma OneTransferPerGeneration(s: State, es: seq<Action>, i: nat, j: nat)
    requires Start(s) && ValidRun(s, es) && i < j < |Run(s, es).log|
    requires var log := Run(s, es).log;
      log[i].bumped && log[j].bumped && log[i].expected.Some? && log[j].expected.Some?
    ensures Run(s, es).log[i].basis != Run(s, es).log[j].basis
  {
    InvRun(s, es);
  }

  lemma {:induction false} RunSnoc(s: State, es: seq<Action>, a: Action)
    requires ValidRun(s, es) && Enabled(Run(s, es), a)
    ensures ValidRun(s, es + [a]) && Run(s, es + [a]) == Next(Run(s, es), a)
    decreases |es|
  {
    if es == [] {
      assert [a][1..] == [];
      assert es + [a] == [a];
    } else {
      RunSnoc(Next(s, es[0]), es[1..], a);
      assert (es + [a])[1..] == es[1..] + [a];
    }
  }

  function Bumped(s: State, owner: Agent, present: bool): Draft {
    Draft(s.disk.(ticket := Transferred(s.disk.ticket, owner)), Generation(s.disk), true,
          if present then Some(Generation(s.disk)) else None)
  }

  /** One process prepares a transfer. */
  lemma Prepare(s: State, es: seq<Action>, p: Pid, owner: Agent, present: bool) returns (fs: seq<Action>)
    requires ValidRun(s, es) && At(Run(s, es), p).Idle?
    ensures ValidRun(s, fs) && Run(s, fs) == Go(Run(s, es), p, Editing(Bumped(Run(s, es), owner, present)))
  {
    RunSnoc(s, es, Load(p));
    RunSnoc(s, es + [Load(p)], Bump(p, owner, present));
    fs := es + [Load(p)] + [Bump(p, owner, present)];
  }

  /** The process publishes what it prepared. */
  lemma Publish(s: State, es: seq<Action>, p: Pid) returns (fs: seq<Action>)
    requires ValidRun(s, es) && Free(Run(s, es)) && At(Run(s, es), p).Editing?
    requires !Refused(Run(s, es).disk, At(Run(s, es), p).draft)
    ensures var n := Run(s, es); var d := At(n, p).draft;
      ValidRun(s, fs) && Run(s, fs) == State(d.doc, n.procs[p := Idle],
                                             n.log + [Entry(d.basis, d.bumped, d.expected, Generation(d.doc))])
  {
    RunSnoc(s, es, Lock(p));
    fs := es + [Lock(p)];
    RunSnoc(s, fs, Check(p));
    fs := fs + [Check(p)];
    RunSnoc(s, fs, Recheck(p));
    fs := fs + [Recheck(p)];
    RunSnoc(s, fs, Land(p));
    fs := fs + [Land(p)];
  }

  /** A transfer that presents nothing can land with a generation that has been published for somebody else, whether or
      not the other transfer presented it; from any state of the file. */
  lemma UnpresentedTransferCollides(s: State, a: Agent, b: Agent, present: bool) returns (es: seq<Action>)
    requires Start(s) && a != b
    ensures ValidRun(s, es) && |Run(s, es).log| == 2
    ensures var log := Run(s, es).log;
      && log[0].published == log[1].published == Generation(s.disk) + 1
      && log[0].expected == (if present then Some(Generation(s.disk)) else None) && log[1].expected.None?
    ensures Run(s, es).disk.ticket == Transferred(s.disk.ticket, b)
  {
    var fs := Prepare(s, [], 0, a, present);
    fs := Prepare(s, fs, 1, b, false);
    fs := Publish(s, fs, 0);
    es := Publish(s, fs, 1);
  }

  // ---- when a generation is new ----

  /** Every copy was loaded since the start, and what the file says was there at the start or has been published. */
  ghost predicate TraceInv(s: State, first: nat) {
    && first <= Generation(s.disk)
    && (Generation(s.disk) == first || exists i :: 0 <= i < |s.log| && s.log[i].published == Generation(s.disk))
    && (forall p :: p in s.procs ==> Loaded(s.procs[p], first, Generation(s.disk)))
  }

  predicate Loaded(pr: Proc, first: nat, current: nat) {
    pr.Editing? || pr.Locked? || pr.Checked? || pr.Ready? ==> first <= pr.draft.basis <= current
  }

  lemma LoadedKept(s: State, a: Action, first: nat, p: Pid)
    requires Enabled(s, a) && Generation(s.disk) <= Generation(Next(s, a).disk) && first <= Generation(s.disk)
    requires Loaded(At(s, p), first, Generation(s.disk))
    ensures Loaded(At(Next(s, a), p), first, Generation(Next(s, a).disk))
  {}

  /** What the file says after a step it said before, or the step has published it. */
  lemma PublishedKept(s: State, a: Action)
    requires Enabled(s, a)
    ensures var n := Next(s, a);
      && s.log <= n.log
      && (Generation(n.disk) == Generation(s.disk)
          || (|n.log| > |s.log| && n.log[|s.log|].published == Generation(n.disk)))
  {}

  lemma TraceKept(s: State, a: Action, first: nat)
    requires Inv(s) && TraceInv(s, first) && Enabled(s, a)
    ensures TraceInv(Next(s, a), first) && s.log <= Next(s, a).log
  {
    InvKept(s, a);
    PublishedKept(s, a);
    var n := Next(s, a);
    if i :| 0 <= i < |s.log| && s.log[i].published == Generation(s.disk) {
      assert n.log[i].published == Generation(s.disk);
    }
    forall p | p in n.procs ensures Loaded(n.procs[p], first, Generation(n.disk)) {
      assert Loaded(At(s, p), first, Generation(s.disk));
      LoadedKept(s, a, first, p);
    }
  }

  lemma {:induction false} TraceRun(s: State, es: seq<Action>, first: nat)
    requires Inv(s) && TraceInv(s, first) && ValidRun(s, es)
    ensures Inv(Run(s, es)) && TraceInv(Run(s, es), first) && s.log <= Run(s, es).log
    decreases |es|
  {
    if es != [] {
      InvKept(s, es[0]);
      TraceKept(s, es[0], first);
      TraceRun(Next(s, es[0]), es[1..], first);
    }
  }

  /** The transfer is about to publish a generation nobody has published. */
  ghost predicate Fresh(s: State, d: Draft) {
    forall i :: 0 <= i < |s.log| ==> s.log[i].published != Generation(d.doc)
  }

  lemma FreshIff(s: State, p: Pid, first: nat)
    requires Inv(s) && TraceInv(s, first) && At(s, p).Ready? && At(s, p).draft.bumped
    ensures Fresh(s, At(s, p).draft) <==> Generation(s.disk) == At(s, p).draft.basis
    ensures At(s, p).draft.expected.Some? ==> Generation(s.disk) == At(s, p).draft.basis
  {
    assert ProcSane(s.disk, s.procs[p]) && Loaded(s.procs[p], first, Generation(s.disk));
  }

  /** In every state reached: a transfer about to land publishes a generation of its own exactly when the file still is
      at the generation the transfer was loaded at, which presenting that generation makes sure of. */
  lemma BumpUniqueIff(start: State, es: seq<Action>, p: Pid)
    requires Start(start) && ValidRun(start, es) && Enabled(Run(start, es), Land(p))
    requires At(Run(start, es), p).draft.bumped
    ensures var s := Run(start, es); var d := At(s, p).draft;
      && (Fresh(s, d) <==> Generation(s.disk) == d.basis)
      && (d.expected.Some? ==> Generation(s.disk) == d.basis)
  {
    TraceRun(start, es, Generation(start.disk));
    FreshIff(Run(start, es), p, Generation(start.disk));
  }

  /** No transfer has published a generation that was published before. */
  ghost predicate UniqueBumps(log: seq<Entry>) {
    forall i, j :: 0 <= i < j < |log| && log[j].bumped ==> log[i].published != log[j].published
  }

  /** Every transfer that lands finds the file at the generation it was loaded at. */
  ghost predicate CurrentRun(s: State, es: seq<Action>)
    requires ValidRun(s, es)
    decreases |es|
  {
    es == []
    || ((es[0].Land? && At(s, es[0].p).draft.bumped ==> Generation(s.disk) == At(s, es[0].p).draft.basis)
        && CurrentRun(Next(s, es[0]), es[1..]))
  }

  lemma StepUniqueIff(s: State, a: Action, first: nat)
    requires Inv(s) && TraceInv(s, first) && Enabled(s, a) && UniqueBumps(s.log)
    ensures UniqueBumps(Next(s, a).log) <==>
            (a.Land? && At(s, a.p).draft.bumped ==> Generation(s.disk) == At(s, a.p).draft.basis)
  {
    var log := Next(s, a).log;
    if a.Land? && At(s, a.p).draft.bumped {
      FreshIff(s, a.p, first);
      assert forall i :: 0 <= i < |s.log| ==> log[i] == s.log[i];
      if i :| 0 <= i < |s.log| && s.log[i].published == Generation(At(s, a.p).draft.doc) {
        assert log[i].published == log[|s.log|].published;
      }
    }
  }

  lemma {:induction false} UniqueFrom(s: State, es: seq<Action>, first: nat)
    requires Inv(s) && TraceInv(s, first) && ValidRun(s, es) && UniqueBumps(s.log)
    ensures UniqueBumps(Run(s, es).log) <==> CurrentRun(s, es)
    decreases |es|
  {
    if es != [] {
      var n := Next(s, es[0]);
      StepUniqueIff(s, es[0], first);
      InvKept(s, es[0]);
      TraceKept(s, es[0], first);
      TraceRun(n, es[1..], first);
      if UniqueBumps(n.log) {
        UniqueFrom(n, es[1..], first);
      } else {
        var i, j :| 0 <= i < j < |n.log| && n.log[j].bumped && n.log[i].published == n.log[j].published;
        var log := Run(n, es[1..]).log;
        assert log[i] == n.log[i] && log[j] == n.log[j];
      }
    }
  }

  /** Over whole runs: no transfer ever repeats a generation exactly when each one that lands finds the file at the
      generation it was loaded at. */
  lemma GenerationsUniqueIff(s: State, es: seq<Action>)
    requires Start(s) && ValidRun(s, es)
    ensures UniqueBumps(Run(s, es).log) <==> CurrentRun(s, es)
  {
    UniqueFrom(s, es, Generation(s.disk));
  }

  /** A handover changes the note and nothing else, and lands only while its author owns the ticket. */
  lemma HandoffKeepsOwnership(s: State, es: seq<Action>, p: Pid)
    requires Start(s) && ValidRun(s, es) && Enabled(Run(s, es), LandHandoff(p))
    ensures var n := Run(s, es); var m := Next(n, LandHandoff(p));
      && m.disk == n.disk.(handoff := m.disk.handoff)
      && (At(n, p).actor.Some? ==> n.disk.ticket.owner == At(n, p).actor.value)
  {
    InvRun(s, es);
    assert ProcSane(Run(s, es).disk, Run(s, es).procs[p]);
  }

  // ---- what an undisturbed write leaves ----

  /** A write nobody disturbs lands iff its copy is not older than the file and the generation it presents, if any, is
      the file's; then the file is the copy. A refused one leaves the file alone. */
  lemma QuietWrite(s: State, p: Pid) returns (es: seq<Action>)
    requires At(s, p).Editing? && Free(s)
    ensures var d, current := At(s, p).draft, s.disk.ticket.generation;
      var lands := current <= d.doc.ticket.generation && (d.expected.None? || d.expected.value == current);
      && es != [] && es[0] == Lock(p) && ValidRun(s, es) && (lands <==> Land(p) in es)
      && Run(s, es).disk == (if lands then d.doc else s.disk) && Run(s, es).procs == s.procs[p := Idle]
  {
    RunSnoc(s, [], Lock(p));
    es := [] + [Lock(p)];
    RunSnoc(s, es, Check(p));
    es := es + [Check(p)];
    if !Refused(s.disk, At(s, p).draft) {
      RunSnoc(s, es, Recheck(p));
      es := es + [Recheck(p)];
      RunSnoc(s, es, Land(p));
      es := es + [Land(p)];
    }
  }

  /** A load, an edit and a write that nobody disturbs: the file is as edited. */
  lemma QuietEdit(s: State, p: Pid, doc: Doc) returns (es: seq<Action>)
    requires At(s, p).Idle? && Free(s) && doc.ticket.generation == s.disk.ticket.generation
    ensures ValidRun(s, es) && Run(s, es).disk == doc && Run(s, es).procs == s.procs[p := Idle]
  {
    RunSnoc(s, [], Load(p));
    es := [] + [Load(p)];
    RunSnoc(s, es, Edit(p, doc));
    es := es + [Edit(p, doc)];
    es := Publish(s, es, p);
  }

  /** A handover nobody disturbs lands iff its author, if it names one, owns the ticket; then the note is the only thing
      new in the file. */
  lemma QuietHandoff(s: State, p: Pid, actor: Option<Agent>, note: string) returns (es: seq<Action>)
    requires At(s, p).Idle? && Free(s)
    ensures var lands := actor.None? || s.disk.ticket.owner == actor.value;
      && es != [] && es[0] == LockForHandoff(p, actor, note) && ValidRun(s, es) && (lands <==> LandHandoff(p) in es)
      && Run(s, es).disk == Doc(s.disk.ticket, s.disk.body, if lands then note else s.disk.handoff)
      && Run(s, es).procs == s.procs[p := Idle]
  {
    RunSnoc(s, [], LockForHandoff(p, actor, note));
    es := [] + [LockForHandoff(p, actor, note)];
    RunSnoc(s, es, ReadForHandoff(p));
    es := es + [ReadForHandoff(p)];
    if !NotTheirs(s.disk, actor) {
      RunSnoc(s, es, RecheckHandoff(p));
      es := es + [RecheckHandoff(p)];
      RunSnoc(s, es, LandHandoff(p));
      es := es + [LandHandoff(p)];
    }
  }
}
