/** Delivery over whole runs: posters append while one reader scans, shows and marks.

    Every read of the clock and every file access of the reader is its own step, so posts and clock ticks
    fall anywhere between them. */
module InboxDelivery {
  import opened Inbox

  /** Where the reader stands: `base` is the clock when it looked at its record, `count` and `loadClock` the
      number of messages in the log and the clock when it loaded the log, `ceiling` the clock of the clamp. */
  datatype Phase =
    | Idle
    | Begun(base: Stamp)
    | Loaded(base: Stamp, count: nat, loadClock: Stamp)
    | Clamped(base: Stamp, count: nat, loadClock: Stamp, ceiling: Stamp)
    | Printed(scan: Scan)

  /** `delivered` is everything the reader has printed; `read` the length of the log prefix its last scan read. */
  datatype State = State(log: seq<Message>, clock: Stamp, rec: Record, phase: Phase,
                         delivered: seq<Message>, read: nat)

  datatype Event = Tick(now: Stamp) | Post(m: Message) | Begin | Load | Clamp | Print | Mark

  /** Clocks do not run backwards, and a post is stamped no earlier than the clock when it is appended. */
  predicate Enabled(s: State, e: Event) {
    match e
    case Tick(now) => now >= s.clock
    case Post(m) => m.at >= s.clock
    case Begin => s.phase.Idle?
    case Load => s.phase.Begun?
    case Clamp => s.phase.Loaded?
    case Print => s.phase.Clamped? && s.phase.count <= |s.log|
    case Mark => s.phase.Printed?
  }

  function Pending(s: State, owner: string): Scan
    requires s.phase.Clamped? && s.phase.count <= |s.log|
  {
    ScanOf(s.log[..s.phase.count], owner, s.rec, s.phase.base, s.phase.ceiling, s.clock)
  }

  function Next(s: State, e: Event, owner: string): State
    requires Enabled(s, e)
  {
    match e
    case Tick(now) => s.(clock := now)
    case Post(m) => s.(log := s.log + [m])
    case Begin => s.(phase := Begun(s.clock))
    case Load => s.(phase := Loaded(s.phase.base, |s.log|, s.clock))
    case Clamp => s.(phase := Clamped(s.phase.base, s.phase.count, s.phase.loadClock, s.clock))
    case Print =>
      var scan := Pending(s, owner);
      s.(phase := Printed(scan), delivered := s.delivered + scan.unread, read := s.phase.count)
    case Mark => s.(phase := Idle, rec := Marked(s.rec, s.phase.scan))
  }

  predicate ValidRun(s: State, es: seq<Event>, owner: string)
    decreases |es|
  {
    |es| == 0 || (Enabled(s, es[0]) && ValidRun(Next(s, es[0], owner), es[1..], owner))
  }

  function Run(s: State, es: seq<Event>, owner: string): State
    requires ValidRun(s, es, owner)
    decreases |es|
  {
    if |es| == 0 then s else Run(Next(s, es[0], owner), es[1..], owner)
  }

  /** Nothing this agent is shown was appended since the load with a stamp below the new watermark. */
  predicate Clean(s: State, owner: string)
    requires s.phase.Clamped? && s.phase.count <= |s.log|
  {
    forall i :: s.phase.count <= i < |s.log| && Shown(s.log[i], owner, s.rec.joined) ==>
                  s.log[i].at >= Pending(s, owner).watermark
  }

  /** The guard of the two branches that put a clock reading into the watermark: the log holds no stamp ahead of
      the load clock or the clamp read the same second; and the fallback is not taken or reads the same second. */
  predicate SameSecond(s: State)
    requires s.phase.Clamped? && s.phase.count <= |s.log|
  {
    && (MaxAt(s.log[..s.phase.count]) <= s.phase.loadClock || s.phase.ceiling == s.phase.loadClock)
    && (MaxAt(s.log[..s.phase.count]) > 0 || SeenSince(s.rec, s.phase.base) > 0 || s.clock == s.phase.loadClock)
  }

  predicate CleanRun(s: State, es: seq<Event>, owner: string)
    requires ValidRun(s, es, owner)
    decreases |es|
  {
    |es| == 0
    || ((es[0].Print? ==> Clean(s, owner)) && CleanRun(Next(s, es[0], owner), es[1..], owner))
  }

  /** A reader that has never seen anything, on any log of stamped messages. */
  predicate Fresh(s: State) {
    && s.phase.Idle? && s.rec.seen == 0 && s.rec.seenIds == [] && s.delivered == [] && s.read == 0
    && s.clock >= 1 && forall i :: 0 <= i < |s.log| ==> s.log[i].at >= 1
  }

  /** A record that accounts for a log prefix: it keeps exactly the identities at or above its watermark, and the
      mail after the prefix is at or above the watermark too. */
  predicate Synced(log: seq<Message>, read: nat, rec: Record, owner: string)
    requires read <= |log|
  {
    && multiset(rec.seenIds) == multiset(IdsFrom(log[..read], owner, rec.seen))
    && forall i :: read <= i < |log| && Shown(log[i], owner, rec.joined) ==> log[i].at >= rec.seen
  }

  /** The invariant, relative to `before`, what had been delivered when prefix `from` had been read. */
  predicate Inv(s: State, owner: string, before: seq<Message>, from: nat) {
    && s.clock >= 1 && (forall i :: 0 <= i < |s.log| ==> s.log[i].at >= 1)
    && from <= s.read <= |s.log|
    && s.delivered == before + Mail(s.log[from..s.read], owner, s.rec.joined)
    && (match s.phase
        case Idle => s.rec.seen <= s.clock && Synced(s.log, s.read, s.rec, owner)
        case Begun(base) => 1 <= base && s.rec.seen <= base <= s.clock && Synced(s.log, s.read, s.rec, owner)
        case Loaded(base, count, loadClock) =>
          1 <= base && s.rec.seen <= base <= loadClock <= s.clock && s.read <= count <= |s.log|
          && Synced(s.log, s.read, s.rec, owner) && PostedSince(s, count, loadClock)
        case Clamped(base, count, loadClock, ceiling) =>
          1 <= base && s.rec.seen <= base <= loadClock <= ceiling <= s.clock && s.read <= count <= |s.log|
          && Synced(s.log, s.read, s.rec, owner) && PostedSince(s, count, loadClock)
        case Printed(scan) =>
          scan.watermark <= s.clock && Synced(s.log, s.read, Marked(s.rec, scan), owner))
  }

  predicate PostedSince(s: State, count: nat, loadClock: Stamp) {
    forall i :: count <= i < |s.log| ==> s.log[i].at >= loadClock
  }

  lemma FreshInv(s: State, owner: string)
    requires Fresh(s)
    ensures Inv(s, owner, [], 0)
  {
    assert s.log[..0] == [];
  }

  /** A scan, read at `count` messages, leaves a record synced with that prefix, provided it is clean.
      This needs nothing of the record it started from. */
  lemma CleanScanSyncs(s: State, owner: string)
    requires s.phase.Clamped? && s.phase.count <= |s.log| && Clean(s, owner)
    ensures Synced(s.log, s.phase.count, Marked(s.rec, Pending(s, owner)), owner)
  {
  }

  lemma ScanExtends(log: seq<Message>, from: nat, read: nat, n: nat, owner: string, rec: Record)
    requires from <= read <= n <= |log| && Synced(log, read, rec, owner)
    requires forall i :: 0 <= i < |log| ==> log[i].at >= 1
    ensures Mail(log[from..read], owner, rec.joined)
            + Unread(Mail(log[..n], owner, rec.joined), rec.seen, multiset(rec.seenIds))
            == Mail(log[from..n], owner, rec.joined)
  {
    var prefix := log[..n];
    assert prefix[..read] == log[..read];
    SyncedScan(prefix, read, owner, rec);
    assert prefix[read..] == log[read..n];
    MailConcat(log[from..read], log[read..n], owner, rec.joined);
    assert log[from..n] == log[from..read] + log[read..n];
  }

  lemma PrintDelivers(s: State, owner: string, before: seq<Message>, from: nat)
    requires Inv(s, owner, before, from) && s.phase.Clamped?
    ensures s.delivered + Pending(s, owner).unread
            == before + Mail(s.log[from..s.phase.count], owner, s.rec.joined)
  {
    ScanExtends(s.log, from, s.read, s.phase.count, owner, s.rec);
    var seen := Mail(s.log[from..s.read], owner, s.rec.joined);
    var unseen := Pending(s, owner).unread;
    assert (before + seen) + unseen == before + (seen + unseen);
  }

  lemma PrintKeepsInv(s: State, owner: string, before: seq<Message>, from: nat)
    requires Inv(s, owner, before, from) && Enabled(s, Print) && Clean(s, owner)
    ensures Inv(Next(s, Print, owner), owner, before, from)
  {
    PrintDelivers(s, owner, before, from);
    CleanScanSyncs(s, owner);
    WatermarkNotAhead(s.log[..s.phase.count], owner, s.rec, s.phase.base, s.phase.ceiling, s.clock);
  }

  lemma StepKeepsInv(s: State, e: Event, owner: string, before: seq<Message>, from: nat)
    requires Inv(s, owner, before, from) && Enabled(s, e)
    requires e.Print? ==> Clean(s, owner)
    ensures Inv(Next(s, e, owner), owner, before, from)
  {
    var s' := Next(s, e, owner);
    match e
    case Print => PrintKeepsInv(s, owner, before, from);
    case Post(m) =>
      assert s'.log[..s.read] == s.log[..s.read];
      assert s'.log[from..s.read] == s.log[from..s.read];
    case _ =>
  }

  lemma {:induction false} RunKeepsInv(s: State, es: seq<Event>, owner: string, before: seq<Message>, from: nat)
    requires ValidRun(s, es, owner) && CleanRun(s, es, owner) && Inv(s, owner, before, from)
    ensures Inv(Run(s, es, owner), owner, before, from)
    ensures Run(s, es, owner).rec.joined == s.rec.joined
    decreases |es|
  {
    if |es| > 0 {
      StepKeepsInv(s, es[0], owner, before, from);
      RunKeepsInv(Next(s, es[0], owner), es[1..], owner, before, from);
    }
  }

  /** Exactly once: from a fresh record, whatever the interleaving, everything printed so far is, in log order and
      without repetition, the visible mail of the prefix the last scan read. */
  lemma ExactlyOnce(s: State, es: seq<Event>, owner: string)
    requires Fresh(s) && ValidRun(s, es, owner) && CleanRun(s, es, owner)
    ensures var t := Run(s, es, owner);
            t.read <= |t.log| && t.delivered == Mail(t.log[..t.read], owner, s.rec.joined)
  {
    FreshInv(s, owner);
    RunKeepsInv(s, es, owner, [], 0);
    var t := Run(s, es, owner);
    assert t.log[0..t.read] == t.log[..t.read];
  }

  /** Who gets to see what: mail to the agent by name is printed as often as the prefix read holds it, from whenever it
      is; so is mail to nobody or to all, except from before the agent joined; and nothing else is ever printed. */
  lemma PrintedIsForTheReader(s: State, es: seq<Event>, owner: string, m: Message)
    requires Fresh(s) && ValidRun(s, es, owner) && CleanRun(s, es, owner)
    ensures var t := Run(s, es, owner);
      t.read <= |t.log|
      && multiset(t.delivered)[m] ==
         if m.sender != owner
            && (m.to == owner || ((m.to == "" || m.to == "all") && (s.rec.joined == 0 || m.at >= s.rec.joined)))
         then multiset(t.log[..t.read])[m] else 0
  {
    ExactlyOnce(s, es, owner);
    var t := Run(s, es, owner);
    MailCounts(t.log[..t.read], owner, s.rec.joined, m);
  }

  /** Healing: whatever the stored record was (a watermark in the future included), once one scan has been clean the
      following scans deliver exactly the mail appended after the prefix it read. */
  lemma OneScanHeals(s: State, es: seq<Event>, owner: string)
    requires s.phase.Clamped? && s.phase.count <= |s.log| && Clean(s, owner)
    requires 1 <= s.phase.base <= s.phase.ceiling <= s.clock && forall i :: 0 <= i < |s.log| ==> s.log[i].at >= 1
    requires ValidRun(Next(s, Print, owner), es, owner) && CleanRun(Next(s, Print, owner), es, owner)
    ensures var first := Next(s, Print, owner);
            var t := Run(first, es, owner);
            first.read <= t.read <= |t.log|
            && t.delivered == first.delivered + Mail(t.log[first.read..t.read], owner, s.rec.joined)
  {
    var first := Next(s, Print, owner);
    CleanScanSyncs(s, owner);
    WatermarkNotAhead(s.log[..s.phase.count], owner, s.rec, s.phase.base, s.phase.ceiling, s.clock);
    assert first.log[first.read..first.read] == [];
    assert Inv(first, owner, first.delivered, first.read);
    RunKeepsInv(first, es, owner, first.delivered, first.read);
  }

  /** The guard decides: the watermark stays at or below the clock of the load, so that no later post can fall under
      it, exactly when no clock reading of a later second enters it. */
  lemma SameSecondIsTheGuard(s: State, owner: string, before: seq<Message>, from: nat)
    requires Inv(s, owner, before, from) && s.phase.Clamped?
    ensures SameSecond(s) <==> Pending(s, owner).watermark <= s.phase.loadClock
    ensures SameSecond(s) ==> Clean(s, owner)
  {
    MaxAtPositive(s.log[..s.phase.count]);
  }

  /** Every scan of the run meets the guard. */
  predicate GuardedRun(s: State, es: seq<Event>, owner: string)
    requires ValidRun(s, es, owner)
    decreases |es|
  {
    |es| == 0 || ((es[0].Print? ==> SameSecond(s)) && GuardedRun(Next(s, es[0], owner), es[1..], owner))
  }

  /** Under the guard no scan can be unclean, so `ExactlyOnce` applies whatever posts land in between. */
  lemma {:induction false} GuardedRunIsClean(s: State, es: seq<Event>, owner: string, before: seq<Message>, from: nat)
    requires Inv(s, owner, before, from) && ValidRun(s, es, owner) && GuardedRun(s, es, owner)
    ensures CleanRun(s, es, owner)
    decreases |es|
  {
    if |es| > 0 {
      if es[0].Print? {
        SameSecondIsTheGuard(s, owner, before, from);
      }
      StepKeepsInv(s, es[0], owner, before, from);
      GuardedRunIsClean(Next(s, es[0], owner), es[1..], owner, before, from);
    }
  }

  lemma {:induction false} MaxAtPositive(log: seq<Message>)
    ensures forall m :: m in log ==> m.at <= MaxAt(log)
  {
    if |log| > 0 {
      MaxAtPositive(log[..|log| - 1]);
      assert log == log[..|log| - 1] + [log[|log| - 1]];
    }
  }

  // ---- the other half: what an unclean scan loses ----

  /** From here on no scan looks below `w`. */
  predicate NeverBelow(s: State, w: Stamp) {
    && w <= s.clock
    && (match s.phase
        case Idle => s.rec.seen >= w
        case Begun(base) => s.rec.seen >= w && base >= w
        case Loaded(base, _, _) => s.rec.seen >= w && base >= w
        case Clamped(base, _, _, _) => s.rec.seen >= w && base >= w
        case Printed(scan) => scan.watermark >= w)
  }

  lemma StepStaysAbove(s: State, e: Event, owner: string, w: Stamp)
    requires Enabled(s, e) && NeverBelow(s, w)
    ensures NeverBelow(Next(s, e, owner), w)
    ensures exists more :: Next(s, e, owner).delivered == s.delivered + more && forall m :: m in more ==> m.at >= w
  {
    if e.Print? {
      UnreadAtLeast(Mail(s.log[..s.phase.count], owner, s.rec.joined), SeenSince(s.rec, s.phase.base),
                    multiset(s.rec.seenIds));
    } else {
      assert Next(s, e, owner).delivered == s.delivered + [];
    }
  }

  /** A message below the watermark is printed no more often than it already was. */
  lemma {:induction false} BelowIsNeverPrinted(s: State, es: seq<Event>, owner: string, w: Stamp, m: Message)
    requires ValidRun(s, es, owner) && NeverBelow(s, w) && m.at < w
    ensures multiset(Run(s, es, owner).delivered)[m] == multiset(s.delivered)[m]
    ensures s.log <= Run(s, es, owner).log && Run(s, es, owner).rec.joined == s.rec.joined
    decreases |es|
  {
    if |es| > 0 {
      StepStaysAbove(s, es[0], owner, w);
      var t := Next(s, es[0], owner);
      var more :| t.delivered == s.delivered + more && forall x :: x in more ==> x.at >= w;
      assert m !in more;
      BelowIsNeverPrinted(t, es[1..], owner, w, m);
    }
  }

  /** Exactness fails for good once a scan is not clean: in every later state whose last scan read past the message it
      stepped over, that message has been printed fewer times than the log holds it. */
  lemma UncleanScanLoses(s: State, i: nat, es: seq<Event>, owner: string)
    requires Inv(s, owner, [], 0) && s.phase.Clamped? && s.phase.count <= i < |s.log|
    requires Shown(s.log[i], owner, s.rec.joined) && s.log[i].at < Pending(s, owner).watermark
    requires ValidRun(Next(s, Print, owner), es, owner)
    ensures var t := Run(Next(s, Print, owner), es, owner);
            s.log <= t.log
            && (i < t.read <= |t.log| ==>
                  multiset(t.delivered)[s.log[i]] < multiset(Mail(t.log[..t.read], owner, s.rec.joined))[s.log[i]])
  {
    var first := Next(s, Print, owner);
    var t := Run(first, es, owner);
    var n, m, w := s.phase.count, s.log[i], Pending(s, owner).watermark;
    WatermarkNotAhead(s.log[..n], owner, s.rec, s.phase.base, s.phase.ceiling, s.clock);
    BelowIsNeverPrinted(first, es, owner, w, m);
    PrintDelivers(s, owner, [], 0);
    assert multiset(t.delivered)[m] == multiset(Mail(s.log[..n], owner, s.rec.joined))[m] by {
      assert s.log[0..n] == s.log[..n];
      assert [] + Mail(s.log[..n], owner, s.rec.joined) == Mail(s.log[..n], owner, s.rec.joined);
    }
    if i < t.read <= |t.log| {
      assert t.log[..n] == s.log[..n] && t.log[i] == m;
      MailGrows(t.log, n, i, t.read, owner, s.rec.joined);
    }
  }

  lemma MailGrows(log: seq<Message>, n: nat, i: nat, read: nat, owner: string, joined: Stamp)
    requires n <= i < read <= |log| && Shown(log[i], owner, joined)
    ensures multiset(Mail(log[..n], owner, joined))[log[i]] < multiset(Mail(log[..read], owner, joined))[log[i]]
  {
    var later := log[n..read];
    assert log[..read] == log[..n] + later;
    MailConcat(log[..n], later, owner, joined);
    assert later[i - n] == log[i];
    MailShown(later, owner, joined);
    assert log[i] in multiset(Mail(later, owner, joined));
  }

  // ---- exact runs are the clean ones ----

  /** All that was printed is, in log order and once each, the visible mail of the prefix last read. */
  predicate Exact(s: State, owner: string) {
    s.read <= |s.log| && s.delivered == Mail(s.log[..s.read], owner, s.rec.joined)
  }

  /** Exact now, and after any further events whose scans are clean. */
  ghost predicate StaysExact(s: State, owner: string) {
    forall es :: ValidRun(s, es, owner) && CleanRun(s, es, owner) ==> Exact(Run(s, es, owner), owner)
  }

  ghost predicate AlwaysExact(s: State, es: seq<Event>, owner: string)
    requires ValidRun(s, es, owner)
    decreases |es|
  {
    StaysExact(s, owner) && (|es| == 0 || AlwaysExact(Next(s, es[0], owner), es[1..], owner))
  }

  lemma InvStaysExact(s: State, owner: string)
    requires Inv(s, owner, [], 0)
    ensures StaysExact(s, owner)
  {
    forall es | ValidRun(s, es, owner) && CleanRun(s, es, owner) ensures Exact(Run(s, es, owner), owner) {
      RunKeepsInv(s, es, owner, [], 0);
      var t := Run(s, es, owner);
      assert t.log[0..t.read] == t.log[..t.read];
      assert [] + Mail(t.log[..t.read], owner, t.rec.joined) == Mail(t.log[..t.read], owner, t.rec.joined);
    }
  }

  const NEXT_SCAN := [Mark, Begin, Load, Clamp, Print]

  /** The next scan, with nothing in between, is clean and reads the whole log. */
  lemma NextScan(s: State, owner: string)
    requires s.phase.Printed?
    ensures ValidRun(s, NEXT_SCAN, owner) && CleanRun(s, NEXT_SCAN, owner)
    ensures Run(s, NEXT_SCAN, owner).read == |s.log| && Run(s, NEXT_SCAN, owner).log == s.log
  {
    var s1 := Next(s, Mark, owner);
    var s2 := Next(s1, Begin, owner);
    var s3 := Next(s2, Load, owner);
    var s4 := Next(s3, Clamp, owner);
    CleanCons(s4, Print, [], owner);
    CleanCons(s3, Clamp, [Print], owner);
    CleanCons(s2, Load, [Clamp, Print], owner);
    CleanCons(s1, Begin, [Load, Clamp, Print], owner);
    CleanCons(s, Mark, [Begin, Load, Clamp, Print], owner);
    assert [Print] + [] == [Print] && [Clamp] + [Print] == [Clamp, Print];
    assert [Load] + [Clamp, Print] == [Load, Clamp, Print];
    assert [Begin] + [Load, Clamp, Print] == [Begin, Load, Clamp, Print];
    assert [Mark] + [Begin, Load, Clamp, Print] == NEXT_SCAN;
  }

  lemma CleanCons(s: State, e: Event, es: seq<Event>, owner: string)
    requires Enabled(s, e) && (e.Print? ==> Clean(s, owner))
    requires ValidRun(Next(s, e, owner), es, owner) && CleanRun(Next(s, e, owner), es, owner)
    ensures ValidRun(s, [e] + es, owner) && CleanRun(s, [e] + es, owner)
    ensures Run(s, [e] + es, owner) == Run(Next(s, e, owner), es, owner)
  {
    assert ([e] + es)[1..] == es;
  }

  /** A scan leaves the reader exact for good iff it is clean. */
  lemma CleanScanIff(s: State, owner: string)
    requires Inv(s, owner, [], 0) && s.phase.Clamped?
    ensures StaysExact(Next(s, Print, owner), owner) <==> Clean(s, owner)
  {
    var n := Next(s, Print, owner);
    if Clean(s, owner) {
      StepKeepsInv(s, Print, owner, [], 0);
      InvStaysExact(n, owner);
    } else {
      var i :| s.phase.count <= i < |s.log| && Shown(s.log[i], owner, s.rec.joined)
               && s.log[i].at < Pending(s, owner).watermark;
      NextScan(n, owner);
      UncleanScanLoses(s, i, NEXT_SCAN, owner);
      WatermarkNotAhead(s.log[..s.phase.count], owner, s.rec, s.phase.base, s.phase.ceiling, s.clock);
      BelowIsNeverPrinted(n, NEXT_SCAN, owner, Pending(s, owner).watermark, s.log[i]);
      assert !Exact(Run(n, NEXT_SCAN, owner), owner);
    }
  }

  lemma {:induction false} ExactFrom(s: State, es: seq<Event>, owner: string)
    requires Inv(s, owner, [], 0) && ValidRun(s, es, owner)
    ensures AlwaysExact(s, es, owner) <==> CleanRun(s, es, owner)
    decreases |es|
  {
    InvStaysExact(s, owner);
    if |es| > 0 {
      var n := Next(s, es[0], owner);
      if es[0].Print? && !Clean(s, owner) {
        CleanScanIff(s, owner);
      } else {
        StepKeepsInv(s, es[0], owner, [], 0);
        ExactFrom(n, es[1..], owner);
      }
    }
  }

  /** From a fresh record: a run is exact throughout and for good iff every scan of it is clean. */
  lemma ExactIffClean(s: State, es: seq<Event>, owner: string)
    requires Fresh(s) && ValidRun(s, es, owner)
    ensures AlwaysExact(s, es, owner) <==> CleanRun(s, es, owner)
  {
    FreshInv(s, owner);
    ExactFrom(s, es, owner);
  }

  lemma RunCons(s: State, e: Event, es: seq<Event>, owner: string)
    requires Enabled(s, e) && ValidRun(Next(s, e, owner), es, owner)
    ensures ValidRun(s, [e] + es, owner) && Run(s, [e] + es, owner) == Run(Next(s, e, owner), es, owner)
  {
    assert ([e] + es)[1..] == es;
  }

  lemma RunThree(s: State, a: Event, b: Event, c: Event, owner: string)
    requires Enabled(s, a) && Enabled(Next(s, a, owner), b) && Enabled(Next(Next(s, a, owner), b, owner), c)
    ensures ValidRun(s, [a, b, c], owner)
    ensures Run(s, [a, b, c], owner) == Next(Next(Next(s, a, owner), b, owner), c, owner)
  {
    var s1 := Next(s, a, owner);
    var s2 := Next(s1, b, owner);
    RunCons(s2, c, [], owner);
    RunCons(s1, b, [c], owner);
    RunCons(s, a, [b, c], owner);
    assert [a] + ([b] + ([c] + [])) == [a, b, c];
  }

  /** And the guard is sharp: when a future stamp is in the log, or the log is empty for a fresh record, a post in the
      second of the load followed by one tick before the clamp makes the scan unclean. */
  lemma LateTickMakesUnclean(s: State, m: Message, later: Stamp, owner: string, before: seq<Message>, from: nat)
    requires Inv(s, owner, before, from) && s.phase.Loaded? && s.clock == s.phase.loadClock && s.clock < later
    requires MaxAt(s.log[..s.phase.count]) > s.phase.loadClock
             || (MaxAt(s.log[..s.phase.count]) == 0 && SeenSince(s.rec, s.phase.base) == 0)
    requires Shown(m, owner, s.rec.joined) && m.at == s.clock
    ensures var es := [Post(m), Tick(later), Clamp];
            ValidRun(s, es, owner)
            && var t := Run(s, es, owner);
               t.phase.Clamped? && t.phase.count <= |t.log| && !SameSecond(t) && !Clean(t, owner)
  {
    RunThree(s, Post(m), Tick(later), Clamp, owner);
    var s3 := Run(s, [Post(m), Tick(later), Clamp], owner);
    assert s3.log[..s3.phase.count] == s.log[..s.phase.count];
    assert s3.log[|s.log|] == m;
    assert Pending(s3, owner).watermark > m.at;
  }
}
