/** Merging probe results into the stored record of a seat, and what any sequence of merges keeps. */
module AuthMerge {
  import opened Wrappers
  import opened Text
  import opened Auth

  predicate Known(s: AuthState) {
    !s.Unknown?
  }

  predicate NoSpend(s: AuthState) {
    Known(s) && s != Ready
  }

  function OperatorPath(s: AuthState): AuthState {
    match s
    case LoginRequired => LoginRequired
    case Expired => LoginRequired
    case Unknown(_) => Ready
    case _ => s
  }

  function PausePolicy(lifecycle: string, s: AuthState): Pause {
    var persistent := lifecycle == "persistent";
    Pause(NoSpend(s) && persistent, !NoSpend(s), true, NoSpend(s), persistent && NoSpend(s), OperatorPath(s))
  }

  /** Reading a stored blob: only a complete one can claim authority. */
  function Load(norm: Norm, r: Record): Record {
    r.(authoritative := Some(Complete(norm, r.context) && r.authoritative == Some(true)))
  }

  predicate Lineage(norm: Norm, r: Record) {
    r.authoritative == Some(true) && Complete(norm, r.context)
  }

  predicate LegalProbe(norm: Norm, p: Probe) {
    Known(p.record.state) && p.valid && Complete(norm, p.record.context)
  }

  predicate IsAuthoritative(norm: Norm, r: Record, runner: Context) {
    r.authoritative != Some(false) && Known(r.state) && ContextsMatch(norm, r.context, runner)
  }

  predicate UnavailableReprobe(norm: Norm, stored: Record, p: Probe, runner: Context) {
    && p.record.state == Unavailable && p.record.authoritative != Some(false)
    && LegalProbe(norm, p) && Lineage(norm, stored)
    && SeatFence(norm, stored.context, p.record.context)
    && SeatFence(norm, stored.context, runner)
    && SeatFence(norm, p.record.context, runner)
  }

  predicate ThreeWay(norm: Norm, stored: Context, incoming: Context, runner: Context) {
    && ContextsMatch(norm, stored, incoming) && ContextsMatch(norm, stored, runner)
    && ContextsMatch(norm, incoming, runner)
  }

  predicate Accepted(norm: Norm, stored: Record, p: Probe, runner: Context) {
    LegalProbe(norm, p)
    && if Lineage(norm, stored)
       then (if ThreeWay(norm, stored.context, p.record.context, runner)
             then IsAuthoritative(norm, p.record, stored.context)
             else UnavailableReprobe(norm, stored, p, runner))
       else IsAuthoritative(norm, p.record, runner)
  }

  /** Stored context first, then the probe's; the caller's only if it agrees with one of them. */
  function TrustedLifecycle(norm: Norm, stored: Context, incoming: Context, runner: Context): string {
    if Get(stored, Lifecycle) in {"persistent", "ephemeral"} then Get(stored, Lifecycle)
    else if Get(incoming, Lifecycle) in {"persistent", "ephemeral"} then Get(incoming, Lifecycle)
    else if Complete(norm, runner) && Get(runner, Lifecycle) in {"persistent", "ephemeral"}
            && (ContextsMatch(norm, incoming, runner) || ContextsMatch(norm, stored, runner))
    then Get(runner, Lifecycle)
    else "ephemeral"
  }

  function TrustedAgent(norm: Norm, stored: Context, incoming: Context, runner: Context): string {
    if Nonblank(Get(stored, AgentId)) then Trim(Get(stored, AgentId))
    else if Nonblank(Get(incoming, AgentId)) then Trim(Get(incoming, AgentId))
    else if Complete(norm, runner)
            && (ContextsMatch(norm, incoming, runner) || ContextsMatch(norm, stored, runner))
    then Trim(Get(runner, AgentId))
    else ""
  }

  function Merged(norm: Norm, stored: Record, p: Probe, runner: Context): Record {
    var r := p.record;
    var profile := if r.profileRef.Some? then r.profileRef else stored.profileRef;
    var lifecycle := TrustedLifecycle(norm, stored.context, r.context, runner);
    var agent := TrustedAgent(norm, stored.context, r.context, runner);
    Record(r.state, Some(true), r.context, profile, stored.extra + r.extra, Some(PausePolicy(lifecycle, r.state)),
           if NoSpend(r.state) then Some(Alert(agent, r.state, if profile.Some? then profile.value else "")) else None)
  }

  function Merge(norm: Norm, previous: Record, p: Probe, runner: Context): Record {
    var stored := Load(norm, previous);
    if Accepted(norm, stored, p, runner) then Merged(norm, stored, p, runner) else stored
  }

  /** The stored blob of one seat. */
  class AuthStore {
    var blob: Record

    constructor (initial: Record)
      ensures blob == initial
    {
      blob := initial;
    }

    method MergeAuthCheck(norm: Norm, p: Probe, runner: Context)
      modifies this
      ensures blob == Merge(norm, old(blob), p, runner)
    {
      blob := Load(norm, blob);
      if !LegalProbe(norm, p) {
        return;
      }
      if Lineage(norm, blob) {
        if ThreeWay(norm, blob.context, p.record.context, runner) {
          if !IsAuthoritative(norm, p.record, blob.context) {
            return;
          }
        } else if !UnavailableReprobe(norm, blob, p, runner) {
          return;
        }
      } else if !IsAuthoritative(norm, p.record, runner) {
        return;
      }
      blob := Merged(norm, blob, p, runner);
    }

    /** Merges a sequence of probes in order. */
    method MergeEach(norm: Norm, probes: seq<(Probe, Context)>)
      modifies this
      ensures blob == MergeAll(norm, old(blob), probes)
    {
      for i := 0 to |probes|
        invariant MergeAll(norm, blob, probes[i..]) == MergeAll(norm, old(blob), probes)
      {
        assert probes[i..][1..] == probes[i + 1..];
        MergeAuthCheck(norm, probes[i].0, probes[i].1);
      }
    }
  }

  function MergeAll(norm: Norm, r: Record, probes: seq<(Probe, Context)>): Record
    decreases |probes|
  {
    if probes == [] then r else MergeAll(norm, Merge(norm, r, probes[0].0, probes[0].1), probes[1..])
  }

  // ---- fences ----

  lemma FenceTransitive(norm: Norm, a: Context, b: Context, c: Context)
    requires SeatFence(norm, a, b) && SeatFence(norm, b, c)
    ensures SeatFence(norm, a, c)
  {
    forall k | 0 <= k < |FENCE| ensures SamePart(norm, a, c, FENCE[k]) {
      assert SamePart(norm, a, b, FENCE[k]) && SamePart(norm, b, c, FENCE[k]);
    }
  }

  lemma FenceRefl(norm: Norm, a: Context)
    requires Complete(norm, a)
    ensures SeatFence(norm, a, a)
  {
    assert Present(a, REQUIRED[10]);
  }

  lemma FenceSymmetric(norm: Norm, a: Context, b: Context)
    requires SeatFence(norm, a, b)
    ensures SeatFence(norm, b, a)
  {
    forall k | 0 <= k < |FENCE| ensures SamePart(norm, b, a, FENCE[k]) {
      assert SamePart(norm, a, b, FENCE[k]);
    }
  }

  /** The stored record is authoritative, complete, and its identity fields are held. */
  ghost predicate Sound(norm: Norm, r: Record) {
    NormNonblank(norm) && Lineage(norm, r) && Anchored(norm, r.context, IDENTITY)
  }

  /** The two fields that may drift in an unavailable re-probe. */
  const DRIFTING := [RunnerId, Binary]

  /** What a caller can check before a merge: an unavailable probe's drifting fields are held. */
  ghost predicate Guarded(norm: Norm, p: Probe) {
    p.record.state == Unavailable ==> Anchored(norm, p.record.context, DRIFTING)
  }

  /** Every identity field either may drift or is part of the fence. */
  lemma DriftsOrFenced(i: nat)
    requires i < |IDENTITY|
    ensures (exists k :: 0 <= k < |DRIFTING| && DRIFTING[k] == IDENTITY[i])
            || (exists k :: 0 <= k < |FENCE| && FENCE[k] == IDENTITY[i])
  {
    if i == 0 {
      assert DRIFTING[0] == IDENTITY[i];
    } else if i == 4 {
      assert DRIFTING[1] == IDENTITY[i];
    } else {
      assert FENCE[if i < 4 then i - 1 else i - 2] == IDENTITY[i];
    }
  }

  lemma ReprobeFieldHeld(norm: Norm, stored: Context, incoming: Context, all: seq<Field>, fence: seq<Field>,
                         drifting: seq<Field>, i: nat)
    requires i < |all| && Anchored(norm, stored, fence) && SameOn(norm, stored, incoming, fence)
    requires Anchored(norm, incoming, drifting)
    requires (exists k :: 0 <= k < |drifting| && drifting[k] == all[i])
             || (exists k :: 0 <= k < |fence| && fence[k] == all[i])
    ensures FieldHeld(norm, incoming, all[i])
  {
    if k :| 0 <= k < |fence| && fence[k] == all[i] {
      assert SamePart(norm, stored, incoming, fence[k]) && FieldHeld(norm, stored, fence[k]);
    }
  }

  /** On one seat, what is held on the fence and on the drifting fields is held everywhere. */
  lemma ReprobeHeld(norm: Norm, stored: Context, incoming: Context)
    requires Anchored(norm, stored, FENCE) && SeatFence(norm, stored, incoming)
    requires Anchored(norm, incoming, DRIFTING)
    ensures Anchored(norm, incoming, IDENTITY)
  {
    forall i | 0 <= i < |IDENTITY| ensures FieldHeld(norm, incoming, IDENTITY[i]) {
      DriftsOrFenced(i);
      ReprobeFieldHeld(norm, stored, incoming, IDENTITY, FENCE, DRIFTING, i);
    }
  }

  lemma HeldOnFence(norm: Norm, c: Context)
    requires Anchored(norm, c, IDENTITY)
    ensures Anchored(norm, c, FENCE) && Anchored(norm, c, DRIFTING)
  {
    forall k | 0 <= k < |FENCE| ensures FieldHeld(norm, c, FENCE[k]) {
      assert FieldHeld(norm, c, IDENTITY[IdentityIndex(k)]);
    }
    assert FieldHeld(norm, c, IDENTITY[0]) && FieldHeld(norm, c, IDENTITY[4]);
  }

  /** A merge that stores nothing loose keeps a sound record sound and on its seat. */
  lemma SafeMergeStep(norm: Norm, r: Record, p: Probe, runner: Context)
    requires Sound(norm, r)
    requires Accepted(norm, Load(norm, r), p, runner) && p.record.state == Unavailable ==>
             Anchored(norm, p.record.context, DRIFTING)
    ensures var n := Merge(norm, r, p, runner);
      Sound(norm, n) && SeatFence(norm, r.context, n.context)
  {
    FenceRefl(norm, r.context);
    if Accepted(norm, Load(norm, r), p, runner) {
      if ThreeWay(norm, r.context, p.record.context, runner) {
        MatchMeansSameIdentity(norm, r.context, p.record.context);
        SameIdentityMeansSameFence(norm, r.context, p.record.context);
      } else {
        HeldOnFence(norm, r.context);
        ReprobeHeld(norm, r.context, p.record.context);
      }
    }
  }

  /** Any sequence of merges, from any callers, keeps an authoritative record authoritative, complete and on its
      seat. */
  lemma {:induction false} AuthorityStays(norm: Norm, r: Record, probes: seq<(Probe, Context)>)
    requires Sound(norm, r) && forall i :: 0 <= i < |probes| ==> Guarded(norm, probes[i].0)
    ensures var n := MergeAll(norm, r, probes);
      Sound(norm, n) && SeatFence(norm, r.context, n.context)
    decreases |probes|
  {
    if probes == [] {
      FenceRefl(norm, r.context);
    } else {
      var next := Merge(norm, r, probes[0].0, probes[0].1);
      SafeMergeStep(norm, r, probes[0].0, probes[0].1);
      AuthorityStays(norm, next, probes[1..]);
      FenceTransitive(norm, r.context, next.context, MergeAll(norm, r, probes).context);
    }
  }

  /** A merge into an authoritative record changes it only if the stored, the probe's and the caller's contexts agree on
      every identity field, or the probe says unavailable and all three agree on the seat. */
  lemma ChangeNeedsAgreement(norm: Norm, r: Record, p: Probe, runner: Context)
    requires Sound(norm, r)
    ensures Merge(norm, r, p, runner) != r ==>
      && Merge(norm, r, p, runner).state == p.record.state
      && SeatFence(norm, r.context, p.record.context) && SeatFence(norm, r.context, runner)
      && (p.record.state != Unavailable ==>
            SameOn(norm, r.context, p.record.context, IDENTITY) && SameOn(norm, r.context, runner, IDENTITY))
  {
    if ThreeWay(norm, r.context, p.record.context, runner) {
      MatchMeansSameIdentity(norm, r.context, p.record.context);
      SameIdentityMeansSameFence(norm, r.context, p.record.context);
      MatchMeansSameIdentity(norm, r.context, runner);
      SameIdentityMeansSameFence(norm, r.context, runner);
    }
  }

  /** Conversely a well-formed probe that does not disclaim authority is taken when all three contexts match, */
  lemma MatchIsTaken(norm: Norm, r: Record, p: Probe, runner: Context)
    requires Lineage(norm, r) && p.valid && Known(p.record.state) && p.record.authoritative != Some(false)
    requires ThreeWay(norm, r.context, p.record.context, runner)
    ensures var n := Merge(norm, r, p, runner);
      n.state == p.record.state && n.context == p.record.context && n.authoritative == Some(true)
  {}

  /** and they match when they agree on every identity field. */
  lemma AgreementIsTaken(norm: Norm, r: Record, p: Probe, runner: Context)
    requires Lineage(norm, r) && p.valid && Known(p.record.state) && p.record.authoritative != Some(false)
    requires Complete(norm, p.record.context) && Complete(norm, runner)
    requires SameOn(norm, r.context, p.record.context, IDENTITY) && SameOn(norm, r.context, runner, IDENTITY)
    ensures var n := Merge(norm, r, p, runner);
      n.state == p.record.state && n.context == p.record.context && n.authoritative == Some(true)
  {
    SameMeansSameParts(norm, r.context, p.record.context, IDENTITY);
    SameMeansSameParts(norm, r.context, runner, IDENTITY);
    FingerprintNonempty(norm, r.context);
    MatchIsTaken(norm, r, p, runner);
  }

  lemma {:induction false} SameMeansSameParts(norm: Norm, a: Context, b: Context, fields: seq<Field>)
    requires SameOn(norm, a, b, fields)
    ensures Parts(norm, a, fields) == Parts(norm, b, fields)
  {
    var p, q := Parts(norm, a, fields), Parts(norm, b, fields);
    forall i | 0 <= i < |fields| ensures p[i] == q[i] {
      assert SamePart(norm, a, b, fields[i]);
    }
  }

  lemma FingerprintNonempty(norm: Norm, c: Context)
    requires Complete(norm, c)
    ensures Fingerprint(norm, c) != ""
  {
    var parts := Parts(norm, c, IDENTITY);
    assert JoinBars(parts) == parts[0] + "|" + JoinBars(parts[1..]);
  }

  /** Alerts raised along the way name the seat the record was enrolled for, never the caller. */
  lemma AlertNamesSeat(norm: Norm, r: Record, p: Probe, runner: Context)
    requires Sound(norm, r)
    ensures var n := Merge(norm, r, p, runner);
      n != r ==>
        && (n.alert.Some? <==> NoSpend(p.record.state))
        && (n.alert.Some? ==> n.alert.value.agent == Trim(Get(r.context, AgentId)))
        && n.pause == Some(PausePolicy(TrustedLifecycle(norm, r.context, p.record.context, runner), p.record.state))
  {
    assert Present(r.context, REQUIRED[10]);
  }

  /** What a merge that takes the probe stores: its state and context, authoritative; of every other field the probe's
      value, and the stored one where the probe has none. */
  lemma TakenFields(norm: Norm, r: Record, p: Probe, runner: Context, key: string)
    requires Accepted(norm, Load(norm, r), p, runner)
    ensures var n := Merge(norm, r, p, runner);
      && n.state == p.record.state && n.context == p.record.context && n.authoritative == Some(true)
      && n.profileRef == (if p.record.profileRef.Some? then p.record.profileRef else r.profileRef)
      && (key in n.extra <==> key in p.record.extra || key in r.extra)
      && (key in n.extra ==> n.extra[key] == if key in p.record.extra then p.record.extra[key] else r.extra[key])
      && (n.alert.Some? ==>
            && n.alert.value.state == p.record.state
            && n.alert.value.profile == if n.profileRef.Some? then n.profileRef.value else "")
  {}

  /** A probe that is not taken changes nothing but the claim to authority, which a stored record keeps only if its
      context is complete. */
  lemma RefusedFields(norm: Norm, r: Record, p: Probe, runner: Context)
    requires !Accepted(norm, Load(norm, r), p, runner)
    ensures Merge(norm, r, p, runner)
            == r.(authoritative := Some(r.authoritative == Some(true) && Complete(norm, r.context)))
  {}

  /** The pause: nothing is spent in any known state but ready; a persistent seat is then paused until it is ready
      again; queued work is always kept, and the operator is sent to log in where that helps. */
  lemma PauseMeans(lifecycle: string, s: AuthState)
    ensures var p := PausePolicy(lifecycle, s);
      var spent := s.LoginRequired? || s.Expired? || s.Quota? || s.Network? || s.Unavailable? || s.Unsupported?;
      && p.paused == p.resumeOnce == (spent && lifecycle == "persistent")
      && p.retryModel == !spent && p.dedupeAlert == spent && p.retainQueue
      && p.path == (if s.Expired? then LoginRequired else if s.Unknown? then Ready else s)
  {}

  /** A probe is taken iff it is well formed, of a known state, from a complete context and does not disclaim authority,
      and: if the record is authoritative, its context matches the probe's and the caller's, or the probe says
      unavailable and all three are one seat; if it is not, the probe's context matches the caller's. */
  lemma TakenIff(norm: Norm, r: Record, p: Probe, runner: Context)
    ensures Accepted(norm, Load(norm, r), p, runner) <==>
      var c := p.record.context;
      && p.valid && !p.record.state.Unknown? && Complete(norm, c) && p.record.authoritative != Some(false)
      && if r.authoritative == Some(true) && Complete(norm, r.context)
         then (ContextsMatch(norm, r.context, c) && ContextsMatch(norm, r.context, runner))
              || (p.record.state == Unavailable && SeatFence(norm, r.context, c) && SeatFence(norm, c, runner))
         else ContextsMatch(norm, c, runner)
  {
    if SeatFence(norm, r.context, p.record.context) && SeatFence(norm, p.record.context, runner) {
      FenceTransitive(norm, r.context, p.record.context, runner);
    }
  }

  /** What a taken probe makes of pause and alert. Persistent is what the stored context calls itself, or else the
      probe's, or else the caller's if it matches one of them; the alert names the stored seat, or else the probe's. */
  lemma PauseAndAlert(norm: Norm, r: Record, p: Probe, runner: Context)
    requires Accepted(norm, Load(norm, r), p, runner)
    ensures var n := Merge(norm, r, p, runner); var s := p.record.state; var c := p.record.context;
      var spent := s.LoginRequired? || s.Expired? || s.Quota? || s.Network? || s.Unavailable? || s.Unsupported?;
      var own, given, called := Get(r.context, Lifecycle), Get(c, Lifecycle), Get(runner, Lifecycle);
      var persistent := own == "persistent"
        || (own != "ephemeral"
            && (given == "persistent"
                || (given != "ephemeral" && called == "persistent"
                    && (ContextsMatch(norm, c, runner) || ContextsMatch(norm, r.context, runner)))));
      && n.pause.Some? && n.pause.value.paused == n.pause.value.resumeOnce == (spent && persistent)
      && n.pause.value.retryModel == !spent && n.pause.value.dedupeAlert == spent && n.pause.value.retainQueue
      && (n.alert.Some? <==> spent)
      && (n.alert.Some? ==>
            n.alert.value.agent == Trim(if Trim(Get(r.context, AgentId)) != "" then Get(r.context, AgentId)
                                        else Get(c, AgentId)))
  {
    assert Present(p.record.context, REQUIRED[10]);
  }

  /** A single merge, guarded or not, keeps a sound record on its seat. */
  lemma OneMergeKeepsFence(norm: Norm, r: Record, p: Probe, runner: Context)
    requires Sound(norm, r)
    ensures SeatFence(norm, r.context, Merge(norm, r, p, runner).context)
  {
    FenceRefl(norm, r.context);
    ChangeNeedsAgreement(norm, r, p, runner);
  }

  // ---- the guard is exact ----

  /** The context with some fields rewritten. */
  function Rewritten(c: Context, m: Context): Context {
    c + m
  }

  /** Only fields without a rule of their own are rewritten, and the kind to another kind. */
  predicate Rewriting(m: Context) {
    forall f :: f in m ==>
      Stripped(m[f]) && (f in {RunnerId, Hostname, Username, Binary, Argv0} || (f == RunnerKind && m[f] in KINDS))
  }

  lemma RewrittenPart(norm: Norm, c: Context, m: Context, f: Field)
    requires Rewriting(m)
    ensures Part(norm, Rewritten(c, m), f) == if f in m then m[f] else Part(norm, c, f)
  {
    if f in m {
      TrimKeepsTrimmed(m[f]);
    }
  }

  lemma RewrittenPresent(c: Context, m: Context, fields: seq<Field>)
    requires Rewriting(m) && AllPresent(c, fields)
    ensures AllPresent(Rewritten(c, m), fields)
  {
    forall i | 0 <= i < |fields| ensures Present(Rewritten(c, m), fields[i]) {
      assert Present(c, fields[i]);
      if fields[i] in m {
        TrimKeepsTrimmed(m[fields[i]]);
      }
    }
  }

  lemma RewrittenComplete(norm: Norm, c: Context, m: Context)
    requires Complete(norm, c) && Rewriting(m)
    ensures Complete(norm, Rewritten(c, m))
  {
    RewrittenPresent(c, m, REQUIRED);
  }

  /** A probe of a rewritten context that joins to the same fingerprint is taken for a match, in any state. */
  lemma RewrittenIsTaken(norm: Norm, r: Record, m: Context, k: nat, s: AuthState) returns (p: Probe)
    requires Lineage(norm, r) && Known(s) && Rewriting(m)
    requires JoinBars(Parts(norm, Rewritten(r.context, m), IDENTITY)) == JoinBars(Parts(norm, r.context, IDENTITY))
    requires k < |FENCE| && FENCE[k] in m && m[FENCE[k]] != Part(norm, r.context, FENCE[k])
    ensures var n := Merge(norm, r, p, p.record.context);
      n.state == s && !SeatFence(norm, r.context, n.context)
  {
    var d := Rewritten(r.context, m);
    p := Probe(Record(s, None, d, None, map[], None, None), true);
    RewrittenComplete(norm, r.context, m);
    FingerprintNonempty(norm, r.context);
    MatchIsTaken(norm, r, p, d);
    RewrittenPart(norm, r.context, m, FENCE[k]);
    assert !SamePart(norm, r.context, d, FENCE[k]);
  }

  /** The rewriting touches two neighbours only. */
  predicate Neighbours(fields: seq<Field>, i: nat, m: Context) {
    && i + 1 < |fields| && fields[i] in m && fields[i + 1] in m
    && forall j :: 0 <= j < |fields| && j != i && j != i + 1 ==> fields[j] !in m
  }

  lemma RewrittenPair(norm: Norm, c: Context, m: Context, fields: seq<Field>, i: nat)
    requires Rewriting(m) && Neighbours(fields, i, m)
    requires m[fields[i]] + "|" + m[fields[i + 1]] == Part(norm, c, fields[i]) + "|" + Part(norm, c, fields[i + 1])
    ensures JoinBars(Parts(norm, Rewritten(c, m), fields)) == JoinBars(Parts(norm, c, fields))
  {
    var p, q := Parts(norm, c, fields), Parts(norm, Rewritten(c, m), fields);
    forall j | 0 <= j < |p| ensures q[j] == if j == i || j == i + 1 then m[fields[j]] else p[j] {
      RewrittenPart(norm, c, m, fields[j]);
    }
    JoinPairs(p, q, i);
  }

  lemma CutRight(b: string, i: nat, z: string)
    requires Stripped(b) && LooseBar(b, i) && i > 0 && Stripped(z)
    ensures Stripped(b[..i]) && Stripped(b[i + 1..] + "|" + z)
    ensures b[..i] + "|" + (b[i + 1..] + "|" + z) == b + "|" + z
    ensures b[..i] != b && b[i + 1..] + "|" + z != z
  {
    assert b == b[..i] + "|" + b[i + 1..];
    assert |b[i + 1..] + "|" + z| > |z|;
  }

  lemma CutLeft(u: string, b: string)
    requires Stripped(b) && LooseBar(b, 0) && b != "|" && Stripped(u)
    ensures Stripped(u + "|") && Stripped(b[1..])
    ensures (u + "|") + "|" + b[1..] == u + "|" + b
    ensures u + "|" != u && b[1..] != b
  {
    assert |b| == 1 ==> b == "|";
    assert b == "|" + b[1..];
    assert |u + "|"| > |u|;
  }

  lemma StoredStripped(norm: Norm, c: Context, i: nat)
    requires Complete(norm, c) && i < 6
    ensures Stripped(Part(norm, c, IDENTITY[i]))
  {
    assert IDENTITY[i] == REQUIRED[i] && Present(c, REQUIRED[i]);
    TrimIsTrimmed(Get(c, IDENTITY[i]));
  }

  lemma PairIsTaken(norm: Norm, r: Record, m: Context, i: nat, k: nat, s: AuthState) returns (p: Probe)
    requires Lineage(norm, r) && Known(s) && Rewriting(m) && Neighbours(IDENTITY, i, m)
    requires m[IDENTITY[i]] + "|" + m[IDENTITY[i + 1]]
             == Part(norm, r.context, IDENTITY[i]) + "|" + Part(norm, r.context, IDENTITY[i + 1])
    requires k < |FENCE| && FENCE[k] in m && m[FENCE[k]] != Part(norm, r.context, FENCE[k])
    ensures var n := Merge(norm, r, p, p.record.context);
      n.state == s && !SeatFence(norm, r.context, n.context)
  {
    RewrittenPair(norm, r.context, m, IDENTITY, i);
    p := RewrittenIsTaken(norm, r, m, k, s);
  }

  lemma BinaryRight(x: string, w: string)
    requires Stripped(x) && Stripped(w)
    ensures var m := map[Binary := x, Argv0 := w]; Rewriting(m) && Neighbours(IDENTITY, 4, m)
  {}

  lemma BinaryLeft(x: string, w: string)
    requires Stripped(x) && Stripped(w)
    ensures var m := map[Username := x, Binary := w]; Rewriting(m) && Neighbours(IDENTITY, 3, m)
  {}

  /** A binary that could be cut lends its end to the command, */
  lemma BinaryCutRight(norm: Norm, r: Record, i: nat, s: AuthState) returns (p: Probe)
    requires Lineage(norm, r) && Known(s) && i > 0 && LooseBar(Part(norm, r.context, Binary), i)
    ensures var n := Merge(norm, r, p, p.record.context);
      n.state == s && !SeatFence(norm, r.context, n.context)
  {
    var b, z := Part(norm, r.context, Binary), Part(norm, r.context, Argv0);
    StoredStripped(norm, r.context, 4);
    StoredStripped(norm, r.context, 5);
    CutRight(b, i, z);
    BinaryRight(b[..i], b[i + 1..] + "|" + z);
    p := PairIsTaken(norm, r, map[Binary := b[..i], Argv0 := b[i + 1..] + "|" + z], 4, 3, s);
  }

  /** or its start to the user name. */
  lemma BinaryCutLeft(norm: Norm, r: Record, s: AuthState) returns (p: Probe)
    requires Lineage(norm, r) && Known(s) && LooseBar(Part(norm, r.context, Binary), 0)
    requires Part(norm, r.context, Binary) != "|"
    ensures var n := Merge(norm, r, p, p.record.context);
      n.state == s && !SeatFence(norm, r.context, n.context)
  {
    var u, b := Part(norm, r.context, Username), Part(norm, r.context, Binary);
    StoredStripped(norm, r.context, 3);
    StoredStripped(norm, r.context, 4);
    CutLeft(u, b);
    BinaryLeft(u + "|", b[1..]);
    p := PairIsTaken(norm, r, map[Username := u + "|", Binary := b[1..]], 3, 2, s);
  }

  lemma LooseBinaryLosesFence(norm: Norm, r: Record, s: AuthState) returns (p: Probe)
    requires Lineage(norm, r) && Known(s) && !Firm(Part(norm, r.context, Binary))
    ensures var n := Merge(norm, r, p, p.record.context);
      n.state == s && !SeatFence(norm, r.context, n.context)
  {
    var i: nat :| LooseBar(Part(norm, r.context, Binary), i);
    if i > 0 {
      p := BinaryCutRight(norm, r, i, s);
    } else {
      p := BinaryCutLeft(norm, r, s);
    }
  }

  /** The rewriting touches the first three fields only. */
  predicate Heads(fields: seq<Field>, m: Context) {
    |fields| >= 3 && forall j :: 0 <= j < |fields| ==> (fields[j] in m <==> j < 3)
  }

  lemma HeadRewriting(x: string, y: string, z: string)
    requires Stripped(x) && Stripped(z) && y in KINDS
    ensures var m := map[RunnerId := x, RunnerKind := y, Hostname := z]; Rewriting(m) && Heads(IDENTITY, m)
  {
    KindTight(y);
  }

  lemma RewrittenHead(norm: Norm, c: Context, m: Context, fields: seq<Field>, b: seq<string>)
    requires |b| == |fields| && Rewriting(m) && Heads(fields, m)
    requires forall j :: 0 <= j < |fields| ==> b[j] == if j < 3 then m[fields[j]] else Part(norm, c, fields[j])
    ensures Parts(norm, Rewritten(c, m), fields) == b
  {
    var q := Parts(norm, Rewritten(c, m), fields);
    forall j | 0 <= j < |q| ensures q[j] == b[j] {
      RewrittenPart(norm, c, m, fields[j]);
    }
  }

  lemma CutHead(norm: Norm, c: Context, m: Context, fields: seq<Field>, k: nat)
    requires |fields| > 3 && Rewriting(m) && Heads(fields, m)
    requires var a := Parts(norm, c, fields);
      && 0 < k < |Pieces(a[0])|
      && forall j :: 0 <= j < 3 ==> m[fields[j]] == CutParts(a, k)[j]
    ensures JoinBars(Parts(norm, Rewritten(c, m), fields)) == JoinBars(Parts(norm, c, fields))
  {
    var a := Parts(norm, c, fields);
    RewrittenHead(norm, c, m, fields, CutParts(a, k));
    CutPartsJoin(a, k);
  }

  lemma HeadIsTaken(norm: Norm, r: Record, a: seq<string>, k: nat, s: AuthState) returns (p: Probe)
    requires Lineage(norm, r) && Known(s) && a == Parts(norm, r.context, IDENTITY)
    requires 0 < k < |Pieces(a[0])| && Pieces(a[0])[k] in KINDS
    requires var b := CutParts(a, k); Stripped(b[0]) && Stripped(b[2]) && b[2] != a[2]
    ensures var n := Merge(norm, r, p, p.record.context);
      n.state == s && !SeatFence(norm, r.context, n.context)
  {
    var b := CutParts(a, k);
    var m := map[RunnerId := b[0], RunnerKind := b[1], Hostname := b[2]];
    HeadRewriting(b[0], b[1], b[2]);
    CutHead(norm, r.context, m, IDENTITY, k);
    p := RewrittenIsTaken(norm, r, m, 1, s);
  }

  /** A runner id that hides a kind is taken for a shorter id on a runner of that kind. */
  lemma KindCutLosesFence(norm: Norm, r: Record, s: AuthState) returns (p: Probe)
    requires Lineage(norm, r) && Known(s) && KindCut(Part(norm, r.context, RunnerId))
    ensures var n := Merge(norm, r, p, p.record.context);
      n.state == s && !SeatFence(norm, r.context, n.context)
  {
    var a := Parts(norm, r.context, IDENTITY);
    StoredStripped(norm, r.context, 0);
    StoredStripped(norm, r.context, 1);
    StoredStripped(norm, r.context, 2);
    var k := CutsAKind(a);
    p := HeadIsTaken(norm, r, a, k, s);
  }

  lemma CutsAKind(a: seq<string>) returns (k: nat)
    requires |a| > 3 && Stripped(a[0]) && Stripped(a[1]) && Stripped(a[2]) && KindCut(a[0])
    ensures 0 < k < |Pieces(a[0])| && Pieces(a[0])[k] in KINDS
    ensures var b := CutParts(a, k); Stripped(b[0]) && Stripped(b[2]) && b[2] != a[2]
  {
    var i, w :| w in KINDS && CutAt(a[0], i, w);
    k := i;
    CutHeadStripped(a[0], k);
    CutTailStripped(a[0], k, a[1], a[2]);
    assert a[1..3] == [a[1], a[2]];
  }

  /** Whenever a drifting field of the stored record is not held, some probe in any state moves it off its seat. */
  lemma LooseRecordLosesFence(norm: Norm, r: Record, s: AuthState) returns (p: Probe)
    requires Lineage(norm, r) && Known(s) && !Anchored(norm, r.context, DRIFTING)
    ensures var n := Merge(norm, r, p, p.record.context);
      n.state == s && !SeatFence(norm, r.context, n.context)
  {
    if FieldHeld(norm, r.context, RunnerId) {
      p := LooseBinaryLosesFence(norm, r, s);
    } else {
      p := KindCutLosesFence(norm, r, s);
    }
  }

  /** On a record whose fence fields are held, no single merge can leave the seat fence iff the two drifting fields are
      held as well. */
  lemma FenceGuardIsExact(norm: Norm, r: Record)
    requires NormNonblank(norm) && Lineage(norm, r) && Anchored(norm, r.context, FENCE)
    ensures Anchored(norm, r.context, DRIFTING) <==>
            forall p: Probe, runner: Context :: SeatFence(norm, r.context, Merge(norm, r, p, runner).context)
  {
    if Anchored(norm, r.context, DRIFTING) {
      FenceRefl(norm, r.context);
      ReprobeHeld(norm, r.context, r.context);
      forall p: Probe, runner: Context ensures SeatFence(norm, r.context, Merge(norm, r, p, runner).context) {
        OneMergeKeepsFence(norm, r, p, runner);
      }
    } else {
      var p := LooseRecordLosesFence(norm, r, Ready);
    }
  }

  /** From then on, whatever guarded probes come, the record stays on the seat. */
  ghost predicate StaysOnSeat(norm: Norm, seat: Context, r: Record) {
    forall probes: seq<(Probe, Context)> :: (forall i :: 0 <= i < |probes| ==> Guarded(norm, probes[i].0)) ==>
      SeatFence(norm, seat, MergeAll(norm, r, probes).context)
  }

  lemma MergeOne(norm: Norm, r: Record, probe: (Probe, Context))
    ensures MergeAll(norm, r, [probe]) == Merge(norm, r, probe.0, probe.1)
  {
    var probes := [probe];
    assert probes[1..] == [];
  }

  lemma OffSeat(norm: Norm, seat: Context, now: Context, later: Context)
    requires SeatFence(norm, seat, now) && !SeatFence(norm, now, later)
    ensures !SeatFence(norm, seat, later)
  {
    if SeatFence(norm, seat, later) {
      FenceSymmetric(norm, seat, now);
      FenceTransitive(norm, now, seat, later);
    }
  }

  lemma LooseMergeLosesSeat(norm: Norm, seat: Context, r: Record)
    requires Lineage(norm, r) && SeatFence(norm, seat, r.context) && !Anchored(norm, r.context, DRIFTING)
    ensures !StaysOnSeat(norm, seat, r)
  {
    var p := LooseRecordLosesFence(norm, r, Ready);
    var n := Merge(norm, r, p, p.record.context);
    OffSeat(norm, seat, r.context, n.context);
    ReadyIsGuarded(norm, seat, r, p);
  }

  lemma ReadyIsGuarded(norm: Norm, seat: Context, r: Record, p: Probe)
    requires Merge(norm, r, p, p.record.context).state == Ready
    requires !SeatFence(norm, seat, Merge(norm, r, p, p.record.context).context)
    requires Lineage(norm, r) && SeatFence(norm, seat, r.context)
    ensures !StaysOnSeat(norm, seat, r)
  {
    var probes := [(p, p.record.context)];
    MergeOne(norm, r, probes[0]);
    assert Guarded(norm, probes[0].0);
  }

  /** The guard of a whole run is exact at every merge into a sound record: the record stays on its seat for good iff
      the merge is refused or the probe's drifting fields are held. */
  lemma ReprobeGuardIsExact(norm: Norm, r: Record, p: Probe, runner: Context)
    requires Sound(norm, r)
    ensures StaysOnSeat(norm, r.context, Merge(norm, r, p, runner)) <==>
            (Accepted(norm, Load(norm, r), p, runner) ==> Anchored(norm, p.record.context, DRIFTING))
  {
    var n := Merge(norm, r, p, runner);
    if Accepted(norm, Load(norm, r), p, runner) && !Anchored(norm, p.record.context, DRIFTING) {
      OneMergeKeepsFence(norm, r, p, runner);
      LooseMergeLosesSeat(norm, r.context, n);
    } else {
      SafeMergeStep(norm, r, p, runner);
      forall probes: seq<(Probe, Context)> | forall i :: 0 <= i < |probes| ==> Guarded(norm, probes[i].0)
        ensures SeatFence(norm, r.context, MergeAll(norm, n, probes).context)
      {
        AuthorityStays(norm, n, probes);
        FenceTransitive(norm, r.context, n.context, MergeAll(norm, n, probes).context);
      }
    }
  }

  /** An unavailable probe and one in state `s` that together move the record off its seat. */
  ghost predicate LosesSeat(norm: Norm, r: Record, s: AuthState, probes: seq<(Probe, Context)>) {
    && |probes| == 2 && probes[0].0.record.state == Unavailable
    && MergeAll(norm, r, probes).state == s && !SeatFence(norm, r.context, MergeAll(norm, r, probes).context)
  }

  lemma LoosenThenMove(norm: Norm, r: Record, m: Context, s: AuthState) returns (probes: seq<(Probe, Context)>)
    requires Lineage(norm, r) && Known(s) && Rewriting(m) && m.Keys == {RunnerId, Binary}
    requires KindCut(m[RunnerId]) || !Firm(m[Binary])
    ensures LosesSeat(norm, r, s, probes)
  {
    var first := Probe(Record(Unavailable, None, Rewritten(r.context, m), None, map[], None, None), true);
    ReprobeIsTaken(norm, r, m, first);
    var n := Merge(norm, r, first, r.context);
    StoredLoose(norm, r.context, m);
    var second := LooseRecordLosesFence(norm, n, s);
    probes := [(first, r.context), (second, second.record.context)];
    MergeTwo(norm, r, probes);
    OffSeat(norm, r.context, n.context, MergeAll(norm, r, probes).context);
  }

  /** Two probes are enough to move any authoritative record off its seat: an unavailable one that stores a runner id
      and a binary of which one is not held, and one in any state whatever. */
  lemma TwoProbesLoseSeat(norm: Norm, r: Record, id: string, binary: string, s: AuthState)
    requires Lineage(norm, r) && Known(s) && Stripped(id) && Stripped(binary) && (KindCut(id) || !Firm(binary))
    ensures exists probes :: LosesSeat(norm, r, s, probes)
  {
    var probes := LoosenThenMove(norm, r, map[RunnerId := id, Binary := binary], s);
  }

  lemma MergeTwo(norm: Norm, r: Record, probes: seq<(Probe, Context)>)
    requires |probes| == 2
    ensures MergeAll(norm, r, probes)
            == Merge(norm, Merge(norm, r, probes[0].0, probes[0].1), probes[1].0, probes[1].1)
  {
    assert probes[1..] == [probes[1]];
    MergeOne(norm, Merge(norm, r, probes[0].0, probes[0].1), probes[1]);
  }

  lemma StoredLoose(norm: Norm, c: Context, m: Context)
    requires Rewriting(m) && m.Keys == {RunnerId, Binary} && (KindCut(m[RunnerId]) || !Firm(m[Binary]))
    ensures !Anchored(norm, Rewritten(c, m), DRIFTING)
  {
    RewrittenPart(norm, c, m, RunnerId);
    RewrittenPart(norm, c, m, Binary);
    assert !FieldHeld(norm, Rewritten(c, m), DRIFTING[0]) || !FieldHeld(norm, Rewritten(c, m), DRIFTING[1]);
  }

  lemma RewrittenOnSeat(norm: Norm, c: Context, m: Context, fence: seq<Field>)
    requires Rewriting(m) && forall k :: 0 <= k < |fence| ==> fence[k] !in m
    ensures SameOn(norm, c, Rewritten(c, m), fence)
  {
    forall k | 0 <= k < |fence| ensures SamePart(norm, c, Rewritten(c, m), fence[k]) {
      RewrittenPart(norm, c, m, fence[k]);
    }
  }

  lemma ReprobeOnSeat(norm: Norm, c: Context, m: Context)
    requires Complete(norm, c) && Rewriting(m) && m.Keys == {RunnerId, Binary}
    ensures SeatFence(norm, c, Rewritten(c, m)) && SeatFence(norm, Rewritten(c, m), c)
  {
    RewrittenComplete(norm, c, m);
    RewrittenOnSeat(norm, c, m, FENCE);
    FenceRefl(norm, c);
    FenceSymmetric(norm, c, Rewritten(c, m));
  }

  /** An unavailable probe that changes only the drifting fields is stored. */
  lemma ReprobeIsTaken(norm: Norm, r: Record, m: Context, p: Probe)
    requires Lineage(norm, r) && Rewriting(m) && m.Keys == {RunnerId, Binary}
    requires p == Probe(Record(Unavailable, None, Rewritten(r.context, m), None, map[], None, None), true)
    ensures var n := Merge(norm, r, p, r.context);
      Lineage(norm, n) && n.context == p.record.context && SeatFence(norm, r.context, n.context)
  {
    ReprobeOnSeat(norm, r.context, m);
    FenceRefl(norm, r.context);
  }
}
