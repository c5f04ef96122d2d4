/** When a finished ticket releases its successors, and what a released predecessor does to one gated successor. */
module Release {
  import opened Wrappers
  import opened DependencyGraph
  import opened TicketStatus

  type Sha = string

  /** Structured verdicts. `live` is false once a later submission or reopening has superseded them. */
  datatype Accept = Accept(sha: Sha, live: bool)
  datatype Merge = Merge(pin: Sha, live: bool)

  /** Release evidence; `head` is the submitted commit, empty when none was verified. */
  datatype Evidence = Evidence(head: Sha, accepts: seq<Accept>, merge: Option<Merge>, override: bool,
                               reviewed: bool, docsRole: bool)

  /** `block` is the predecessor the accept gate blocks the ticket on; `gateNotes` the predecessors its live gate notes
      name. */
  datatype Ticket = Ticket(status: Status, owner: string, deps: seq<TicketId>, block: Option<TicketId>,
                           gateNotes: set<TicketId>, evidence: Evidence)

  type Tickets = map<TicketId, Ticket>

  predicate Accepted(e: Evidence) {
    e.head != "" && exists i :: 0 <= i < |e.accepts| && e.accepts[i].live && e.accepts[i].sha == e.head
  }

  predicate Merged(e: Evidence) {
    e.head != "" && e.merge.Some? && e.merge.value.live && e.merge.value.pin == e.head
  }

  /** Closed, with a counting accept, a counting merge or an override on record. */
  predicate Released(t: Ticket) {
    t.status == Done && (Accepted(t.evidence) || Merged(t.evidence) || t.evidence.override)
  }

  predicate IsReleased(ts: Tickets, id: TicketId) {
    id in ts && Released(ts[id])
  }

  /** Earlier verdicts stay on record but stop counting. */
  function Superseded(e: Evidence): Evidence {
    e.(accepts := Stale(e.accepts), merge := if e.merge.Some? then Some(e.merge.value.(live := false)) else None)
  }

  function Stale(accepts: seq<Accept>): (r: seq<Accept>)
    ensures |r| == |accepts| && forall i :: 0 <= i < |r| ==> r[i] == accepts[i].(live := false)
  {
    if accepts == [] then [] else [accepts[0].(live := false)] + Stale(accepts[1..])
  }

  /** Only an override survives a resubmission or a reopening. */
  lemma SupersededReleasesOnlyByOverride(t: Ticket)
    ensures !Accepted(Superseded(t.evidence)) && !Merged(Superseded(t.evidence))
    ensures Released(t.(evidence := Superseded(t.evidence))) <==> t.status == Done && t.evidence.override
  {}

  /** One more accept counts iff it names the submitted commit. */
  lemma AcceptCounts(e: Evidence, sha: Sha)
    ensures Accepted(e.(accepts := e.accepts + [Accept(sha, true)])) <==> Accepted(e) || sha == e.head != ""
  {
    var more := e.accepts + [Accept(sha, true)];
    assert more[|e.accepts|] == Accept(sha, true);
    assert forall i :: 0 <= i < |e.accepts| ==> more[i] == e.accepts[i];
  }

  /** The first dependency that is not released; a missing ticket is not. */
  function FirstUnreleased(ts: Tickets, deps: seq<TicketId>): (r: Option<TicketId>)
    ensures r.Some? ==> exists i :: 0 <= i < |deps| && deps[i] == r.value && !IsReleased(ts, r.value)
                                    && forall j :: 0 <= j < i ==> IsReleased(ts, deps[j])
    ensures r.None? ==> forall d :: d in deps ==> IsReleased(ts, d)
  {
    if deps == [] then None
    else if !IsReleased(ts, deps[0]) then Some(deps[0])
    else FirstUnreleased(ts, deps[1..])
  }

  /** The first dependency that is missing, or closed without release. */
  function FirstUnverified(ts: Tickets, deps: seq<TicketId>): (r: Option<TicketId>)
    ensures r.Some? ==> r.value in deps && !IsReleased(ts, r.value) && (r.value in ts ==> ts[r.value].status == Done)
    ensures r.None? ==> forall d :: d in deps ==> IsReleased(ts, d) || (d in ts && ts[d].status != Done)
  {
    if deps == [] then None
    else if deps[0] !in ts then Some(deps[0])
    else if Released(ts[deps[0]]) || ts[deps[0]].status != Done then FirstUnverified(ts, deps[1..])
    else Some(deps[0])
  }

  lemma {:induction false} FirstUnreleasedSame(a: Tickets, b: Tickets, deps: seq<TicketId>)
    requires forall d :: d in deps ==> (IsReleased(a, d) <==> IsReleased(b, d))
    ensures FirstUnreleased(a, deps) == FirstUnreleased(b, deps)
    decreases |deps|
  {
    if deps != [] {
      assert deps[0] in deps;
      FirstUnreleasedSame(a, b, deps[1..]);
    }
  }

  // ---- one successor of a released predecessor ----

  /** It waits for `p` or was started too early: marked by the gate for `p` and not past being claimed, or open or
      blocked although somebody owns it. */
  predicate Stalled(c: Ticket, p: TicketId) {
    if c.block == Some(p) || p in c.gateNotes then c.status == Open || c.status == Blocked || c.status == Claimed
    else c.owner != "" && (c.status == Open || c.status == Blocked)
  }

  predicate Gated(c: Ticket, p: TicketId) {
    c.block == Some(p) || p in c.gateNotes
  }

  /** Nobody is working on it: blocked, open, or claimed although gated. */
  predicate NeverStarted(c: Ticket, p: TicketId) {
    c.status == Blocked || c.status == Open || (Gated(c, p) && c.status == Claimed)
  }

  predicate NeedsReconciling(c: Ticket, p: TicketId, locked: bool) {
    Gated(c, p) || (NeverStarted(c, p) && (c.owner != "" || locked))
  }

  /** Drops the gate of `p`; work that never started loses owner and claim lock and is opened, or blocked on its first
      remaining predecessor. */
  function Reconciled(ts: Tickets, c: Ticket, p: TicketId): Ticket {
    var free := if Gated(c, p)
                then c.(gateNotes := c.gateNotes - {p}, block := if c.block == Some(p) then None else c.block) else c;
    if !NeverStarted(c, p) then free
    else match FirstUnreleased(ts, c.deps)
         case None => free.(owner := "", status := Open)
         case Some(d) => free.(owner := "", status := Blocked, block := Some(d), gateNotes := free.gateNotes + {d})
  }

  /** Free to be claimed if every predecessor is released, else gate-blocked on the first that is not, with a note. */
  predicate Settled(ts: Tickets, c: Ticket) {
    c.owner == ""
    && match FirstUnreleased(ts, c.deps)
       case None => c.status == Open
       case Some(d) => c.status == Blocked && c.block == Some(d) && d in c.gateNotes
  }
}
