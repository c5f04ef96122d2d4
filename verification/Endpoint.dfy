/** Stored session endpoints: one record per seat, and what each operation decides while it holds the seat lock.

    Seats are numbered. Lease ids are fresh numbers, 0 is the empty lease. Whether a stored endpoint is still live
    (process, socket, heartbeat age) and whether its process is known dead are observations of the environment:
    parameters. */
module Endpoint {
  import opened Wrappers

  type Seat = nat
  type Lease = nat
  type Time = nat

  /** The transport a provider session is reached by; strings already stripped. */
  datatype Session = Session(provider: string, socket: string, thread: string, sessionId: string)

  datatype InFlight = InFlight(id: string, since: Time)

  datatype Record = Record(
    who: Session,
    fence: nat, lease: Lease, prevLease: Lease, heartbeat: Time,
    inflight: Option<InFlight>,
    deliveryId: string, deliveryStatus: string,
    attemptId: string, attemptStatus: string)

  datatype Key = Key(provider: string, ident: string)

  const INFLIGHT_TTL: nat := 30

  /** What two records of one session share; None for an unknown provider or a blank identity. */
  function SessionKey(who: Session): Option<Key> {
    var ident := match who.provider
                 case "claude" => who.socket
                 case "codex" => who.thread
                 case "cursor" => who.sessionId
                 case _ => "";
    if ident == "" then None else Some(Key(who.provider, ident))
  }

  function KeyOn(files: map<Seat, Record>, seat: Seat): Option<Key> {
    if seat in files then SessionKey(files[seat].who) else None
  }

  function Stored(files: map<Seat, Record>, seat: Seat): Option<Record> {
    if seat in files then Some(files[seat]) else None
  }

  /** Some other seat already stores this session. */
  ghost predicate TakenElsewhere(files: map<Seat, Record>, seat: Seat, who: Session) {
    exists o :: o in files && o != seat && SessionKey(who).Some? && SessionKey(files[o].who) == SessionKey(who)
  }

  // ---- decisions under the seat lock ----

  /** A live session gives its seat up to the holder of its lease, or to itself. */
  predicate MayBind(existing: Option<Record>, live: bool, who: Session, presented: Lease) {
    existing.None? || !live
    || (presented != 0 && presented == existing.value.lease)
    || (SessionKey(existing.value.who).Some? && SessionKey(existing.value.who) == SessionKey(who))
  }

  /** The record a register or rebind stores. */
  function Bound(existing: Option<Record>, who: Session, lease: Lease, now: Time): Record {
    var fence := if existing.None? then 1 else existing.value.fence + 1;
    var prev := if existing.None? then 0 else existing.value.lease;
    Record(who, fence, lease, prev, now, None, "", "", "", "")
  }

  /** The caller names the record's lease, thread or session id, and the process is not known to be dead. */
  predicate MayHeartbeat(ep: Record, presented: Lease, thread: string, sessionId: string, pidDead: bool) {
    && !pidDead
    && ((presented != 0 && presented == ep.lease)
        || (thread != "" && thread == ep.who.thread)
        || (sessionId != "" && sessionId == ep.who.sessionId))
  }

  /** Lease and fence as observed; an empty one is not compared. */
  predicate Rebound(ep: Record, lease: Lease, fence: nat) {
    (lease != 0 && ep.lease != lease) || (fence != 0 && ep.fence != fence)
  }

  predicate InflightFresh(ep: Record, now: Time) {
    ep.inflight.Some? && ep.inflight.value.since > 0 && now <= ep.inflight.value.since + INFLIGHT_TTL
  }

  datatype Reservation = Gone | Stale | Deduped | Reserved

  function Reservable(ep: Option<Record>, mid: string, lease: Lease, fence: nat, now: Time): Reservation {
    if ep.None? then Gone
    else if Rebound(ep.value, lease, fence) then Stale
    else if mid != "" && ep.value.deliveryId == mid then Deduped
    else if mid != "" && ep.value.inflight.Some? && ep.value.inflight.value.id == mid && InflightFresh(ep.value, now)
    then Deduped
    else Reserved
  }

  predicate DeliveredLabel(outcome: string) {
    outcome in {"woken", "queued-offline", "queued-busy", "delivered-unconfirmed", "delivery-unknown",
              "delivered-confirmed", "held", "dropped", "expired", "refused"}
    || "queued-offline" <= outcome
  }

  /** An injection the provider refused counts as not delivered and drops the endpoint. */
  predicate DropsEndpoint(outcome: string) {
    outcome == "inject-refused"
  }

  predicate RecordsDelivery(mid: string, outcome: string) {
    mid != "" && DeliveredLabel(outcome) && !DropsEndpoint(outcome)
  }

  /** The record a finished poke stores. */
  function Finished(ep: Record, mid: string, outcome: string, now: Time): Record {
    var status := if DropsEndpoint(outcome) then "refused" else outcome;
    var delivered := DeliveredLabel(status) && !DropsEndpoint(outcome);
    var cleared := ep.(inflight := None);
    var noted := if mid != "" && delivered then cleared.(deliveryId := mid, deliveryStatus := status) else cleared;
    if outcome == "woken" then noted.(heartbeat := now)
    else if !delivered then noted.(attemptId := mid, attemptStatus := status)
    else noted
  }

  predicate MayRemove(ep: Record, lease: Lease, fence: nat) {
    (lease == 0 || ep.lease == lease) && ep.fence == fence
  }

  // ---- what a call makes of the files ----

  /** What runs under one seat lock. A finish remembers when its poke was reserved. */
  datatype Op =
    | Heartbeat(presented: Lease, thread: string, sessionId: string, pidDead: bool)
    | Reserve(mid: string, lease: Lease, fence: nat)
    | Finish(mid: string, lease: Lease, fence: nat, outcome: string, since: Time)
    | Remove(lease: Lease, fence: nat)

  datatype Verdict = Refuse | Write | Poke | Delete

  /** What an operation does with the record it reads. */
  function Decision(op: Op, ep: Option<Record>, seen: Time): Verdict {
    match op
    case Heartbeat(presented, thread, sessionId, pidDead) =>
      if ep.Some? && MayHeartbeat(ep.value, presented, thread, sessionId, pidDead) then Write else Refuse
    case Reserve(mid, lease, fence) =>
      if !Reservable(ep, mid, lease, fence, seen).Reserved? then Refuse else if mid == "" then Poke else Write
    case Finish(_, lease, fence, _, _) =>
      if ep.Some? && !Rebound(ep.value, lease, fence) then Write else Refuse
    case Remove(lease, fence) =>
      if ep.Some? && MayRemove(ep.value, lease, fence) then Delete else Refuse
  }

  function Updated(op: Op, ep: Record, now: Time): Record {
    match op
    case Heartbeat(_, _, _, _) => ep.(heartbeat := now)
    case Reserve(mid, _, _) => ep.(inflight := Some(InFlight(mid, now)))
    case Finish(mid, _, _, outcome, _) => Finished(ep, mid, outcome, now)
    case Remove(_, _) => ep
  }

  /** After its write the operation unlinks the record as well. */
  predicate Dropping(op: Op) {
    op.Finish? && DropsEndpoint(op.outcome)
  }

  /** The files after an operation that nobody interferes with. The clock is read twice. */
  function Operated(files: map<Seat, Record>, seat: Seat, op: Op, seen: Time, now: Time): map<Seat, Record> {
    match Decision(op, Stored(files, seat), seen)
    case Write => if Dropping(op) then files - {seat} else files[seat := Updated(op, files[seat], now)]
    case Delete => files - {seat}
    case _ => files
  }

  /** The files after a finish that got no further than its write. */
  function Noted(files: map<Seat, Record>, seat: Seat, mid: string, lease: Lease, fence: nat, outcome: string,
                 now: Time): map<Seat, Record>
  {
    if seat in files && !Rebound(files[seat], lease, fence)
    then files[seat := Finished(files[seat], mid, outcome, now)] else files
  }

  /** `Note` is the first half of a finish that goes on to drop the endpoint, `Discard` a removal without the lock. */
  datatype Call =
    | Commit(seat: Seat, who: Session, presented: Lease, live: bool, now: Time)
    | Operate(seat: Seat, op: Op, seen: Time, now: Time)
    | Note(seat: Seat, mid: string, lease: Lease, fence: nat, outcome: string, now: Time)
    | Discard(seat: Seat)

  datatype Contents = Contents(files: map<Seat, Record>, issued: Lease)

  ghost function Called(c: Contents, call: Call): Contents {
    match call
    case Commit(seat, who, presented, live, now) =>
      var existing := Stored(c.files, seat);
      if TakenElsewhere(c.files, seat, who) || !MayBind(existing, live, who, presented) then c
      else Contents(c.files[seat := Bound(existing, who, c.issued + 1, now)], c.issued + 1)
    case Operate(seat, op, seen, now) => c.(files := Operated(c.files, seat, op, seen, now))
    case Note(seat, mid, lease, fence, outcome, now) =>
      c.(files := Noted(c.files, seat, mid, lease, fence, outcome, now))
    case Discard(seat) => c.(files := c.files - {seat})
  }

  ghost function CallAll(c: Contents, calls: seq<Call>): Contents
    decreases |calls|
  {
    if calls == [] then c else CallAll(Called(c, calls[0]), calls[1..])
  }

  // ---- what a bind and an operation mean, field by field ----

  /** One provider session: the provider's own identity field is there and the same. */
  predicate SameSession(a: Session, b: Session) {
    || (a.provider == "claude" && b.provider == "claude" && a.socket == b.socket && a.socket != "")
    || (a.provider == "codex" && b.provider == "codex" && a.thread == b.thread && a.thread != "")
    || (a.provider == "cursor" && b.provider == "cursor" && a.sessionId == b.sessionId && a.sessionId != "")
  }

  lemma SameSessionIsSameKey(a: Session, b: Session)
    ensures SameSession(a, b) <==> SessionKey(a).Some? && SessionKey(a) == SessionKey(b)
  {}

  /** Nobody else has the session, and the seat is empty or stale, or its live session is named by lease or is the one
      to bind. */
  ghost predicate SeatToBind(files: map<Seat, Record>, seat: Seat, who: Session, presented: Lease, live: bool) {
    && (forall o :: o in files && o != seat ==> !SameSession(files[o].who, who))
    && (seat in files && live ==>
          (presented != 0 && presented == files[seat].lease) || SameSession(files[seat].who, who))
  }

  /** A bind lands exactly then. It stores the session under a new lease and the next fence, remembers the lease it
      ends, and nothing of earlier deliveries; no other seat changes. */
  lemma BindLandsIff(c: Contents, seat: Seat, who: Session, presented: Lease, live: bool, now: Time)
    ensures var n := Called(c, Commit(seat, who, presented, live, now));
      if SeatToBind(c.files, seat, who, presented, live) then
        && n.issued == c.issued + 1 && n.files.Keys == c.files.Keys + {seat}
        && (forall o :: o in c.files && o != seat ==> n.files[o] == c.files[o])
        && var r := n.files[seat];
           && r.who == who && r.lease == n.issued && r.heartbeat == now
           && r.fence == (if seat in c.files then c.files[seat].fence + 1 else 1)
           && r.prevLease == (if seat in c.files then c.files[seat].lease else 0)
           && r.inflight.None? && r.deliveryId == r.deliveryStatus == r.attemptId == r.attemptStatus == ""
      else n == c
  {
    forall o | o in c.files ensures SameSession(c.files[o].who, who) <==>
        SessionKey(who).Some? && SessionKey(c.files[o].who) == SessionKey(who) {
      SameSessionIsSameKey(c.files[o].who, who);
    }
  }

  /** The caller names the record by its lease, its thread or its session id. */
  predicate NamedBy(r: Record, presented: Lease, thread: string, sessionId: string) {
    (r.lease != 0 && r.lease == presented) || (r.who.thread != "" && r.who.thread == thread)
    || (r.who.sessionId != "" && r.who.sessionId == sessionId)
  }

  /** Nobody has bound the seat again since this lease and this fence were read; 0 was not read. */
  predicate AsObserved(r: Record, lease: Lease, fence: nat) {
    (lease == 0 || lease == r.lease) && (fence == 0 || fence == r.fence)
  }

  /** Somebody reserved the message at most half a minute ago. */
  predicate MarkedFor(r: Record, mid: string, now: Time) {
    r.inflight.Some? && r.inflight.value.id == mid && 0 < r.inflight.value.since && now - r.inflight.value.since <= 30
  }

  /** The message need not be sent again. */
  predicate Settles(outcome: string) {
    || outcome == "woken" || outcome == "queued-busy" || (|outcome| >= 14 && outcome[..14] == "queued-offline")
    || outcome == "delivered-unconfirmed" || outcome == "delivery-unknown" || outcome == "delivered-confirmed"
    || outcome == "held" || outcome == "dropped" || outcome == "expired" || outcome == "refused"
  }

  lemma DeliveredMeans(outcome: string)
    ensures DeliveredLabel(outcome) <==> Settles(outcome)
    ensures DropsEndpoint(outcome) ==> !Settles(outcome)
  {
    assert |"queued-offline"| == 14 && "queued-offline"[0] == 'q';
    assert outcome == "inject-refused" ==> outcome[0] == 'i' && outcome[..14][0] == 'i';
  }

  /** A finished poke takes the mark away, and records the message as settled or as an attempt, which a refused
      injection always is; only a seat that woke up has been heard of. */
  predicate AfterPoke(before: Record, after: Record, mid: string, outcome: string, now: Time) {
    && after.inflight.None? && after.who == before.who && after.fence == before.fence && after.lease == before.lease
    && after.prevLease == before.prevLease
    && after.heartbeat == (if outcome == "woken" then now else before.heartbeat)
    && (if Settles(outcome) && mid != "" then after.deliveryId == mid && after.deliveryStatus == outcome
        else after.deliveryId == before.deliveryId && after.deliveryStatus == before.deliveryStatus)
    && (if Settles(outcome) then after.attemptId == before.attemptId && after.attemptStatus == before.attemptStatus
        else after.attemptId == mid
             && after.attemptStatus == if outcome == "inject-refused" then "refused" else outcome)
  }

  // ---- the store ----

  /** The endpoint files of one board. Each method runs while its caller holds the seat lock, a bind the fingerprint
      lock as well. */
  class EndpointStore {
    var files: map<Seat, Record>
    var issued: Lease

    constructor ()
      ensures Now() == Contents(map[], 0)
    {
      files, issued := map[], 0;
    }

    function Now(): Contents
      reads this
    {
      Contents(files, issued)
    }

    method OtherSeatForSession(seat: Seat, who: Session) returns (other: Option<Seat>)
      ensures other.Some? <==> TakenElsewhere(files, seat, who)
      ensures other.Some? ==> other.value != seat && other.value in files
                              && SessionKey(files[other.value].who) == SessionKey(who)
    {
      if SessionKey(who).None? {
        return None;
      }
      var names := files.Keys;
      while names != {}
        invariant forall o :: o in names ==> o in files
        invariant forall o :: o in files && o != seat && o !in names ==> SessionKey(files[o].who) != SessionKey(who)
        decreases names
      {
        var o :| o in names;
        if o != seat && SessionKey(files[o].who) == SessionKey(who) {
          return Some(o);
        }
        names := names - {o};
      }
      return None;
    }

    /** Binds the session unless it sits on another seat or a live session holds this one. */
    method CommitEndpoint(seat: Seat, who: Session, presented: Lease, live: bool, now: Time) returns (ok: bool)
      modifies this
      ensures Now() == Called(old(Now()), Commit(seat, who, presented, live, now))
      ensures ok <==> SeatToBind(old(files), seat, who, presented, live)
      ensures issued == old(issued) + if ok then 1 else 0
    {
      BindLandsIff(Now(), seat, who, presented, live, now);
      var taken := OtherSeatForSession(seat, who);
      if taken.Some? {
        return false;
      }
      if !MayBind(Stored(files, seat), live, who, presented) {
        return false;
      }
      issued := issued + 1;
      files := files[seat := Bound(Stored(files, seat), who, issued, now)];
      ok := true;
    }

    method HeartbeatSession(seat: Seat, presented: Lease, thread: string, sessionId: string, pidDead: bool, now: Time)
      returns (kept: bool)
      modifies this`files
      ensures files == Operated(old(files), seat, Heartbeat(presented, thread, sessionId, pidDead), now, now)
      ensures kept <==> seat in old(files) && !pidDead && NamedBy(old(files)[seat], presented, thread, sessionId)
      ensures files == if kept then old(files)[seat := old(files)[seat].(heartbeat := now)] else old(files)
    {
      if seat !in files || !MayHeartbeat(files[seat], presented, thread, sessionId, pidDead) {
        return false;
      }
      files := files[seat := files[seat].(heartbeat := now)];
      kept := true;
    }

    /** Marks the message in flight before any poke. */
    method ReserveWake(seat: Seat, mid: string, lease: Lease, fence: nat, seen: Time, now: Time)
      returns (r: Reservation)
      modifies this`files
      ensures files == Operated(old(files), seat, Reserve(mid, lease, fence), seen, now)
      ensures r == Reservable(Stored(old(files), seat), mid, lease, fence, seen)
      ensures r.Gone? <==> seat !in old(files)
      ensures r.Stale? <==> seat in old(files) && !AsObserved(old(files)[seat], lease, fence)
      ensures r.Deduped? <==> seat in old(files) && AsObserved(old(files)[seat], lease, fence)
                              && mid != ""
                              && (old(files)[seat].deliveryId == mid || MarkedFor(old(files)[seat], mid, seen))
      ensures files == if r.Reserved? && mid != ""
                       then old(files)[seat := old(files)[seat].(inflight := Some(InFlight(mid, now)))] else old(files)
    {
      r := Reservable(Stored(files, seat), mid, lease, fence, seen);
      if r.Reserved? && mid != "" {
        files := files[seat := files[seat].(inflight := Some(InFlight(mid, now)))];
      }
    }

    /** Records the outcome on the observed binding only. */
    method WriteOutcome(seat: Seat, mid: string, lease: Lease, fence: nat, outcome: string, now: Time)
      returns (current: bool)
      modifies this`files
      ensures files == Noted(old(files), seat, mid, lease, fence, outcome, now)
      ensures current <==> seat in old(files) && AsObserved(old(files)[seat], lease, fence)
      ensures if current then seat in files && files == old(files)[seat := files[seat]]
                              && AfterPoke(old(files)[seat], files[seat], mid, outcome, now)
              else files == old(files)
    {
      DeliveredMeans(outcome);
      if seat !in files || Rebound(files[seat], lease, fence) {
        return false;
      }
      files := files[seat := Finished(files[seat], mid, outcome, now)];
      current := true;
    }

    method CommitWake(seat: Seat, mid: string, lease: Lease, fence: nat, outcome: string, since: Time, now: Time)
      modifies this`files
      ensures files == Operated(old(files), seat, Finish(mid, lease, fence, outcome, since), now, now)
      ensures if seat !in old(files) || !AsObserved(old(files)[seat], lease, fence) then files == old(files)
              else if outcome == "inject-refused" then files == old(files) - {seat}
              else seat in files && files == old(files)[seat := files[seat]]
                   && AfterPoke(old(files)[seat], files[seat], mid, outcome, now)
    {
      var current := WriteOutcome(seat, mid, lease, fence, outcome, now);
      if current && DropsEndpoint(outcome) {
        files := files - {seat};
      }
    }

    /** Deletes only the endpoint the caller observed. */
    method RemoveIfMatch(seat: Seat, lease: Lease, fence: nat) returns (removed: bool)
      modifies this`files
      ensures files == Operated(old(files), seat, Remove(lease, fence), 0, 0)
      ensures removed <==> seat in old(files) && (lease == 0 || old(files)[seat].lease == lease)
                           && old(files)[seat].fence == fence
      ensures files == if removed then old(files) - {seat} else old(files)
    {
      if seat !in files || !MayRemove(files[seat], lease, fence) {
        return false;
      }
      files := files - {seat};
      removed := true;
    }

    method Perform(call: Call)
      modifies this
      ensures Now() == Called(old(Now()), call)
    {
      match call
      case Commit(seat, who, presented, live, now) =>
        var _ := CommitEndpoint(seat, who, presented, live, now);
      case Operate(seat, Heartbeat(presented, thread, sessionId, pidDead), _, now) =>
        var _ := HeartbeatSession(seat, presented, thread, sessionId, pidDead, now);
      case Operate(seat, Reserve(mid, lease, fence), seen, now) =>
        var _ := ReserveWake(seat, mid, lease, fence, seen, now);
      case Operate(seat, Finish(mid, lease, fence, outcome, since), _, now) =>
        CommitWake(seat, mid, lease, fence, outcome, since, now);
      case Operate(seat, Remove(lease, fence), _, _) =>
        var _ := RemoveIfMatch(seat, lease, fence);
      case Note(seat, mid, lease, fence, outcome, now) =>
        var _ := WriteOutcome(seat, mid, lease, fence, outcome, now);
      case Discard(seat) =>
        files := files - {seat};
    }

    method PerformAll(calls: seq<Call>)
      modifies this
      ensures Now() == CallAll(old(Now()), calls)
    {
      for i := 0 to |calls|
        invariant CallAll(Now(), calls[i..]) == CallAll(old(Now()), calls)
      {
        assert calls[i..][1..] == calls[i + 1..];
        Perform(calls[i]);
      }
    }
  }
}
