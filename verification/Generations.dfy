/** Ownership generations of a ticket: who may still publish or hand in results after ownership has moved on. */
module Generations {
  import opened Wrappers
  import opened Sequences
  import opened TicketStatus

  type Agent = string

  /** The part of a lease record that later decisions read. */
  datatype Lease = Lease(generation: nat, owner: Agent, previousOwner: Agent, previousGeneration: nat,
                         revoked: seq<Agent>)

  datatype Ticket = Ticket(status: Status, owner: Agent, generation: nat, revoked: seq<Agent>, lease: Option<Lease>)

  // ---- publishing ----

  /** The file carries a positive generation above the one of the image to be written. */
  predicate StaleWrite(current: nat, incoming: nat) {
    current != 0 && incoming < current
  }

  predicate PublishRefused(current: nat, incoming: nat, expected: Option<nat>) {
    StaleWrite(current, incoming) || (expected.Some? && current != expected.value)
  }

  // ---- the owners fenced off so far ----

  /** Appends the names not yet listed, in order, skipping empty ones. */
  function AddNames(names: seq<Agent>, more: seq<Agent>): seq<Agent>
    decreases |more|
  {
    if more == [] then names
    else if more[0] != "" && more[0] !in names then AddNames(names + [more[0]], more[1..])
    else AddNames(names, more[1..])
  }

  lemma {:induction false} AddNamesMember(names: seq<Agent>, more: seq<Agent>, a: Agent)
    ensures a in AddNames(names, more) <==> a in names || (a in more && a != "")
    decreases |more|
  {
    if more != [] {
      if more[0] != "" && more[0] !in names {
        AddNamesMember(names + [more[0]], more[1..], a);
      } else {
        AddNamesMember(names, more[1..], a);
      }
    }
  }

  lemma {:induction false} AddNamesDistinct(names: seq<Agent>, more: seq<Agent>)
    requires Distinct(names)
    ensures Distinct(AddNames(names, more))
    decreases |more|
  {
    if more != [] {
      if more[0] != "" && more[0] !in names {
        AddNamesDistinct(names + [more[0]], more[1..]);
      } else {
        AddNamesDistinct(names, more[1..]);
      }
    }
  }

  function LeaseRevoked(t: Ticket): seq<Agent> {
    if t.lease.Some? then t.lease.value.revoked else []
  }

  function LeasePrevious(t: Ticket): Agent {
    if t.lease.Some? then t.lease.value.previousOwner else ""
  }

  function RevokedOwners(t: Ticket): seq<Agent> {
    AddNames(AddNames(AddNames([], t.revoked), LeaseRevoked(t)), [LeasePrevious(t)])
  }

  lemma RevokedOwnersAre(t: Ticket, a: Agent)
    ensures a in RevokedOwners(t) <==> a != "" && (a in t.revoked || a in LeaseRevoked(t) || a == LeasePrevious(t))
    ensures Distinct(RevokedOwners(t))
  {
    var own := AddNames([], t.revoked);
    var leased := AddNames(own, LeaseRevoked(t));
    AddNamesMember([], t.revoked, a);
    AddNamesMember(own, LeaseRevoked(t), a);
    AddNamesMember(leased, [LeasePrevious(t)], a);
    AddNamesDistinct([], t.revoked);
    AddNamesDistinct(own, LeaseRevoked(t));
    AddNamesDistinct(leased, [LeasePrevious(t)]);
  }

  /** The ticket after a lease has been issued to a new owner who is then written in. */
  function Transferred(t: Ticket, owner: Agent): Ticket {
    var revoked := if t.owner != "" && t.owner != owner && t.owner !in RevokedOwners(t)
                   then RevokedOwners(t) + [t.owner] else RevokedOwners(t);
    t.(owner := owner, generation := t.generation + 1, revoked := revoked,
       lease := Some(Lease(t.generation + 1, owner, t.owner, t.generation, revoked)))
  }

  /** One ticket record, edited in place by the command that is about to save it. */
  class TicketRecord {
    var t: Ticket

    constructor (initial: Ticket)
      ensures t == initial
    {
      t := initial;
    }

    /** The three lists are walked once, each new name appended. */
    method CollectRevoked() returns (names: seq<Agent>)
      ensures names == RevokedOwners(t)
    {
      names := [];
      var lists := [t.revoked, LeaseRevoked(t), [LeasePrevious(t)]];
      for i := 0 to 3
        invariant names == if i == 0 then [] else if i == 1 then AddNames([], t.revoked)
                           else if i == 2 then AddNames(AddNames([], t.revoked), LeaseRevoked(t))
                           else RevokedOwners(t)
      {
        names := Append(names, lists[i]);
      }
    }

    static method Append(before: seq<Agent>, more: seq<Agent>) returns (names: seq<Agent>)
      ensures names == AddNames(before, more)
    {
      names := before;
      var i := 0;
      while i < |more|
        invariant 0 <= i <= |more|
        invariant AddNames(names, more[i..]) == AddNames(before, more)
      {
        assert more[i..][1..] == more[i + 1..];
        if more[i] != "" && more[i] !in names {
          names := names + [more[i]];
        }
        i := i + 1;
      }
    }

    /** `issue_owner_lease`, and the owner the caller writes beside it. */
    method IssueOwnerLease(owner: Agent) returns (generation: nat)
      modifies this
      ensures t == Transferred(old(t), owner)
      ensures generation == t.generation
    {
      var revoked := CollectRevoked();
      if t.owner != "" && t.owner != owner && t.owner !in revoked {
        revoked := revoked + [t.owner];
      }
      generation := t.generation + 1;
      t := t.(owner := owner, generation := generation, revoked := revoked,
              lease := Some(Lease(generation, owner, t.owner, t.generation, revoked)));
    }
  }

  // ---- chains of transfers ----

  function TransferAll(t: Ticket, owners: seq<Agent>): Ticket
    decreases |owners|
  {
    if owners == [] then t else TransferAll(Transferred(t, owners[0]), owners[1..])
  }

  lemma {:induction false} RevokedStays(t: Ticket, owners: seq<Agent>, a: Agent)
    requires a in RevokedOwners(t)
    ensures a in RevokedOwners(TransferAll(t, owners))
    decreases |owners|
  {
    if owners != [] {
      var next := Transferred(t, owners[0]);
      RevokedOwnersAre(t, a);
      RevokedOwnersAre(next, a);
      RevokedStays(next, owners[1..], a);
    }
  }

  /** The owner before the k-th transfer of a chain. */
  function OwnerBefore(t: Ticket, owners: seq<Agent>, k: nat): Agent
    requires k < |owners|
  {
    if k == 0 then t.owner else owners[k - 1]
  }

  /** However often a ticket changes hands, nobody it was taken from is forgotten. */
  lemma {:induction false} FormerOwnersRevoked(t: Ticket, owners: seq<Agent>, k: nat)
    requires k < |owners| && OwnerBefore(t, owners, k) != "" && OwnerBefore(t, owners, k) != owners[k]
    ensures OwnerBefore(t, owners, k) in RevokedOwners(TransferAll(t, owners))
    decreases |owners|
  {
    var next := Transferred(t, owners[0]);
    if k == 0 {
      RevokedOwnersAre(next, t.owner);
      RevokedStays(next, owners[1..], t.owner);
    } else {
      FormerOwnersRevoked(next, owners[1..], k - 1);
    }
  }

  lemma {:induction false} TransfersCount(t: Ticket, owners: seq<Agent>)
    ensures var e := TransferAll(t, owners);
      e.generation == t.generation + |owners| && e.status == t.status
      && e.owner == if owners == [] then t.owner else owners[|owners| - 1]
    decreases |owners|
  {
    if owners != [] {
      var rest := owners[1..];
      TransfersCount(Transferred(t, owners[0]), rest);
      assert rest != [] ==> rest[|rest| - 1] == owners[|owners| - 1];
      assert |rest| == |owners| - 1;
    }
  }

  // ---- handing in results ----

  datatype Kind = ForReview | ForDone

  /** Whether a previous worker is refused; `presented` is the generation the worker's environment names. */
  predicate AcceptRefused(t: Ticket, actor: Agent, kind: Kind, presented: Option<nat>) {
    || (presented.Some? && presented.value != t.generation)
    || (kind.ForDone? && t.status != Review && t.owner != "" && actor != "" && t.owner != actor)
    || (kind.ForReview? && actor != "" && t.owner != actor
        && (actor == LeasePrevious(t) || actor in RevokedOwners(t)))
  }

  /** Who may hand in. Nobody under a generation that is not the ticket's. A finished ticket under review is closed by
      anybody, any other by its owner, or by anybody if it has none. Anybody may submit it who is not on record as a
      former owner. */
  lemma AcceptedIff(t: Ticket, actor: Agent, kind: Kind, presented: Option<nat>)
    ensures !AcceptRefused(t, actor, kind, presented) <==>
      && (presented.None? || presented == Some(t.generation))
      && match kind
         case ForDone => t.status == Review || t.owner == "" || actor == "" || actor == t.owner
         case ForReview =>
           actor == "" || actor == t.owner
           || (actor !in t.revoked
               && (t.lease.Some? ==> actor !in t.lease.value.revoked && actor != t.lease.value.previousOwner))
  {
    RevokedOwnersAre(t, actor);
  }

  /** A transfer names the new owner, his generation, the owner before him and that one's generation, and remembers
      everybody the ticket was ever taken from. */
  lemma TransferRecords(t: Ticket, owner: Agent, a: Agent)
    ensures var n := Transferred(t, owner);
      && n.owner == owner && n.generation == t.generation + 1 && n.status == t.status && n.lease.Some?
      && var l := n.lease.value;
         && l.owner == owner && l.generation == n.generation && l.revoked == n.revoked
         && l.previousOwner == t.owner && l.previousGeneration == t.generation
         && (a in n.revoked <==>
               a != "" && (a in t.revoked || (t.owner != owner && a == t.owner)
                           || (t.lease.Some? && (a in t.lease.value.revoked || a == t.lease.value.previousOwner))))
  {
    RevokedOwnersAre(t, a);
  }

  /** Once a claimed ticket has been taken from a worker, that worker can neither submit it nor close it, after any
      number of further transfers, unless it has come back to him. */
  lemma FormerOwnerFenced(t: Ticket, owners: seq<Agent>, k: nat, presented: Option<nat>)
    requires k < |owners| && OwnerBefore(t, owners, k) != "" && OwnerBefore(t, owners, k) != owners[k]
    requires t.status == Claimed
    ensures var a := OwnerBefore(t, owners, k); var e := TransferAll(t, owners);
      e.owner != a ==> AcceptRefused(e, a, ForReview, presented)
                       && (e.owner != "" ==> AcceptRefused(e, a, ForDone, presented))
  {
    FormerOwnersRevoked(t, owners, k);
    TransfersCount(t, owners);
  }

  /** A worker that presents the generation it was given is refused as soon as one transfer has landed since. */
  lemma PresentedGenerationFences(t: Ticket, owners: seq<Agent>, actor: Agent, kind: Kind)
    requires owners != []
    ensures AcceptRefused(TransferAll(t, owners), actor, kind, Some(t.generation))
  {
    TransfersCount(t, owners);
  }
}
