/** One scan of the message log against an agent's record.

    Stamps are whole seconds; 0 is the empty stamp. The hash of the identifying fields is taken as those
    fields themselves. The scan reads the clock up to three times; the readings are parameters. */
module Inbox {

  type Stamp = nat

  datatype Message = Message(at: Stamp, sender: string, to: string, re: string, text: string, kind: string)

  /** The fields `_msg_id` hashes. */
  datatype Identity = Identity(at: Stamp, sender: string, to: string, re: string, text: string)

  /** What an agent record stores about its inbox; an absent id list is the empty one. */
  datatype Record = Record(seen: Stamp, seenIds: seq<Identity>, joined: Stamp)

  datatype Scan = Scan(unread: seq<Message>, watermark: Stamp, retained: seq<Identity>)

  function MsgId(m: Message): Identity {
    Identity(m.at, m.sender, m.to, m.re, m.text)
  }

  /** Sent by another agent, and to this one, to everybody or to nobody in particular. */
  predicate Addressed(m: Message, owner: string) {
    m.sender != owner && (m.to == "" || m.to == owner || m.to == "all")
  }

  /** Broadcasts from before the agent existed are hidden, directed mail never is. */
  predicate VisibleAfterJoin(m: Message, owner: string, joined: Stamp) {
    joined == 0 || m.to == owner || m.at >= joined
  }

  predicate Shown(m: Message, owner: string, joined: Stamp) {
    Addressed(m, owner) && VisibleAfterJoin(m, owner, joined)
  }

  // ---- what the scan computes ----

  /** The messages of a log this agent is ever shown, in log order. */
  function Mail(log: seq<Message>, owner: string, joined: Stamp): seq<Message> {
    if |log| == 0 then []
    else
      var rest := Mail(log[..|log| - 1], owner, joined);
      if Shown(log[|log| - 1], owner, joined) then rest + [log[|log| - 1]] else rest
  }

  /** The messages to show for a watermark `since`: at or above it, and not one of the identities still
      counted in `remaining`; each match uses up one count. */
  function Unread(msgs: seq<Message>, since: Stamp, remaining: multiset<Identity>): seq<Message> {
    if |msgs| == 0 then []
    else
      var m := msgs[0];
      if m.at == 0 || m.at < since then Unread(msgs[1..], since, remaining)
      else if MsgId(m) in remaining then Unread(msgs[1..], since, remaining - multiset{MsgId(m)})
      else [m] + Unread(msgs[1..], since, remaining)
  }

  function MaxAt(log: seq<Message>): Stamp {
    if |log| == 0 then 0
    else
      var rest := MaxAt(log[..|log| - 1]);
      if log[|log| - 1].at > rest then log[|log| - 1].at else rest
  }

  /** Identities of the addressed messages at or above a stamp, in log order. */
  function IdsFrom(log: seq<Message>, owner: string, from: Stamp): seq<Identity> {
    if |log| == 0 then []
    else
      var rest := IdsFrom(log[..|log| - 1], owner, from);
      var m := log[|log| - 1];
      if Addressed(m, owner) && m.at >= from then rest + [MsgId(m)] else rest
  }

  /** The lesser of the stored watermark and the clock. */
  function SeenSince(rec: Record, now: Stamp): Stamp {
    if rec.seen > now then now else rec.seen
  }

  /** The largest stamp of the log, bounded by `ceiling` above and `since` below; `fallback` if that is empty. */
  function Watermark(log: seq<Message>, since: Stamp, ceiling: Stamp, fallback: Stamp): Stamp {
    var newest := if MaxAt(log) > ceiling then ceiling else MaxAt(log);
    var w := if newest < since then since else newest;
    if w == 0 then fallback else w
  }

  function ScanOf(log: seq<Message>, owner: string, rec: Record, now: Stamp, ceiling: Stamp, fallback: Stamp): Scan {
    var since := SeenSince(rec, now);
    var w := Watermark(log, since, ceiling, fallback);
    Scan(Unread(Mail(log, owner, rec.joined), since, multiset(rec.seenIds)), w, IdsFrom(log, owner, w))
  }

  // ---- the code ----

  /** The remaining counts of already shown identities, used up message by message. */
  class SeenCounts {
    var counts: map<Identity, nat>
    ghost var left: multiset<Identity>

    ghost predicate Valid()
      reads this
    {
      forall k :: left[k] == if k in counts then counts[k] else 0
    }

    constructor (ids: seq<Identity>)
      ensures Valid() && left == multiset(ids)
    {
      counts, left := map[], multiset{};
      new;
      for i := 0 to |ids|
        invariant Valid() && left == multiset(ids[..i])
      {
        assert ids[..i + 1] == ids[..i] + [ids[i]];
        counts := counts[ids[i] := (if ids[i] in counts then counts[ids[i]] else 0) + 1];
        left := left + multiset{ids[i]};
      }
      assert ids[..|ids|] == ids;
    }

    /** Decides one message, and takes its identity out of `left` when that is why it is not unread. */
    method IsUnread(m: Message, since: Stamp) returns (unread: bool)
      requires Valid()
      modifies this
      ensures Valid()
      ensures var id := Identity(m.at, m.sender, m.to, m.re, m.text);
        && (unread <==> m.at != 0 && m.at >= since && id !in old(left))
        && left == if m.at != 0 && m.at >= since && id in old(left) then old(left) - multiset{id} else old(left)
    {
      if m.at == 0 || m.at < since {
        return false;
      }
      var k := MsgId(m);
      if k in counts && counts[k] > 0 {
        counts := counts[k := counts[k] - 1];
        left := left - multiset{k};
        return false;
      }
      return true;
    }
  }

  method CollectMail(msgs: seq<Message>, owner: string, joined: Stamp) returns (visible: seq<Message>)
    ensures visible == Mail(msgs, owner, joined)
  {
    visible := [];
    for i := 0 to |msgs|
      invariant visible == Mail(msgs[..i], owner, joined)
    {
      assert msgs[..i + 1][..i] == msgs[..i];
      if Addressed(msgs[i], owner) && VisibleAfterJoin(msgs[i], owner, joined) {
        visible := visible + [msgs[i]];
      }
    }
    assert msgs[..|msgs|] == msgs;
  }

  method CollectUnread(visible: seq<Message>, since: Stamp, seenIds: seq<Identity>) returns (out: seq<Message>)
    ensures out == Unread(visible, since, multiset(seenIds))
  {
    var remaining := new SeenCounts(seenIds);
    out := [];
    for i := 0 to |visible|
      invariant remaining.Valid() && fresh(remaining)
      invariant Unread(visible, since, multiset(seenIds)) == out + Unread(visible[i..], since, remaining.left)
    {
      ghost var before := out;
      ghost var left := remaining.left;
      var unread := remaining.IsUnread(visible[i], since);
      if unread {
        out := out + [visible[i]];
      }
      assert visible[i..][1..] == visible[i + 1..];
      assert before + Unread(visible[i..], since, left) == out + Unread(visible[i + 1..], since, remaining.left);
    }
  }

  method Newest(msgs: seq<Message>) returns (newest: Stamp)
    ensures newest == MaxAt(msgs)
  {
    newest := 0;
    for i := 0 to |msgs|
      invariant newest == MaxAt(msgs[..i])
    {
      assert msgs[..i + 1][..i] == msgs[..i];
      if msgs[i].at > newest {
        newest := msgs[i].at;
      }
    }
    assert msgs[..|msgs|] == msgs;
  }

  method Retain(msgs: seq<Message>, owner: string, watermark: Stamp) returns (retained: seq<Identity>)
    ensures retained == IdsFrom(msgs, owner, watermark)
  {
    retained := [];
    for i := 0 to |msgs|
      invariant retained == IdsFrom(msgs[..i], owner, watermark)
    {
      assert msgs[..i + 1][..i] == msgs[..i];
      if Addressed(msgs[i], owner) && msgs[i].at >= watermark {
        retained := retained + [MsgId(msgs[i])];
      }
    }
    assert msgs[..|msgs|] == msgs;
  }

  /** `_inbox_scan` over the loaded messages: unread mail, the new watermark, and the identities to retain. */
  method InboxScan(msgs: seq<Message>, owner: string, rec: Record, now: Stamp, ceiling: Stamp, fallback: Stamp)
    returns (scan: Scan)
    ensures scan == ScanOf(msgs, owner, rec, now, ceiling, fallback)
  {
    var since := SeenSince(rec, now);
    var visible := CollectMail(msgs, owner, rec.joined);
    var out := CollectUnread(visible, since, rec.seenIds);
    var watermark := Newest(msgs);
    if watermark > ceiling {
      watermark := ceiling;
    }
    if watermark < since {
      watermark := since;
    }
    if watermark == 0 {
      watermark := fallback;
    }
    var retained := Retain(msgs, owner, watermark);
    scan := Scan(out, watermark, retained);
  }

  /** The stored inbox position of one agent. */
  class AgentRecord {
    var inboxSeen: Stamp
    var inboxSeenIds: seq<Identity>
    const joinedAt: Stamp

    constructor (joined: Stamp)
      ensures Value() == Record(0, [], joined)
    {
      inboxSeen, inboxSeenIds, joinedAt := 0, [], joined;
    }

    function Value(): Record
      reads this
    {
      Record(inboxSeen, inboxSeenIds, joinedAt)
    }

    /** `_mark_inbox_read` with the scan that was shown. */
    method MarkInboxRead(scan: Scan)
      modifies this
      ensures Value() == Marked(old(Value()), scan)
    {
      inboxSeen := scan.watermark;
      inboxSeenIds := scan.retained;
    }
  }

  function Marked(rec: Record, scan: Scan): Record {
    rec.(seen := scan.watermark, seenIds := scan.retained)
  }

  // ---- facts about one scan ----

  /** From any stored watermark, even one in the future, the new watermark is not ahead of the clock. */
  lemma WatermarkNotAhead(log: seq<Message>, owner: string, rec: Record, now: Stamp, ceiling: Stamp, fallback: Stamp)
    requires now <= ceiling <= fallback
    ensures ScanOf(log, owner, rec, now, ceiling, fallback).watermark <= fallback
  {
    assert SeenSince(rec, now) <= now;
  }

  lemma {:induction false} MailConcat(a: seq<Message>, b: seq<Message>, owner: string, joined: Stamp)
    ensures Mail(a + b, owner, joined) == Mail(a, owner, joined) + Mail(b, owner, joined)
  {
    if |b| == 0 {
      assert a + b == a;
    } else {
      assert (a + b)[..|a + b| - 1] == a + b[..|b| - 1];
      MailConcat(a, b[..|b| - 1], owner, joined);
    }
  }

  lemma {:induction false} MailShown(log: seq<Message>, owner: string, joined: Stamp)
    ensures forall m :: m in Mail(log, owner, joined) <==> m in log && Shown(m, owner, joined)
  {
    if |log| > 0 {
      MailShown(log[..|log| - 1], owner, joined);
      assert log == log[..|log| - 1] + [log[|log| - 1]];
    }
  }

  /** Mail is what others send to this agent by name, and what they send to nobody or to all, from when the agent
      joined; every copy of it, and nothing else. */
  lemma {:induction false} MailCounts(log: seq<Message>, owner: string, joined: Stamp, m: Message)
    ensures multiset(Mail(log, owner, joined))[m] ==
            if m.sender != owner
               && (m.to == owner || ((m.to == "" || m.to == "all") && (joined == 0 || m.at >= joined)))
            then multiset(log)[m] else 0
  {
    if |log| > 0 {
      MailCounts(log[..|log| - 1], owner, joined, m);
      assert log == log[..|log| - 1] + [log[|log| - 1]];
    }
  }

  /** The identities a run of messages would use up. */
  ghost function UsedUp(msgs: seq<Message>, since: Stamp): multiset<Identity> {
    if |msgs| == 0 then multiset{}
    else
      (if msgs[0].at != 0 && msgs[0].at >= since then multiset{MsgId(msgs[0])} else multiset{})
      + UsedUp(msgs[1..], since)
  }

  /** Messages that are all accounted for are skipped, and what follows sees the reduced counts. */
  lemma {:induction false} AccountedAreSkipped(a: seq<Message>, b: seq<Message>, since: Stamp,
                                               remaining: multiset<Identity>)
    requires UsedUp(a, since) <= remaining
    ensures Unread(a + b, since, remaining) == Unread(b, since, remaining - UsedUp(a, since))
  {
    if |a| == 0 {
      assert a + b == b;
      assert remaining - multiset{} == remaining;
    } else {
      assert (a + b)[1..] == a[1..] + b;
      var used := if a[0].at != 0 && a[0].at >= since then multiset{MsgId(a[0])} else multiset{};
      AccountedAreSkipped(a[1..], b, since, remaining - used);
      assert remaining - used - UsedUp(a[1..], since) == remaining - UsedUp(a, since);
      if used != multiset{} {
        assert MsgId(a[0]) in UsedUp(a, since);
        assert MsgId(a[0]) in remaining;
      } else {
        assert remaining - used == remaining;
      }
    }
  }

  /** Messages at or above the watermark with no counted identity are all unread. */
  lemma {:induction false} UncountedAreUnread(b: seq<Message>, since: Stamp, remaining: multiset<Identity>)
    requires forall i :: 0 <= i < |b| ==> b[i].at != 0 && b[i].at >= since && MsgId(b[i]) !in remaining
    ensures Unread(b, since, remaining) == b
  {
    if |b| > 0 {
      UncountedAreUnread(b[1..], since, remaining);
    }
  }

  /** Nothing below the watermark is ever unread. */
  lemma {:induction false} UnreadAtLeast(msgs: seq<Message>, since: Stamp, remaining: multiset<Identity>)
    ensures forall m :: m in Unread(msgs, since, remaining) ==> m.at >= since && m in msgs
  {
    if |msgs| > 0 {
      UnreadAtLeast(msgs[1..], since,
                    if MsgId(msgs[0]) in remaining && msgs[0].at != 0 && msgs[0].at >= since
                    then remaining - multiset{MsgId(msgs[0])} else remaining);
    }
  }

  lemma {:induction false} UsedUpSnoc(msgs: seq<Message>, m: Message, since: Stamp)
    ensures UsedUp(msgs + [m], since)
            == UsedUp(msgs, since) + if m.at != 0 && m.at >= since then multiset{MsgId(m)} else multiset{}
  {
    if |msgs| > 0 {
      assert (msgs + [m])[1..] == msgs[1..] + [m];
      UsedUpSnoc(msgs[1..], m, since);
    }
  }

  lemma {:induction false} RetainedCount(log: seq<Message>, owner: string, joined: Stamp, from: Stamp, k: Identity)
    requires from >= 1 || forall i :: 0 <= i < |log| ==> log[i].at != 0
    ensures UsedUp(Mail(log, owner, joined), from)[k] <= multiset(IdsFrom(log, owner, from))[k]
    ensures ShownId(k, owner, joined) ==>
              UsedUp(Mail(log, owner, joined), from)[k] == multiset(IdsFrom(log, owner, from))[k]
  {
    if |log| > 0 {
      var n := |log| - 1;
      var m := log[n];
      RetainedCount(log[..n], owner, joined, from, k);
      UsedUpSnoc(Mail(log[..n], owner, joined), m, from);
      var counted := Addressed(m, owner) && m.at >= from;
      var used := Shown(m, owner, joined) && m.at != 0 && m.at >= from;
      assert IdsFrom(log, owner, from) == IdsFrom(log[..n], owner, from) + (if counted then [MsgId(m)] else []);
      assert multiset(IdsFrom(log, owner, from))[k]
          == multiset(IdsFrom(log[..n], owner, from))[k] + (if counted && MsgId(m) == k then 1 else 0);
      assert UsedUp(Mail(log, owner, joined), from)[k]
          == UsedUp(Mail(log[..n], owner, joined), from)[k] + (if used && MsgId(m) == k then 1 else 0);
    }
  }

  /** Visibility depends on identifying fields only. */
  predicate ShownId(k: Identity, owner: string, joined: Stamp) {
    Shown(Message(k.at, k.sender, k.to, k.re, k.text, ""), owner, joined)
  }

  /** The retained identities of visible mail are exactly those of the visible messages; the identities of hidden
      broadcasts stay behind and are never matched by visible mail. */
  lemma RetainedAccountsForMail(log: seq<Message>, owner: string, joined: Stamp, from: Stamp)
    requires from >= 1 || forall i :: 0 <= i < |log| ==> log[i].at != 0
    ensures UsedUp(Mail(log, owner, joined), from) <= multiset(IdsFrom(log, owner, from))
    ensures forall m :: Shown(m, owner, joined) ==>
                          MsgId(m) !in multiset(IdsFrom(log, owner, from)) - UsedUp(Mail(log, owner, joined), from)
  {
    forall k ensures UsedUp(Mail(log, owner, joined), from)[k] <= multiset(IdsFrom(log, owner, from))[k] {
      RetainedCount(log, owner, joined, from, k);
    }
    forall m | Shown(m, owner, joined)
      ensures MsgId(m) !in multiset(IdsFrom(log, owner, from)) - UsedUp(Mail(log, owner, joined), from)
    {
      assert ShownId(MsgId(m), owner, joined);
      RetainedCount(log, owner, joined, from, MsgId(m));
    }
  }

  /** The scan's heart: if the record's identities are those of the addressed messages of a prefix at or above the
      watermark, and mail after the prefix is at or above it too, the unread list is exactly the mail after it. */
  lemma SyncedScan(log: seq<Message>, read: nat, owner: string, rec: Record)
    requires read <= |log| && forall i :: 0 <= i < |log| ==> log[i].at != 0
    requires multiset(rec.seenIds) == multiset(IdsFrom(log[..read], owner, rec.seen))
    requires forall i :: read <= i < |log| && Shown(log[i], owner, rec.joined) ==> log[i].at >= rec.seen
    ensures Unread(Mail(log, owner, rec.joined), rec.seen, multiset(rec.seenIds))
            == Mail(log[read..], owner, rec.joined)
  {
    var seen, unseen := Mail(log[..read], owner, rec.joined), Mail(log[read..], owner, rec.joined);
    assert log == log[..read] + log[read..];
    MailConcat(log[..read], log[read..], owner, rec.joined);
    RetainedAccountsForMail(log[..read], owner, rec.joined, rec.seen);
    AccountedAreSkipped(seen, unseen, rec.seen, multiset(rec.seenIds));
    MailShown(log[read..], owner, rec.joined);
    var left := multiset(rec.seenIds) - UsedUp(seen, rec.seen);
    forall i | 0 <= i < |unseen| ensures unseen[i].at != 0 && unseen[i].at >= rec.seen && MsgId(unseen[i]) !in left {
      assert unseen[i] in unseen;
      var k :| 0 <= k < |log[read..]| && log[read..][k] == unseen[i];
      assert log[read + k] == unseen[i];
    }
    UncountedAreUnread(unseen, rec.seen, left);
  }
}
