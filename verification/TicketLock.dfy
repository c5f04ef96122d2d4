/** The reentrant per-ticket mutation lock: an operating-system lock plus a thread-local count of entries. */
module TicketLock {
  import opened DependencyGraph

  /** What one thread keeps: entry counts, and the tickets whose operating-system lock it holds. */
  class ThreadTable {
    var held: map<TicketId, nat>
    var flocked: set<TicketId>

    constructor ()
      ensures held == map[] && flocked == {}
    {
      held, flocked := map[], {};
    }
  }

  /** One lock object, as made for one `with` statement. */
  class MutationLock {
    const key: TicketId
    var fdOpen: bool
    var reentered: bool

    constructor (key: TicketId)
      ensures this.key == key && !fdOpen && !reentered
    {
      this.key := key;
      fdOpen, reentered := false, false;
    }

    method Enter(t: ThreadTable)
      modifies this, t
      ensures t.held == EnterHeld(old(t.held), key) && t.flocked == EnterFlocked(old(t.held), old(t.flocked), key)
      ensures reentered == (old(reentered) || key in old(t.held))
      ensures fdOpen == (old(fdOpen) || key !in old(t.held))
    {
      if key in t.held {
        t.held := t.held[key := t.held[key] + 1];
        reentered := true;
        return;
      }
      fdOpen := true;
      t.flocked := t.flocked + {key};
      t.held := t.held[key := 1];
    }

    method Exit(t: ThreadTable)
      modifies this, t
      ensures t.held == ExitHeld(old(t.held), key, reentered)
      ensures t.flocked == if !reentered && old(fdOpen) then old(t.flocked) - {key} else old(t.flocked)
      ensures reentered == old(reentered) && fdOpen == (old(fdOpen) && reentered)
    {
      if reentered {
        if key in t.held {
          if t.held[key] <= 1 {
            t.held := t.held - {key};
          } else {
            t.held := t.held[key := t.held[key] - 1];
          }
        }
        return;
      }
      if fdOpen {
        t.flocked := t.flocked - {key};
        fdOpen := false;
      }
      t.held := t.held - {key};
    }
  }

  function EnterHeld(held: map<TicketId, nat>, key: TicketId): map<TicketId, nat> {
    held[key := if key in held then held[key] + 1 else 1]
  }

  function EnterFlocked(held: map<TicketId, nat>, flocked: set<TicketId>, key: TicketId): set<TicketId> {
    if key in held then flocked else flocked + {key}
  }

  function ExitHeld(held: map<TicketId, nat>, key: TicketId, reentered: bool): map<TicketId, nat> {
    if reentered && key in held && held[key] > 1 then held[key := held[key] - 1] else held - {key}
  }

  // ---- nested use: every entry through a lock object of its own, exits in reverse order ----

  datatype Frame = Frame(key: TicketId, reentered: bool)

  datatype Thread = Thread(held: map<TicketId, nat>, flocked: set<TicketId>, stack: seq<Frame>)

  datatype Step = EnterNew(key: TicketId) | ExitLast

  /** What `Enter` of a new lock object and `Exit` of the latest one do. */
  function Next(t: Thread, step: Step): Thread
    requires step.ExitLast? ==> t.stack != []
  {
    match step
    case EnterNew(key) =>
      Thread(EnterHeld(t.held, key), EnterFlocked(t.held, t.flocked, key), t.stack + [Frame(key, key in t.held)])
    case ExitLast =>
      var top := t.stack[|t.stack| - 1];
      Thread(ExitHeld(t.held, top.key, top.reentered),
             if top.reentered then t.flocked else t.flocked - {top.key}, t.stack[..|t.stack| - 1])
  }

  ghost predicate Nested(t: Thread, steps: seq<Step>)
    decreases |steps|
  {
    steps == [] || ((steps[0].ExitLast? ==> t.stack != []) && Nested(Next(t, steps[0]), steps[1..]))
  }

  ghost function Run(t: Thread, steps: seq<Step>): Thread
    requires Nested(t, steps)
    decreases |steps|
  {
    if steps == [] then t else Run(Next(t, steps[0]), steps[1..])
  }

  /** How many entries of the ticket's lock are still open. */
  function Depth(stack: seq<Frame>, key: TicketId): nat {
    if stack == [] then 0
    else Depth(stack[..|stack| - 1], key) + if stack[|stack| - 1].key == key then 1 else 0
  }

  /** The table counts the open entries, and only the outermost of them is not marked re-entered. */
  ghost predicate Balanced(t: Thread)
    decreases |t.stack|
  {
    && (forall key :: key in t.held <==> Depth(t.stack, key) > 0)
    && (forall key :: key in t.held ==> t.held[key] == Depth(t.stack, key))
    && (forall key :: key in t.flocked <==> Depth(t.stack, key) > 0)
    && Marked(t.stack)
  }

  ghost predicate Marked(stack: seq<Frame>) {
    stack == []
    || (var rest := stack[..|stack| - 1]; var top := stack[|stack| - 1];
        Marked(rest) && (top.reentered <==> Depth(rest, top.key) > 0))
  }

  lemma BalancedKept(t: Thread, step: Step)
    requires Balanced(t) && (step.ExitLast? ==> t.stack != [])
    ensures Balanced(Next(t, step))
  {
    match step
    case EnterNew(key) =>
      var n := Next(t, step);
      assert n.stack[..|n.stack| - 1] == t.stack;
      assert forall k :: Depth(n.stack, k) == Depth(t.stack, k) + if k == key then 1 else 0;
    case ExitLast =>
      var rest := t.stack[..|t.stack| - 1];
      assert forall k :: Depth(t.stack, k) == Depth(rest, k) + if t.stack[|t.stack| - 1].key == k then 1 else 0;
  }

  lemma {:induction false} BalancedRun(t: Thread, steps: seq<Step>)
    requires Balanced(t) && Nested(t, steps)
    ensures Balanced(Run(t, steps))
    decreases |steps|
  {
    if steps != [] {
      BalancedKept(t, steps[0]);
      BalancedRun(Next(t, steps[0]), steps[1..]);
    }
  }

  /** At every point of any nested use the operating-system lock of a ticket is held exactly while some entry of it is
      open: it is released by the outermost exit, not before and not later. */
  lemma HeldExactlyWhileOpen(steps: seq<Step>, key: TicketId)
    requires Nested(Thread(map[], {}, []), steps)
    ensures var n := Run(Thread(map[], {}, []), steps);
      && (key in n.flocked <==> Depth(n.stack, key) > 0)
      && (key in n.held <==> Depth(n.stack, key) > 0)
      && (key in n.held ==> n.held[key] == Depth(n.stack, key))
  {
    BalancedRun(Thread(map[], {}, []), steps);
  }

  /** Each entry needs a lock object of its own: entering one object twice leaves the operating-system lock held, with
      no entry in the table. */
  method ReusedObjectLeaks(key: TicketId) returns (t: ThreadTable)
    ensures fresh(t) && key in t.flocked && t.held == map[]
  {
    t := new ThreadTable();
    var lock := new MutationLock(key);
    lock.Enter(t);
    lock.Enter(t);
    lock.Exit(t);
    lock.Exit(t);
  }

  /** A save inside an outer section of the same ticket, both with their own objects. */
  method SaveInsideSection(t: ThreadTable, key: TicketId)
    requires key !in t.held && key !in t.flocked
    modifies t
    ensures t.held == old(t.held) && t.flocked == old(t.flocked)
  {
    var outer := new MutationLock(key);
    outer.Enter(t);
    var inner := new MutationLock(key);
    inner.Enter(t);
    inner.Exit(t);
    assert key in t.flocked;
    outer.Exit(t);
  }
}
