# A Dafny model of Atman's concurrent protocols

Atman is a file-based ticket board shared by many processes. Its state is a directory of JSON files: tickets, agent
records, session endpoints, a message log. This project models the parts of it whose correctness is a statement about
whole runs, and proves those statements. A file is a map entry, `os.replace` an atomic step, `flock` a mutex, an
exclusive create a test-and-set, a clock a non-decreasing number.

Where the source works step by step the model does too: classes whose methods change their fields, loops with
invariants, each proved against a specification function about which the laws are then proved. Where several processes
interleave the model is a step machine: a state, an `Enabled` predicate and a `Next` function, and theorems about every
valid sequence of steps. Locks are held by program position, so a crash releases them.

| component | files |
|---|---|
| inbox delivery | `Inbox.dfy`, `InboxDelivery.dfy` |
| ticket ownership | `Generations.dfy`, `Publishing.dfy`, `OneHold.dfy`, `TicketLock.dfy`, `LockOrder.dfy` |
| session endpoints | `Endpoint.dfy`, `EndpointProtocol.dfy`, `EndpointLeases.dfy`, `EndpointUniqueness.dfy`, `EndpointAtomic.dfy`, `EndpointWaking.dfy` |
| dependency graph | `DependencyGraph.dfy`, `FindCycle.dfy`, `GraphCommands.dfy`, `Ancestry.dfy` |
| accept gate | `Release.dfy`, `GateBlocks.dfy` |
| WebSocket framing | `WebSocket.dfy` |
| authentication records | `Auth.dfy`, `AuthMerge.dfy` |
| run pairing, routing, sounding notes | `RunPairing.dfy`, `RoutePass.dfy`, `Sounding.dfy` |
| shared | `Wrappers.dfy`, `Sequences.dfy`, `Text.dfy`, `TextLines.dfy`, `TicketStatus.dfy` |

`dafny verify dfyconfig.toml` checks everything.

## Where the code does less than it intends

The model follows the code. Five intended properties fail for it; each is stated with a condition a caller can check
beforehand, a proof that the condition suffices, and a proof of what goes wrong without it.

- **Inbox.** The new watermark is the newest stamp in the log, clamped to a clock read after the log was loaded. If that
  clock (or the fallback clock of an empty log) has moved on to a later second, and the log holds a stamp ahead of the
  load or nothing at all, a post that lands in between stays below the watermark. `ExactIffClean`: a run delivers exactly
  once throughout and for good iff no scan of it steps over such a post. `SameSecondIsTheGuard` is the exact condition
  for a watermark that no later post can fall under, `GuardedRunIsClean` the positive result, `LateTickMakesUnclean` and
  `UncleanScanLoses` the failure, for all states: the message is missing for ever.
- **Endpoints.** `remove_endpoint` deletes without the seat lock (`src/ticket_board/cli.py:5503`). A keep-alive or a wake
  caught between its read and its write puts the record back, and meanwhile another seat can have bound the session; a
  rebind caught there goes on from a fence and a lease that are gone. `UnlockedRemovalSafeIff`: in every reachable state
  such a removal keeps sessions unique for ever exactly when no operation on the seat is between its read and its write.
  `RemovalSequentialIff`: it leaves every step a call of the store on the files of that moment, for ever, exactly when it
  takes no record from under a process about to replace it; `RunIsSequential` says what such runs amount to, and
  `StepIsCallIff` which single writes are calls where removals do catch somebody.
- **One active hold.** After a claim, `assign` writes its copy of the ticket a second time without the hold lock
  (`src/ticket_board/cli.py:3437-3465`), and so does any edit of a ticket. `ResaveSafeIff`: in every reachable state such
  a write leaves everybody with one claimed ticket for good exactly when it is refused, claims nothing new, or the agent
  holds nothing else and nobody who can still claim for the agent has already passed the ticket, except with an image
  that waits for this very ticket. `NoSecondHold` is the positive result for every run whose writes meet that, and
  `DelayedAssignmentMakesSecondHold` the failure on any board with two open tickets whose predecessors are released.
- **Generations.** Transfers that present no expected generation (`src/ticket_board/cli.py:2637-2641`) do not get a
  generation of their own, and can take one that another transfer did present: `UnpresentedTransferCollides`.
  `BumpUniqueIff`: in every reachable state a transfer about to land publishes a new generation exactly when the file
  still is at the generation the transfer was loaded at, which presenting it makes sure of. `GenerationsUniqueIff` says
  the same of whole runs.
- **Authentication.** Context fields are joined with `|`. An accepted `unavailable` re-probe may store a `binary` or
  `runner_id` that contains one, and a later probe of another command, user name, host or kind of runner can then have
  the same fingerprint. What matters is a loose bar, one without white space beside it, since every part is stripped
  before joining. A field without a loose bar, or that is nothing but one, is firm. The runner id stands first and is
  followed by one of three kinds: it is only ambiguous if one of its pieces between loose bars, after the first, is such
  a kind. `FenceGuardIsExact`: on a record whose fence fields are firm no merge whatever leaves the seat iff the binary
  is firm and the runner id hides no kind. `ReprobeGuardIsExact`: after a merge into a sound record the seat is kept for
  good iff the merge was refused or the probe's two fields are of that sort, which `AuthorityStays` assumes of
  unavailable probes only. `TwoProbesLoseSeat`: otherwise two probes move any authoritative record off its seat.

## Model

| member | source | states |
|---|---|---|
| Inbox.SeenCounts.IsUnread | src/ticket_board/cli.py:4775-4796 | a message is new iff stamped at or above the watermark and not among the identities still counted; each match uses up one count |
| Inbox.InboxScan | src/ticket_board/cli.py:4799-4853 | the scan's loops compute the unread list, the clamped watermark and the retained identities of the specification |
| Inbox.AgentRecord.MarkInboxRead | src/ticket_board/cli.py:4702-4718 | marking stores exactly the shown scan's watermark and identities, and keeps the join stamp |
| Inbox.WatermarkNotAhead | src/ticket_board/cli.py:4756-4773 | from any stored watermark, even one in the future, a scan's watermark is not ahead of the clock |
| Inbox.RetainedAccountsForMail | src/ticket_board/cli.py:4840-4853 | the retained identities at or above the watermark are, for visible mail, exactly those of the messages shown: hidden broadcasts never absorb a visible message |
| Inbox.SyncedScan | src/ticket_board/cli.py:4799-4853 | if the record accounts for a prefix of the log, the unread list is exactly the visible mail after it, identical duplicates included |
| InboxDelivery.ExactlyOnce | src/ticket_board/cli.py:4799-4904 | over any interleaving of posts, ticks and scan/print/mark steps with clean scans, all printed mail together is the visible mail of the log prefix last read, in order, once each |
| InboxDelivery.PrintedIsForTheReader | src/ticket_board/cli.py:4722-4759 | in the same runs, on the fields of the messages: mail sent to the reader by name is printed as often as the log read so far holds it, a broadcast exactly if the reader was there or has no join stamp, the reader's own messages and mail for others never |
| InboxDelivery.GuardedRunIsClean | src/ticket_board/cli.py:4799-4853 | if no clock reading of a later second enters a watermark, every scan of the run is clean |
| InboxDelivery.SameSecondIsTheGuard | src/ticket_board/cli.py:4828-4845 | the watermark stays at or below the clock of the load iff that guard holds |
| InboxDelivery.LateTickMakesUnclean | src/ticket_board/cli.py:4828-4845 | without the guard: one post and one tick between load and clamp make the scan step over the post |
| InboxDelivery.UncleanScanLoses | src/ticket_board/cli.py:4799-4853 | a message stepped over has been printed fewer times than the log holds it, in every later state |
| InboxDelivery.ExactIffClean | src/ticket_board/cli.py:4799-4904 | from a fresh record: a run is exact at every point, and after any further clean events, iff every scan of it is clean |
| InboxDelivery.OneScanHeals | src/ticket_board/cli.py:4756-4773 | after one clean scan from any stored record, the following scans deliver exactly the mail after the prefix it read |
| Generations.TicketRecord.IssueOwnerLease | src/ticket_board/ticket_coordination.py:389-406 | the generation rises by one and the lease records owner, previous owner and everybody revoked so far |
| Generations.TransferRecords | src/ticket_board/ticket_coordination.py:389-406 | one transfer: the generation rises by one, the record names the new owner, the one before him, his generation, and exactly those it was ever taken from |
| Generations.AcceptedIff | src/ticket_board/ticket_coordination.py:427-469 | a result is accepted iff the generation presented, if any, is the ticket's, and a close is the owner's or of an unowned ticket or one under review, a submission the owner's or of somebody not on record as a former owner |
| Generations.TicketRecord.CollectRevoked | src/ticket_board/ticket_coordination.py:294-306 | the three lists are merged in order without repeats or empty names |
| Generations.RevokedOwnersAre | src/ticket_board/ticket_coordination.py:294-306 | exactly the nonempty names of the ticket's list, the lease's list and the previous owner are revoked, each once |
| Generations.FormerOwnersRevoked | src/ticket_board/ticket_coordination.py:309-314 | after any chain of transfers everybody the ticket was taken from is still revoked |
| Generations.FormerOwnerFenced | src/ticket_board/ticket_coordination.py:427-469 | a worker whose claimed ticket was taken away can neither submit nor close it after any further transfers, unless it came back to him |
| Generations.PresentedGenerationFences | src/ticket_board/ticket_coordination.py:443-456 | a worker presenting the generation it was given is refused once any transfer has landed |
| Publishing.GenerationNeverDecreases | src/ticket_board/cli.py:830-880 | under every interleaving the generation on disk never goes down |
| Publishing.StaleWriteNeverLands | src/ticket_board/ticket_coordination.py:376-386 | a write that bumps nothing, or presents what it bumps, never lands after a publication later than its load |
| Publishing.QuietWrite | src/ticket_board/cli.py:830-875 | an undisturbed write lands iff its copy is not older than the file and the generation it presents, if any, is the file's; then the file is the copy, else it stays |
| Publishing.QuietEdit | src/ticket_board/cli.py:830-875 | a load, an edit and a write nobody disturbs leave the file as edited |
| Publishing.QuietHandoff | src/ticket_board/ticket_coordination.py:251-284 | an undisturbed handover lands iff its author, if it names one, owns the ticket; then the note alone is new |
| Publishing.OneTransferPerGeneration | src/ticket_board/cli.py:3405-3435 | of the transfers that present one expected generation at most one lands |
| Publishing.UnpresentedTransferCollides | src/ticket_board/cli.py:2637-2641 | from any state of the file, a bump that presents nothing can land with the generation another bump of the same load has published for somebody else, whether that one presented it or not |
| Publishing.BumpUniqueIff | src/ticket_board/ticket_coordination.py:376-386 | in every reachable state, a bump about to land publishes a generation nobody has published iff the file still is at the generation it was loaded at; presenting that generation guarantees it |
| Publishing.GenerationsUniqueIff | src/ticket_board/cli.py:830-880 | over whole runs: no bump repeats a generation iff each bump that lands finds the file at the generation it was loaded at |
| Publishing.HandoffKeepsOwnership | src/ticket_board/ticket_coordination.py:251-284 | a landing handover changes the note and nothing else, and only while its author owns the ticket |
| OneHold.NoSecondHold | src/ticket_board/cli.py:1428-1483 | no agent ever owns two claimed tickets, in every run whose unlocked re-saves are safe when they land |
| OneHold.ResaveSafeIff | src/ticket_board/cli.py:3437-3465 | in every reachable state: an unlocked re-save keeps everybody to one claimed ticket under all guarded continuations iff it is refused, claims nothing new, or the agent holds nothing else and whoever has passed the ticket and can still claim for the agent carries an image that waits for it |
| OneHold.DelayedAssignmentMakesSecondHold | src/ticket_board/cli.py:3365-3465 | on any board with two open tickets whose predecessors are released, a delayed assignment can leave an agent holding both |
| OneHold.ClaimRun | src/ticket_board/cli.py:1365-1483 | an agent who holds nothing and whose lock is free can claim any open ticket without a claim lock whose predecessors are released, and exactly that ticket and lock change |
| OneHold.RefusedClaimRun | src/ticket_board/cli.py:1365-1400 | a claim of a ticket that is not open or not ready gives the claim lock back and leaves the board as it was |
| OneHold.RefusedThenClaimed | src/ticket_board/cli.py:1365-1483 | a ticket refused for its predecessors can be claimed by the same agent once they are released |
| OneHold.AssignRun | src/ticket_board/cli.py:3405-3463 | an agent that holds nothing else can be assigned work in review or claimed by another: that ticket alone changes, under a new generation iff it was somebody else's |
| OneHold.BusyIsRefused | src/ticket_board/cli.py:1428-1483 | an agent that holds other work is given neither a claim nor an assignment, and the board stays as it was |
| OneHold.ResaveLandsIff | src/ticket_board/cli.py:830-875 | an unlocked re-save replaces the ticket iff the ticket is not newer and the copy claims nothing and names no new owner, or its predecessors are released |
| OneHold.ClaimedAtMostOnce | src/ticket_board/cli.py:1365-1400 | however many processes try, at most one claim of a ticket succeeds while nobody reopens it |
| TicketLock.MutationLock.Enter | src/ticket_board/ticket_coordination.py:335-352 | the count rises by one; the operating-system lock is taken on the first entry only |
| TicketLock.MutationLock.Exit | src/ticket_board/ticket_coordination.py:354-369 | the count falls by one; only the object that took the operating-system lock gives it back |
| TicketLock.HeldExactlyWhileOpen | src/ticket_board/ticket_coordination.py:320-369 | in any nested use the operating-system lock is held exactly while some entry is open: released at the outermost exit |
| TicketLock.ReusedObjectLeaks | src/ticket_board/ticket_coordination.py:335-369 | entering one lock object twice leaves the operating-system lock held with nothing in the table |
| TicketLock.SaveInsideSection | src/ticket_board/cli.py:3443-3453 | a save inside an outer section of the same ticket keeps the lock to the end and leaves nothing behind |
| LockOrder.CommandOrdered | src/ticket_board/cli.py:830-886 | everything a save with its recursive reconciling, a claim, a transfer or a handover enters is entered with nothing held, inside an agent's hold lock, inside the same ticket's lock, or inside the lock of a ticket it waits for; and everything is left again |
| LockOrder.NoDeadlock | src/ticket_board/cli.py:1472-1483 | with acyclic dependencies no run of such commands by any number of processes reaches a circle of waiting processes |
| LockOrder.SomebodyMoves | src/ticket_board/cli.py:3443-3463 | whenever a process running a command is blocked, some process inside a lock can take its next step |
| LockOrder.CycleDeadlocks | src/ticket_board/cli.py:2238-2282 | on any cycle of distinct tickets, as many processes saving them in their sections can block each other for ever |
| LockOrder.DeadlockFreeIff | src/ticket_board/cli.py:1777-1794 | where no ticket waits for itself, no run of the commands ends in a circle of waiting processes iff the dependencies are acyclic |
| Endpoint.EndpointStore.OtherSeatForSession | session_adapters.py:428-437 | finds another seat storing the session iff there is one |
| Endpoint.EndpointStore.CommitEndpoint | session_adapters.py:309-337 | binds iff no other seat has the provider's session and the seat is free or stale, or the caller presents the live record's lease or is its session |
| Endpoint.BindLandsIff | session_adapters.py:309-337 | on the record's fields: what a landing bind stores, and that a refused one changes nothing |
| Endpoint.EndpointStore.HeartbeatSession | session_adapters.py:1733-1764 | a keep-alive naming the record by lease, thread or session id moves the heartbeat and nothing else; any other, or one for a dead process, does nothing |
| Endpoint.EndpointStore.ReserveWake | session_adapters.py:1780-1801 | exactly when a wake finds no endpoint, a rebound one, or its message settled or marked in the last half minute; otherwise it leaves its mark |
| Endpoint.EndpointStore.CommitWake | session_adapters.py:1804-1845 | an outcome is recorded on the observed binding only: the mark goes, the message is settled or noted as an attempt, a refused injection deletes the record |
| Endpoint.EndpointStore.RemoveIfMatch | session_adapters.py:375-392 | deletes the record iff it is still the one observed |
| EndpointProtocol.ExclusiveKept | session_adapters.py:229-264 | every step keeps each seat lock and fingerprint lock with at most one holder |
| EndpointLeases.InvKept | session_adapters.py:309-337 | what was read under a seat lock is what the file still says, unless the file was removed without the lock; every lease in use has been issued |
| EndpointLeases.StaleStepHarmless | session_adapters.py:1780-1845 | no step of a waker that observed one lease changes or deletes a record bound under another |
| EndpointLeases.LaterBindUntouched | session_adapters.py:500-513 | whatever wakers of earlier bindings go on to do, the record a later bind installed is left exactly as bound |
| EndpointLeases.FenceCountsRebinds | session_adapters.py:325-331 | while a record is not removed its fence rises by one per landed bind and by nothing else |
| EndpointLeases.LiveSeatKept | session_adapters.py:309-337 | in every run in which the seat is seen live and its record not removed, binds that neither present its lease nor are its session leave session, lease and fence as they are, and the whole record unless a keep-alive or wake of its own writes |
| EndpointLeases.StaleSeatTaken | session_adapters.py:309-337 | a stale record does not: whoever has a session no other seat stores takes the seat |
| EndpointUniqueness.NoSessionOnTwoSeats | session_adapters.py:289-337 | under every interleaving with guarded removals no session is stored under two seats |
| EndpointUniqueness.UnlockedRemovalSafeIff | session_adapters.py:368-372 | in every reachable state an unlocked removal keeps uniqueness for good iff no operation on the seat is between read and write |
| EndpointUniqueness.RemovalLosesUniqueness | session_adapters.py:368-372 | otherwise a run without further removals stores the session twice |
| EndpointAtomic.RunIsSequential | session_adapters.py:1733-1845 | however binds, keep-alives, reservations, commits, removals and crashes interleave, if no unlocked removal takes a record from under a process about to replace it the files are those of one sequence of atomic store calls, each at the step where it takes effect |
| EndpointAtomic.BindRuns | session_adapters.py:289-337 | and conversely: a bind whose locks are free can run to its end, its seat seen live or not, and does exactly what the store's call does |
| EndpointAtomic.OperationRuns | session_adapters.py:1733-1845 | the same of a keep-alive, a reservation, a commit and a removal |
| EndpointAtomic.StepIsCallIff | session_adapters.py:289-392 | in every reachable state, whatever was removed without a lock: a write is the store's call on the files of that moment iff the record it replaces is still there and, for a bind, no other seat has got the session |
| EndpointAtomic.RemovalSequentialIff | session_adapters.py:368-372 | in every reachable state an unlocked removal leaves all steps calls of the store for good iff it takes no record from under a process about to replace it |
| Endpoint.EndpointStore.PerformAll | session_adapters.py:289-392 | the store's methods, called in sequence, make of the files what those calls are specified to make |
| EndpointWaking.SinglePoke | session_adapters.py:1780-1897 | one message, any number of wakers, pokes recorded in time: never two pokes in progress under one lease |
| EndpointWaking.NoPokeAfterDelivery | session_adapters.py:1804-1845 | once a delivery is recorded nobody pokes for the message under that lease again, however late |
| EndpointWaking.WakerGetsThroughIff | session_adapters.py:1713-1721 | on an unlocked seat a new waker of an undelivered message is let through iff no mark of that message is within its time |
| EndpointWaking.AbandonedReservationExpires | session_adapters.py:1713-1721 | one second past its time a crashed reservation no longer blocks |
| DependencyGraph.RankedIsAcyclic | src/ticket_board/cli.py:1572-1590 | a ranking of tickets above what they wait for excludes every cycle |
| DependencyGraph.AcyclicHasRank | src/ticket_board/cli.py:1572-1590 | and every acyclic board has one |
| FindCycle.FindCycle | src/ticket_board/cli.py:1529-1558 | returns a closed walk of existing edges, ids distinct but for the ends, and none iff the graph is acyclic; always terminates |
| GraphCommands.Board.CheckGraph | src/ticket_board/cli.py:1572-1590 | reports a cycle of the board with pending lists laid over it iff there is one |
| GraphCommands.Board.Create | src/ticket_board/cli.py:1744-1774 | refuses exactly unknown references; the new ticket gets the next number and the given list, exactly the blocked tickets wait for it besides, and the result is acyclic; a cycle is rolled back; keeps the board closed and acyclic |
| GraphCommands.Board.Dep | src/ticket_board/cli.py:1777-1794 | each refusal exactly when it is due; otherwise the list holds what it held or was added and not dropped, nothing else changes, and the board stays closed and acyclic |
| GraphCommands.Board.Plan | src/ticket_board/cli.py:1797-1849 | an unknown name or a cycle removes every ticket made; otherwise the items get the next numbers and wait for what their names mean: the ticket of the last item with that key, or else the ticket whose id the name spells |
| GraphCommands.Board.Run | src/ticket_board/cli.py:1744-1849 | any sequence of commands, refused ones included, whatever the dependency gate answers each of them, keeps the board closed and acyclic |
| GraphCommands.Unblocked | src/ticket_board/cli.py:1512-1519 | lists exactly the open tickets whose dependencies are released; never empty if every ticket is open or released and some is open |
| Ancestry.OrderByAncestry | src/ticket_board/cli.py:2775-2803 | the loops compute the layers of the specification |
| Ancestry.PeelRearranges | src/ticket_board/cli.py:2775-2803 | the result is a duplicate-free rearrangement of the distinct inputs |
| Ancestry.PeelPutsAncestorsFirst | src/ticket_board/cli.py:2775-2803 | every ancestor precedes its descendants |
| Ancestry.AlwaysARoot | src/ticket_board/cli.py:2793-2797 | the fallback for no roots is never taken |
| Release.SupersededReleasesOnlyByOverride | src/ticket_board/work_view.py:348-417 | after a resubmission or reopening only an override still releases |
| GateBlocks.Board.Save | src/ticket_board/cli.py:830-886 | refused iff it claims the ticket or gives it a new owner before its predecessors are released; a released ticket's successors are settled, claim locks of work not started are retired and no others, and no stale gate block remains |
| GateBlocks.Board.ReopenSuccessors | src/ticket_board/cli.py:2224-2283 | every successor marked by the gate or owned too early is open, or blocked on its first unreleased predecessor, without a claim lock and without marks of this one; finished work keeps its state; terminates on acyclic boards |
| GateBlocks.Board.CloseTicket | src/ticket_board/cli.py:3194-3276 | exactly when evidence, the operator or documentation work releases it the successors open; otherwise exactly the open or blocked ones waiting for it alone are gated and lose their claim locks |
| GateBlocks.Board.BlockSuccessors | src/ticket_board/cli.py:2178-2199 | exactly the open or blocked tickets for which this predecessor alone is missing are gated, nothing else changes |
| GateBlocks.Board.AcceptTicket | src/ticket_board/cli.py:2604-2618 | records the verdict; the ticket is released iff it is closed and was released before or the verdict names the submitted head, and then its successors are settled |
| GateBlocks.Board.MergeTicket | src/ticket_board/cli.py:2989-3010 | closes with the pin; the ticket is released iff the pin is the submitted head, or an accept or override counts, and then its successors are settled |
| GateBlocks.Board.SubmitForReview | src/ticket_board/cli.py:2526-2575 | refused unless every predecessor is released; the new head is on record and no earlier accept or merge counts any more; changes this ticket alone |
| GateBlocks.Board.ReopenTicket | src/ticket_board/cli.py:4144-4204 | refused iff a predecessor is missing or closed without release; returns the ticket to the pool, and no accept or merge on record counts any more |
| GateBlocks.Board.ClaimTicket | src/ticket_board/cli.py:1365-1400 | succeeds iff open, without a claim lock and with every predecessor released |
| GateBlocks.LastReleaseOpens | src/ticket_board/cli.py:2224-2283 | releasing the last missing predecessor of a ticket marked by the gate or owned too early leaves it open, unowned and without a claim lock; otherwise it waits for one that is missing |
| GateBlocks.RunCommands | src/ticket_board/cli.py:2160-2283 | on an acyclic board no sequence of commands leaves a gate block on a released predecessor |
| GateBlocks.RunFromSubmission | src/ticket_board/cli.py:2526-2575 | from a submission or a return to the pool on, whatever else is done on the board, the ticket is not released until a commit submitted for it is accepted or merged or its operator overrides |
| GateBlocks.RunUndecided | src/ticket_board/work_view.py:348-403 | the same of any ticket on whose submitted commits no verdict counts |
| WebSocket.MaskFrameRoundTrip | session_adapters.py:1197-1206 | decoding a masked text frame followed by anything gives the payload and exactly the rest, for all three length encodings (sections 5.2 and 5.3 of RFC 6455) |
| WebSocket.MaskFrameBytes | session_adapters.py:1197-1206 | the bytes of an encoded frame: the final text opcode, the mask bit with the length, the mask, the payload byte by byte under the mask |
| WebSocket.ServerFrameRead | session_adapters.py:1209-1236 | decoding an unmasked frame, of any opcode and any payload below 2^64 bytes, followed by anything gives opcode, payload and exactly the frame's length |
| WebSocket.BigEndianRoundTrip | session_adapters.py:1197-1225 | extended lengths read back as written |
| WebSocket.ParseIgnoresRest | session_adapters.py:1209-1251 | a complete frame decodes the same whatever follows it |
| WebSocket.EncodedItems | session_adapters.py:1197-1251 | a stream of encoded payloads decodes to exactly those payloads in order |
| WebSocket.ServedTexts | session_adapters.py:1209-1251 | a stream of unmasked frames carries exactly the payloads of its text frames up to the first close |
| WebSocket.RecvText | session_adapters.py:1209-1251 | one call consumes whole frames up to the next text or close, skips other opcodes, and loses no byte of the rest, however the stream was cut; of a server's frames it returns the first text before a close |
| WebSocket.Converse | session_adapters.py:1209-1251 | successive calls return the text payloads of the whole stream in order, up to a close; of a server's frames, exactly their payloads |
| Auth.ContextFingerprint | auth_v2_contract.py:272-292 | the loop joins the identity parts of a complete context, and gives nothing for an incomplete one |
| Auth.SeatFenceMatches | auth_v2_contract.py:340-363 | the loop decides the seat fence: all fence fields agree on complete contexts of one seat |
| Auth.SameSeatIff | auth_v2_contract.py:340-363 | two contexts are one seat iff both are complete and agree, stripped and origins normalised, on everything but runner id, binary, ticket agent and lifecycle |
| Auth.CompleteIff | auth_v2_contract.py:272-292 | which contexts are complete, field by field |
| Auth.MatchMeansSameIdentity | auth_v2_contract.py:332-337 | a fingerprint match against a context whose fields are firm and whose runner id hides no kind is equality field by field |
| Text.JoinInjective | auth_v2_contract.py:283-292 | joining stripped parts with bars is injective as soon as every part of one side is firm |
| Text.JoinCutsFirst | auth_v2_contract.py:283-292 | firm from the second part on, the only other lists with the same join and a tight second part cut the first part, at a piece that becomes their second |
| AuthMerge.AuthStore.MergeAuthCheck | auth_v2_contract.py:512-574 | the stored blob becomes the loaded one or the merged one, by the decision table |
| AuthMerge.AuthorityStays | auth_v2_contract.py:512-574 | any sequence of guarded merges keeps an authoritative record authoritative, complete and on its seat fence |
| AuthMerge.ChangeNeedsAgreement | auth_v2_contract.py:532-552 | a merge that changes such a record to another state than unavailable had all three contexts agree on every identity field; an unavailable one had them agree on the seat |
| AuthMerge.AgreementIsTaken | auth_v2_contract.py:539-552 | conversely a valid probe is merged when all three contexts agree |
| AuthMerge.TakenIff | auth_v2_contract.py:532-559 | exactly which probes are taken, over an authoritative record and over any other |
| AuthMerge.TakenFields | auth_v2_contract.py:560-574 | a taken probe's state, context and fields win, and where it has none the stored ones stay |
| AuthMerge.RefusedFields | auth_v2_contract.py:512-559 | a probe that is not taken changes nothing but an unfounded claim to authority |
| AuthMerge.PauseAndAlert | auth_v2_contract.py:402-419 | a seat is paused and its operator alerted exactly in the six states that spend nothing, paused only if the stored, else the probe's, else the agreeing caller's context calls it persistent; the alert names the stored seat |
| AuthMerge.AlertNamesSeat | auth_v2_contract.py:448-486 | alerts name the enrolled seat, never the caller, and pauses follow the state |
| AuthMerge.TwoProbesLoseSeat | auth_v2_contract.py:485-552 | from any authoritative record, a runner id that hides a kind or a binary that is not firm, stored by an unavailable probe, lets a second probe, in any state, move the record off its seat |
| AuthMerge.FenceGuardIsExact | auth_v2_contract.py:485-552 | with firm fence fields: no merge whatever leaves the seat fence iff the binary is firm and the runner id hides no kind |
| AuthMerge.ReprobeGuardIsExact | auth_v2_contract.py:485-552 | a merge into a sound record keeps it on its seat under all guarded continuations iff the merge is refused or the probe's binary is firm and its runner id hides no kind |
| RunPairing.RunTable.Apply | src/ticket_board/agent_map.py:57-130 | one event changes the table as specified: pairing, dropping, filling fields first come first kept |
| RunPairing.RunTable.OpenLegacy | src/ticket_board/agent_map.py:83-88 | finds the newest open row without a run id of the seat and run number, if any |
| RunPairing.PairingIsAStack | src/ticket_board/agent_map.py:57-130 | after any log the open rows of every slot are the reference stack, the rows without a run id are starts plus unmatched ends less dry-consumed starts, and the order lists the keys once each |
| RunPairing.EndClosesTop | src/ticket_board/agent_map.py:95-130 | an end without a run id closes the top of its stack with its stamps; a dry one takes it away |
| RunPairing.IdRowsAreOnePerId | src/ticket_board/agent_map.py:70-130 | the row of a run id is decided by that id's events alone: one per surviving id |
| RunPairing.IdRowSays | src/ticket_board/agent_map.py:70-130 | after any log: a run id has a row iff its events since the last dry end left one, and the row says of seat, number, ticket, harness, trigger and start what the first of them to say anything said, and of the end what the last one said |
| RunPairing.NumberedRowSays | src/ticket_board/agent_map.py:70-130 | the same of every row without a run id, from its start and the end that popped it |
| RoutePass.PickIsBest | src/ticket_board/route_headroom.py:299-322 | a pick names the first of the unlimited rows none is better than: not spent, less load, known headroom, more of it, cheaper, fitting better, in this order; there is none iff every row is limited |
| RoutePass.SeatLoad | src/ticket_board/route_headroom.py:246-255 | the load is the claims plus one for each open reservation |
| RoutePass.CandidateRows | src/ticket_board/route_headroom.py:268-296 | the rows are the eligible seats that fit, in order, then the limited ones that would |
| RoutePass.CandidatesAre | src/ticket_board/route_headroom.py:268-296 | a row is listed iff it is what an eligible seat that fits offers, its load without the ticket's own reservation, or a limited seat that fits and is not eligible |
| RoutePass.CountedLoad | src/ticket_board/cli.py:5346-5356 | a pick adds half a unit to its seat, and takes the reservation it replaces off the other |
| RoutePass.PickRow | src/ticket_board/route_headroom.py:299-322 | the picked seat is eligible and fits, and no eligible seat that fits offers better |
| RoutePass.RouteTickets | src/ticket_board/cli.py:5346-5356 | the pass picks ticket by ticket, each against the load its predecessors left |
| RoutePass.PickIffSomebodyFits | src/ticket_board/route_headroom.py:299-322 | somebody is picked iff some eligible seat fits; a limited seat never is |
| RoutePass.EvenSpread | src/ticket_board/cli.py:5346-5356 | pick counts of any two eligible seats differ by at most one after any number of tickets all of them fit |
| RoutePass.SpreadCatchesUp | src/ticket_board/route_headroom.py:227-243 | with unequal starting loads the counts make good the difference, give or take one |
| Sounding.ParseSoundBody | src/ticket_board/sounding.py:72-98 | the loop computes the sections of the specification |
| Sounding.FormatSoundBody | src/ticket_board/sounding.py:135-149 | the printer assembles the stripped parts |
| Sounding.TitlesAreHeadings | src/ticket_board/sounding.py:22-28 | every printed title is read as its section |
| Sounding.HeadingRead | src/ticket_board/sounding.py:79-90 | a line of one to three hashes, white space, one of a section's titles in any case and any colons is read as that section |
| Sounding.HeadingIs | src/ticket_board/sounding.py:79-90 | and no other line is |
| Sounding.RoundTrip | src/ticket_board/sounding.py:72-149 | parsing a printed body gives every field back stripped, "(none)" for no questions, whatever headings thought and extra hold |
| Sounding.PreambleIsKept | src/ticket_board/sounding.py:135-149 | thought and extra are printed in front, stripped, each with a blank line, and change nothing else |
| Sounding.QuestionsPrinted | src/ticket_board/sounding.py:136-138 | listed questions print one per line behind a dash; none print as "(none)" |

## Left out

- Subprocesses, git, tmux, sockets, HTTP, keychains, services, cron, argument parsing and rendering. Git is an ancestor
  relation; a socket is a sequence of received chunks; whether a session or process is alive is a parameter.
- Hashes, UUIDs and secret redaction: message identities are the hashed fields, leases are fresh numbers, records start
  redacted. Origin normalisation is an arbitrary function.
- Inbox `--all` and `--keep`, appends delayed past their stamp, clocks that run backwards, and several readers of one
  seat. Other writers of the agent record: marking is an unlocked read, change and write of the whole record
  (`src/ticket_board/cli.py:4702-4718`), and a `checkin` that read it before can put the old watermark back.
- Deleting and recreating ticket files, which restarts generations; rejecting work back to its author
  (`src/ticket_board/cli.py:2620-2641`) and `reopen --revision` as claims of their own; reserving an open ticket.
- Waking with several interleaved messages: only one message id at a time is claimed to be poked once.
- Automated worktree-cleanup tickets, the notes `_start_successors` posts, and release notes on successors.
- Predecessors that change between the dependency gate's reading and the write it allows: `OneHold` takes both as one
  step, and so the load and the save of a rewiring.
- Lock acquisitions while dependencies are being rewired: `LockOrder` takes the dependency graph as fixed.
- Run receipts, and run ids that look like the internal key of a row without one.
- Field-level JSON decoding: malformed files, wrong types, missing keys other than the ones modelled as options.
- Text of WebSocket payloads: frames carry bytes, UTF-8 and JSON decoding are not modelled.
- Lower-casing of characters outside ASCII in sounding headings; none of them lower-cases to a letter of a title.
- RoutePass.EvenSpread: loads are counted in halves, as integers.
- Quota adapters, presets, onboarding, traces, backups, installers and the user interface.
