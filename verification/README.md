# A verified model of the cluck lock protocol

`cluck` gives the computers of a cluster named locks. On every computer a daemon runs; one to
three of them are elected leaders, and a client sends LOCK and UNLOCK to a leader. The leaders
run Lamport's bakery algorithm: a request *enters*, asks the others for the largest ticket
number, takes the next one, waits for its TICKET_ADDED quorum, exits, waits for the requests
that were entering at that moment, and is locked when it is the first ticket of the table.

This project models the daemon, its tickets, the election and the client object in Dafny and
proves what the protocol is for. `dafny verify dfyconfig.toml` checks all of it.

## How the files fit together

**Several leaders.** `Leader.dfy` says what each message handler does to the tables of one leader
for one object name, `LeaderDaemon.dfy` has the handlers as methods of a class that updates
tables, and proves that each of them does just that. `Bakery.dfy` puts leaders and packets in
flight together: a step is a LOCK of a client that the leader does not list, an UNLOCK of any
listed ticket, or the delivery of any packet in flight. `BakeryTables`, `BakeryPackets`,
`BakerySteps` and `BakeryInvariant` prove the basic invariant, `BakeryOrder` replication and first
come first served, `BakeryPlaces` and `BakeryExclusion` the waiting invariant and mutual exclusion,
and `BakeryTwo` that two leaders need no assumption about the transport.

`Queues.dfy` adds the order of sending on each link. `BakeryThree`, `BakeryReuse` and `BakeryTurns`
build the failing runs, one delivery at a time, with the moves of `QueueMoves`, `Dialogue`, `Stages`
and `Latecomers` and the longer pieces of `Rounds` and `TwoOwners`. `BakeryRules` puts both sides
together: which rules each property needs.

**One daemon with a clock.** `TicketProgress` and `TicketRecord` are the transitions of a ticket
as values, `Ticket.dfy` the class that performs them, `TicketTrace` the order of a ticket's
messages and `TicketHistory` exactly which of them go out and when the ticket ends. `Cluckd.dfy` is
the daemon class: the tables hold ticket objects, and `find_first_lock`, `cleanup`, `msg_lock`,
`msg_unlock`, `check_lock_status` are methods with loops over them.
`TicketRow`, `Tables` and `NextTimeout` specify what sweeps do, `Verdicts` what `msg_lock` answers.
`FifoLock` is an independent definition of a lock service, one FIFO queue for each object name, and
`OneLeader` proves that a daemon that is the only leader is such a service. `RequestCache` follows
requests that come before the daemon is ready, and `Replays` says what becomes of them then.

**Around it.** `KeyOrder` and `Text` are the key strings; `Computer`, `Election` and `Cluster`
the identifiers, the election and LOCK_STARTED; `Serialization` the merge of tickets between
leaders; `LostOwner` what leader 0 does with the tickets of a lost leader; `ClientState` and
`Client` the lock object of a client, and `ClientHistory` what it sends and reports over a run. `Basics`
and `Sets` hold what several modules share.

## Assumptions

- A ticket is *held* from the moment its owner sends LOCKED until a leader processes its UNLOCK. A
  client may send UNLOCK at any time. When a leader that is not the owner processes UNLOCK before the
  owner sends LOCKED, that later LOCKED does not count: the ticket is then not held at all.
- In the model of several leaders nothing times out, no leader is lost, and a step that would let a
  ticket number wrap around (where `max_ticket` throws) is not taken. All tickets are about one
  object name, since the tables of different names do not touch each other. A LOCK_ENTERING that
  meets an older ticket of the same client is not taken either; with careful clients there is none
  (`BakeryInvariant.NoSecondNumber`).
- `Bakery.Disciplined` is what three leaders need of the transport: LOCK_ENTERED of a request is
  processed only when no LOCK_ENTERING of it is in flight, and LOCK_EXITING of a ticket reaches a
  leader after its ADD_TICKET. The second part is the order of one link, the first is not.
- Clients are *careful* when a client locks again only after its former request is gone everywhere:
  no packet in flight and no table of any leader mentions it (`Bakery.Unmentioned`). `msg_lock` only
  looks at the two tables of its own leader, and the entering key and the ticket numbers come back,
  so that answers to the former ticket can count for the new one. A client that takes a new
  entering key for every LOCK is careful (`BakeryInvariant.FirstTimersAreCareful`).
- `BakeryRules` says how far these two rules are needed, even on ordered links. For three leaders,
  mutual exclusion and the waiting invariant need both, replication and the order of the quorums need
  careful clients only. For two leaders, mutual exclusion and replication need careful clients only.
  As a rule for single clients care is sufficient; it is not claimed to be the weakest one.
- One acknowledgement is a quorum, as in the code.
- The clock does not move while a handler runs. Dates are nanoseconds.
- In `Cluckd.dfy` the handlers `MsgLock`, `MsgUnlock` and `CheckLockStatus` are those of a daemon that
  is the only leader; between two events it has no entering ticket, so the checks of `msg_lock` on
  the entering table cannot fire there. Sweeps and `Cleanup` are for any number of leaders.
- IP addresses, random numbers, process limits and message transport come from outside. Server and
  object names contain neither a slash nor a vertical bar.

## What the proofs show about the code

- Three leaders on ordered links can let two clients hold one lock (`BakeryThree.TwoHolders`), and so
  can two or three when a client locks again before its former request is forgotten
  (`BakeryReuse.TwoHoldersOfTwo`, `BakeryReuse.TwoHoldersOfThree`). README.md:234-239 of the
  repository admits a weakness of this kind. Such a client can also be told LOCKED for a ticket that
  no other leader has (`BakeryReuse.LockedByLateAnswers`) and be served out of turn
  (`BakeryTurns.ServedOutOfTurn`).
- From four computers on, and only then, two daemons can both conduct an election
  (`Election.TwoElectors`). A cluster that is not complete can get two leaders only
  (`Election.WhoElects`). After CLUSTER_DOWN an older result comes back when it is the first one
  heard and no newer one follows (`Election.StaleWhenOlder`, `Election.StaleRun`).
- `set_id` keeps the text of an identifier whose priority is written with one digit or with leading
  zeros, and such texts do not always sort by priority (`Computer.UnpaddedOrder`).
- When the daemon looks at the clock too late, the lock ends with UNLOCKED and no UNLOCKING before it
  (`TicketHistory.LateCheck`, `TicketHistory.WarnedExactly`).
- A client that answers UNLOCKING gets no UNLOCKED (`TicketTrace.NoAnswerAfterUnlocking`). A client
  that unlocks before it got the lock sees a failure, unless an earlier LOCKED left it an unlocked
  date that has not passed (`ClientState.UnlockedFailsIff`). A LOCKED that crosses an UNLOCK locks
  again, and in extended mode without a callback that unlocks it stays so
  (`ClientState.LockedAfterUnlock`).
- Ticket merging does not commute on an owner that both texts name differently
  (`Serialization.OwnerDoesNotCommute`). A vertical bar in a text is written as `%7C` and not turned
  back (`Serialization.RoundTrip`).
- A lost leader's ticket that is in both tables is restarted twice (`LostOwner.RestartedTwice`). A
  daemon that is alone refuses the second LOCK as a duplicate (`Replays.SecondIsDuplicate`).
- In `unserialize` a name without an equal sign is taken as its own value (`Serialization.BareName`). The timer of the
  cache can be up to a second late (`Verdicts.TimerOfTheSecond`).
- An exception during the replay of cached requests loses the requests after it
  (`Cluckd.Cluckd.CheckLockStatus`, `Replays.ReplayInHistory`, `RequestCache.Conservation`).

## Model

| member | source | states |
|---|---|---|
| `BakeryExclusion.MutualExclusion` | daemon/cluckd.cpp:2193-2236 | In every run of at most three leaders with disciplined deliveries and careful clients, and at every point of it, at most one client holds the lock of an object, whichever leaders own the tickets; held is from LOCKED to the UNLOCK and nothing else |
| `BakeryRules.ThreeLeadersNeedBoth` | README.md:234-239 | For any three leaders and any rules on transport and clients: two clients never hold the lock in any run by these rules, if and only if the deliveries are disciplined and the clients careful; ordered links neither suffice nor matter |
| `BakeryRules.TwoLeadersNeedCare` | daemon/cluckd.cpp:2897-3016 | For any two leaders and any rules on transport and clients: two clients never hold the lock in any run by these rules, if and only if the clients are careful, whatever order the links keep |
| `BakeryRules.ReplicationNeedsCare` | daemon/ticket.cpp:657-802 | For any two or three leaders and any rules: every ticket for which LOCKED was sent is listed by a second leader until it is released, in every run by these rules, if and only if the clients are careful; the transport does not matter |
| `BakeryRules.TurnsNeedCare` | daemon/ticket.cpp:521-589 | For any three leaders and any rules: in every run a ticket that had its quorum when another one asked for the largest number has the smaller number, if and only if the clients are careful |
| `BakeryRules.WaitingNeedsBoth` | daemon/ticket.cpp:657-735 | For any three leaders and any rules: in every run no smaller ticket reaches an owner whose own ticket is ready, if and only if the deliveries are disciplined and the clients careful |
| `BakeryReuse.TwoHoldersOfThree` | daemon/cluckd.cpp:2975-3016 | Three leaders, disciplined deliveries on links that keep their order, and a client that locks again at once: for all names of leaders and any two keys there is a run at whose end both clients hold the lock |
| `BakeryReuse.TwoHoldersOfTwo` | daemon/cluckd.cpp:2975-3016 | The same for two leaders: UNLOCK at the leader that does not own the ticket and LOCK again, before the old LOCK_ACTIVATED arrives; for all names of leaders and any two keys there is a disciplined run on links that keep their order at whose end both clients hold the lock, one of them for a ticket that no other leader lists |
| `BakeryReuse.LockedByLateAnswers` | daemon/cluckd.cpp:2975-3016 | Three leaders, disciplined deliveries on ordered links, and one client that locks again at once: late answers to its first request lead to LOCKED for the second one, which no other leader lists |
| `BakeryTurns.ServedOutOfTurn` | daemon/ticket.cpp:521-589 | Three leaders, disciplined deliveries on ordered links: a client that locks again gets, by a late MAX_TICKET, a number that is not larger than that of a client with an earlier quorum |
| `BakeryTurns.HastyOvertakes` | daemon/ticket.cpp:657-735 | In such a run the smaller ticket of a client that locks again reaches an owner whose own ticket is ready |
| `BakeryInvariant.FirstTimersAreCareful` | daemon/cluckd.cpp:2897-3016 | A run in which every LOCK is the first one with its entering key is a run of careful clients |
| `BakeryInvariant.NewIsUnmentioned` | daemon/cluckd.cpp:2897-3016 | In a state that satisfies the invariant a key that is not in use is mentioned by no packet and no table |
| `BakeryTwo.MutualExclusionOfTwo` | daemon/cluckd.cpp:3098-3124 | With two leaders and careful clients the same holds for every delivery order |
| `BakeryTwo.TwoLeadersAreDisciplined` | daemon/cluckd.cpp:3136-3154 | Every run of two leaders with careful clients is a disciplined one: a question and its answer are never in flight together |
| `BakeryThree.TwoHolders` | README.md:234-239 | Three leaders on links that keep the order of sending, nobody locks twice: for all names of leaders and any two keys there is a run at whose end both clients hold the lock; the run carries the queue of every link, and each delivery takes the head of its queue |
| `BakeryThree.StrangerOvertakes` | README.md:234-239 | In that run the smaller ticket reaches the owner of the larger one when that one is ready |
| `Queues.PlayedIsRun` | daemon/ticket.cpp:417-461 | A run with queues, by whatever rules, is a run of the packet model by the same rules |
| `BakeryExclusion.WaitingInvariant` | daemon/ticket.cpp:657-735 | Once a ticket is ready at its owner, and until it is released, every ticket added later to that owner's table has a strictly larger key |
| `BakeryOrder.FirstComeFirstServed` | daemon/ticket.cpp:521-589 | If a ticket had its TICKET_ADDED quorum when another one asked for the largest number, and was not removed, the other one gets a strictly larger number and key, for any order of deliveries and at most three leaders |
| `BakeryOrder.QuorumReplication` | daemon/ticket.cpp:601-679 | A ticket past its quorum is in a second leader's table, with the owner's number, until it is released; and all leaders that list it use the same key |
| `BakeryOrder.LockedIsReplicated` | daemon/ticket.cpp:779-802 | A ticket for which LOCKED was sent has such a second leader, at that moment and until it is released |
| `BakeryInvariant.StepKeepsBase` | daemon/cluckd.cpp:2254-2455 | Every step (LOCK of a careful client, UNLOCK, delivery of any message) keeps the table and packet invariants: copies never run ahead of the owner and agree with its number, and every packet in flight says something true of its ticket |
| `BakeryInvariant.NoSecondNumber` | daemon/ticket.cpp:1246-1263 | set_ticket_number never throws in a state that satisfies the invariant, so that the only exception left is the wrap-around of max_ticket; and LOCK_ENTERING never meets an older ticket of its client |
| `BakeryOrder.StepKeepsOrdered` | daemon/cluckd.cpp:2671-2696 | Every step of at most three leaders keeps replication and the first-come order, in whatever order packets arrive |
| `BakeryExclusion.StepKeepsSafe` | daemon/cluckd.cpp:3353-3440 | Every disciplined step of careful clients keeps the places of the tickets, the waiting property, the clearance of each ticket for which LOCKED was sent or is bound to be sent, and that a ticket ends only by its UNLOCK |
| `LeaderFacts.LockedBecause` | daemon/ticket.cpp:779-802 | LOCKED goes out only at the owner, for a ticket of its table that can be locked and is first in that table or was reported first in LOCK_ACTIVATED |
| `LeaderFacts.OutSends` | daemon/ticket.cpp:417-461 | For each message a handler sends: who sends it to whom, on which message, and with which contents |
| `LeaderFacts.NewTickets` | daemon/cluckd.cpp:2440-2455 | A handler adds a ticket to a table only on ADD_TICKET for a ticket that is entering there, or on MAX_TICKET for one without a number |
| `LeaderFacts.EveryQuestionIsAnswered` | daemon/cluckd.cpp:2193-2696 | Every LOCK_ENTERING, GET_MAX_TICKET, ADD_TICKET and ACTIVATE_LOCK is answered to its sender; TICKET_ADDED exactly for a ticket that is entering and not listed yet, and LOCK_FAILED for any other |
| `LeaderFacts.RefusedLeaves` | daemon/cluckd.cpp:2581-2655 | A ticket that was dropped or refused leaves the tables, nothing else does, and the next one may be activated |
| `Leader.FindFirst` | daemon/cluckd.cpp:1343-1394 | Without timeouts the first ticket is the one with the least key, none for an empty table |
| `Leader.GetLast` | daemon/cluckd.cpp:1871-1897 | The largest number of a table, 0 for an empty one |
| `LeaderDaemon.TablesAreKeyed` | daemon/cluckd.cpp:1910-1916 | In every state that satisfies the table invariant each ticket is stored under its own keys, which the handlers below require |
| `LeaderDaemon.Daemon.SendToLeaders` | daemon/ticket.cpp:417-461 | The loop adds exactly one packet for each other leader |
| `LeaderDaemon.Daemon.FindFirstLock` | daemon/cluckd.cpp:1343-1394 | The loop finds the least key of the table |
| `LeaderDaemon.Daemon.GetLastTicket` | daemon/cluckd.cpp:1871-1897 | The loop finds the largest number of the table |
| `LeaderDaemon.Daemon.ActivateFirstLock` | daemon/cluckd.cpp:1328-1340 | ACTIVATE_LOCK goes to the other leaders for the first ticket, if it can be locked, and nothing else changes |
| `LeaderDaemon.Daemon.MsgLock` | daemon/cluckd.cpp:2897-3087 | Refuses exactly the clients that one of its two tables lists, and changes nothing then; else performs the LOCK step of the protocol model on the tables of one leader and sends exactly its messages |
| `LeaderDaemon.Daemon.MsgLockEntering` | daemon/cluckd.cpp:3176-3342 | Performs the LOCK_ENTERING step: an entering copy of the other leader's ticket, once, and LOCK_ENTERED back |
| `LeaderDaemon.Daemon.MsgLockEntered` | daemon/cluckd.cpp:3135-3154 | Performs the LOCK_ENTERED step: the first answer makes the owner ask for the largest number |
| `LeaderDaemon.Daemon.MsgGetMaxTicket` | daemon/cluckd.cpp:2671-2696 | Performs the GET_MAX_TICKET step: the answer is the largest number of the table |
| `LeaderDaemon.Daemon.MsgMaxTicket` | daemon/cluckd.cpp:3978-3999 | Performs the MAX_TICKET step: the first answer gives the ticket the next number and adds it; false exactly where the number would wrap around and the source throws |
| `LeaderDaemon.Daemon.MsgAddTicket` | daemon/cluckd.cpp:2254-2455 | Performs the ADD_TICKET step: adds a ticket that is entering and not listed, refuses any other with LOCK_FAILED; false exactly where set_ticket_number throws |
| `LeaderDaemon.Daemon.MsgTicketAdded` | daemon/cluckd.cpp:4134-4189 | Performs the TICKET_ADDED step: the first answer is the quorum, takes the snapshot of the entering tickets and exits the own table |
| `LeaderDaemon.Daemon.MsgLockExiting` | daemon/cluckd.cpp:3353-3440 | Performs the LOCK_EXITING step: the loop over the table takes the key out of every waiting list, sends TICKET_READY for each list that became empty, and the first ticket may be activated |
| `LeaderDaemon.Daemon.MsgTicketReady` | daemon/cluckd.cpp:4199-4220 | Performs the TICKET_READY step |
| `LeaderDaemon.Daemon.MsgActivateLock` | daemon/cluckd.cpp:2193-2236 | Performs the ACTIVATE_LOCK step: the answer names the first ticket, which is locked here if it is the one asked for |
| `LeaderDaemon.Daemon.MsgLockActivated` | daemon/cluckd.cpp:3098-3124 | Performs the LOCK_ACTIVATED step: the ticket is locked if it is listed and was reported first |
| `LeaderDaemon.Daemon.MsgUnlock` | daemon/cluckd.cpp:4231-4325 | Finds the ticket by its entering key and performs the UNLOCK step: DROP_TICKET to the others, the ticket leaves, the next one may be activated; without a ticket nothing changes |
| `LeaderDaemon.Daemon.MsgDropTicket` | daemon/cluckd.cpp:2581-2655 | Performs the DROP_TICKET step on both tables |
| `LeaderDaemon.Daemon.MsgLockFailed` | daemon/cluckd.cpp:3468-3575 | Performs the LOCK_FAILED step for a refused ticket |
| `KeyOrder.KeyStringOrder` | daemon/ticket.cpp:601-641 | For all 32-bit numbers and all entering keys the string order of two table keys is the order of the numbers and then of the entering keys, and equal strings mean equal keys |
| `KeyOrder.KeyParsesBack` | daemon/cluckd.cpp:2313-2417 | msg_add_ticket reads from the key the number and the entering key that the owner wrote, for names without a slash |
| `KeyOrder.KeyParsesExactly` | daemon/cluckd.cpp:2313-2417 | A key is accepted if and only if it has three segments, the first one a hexadecimal number of at most 32 bits, and then its parts are read |
| `Ticket.Ticket.constructor` | daemon/ticket.cpp:356-399 | A new ticket has no progress and both durations within their bounds |
| `Ticket.Ticket.SetUnlockDuration` | daemon/ticket.cpp:1188-1199 | The unlock duration is clamped; the default means the lock duration |
| `TicketRecord.DurationsAsAsked` | daemon/ticket.cpp:356-399 | A ticket lasts as long as asked for, within the bounds, and without an unlock duration that one is the lock duration |
| `Ticket.Ticket.Entering` | daemon/ticket.cpp:471-502 | LOCK_ENTERING is sent and nothing else changes; one leader goes on at once |
| `Ticket.Ticket.Entered` | daemon/ticket.cpp:521-549 | The first LOCK_ENTERED stores the own largest number and sends GET_MAX_TICKET, later ones do nothing |
| `Ticket.Ticket.MaxTicket` | daemon/ticket.cpp:566-589 | The first MAX_TICKET gives the number after both largest ones and sends ADD_TICKET; false exactly where the source throws because the number would wrap around |
| `Ticket.Ticket.TicketAdded` | daemon/ticket.cpp:657-679 | The first TICKET_ADDED is the quorum: the entering tickets are the ones to wait for, and LOCK_EXITING is sent |
| `Ticket.Ticket.RemoveEntering` | daemon/ticket.cpp:694-735 | A key that the ticket waits for leaves the waiting list, with every other ticket whose date is not to come, and no other; TICKET_READY is sent, and the ticket is ready, exactly when that empties the list; otherwise nothing changes |
| `Ticket.Ticket.EraseExpired` | daemon/ticket.cpp:707-720 | The loop keeps exactly the tickets that did not time out, each under its key |
| `Ticket.Ticket.SetTicketNumber` | daemon/ticket.cpp:1246-1263 | Stores the number once; false, and nothing changes, where the source throws |
| `Ticket.Ticket.SetReady` | daemon/ticket.cpp:1227-1230 | The ticket is ready and nothing else changes |
| `Ticket.Ticket.ActivateLock` | daemon/ticket.cpp:750-767 | ACTIVATE_LOCK is sent exactly for a ticket that is ready, not locked and not failed |
| `Ticket.Ticket.LockActivated` | daemon/ticket.cpp:779-802 | Such a ticket becomes locked with both dates; only its owner sends LOCKED, with those dates |
| `Ticket.Ticket.DropTicket` | daemon/ticket.cpp:813-863 | DROP_TICKET, and UNLOCKED exactly when no failure was recorded before |
| `Ticket.Ticket.LockFailed` | daemon/ticket.cpp:897-1059 | The failure level rises by one; the first time a locked ticket gets its date extended by the unlock duration; the message depends on level, lock and date; only the owner sends it |
| `Ticket.Ticket.SetAliveTimeout` | daemon/ticket.cpp:1353-1371 | The alive timeout is not negative and not past the obtention timeout |
| `Ticket.Ticket.GetCurrentTimeoutDate` | daemon/ticket.cpp:1428-1441 | The alive timeout if there is one, else the lock date of a locked ticket, else the obtention timeout |
| `Ticket.Ticket.TimedOut` | daemon/ticket.cpp:1463-1466 | True exactly when that date is not in the future |
| `TicketTrace.TraceOfOneTicket` | daemon/ticket.cpp:521-1059 | Over every sequence of calls and clock checks by its owner: the bakery messages and LOCKED go out at most once each and in order, the ticket's LOCK_FAILED and LOCKED exclude each other, UNLOCKING comes after LOCKED, UNLOCKED goes out at most once, and a locked ticket is ready |
| `TicketTrace.NextTraced` | daemon/ticket.cpp:897-955 | Each single call keeps that invariant |
| `TicketTrace.NoAnswerAfterUnlocking` | daemon/ticket.cpp:813-863 | A client that answers UNLOCKING with UNLOCK never gets UNLOCKED |
| `TicketHistory.EndsExactly` | daemon/ticket.cpp:1428-1466 | For any number of leaders and over every sequence of calls and clock checks: the owner erases a ticket exactly at its UNLOCK, or at the first clean up at or after the date of the last ALIVE or, without one, at or after the unlocked date that LOCKED told its client, the obtention timeout before LOCKED |
| `TicketHistory.WarnedExactly` | daemon/ticket.cpp:897-985 | Over every such sequence UNLOCKING goes out if and only if, after LOCKED told the client the dates t and u, the daemon looked at the clock at a time from t to before u, and no ALIVE took the place of these dates |
| `TicketHistory.LateCheck` | daemon/ticket.cpp:933-985 | A clock check after the lock timed out sends UNLOCKING only before the unlocked date; at or after it the ticket of a client that got LOCKED ends with UNLOCKED at once |
| `TicketHistory.EveryEndIsTold` | daemon/ticket.cpp:813-1059 | The client hears of every end of its ticket and of none before: one that the clock ended sent LOCK_FAILED if its client never got LOCKED and UNLOCKED if it did; one that was unlocked sent DROP_TICKET, and UNLOCKED exactly if UNLOCKING had not gone out |
| `TicketHistory.LockedExactly` | daemon/ticket.cpp:779-802 | LOCKED goes out if and only if the owner could lock its ticket after TICKET_READY; its dates are the clock at the first such call, plus the lock duration, plus the unlock duration |
| `TicketHistory.ReadyExactly` | daemon/ticket.cpp:657-735 | TICKET_READY has gone out if and only if each key that was entering at the TICKET_ADDED quorum has left by a LOCK_EXITING or was found timed out at one |
| `TicketHistory.AnswersAreActedOn` | daemon/ticket.cpp:521-679 | GET_MAX_TICKET, ADD_TICKET and LOCK_EXITING go out if and only if LOCK_ENTERED, MAX_TICKET and TICKET_ADDED came |
| `TicketHistory.RepeatedExactly` | daemon/ticket.cpp:471-767 | One LOCK_ENTERING for each call of entering(), and one ACTIVATE_LOCK for each call of activate_lock() while the ticket is ready and LOCKED has not gone out |
| `TicketHistory.CopiesAreSilent` | daemon/ticket.cpp:779-1059 | What another leader does to its copy over any sequence of calls is what the owner would do to the ticket, except that the client hears no LOCKED, UNLOCKING or LOCK_FAILED of it, and UNLOCKED only in answer to its UNLOCK |
| `TicketRecord.SweptIsCurrent` | daemon/cluckd.cpp:1360-1383 | No ticket of a swept row is timed out |
| `TicketRecord.CurrentIsSwept` | daemon/cluckd.cpp:1360-1383 | A sweep leaves a row alone that has no timed out ticket |
| `TicketRow.CleanedIsCurrent` | daemon/cluckd.cpp:1754-1799 | A cleaned row has no timed out ticket; only a row that lost a ticket has its first one activated |
| `TicketRow.CleanedTwice` | daemon/cluckd.cpp:1754-1799 | Cleaning a row twice at the same time is cleaning it once |
| `TicketRow.CleanedTableInvariant` | daemon/cluckd.cpp:1754-1799 | A cleaned table has no empty row, every row is in strict key order, and nothing is timed out |
| `TicketRow.LastNumberUnique` | daemon/cluckd.cpp:1871-1897 | The largest number of a row, 0 for an empty one, is determined |
| `NextTimeout.AlarmOf` | daemon/cluckd.cpp:1836-1850 | The timer is off when there is no date left and else rings one second after the least one |
| `Cluckd.Cluckd.Lapse` | daemon/cluckd.cpp:1360-1383 | A ticket is erased exactly if it is still timed out after lock_failed |
| `Cluckd.Cluckd.SweepRow` | daemon/cluckd.cpp:1360-1383 | The loop keeps, in order, exactly the tickets of the row that survive, and finds the earliest of their dates |
| `Cluckd.Cluckd.FindFirstLock` | daemon/cluckd.cpp:1343-1394 | The swept row replaces the row, an empty one is removed from the table, other rows stay, and the result is the ticket with the least surviving key |
| `Cluckd.Cluckd.ActivateFirstLock` | daemon/cluckd.cpp:1328-1340 | The row is swept and its first ticket activated |
| `Cluckd.Cluckd.CleanTickets` | daemon/cluckd.cpp:1754-1799 | The loop over f_tickets turns every row into its cleaned form, removes empty rows, and finds the earliest remaining date |
| `Cluckd.Cluckd.CleanEntering` | daemon/cluckd.cpp:1800-1835 | The loop over f_entering_tickets removes exactly the entries still timed out after lock_failed and finds the earliest remaining date |
| `Cluckd.Cluckd.CleanCache` | daemon/cluckd.cpp:1692-1752 | The loop over the cache answers exactly the timed out requests with LOCK_FAILED/timedout, keeps the others in order, and finds the earliest remaining timeout |
| `Cluckd.Cluckd.Cleanup` | daemon/cluckd.cpp:1688-1850 | Terminates; all three containers are cleaned as above, tickets present in both tables included; with two or more leaders the timer is off or one second after the least date of the requests, tickets and entering tickets that remain, and with one leader of the dates before the activation |
| `NextTimeout.CleanedTableDates` | daemon/cluckd.cpp:1754-1799 | With two or more leaders an activation does not change the dates of a cleaned table |
| `Cluckd.Cluckd.GetLastTicket` | daemon/cluckd.cpp:1871-1897 | The loop finds the largest number of the row |
| `Cluckd.Cluckd.SetTicket` | daemon/cluckd.cpp:1910-1916 | The ticket enters the row of its object between the smaller and the larger keys; nothing else changes |
| `Cluckd.Cluckd.FindTicket` | daemon/cluckd.cpp:2975-2990 | The first ticket of a row with the entering key, or none |
| `Cluckd.Cluckd.CheckLock` | daemon/cluckd.cpp:2791-2886 | The refusals of msg_lock in their order: past timeout, duration, unlock duration, cached when not ready, forwarded when not a leader; the timer is brought forward for a cached request |
| `Cluckd.Cluckd.MsgLock` | daemon/cluckd.cpp:2753-3087 | On a daemon that is the only one: the outcome for every request, and the resulting ticket table, cache and messages, equal to what the queue model says; a sound request before the daemon is ready is the early event of RequestCache, and one is forwarded exactly by a daemon that is ready and no leader; an exception exactly where the number would wrap around, which leaves the cleaned tickets and the new one in the entering table |
| `Cluckd.Cluckd.MsgLockElsewhere` | daemon/cluckd.cpp:2753-2894 | On a daemon that is not ready or no leader, with any number of computers: a sound request is cached when it is not ready, whether or not it leads, as the early event of RequestCache, and forwarded when it is; the timer then rings less than a second after the timeout of a cached request at the latest |
| `Verdicts.EveryVerdict` | daemon/cluckd.cpp:2791-3016 | When msg_lock does what, for every request: past timeout, durations that the ticket would raise, cached, forwarded, duplicate, exception, entered; independent of the order of its tests |
| `Verdicts.OneAnswer` | daemon/cluckd.cpp:2791-2894 | At most one message of its own for a request: the refusal with its error, or the request itself to a leader |
| `Verdicts.KeptUntil` | daemon/cluckd.cpp:2066-2077 | A cached request is kept until exactly the timeout that it names, whenever it came, and without one for the obtention timeout of the daemon |
| `Verdicts.TimerOfTheSecond` | daemon/cluckd.cpp:2876-2885 | A timer that rings within the second of the timeout of a cached request is not brought forward, unless that timeout is in the first thousandth of the second |
| `Replays.CachedOrForwarded` | daemon/cluckd.cpp:2865-2894 | A request is cached if and only if it is sound and the daemon is not ready, and forwarded if and only if it is sound and the daemon is ready and no leader |
| `Replays.EnteredAsAsked` | daemon/cluckd.cpp:3018-3087 | The ticket of an entered request is the last one of its row, with the key of the client, the timeout and the durations of the request |
| `Cluckd.Cluckd.MsgUnlock` | daemon/cluckd.cpp:4231-4325 | On such a daemon: ignored, forwarded or handled; a handled UNLOCK makes of the ticket table what the queue model says, and of the cache and the messages what the clean up after it does |
| `Cluckd.Cluckd.ProcessTimeout` | daemon/timer.cpp:77-80 | On such a daemon the timer makes of the table what the queue model says, answers the timed out requests and keeps the other ones |
| `Cluckd.Cluckd.ForwardToLeader` | daemon/cluckd.cpp:1648-1674 | One forwarded message, no other change |
| `Cluckd.Cluckd.CheckLockStatus` | daemon/cluckd.cpp:1187-1222 | When readiness changes to true, LOCK_READY is sent and the cached requests are replayed through msg_lock in order, each answered as msg_lock does, and the cache is empty after that; the replay succeeds exactly if msg_lock throws for none of them on the table its predecessors leave, and otherwise ends at the first such request, on the table that msg_lock leaves then, with nothing left of the ones after it; a change to false sends NO_LOCK, and without a change nothing happens |
| `Replays.ReplayInHistory` | daemon/cluckd.cpp:1187-1222 | What CheckLockStatus does with the cache is the replay event of RequestCache: the requests it reaches are given to msg_lock and the others are lost |
| `Replays.SecondIsDuplicate` | daemon/cluckd.cpp:2897-3016 | A request that msg_lock entered on a daemon that is alone is refused as a duplicate when it comes again |
| `OneLeader.RunRefinesFifo` | daemon/cluckd.cpp:2753-3087 | Over every sequence of LOCK, UNLOCK and timer events the rows of a daemon that is alone are, for every object name, the FIFO queue of the reference model |
| `OneLeader.RequestRefines` | daemon/cluckd.cpp:4231-4325 | One event: the tables stay queues and each queue takes the step of the reference model |
| `OneLeader.OneHolder` | daemon/ticket.cpp:750-802 | From the start, after any run: the first ticket of every row is locked and no other one is, all are ready, no client is in a row twice, no row is empty |
| `OneLeader.LeaseIsSafe` | daemon/ticket.cpp:897-955 | A holder keeps the lock, until the unlocked date that LOCKED told it, over every run before that date without its UNLOCK |
| `OneLeader.SweepHolding` | daemon/ticket.cpp:897-955 | A sweep removes a holder exactly at the unlocked date sent to it |
| `OneLeader.SweepWaiting` | daemon/ticket.cpp:1428-1466 | A sweep removes a waiting ticket exactly at its obtention timeout |
| `OneLeader.FreshWaits` | daemon/ticket.cpp:417-461 | With one leader a new ticket goes through all steps at once: it waits with the next number and sent the five bakery messages in order |
| `OneLeader.CleanedIsSettled` | daemon/cluckd.cpp:1754-1799 | Cleaning a row is settling its queue: who gives up leaves, the first one left is granted |
| `FifoLock.StepProper` | daemon/ticket.cpp:750-767 | Reference model: after every event the first client and nobody else holds the lock, and nobody is queued twice |
| `FifoLock.HolderStays` | daemon/ticket.cpp:897-955 | Reference model: the holder stays, with the same end of its lease, until it unlocks or that end |
| `FifoLock.NobodyOvertakes` | daemon/cluckd.cpp:3018-3087 | Reference model: no event changes the order of two queued clients; a newcomer is last |
| `FifoLock.LeaseSafety` | daemon/ticket.cpp:779-802 | Reference model: over every run before the end of the lease and without an UNLOCK of the holder |
| `FifoLock.FirstComeFirstServed` | daemon/cluckd.cpp:1343-1394 | Reference model: over every run the second of two queued clients does not get the lock while the first is there |
| `FifoLock.SecondLock` | daemon/cluckd.cpp:2975-3016 | Reference model: while a client is queued, a second LOCK of it is refused |
| `RequestCache.Conservation` | daemon/cluckd.cpp:1187-1222 | After any run no request is lost, whichever it is, if and only if in no replay msg_lock threw for a request before the last cached one |
| `RequestCache.EveryRequestAccounted` | daemon/cluckd.cpp:1692-1752 | Over every run each cached LOCK is, as often as it came, still cached, answered with one LOCK_FAILED, given back to msg_lock, or lost in such a replay; none stays past a clean up at or after its timeout |
| `RequestCache.LostRequest` | daemon/cluckd.cpp:1187-1222 | Two cached requests and an exception for the first: the second one is lost |
| `RequestCache.ArrivalOrder` | daemon/cluckd.cpp:2865-2886 | Replayed requests followed by those still cached are in their order of arrival |
| `Computer.IdRoundTrip` | daemon/computer.cpp:153-268 | set_id reads back the five parts that get_id wrote |
| `Computer.PaddedOrder` | daemon/computer.cpp:295-327 | Identifiers with two-digit priorities are in an order that never contradicts the priorities |
| `Computer.IdIsPadded` | daemon/computer.cpp:295-327 | get_id writes the priority with two digits |
| `Computer.TextParses` | daemon/computer.cpp:153-268 | set_id reads back the five parts, with the priority written in any number of digits |
| `Computer.AcceptedExactly` | daemon/computer.cpp:153-268 | set_id accepts a text if and only if it is the five parts of a proper computer, with its numbers in any digits and the random number modulo 32 bits, and reads those parts |
| `Computer.UnpaddedOrder` | daemon/computer.cpp:153-185 | Of any two identifiers that set_id accepts, the string order contradicts the priorities if and only if one priority is written with k > 0 more digits, is the larger one, and without its last k digits is not larger than the other one |
| `Computer.Computer.SetId` | daemon/computer.cpp:153-268 | Accepts exactly the identifiers with five valid parts; an error leaves the parts before it changed and the identifier unchanged; a second identifier throws |
| `Computer.Computer.GetId` | daemon/computer.cpp:295-327 | Builds the text once and keeps it; throws exactly when priority, address or process identifier is missing |
| `Computer.Computer.constructor` | daemon/computer.cpp:76-80 | The computer of another daemon: connected, without identifier and priority |
| `Computer.Computer.Self` | daemon/computer.cpp:83-116 | The own computer: refused exactly for an empty name, a bar or NUL in it, or a priority out of range; otherwise it has the given parts and no identifier text yet |
| `Cluster.Cluster.ElectionStatus` | daemon/cluckd.cpp:972-1184 | An election completes exactly when this daemon may conduct it, and never while the list of leaders is full; then the leaders are the (at most three) candidates with the smallest identifiers, in that order, none of them off, dated now; otherwise leaders and date stay |
| `Cluster.Cluster.SortById` | daemon/cluckd.cpp:1054-1086 | The candidates in strictly increasing order of identifiers, and the number of the others |
| `Cluster.Cluster.HasSmallestAddress` | daemon/cluckd.cpp:1036-1052 | True exactly when no known computer has a smaller address |
| `Cluster.Cluster.HearElection` | daemon/cluckd.cpp:3726-3771 | The newest election wins; the table of computers is the old one with the unknown leaders added as not connected |
| `Cluster.Cluster.HearComputer` | daemon/cluckd.cpp:3680-3724 | A computer is new when unknown, not connected or started again; the sender is known and connected then; an invalid identifier changes nothing |
| `Cluster.IntroducedKeeps` | daemon/cluckd.cpp:3746-3771 | Known computers stay as they are, every leader of the message is known, and nobody else is |
| `Cluster.Cluster.MsgLockStarted` | daemon/cluckd.cpp:3655-3786 | Own and invalid messages change nothing; otherwise the sender and the leaders of the message are known, the election part is heard, an election completes exactly when the daemon may conduct it with what it then knows, and a reply goes out exactly for a new or restarted computer or a change of the own role |
| `Cluster.Cluster.MsgClusterUp` | daemon/cluckd.cpp:2521-2562 | The quorum is half of the cluster plus one; an invalid own name or priority throws and changes nothing more; otherwise the own computer is known under an identifier that can be parsed, and an election completes exactly when the daemon may conduct it then |
| `Cluster.Cluster.MsgClusterDown` | daemon/cluckd.cpp:2492-2511 | The leaders are forgotten and the date stays |
| `Cluster.LeadersAreKnown` | daemon/cluckd.cpp:3726-3771 | Over every sequence of LOCK_STARTED and CLUSTER_UP each leader is a known computer, also one that was only named in the list of another daemon |
| `Cluster.FullListIsTaken` | daemon/cluckd.cpp:3726-3771 | A newer election with a full list is taken over with its date and its leaders in their order, and not answered by another election |
| `Cluster.LeadersStand` | daemon/cluckd.cpp:972-990 | Over every sequence of LOCK_STARTED and CLUSTER_UP after an election with three leaders, or with one or two in a cluster that stays of that size, leaders and date stay as they are as long as no newer date is announced |
| `Cluster.NewsOnce` | daemon/cluckd.cpp:3680-3724 | A LOCK_STARTED is news once, and again exactly after a new start of its sender |
| `Cluster.NamedIsNews` | daemon/cluckd.cpp:3680-3771 | A leader that was only named by others is news when its own LOCK_STARTED comes |
| `Election.WhoElects` | daemon/cluckd.cpp:972-1120 | With the quorum of CLUSTER_UP: the daemon with the smallest address elects, unless the list of leaders is full, in a complete cluster exactly if it has a candidate for each of the three places or each computer, and in one that is not complete exactly if it has at least four computers, more than half of them are known and two of those are candidates |
| `Election.ElectsAnew` | daemon/cluckd.cpp:976-988 | In a cluster of three or more, a daemon that lost a leader elects exactly as one that has none |
| `Election.LeadersHaveThePriority` | daemon/cluckd.cpp:1054-1166 | With two-digit priorities no candidate that was not elected has a smaller priority than a leader |
| `Election.OneResult` | daemon/cluckd.cpp:1095-1166 | Two elections over the same computers give the same leaders in the same order |
| `Election.QuorumsOverlap` | daemon/cluckd.cpp:1010-1034 | Two daemons of one cluster that pass the quorum tests know a common computer |
| `Election.OneElector` | daemon/cluckd.cpp:1010-1052 | With at most three computers, or equal views, two daemons that pass the quorum and address tests are the same one |
| `Election.TwoElectors` | daemon/cluckd.cpp:1010-1052 | In a cluster with distinct known addresses two daemons can both conduct an election if and only if it has at least four computers |
| `Election.Convergence` | daemon/cluckd.cpp:3726-3771 | After any sequence of LOCK_STARTED a fresh daemon has the leaders of the largest election date it was told |
| `Election.OrderDoesNotMatter` | daemon/cluckd.cpp:3726-3771 | Two fresh daemons that heard the same announcements, in any order and however often, agree on date and leaders |
| `Election.DateNeverDecreases` | daemon/cluckd.cpp:3726-3745 | The election date never decreases, and a later date replaces the leaders |
| `Election.DateIsNewest` | daemon/cluckd.cpp:3726-3745 | Over every sequence of announcements and CLUSTER_DOWNs the date is the latest one announced, 0 if there was none |
| `Election.StaleLeaders` | daemon/cluckd.cpp:2492-2511 | Over every sequence of announcements and CLUSTER_DOWNs the leaders are those of the newest election announced, if and only if an election newer than all before the last CLUSTER_DOWN was announced since, or the first list heard since names the leaders of the newest election before |
| `Election.StaleWhenOlder` | daemon/cluckd.cpp:3726-3771 | When different elections have different results: if and only if such a newer election was announced since the last CLUSTER_DOWN, or the first list heard since is not older than any election announced before |
| `Election.StaleRun` | daemon/cluckd.cpp:2492-2511 | An election, CLUSTER_DOWN, and the announcement of any older one with other leaders: the daemon takes the older leaders under the newer date |
| `Serialization.RoundTrip` | daemon/ticket.cpp:1583-1643 | unserialize of serialize into a new ticket gives back every serialized field if and only if no text field has a vertical bar; a text field comes back with %7C for each bar |
| `Serialization.EscapedBar` | daemon/ticket.cpp:1583-1643 | Every vertical bar of a value, and nothing else, is written as %7C |
| `Serialization.UnserializeTwice` | daemon/ticket.cpp:1659-1824 | Reading the text of a ticket a second time changes nothing |
| `Serialization.MergeGrows` | daemon/ticket.cpp:1659-1824 | Progress flags, failure level and lock date never go back, whatever text is read |
| `Serialization.MergeCommutes` | daemon/ticket.cpp:1659-1824 | On those fields any two texts can be read in either order |
| `Serialization.OwnerDoesNotCommute` | daemon/ticket.cpp:1659-1824 | Two texts leave the same owner in either order if and only if one of them has no owner field or their last owner fields agree |
| `Serialization.OverwritesCommute` | daemon/ticket.cpp:1659-1824 | The same for every other field that is overwritten, with the values that the last fields stand for |
| `Serialization.Merge` | daemon/ticket.cpp:1659-1824 | The loop over the tokens of a text does what the specification function says |
| `Serialization.OnlyNamedFields` | daemon/ticket.cpp:1659-1824 | Whatever text is read, a field that it does not name keeps its value, and the numbers keep their widths |
| `Serialization.BareName` | daemon/ticket.cpp:1659-1670 | A name without an equal sign counts as its own value: the text owner makes owner the owner |
| `Serialization.SerializedFields` | daemon/ticket.cpp:1583-1643 | The tokens of a serialized ticket carry distinct names, in order, each with its value |
| `LostOwner.SynchronizeEntering` | daemon/cluckd.cpp:1454-1530 | The loop over f_entering_tickets on leader 0 computes the kept tickets and the LOCK messages of the specification |
| `LostOwner.SynchronizeTickets` | daemon/cluckd.cpp:1532-1607 | The loop over f_tickets on leader 0 does, too |
| `LostOwner.TicketsAreSplit` | daemon/cluckd.cpp:1532-1607 | Tickets of a leader stay as they are, locked orphans stay with leader 0 as owner, every other orphan leaves and yields exactly one LOCK, in order, with the same object, tag, client and times and the original entering key |
| `LostOwner.EnteringIsSplit` | daemon/cluckd.cpp:1454-1530 | The same for entering tickets, of which every orphan leaves |
| `LostOwner.EveryOwnerLeads` | daemon/cluckd.cpp:1454-1607 | After the sweep every owner is a leader; nothing else of a kept ticket changed; exactly the orphans not spared are gone |
| `LostOwner.LockKeysAreKeyed` | daemon/ticket.cpp:1114-1127 | get_client_pid reads back the process identifier of every key that msg_lock builds, so a restarted ticket keeps its entering key |
| `LostOwner.RestartedTwice` | daemon/cluckd.cpp:1454-1607 | An orphan yields one LOCK for its place in the entering table and one for its place in the ticket table if it is not locked; since a locked ticket has left the entering table, it is exactly one if and only if the orphan is not locked and in one table only |
| `ClientState.RunAccounted` | cluck/cluck.cpp:1207-1353 | Over every sequence of events, whatever the callbacks call: accepted lock() calls equal finally() calls plus one if busy, failures do not exceed finally() calls, and the timer runs exactly in LOCKING, LOCKED and UNLOCKING |
| `ClientState.StepKeeps` | cluck/cluck.cpp:1367-1552 | Each single event keeps that account |
| `ClientHistory.EveryLockIsSent` | cluck/cluck.cpp:871-978 | Over every run, whatever the callbacks call: one LOCK was sent for each accepted lock(); in LOCKING the last message is a LOCK whose timeout is the date of the timer, and in UNLOCKING it is an UNLOCK; the lock date is the date of the timer in LOCKED and is taken back in UNLOCKING |
| `ClientHistory.EveryMessageInItsCycle` | cluck/cluck.cpp:871-1041 | Over every run: an event only adds messages; each LOCK asks for the obtention timeout from then on, and each UNLOCK follows more LOCKs than cycles have ended |
| `ClientHistory.EveryEndIsReported` | cluck/cluck.cpp:1207-1552 | Over every run: exactly which events end the cycle, with one finally(), a failure unless it was an UNLOCKED before the unlocked date of the last LOCKED, and which reason; the next cycle begins at once exactly if the callback of finally() locks; every valid LOCKED is one lock_obtained |
| `ClientHistory.StepGoesOn` | cluck/cluck.cpp:1207-1552 | The events that do not end the cycle: the timer of a locked object and an UNLOCKING in time send UNLOCK, a LOCKED is obtained, and only lock() of an idle object is accepted |
| `ClientState.SilentDaemon` | cluck/cluck.cpp:1207-1257 | When the daemon says nothing, one timer expiration ends LOCKING and UNLOCKING, and two end LOCKED |
| `ClientState.UnlockedFailsIff` | cluck/cluck.cpp:1488-1513 | Over every run of events: an acknowledged unlock() ends the cycle, and counts as a failure if and only if the unlocked date of the last LOCKED ever received has passed (0 if there was none) |
| `ClientState.UnlockWhileLockingFails` | cluck/cluck.cpp:995-1041 | So the first cycle fails when unlock() is called while LOCKING |
| `ClientState.EarlierLockHidesIt` | cluck/cluck.cpp:871-1041 | A later cycle with the same calls fails if and only if the unlocked date of an earlier LOCKED has passed, because lock() and unlock() do not reset it |
| `ClientState.LockedAfterUnlock` | cluck/cluck.cpp:1367-1387 | A LOCKED that crosses an UNLOCK locks the object again, with one more lock_obtained; it stays locked and the daemon hears no second UNLOCK if and only if the mode is extended and no callback unlocks |
| `Client.Cluck.Lock` | cluck/cluck.cpp:871-978 | Accepted exactly when idle, and then LOCK is sent with the obtention timeout from now on, which is the date of the timer, and the state is LOCKING; otherwise nothing changes |
| `Client.Cluck.Unlock` | cluck/cluck.cpp:995-1041 | Only in LOCKING and LOCKED: UNLOCK is sent with a timer of five seconds |
| `Client.Cluck.ProcessTimeout` | cluck/cluck.cpp:1207-1257 | The timer ends LOCKING and UNLOCKING as failures and starts the unlock of LOCKED |
| `Client.Cluck.LockObtained` | cluck/cluck.cpp:1288-1300 | The callbacks run, and simple mode unlocks after them |
| `Client.Cluck.LockFailed` | cluck/cluck.cpp:1314-1327 | Once per cycle: state FAILED, timer off, callbacks |
| `Client.Cluck.Finally` | cluck/cluck.cpp:1348-1353 | Idle and no longer listening before the callbacks, which may lock again |
| `Client.Cluck.MsgLocked` | cluck/cluck.cpp:1367-1387 | Stores both dates and sets the timer; an invalid message is a failure |
| `Client.Cluck.MsgLockFailed` | cluck/cluck.cpp:1398-1427 | A failure whose reason depends on the error parameter |
| `Client.Cluck.MsgTransmissionReport` | cluck/cluck.cpp:1450-1474 | A transmission failure ends the cycle, any other report changes nothing |
| `Client.Cluck.MsgUnlocked` | cluck/cluck.cpp:1488-1513 | Ends the cycle, as a failure when the unlocked date passed |
| `Client.Cluck.MsgUnlocking` | cluck/cluck.cpp:1529-1552 | Unlocks, or ends the cycle as a failure when the unlocked date passed |

## Left out

- BakeryExclusion.MutualExclusion: for clients that are not careful, and for three leaders whose deliveries are not disciplined, the claim is false (`BakeryRules.ThreeLeadersNeedBoth`, `BakeryRules.TwoLeadersNeedCare`); that each single delivery or LOCK outside these rules does harm is not claimed.
- BakeryExclusion.WaitingInvariant: for disciplined deliveries and careful clients; with three leaders it is false otherwise (`BakeryRules.WaitingNeedsBoth`). For two leaders with clients that are not careful it is neither proved nor refuted.
- BakeryOrder.FirstComeFirstServed: for careful clients; with three leaders it is false otherwise (`BakeryRules.TurnsNeedCare`). For two leaders with clients that are not careful it is neither proved nor refuted.
- BakeryOrder.QuorumReplication: for careful clients; otherwise it is false for locked tickets already (`BakeryRules.ReplicationNeedsCare`).
- BakeryOrder.LockedIsReplicated: for careful clients; otherwise it is false (`BakeryRules.ReplicationNeedsCare`).
- Bakery.SecondObject: a step in which LOCK_ENTERING meets an older ticket of the same client is not modelled; it would make two ticket objects for one key.
- Cluckd.Cluckd.Cleanup: with one leader a ticket's date is read before the activation may lock it, so the timer can be stale there; the contract says which dates it was computed from. That no row stays empty is stated for f_tickets; f_entering_tickets is one map from object and key, which has no inner maps.
- Cluckd.Cluckd.MsgLock: the checks on entering tickets cannot fire on a daemon that is alone and are not modelled; nor is the serial that lets a repeated LOCK pass without an error.
- LeaderDaemon.Daemon.MsgLock: the checks that do not look at the tables are those of Cluckd.Cluckd.CheckLock.
- LeaderDaemon.Daemon.MsgLockEntering: the refusals of a past timeout, of a short duration and of a daemon that is not ready are not modelled.
- LeaderDaemon.Daemon.MsgAddTicket: keys are already parsed; KeyOrder.KeyParsesBack is about the text. The ticket objects of this class are values, so that two tables share one object is not captured there; Cluckd.dfy has the objects.
- LeaderDaemon.Daemon.MsgDropTicket: the key of a ticket; a key without a number, which only takes an entry out of the entering table, is not modelled.
- LeaderDaemon.Daemon.MsgLockFailed: the LOCK_FAILED that a refused ADD_TICKET causes, with the key of a ticket; the form with an entering key and the forwarding to the client are not modelled.
- Serialization.RoundTrip: timestamps are written as plain decimals, which stand in for the timestamp text of the library; a number that cannot be read counts as 0. The date of `unlocked_date` is not serialized by the source.
- Serialization.Merge: works on a value with the serialized fields, not on the ticket object.
- LostOwner.SynchronizeTickets: the tables are lists of values; the branches for leaders 1 and 2 read the serial after advancing the iterator and are not modelled, nor is the exchange of LOCK_TICKETS.
- Client.Cluck.Lock: sending always succeeds; the type of the lock and the service parameters are not modelled.
- Client.Cluck.Unlock: sending always succeeds.
- Leader loss, CLUSTER_DOWN, ALIVE and ABSOLUTELY in the runs of several leaders: the source says itself that this recovery is not reliable.
- Semaphores and shared locks: planned, not implemented.
- A LOCK with a serial that restarts a ticket: part of the recovery above.
- LOCK_TICKETS with more than one ticket: the handler splits the whole parameter for each line.
- LOCK_LEADERS and LOCK_STATUS: they copy or report a list.
- The limit of one hundred entering tickets and the checks compiled only for debugging.
- msg_info, msg_list_tickets, flags, logging, settings, signals, transport and timers of the libraries: reporting and plumbing.
- The getters get_leader_a and get_leader_b and the clamps of the client's timeout setters: they would only add easy members.
