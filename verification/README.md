# Verification of the Laelia agent's turn reporting

A Dafny model of the part of the Laelia machine agent (`backend/agent`) that
makes an agent's work durable and delivers it: the per-agent outbox and its
uploader, the turn loop that fills the outbox, and the long-lived sessions the
turns run on. `dafny verify dfyconfig.toml` verifies everything.

## How it is built

**The outbox and the uploader.** `Outbox.dfy` has the outbox as a value (`Box`:
an append buffer in front of an indexed log of readable and torn records) with
one function per operation, and the class `Outbox.Outbox` whose methods carry
the operations out on its fields and are proved to do what those functions say.
What the disk does during a call is an argument (a *weather*: a batch write may
leave any prefix, a reopen, a rename, a truncation may fail), so every claim
holds for every disk. `Fold.dfy` says what a reply settles and what the fold
makes of it; `Uploader.dfy` has the uploader's methods against it, with the
manager as an arbitrary reply. `Shards.dfy`, `Groups.dfy`, `Retention.dfy` and
`Recovery.dfy` hold what is true of reads, command groups, and writes.

Whole runs are sequences of steps over those same functions. `Protocol.dfy` is
the delivery protocol: appends, write-through, reads, replies and failures,
cap drops, crashes with torn records, quarantines. Beside the live state it
keeps the history that the claims speak about. `Safety.dfy`, `Pace.dfy` and
`Progress.dfy` prove the claims. The one assumption about the manager is the
receiver's contract (`Protocol.Honest`): it forgets nothing, and an entry of the
batch that one of its watermarks covers is in its store. `Isolation.dfy` adds
turns, the turn-start barrier and the self-check, and `Release.dfy` says when
the barrier's wait ends.

**A turn.** `Turn.dfy` runs one turn against a sink whose every append may be
taken, refused, or refused and kept all the same (an outbox append that fails in
the write-through stays buffered). `Trace.dfy`, `Coalescing.dfy`,
`Compaction.dfy` and `Endings.dfy` say what the records of a turn are, and
`Handover.dfy` puts the outbox in the sink's place and says what a whole turn
leaves in it.
`DrainLoop.dfy` is the wake channel and the loop that pulls turns.

**Sessions.** `Residency.dfy` gives each critical section of the pi session and
of the thread session as a function on the session's fields, and the classes
whose methods are those sections. `Generations.dfy` interleaves the same
functions: turns, one reaper per process, eviction callbacks, process exits,
traffic; its two `Perform` methods carry a step out on a session object and
return what the section told its caller.
`Runner.dfy` does the same one level up, for the runner that swaps sessions
under its lock.

`Counterexamples.dfy` holds concrete runs that show why a hypothesis is there.

A method is proved against a function, and what that function answers is stated
once more without it: by the fields before and after in the method's contract, or
by a lemma that speaks of lists, numbers and entries alone.

## What was found

- After a quarantine the uploader's cursor, and a batch on its way, belong to
  another index space. The reply to such a batch takes records from the fresh log
  exactly if its eviction is due and succeeds and its boundary lies in that log
  (`Safety.FoldStrikes`); a read passes over records of the fresh log exactly if
  the old cursor points into it behind the first (`Safety.ReadSkips`). Either can
  lose records nobody settled (`Counterexamples.ResetUnderABatchLosesRecords`,
  `Counterexamples.StaleCursorSkipsRecords`). The run theorems hold for runs in
  which neither happens (`Protocol.AllSafe`); without a quarantine every step is
  such (`Safety.CalmStepIsSafe`).
- The barrier reads one shard. It is blocked exactly if a readable record of
  another command lies within the caps of that read
  (`Isolation.RoundSeesTheFront`), so torn records that fill the shard let it
  pass (`Isolation.TornShardsHideTheLog`, `Counterexamples.TornRecordHidesTheLog`).
- When the barrier fails on an outbox fault, the failed turn's terminal is
  appended. The outbox stays with one command exactly if it held that turn's
  records only, or, where the append quarantines the log, had only such records
  buffered (`Isolation.FaultKeepsOneCommand`,
  `Counterexamples.BarrierFaultMixesCommands`).
- A truncation that was due by a terminal and fails leaves settled records in the
  log that the byte backstop never counts
  (`Counterexamples.FailedTruncationIsNotCounted`); `Pace.WhenTheBoundFails` says
  exactly when a fold makes the accumulator wrong, and when it leaves the
  backstop's bytes or more.
- The same failure can leave the whole log behind the cursor. Then no later cycle
  changes it and the shutdown drain cannot empty it (`Progress.DrainEmpties`).
  Another command's barrier is stuck behind it if the held group's terminal lies
  within one read from the front: whatever the manager and the disk do no round
  passes, and the wait ends only with an outbox fault (`Release.StuckForever`,
  `Counterexamples.FailedTruncationBlocksTheBarrier`), whose own terminal then is
  a record in front of the cursor (`Release.FaultPutsARecordAhead`). If that
  terminal lies beyond, each round appends another one and the barrier comes free
  (`Counterexamples.HiddenTerminalFreesTheBarrier`). `Release.WaitEnds` says
  exactly when a wait ends, for every log of one command's readable records, and
  `Release.WaitEndsWithTheCursor` for a group whose terminal is last.
- A round of the barrier adds a terminal for a command exactly if the read from
  the front holds a record of it and no terminal (`Isolation.RoundListsTheHidden`).
  So one wait may add many for a group larger than a shard; one at most where the
  rounds see the whole log (`Isolation.OneTerminalPerWait`).
- A settled record is uploaded again exactly if the reply left one in front of it
  unsettled (`Pace.SettledIsSentAgain`,
  `Counterexamples.SettledRecordIsSentAgain`); the comment on the cursor says that
  acked records are not.
- The terminal's watermark can be below what a turn recorded: when an append
  failure aborts the turn after progress was counted, and when a progress record
  is refused but stays in the outbox's buffer
  (`Endings.TerminalCoversTheProgress` says exactly when;
  `Endings.KeptInTheDrain` and `Endings.KeptBeforeTheDrain` are two such turns).
- The runner's comment that a pi config and a pi session come together is half
  kept: a session always has a config, but an assignment that keeps the launch
  shape may set its config after a teardown (`Runner.ConfigComesWithSession` gives
  the exact condition, `Runner.ConfigWithoutSession` a run). And the two runtimes
  that "never coexist" can, when an assignment overtakes a turn that is being
  built (`Runner.RuntimesStayApart`, exactly; `Runner.RuntimesCanCoexist`).
- The header of `Close` says that it writes what is buffered. It does not, and
  the model follows the code.

## Model

| member | source | states |
|---|---|---|
| Text.BarKeyInjective | backend/agent/outbox/uploader.go:637-639 | The text key of a rejection determines command, kind and seq, even for command ids that contain the separator. |
| Envelope.RejectionKeyInjective | backend/agent/outbox/uploader.go:637-639 | The same over the entry's kind: two entries share a key exactly if they agree in all three. |
| Text.LessTotal | backend/agent/outbox/uploader.go:223-225 | The order in which orphans are listed is total and strict. |
| Text.LessIsLexicographic | backend/agent/outbox/uploader.go:223-225 | That order is lexicographic. |
| Outbox.Outbox.constructor | backend/agent/outbox/outbox.go:91-111 | Opening yields what is on disk, or an empty log if it is corrupt and moved aside; the buffer is empty and the log open. |
| Outbox.OpenYields | backend/agent/outbox/outbox.go:91-111 | An open yields an outbox exactly if the log opens, or is corrupt and opens at the second try or after it was to be moved aside. |
| Outbox.Outbox.Append | backend/agent/outbox/outbox.go:139-151 | A closed outbox refuses; else the entry joins the buffer, and at the flush threshold the buffer is written, with any outcome of the write. |
| Outbox.Outbox.Flush | backend/agent/outbox/outbox.go:155-162 | Writes the buffer unless closed. |
| Outbox.Outbox.FlushLocked | backend/agent/outbox/outbox.go:165-175 | The buffer is emptied exactly if its write succeeded. |
| Outbox.Outbox.WriteLocked | backend/agent/outbox/outbox.go:184-208 | Write, reopen, write again, quarantine: the log and the handle after every combination of outcomes. |
| Outbox.Outbox.AppendBatchLocked | backend/agent/outbox/outbox.go:225-240 | A batch write leaves the batch, or an error and some prefix of it. |
| Outbox.Outbox.EnsureLogLocked | backend/agent/outbox/outbox.go:257-270 | A handle is opened if there is none and the outbox is not closed. |
| Outbox.Outbox.ReadRecords | backend/agent/outbox/outbox.go:293-363 | Flush, then the records from the clamped cursor that fit both caps; an error reopens the log. |
| Outbox.Outbox.ScanLocked | backend/agent/outbox/outbox.go:319-362 | The read loop takes what the recursive scan takes. |
| Outbox.Outbox.EvictThrough | backend/agent/outbox/outbox.go:369-401 | The log loses exactly the records up to the index, clamped to the live range, or nothing. |
| Outbox.Outbox.Empty | backend/agent/outbox/outbox.go:406-423 | The answer is about log and buffer, and when there is none. |
| Outbox.Outbox.EnforceCap | backend/agent/outbox/outbox.go:430-451 | Over the cap the whole log goes; the indices go on. |
| Outbox.Outbox.Close | backend/agent/outbox/outbox.go:476-486 | Closes; the buffer stays as it is. |
| Shards.ScanTakesAPrefix | backend/agent/outbox/outbox.go:319-362 | A successful read is the gapless run of the log that starts at its cursor. |
| Shards.ScanFillsTheCap | backend/agent/outbox/outbox.go:343-362 | A read keeps to the byte cap except for a lone record, and stops early only when the next record does not fit. |
| Shards.ScanFailsOnlyAtBad | backend/agent/outbox/outbox.go:323-342 | A read fails only for an unreadable record of the log. |
| Shards.ScanFailsExactly | backend/agent/outbox/outbox.go:323-342 | It fails exactly if that record is one the read comes to: the first, or one that finds room and bytes left. |
| Shards.ScanReaches | backend/agent/outbox/outbox.go:343-362 | A successful read takes exactly the records that are within its caps, told from the log alone. |
| Shards.ShardsPartitionTheLog | backend/agent/outbox/uploader.go:280-325 | For any positive caps, repeating the read behind the last index ends and yields the log, every record once, in order. |
| Shards.ShardsRespectTheCaps | backend/agent/outbox/outbox.go:293-363 | Each of those shards is the next run, non-empty, within the record cap, and within the byte cap unless it is a lone record. |
| Groups.GroupsMeaning | backend/agent/outbox/uploader.go:189-227 | The table the scan builds: a command is in it exactly if it has a record, marked exactly if it has a terminal, with its largest progress seq. |
| Groups.InsertKeepsOrder | backend/agent/outbox/uploader.go:218-225 | Listing keeps command order and adds exactly the one. |
| Groups.CollectOrphans | backend/agent/outbox/uploader.go:218-225 | The list is exactly the groups without a terminal, in command order, whatever order the map is walked in. |
| Groups.OrphanListUnique | backend/agent/outbox/uploader.go:218-225 | That list is unique. |
| Groups.ListedOrphans | backend/agent/outbox/uploader.go:189-227 | Listed are exactly the commands with a record and no terminal, with their largest progress seq. |
| Groups.SynthesisIsComplete | backend/agent/outbox/uploader.go:260-273 | After the synthesis no command lacks a terminal; each added one is its command's only one, says exit code -1 and the given message, and has exactly its group's largest progress seq for a watermark. |
| Groups.SynthesisIsIdempotent | backend/agent/outbox/uploader.go:260-273 | A second synthesis adds no entry; that it also repeats none is in the row of the self-check. |
| Retention.WriteAddsTheBatch | backend/agent/outbox/outbox.go:184-208 | A batch write, however it fails, only adds entries of the batch; a successful one adds them all. |
| Retention.FlushKeepsEntries | backend/agent/outbox/outbox.go:165-208 | Unless the directory is moved aside, a write of the buffer neither loses nor invents an entry and the log only grows. |
| Retention.AppendKeepsEntries | backend/agent/outbox/outbox.go:139-151 | The same with the appended entry added, even where the append reports an error. |
| Retention.AppendEachKeepsEntries | backend/agent/outbox/uploader.go:265-271 | A row of appends that all succeed adds exactly its entries. |
| Retention.ReadKeepsEntries | backend/agent/outbox/outbox.go:293-317 | A read moves the buffer into the log and changes nothing else. |
| Retention.ReadIsNext | backend/agent/outbox/outbox.go:306-363 | What a read returns is the next run of the log behind its cursor. |
| Fold.TablesDecideSettlement | backend/agent/outbox/uploader.go:604-634 | The lookup in the three tables answers exactly what the reply says: poison, terminal rejected, rejected by name, or under the command's last watermark for its kind. |
| Fold.AckedIsUnderWatermark | backend/agent/outbox/uploader.go:615-634 | An entry is acked exactly if the last ack listed for its command has the watermark of its kind at or over it: progress, event, or the result flag. |
| Fold.SettledIsWhatTheReplySays | backend/agent/outbox/uploader.go:600-634 | For every record and reply: settled exactly if poison, of a command whose terminal is rejected, rejected by command, kind and seq, or under its watermark. |
| Fold.RequestIsTheReadableBatch | backend/agent/outbox/uploader.go:440-448 | The request holds the readable records of the batch, each once, in batch order. |
| Uploader.Uploader.SetReadFrom | backend/agent/outbox/uploader.go:510-516 | The cursor never moves back. |
| Uploader.Uploader.AddSettledBytes | backend/agent/outbox/uploader.go:520-525 | The accumulator grows, and tells whether the backstop is reached. |
| Uploader.Uploader.Tables | backend/agent/outbox/uploader.go:544-555 | The tables built from a reply decide settlement for every record. |
| Uploader.Uploader.SettledPrefix | backend/agent/outbox/uploader.go:557-580 | The walk stops at the first unsettled record, with the prefix's last index, bytes, and whether it holds a terminal. |
| Uploader.Uploader.DoFold | backend/agent/outbox/uploader.go:543-598 | Log, cursor and accumulator after a reply, with the eviction due or not, successful or not; the cursor goes behind the last record of the settled prefix and no further. |
| Uploader.Uploader.UploadCycle | backend/agent/outbox/uploader.go:427-474 | One cycle: at most one request with the readable records of the next shard; a failed one leaves the cursor. |
| Uploader.Uploader.BlockingFor | backend/agent/outbox/uploader.go:189-227 | Blocked exactly if the shard holds a record of another command; the orphans are those of the other commands. |
| Uploader.Uploader.AppendTerminals | backend/agent/outbox/uploader.go:162-168 | Appends one synthetic terminal per orphan, up to the first error. |
| Uploader.Uploader.BarrierRound | backend/agent/outbox/uploader.go:155-179 | One round of the barrier passes, waits or fails, and leaves in the outbox one terminal for each dead command it saw. |
| Uploader.RoundOutcome | backend/agent/outbox/uploader.go:149-179 | A round fails if its scan or an append fails and passes exactly if the scan shows no other command; a blocked one leaves what was held and, for each other command scanned without a terminal, one with exit code -1, the agent-stopped text and exactly the progress scanned. |
| Uploader.Uploader.OrphanGroups | backend/agent/outbox/uploader.go:280-325 | The sharded scan ends, for every shard size and disk, and equals one pass over the whole log. |
| Uploader.Uploader.SynthesizeInterruptedTerminals | backend/agent/outbox/uploader.go:260-273 | On success the log holds what was held and exactly one more terminal for each command that had none, all written through, and no command is open; where none was open and nothing buffered, the log stays as it was, record for record, so a second call adds nothing. |
| Uploader.Uploader.Drain | backend/agent/outbox/uploader.go:332-345 | Cycles until empty, an error, or the end of its time. |
| Safety.EvictionSafety | backend/agent/outbox/uploader.go:543-598 | In every world that safe steps reach, quarantines included, what has left the log was settled by a reply or lies in a recorded cap drop; but for a cursor that a quarantine left adrift, everything live below it is settled and it is at most one behind the end. |
| Safety.FoldRemovesOnlySettled | backend/agent/outbox/uploader.go:557-597 | A fold anywhere in such a run: the reply to a batch of the present log removes only records that some reply has settled, however many commands the log mixes; the reply to an older batch removes any record exactly if it strikes, and then removes records of the fresh log that were neither settled nor dropped. |
| Safety.FoldStrikes | backend/agent/outbox/uploader.go:582-597 | Any fold changes the log exactly if its eviction is due and succeeds and its boundary lies in the live log. |
| Safety.ReadSkips | backend/agent/outbox/outbox.go:306-318 | A read passes over live records exactly if its cursor lies in the log behind the first. |
| Safety.CalmStepIsSafe | backend/agent/outbox/outbox.go:191-205 | Under an uploader whose log was not reset every step is safe. |
| Safety.DeliveryConservation | backend/agent/outbox/uploader.go:427-474 | Given a receiver that stores what its watermarks cover, kind by kind: in every world that safe steps reach, every record ever written is in the log, in the manager's store, refused by name, torn, of a command whose terminal was refused, or in exactly one cap drop; one of a quarantined index space is among these or was live when the quarantine moved it. |
| Protocol.CycleIsARun | backend/agent/outbox/uploader.go:427-474 | One cycle of the uploader is this run of the protocol: a read, and for a batch no reply, or the reply to its readable records and then the cap. |
| Protocol.RestartFindsTheLog | backend/agent/outbox/outbox.go:91-111 | A new process finds each live record as it was or torn, no buffer, and starts its cursor at zero. |
| Pace.UploadOrder | backend/agent/outbox/uploader.go:66-70 | Unless the log was reset under the uploader, every batch starts at the least index not yet cleared, that is, in the settled prefix of some reply; it repeats no cleared record and skips none. |
| Pace.SettledIsSentAgain | backend/agent/outbox/uploader.go:66-70 | A record that a reply settles stays in front of the cursor and in the log exactly if the reply left a record before it in the batch unsettled. |
| Pace.CursorPasses | backend/agent/outbox/uploader.go:557-597 | The cursor passes a record of the batch exactly if it and all before it are settled; so never an event above the standing ack's event watermark, unless it or its command's terminal is rejected. |
| Pace.SettledPrefixBound | backend/agent/outbox/uploader.go:520-525 | In every reachable world whose log was not reset under its uploader, since the last eviction that succeeded: without a cap drop the accumulator is short of the settled bytes in the log by exactly the prefixes whose eviction was due by a terminal and failed, and those bytes are under the backstop exactly if no fold left as many; with a cap drop they are at most that. |
| Pace.WorkingEvictionsBound | backend/agent/outbox/uploader.go:520-525 | In a run whose due evictions all succeed the settled bytes in the log stay under the backstop, and are the accumulator where no cap drop intervened. |
| Pace.FoldAccumulates | backend/agent/outbox/uploader.go:582-597 | The log, cursor and accumulator after one fold, evicting or not. |
| Pace.FoldMovesBytes | backend/agent/outbox/uploader.go:582-597 | A successful eviction leaves no settled bytes in the log; any other fold adds exactly those of its settled prefix. |
| Pace.WhenTheBoundFails | backend/agent/outbox/uploader.go:582-597 | From an exact accumulator under the backstop: it is wrong after a fold exactly if an eviction due by a terminal failed and the prefix has bytes; the log keeps the backstop's bytes or more exactly if a due eviction failed and the prefix takes the accumulator there. |
| Progress.RejectedTerminalFrees | backend/agent/outbox/uploader.go:548-598 | After a reply that rejects a terminal of the batch, the terminal and all before it are gone exactly if the reply settles every batch record in front of it. |
| Progress.RejectedTerminalFreesItsGroup | backend/agent/outbox/uploader.go:548-598 | Where the records in front are of its command, the group goes, whatever the acks say. |
| Progress.DrainAdvances | backend/agent/outbox/uploader.go:332-345 | Each cycle of the drain shortens what is in front of the cursor or empties the log. |
| Progress.DrainIsStuck | backend/agent/outbox/uploader.go:332-345 | A log that lies wholly behind the cursor is never emptied by the drain. |
| Progress.DrainEmpties | backend/agent/outbox/uploader.go:332-345 | With a settling manager, a sound disk and a terminal last, the drain empties the outbox within as many cycles as records, exactly if it was empty or the cursor had a record in front. |
| Progress.SoundAppendEach | backend/agent/outbox/uploader.go:265-271 | On a sound disk a row of appends puts its entries last, in order. |
| Recovery.BurstIsWritten | backend/agent/outbox/outbox.go:184-208 | A batch write leaves a prefix of the batch, then another prefix of it, the second whole if the write succeeded. |
| Recovery.RewindsDeduplicate | backend/agent/outbox/outbox.go:184-208 | A sequence of positions that only go on or jump back is 0, 1, 2, ... once later duplicates are deleted. |
| Recovery.MoveKeepsFaith | backend/agent/outbox/outbox.go:139-208 | Every append, write, eviction and crash keeps the history faithful. |
| Recovery.MovesAreTheOutbox | backend/agent/outbox/outbox.go:139-162 | The history is that of the outbox's own append and flush. |
| Recovery.RestIsTheOutbox | backend/agent/outbox/outbox.go:369-401 | So are its evictions, and its crash is what opening finds again. |
| Recovery.WritesRecover | backend/agent/outbox/outbox.go:139-208 | After any sequence of faults every accepted record is in what was written or still buffered, unless a quarantine removed the log; what was written is append order once later duplicates are deleted; the log is the end of it. |
| Isolation.ScanDecidesTheLog | backend/agent/outbox/uploader.go:189-227 | Without torn records the barrier's one shard decides the whole log. |
| Isolation.RoundSeesTheFront | backend/agent/outbox/uploader.go:189-227 | For any log, torn and mixed: the barrier is blocked exactly if a readable record of another command lies within the caps of one read from the front. |
| Isolation.TornShardsHideTheLog | backend/agent/outbox/uploader.go:203-226 | Where one other command's records are held, the barrier is blocked exactly if the torn records in front of the first readable one leave room for it in the shard. |
| Isolation.FaultKeepsOneCommand | backend/agent/client/command_outbox.go:149-162 | The terminal of a turn that failed at the barrier leaves one command exactly if only that turn's records were held; if its write quarantines the log, exactly if only such were buffered. |
| Isolation.StepKeepsIsolation | backend/agent/outbox/uploader.go:132-227 | Barrier rounds, records, flushes, reads, drops, crashes, self-checks and harmless barrier faults keep log and buffer to one command. |
| Isolation.TurnIsolation | backend/agent/outbox/uploader.go:132-227 | So in every state of a run all records held are of one command, the running turn's if there is one. |
| Isolation.RoundEndsTheListed | backend/agent/outbox/uploader.go:155-168 | A barrier round that saw the whole log leaves the terminal of each command it lists behind all its records. |
| Isolation.EndedSurvivesReplay | backend/agent/outbox/outbox.go:184-208 | A failed write that leaves a prefix twice does not change that. |
| Isolation.OneTerminalPerWait | backend/agent/outbox/uploader.go:149-179 | Over any wait whose rounds see the whole log, from any outbox, each command is listed by at most one round, through every write fault, crash leftover, upload and eviction. |
| Isolation.RoundListsTheHidden | backend/agent/outbox/uploader.go:181-227 | For any log: a round lists a command exactly if the read from the front holds a record of it and no terminal. |
| Isolation.BarrierIsARound | backend/agent/outbox/uploader.go:155-168 | The barrier step of a run is the uploader's round. |
| Isolation.BesideIsTheOutbox | backend/agent/outbox/outbox.go:369-451 | A drop is an eviction or a cap drop of the outbox, and a crash is what opening finds again. |
| Isolation.SelfCheckTerminates | backend/agent/outbox/uploader.go:260-273 | A self-check step whose appends succeed adds exactly one synthetic terminal for each command without one. |
| Isolation.FaultLeavesItsTerminal | backend/agent/client/command_outbox.go:149-162 | A fault step leaves that turn's terminal (exit code -1, no progress, its message) and nothing else. |
| Isolation.FlushWritesThrough | backend/agent/outbox/outbox.go:155-175 | A flush step that succeeds leaves nothing buffered and loses nothing. |
| Isolation.TurnsCanRun | backend/agent/outbox/uploader.go:149-179 | Over an outbox with nothing of another command a turn passes the barrier, records and ends. |
| Release.EndedGroupIsIdle | backend/agent/outbox/uploader.go:155-168 | A round that sees the whole log adds nothing to a group whose terminal is last. |
| Release.StuckForever | backend/agent/outbox/uploader.go:149-179 | With the whole log behind the cursor and a terminal of the held command within one read from the front, no round passes and nothing moves, for any manager, disk and length of wait; a failing read ends the wait with its error, else it goes on. |
| Release.FaultPutsARecordAhead | backend/agent/client/command_outbox.go:149-162 | The terminal of the turn that failed at the barrier, unless its write quarantines the log, is last and in front of the cursor; it says exit code -1, no progress, and why. |
| Release.WaitEnds | backend/agent/outbox/uploader.go:149-179 | Readable records of one command held, a settling manager, a sound disk, rounds that append their terminals and cycles in turn: another command's barrier passes, after at most three cycles per record, exactly if no terminal lies within one read from the front, or one lies in front of the cursor, or the bytes there reach the backstop; else it waits forever. While records lie in front of the cursor this takes a log under its cap and a manager that rejects terminals only when sent one. |
| Release.WaitEndsWithTheCursor | backend/agent/outbox/uploader.go:149-179 | For a group whose terminal is last: exactly if the cursor has a record in front of it or no terminal lies within one read from the front, whatever cap drops and rejections there are. |
| Counterexamples.ResetUnderABatchLosesRecords | backend/agent/outbox/outbox.go:191-205 | A quarantine under a batch: the fold of its reply strikes, and evicts a record that was never settled. |
| Counterexamples.StaleCursorSkipsRecords | backend/agent/outbox/outbox.go:306-318 | A quarantine under no batch: the old cursor skips a record, and the next reply evicts it unsettled. |
| Counterexamples.FailedTruncationIsNotCounted | backend/agent/outbox/uploader.go:582-597 | After a failed truncation the settled bytes in the log exceed the accumulator. |
| Counterexamples.FailedTruncationBlocksTheBarrier | backend/agent/outbox/uploader.go:588-597 | After one failed truncation no round of another command's barrier passes and the log stays; the wait can end only with an outbox fault. |
| Counterexamples.HiddenTerminalFreesTheBarrier | backend/agent/outbox/uploader.go:181-188 | The same with the terminal beyond the first shard: the rounds add terminals and the barrier passes. |
| Counterexamples.SettledRecordIsSentAgain | backend/agent/outbox/uploader.go:66-70 | A reply that settles the second record and not the first: the next read returns both. |
| Counterexamples.TornRecordHidesTheLog | backend/agent/outbox/uploader.go:189-227 | A torn record as large as a shard lets a turn start over another command's record. |
| Counterexamples.BarrierFaultMixesCommands | backend/agent/client/command_outbox.go:149-162 | The terminal of a turn that failed at the barrier joins another command's records. |
| Turn.Turn.Append | backend/agent/client/command_outbox.go:36-55 | One append to the sink and its three outcomes. |
| Turn.Turn.NextEventSeq | backend/agent/client/command_stream.go:285-288 | The event counter, wrapping as an int32. |
| Turn.Turn.AppendText | backend/agent/client/drain_runner.go:45-55 | A run that is of another stream or at the cap is reported and the text not taken; else it is taken once. |
| Turn.Turn.Flush | backend/agent/client/drain_runner.go:57-79 | The pending run becomes one event with the next seq, or nothing if it is empty. |
| Turn.Turn.OnChunk | backend/agent/client/drain_runner.go:487-507 | Progress record, watermark, merge; a failed flush aborts the turn but not the drain. |
| Turn.Turn.OnEventObserved | backend/agent/client/context_observer.go:93-163 | The context state machine, with the inferred compaction. |
| Turn.Turn.OnEvent | backend/agent/client/drain_runner.go:470-485 | Event record with the next seq, then the observer. |
| Turn.Turn.DrainOutput | backend/agent/client/drain_runner.go:519-570 | What is still buffered is recorded up to the first failure, and the run is flushed. |
| Turn.Turn.DeliverTerminal | backend/agent/client/command_outbox.go:117-130 | Through the sink, and if that refuses, past it. |
| Turn.Turn.RunCommand | backend/agent/client/drain_runner.go:349-509 | A whole turn with its deferred call, for every order of inputs, sink and ending. |
| Trace.TurnLeavesATrace | backend/agent/client/drain_runner.go:349-570 | Uninterrupted on a healthy sink: the lifecycle event first, event seqs 1..n in log order (as an int32 counts), one terminal, last, with the runtime's exit code, its message (or the reason of a cancel, if it failed), and the largest progress seq recorded for a watermark; nothing of another command, nothing bypassed. |
| Trace.WrapStep | backend/agent/client/command_stream.go:285-288 | The k-th seq is the int32 that differs from k by a multiple of 2^32; k itself until the int32s end. |
| Coalescing.RunsAreGreedy | backend/agent/client/drain_runner.go:45-55 | The runs hold every chunk once, in order; each has one stream and is under the cap before its last chunk; no two neighbours could have been one. |
| Coalescing.DeltasAreTheRuns | backend/agent/client/drain_runner.go:420-430 | Every chunk and event received is recorded in order, and the deltas are the runs of the chunks before and of those after the runtime was done. |
| Coalescing.TextIsKept | backend/agent/client/drain_runner.go:45-79 | Flattened to (stream, character), the deltas equal the progress records: nothing lost or doubled at a flush. |
| Compaction.InferencesAreJustified | backend/agent/client/context_observer.go:104-179 | Every inferred compaction stands right behind a usage more than 30% under the previous one, with no compaction under way; and if the agent sent no message, or none shortly before a usage, every such usage is followed by one. |
| Compaction.InfersExactly | backend/agent/client/context_observer.go:104-145 | A usage leads to an inferred compaction exactly if none is under way, it is more than 30% under the previous one, and no message chunk came within the quiet window. |
| Compaction.JustifiedInfers | backend/agent/client/context_observer.go:114-116 | A usage and its inferred finish keep the log justified. |
| Endings.AppendIsAFate | backend/agent/outbox/outbox.go:139-151 | An outbox append is one of the sink's three outcomes: held, refused but last in the buffer, or refused without a trace. |
| Endings.TerminalsComeLast | backend/agent/client/drain_runner.go:372-394 | On any sink: no terminal if interrupted, else copies of one terminal, at most two, behind all other records, and at most one bypass; it goes missing only if the context ended or both ways refused; an ended context means none after an append failure, and no second try after a refusal. |
| Endings.TerminalSays | backend/agent/client/drain_runner.go:372-450 | On any sink: the terminal has the runtime's exit code and message, or the reason of a cancel if it failed, and the progress counted; after an append failure -1, 0 and the write-failure message. |
| Endings.TerminalCoversTheProgress | backend/agent/client/drain_runner.go:383-390 | On any sink: the terminal covers the progress recorded exactly if no append failed before the runtime was done or none was counted till then, and no progress record with a seq above the watermark was refused and kept, before or during the drain. |
| Endings.KeptInTheDrain | backend/agent/client/drain_runner.go:533-546 | A record refused and kept in the drain: the terminal says 0, seq 5 is held. |
| Endings.KeptBeforeTheDrain | backend/agent/client/drain_runner.go:383-390 | A record refused and kept before it: the same. |
| Handover.TurnIsInTheOutbox | backend/agent/client/command_outbox.go:36-55 | A turn whose sink is an open outbox, with any write faults and with the uploader's writes and evictions beside it: it records exactly what it submits, and the outbox holds what was buffered and the turn's records in order (written, possibly more than once, or still buffered), from some point on if a write quarantined the log, else all of them. |
| Handover.TurnIsAppended | backend/agent/client/drain_runner.go:349-570 | Not interrupted, on an open outbox whose writes succeed: the outbox holds what it held and then a whole trace. |
| DrainLoop.NoLostWake | backend/agent/client/drain_runner.go:86-143 | After a wake, until the next BeginSession call, the loop is never blocked and makes at most two steps of its own, through any replies, errors and wakes. |
| DrainLoop.RemembersTillTheCall | backend/agent/client/command_stream.go:171-176 | Why: the wake pends or the loop is on its way. |
| DrainLoop.OneWakeUpEach | backend/agent/client/command_stream.go:171-176 | The loop wakes up at most once for each signal. |
| DrainLoop.IdleTillSignalled | backend/agent/client/drain_runner.go:86-100 | After an idle reply with no wake pending it makes no step until it is signalled. |
| DrainLoop.SessionsKeepTheirDistance | backend/agent/client/drain_runner.go:108-116 | No two sessions start less than the gap apart. |
| DrainLoop.Drainer.Signal | backend/agent/client/command_stream.go:171-176 | A wake sets the one-place channel; a second is coalesced. |
| DrainLoop.Drainer.BeginSession | backend/agent/client/drain_runner.go:118-140 | The call and its four outcomes. |
| DrainLoop.Drainer.DrainLoop | backend/agent/client/drain_runner.go:86-143 | The nested loop, run on any script of its world, makes exactly the machine's run. |
| Residency.PiSession.EnsureStarted | backend/agent/pi/session.go:612-630 | One locked pass of ensureStarted. |
| Residency.PiSession.Start | backend/agent/pi/session.go:142-202 | Finds a process up, fails without a trace, or spawns the next generation with its own waitDone. |
| Residency.PiSession.ArmIdleTimer | backend/agent/pi/session.go:530-543 | Armed only if eviction is on and the process is up. |
| Residency.PiSession.EvictIdle | backend/agent/pi/session.go:562-574 | The go or no-go of a callback. |
| Residency.PiSession.Reset | backend/agent/pi/session.go:318-331 | The reaper clears the start state and captures waitDone. |
| Residency.PiSession.RouteResponse | backend/agent/pi/session.go:361-374 | A response takes its channel out before it is sent. |
| Residency.ThreadSession.EnsureStarted | backend/agent/executor/thread_session.go:124-146 | The same for the thread session. |
| Residency.ThreadSession.Start | backend/agent/executor/thread_session.go:158-177 | The same. |
| Residency.ThreadSession.Halt | backend/agent/executor/thread_session.go:253-316 | The locked section of Kill, killProcess and Stop. |
| Residency.ThreadSession.EvictIdle | backend/agent/executor/thread_session.go:360-372 | The same as the pi session's. |
| Residency.ThreadSession.Reset | backend/agent/executor/thread_session.go:321-337 | Also clears waitDone, and closes only what was started. |
| Generations.EvictionNeverRacesATurn | backend/agent/pi/session.go:530-634 | In every interleaving, stale callbacks included, an eviction commits only while no turn holds the process, no turn ever holds a process an eviction committed to kill, and one eviction at most is under way. |
| Generations.OffMeansNever | backend/agent/pi/session.go:530-543 | With idle eviction off no timer is armed and no process doomed, in any reachable state, for both flavours. |
| Generations.IdleSessionIsEvicted | backend/agent/executor/thread_session.go:340-372 | With it on, a turn that ends while the process is up arms the timer, and its callback, if it comes next, commits to kill that process. |
| Generations.TurnGoesThrough | backend/agent/pi/session.go:612-634 | In any reachable state between turns, with no eviction under way and not stopped, a turn that nothing comes in the way of runs to its end, on the process that is up or on a new one, and the timer is armed behind it exactly if eviction is on. |
| Generations.WedgedStartupIsReaped | backend/agent/pi/session.go:612-634 | A turn whose process does not come up gives up only once that very process is reaped. |
| Generations.NoSpawnAfterStop | backend/agent/pi/session.go:142-202 | Once the session's context is cancelled no process is spawned. |
| Generations.GenerationsDoNotCross | backend/agent/pi/session.go:285-331 | Each waitDone is closed once, by its own reaper; a turn's channel is closed at most once and not sent on afterwards; a response channel gets at most one response and none after it is closed. |
| Generations.TurnHasItsChannel | backend/agent/pi/session.go:486-510 | Events go to the turn's own channel from its opening until the turn or a reaper takes it. |
| Generations.ResponseFindsItsChannel | backend/agent/pi/session.go:361-374 | The response to a registered id goes to the channel it was registered with, and to nobody afterwards, unless it is forgotten or the process reaped. |
| Generations.ReaperUnblocksTheTurn | backend/agent/pi/session.go:285-331 | Once the process has died its reaper closes the channel of the turn that waited on it and every response channel waited on. |
| Generations.NoWaitIsForever | backend/agent/pi/session.go:613-622 | A turn or an eviction that waits for a reap can go on after at most six steps of the process and its reaper. |
| Generations.RunKeepsInv | backend/agent/executor/thread_session.go:124-398 | All of it for the thread session too, whose reap clears waitDone. |
| Generations.PerformPi | backend/agent/pi/session.go:142-634 | Each step of the interleaving is one section of the session object, and what the section returns is what the step makes of the turn, the reapers, the evictions and the channels. |
| Generations.PerformThread | backend/agent/executor/thread_session.go:124-398 | The same for the thread session. |
| Runner.NoOrphanedSession | backend/agent/client/runner.go:244-284 | Over any interleaving every session ever made is in one place: held, in an operation's hands, or stopped. |
| Runner.SessionHasConfig | backend/agent/client/runner.go:457-476 | A pi session always comes with a pi config. |
| Runner.ConfigComesWithSession | backend/agent/client/runner.go:157-168 | Config and session come together in every state of a run exactly if no assignment sets the config it compared with after a teardown took it. |
| Runner.ConfigWithoutSession | backend/agent/client/runner.go:461-464 | A run that an assignment and a teardown can make ends with a config and no session. |
| Runner.SessionFitsConfig | backend/agent/client/runner.go:145-168 | The pi session is of its config's launch shape in every state of a run exactly if no kept config comes after another shape's session. |
| Runner.KeptConfigFits | backend/agent/client/runner.go:157-168 | An assignment keeps the session exactly if it finds a config of the same launch shape; then, if no swap, teardown or other assignment comes in between, the config it sets fits. |
| Runner.AcpConfigIsTheLast | backend/agent/client/runner.go:170-200 | The ACP config is the one last set. |
| Runner.RuntimesStayApart | backend/agent/client/runner.go:129-200 | The two runtimes stay apart in every state of a run exactly if each step's view is up to date when it takes the lock; apart they do not coexist. |
| Runner.RuntimesCanCoexist | backend/agent/client/runner.go:465-489 | A turn built on an outdated view makes them coexist. |
| Runner.AgentRunner.RestartPiSession | backend/agent/client/runner.go:244-255 | The new session is held, the old one stopped. |
| Runner.AgentRunner.StopPiSession | backend/agent/client/runner.go:261-270 | Config and session go together, the session is stopped. |
| Runner.AgentRunner.StopThreadSession | backend/agent/client/runner.go:276-284 | The thread session goes and is stopped. |
| Runner.AgentRunner.ApplyAssignment | backend/agent/client/runner.go:145-200 | Alone, an assignment leaves the right session, the same one exactly if the launch shape is the same, and not the other runtime's. |
| Runner.AgentRunner.ColdRestart | backend/agent/client/runner.go:418-444 | The same config on a fresh session; what was held is stopped. |
| Runner.AgentRunner.BuildRuntime | backend/agent/client/runner.go:451-499 | The turn gets the session of the current config, made now if there is none of its shape. |
| Runner.AgentRunner.BuildThreadRuntime | backend/agent/client/runner.go:541-563 | The session is of the shape asked for; it is the held one exactly if that has the shape, else a new one, and the old one is stopped. |
| Runner.AgentRunner.Stop | backend/agent/client/runner.go:627-643 | Teardown leaves nothing held and everything ever made stopped. |

## Left out

- The WAL library, fsync, file names and protobuf: the log is a sequence of readable and torn records with an arbitrary size per entry. Marshal failure is not modelled.
- The WAL's own errors for an index out of range, and a truncation that removes part of what it was asked to: under the outbox's lock the range just read is right.
- The manager: an arbitrary reply, with the receiver's contract where delivery is claimed.
- Pace.UploadOrder: says nothing of an uploader after its log was quarantined, because its cursor then belongs to another log.
- Pace.SettledPrefixBound: the same, because its byte count does.
- `WaitClearFor` as one blocking call: its rounds are steps of `Isolation`, with the uploader's and the log's steps in between, and in `Release` a round and a cycle take turns. The end of its context is left out. The agent does not call `WaitDrained`.
- Release.WaitEnds: speaks of logs of one command's readable records; torn records in front can hide a log from the barrier (`Isolation.TornShardsHideTheLog`), and `Isolation.TurnIsolation` is why there is one command.
- Handover.TurnIsInTheOutbox: an outbox that is closed refuses every record, so there is nothing to say of one.
- Backoff, `FlushNow`, the batch window, gauges and other metrics: a cycle may happen at any time.
- Uploader.Uploader.SynthesizeInterruptedTerminals: says nothing about the outbox after an error, because its callers drop the result then; `Isolation.TurnIsolation` covers that state.
- Safety.DeliveryConservation: of an index space that a quarantine closed, a record live at that moment counts as lost to it, because the directory moved aside is never read again.
- Float rounding in the 30% test: the ratio is taken over the reals.
- The clock: whether a message chunk is recent is an input, and an idle timer may fire at any time.
- Timestamps, summaries, durations and payloads of events the turn loop does not look at.
- Persisted local and context state of a turn, prompts, notices and the re-anchor decision in `runSession`.
- The attribution of a cancel: the reason is an argument of the ending.
- The busy loop on a closed output or event channel before the runtime is done: such a receive changes nothing.
- The end of the drain loop's context: a run may stop anywhere.
- Whether a warm session has been sent its init prompt: the source does not keep that.
- The content of the handshake, and a send that waits for room in the turn's channel: it holds the lock that every other section on that channel needs, so it is one step.
- Overlapping turns on one session: the drain loop runs them one after the other, and `Generations` takes that as given.
- The race between a cold restart and a stop of the same runner beyond the sessions' accounts: the session it leaves held never gets a process.
- Spawning, signals, pipes and JSON: a process is a generation number that exits at some point.
- Per-turn runtimes without a resident session, the MCP servers, the daemon, the HTTP clients and the CLI.
