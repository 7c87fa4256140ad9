# sukkal: a verified model of the broker's core

sukkal is a durable message broker.  Its portable core is a set of state
machines over entry logs and ordered maps.  This project models them in Dafny
and proves what the broker's documentation promises about them, or, where the
code does something else, exactly when the promise holds.

Each part of the code that works by changing fields, arrays or counters step by
step is written that way here (classes, arrays, loops) and proved equal to a
function on values; the theorems are about those functions, over every run.

| file | what it models |
|---|---|
| `Queue`, `QueueRefinement`, `QueueGroups`, `QueueTheorems`, `QueueTakes`, `Backoff` | queue groups: the lease table, attempts, dead-lettering, backpressure, retry delays, and what each call gives and leaves |
| `QueueRecord`, `Visiting` | how a group's record is stored and read back through the event-driven decoder |
| `DeadLetters`, `DeadLetterRuns` | the envelope a job leaves when it dies, requeueing it, and the channel over whole runs of takes |
| `Dedup`, `Publishing`, `Pipeline` | the two-generation dedup index, the publish handler, and a pipeline stage of publish-then-ack steps |
| `Trimming`, `Retention` | what a trim may remove, the boundary each retention limit proposes, the ring of age marks |
| `PushModel`, `PushEngine`, `PushOutcomes` | the push delivery engine: its operations on values, its class, and what each answer, delivery and registration does |
| `PushReceipts`, `PushFairness` | receipts and the in-flight counter over runs; round-robin fairness |
| `PushQuiet`, `PushTurn`, `PushPass`, `PushStops`, `PushStill`, `PushWakeups`, `PushSends` | waking up: what is left to deliver, a turn and a pass that start nothing, when a pass stops, every run, and sends that do not start |
| `Settlement`, `Decimal` | the worker's answer, the `X-Sukkal-Done` list, and what it does to the leases |
| `Names` | names, patterns, matching, composed keys and range scans |
| `Binjson`, `BinjsonCodec`, `BinjsonLayout` | the binjson format, the back-patching encoder and the looping decoder, and the format byte for byte |
| `Receipts` | the receipt map `bjm_cursor_set` writes |
| `Options`, `Words` | an optional value; word sizes, powers of two |

## How the main results are stated

**Queue groups.**  The table stores no finished job: "done" is absence.  The
independent account is `Queue.Fate`, a small automaton that replays one job's
history on its own and breaks on any illegal step.  Every run of take, done,
fail and configure refines it, and conservation, lease exclusion and the attempt
bound are read off the history.

**Effectively once.**  A stage is the broker, its workers, and a history of what
was appended.  It may start from any receipt.  Runs interleave deliveries, drops,
publishes with lost replies, settlements, crashes, trims of the input, jumps to
its base and any other client's traffic.

**Push.**  An engine state is its subscriptions, its subject list, the `work`
flag, the in-flight counter and the store.  A run is any sequence of publishes,
registrations, removals, seeds, pumps, completions, trims, queue operations and
manual acknowledgements; what each guarantee needs of the run is a named
predicate (`PushReceipts.Allowed`, `PushReceipts.NoManualAcks`,
`PushWakeups.Regular`, `PushFairness.Contested`).

**binjson.**  The format is one recursive function, `Binjson.Encoding`; the
reader `Binjson.RawAt` is proved its inverse in both directions, and the
encoder and decoder of the Python client are methods proved equal to them.

## Where the code and its documentation differ

The model follows the code.  Each of these is proved, with the exact condition
under which the documented statement holds.

- **Dedup window.**  `include/sukkal.h:523-524` says an id is remembered for at
  most twice the window.  The older generation is cleared lazily, at the next
  lookup, so an id can live almost three windows (`Dedup.OutlivesTwoWindows`);
  `Dedup.DocumentedBound` says after which lookups the bound of two holds and
  `Dedup.ForgottenByThreeWindows` gives the bound that always does.
- **Byte retention.**  `src/store.c:2315-2320` says the estimate errs towards
  removing too few.  It does so for every limit if and only if no run of oldest
  messages is larger than average (`Retention.NeverOvershootsExactly`);
  `Retention.OvershootExample` is a log where it drops two and one was enough.
- **Age retention.**  `src/store.c:48-50` says a trim keeps at most one interval's
  worth longer than asked.  Measured in publish times that holds between restarts
  (`Retention.KeepsAtMostAnInterval`).  Measured in time it does not: marks are
  written by publishes only, so a quiet subject keeps messages past the limit for
  good (`Retention.QuietSubjectKeeps`); an over-age message goes if and only if a
  publish from it on left a mark that is itself over age
  (`Retention.AgeDropsExactly`).
- **The ring of marks.**  `src/store.c:50-52` says it covers two full windows.  A
  full ring is sure to cover 255 intervals (`Retention.FullRingReachesExactly`),
  which is two windows for limits up to 127 seconds and none longer
  (`Retention.TwoWindowsExactly`).
- **Lease holders.**  `include/sukkal.h:600-601` says an expired and retaken job is
  not found.  Leases carry no holder: done finds a job if and only if somebody
  holds it (`QueueTheorems.DoneFindsExactly`), so a late worker finishes the job
  under its second holder (`QueueTheorems.StaleHolderFinishes`).
- **Waking up.**  A pass turns `work` off with a letter waiting when it
  dead-letters a job into a channel whose subscribers it has already asked
  (`PushWakeups.DeadLetterLosesWakeup`), and with jobs waiting when a zero lease
  gives away jobs a trim has removed (`PushWakeups.ZeroLeaseLosesWakeup`).
  `PushPass.StopLosesExactly` says, from the state before the pass, that it
  happens in these two families and nowhere else; `PushStill.StopsExactly` says,
  from the same state, when a pass stops at all.
- **A send that does not start** sets no backoff and nothing retries it, so
  messages stay unread and jobs stay leased to nobody, past the lease's expiry,
  until something from outside starts the engine again;
  `PushSends.FailedSendsLoseWakeups` says exactly when that happens, and
  `PushSends.FailedSendExample` is such an engine.
- **`next_due`.**  The branch of the pump that waits for it (`src/push.c:807-810`)
  is never taken: whatever sets it keeps `work` on (`PushEngine.Pusher.Pump`).
- **Removing a subscription** does not skip entries already deleted
  (`PushReceipts.RemoveIsCompleteExactly`, `PushReceipts.RemoveAddRemove`).
- **Pipeline keys.**  Names may contain dots, so two differently named stages
  can derive the same key (`Pipeline.PipeKeySharedAcrossStages`).  Past 128 bytes
  the two clients part ways.  The JavaScript client sends the key whole, and the
  broker reads an id that does not fit as none, so that every retry appends again
  (`Pipeline.LongKeyRepeats`; `Pipeline.RetryCollapsesExactly` has the exact
  condition).  The C client cuts it, so that inputs share keys and outputs are
  lost (`Pipeline.CutKeyLosesOutput`; `Pipeline.TruncatedKeysExact`).
- **Patterns.**  The C validator also accepts one trailing dot
  (`Names.ValidatorsAgree`).
- **Retry delay.**  From a base of 2^34 on, the 64-bit shift can wrap without
  being noticed (`Backoff.BackoffUndetectedWrap`; `Backoff.BackoffExact` says
  when the delay is still the documented one).
- **Large integers in binjson.**  The Python encoder writes an integer past
  2^53 - 1 as FLOAT, so a value comes back unchanged if and only if it holds no
  such integer (`BinjsonCodec.SentUnchangedExactly`).
- **Stored integers** come back through a double: a queue record is unchanged by
  a store and a load if and only if each of its numbers is one a double holds
  (`QueueRecord.RecordSurvivesExactly`).

## Model

| member | source | states |
|---|---|---|
| QueueTheorems.RunRefines | src/store.c:1591-1673 | over every run of take, done, fail and configure the lease table is exactly what replaying each job's history on its own gives, and no job makes an illegal step |
| QueueTheorems.FateMeaning | src/store.c:1628-1673 | the per-job replay means what the plain history says: finished, dead, given away, number of hand-outs, last recorded expiry |
| QueueTheorems.Conservation | src/store.c:1578-1673 | in-flight indexes are distinct, below `next` and at most 256; every index from the start to `next` is exactly one of in flight, finished, dead or given away without a lease; `dead_total` counts the deaths and `dead` is the last 64 of them in order |
| QueueTheorems.LeaseExclusion | src/store.c:1628-1673 | a job is never handed out before the expiry last recorded for it by take or fail, nor after it finished, died or was given away |
| QueueTheorems.StoredAttempts | src/store.c:1650-1666 | the attempts stored with a lease are the number of times the job was handed out, its expiry the last one recorded |
| QueueTheorems.AttemptBound | src/store.c:1634-1649 | while the configured limit stays between 1 and m no job is handed out more than m times |
| QueueTheorems.ScanOnce | src/store.c:1628-1654 | the redelivery loop, with entries swapped in under it by removals, touches each entry at most once and under a positive lease leaves nothing expired unless it filled up |
| QueueTheorems.TakeOnce | src/store.c:1628-1673 | one take never touches a job twice and hands out fresh jobs under a positive lease only when no expired entry remains |
| QueueTheorems.TakeFinds | src/store.c:1628-1673 | a take finds nothing exactly when nothing is expired and the log is exhausted or the table full; then it changes only the lease setting |
| QueueTheorems.NextDueIsExact | src/store.c:2057-2077 | after a take that found nothing, a later take on the same log finds something if and only if the reported due time has come, or it asks for no lease and the full table was what held it back |
| QueueTakes.TakeGives | src/store.c:1610-1673 | a take hands out at most the number asked for, brought into 1 to 256: expired jobs with an attempt left, each with one attempt more, then jobs never handed out, in order; fewer only when no expired job is left over and the log is exhausted or 256 leases are out; what it buries has expired with no attempt left; every hand-out lasts for the lease asked for or the configured one |
| QueueTakes.TakeLeaves | src/store.c:1610-1673 | the table after a take holds each job handed out under a lease, until that lease from now, and every other lease as it was but for the buried ones |
| QueueTakes.RunTidy | src/store.c:1578-1673 | every run leaves the table as those two ask for it: distinct indexes below `next`, at most 256 |
| QueueTakes.FailDelays | src/store.c:1864-1904 | a failed job expires after the delay given, or else after the base doubled per attempt up to the ceiling, its attempts unchanged |
| QueueTakes.DoneRemoves | src/store.c:1864-1897 | a finished job leaves the table and no other does; a job not in the table can be neither finished nor failed |
| QueueTakes.ConfigTakesEffect | src/store.c:1906-1924 | what is configured governs the next calls: lease, attempts, first delay and longest delay, each in its place |
| QueueTheorems.DoneFindsExactly | src/store.c:1864-1892 | done reports a job found exactly when its lease is in the table, whoever took it |
| QueueTheorems.StaleHolderFinishes | include/sukkal.h:600-605 | take, expire, take again, done: the first worker's done ends the second one's lease |
| Queue.NextDue | src/store.c:2057-2077 | the due time is the expiry of some entry and no entry's is earlier; none exactly when the table is empty |
| Queue.Owed | src/store.c:2079-2121 | no in-flight entry and no job not yet handed out lies below it |
| QueueGroups.QueueGroup.constructor | src/store.c:1500-1538 | a group never stored starts at the oldest surviving message with the default settings |
| QueueGroups.QueueGroup.Load | src/store.c:1500-1530 | the object of a group rebuilt from its record holds exactly that record |
| QueueGroups.QueueGroup.RemoveLease | src/store.c:1578-1583 | swap-removal in the fixed table equals removal on the sequence |
| QueueGroups.QueueGroup.RecordDeath | src/store.c:1635-1642 | the shifting list of deaths keeps the newest 64 in order and counts them all |
| QueueGroups.QueueGroup.TakeJobs | src/store.c:1591-1673 | the in-place take has exactly the outcome `Queue.Take` specifies: table, hand-outs, deaths |
| QueueGroups.QueueGroup.DoneJob | src/store.c:1864-1897 | finishing removes the entry of that index if there is one and says whether there was |
| QueueGroups.QueueGroup.FailJob | src/store.c:1864-1904 | failing re-times the entry by the group's backoff or the given delay and keeps its attempts |
| QueueGroups.QueueGroup.Configure | src/store.c:1906-1924 | configuring replaces the four settings and nothing else |
| QueueGroups.QueueGroup.EarliestDue | src/store.c:2057-2077 | the scan over the table returns the earliest expiry |
| QueueGroups.QueueGroup.TrimFloor | src/store.c:2079-2121 | the scan over the table returns the lowest index still owed |
| Backoff.BackoffCeiling | src/store.c:1854-1862 | with a non-zero ceiling the delay never exceeds it, even when the 64-bit shift wraps |
| Backoff.BackoffExact | src/store.c:1854-1862 | exactly when the delay is the documented min(base * 2^min(attempts-1,30), ceiling) |
| Backoff.BackoffClosedForm | src/store.c:1854-1862 | for a base below 2^34 and at most 2^32 attempts the delay is the documented one |
| Backoff.BackoffMonotone | src/store.c:1854-1862 | more attempts never mean a shorter delay |
| Backoff.BackoffUndetectedWrap | src/store.c:1854-1862 | a base just past 2^34 whose shift wraps unnoticed, giving far less than documented |
| QueueRecord.RecordSurvivesExactly | src/store.c:1463-1576 | storing and loading a record gives it back if and only if every number in it survives a double; in general each comes back rounded |
| QueueRecord.LoadsAs | src/store.c:1463-1492 | the events of a stored record, dispatched on the key last seen and the array being read, put every number where it belongs |
| QueueRecord.RecordSays | src/store.c:1538-1576 | what a stored record says, key by key |
| QueueRecord.Loader.Int | src/store.c:1472-1492 | one integer event: into the table or the list while there is room, else into the field of the last key |
| QueueRecord.Loader.Feed | src/store.c:1519-1530 | all events of a record, then the table cut to whole triples |
| QueueRecord.LoadRecord | src/store.c:1500-1530 | loading bytes is decoding them and feeding the events; undecodable bytes are an error |
| Visiting.DoubleKeepsExactly | src/store.c:1472-1491 | an integer survives a double exactly when it is a multiple of the spacing of doubles there; all below 2^53 do |
| Visiting.DoubleIsNearest | src/store.c:1472-1491 | an integer comes back as the nearest one a double can be at that size, the even one of two as near |
| Visiting.ScaleKeepsBits | src/store.c:1472-1491 | the spacing of doubles: one below 2^53, and beyond it what leaves 53 bits |
| Visiting.FirstLost | src/store.c:419-422 | 2^53 + 1 comes back as 2^53 |
| DeadLetters.PublishDead | src/store.c:1720-1764 | the loop after a take publishes what `BuryAll` says |
| DeadLetters.OneLetterEach | src/store.c:1720-1764 | burying appends to the dead-letter channel exactly the envelopes of the jobs that died and are still in the log, in order, and touches no other log |
| DeadLetters.LetterTells | src/store.c:1736-1763 | read back, the envelope of each buried job names its subject, group, index, attempts, time of death, type and bytes under those keys |
| DeadLetters.LettersCounted | src/store.c:1727-1734 | there are as many envelopes as dead jobs still in the log |
| DeadLetters.WritableFits | src/store.c:1736-1763 | an envelope's exact size, and that within the 32-bit bound the format can hold it |
| DeadLetters.EnvelopeReads | src/store.c:1781-1809 | the callbacks pull subject, entry type and bytes back out of an envelope unchanged |
| DeadLetters.RequeueRestores | src/store.c:1811-1846 | wherever its envelope sits, requeueing appends the identical bytes and type to the original subject at a new index and changes nothing else |
| DeadLetters.DeadLetterRoundTrip | src/store.c:1720-1846 | each buried job has an envelope, new in the channel, whose requeue puts the same entry behind everything its subject holds |
| DeadLetterRuns.DieOnce | src/store.c:1635-1649 | in a legal history no job dies twice |
| DeadLetterRuns.OneEnvelopePerDeath | src/store.c:1635-1764 | over every run of all the groups of a subject, with anything else written to the channel and anything trimmed, the channel gains one envelope for each death of a group's job whose entry was in the log, none for any other and never a second |
| DeadLetters.Requeue | src/store.c:1811-1846 | the requeue steps with each of their refusals |
| DeadLetters.RequeueFollowsNote | src/store.c:1811-1846 | requeueing goes by the subject the envelope names and not by the channel it was found in, as a plain message where it names no type; a name that is no subject's is refused |
| DeadLetters.RequeueRefuses | src/store.c:1811-1846 | nothing is requeued from a subject without a channel, from an index the channel does not hold, or from bytes that are no record |
| Dedup.DedupIndex.RotateIndex | src/store.c:1264-1287 | rotation by swapping and clearing two tables: nothing within a window, one generation within two, both after that |
| Dedup.DedupIndex.LookupId | src/store.c:1300-1338 | rotate, look in the current then the older table, copy a late hit forward |
| Dedup.DedupIndex.RecordId | src/store.c:1340-1364 | a record goes to the current table |
| Dedup.LookupKeepsLive | src/store.c:1264-1338 | nobody's lookup within a window of an id's last use makes it unfindable or changes its index |
| Dedup.RecordIsLive | src/store.c:1340-1364 | an id recorded after a miss lasts a full window |
| Dedup.RememberedForAWindow | include/sukkal.h:518-525 | an id recorded or found at t answers its index at every time within a window of t, whatever is looked up or recorded meanwhile |
| Dedup.ForgottenExactly | src/store.c:1264-1287 | how long an id nobody mentions stays findable, exactly, in terms of the times of all other lookups |
| Dedup.ForgottenByThreeWindows | src/store.c:1264-1287 | without a further hit an id is never found three windows after its last use |
| Dedup.BackwardClockForgets | src/store.c:1264-1287 | a clock set back makes the elapsed time wrap, and everything is forgotten at the next lookup |
| Dedup.DocumentedBound | include/sukkal.h:518-525 | whatever others look up after an id's last use, the documented bound of two windows holds for good if and only if the lookup that demoted the id's generation, if there was one, came within a window of that use |
| Dedup.OutlivesTwoWindows | include/sukkal.h:518-525 | a run in which an id is found almost three windows after its last use |
| Publishing.Server.HandlePublish | src/server.c:222-281 | the handler's effects in order: lookup, append, record, acknowledge, and each of its refusals; an id or an acknowledgement name too long for its buffer reads as missing |
| Publishing.PlainPublish | src/server.c:222-307 | without an id that can be read a publish appends, answers where the message stands, is no duplicate, and acts on an acknowledgement |
| Publishing.BadIdRefused | src/server.c:227-233 | an id that reads but is empty or holds a slash or an unprintable byte is refused with nothing done |
| Publishing.LongIdIsNone | src/server.c:60-85 | an id past 128 bytes is no id: the message is appended even when it was there, and nothing is remembered |
| Publishing.IdempotentPublish | src/server.c:222-307 | repeats of a publish, each within a window of the one before, interleaved with any other traffic, are all answered with the first index and as duplicates and append nothing; the first is answered with where its message stands; each acts on its acknowledgement |
| Pipeline.PipeKeyExact | src/client.c:2619-2620 | two stage keys are equal exactly when their dotted names and indexes are |
| Pipeline.PipeKeyInjective | packages/node/src/client.js:305-312 | for one consumer the key tells every input of every subject apart |
| Pipeline.KeyExample | packages/node/src/client.js:305-312 | the key of input 1207 of subject a.b for consumer c, letter for letter |
| Pipeline.PipeKeySharedAcrossStages | packages/node/src/client.js:305-312 | two differently named stages that share a key |
| Pipeline.PipeKeyTruncates | src/client.c:2619-2620 | past 128 bytes of names the C key no longer depends on the index |
| Pipeline.TruncatedKeysExact | src/client.c:2619-2620 | the C keys of inputs 0 to n, cut at 128 bytes, are pairwise distinct if and only if the key of n is not cut |
| Pipeline.PipeKeyValid | src/client.c:2619-2620 | a key within 128 bytes is an id the broker accepts |
| Pipeline.EmitStores | src/server.c:222-281 | one publish-and-ack of a stage: it answers the old index if the input has its output and its key fits, and appends and records otherwise; either way the receipt advances and no other key becomes known |
| Pipeline.RunInv | src/client.c:2570-2669 | every step of broker and workers, trims and jumps included, keeps: no input whose key fits twice in the output, everything between the starting receipt and the receipt handled or trimmed away, every output whose key fits still known to the dedup index while a retry may come |
| Pipeline.JumpStep | src/push.c:562-571 | a receipt below the base is moved to the base exactly, over inputs that were trimmed |
| Pipeline.EffectivelyOnce | src/server.c:249-281 | from any starting receipt, in every run of crashes, lost replies, redeliveries and trims, each input whose key fits has at most one output, and every input between the start and the receipt has its output, was dropped, or was trimmed before the receipt reached it, whether never delivered or delivered to workers that crashed |
| Pipeline.BatchGoesThrough | src/client.c:2570-2669 | a batch nothing goes wrong with: the output subject gains exactly what the handler returned, in order, and the receipt stands at the end of the batch |
| Pipeline.RetryCollapsesExactly | packages/node/src/client.js:305-312 | at any point of any run, publishing the output of an input that has one appends nothing if and only if its key fits in 128 bytes |
| Pipeline.LongKeyRepeats | packages/node/src/client.js:305-312 | a run in which one lost reply under a key that does not fit puts the output there twice |
| Pipeline.CutKeyLosesOutput | src/client.c:2619-2620 | when two inputs share a cut key the second one's output is taken for a copy: nothing is appended and its input is acknowledged |
| Pipeline.OutIsTheLog | src/server.c:238-246 | the account of outputs is the output subject's log: it grows exactly when the account does |
| Trimming.ConsumerStats | src/store.c:587-614 | the range scan returns the lowest receipt of the subject's consumers |
| Trimming.QueueFloorScan | src/store.c:2079-2121 | the range scan returns the lowest floor of the subject's groups |
| Trimming.MinAckedIsMin | src/store.c:587-614 | it is a lower bound of all of them and one of them |
| Trimming.TrimSubject | src/store.c:2188-2288 | bjm_trim's clamping; when the new file cannot be adopted nothing changes |
| Trimming.TrimRespectsOwed | src/store.c:2202-2231 | an unforced trim never passes a receipt or what a group still owes |
| Trimming.TrimIsMaximal | src/store.c:2202-2231 | and it removes everything else that was asked for: what every consumer has acknowledged and no group has leased or still to hand out |
| Trimming.ForcedTrimIsExact | src/store.c:2202-2206 | a forced trim removes exactly the messages below the index asked for, whoever is owed them |
| Trimming.TrimWithinAsked | src/store.c:2188-2231 | forced or not, nothing goes that was not asked for, and nothing but the base changes |
| Trimming.SetCursorIsCursorSet | src/store.c:575-585 | setting a receipt in the key-ordered list is setting it in the map the publish handler and the engine use |
| Trimming.TrimIgnoresOthers | src/store.c:575-585 | another subject's receipt, whatever its name, has no say |
| Trimming.OwedJobsSurvive | src/store.c:2188-2231 | in every run without forced trims every in-flight or not yet handed-out index of every group stays above the base |
| Trimming.UnreadMessagesSurvive | src/store.c:2202-2231 | and every live message above some consumer's receipt survives each trim |
| Retention.PolicyBoundary | src/store.c:2297-2344 | the boundary is the highest of what the three limits propose, each computed as in the code, the marks scanned in place |
| Retention.CountLimitExact | src/store.c:2306-2308 | the count limit leaves exactly the newest min(live, max) messages |
| Retention.TightestWins | src/store.c:2297-2344 | several limits leave what the tightest alone would |
| Retention.ByteRunProgress | src/store.c:2310-2328 | a run over the byte limit always drops something |
| Retention.ByteRunsConverge | src/store.c:2310-2328 | repeated runs get under the limit or empty the log in at most `live` runs |
| Retention.NeverOvershootsExactly | src/store.c:2310-2328 | no limit makes a run drop more than needed if and only if no prefix of old messages is larger than average |
| Retention.UniformNeverOvershoots | src/store.c:2310-2328 | with entries of one size a run never drops more than needed |
| Retention.OvershootExample | src/store.c:2310-2328 | a log where a run drops two messages and one was enough |
| Retention.MarkRing.Publish | src/store.c:1104-1128 | the in-place ring: a mark at most once per interval, the oldest shifted out when full |
| Retention.MarkRing.Prune | src/store.c:1131-1143 | pruning in place keeps exactly the marks above the base, in order |
| Retention.MarksTruthful | src/store.c:1104-1143 | in every run every mark names a message and the time it was published |
| Retention.AgeTrimIsSafe | src/store.c:2330-2341 | with a clock that never runs back, age trimming never drops a message younger than the limit |
| Retention.RingSpaced | src/store.c:1104-1143 | between restarts marks stay at least one interval apart, through publishes and prunes |
| Retention.FullRingSpansWindow | src/store.c:50-54 | a full ring spans at least one window, strictly more for every limit but 255 seconds |
| Retention.FullRingReachesExactly | src/store.c:50-54 | the time every full ring is sure to span is exactly 255 intervals |
| Retention.TwoWindowsExactly | src/store.c:50-54 | a full ring is sure to span two windows exactly for limits up to 127 seconds |
| Retention.AgeDropsExactly | src/store.c:1104-1128 | a message is dropped for its age if and only if some publish from it on left a mark that is over age itself |
| Retention.KeepsAtMostAnInterval | src/store.c:48-50 | between restarts, of the messages still kept, one past the limit is less than one interval newer than any older one: a trim keeps at most an interval's worth too many |
| Retention.QuietSubjectKeeps | src/store.c:48-50 | two publishes a second apart after which the second message is never dropped for its age |
| PushEngine.Pusher.StartDelivery | src/push.c:499-615 | the search over the subjects from `rr` on, with channels joining the list on the way, ends as `PushModel.StartDelivery` says |
| PushEngine.Pusher.TakeBatch | src/push.c:474-493 | leasing jobs for a worker: load the group, take from its table, keep the jobs still in the log, publish the dead letters and announce their channel |
| PushEngine.Pusher.TakeStored | src/store.c:1591-1673 | a take on a stored group runs on its table in place and stores what it leaves |
| PushEngine.Pusher.PublishLetters | src/store.c:1720-1764 | the loop over the dead: the channel grows by as many letters as dead jobs were in the log, and joins the subject list |
| PushEngine.Pusher.NextFor | src/push.c:547-571 | where a reader stands on a subject: caught up, or its receipt, or the base when that was trimmed past it |
| PushEngine.Pusher.Pump | src/push.c:764-812 | one pass and the flag after it; the sleep is 2 while anything is in flight, else 0 while there is work, else 1000, and the branch on `next_due` is never reached |
| PushEngine.Pusher.Finish | src/push.c:698-762 | a completion: reaped if deleted, settled for a worker, acknowledged up to the hint for a reader, backed off otherwise |
| PushEngine.Pusher.FinishJobs | src/push.c:637-696 | an unanswered delivery settles nothing; an answered one loads its group, settles each job in the table, stores it, and backs off on an error |
| PushEngine.Pusher.Add | src/push.c:312-330 | registering again moves the live subscription, otherwise appends one |
| PushEngine.Pusher.Remove | src/push.c:332-341 | the first entry of the consumer, deleted or not, is marked or swapped out |
| PushEngine.Pusher.Seed | src/push.c:345-378 | the loop that places a new subscription |
| PushEngine.BackoffWait | src/push.c:619-626 | the doubling loop computes min(500 * 2^(failures-1), 30000) |
| PushEngine.BackoffGrows | src/push.c:619-626 | the wait is 500 after one failure, doubles with each, and is 30000 at most and from the seventh on |
| PushOutcomes.ReaderRefused | src/push.c:698-724 | no answer, or any status but 200 to 299: a reader's receipt stays, it counts a failure and waits |
| PushOutcomes.ReaderAccepts | src/push.c:726-762 | 200 to 299 moves the receipt to the end of the batch, or to where the answer says if that is inside it; an answer that takes nothing is a refusal |
| PushOutcomes.WorkerUnreached | src/push.c:637-652 | no answer settles nothing: the leases run on and the worker waits |
| PushOutcomes.WorkerAnswers | src/push.c:640-696 | for every status and every list: 200 to 299 releases every job of the delivery, or those on the list; any other status releases none; what is not released is re-timed with its attempts kept; other leases stay |
| PushOutcomes.DeletedIsReaped | src/push.c:698-709 | a deleted subscription goes when its delivery ends and moves nothing |
| PushOutcomes.ReaderIsSent | src/push.c:547-615 | a reader asked about a subject is sent the messages after its receipt, or after what was trimmed, as many as fit but at least one, never past the end |
| PushOutcomes.WorkerIsSent | src/push.c:474-546 | a worker takes as many jobs as configured, one by default and 64 at most, and is sent those still in the log, each once and in order; with none it notes the earliest expiry |
| PushOutcomes.CoversMeans | src/push.c:178-182 | a subscription covers the subjects its pattern means, position by position, or the one it names |
| PushOutcomes.RegisterMoves | src/push.c:312-330 | registering again changes the configuration of the live subscription and nothing else of it; a new one waits for nothing |
| PushOutcomes.RemoveSparesOthers | src/push.c:332-341 | removing a consumer touches nobody else's subscription |
| PushOutcomes.MessageWakes | src/push.c:299-303 | a message lengthens its log by one, puts its subject on the list and makes the engine look |
| PushReceipts.RunInv | src/push.c:332-341 | every run keeps: counter exact, one live subscription per consumer, deleted ones in flight, each delivery under way starting right after its receipt |
| PushReceipts.CounterIsExact | src/push.c:411-450 | in every run, manual acks included, the in-flight counter equals the number of in-flight subscriptions and a consumer has one live subscription at most |
| PushReceipts.KeysDiffer | src/push.c:499-615 | no two live deliveries acknowledge the same receipt |
| PushReceipts.CompleteReceipts | src/push.c:698-762 | a completion moves at most its own receipt, from just before its batch to inside it, and only on a 2xx |
| PushReceipts.WorkerSettles | src/push.c:637-696 | an unanswered job delivery changes nothing stored; an answered one settles its own group and no other |
| PushReceipts.SeedPlaces | src/push.c:345-378 | seeding leaves an existing receipt and puts a missing one exactly where it was asked to start |
| PushReceipts.RemoveIsCompleteExactly | src/push.c:332-341 | removing leaves a live subscription behind if and only if a deleted one of that consumer, still in flight, comes before it |
| PushReceipts.RemoveAddRemove | src/push.c:332-341 | remove, add, remove during one delivery leaves the new subscription live |
| PushReceipts.PieceFits | src/push.c:547-571 | what one move does to a receipt: nothing, a taken part of a batch starting right after it, a jump to the base its own subject has at that moment, or a first placement |
| PushReceipts.ReceiptsTile | src/push.c:547-612 | in every run without manual acks the acknowledged pieces are contiguous, in order and without overlap, each inside a batch answered 2xx; every gap ends exactly at the base the subject had at that move, and the pieces end where the receipt stands |
| PushTurn.FruitlessTake | src/store.c:1628-1673 | a take that finds nothing and leaves no lease to wait for has buried exactly the leases the table held and emptied it |
| PushTurn.StrandsExactly | src/store.c:1628-1673 | such a take leaves jobs undelivered if and only if the lease is zero, `next` lies at or below the base and the log is not empty |
| PushPass.StopBuriesExactly | src/push.c:764-795 | a pass that stops publishes a dead letter if and only if, before it, a worker that gets a turn covers a subject whose group holds an expired, exhausted lease on a job in the log |
| PushPass.StopLosesExactly | src/push.c:790-795 | such a pass leaves nothing undelivered if and only if, before it, no zero lease strands jobs behind a trim and no live subscription lies behind a letter: asked about the channel before the worker that buries is asked, and not up to its new end |
| PushPass.BusyGoesOn | src/push.c:764-795 | while a live subscription is in flight or backing off no pump turns `work` off |
| PushPass.PumpSpares | src/push.c:764-795 | a pump leaves alone what is deleted, on its way or backing off |
| PushStops.StirsGoesOn | src/push.c:764-795 | a pass goes on if, in the state before it, some live reader stands before the end it will be shown, or some live worker will be shown a lease that is not spent or a job to hand out |
| PushStill.StopsExactly | src/push.c:764-795 | a pump stops the engine if and only if every live subscription is free and due and none stirs in that sense |
| PushStill.RunListed | src/push.c:150-175 | in every run the engine's list holds each subject there is, once |
| PushWakeups.SafePumpExactly | src/push.c:764-795 | that proviso is exact: a pump from a state loses nothing if and only if it is met there |
| PushWakeups.NoLostWakeups | src/push.c:299-330 | in every run with any trims, forced or not, `work` is off only when no live subscription is in flight, backing off, waiting on a lease or has anything to deliver, provided each pump starts from a state in which something keeps it going or the two failures cannot happen |
| PushWakeups.DeadLetterLosesWakeup | src/push.c:764-795 | a pass that stops with a dead letter waiting for a reader it had already asked |
| PushWakeups.ZeroLeaseLosesWakeup | src/push.c:764-795 | a pass that stops with jobs waiting: a zero lease gave away a job that was trimmed |
| PushSends.FailedSendsLoseWakeups | src/push.c:600-612 | whichever sends start, the engine goes on scanning if and only if some subscription, reader or worker, has something waiting and a working transport; when it stops no later pump moves anything, readers' messages still wait and workers' jobs stand leased to nobody, and something is lost if and only if anything was waiting |
| PushSends.FailedSendExample | src/push.c:600-612 | such an engine that stops with a message unread and a job leased to nobody |
| PushFairness.DeliverableIsStarted | src/push.c:499-615 | a free subscription with anything deliverable, reader or worker, is started, whatever the other subjects hold |
| PushFairness.TurnServesOrNears | src/push.c:503-612 | each delivery serves a deliverable subject or strictly shortens its cyclic distance from `rr` |
| PushFairness.RoundRobinIsFair | src/push.c:503-612 | with a fixed list of n subjects, one that stays deliverable is served within n turns of the subscription, whatever else happens in between |
| PushFairness.EveryTurnStarts | src/push.c:503-612 | each of those turns starts a delivery |
| PushFairness.PumpIsTurns | src/push.c:764-795 | a pump is exactly one turn for each live, free and due subscription, in list order, and then the switching off if it stopped |
| PushFairness.OneTurnEach | src/push.c:764-795 | those turns hold each subscription once if it is due and never otherwise |
| Settlement.ParseList | src/push.c:206-227 | the list parser's loop: skip to a digit, read a number, at most 64 times |
| Settlement.ReadNumber | src/push.c:206-227 | a number is read with 64-bit wrap-around |
| Settlement.DoneListIsRead | src/push.c:206-227 | up to 64 indexes joined by commas are read back as exactly those indexes |
| Settlement.DoneLineIsRead | src/push.c:195-227 | the header line a worker sends is recognised, and no answer changes no lease |
| Settlement.HandleJobs | packages/node/src/client.js:574-590 | the worker names exactly the jobs whose handler succeeded, or fails the delivery when none did |
| Settlement.HandleMessages | packages/node/src/client.js:554-566 | the worker acknowledges up to the message before the first failure |
| Settlement.FinishJobs | src/push.c:637-677 | the loop over the jobs of a delivery, each done or failed in the group's table |
| Settlement.AnswerSettles | src/push.c:640-677 | what an answer of any status, with or without a list, does to each lease in the table |
| Settlement.SettlementRoundTrip | src/push.c:637-677 | the worker's answer, printed, sent and parsed, releases as done exactly the jobs whose handler succeeded, re-times every other still-held job and changes no other lease |
| Names.PatternMatch | src/store.c:163-176 | the two-pointer scanner decides the recursive token relation |
| Names.PatternValid | src/store.c:144-161 | the scanning validator accepts exactly 1 to 128 bytes of well-formed tokens with '>' only last |
| Names.MatcherMeaning | src/store.c:163-176 | for a pattern both sides accept, matching means what position-by-position comparison says |
| Names.ValidatorsAgree | packages/node/src/protocol.js:100-108 | the C validator accepts what JavaScript accepts, and that followed by one dot |
| Names.TargetsArePatterns | packages/node/src/protocol.js:110-118 | without a wildcard a valid pattern is a valid subject, so a target is valid exactly when it is a valid pattern |
| Names.PatternsByToken | packages/node/src/protocol.js:100-108 | token by token: a pattern is up to 128 bytes of words and `*`, with `>` allowed at the end |
| Names.NamesByToken | src/store.c:108-125 | token by token: a name is up to 128 bytes of words |
| Names.RangeIsPrefix | src/store.c:575-585 | the byte-ordered range `s/` to `s0` is the keys that start with `s/`, and its upper end |
| Names.RangeExact | src/store.c:575-585 | of composed keys it holds exactly subject s's |
| Names.JoinKeyInjective | src/store.c:405-414 | a composed key determines its subject and its name |
| Names.SuffixExact | src/store.c:523-571 | the suffix scan finds exactly one consumer's keys |
| Decimal.DecInjective | src/client.c:2619-2620 | different indexes print differently |
| Decimal.ValueOfDec | src/client.c:2619-2620 | read in base ten, what an index prints as is that index |
| Binjson.DecodeInvertsEncode | packages/python/sukkal/binjson.py:243-305 | reading where an encoding stands gives the value back and stops behind it |
| Binjson.EncodeInvertsDecode | packages/python/sukkal/binjson.py:243-305 | every byte string that decodes is the one encoding of what it decodes to |
| Binjson.DecodeConsumesItsSize | packages/python/sukkal/binjson.py:308-325 | every successful decode of any bytes consumes exactly `value_size` |
| Binjson.PrefixFree | packages/python/sukkal/binjson.py:127-208 | no encoding is a prefix of another |
| Binjson.StreamRoundTrip | packages/python/sukkal/binjson.py:224-230 | concatenated encodings stream-decode to the list |
| BinjsonCodec.EncodeInto | packages/python/sukkal/binjson.py:134-186 | the appending encoder adds exactly the recursive encoding of the value, integers past the safe range as FLOAT, to what is there, or fails where a length does not fit |
| BinjsonCodec.ByteArray.PackInto | packages/python/sukkal/binjson.py:208-208 | back-patching four bytes changes those and no others |
| BinjsonCodec.EncodeItems | packages/python/sukkal/binjson.py:189-208 | a list's frame, patched once its content is known, is the recursive encoding |
| BinjsonCodec.EncodeFields | packages/python/sukkal/binjson.py:189-208 | the same for a dictionary, keys without a type byte |
| BinjsonCodec.DecodeAt | packages/python/sukkal/binjson.py:243-305 | the looping decoder reads what the format says, later keys of a dictionary replacing earlier ones |
| BinjsonCodec.Decode | packages/python/sukkal/binjson.py:213-221 | one value and no trailing bytes |
| BinjsonCodec.RoundTrip | packages/python/sukkal/binjson.py:127-221 | encoding then decoding any value without repeated keys gives it back with integers past the safe range as floats, so unchanged if and only if it holds none, or fails exactly when a length does not fit |
| BinjsonCodec.SentUnchangedExactly | packages/python/sukkal/binjson.py:158-168 | a value is sent as it is if and only if every integer in it lies within 2^53 - 1 of zero |
| BinjsonLayout.LeafLayout | packages/python/sukkal/binjson.py:134-186 | the bytes of every value that holds no other: type byte, and what follows it, lowest byte first |
| BinjsonLayout.ContainerLayout | packages/python/sukkal/binjson.py:189-208 | the bytes of a list or dictionary: type byte, size, count, and each element in order, keys with their length and no type byte |
| BinjsonLayout.IntegersSent | packages/python/sukkal/binjson.py:158-168 | an integer is sent as INT within 2^53 - 1 of zero and as FLOAT beyond |
| BinjsonLayout.LaterPairsWin | packages/python/sukkal/binjson.py:243-305 | a dictionary read from pairs holds each key once, with the value that came last |

## Left out

- Values of 2^53 and more and 64-bit wrap-around of indexes and times, except where a member above is about them (the backoff shift, the elapsed times of dedup and marks, the done list, stored records).
- Clocks that run backwards, where a statement says the clock does not.
- Subscriptions are values told apart by an id; aliasing of the C structures and the buffers a batch is copied into are not modelled.
- Failing allocations, I/O errors and torn files; a trim that cannot adopt its new file is modelled, the rest of storage is not.
- The entry log, the B+ tree and the C binjson library: a log is a contiguous range of entries, a tree a byte-ordered map, a decode either fails or reports the value's parts in order.
- Crashes between an append and its dedup record, and between storing a take and publishing its dead letters: the code protects neither.
- A negative number in a stored queue record, whose conversion C leaves undefined, reads as 0; a NUL byte inside a stored key is not modelled.
- UTF-8 validity, date and float arithmetic of the Python codec (eight opaque bytes, or a 64-bit integer): which double an integer past the safe range becomes is a parameter.
- Sockets, libcurl, signals, directory listing, command lines, URL and token checks, routing, health and listing output.
- Informational fields: delivered counts, last error, lag, the headers of a pushed batch.
- The text renderer of src/bjtext.c and its envelope checks.
- src/sukkal_wasm.c and wasm/broker.js.
- Deleting a queue group or a receipt while push deliveries run; the trimming runs include both.
- Pipeline.EffectivelyOnce: assumes each retry under a key that fits comes within one dedup window of the attempt before it, the broker finishes a request it has started, and no other client uses the stage's receipt or the keys of inputs above its starting receipt; the C client's cut keys are treated by the two members about them.
- BinjsonCodec.EncodeInto: does not model an integer too large for any double, for which Python raises.
- DeadLetterRuns.OneEnvelopePerDeath: starts before any group of the subject has been used and does not delete groups; a deleted group may start again and give its jobs new deaths.
- PushEngine.Pusher.TakeBatch: counts the dead letters and lengthens the channel by that many; their contents are the DeadLetters members', and the binjson answer of the take, which the engine decodes, is not built.
- Publishing.IdempotentPublish: assumes each repeat comes within one window of the one before it; past that the id may be forgotten, as documented.
- Retention.FullRingSpansWindow: covers runs between restarts, as do the other statements about how far marks reach; a restart forgets when the last mark was written, so one mark may come early.
- Retention.AgeDropsExactly: takes the clock at or past the last publish, strictly past it for a limit of 255 seconds, where a full ring just reaches one window; the same holds for KeepsAtMostAnInterval.
- PushFairness.RoundRobinIsFair: assumes the subject list stays fixed and that sends of this subscription start; a send that does not start still advances the round.
- PushReceipts.ReceiptsTile: covers runs without receipts acknowledged by hand, a group change under a delivery, or seeding a live consumer, each of which lets a receipt move under a delivery.
- PushWakeups.NoLostWakeups: assumes the sends of its pumps start, the clock of its pumps runs forward, and each pump starts where something keeps it going or neither failure of `PushPass.StopLosesExactly` can happen; trims of any kind are free. Like every run of the engine it leaves out what `PushReceipts.Allowed` does: registering under an id in use, changing a consumer's group while its delivery is under way, seeding a live consumer, and reports on deliveries that are not under way.
- PushSends.FailedSendsLoseWakeups: covers engines whose workers do not share a group and start with nothing leased and nothing trimmed ahead of them; under a zero lease a failed send gives its jobs away, and the loss is not visible in the table.
- PushStill.StopsExactly: takes no group with a zero lease to stand behind a trim; with one, that what stirs goes on still holds (StirsGoesOn), and the converse does not count what several workers of that group give away in one pass. SafePumpExactly is stated in the same setting.
