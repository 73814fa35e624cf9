# Models of Flow State Dev's leases, readers, encodings and derivations

Flow State Dev runs conversational flows on workers behind a queue. This project models the parts of it
whose correctness depends on order, on interleaving or on an encoding being readable back, and proves what
they keep:

- **The lease line** (`LeaseLine`, `LeaseBackend`, `LeaseProtocol`, `Dispatch`). Runs that must not overlap
  stand in a line per key, kept in Redis as a sorted set, three hashes and a counter. Five Lua scripts are the
  atomic steps. `LeaseLine` is one line and the scripts; `LeaseBackend` is one process's object, with the
  reconcile loop as it is written; `LeaseProtocol` is every process at once, as a transition system with a
  clock, the queue's job states and a program counter per process; `Dispatch` joins the takes to the enqueues.
- **Coalescing readers** (`NoticeWatch`, `SessionPump`). Two event-driven loops that read on a notice, retry
  what fails and report what changed. A step is one turn of the event loop, and the objects with their flags
  are proved to take exactly the modelled steps.
- **Grouping** (`ThreadEntries`). The fold that draws a thread's items as entries, against a definition of what
  a grouping is that has one solution.
- **Encodings** (`SessionPlace`, `ScheduleIndex`, `Mailroom`). Names, scheduler ids and fingerprint preimages,
  each with a decoder and the exact condition under which it decodes.
- **Structures and derivations** (`ArtifactTree`, `Inbox`, `Concepts`, `HarnessTurns`). The tree builder, the
  capture store under concurrency, the frontmatter mapping, and what a page derives about turns and plans.

`Wrappers`, `Parts` and `Sorting` are shared: an optional value, text cut at a separator and joined again, and a
stable sort over an abstract ordering.

## What does not hold as written

Each of these is proved as an exact condition, or with an input that shows it.

- A scheduler id does not name its cell and key when the cell ends in an unfinished escape, and every such
  cell collides with another (`ScheduleIndex.IdNamesItsRow`, `ScheduleIndex.DanglingCellsCollide`).
- A fingerprint does not belong to one capture when four lines of its conversation id or of its source read as a
  capture's own: a conversation id may hold newlines, so the two fields can then trade lines. When that happens
  is exact (`Mailroom.TwinExactly`), and it does happen (`Mailroom.ConversationTradesLines`).
- A turn the request list calls aborted, but whose stop item is not among the items, is shown stopped while it
  can still be recorded as waiting on an approval (`HarnessTurns.StoppedAndWaiting`,
  `HarnessTurns.StoppedByTheListAlone`).
- A sessions list that its caller stops from inside the change callback can leave a retry or a subscription
  behind (`SessionPump.StopLeavesNothingUnlessInsideTell`, `SessionPump.StopInsideTellLeaks`).
- Folder paths are not always unique: exactly when two places that titles name differ only in leading empty
  names, as `/a/x` and `a/y` do (`ArtifactTree.UniqueExactly`, `ArtifactTree.LeadingSlashCollides`).
- Import and export lose a key whose name every JavaScript object inherits, such as `toString`, because the export
  asks `key in out`; they keep every other (`Concepts.UnknownKeysSurvive`, `Concepts.SecondPassChangesNothing`,
  `Concepts.InheritedNameIsLost`).
- The comment on `stateToFrontmatter` says an extra named like a known field is ignored; the code writes it
  when that field is empty (`Concepts.TypedFieldWins`, `Concepts.ExtraTakesTheTitle`, and `Concepts.RoundTrip` for
  what comes back).

## Model

| member | source | states |
|---|---|---|
| LeaseLine.ScriptsKeepWf | packages/bullmq/src/lease-backend.ts:90-155 | Every script keeps scores rising and within the counter, tickets distinct, and the three hashes holding exactly the line's tickets, through the deletion and restart of the counter. |
| LeaseLine.TakeOrder | packages/bullmq/src/lease-backend.ts:95-100 | A take that is placed stands last, behind every other ticket in its old order, under a score above all. |
| LeaseLine.ScriptOrder | packages/bullmq/src/lease-backend.ts:90-142 | Only a placed take and a completed removal change a line's order, and a removal strikes out one ticket that stood. |
| LeaseLine.ScriptPlace | packages/bullmq/src/lease-backend.ts:90-155 | A script that does not take or remove a place never moves it back, keeps its request and job, and changes its lease only by that place's renewal. |
| LeaseLine.RemovedHead | packages/bullmq/src/lease-backend.ts:130-140 | Removing the first place promotes exactly the second; removing any other leaves the first. |
| LeaseLine.ExactHandOver | packages/bullmq/src/lease-backend.ts:130-142 | A script gives a line it does not empty another head if and only if it answers a job id, and that id is the new head's recorded one. |
| LeaseBackend.ScanIsExact | packages/bullmq/src/lease-backend.ts:145-155 | The scan answers exactly the lapsed tickets, in line order. |
| LeaseBackend.DropWakes | packages/bullmq/src/lease-backend.ts:184-208 | Dropping dead places one by one wakes, in all, just the job of the head the line ends with. |
| LeaseBackend.RedisLease.TakeScript | packages/bullmq/src/lease-backend.ts:90-101 | The keys after the script, and its answer, are the specified take's. |
| LeaseBackend.RedisLease.RenewScript | packages/bullmq/src/lease-backend.ts:111-115 | A standing place's lease, and nothing else, is set from the current clock; a missing one is answered as gone. |
| LeaseBackend.RedisLease.RemoveScript | packages/bullmq/src/lease-backend.ts:124-142 | The conditional removal, the deletion of every key with the last place, and the answered job are the specified ones. |
| LeaseBackend.RedisLease.ExpiredScript | packages/bullmq/src/lease-backend.ts:145-155 | The loop collects the specified lapsed places with their jobs and changes nothing. |
| LeaseBackend.RedisLease.Wake | packages/bullmq/src/lease-backend.ts:201-208 | A delayed job is promoted; any other, or none, is left as it is. |
| LeaseBackend.RedisLease.RemovePlace | packages/bullmq/src/lease-backend.ts:184-198 | One removal, and a wake of the job it answers, if it answers one. |
| LeaseBackend.RedisLease.Settle | packages/bullmq/src/lease-backend.ts:219-225 | One turn of reconcile's loop keeps the invariant of the filter: the place is renewed or removed by the state its job is read in, and the rest stands. |
| LeaseBackend.RedisLease.Reconcile | packages/bullmq/src/lease-backend.ts:216-226 | Without interference reconcile is a filter: a place of the old line is gone if and only if its lease was before the scan and its recorded job is empty, not in the queue, or active, completed, failed or unknown; the rest stay in their old order, and only the job of a head the line was given is woken. |
| LeaseBackend.KeptExactly | packages/bullmq/src/lease-backend.ts:219-225 | Seen from the other side: a place stays if and only if its lease had not run out at the scan, or its job is waiting, delayed, prioritized or waiting for children. |
| LeaseBackend.KeptKeeps | packages/bullmq/src/lease-backend.ts:222-224 | A place that stays keeps its request and job; a lapsed one holds a lease from after the scan, any other the lease it had. |
| LeaseBackend.WokenExactly | packages/bullmq/src/lease-backend.ts:197-208 | No job appears or disappears, and one changes state only from delayed to waiting, exactly when it is the job of a head the line did not have before. |
| LeaseBackend.RedisLease.TakePlace | packages/bullmq/src/lease-backend.ts:231-250 | The line is first reconciled, with its wake; then the new place stands last under its own lease, request and job and every other place is as the reconcile left it, or with `ifEmpty` a survivor's request is answered and nothing is taken. |
| LeaseBackend.RedisLease.IsMyTurn | packages/bullmq/src/lease-backend.ts:252-256 | First, behind or missing, among the survivors of a reconcile, whose line and woken job it leaves as they are. |
| LeaseBackend.RedisLease.RenewPlace | packages/bullmq/src/lease-backend.ts:210-213 | A renewal tells its holder whether the place still stands, and sets that place's lease from the current clock and no other. |
| LeaseBackend.RedisLease.GiveBack | packages/bullmq/src/lease-backend.ts:258-260 | The place alone leaves the line and the hashes, every other keeps its order, lease, request and job, and of the jobs only a delayed one that the line is handed to changes, to waiting. |
| LeaseProtocol.FirstInFirstOut | packages/bullmq/src/lease-backend.ts:90-142 | In every state of every run, each key's line is the history of its takes with the removed tickets struck out, well formed, and no ticket was taken twice. |
| LeaseProtocol.NeverFallsBack | packages/bullmq/src/lease-backend.ts:96-100 | Between any two moments it stands, a place keeps its request and job and its position never grows. |
| LeaseProtocol.NeverReturns | packages/bullmq/src/lease-backend.ts:131-138 | A ticket that left its line never stands again, though the counter restarts. |
| LeaseProtocol.HeadStands | packages/bullmq/src/lease-backend.ts:104-142 | The head stays the head, whatever interleaves, until it is removed. |
| LeaseProtocol.GrantIsHead | packages/bullmq/src/lease-backend.ts:91-108 | Whoever is told it is first, or is granted a place on an empty line, is the head after that step, and nobody else was before it. |
| LeaseProtocol.MutualExclusion | packages/bullmq/src/lease-backend.ts:104-108 | Between two grants on one key to different tickets, the first ticket was removed. |
| LeaseProtocol.HeldNamesHead | packages/bullmq/src/lease-backend.ts:91-94 | A held answer names the request the standing head was taken for, and changes no line. |
| LeaseProtocol.TakenStands | packages/bullmq/src/lease-backend.ts:95-100 | After its take a place stands with the lease, request and job of that take. |
| LeaseProtocol.HandsOverExactly | packages/bullmq/src/lease-backend.ts:184-198 | In every run, a step changes the head of a line it does not empty exactly when it is a removal that answers a job; the job is the new head's, and the removing process goes on to wake it. |
| LeaseProtocol.WakesTheNewHead | packages/bullmq/src/lease-backend.ts:197-208 | Unless it stops, the process that handed the line over reads the new head's job and promotes it in its next two steps, if the job was delayed and still is. |
| LeaseProtocol.RemovedOnce | packages/bullmq/src/lease-backend.ts:124-126 | However many processes race to remove a ticket, one does, so one signals. |
| LeaseProtocol.DroppedOnlyOnceLapsed | packages/bullmq/src/lease-backend.ts:111-129 | A place leaves by its own give-back, or at an instant when every lease it was ever given, at its take and at each renewal, has run out. |
| LeaseProtocol.DroppedAfterRead | packages/bullmq/src/lease-backend.ts:216-226 | A place a reconcile removes had run out at that instant, and the same process, with no step between, had read its recorded job as active, completed, failed or unknown, or the place was taken under an empty job id. |
| LeaseProtocol.AboutToSettle | packages/bullmq/src/lease-backend.ts:222-224 | A process about to drop a place with a job has just read that job in one of those four states; one about to keep a place has just read its job as waiting, delayed, prioritized or waiting for children. |
| LeaseProtocol.EveryLapsedIsSettled | packages/bullmq/src/lease-backend.ts:216-226 | Progress: by the first take or turn check a process runs after its scan, unless it stopped, it has settled every place that had lapsed at the scan: it ran the removal after such a read as gone, or the renewal after a read as coming back. |
| LeaseProtocol.ScansFirst | packages/bullmq/src/lease-backend.ts:231-256 | No process takes a place or checks a turn without having scanned the line in the same call. |
| Dispatch.LeaseJobIdInjective | packages/bullmq/src/lease-backend.ts:49-51 | Two tickets never share a job id. |
| Dispatch.DispatchNeverDropsARequest | packages/bullmq/src/runner.ts:53-79 | A dispatch under a place succeeds exactly when no other request owns the id, and then the job under it is this request's; it throws exactly when another does, naming the owner and writing nothing; no other job is touched. |
| Dispatch.WorkerRunner.Dispatch | packages/bullmq/src/runner.ts:37-92 | A failed or refused dispatch leaves no subscription and the queue as it was, a successful one leaves one and its request's job under the answered id, with no other job changed: under an id no job had without a place, under the ticket's id with one; it is refused exactly when that id is another request's. |
| Dispatch.PlaceAndJobAgree | packages/bullmq/src/runner.ts:46-79 | Over any run of fresh takes, departures, dispatches and finished jobs, a request's dispatch under its default-taken place is never refused, and while the place stands its recorded job and request are the ones enqueued. |
| Dispatch.SendsItsJob | packages/bullmq/src/runner.ts:53-70 | Over any run, each dispatch adds its request's job and changes no other: without a place under an id that no job had. |
| Dispatch.NoSharedJob | packages/bullmq/src/runner.ts:53-79 | Of all dispatches of a run, with or without places, two are given one job id only if they are one request's under one ticket. |
| NoticeWatch.BackoffDoubles | labs/claude-code-style/src/adapter.ts:369-373 | Delays start at 1 s, double, and stay between 1 s and 30 s. |
| NoticeWatch.NeverMissesANotice | labs/claude-code-style/src/adapter.ts:393-453 | For every order of events reads never overlap, and a live watch at rest started its last read no earlier than its last notice: the read's value is the last reported, or it failed, the caller knows, and a retry waits. |
| NoticeWatch.ReadsOnlyWhenWoken | labs/claude-code-style/src/adapter.ts:408-440 | Over every order of events, of the reads that ended and the one in flight all but the first answer a wake of their own, a notice heard or a retry fired; after the end of a read a live watch reads again if and only if a wake came while that read was out, however many did; and otherwise it reads exactly if it did before or the event is a wake. |
| NoticeWatch.TellsOnlyChanges | labs/claude-code-style/src/adapter.ts:418-433 | Consecutive reports differ, and `onStale` hears true first and then alternates. |
| NoticeWatch.TellsTheReads | labs/claude-code-style/src/adapter.ts:415-434 | What a live watch has reported is the values read that differ from the one before, what `onStale` heard is the changes between failing and succeeding, and a retry waits exactly when a read failed since the last one fired, with the delay of its place in the streak. |
| NoticeWatch.StopsWhenAsked | labs/claude-code-style/src/adapter.ts:418-452 | A live watch stops exactly at its caller's stop, from outside or from a callback that is told something new; a change that comes with the stop was still reported. |
| NoticeWatch.StopIsFinal | labs/claude-code-style/src/adapter.ts:448-452 | Once stopped, by its caller or from a callback, a watch tells nothing, starts no read and waits on no timer, whatever comes. |
| NoticeWatch.DelaysFollowTheStreak | labs/claude-code-style/src/adapter.ts:365-381 | The delay in force is the one the current streak of failures calls for, and every delay ever set is in range. |
| NoticeWatch.NoticeWatch.TickNow | labs/claude-code-style/src/adapter.ts:408-414 | A tick starts a read, queues one behind the read in flight, or does nothing once stopped. |
| NoticeWatch.NoticeWatch.ReadResolved | labs/claude-code-style/src/adapter.ts:415-440 | The end of a successful read is the modelled step. |
| NoticeWatch.NoticeWatch.ReadRejected | labs/claude-code-style/src/adapter.ts:427-440 | The end of a failed read is the modelled step. |
| NoticeWatch.NoticeWatch.NoticeHeard | labs/claude-code-style/src/adapter.ts:441-446 | A heard notice is the modelled step. |
| NoticeWatch.NoticeWatch.TimerFired | labs/claude-code-style/src/adapter.ts:407 | The retry timer is the modelled step. |
| NoticeWatch.NoticeWatch.Unsubscribe | labs/claude-code-style/src/adapter.ts:448-452 | The caller's stop is the modelled step. |
| SessionPump.NoLostWake | labs/claude-code-style/src/adapter.ts:1055-1152 | In every live state of every run, a listed session was read whole by a pass that landed and began after the last notice about it, or it or a listing is queued, or a retry waits, or the running pass, itself begun after that notice, reads it again; at rest with no retry the first holds of every row. |
| SessionPump.HoldsWhatLanded | labs/claude-code-style/src/adapter.ts:1109-1128 | In every state of every run the rows are those that landed: the sessions of the last listing, each with the text the last read of it to land answered; and a live list that has told anything has last told those. |
| SessionPump.LandsEveryMode | labs/claude-code-style/src/adapter.ts:1110-1117 | A listing lands once every mode was listed, with exactly the sessions listed; a reread neither adds nor drops a session. |
| SessionPump.PassesOnlyWhenWoken | labs/claude-code-style/src/adapter.ts:1098-1138 | Of the passes that ended and the one running, all but the first answer a wake of their own. |
| SessionPump.NextPass | labs/claude-code-style/src/adapter.ts:1101-1120 | At the end of a pass a live pump lists if and only if a listing was asked for while it was out, else rereads exactly the sessions noticed meanwhile, else rests; a resting one answers each wake with the pass it calls for and starts on nothing else. |
| SessionPump.RetriesWhatFailed | labs/claude-code-style/src/adapter.ts:1130-1136 | A live pump's retry waits exactly when a pass failed, or landed a row not read whole, since the last retry. |
| SessionPump.StopsWhenAsked | labs/claude-code-style/src/adapter.ts:1072-1077 | A live pump stops exactly at its caller's stop, or inside a callback told of rows that differ from those last told. |
| SessionPump.ShowsWhatItHolds | labs/claude-code-style/src/adapter.ts:1071-1096 | Once a listing has landed, a live list was told the rows it holds and its subscription hears exactly the listed sessions. |
| SessionPump.StopLeavesNothingUnlessInsideTell | labs/claude-code-style/src/adapter.ts:1127-1151 | A stop leaves no timer and no subscription, except exactly when it comes from inside the change callback of a pass that was incomplete or changed the listed sessions. |
| SessionPump.StopInsideTellLeaks | labs/claude-code-style/src/adapter.ts:1128-1132 | The exception is reachable in two events, with a subscription left open, and with a retry left waiting. |
| SessionPump.StoppedStaysQuiet | labs/claude-code-style/src/adapter.ts:1146-1151 | From its stop on, over any run, a list tells nothing and begins no pass, and if the stop left nothing behind nothing comes. |
| SessionPump.WatchSessions.constructor | labs/claude-code-style/src/adapter.ts:1056-1070 | A new pump lists at once. |
| SessionPump.WatchSessions.LoopOn | labs/claude-code-style/src/adapter.ts:1103-1120 | The loop's test begins a listing before a reread of what is dirty, clears what it took on, or rests. |
| SessionPump.WatchSessions.PumpNow | labs/claude-code-style/src/adapter.ts:1098-1103 | While a pass runs, waking the pump starts nothing. |
| SessionPump.WatchSessions.Notice | labs/claude-code-style/src/adapter.ts:1087-1092 | A session's notice is the modelled step. |
| SessionPump.WatchSessions.NoticeAll | labs/claude-code-style/src/adapter.ts:1088 | A resync or reconnect is the modelled step, as an opened session is. |
| SessionPump.WatchSessions.TimerFired | labs/claude-code-style/src/adapter.ts:1067-1070 | The retry timer is the modelled step. |
| SessionPump.WatchSessions.Stop | labs/claude-code-style/src/adapter.ts:1146-1151 | The caller's stop is the modelled step. |
| SessionPump.WatchSessions.Tell | labs/claude-code-style/src/adapter.ts:1071-1077 | A list is told only when it differs from the last told, and the caller may stop the watch as it hears. |
| SessionPump.WatchSessions.Listen | labs/claude-code-style/src/adapter.ts:1078-1096 | The subscription is replaced exactly when the listed sessions changed. |
| SessionPump.WatchSessions.EndPass | labs/claude-code-style/src/adapter.ts:1127-1132 | The end of a pass tells, listens, sets a retry when incomplete, and goes on. |
| SessionPump.WatchSessions.PassFailed | labs/claude-code-style/src/adapter.ts:1133-1136 | A pass that throws sets a retry if live, and goes on. |
| SessionPump.WatchSessions.SessionsListed | labs/claude-code-style/src/adapter.ts:1111 | One mode's listing landed. |
| SessionPump.WatchSessions.ModeRead | labs/claude-code-style/src/adapter.ts:1110-1117 | One mode's rows landed: on to the next mode, or the end of the pass with the new rows. |
| SessionPump.WatchSessions.DirtyRead | labs/claude-code-style/src/adapter.ts:1119-1126 | The rows of the noticed sessions still listed landed. |
| ThreadEntries.OneGrouping | labs/claude-code-style/src/adapter.ts:508-517 | Any two maximal groupings of the same parts are the same list, so the grouping specification has one solution. |
| ThreadEntries.DrawnShows | labs/claude-code-style/src/adapter.ts:501-567 | A filed task, a call, a failure, a brief, your line, an ending, a delegate's answer and a reply each draw their own kind; your line is marked exactly when some item of its turn filed a task, a result when its turn holds a line of yours, a reply when its turn failed before it completed; an item is left out exactly when it is none of these. |
| ThreadEntries.AddCall | labs/claude-code-style/src/adapter.ts:508-517 | A call joins the last entry's run exactly when that is a tool entry of its turn; the result is the maximal grouping with the call appended, and `runs` holds the last entry's calls. |
| ThreadEntries.Push | labs/claude-code-style/src/adapter.ts:501-567 | One turn of the loop extends the grouping by what its item draws. |
| ThreadEntries.OfferRetry | labs/claude-code-style/src/adapter.ts:568-573 | Retry is offered exactly on the failed entries of the turn that drew the last entry, if the engine will retry it, and nothing else changes. |
| ThreadEntries.EntriesOf | labs/claude-code-style/src/adapter.ts:491-574 | The entries are the one maximal grouping of what the items draw: the items that draw something, in order, each as one part, with adjacent calls of a turn as one entry. Which entry each kind of item draws, with its text, status and marks, is stated by the item's own fields and the other items of its turn; and retry as offered. |
| SessionPlace.IdSegment | apps/kitchen-sink/lib/harness-worktree.ts:93-103 | The loop builds the specified segment over any UTF-16 units. |
| SessionPlace.SpellsEach | apps/kitchen-sink/lib/harness-worktree.ts:95-99 | Wherever a unit stands in an id it is spelled the same: itself for `[a-z0-9-]`, `__` for `_`, and `_` with the four hex digits of its value for any other. |
| SessionPlace.PlainIsItself | apps/kitchen-sink/lib/harness-worktree.ts:79-103 | An id of plain units is its own segment up to 64 of them and `_h` with its digest beyond; the empty id is `_e`. |
| SessionPlace.EscapeRoundTrip | apps/kitchen-sink/lib/harness-worktree.ts:95-99 | The escape is undone exactly, lone surrogates included. |
| SessionPlace.SegmentRoundTrip | apps/kitchen-sink/lib/harness-worktree.ts:93-103 | A segment is read back as its id, or as its digest for a long id, over the plain, `__`, `_hhhh`, `_e` and `_h` forms. |
| SessionPlace.SegmentInjective | apps/kitchen-sink/lib/harness-worktree.ts:79-103 | Two ids share a segment if and only if they are equal or are two long ids whose digests collide. |
| SessionPlace.SegmentIsSafe | apps/kitchen-sink/lib/harness-worktree.ts:85-87 | A segment is not empty, has at most 66 units, and uses only `[a-z0-9_-]`. |
| SessionPlace.FlowKindIs | apps/kitchen-sink/lib/harness-worktree.ts:58-59 | The pattern lets in exactly the texts of plain units with no dash at either end and no two in a row. |
| SessionPlace.BranchSpells | apps/kitchen-sink/lib/harness-worktree.ts:106-123 | A branch is the root, the flow kind, the tenant's segment behind `--` if there is one, a slash and the session's segment; there is none exactly when the flow kind is not such a text. |
| SessionPlace.KindInjective | apps/kitchen-sink/lib/harness-worktree.ts:106-112 | The first segment determines the flow kind and the tenant, up to a digest collision, because the first `--` frames the tenant. |
| SessionPlace.BranchInjective | apps/kitchen-sink/lib/harness-worktree.ts:120-123 | Two sessions share a branch if and only if flow kind, optional tenant and session agree, up to digest collisions of long ids. |
| SessionPlace.BranchNeverNests | apps/kitchen-sink/lib/harness-worktree.ts:114-123 | No branch is a directory on the way to another. |
| ScheduleIndex.FindUnescapedColon | packages/bullmq/src/schedule-index.ts:87-93 | The loop, with its skip over escapes past the end, is true exactly when some colon has an even number of backslashes before it. |
| ScheduleIndex.EscapesByParity | packages/bullmq/src/schedule-index.ts:86-93 | A colon is unescaped exactly when an even number of backslashes stands before it, and a text ends in an unfinished escape exactly when an odd number ends it. |
| ScheduleIndex.EscapedKeyRoundTrip | packages/bullmq/src/schedule-index.ts:47 | An escaped key is read back and holds no unescaped colon. |
| ScheduleIndex.EscapesOnlyTheTwo | packages/bullmq/src/schedule-index.ts:47 | Escaping a key adds one character for each backslash and colon in it and none besides. |
| ScheduleIndex.IdNamesItsRow | packages/bullmq/src/schedule-index.ts:34-48 | Decoding an id gives its cell and key back if and only if the cell does not end in an unfinished escape; the sign after the prefix tells the two forms apart. |
| ScheduleIndex.IdsInjective | packages/bullmq/src/schedule-index.ts:34-48 | On such cells two ids are equal exactly when cell and key are. |
| ScheduleIndex.DanglingCellsCollide | packages/bullmq/src/schedule-index.ts:45-48 | Every cell that ends in an unfinished escape shares an id with another cell. |
| ScheduleIndex.IndexIsATable | packages/bullmq/src/schedule-index.ts:51-82 | Over any run of upserts and removes the queue holds, for each cell and key, exactly the plain table's row: its cron as the pattern, its timezone if not empty, and a job that carries its org, user, key, cron and timezone. |
| ScheduleIndex.NoStrayScheduler | packages/bullmq/src/schedule-index.ts:51-82 | Every scheduler in the queue is some row of the table. |
| ScheduleIndex.BullmqScheduleIndex.IdOf | packages/bullmq/src/schedule-index.ts:45-48 | The id is prefix, `:`, cell, `:` and key, or, for a cell with an unescaped colon, prefix, `@`, cell, `:` and the escaped key. |
| ScheduleIndex.BullmqScheduleIndex.UpsertRow | packages/bullmq/src/schedule-index.ts:51-70 | An upsert sets under the row's id a scheduler that carries the row's values, and no other scheduler changes. |
| ScheduleIndex.BullmqScheduleIndex.RemoveRow | packages/bullmq/src/schedule-index.ts:80-82 | A removal takes the row's scheduler and no other. |
| Parts.JoinSplit | apps/kitchen-sink/components/artifact-panel.tsx:83 | A title's parts join back to the title. |
| Parts.SplitJoin | apps/kitchen-sink/components/artifact-panel.tsx:83 | Parts without the separator are read back from their join. |
| ArtifactTree.MakeDirsOk | apps/kitchen-sink/components/artifact-panel.tsx:90-105 | Walking down a title's folders keeps every map's names distinct and gives each folder the path of its place. |
| ArtifactTree.MakeDirsFinds | apps/kitchen-sink/components/artifact-panel.tsx:93-108 | After the walk the folder the file goes to is found, whatever the maps held. |
| ArtifactTree.MakeDirsCounts | apps/kitchen-sink/components/artifact-panel.tsx:90-105 | Walking down moves and loses no file. |
| ArtifactTree.AddFileAdds | apps/kitchen-sink/components/artifact-panel.tsx:107-111 | Adding a file adds that file at its place and changes the count of nothing else. |
| ArtifactTree.FindByWalking | apps/kitchen-sink/components/artifact-panel.tsx:122-131 | The walk through the nested maps finds the folder at the parts, or none. |
| ArtifactTree.FlattenMap | apps/kitchen-sink/components/artifact-panel.tsx:133-142 | The recursive loop is the specified flattening. |
| ArtifactTree.FlattenKeeps | apps/kitchen-sink/components/artifact-panel.tsx:133-142 | Flattening keeps every file at its place, leaves no temporary map at any depth, and keeps sibling folder names distinct. |
| ArtifactTree.SortFromTop | apps/kitchen-sink/components/artifact-panel.tsx:145-155 | Sorting a level and then each folder's own is the specified sort. |
| ArtifactTree.SortTreeSorts | apps/kitchen-sink/components/artifact-panel.tsx:145-155 | Sorting keeps the tree finished and puts folders before files and each kind by name, at every level. |
| ArtifactTree.BuildTree | apps/kitchen-sink/components/artifact-panel.tsx:78-120 | For any titles, the tree holds each artifact exactly as often as it is listed, at the place its title's parts name and nowhere else; levels are sorted, sibling folders distinct, no folder empty, no temporary map left. |
| ArtifactTree.FoldersAreTitles | apps/kitchen-sink/components/artifact-panel.tsx:93-105 | There is a folder at a place exactly when the place is a proper prefix of some title's parts. |
| ArtifactTree.PathIsJoin | apps/kitchen-sink/components/artifact-panel.tsx:94 | The path of a place is the join of its names less the leading empty ones. |
| ArtifactTree.SamePath | apps/kitchen-sink/components/artifact-panel.tsx:93-98 | Two folders show one path if and only if their places agree past leading empty names. |
| ArtifactTree.UniqueExactly | apps/kitchen-sink/components/artifact-panel.tsx:78-120 | For any titles, all folder paths of the tree are unique if and only if no two different places that titles name agree past leading empty names. |
| ArtifactTree.PathsAreUnique | apps/kitchen-sink/components/artifact-panel.tsx:93-98 | In particular, when no title starts with a slash, a folder's path is the plain join of its names and belongs to one place. |
| ArtifactTree.LeadingSlashCollides | apps/kitchen-sink/components/artifact-panel.tsx:94 | The titles `/a/x` and `a/y` put two folders of path `a` in one tree. |
| Mailroom.NormalizedIsWords | labs/knowledge-hub/src/mailroom.ts:23-25 | A normalized text is its lower-cased words with one blank between. |
| Mailroom.NormalizesAlike | labs/knowledge-hub/src/mailroom.ts:23-25 | Two texts normalize alike exactly when they are the same words once lower-cased. |
| Mailroom.NormalizeIsNormal | labs/knowledge-hub/src/mailroom.ts:23-25 | Normalizing is idempotent and leaves no newline. |
| Mailroom.TupleLines | labs/knowledge-hub/src/mailroom.ts:49-56 | The tuple's lines are the conversation id's, one each for kind, content, situation and time, and the source's. |
| Mailroom.TupleDecodes | labs/knowledge-hub/src/mailroom.ts:49-56 | The six fields of every capture are read back from its tuple given how many newlines its conversation id holds; reading the first line as the id is right if and only if it holds none. |
| Mailroom.TupleIsTheCapture | labs/knowledge-hub/src/mailroom.ts:27-56 | Two captures agree in conversation, kind, words of content and situation, time and source, null and empty being one, if and only if their tuples are equal and their conversation ids hold equally many newlines. |
| Mailroom.FingerprintIsTheCapture | labs/knowledge-hub/src/mailroom.ts:41-58 | For conversation ids of equally many newlines, two fingerprints are equal exactly when the captures are the same or the digest collides on different tuples. |
| Mailroom.TwinExactly | labs/knowledge-hub/src/mailroom.ts:49-56 | A capture the schema lets in shares its tuple with a different one if and only if four other lines of the tuple read as a kind, two normalized texts and a time or none, between a conversation id and a source of the schema's lengths. |
| Mailroom.OnOneSide | labs/knowledge-hub/src/mailroom.ts:49-56 | Two such readings of a tuple never overlap, so the other one stands wholly among the conversation id's lines or wholly among the source's. |
| Mailroom.TradingTakesFourNewlines | labs/knowledge-hub/src/mailroom.ts:49-56 | Two captures the schema lets in that share a tuple are the same unless their conversation ids differ by at least four newlines, because the readings stand four lines apart. |
| Mailroom.ConversationTradesLines | labs/knowledge-hub/src/mailroom.ts:49-56 | Two small captures the schema lets in, of conversation ids `a` and `a`, `task`, `p`, `q`, an empty line and `z` on six lines, share a tuple and differ. |
| Inbox.IdIsTheKey | labs/knowledge-hub/src/inbox.ts:127-130 | A stored path gives its key back as the id. |
| Inbox.KeysAreInjective | labs/knowledge-hub/src/inbox.ts:111-120 | A key names one kind and one fingerprint, and a kind's prefix selects exactly that kind's keys. |
| Inbox.Store.LookUp | labs/knowledge-hub/src/flow.ts:120-133 | A pending record under the capture's key is answered as a duplicate; anything else is a miss. |
| Inbox.Store.Create | labs/knowledge-hub/src/flow.ts:144-157 | The write puts under the capture's key a pending record of every field as it came, with the fingerprint and the answered time, replacing what stands there by then and no other. |
| Inbox.Store.LogActivity | labs/knowledge-hub/src/flow.ts:119-158 | Uninterrupted, a capture is answered by its pending twin and changes nothing, or puts exactly one record and names it. |
| Inbox.OneRecordEach | labs/knowledge-hub/src/flow.ts:135-156 | In every interleaving of captures and sweeps each record stands under the key of its own kind and its own fields' fingerprint, and no kind and fingerprint has two. |
| Inbox.RecordsAreVerbatim | labs/knowledge-hub/src/flow.ts:123-157 | In every interleaving each record holds, field by field, the capture of an earlier lookup, as the write of that same call put it at its own time. |
| Inbox.OnlySweepEndsPending | labs/knowledge-hub/src/inbox.ts:86-91 | No step removes a record, and a pending record stops being pending exactly when it is swept. |
| Inbox.AnswerNamesTheRecord | labs/knowledge-hub/src/flow.ts:127-157 | An answer names the capture's own record, pending at that step, and its capture time. |
| Inbox.RetryIsHarmless | labs/knowledge-hub/src/flow.ts:123-133 | In every run, retrying an answered capture before its record is swept answers the same id as a duplicate and leaves the state as it was. |
| Inbox.CaptureIsKept | labs/knowledge-hub/src/flow.ts:135-157 | In every run, until a sweep the record an answer named is pending and its own; for conversation ids of equally many newlines it is the answered capture up to what the fingerprint ignores, or the digest collides. |
| Inbox.ListedUnderItsId | labs/knowledge-hub/src/flow.ts:203-233 | Until it is swept, an answered capture read from the store is listed as pending under the answered id, with the kind, content, situation and conversation its record holds, or the list is full and shows nothing older. |
| Inbox.PendingIsListed | labs/knowledge-hub/src/flow.ts:210-230 | Every pending row read is listed with its own values, a row from before the rename with its `context` as the situation, or the list is full and shows nothing older. |
| Inbox.OrderIsThePending | labs/knowledge-hub/src/flow.ts:210-212 | The listing's order holds every pending row as often as it was read, and no swept one. |
| Inbox.ListsTheNewest | labs/knowledge-hub/src/flow.ts:207-237 | What is listed are pending rows, as many as fit, each no newer than those before it, and none left out is newer than one shown. |
| Inbox.OldestIsOldest | labs/knowledge-hub/src/flow.ts:238-239 | The oldest time reported is a pending row's and no newer than any pending row's, whatever the limit. |
| Inbox.OldestWhenPending | labs/knowledge-hub/src/flow.ts:238-239 | No oldest time is named exactly when no row read is pending. |
| Concepts.FrontmatterToState | examples/knowledge-base/src/concepts.ts:77-107 | The import computes the specified state, and warns, in these words, exactly when the type is missing, empty or no string. |
| Concepts.ImportReads | examples/knowledge-base/src/concepts.ts:82-107 | Each text field is nothing, the text, or what its value shows as; tags are read only from a list, item by item; the extras are every other key once, by name, each with its value serialized; the type is the text that is there or `concept`. |
| Concepts.StateToFrontmatter | examples/knowledge-base/src/concepts.ts:115-128 | The export sets the specified entries in order, and fails exactly when an emitted text does not parse. |
| Concepts.ExportWrites | examples/knowledge-base/src/concepts.ts:115-126 | Each known field of an export holds that field's own text or tags; an empty one holds what the first extra of its name parses to, or nothing. |
| Concepts.ExportsInOrder | examples/knowledge-base/src/concepts.ts:115-127 | Entries are set without repeats in a fixed order: `type`, then the other known fields that hold something, then the rest by name. |
| Concepts.RoundTrip | examples/knowledge-base/src/concepts.ts:77-128 | Import after export is the identity without a warning if and only if the type is not empty and the extras are sorted, distinct, outside the known fields and the names every object inherits, and each the text its value serializes to. |
| Concepts.SecondPassChangesNothing | examples/knowledge-base/src/concepts.ts:109-128 | Exporting an imported concept and importing it again gives the same state without a warning if and only if no key of its frontmatter is a name every JavaScript object inherits. |
| Concepts.SettlesAfterOneExport | examples/knowledge-base/src/concepts.ts:77-128 | Whatever was imported, its export imports to a state that export and import give back. |
| Concepts.UnknownKeysSurvive | examples/knowledge-base/src/concepts.ts:91-126 | What becomes of every unknown key by import and export: it keeps the value its text parses to, unless every object inherits its name, and then it is lost. |
| Concepts.InheritedNameIsLost | examples/knowledge-base/src/concepts.ts:123-125 | A frontmatter whose one key is `toString` exports without it. |
| Concepts.TypedFieldWins | examples/knowledge-base/src/concepts.ts:116-126 | A known field that holds something is exported as it is; an empty one is written with what the first extra of its name parses to, and is absent only when there is none. |
| Concepts.ExtraTakesTheTitle | examples/knowledge-base/src/concepts.ts:109-126 | An extra named `title` beside an empty title is exported as the title and does not come back as it was. |
| HarnessTurns.TurnsAreTheRequests | apps/kitchen-sink/lib/harness-turn.ts:63-85 | Every request that some item names is a turn, once, and no other is. |
| HarnessTurns.TurnsInStartOrder | apps/kitchen-sink/lib/harness-turn.ts:348-354 | They stand in the order they started: the first n are the turns of some beginning of the items. |
| HarnessTurns.TurnNumbers | apps/kitchen-sink/lib/harness-turn.ts:352-356 | The loop numbers each turn by its place, from 1. |
| HarnessTurns.NumbersAreABijection | apps/kitchen-sink/lib/harness-turn.ts:352-356 | Turns and the numbers from 1 to their count correspond one to one. |
| HarnessTurns.NumbersStay | apps/kitchen-sink/lib/harness-turn.ts:348-356 | Appending items changes no turn's number. |
| HarnessTurns.LatestTurnOf | apps/kitchen-sink/lib/harness-turn.ts:74-93 | The loop over the items gives the turn that started last, its number and how it stands. |
| HarnessTurns.LatestStands | apps/kitchen-sink/lib/harness-turn.ts:41-92 | The latest turn is shown stopped, completed, failed, waiting or running exactly by its stop item and, when the stream is over and the request list names it, by which of the seven statuses the list gives. |
| HarnessTurns.LatestHasTheLastNumber | apps/kitchen-sink/lib/harness-turn.ts:74-93 | The latest turn is numbered as the numbering says, no turn is numbered higher, and there is one as soon as there is an item. |
| HarnessTurns.TurnWaitingOnApproval | apps/kitchen-sink/lib/harness-turn.ts:105-115 | The first record that waits, has not ended and whose stop item is not among the items, exactly when there is one. |
| HarnessTurns.StoppedAndWaiting | apps/kitchen-sink/lib/harness-turn.ts:86-115 | A latest turn shown stopped can never be the one waiting, whatever the records, if and only if the items hold its stop item. |
| HarnessTurns.StoppedByTheListAlone | apps/kitchen-sink/lib/harness-turn.ts:86-115 | One plain item, an aborted request and a waiting record are shown both ways at once. |
| HarnessTurns.EarliestTurnOf | apps/kitchen-sink/lib/harness-turn.ts:366-378 | A named turn of the least time, the first listed among equals, a missing time counting as last; none exactly when no record names the conversation. |
| HarnessTurns.TopicReads | apps/kitchen-sink/lib/harness-turn.ts:276-306 | A topic's run is its first two names and its row key all that follows them. |
| HarnessTurns.PlacesAdd | apps/kitchen-sink/lib/harness-turn.ts:307 | A row's place is its key read as a decimal number. |
| HarnessTurns.PanelKind | apps/kitchen-sink/lib/harness-turn.ts:292-321 | Which panel is shown, its scope, and the turn it is labelled with when it shows no rows or a turn's own. |
| HarnessTurns.PanelReads | apps/kitchen-sink/lib/harness-turn.ts:297-320 | The whole panel in the input's own terms: of the runs that rows and list markers name, the last by number, with its first list marker, decides; a list called complete with no place is empty, and any other shows that run's rows below the count, as often as recorded and by key, with the marker's reason when it is incomplete or was cut off, or else that of predating. |
| HarnessTurns.PointersAreIgnored | apps/kitchen-sink/lib/harness-turn.ts:297-302 | A run's pointer marker, anywhere among the markers, changes nothing the panel shows. |
| HarnessTurns.NoPlanMeansNothingRecorded | apps/kitchen-sink/lib/harness-turn.ts:301-313 | With the record declared and a turn there, the panel finds no plan exactly when there is no row and no list marker; the second test for it never decides. |
| HarnessTurns.ShowsTheLastRun | apps/kitchen-sink/lib/harness-turn.ts:298-309 | The rows shown are those of the named run last by number, and below its marker's count, each as often as it is recorded, in key order. |
| HarnessTurns.ShowsEveryRow | apps/kitchen-sink/lib/harness-turn.ts:299-309 | Every row recorded for the run shown, the last by number, is shown if and only if each has a decimal place below the marker's count, or no count is given. |
| HarnessTurns.WritingAfterTheEndIsIncomplete | apps/kitchen-sink/lib/harness-turn.ts:288-311 | Once the turn has ended, calling every marker that is still writing incomplete changes nothing the panel shows. |
| HarnessTurns.PredatingOnlyAddsAReason | apps/kitchen-sink/lib/harness-turn.ts:319 | That a conversation predates kept plans adds its reason to a list that has none of its own, and changes nothing else in any panel. |
| HarnessTurns.LabelledByTheLastChange | apps/kitchen-sink/lib/harness-turn.ts:315-318 | A conversation's plan is labelled with the highest number among the turns known to have written a row of that run. |

## Left out

- Redis, BullMQ and ioredis: a script is one atomic step, a queue is a map of jobs, and a job's state is whatever the model's environment says. Connections, closing and error events are not modelled.
- The worker and the engine's concurrency arbiter: they are not in the modelled files, so the lease properties are stated at the backend's interface.
- Redis `TIME` is taken as non-decreasing, and one `leaseMs` serves a deployment. A ticket is drawn in the step that takes its place, and drawn tickets do not repeat.
- SHA-256 is an arbitrary function of its input (to 64 hex digits where that matters). It is not taken as injective, which no function from all texts to 64 digits is; statements name the collision instead.
- NoticeWatch: a value is its JSON text; only notices that reach the watch are modelled, not gaps in the subscription; callbacks do not throw, except that they may stop the watch.
- SessionPump: the list told is compared as a map from session to row text, so the sort by `updatedAt` is not modelled; there is at least one mode; reads inside one `Promise.all` land together; `rowOf` is abstract; only notices that reach the pump are modelled, not those that fall in a gap of its subscription; a waiting retry carries no delay here; the change callback does not throw, though it may stop the list.
- ThreadEntries: `parseNotice`, `delegateAnswerOf`, `taskBriefOf`, `callOf`, `toolRun` and `resultSummary` are abstract, and a result's title and a failure's code and details are not carried.
- SessionPlace: the git host, the directories and `locateSessionWorktree` are not modelled, only the names.
- ScheduleIndex: job schedulers fire outside the model, and `claimDue` returns nothing.
- ArtifactTree: a folder and the map it hangs in are values, so the aliasing of one folder object from its map and from `findFolder` is not captured; the walk that makes folders is a recursion over values rather than the loop that reassigns the current map; `localeCompare` is an abstract total preorder. The React parts are left out.
- Mailroom: lower-casing is taken character by character, so the contextual final sigma is not modelled; a date and time is any text of one line with a `T` in it, which its schema check ensures; lengths count characters where the schema counts UTF-16 units, and lone surrogates are not modelled.
- Inbox: the sweeper is not in the repository, so a sweep is taken to change a record's status alone; schema checks on the input, sessions and authentication are not modelled. A record's JSON storage is the value itself.
- Concepts: the YAML library's parser and serializer are functions assumed stable (each written text parses, and serializes to itself) where a statement says so; JavaScript's own key order for integer-like keys is outside the model. Links, edges and the markdown body are left out.
- HarnessTurns: decimal keys are exact integers rather than rounded doubles, a marker's count is an integer, and the numeric collation is an abstract total preorder. `turnNotice`, `planSource` and `planRowStage` are case tables with no invariant and are left out.
