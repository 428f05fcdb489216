# The Relay's protocols, modelled and proved

The Relay runs beside the servers and Apps it manages. This project models the
parts of it whose correctness rests on order: output fanned out to many
viewers, a sliding console log, files swapped in through crashes, changes run
once under an ID, Apps stopped and started around a backup, writes to a
database that can be stopped until they are granted, sessions ended by a
revision, and two small readers of text. Each module is one part, in the form
its source has: objects whose handlers change fields are classes, and what
several processes or requests do at once is a machine over its steps.

- `TerminalFeed`, `TerminalSession`, `TerminalJoins`, `SequenceBoundary`: a
  terminal session, its retained window, numbered state changes and viewers,
  runs of it in which viewers join oddly, and the automaton that finds where its
  output can be taken up by a new terminal. A viewer's feed is defined from the
  session's log alone, and the fan-out is held to it.
- `ConsoleFrames`, `ConsoleHub`: console lines cut and batched to fit frames,
  and the hub that sends them, newest first, through a cache.
- `RestoreJournal`: a restore, its journal, and recovery. A list of fates says
  how each thing asked of the disk goes: it works, throws, or the Relay crashes
  in it, before, midway or after.
- `OperationJournal`: changes under operation IDs. Requests, journal reads and
  writes, runs and restarts are events, in any order.
- `BatchWindow`, `StoppedApps`: a batch's barrier, and the journal of Apps a
  stopped backup owes a start.
- `SqlSplitter`, `SqlTokens`, `SqlEdits`, `CommitHandshake`: a script's
  statements, what a script is made of, a batch of row edits, and the handshake
  by which a worker's commit is granted.
- `SessionRegistry`, `Outbox`: browser sessions, their limits and revision
  floors, and one browser's queue of messages.
- `DeploymentLog`, `LineReader`: a deployment's log and its followers, and a
  process's output read line by line.

`Sequences` and `Options` hold what the others share.

Escape sequences follow ECMA-48 (sections 5.4 and 5.6) and characters RFC 3629
(section 3), with BEL as another end of a control string; JSON strings follow
RFC 8259 (section 7), with lone surrogates escaped. Where the automaton
and ECMA-48 differ, the model does as the code: after ESC and intermediate
bytes, `[` opens a control sequence, so the units it is proved against have no
such escape sequence.

Some things the source or its comments lead a reader to expect aren't so, and
the model says exactly when they are:

- Answering that a restore isn't complete can still mean the restored files
  are in place (`RestoreJournal.FalseForRestored`; when, in
  `RestoreJournal.Disk.Settle`).
- A batch that couldn't stop its Apps forgets those that wouldn't start again
  (`StoppedApps.FailedBatchForgets`; exactly when,
  `StoppedApps.Power.FinishUnstopped`).
- A cut console line isn't always the longest that fits: a split surrogate pair
  encodes longer than the whole one, and the search can meet it
  (`ConsoleFrames.PairLost`, `ConsoleFrames.EmojiLost`; exactly when, and by how
  little, `ConsoleFrames.KeepsLongest`).
- A cached history frame holds the session's lines, but isn't always what would
  be made now (`ConsoleHub.CachedMayDiffer`, `ConsoleHub.FirstLineDiffers`;
  exactly when, `ConsoleHub.CachedIsRemade`).
- A failed read of the journal tells a repeat of the failure, whatever its
  change came to (`OperationJournal.MisreadMisleads`; when that is still true of
  the change, `OperationJournal.MisreadAnswers`).
- A granted commit can be killed after all, by the interruption of an earlier
  job of its worker just as that job's reply arrives
  (`CommitHandshake.KillsAnothers`; which kills can do so,
  `CommitHandshake.KillsItsOwn`).
- A session or transfer beginning can raise its issuer's generation and leave
  older sessions active that are no longer current
  (`SessionRegistry.LeftBehind`; exactly when, `SessionRegistry.SessionsKeep`
  and `SessionRegistry.TransfersKeep`).
- A terminal's viewer can join in a later state than its screen's, never shown
  the changes between (`TerminalJoins.JoinSkips`; exactly when,
  `TerminalSession.JoinMisses`).
- It can also join before the output the state it joins in belongs to: as its
  screen's state changed amid a sequence (`TerminalJoins.JoinsMidSequence`), or
  after more changes than are kept (`TerminalJoins.JoinsPastMany`; exactly when,
  `TerminalSession.JoinsAhead`).
- A later edit of the same loaded row can overwrite an earlier one's blob, if
  that looks the same as far as it was loaded (`SqlEdits.LaterEditOverwrites`;
  exactly which edits can, `SqlEdits.LaterEditMisses`).

## Model

| member | source | states |
|---|---|---|
| `TerminalFeed.FeedIsBetween` | apps/relay/src/container-terminal.ts:555-617 | Telling a session from its log, in order, less what a snapshot showed, is telling it from its output and numbered changes from the viewer's position to the end |
| `TerminalFeed.StandingIsPrefix` | apps/relay/src/container-terminal.ts:571-585 | What lies between where a viewer joined and a point it can stand at is a prefix of what lies up to any later one |
| `TerminalFeed.SentIsPrefix` | apps/relay/src/container-terminal.ts:555-617 | A viewer standing anywhere it can has had a prefix of its feed |
| `TerminalSession.PushMovesOn` | apps/relay/src/container-terminal.ts:577-613 | A push that fits moves its viewer from one place it can stand to the next and shows exactly what lies between |
| `TerminalSession.NextPushFits` | apps/relay/src/container-terminal.ts:571-586 | The next push, taken from the retained window alone, carries the change due here, or output up to no further than the next change, of the whole session |
| `TerminalSession.KeptFrom` | apps/relay/src/container-terminal.ts:482-488 | Of the changes, keeps the last one at or before the retained output's start and all after it |
| `TerminalSession.LostMeans` | apps/relay/src/container-terminal.ts:562-570 | A viewer can't be caught up from what is kept exactly if more than 512 KiB of output came since what it had, or more changes than are kept |
| `TerminalSession.JoinFits` | apps/relay/src/container-terminal.ts:261-272 | A viewer attaching with a serialized screen stands where every change it is still to be shown applies no earlier than its output resumes |
| `TerminalSession.JoinMisses` | apps/relay/src/container-terminal.ts:265-277 | It is owed all its screen doesn't show exactly if the screen's state is still kept; else its feed leaves out the changes up to the oldest kept, whose state it joins in |
| `TerminalSession.JoinsAhead` | apps/relay/src/container-terminal.ts:265-277 | The state it joins in takes effect past where its output resumes exactly in two cases: its screen's own state changed past the last boundary the screen had parsed, or that state is no longer kept and the oldest that is comes later, when, unless the viewer is lost, as many changes as are ever kept are |
| `TerminalJoins.JoinsMidSequence` | apps/relay/src/container-terminal.ts:265-277 | A session in which a viewer joins so in the first case, with no change missed |
| `TerminalJoins.JoinsPastMany` | apps/relay/src/container-terminal.ts:265-277 | And one in the second |
| `TerminalJoins.JoinSkips` | apps/relay/src/container-terminal.ts:265-277 | A session in which a viewer joins in a state later than its screen's: a claim and output arrive while its serialized screen is yet to reach it |
| `TerminalSession.QueuedParse` | apps/relay/src/container-terminal.ts:489-493 | The screen's pending writes still lead to the session's end once more output is queued |
| `TerminalSession.TellsOrder` | apps/relay/src/container-terminal.ts:557-617 | In any state that fits, what a viewer was sent is a prefix of its feed, as long as its offset and state number say |
| `TerminalSession.Session.Flush` | apps/relay/src/container-terminal.ts:557-617 | Leaves no viewer with something to send and nothing under way, and drops only those that fell further behind than what is kept; with nobody so it starts pushes and does nothing else |
| `TerminalSession.Session.DropViewer` | apps/relay/src/container-terminal.ts:619-631 | The viewer is gone, and if it was in control the next change, at the output's end, puts nobody in control |
| `TerminalSession.Session.Change` | apps/relay/src/container-terminal.ts:351-382 | A change of state gets the next number and the output's current end as its offset; none is recorded for the same state |
| `TerminalSession.Session.Data` | apps/relay/src/container-terminal.ts:476-495 | Output joins the session's log once, whole; as much of it is retained as may be, and of the changes the last at or before that and all after; and only viewers that more output or more changes came after than are kept are dropped |
| `TerminalSession.Session.Answer` | apps/relay/src/container-terminal.ts:588-615 | An accepted push adds exactly what it showed to what its viewer has had, something unless it was the last; a refused one adds nothing, and its viewer goes |
| `TerminalSession.Session.Claim` | apps/relay/src/container-terminal.ts:323-348 | A page attached takes control with its size, and one that isn't leaves the session as it was |
| `TerminalSession.Session.Detach` | apps/relay/src/container-terminal.ts:309-315 | The page is gone, as is its control, and what others have been sent is unchanged |
| `TerminalSession.Session.TakeWrite` | apps/relay/src/container-terminal.ts:489-493 | As the screen takes its next write, every screen serialized still resumes at its last boundary, or where it had parsed |
| `TerminalSession.Session.Join` | apps/relay/src/container-terminal.ts:246-292 | A viewer joins at its screen's offset and state, or the earliest state retained, having been sent nothing |
| `TerminalSession.Session.Finish` | apps/relay/src/container-terminal.ts:515-553 | The session ends, with everyone attached being sent more of their feed or the ending, and only viewers further behind than what is kept dropped |
| `TerminalSession.Session.SentInOrder` | apps/relay/src/container-terminal.ts:555-617 | No byte lost or repeated, each change once, in order, at its offset: what a viewer was sent is a prefix of its feed from where it joined, and one told of the ending has had all the output |
| `TerminalSession.Session.Run` | apps/relay/src/container-terminal.ts:160-631 | The same after any events in any order, for every viewer there ever was, each of which keeps where it joined and what it has had |
| `SequenceBoundary.RunConcat` | apps/relay/src/container-terminal.ts:819-827 | The automaton ends the same however the output is cut into chunks |
| `SequenceBoundary.BoundaryIsGreatest` | apps/relay/src/container-terminal.ts:810-827 | The boundary is the greatest point between sequences and characters, and the only such |
| `SequenceBoundary.FreshFromBoundary` | apps/relay/src/container-terminal.ts:810-827 | A fresh automaton started at the boundary ends in the running one's state and finds the same later boundaries |
| `SequenceBoundary.BetweenOnlyAtEnds` | apps/relay/src/container-terminal.ts:829-874 | The automaton is between sequences and characters exactly at the two ends of each well-formed unit |
| `SequenceBoundary.ResumesAtUnit` | apps/relay/src/container-terminal.ts:810-827 | Output that stops inside a unit resumes from that unit's start |
| `SequenceBoundary.Boundary.Advance` | apps/relay/src/container-terminal.ts:819-827 | Answers the last boundary of all output so far |
| `SequenceBoundary.Boundary.StepByte` | apps/relay/src/container-terminal.ts:829-874 | In place, one byte's step of the automaton |
| `ConsoleFrames.FitConsoleLine` | apps/relay/src/console-frames.ts:131-159 | The loop finds the line as defined: itself if it fits, else unstyled, else cut where a search by halves ends; it fits whenever its bare suffix does |
| `ConsoleFrames.TextWritten` | apps/relay/src/console-frames.ts:131-159 | The bytes a text is measured by are those it takes as a JSON string in UTF-8, lone surrogates escaped |
| `ConsoleFrames.KeepsLongest` | apps/relay/src/console-frames.ts:141-158 | A cut keeps the longest start that fits unless it has a pair that fits whole and not by half, which it has once at most, and then exactly if halving its length does not land inside that pair before the one or two longer cuts that fit; if it does, what is before the pair is kept, at most three units short |
| `ConsoleFrames.GapTried` | apps/relay/src/console-frames.ts:144-157 | Whether the search tries the cut inside such a pair depends only on the text's length, where the pair is, and whether one more unit would fit after it |
| `ConsoleFrames.PairLost` | apps/relay/src/console-frames.ts:141-158 | Of a line whose middle takes such a pair apart the pair is left out, though the cut after it fits |
| `ConsoleFrames.EmojiLost` | apps/relay/src/console-frames.ts:141-158 | Such a line: an emoji between equal runs of letters |
| `ConsoleFrames.EncodeNewestBatch` | apps/relay/src/console-frames.ts:72-110 | A batch holds exactly the lines from its start to its end, each as it fits a frame and all but the newest whole, makes progress, is within its budget or is one line that fits a frame, and no older line would fit in too |
| `ConsoleFrames.BatchReads` | apps/relay/src/console-frames.ts:37-58 | A batch is what begins it, each line's JSON in order with commas between, and whether there are older ones |
| `ConsoleFrames.BatchGrows` | apps/relay/src/console-frames.ts:81-104 | A batch is longer for each older line that joins it, so the start found is the least |
| `ConsoleHub.SentFits` | apps/relay/src/browser-socket.ts:1839-1891 | A part that continues what was sent at either end leaves no gap, and repeats nothing if it ends exactly where that began |
| `ConsoleHub.AppendKeeps` | apps/relay/src/browser-socket.ts:1585-1602 | A line appended, whatever is trimmed for it, moves no line's position, leaves cached frames true, and extends what each browser has |
| `ConsoleHub.BackfillKeeps` | apps/relay/src/browser-socket.ts:1711-1769 | Older output put first moves no position, leaves cached frames true, and is sent on from where each browser's history ended |
| `ConsoleHub.BackfillRepeats` | apps/relay/src/browser-socket.ts:1711-1769 | Nothing is sent twice when backfill brings back no line trimmed before |
| `ConsoleHub.AdvanceKeeps` | apps/relay/src/browser-socket.ts:1857-1883 | A frame that holds the lines before a reader's position leaves its browser with no gap |
| `ConsoleHub.ResetKeeps` | apps/relay/src/browser-socket.ts:1785-1834 | A first frame of the newest lines begins what a browser has |
| `ConsoleHub.ReplaceKeeps` | apps/relay/src/browser-socket.ts:1644-1664 | A new session's lines and positions begin afresh, with no reader or frame of the last one's |
| `ConsoleHub.RemadeIsSame` | apps/relay/src/browser-socket.ts:1893-1925 | A frame made when it had older lines is what would be made of the session later on, exactly unless lines of it were trimmed, or the line before it was the oldest, a byte too long to be the first of all, and is known not to be any more |
| `ConsoleHub.ChangesAreLater` | apps/relay/src/browser-socket.ts:1585-1769 | Whatever sequence of output appended, trimmed and put first, with anything else between, only goes on with the session: no line moves or changes, and that older ones are missing stays known |
| `ConsoleHub.RemadeAfterAny` | apps/relay/src/browser-socket.ts:1893-1925 | So a frame made again after any such sequence is the same exactly under that condition |
| `ConsoleHub.CachedIsRemade` | apps/relay/src/browser-socket.ts:1894-1898 | The same of every frame in a hub's cache at any time, which was made so once |
| `ConsoleHub.CachedMayDiffer` | apps/relay/src/browser-socket.ts:1893-1925 | A cached frame stops being what would be made as backfill puts a line before such a one |
| `ConsoleHub.FirstLineDiffers` | apps/relay/src/browser-socket.ts:1893-1925 | Such a hub, of two lines, whose cached frame backfill leaves in place and no longer what would be made |
| `ConsoleHub.Hub.Trim` | apps/relay/src/browser-socket.ts:1606-1622 | Drops the oldest lines until within both budgets, and no more, keeping the counts and IDs of those left |
| `ConsoleHub.Hub.Append` | apps/relay/src/browser-socket.ts:1585-1602 | A line already there or from before the session changes nothing; any other is kept once and sent to every browser as it fits a frame |
| `ConsoleHub.Hub.HistoryFrame` | apps/relay/src/browser-socket.ts:1893-1925 | A frame kept for the position is sent as it is; one made now holds the newest lines before it that fit a frame, each as it fits, and says there are older ones exactly when there are or were |
| `ConsoleHub.Hub.Remember` | apps/relay/src/browser-socket.ts:1914-1923 | Of the frames kept the oldest are dropped, exactly while they are over budget together |
| `ConsoleHub.CharactersOfOne` | apps/relay/src/browser-socket.ts:1914-1923 | A frame's length counts each character of its encoding once, or twice past the basic plane |
| `ConsoleHub.CharactersMean` | apps/relay/src/console-frames.ts:53-60 | And a line's counts its text and its segments' |
| `ConsoleHub.Hub.ReaderStep` | apps/relay/src/browser-socket.ts:1848-1891 | A reader sends the frame ending at its position and goes on from its start, or ends once it has reached the oldest line kept; the frames kept go with the last reader |
| `ConsoleHub.Hub.DeliverSession` | apps/relay/src/browser-socket.ts:1785-1834 | A browser gets as many of the newest 200 lines as fit one small frame, each as it fits, and older ones from exactly before it |
| `ConsoleHub.Hub.Add` | apps/relay/src/browser-socket.ts:1406-1420 | A browser that joins has a view up to the newest line, with nothing sent twice |
| `ConsoleHub.Hub.Backfill` | apps/relay/src/browser-socket.ts:1711-1769 | Keeps the newest of the older lines there is room for, at the positions before the oldest kept |
| `ConsoleHub.FreshKeepsOrder` | apps/relay/src/browser-socket.ts:1711-1769 | Of the older lines every one whose ID isn't known is taken, in its order |
| `ConsoleHub.Hub.ReplaceSession` | apps/relay/src/browser-socket.ts:1644-1664 | Every browser starts over with the new session, kept within budget |
| `ConsoleHub.Hub.SentWithoutGaps` | apps/relay/src/browser-socket.ts:1839-1847 | What a browser was sent covers one unbroken stretch of the session up to its newest line, each line as it fits its frame, and once unless backfill brought trimmed lines back |
| `RestoreJournal.Disk.Prepare` | apps/relay/src/backup-restore.ts:106-127 | Through any failure or crash the original stays in place, what an earlier restore left beside it goes, and the journal says at most that extraction began |
| `RestoreJournal.Disk.Extract` | apps/relay/src/backup-restore.ts:72-87 | Only the staging tree changes, and it is wholly the backup's if it succeeds |
| `RestoreJournal.Disk.Install` | apps/relay/src/backup-restore.ts:138-163 | A crash or failure at any step leaves what recovery by the journal on disk settles, and a failure what the phase known in memory settles |
| `RestoreJournal.Disk.Settle` | apps/relay/src/backup-restore.ts:541-588 | Of anything a restore leaves, ends with one whole tree and no leftovers, the restored one exactly when the trees or preference say so; cut short itself it changes nothing of how a later one ends; its answer differs from the tree in place exactly if the restored one was there with the rollback gone, and not on record as installed |
| `RestoreJournal.Disk.SettleInstalled` | apps/relay/src/backup-restore.ts:553-563 | Of a restore on record as installed, keeps the tree in place, or else puts the restored one there, or else the original, answering success for the first two alone |
| `RestoreJournal.Disk.SettleTrees` | apps/relay/src/backup-restore.ts:546-584 | Its swap of the trees, through any fate of each rename and removal |
| `RestoreJournal.Disk.Restore` | apps/relay/src/backup-restore.ts:60-104 | Answering success means the restored tree is in place; a failure before the files were installed puts the original back; it goes down exactly as what it asks of the disk does, stops at its first failure but to settle it, and succeeds if all works |
| `RestoreJournal.Disk.Recover` | apps/relay/src/backup-restore.ts:170-189 | Recovery that is itself cut short stays recoverable and ends as it would have; only `true` means restored |
| `RestoreJournal.Life` | apps/relay/src/backup-restore.ts:60-189 | Through any fates of a restore and of recovery again and again, the server ends with wholly one tree, as the trees stood when the restore stopped, and nothing beside it, and its answers are true |
| `RestoreJournal.FalseForRestored` | apps/relay/src/backup-restore.ts:541-588 | A run of a restore and two recoveries, each cut short but the last, which answers `false` with the restored tree in place |
| `OperationJournal.ForgetsOldest` | apps/relay/src/control-socket.ts:2246-2255 | Memory forgets the oldest first, and only what lapsed or what makes room |
| `OperationJournal.RecordTells` | apps/relay/src/control-socket.ts:2296-2310 | Writing how a change went and reading it back tells the same, less its reply |
| `OperationJournal.AnswerIsHonest` | apps/relay/src/control-socket.ts:2313-2348 | An answer that fits a change never tells success for failure or the reverse, and is the conflict exactly for another request's digest |
| `OperationJournal.StepKeeps` | apps/relay/src/control-socket.ts:1103-1217 | Every event keeps claims, memory, journal and answers in agreement with the changes truly made |
| `OperationJournal.StepLeaves` | apps/relay/src/control-socket.ts:1103-1217 | No event undoes a start, a result, a run or an answer |
| `OperationJournal.AtMostOnce` | apps/relay/src/control-socket.ts:1103-1217 | In any run, restarts and failed writes included, no change runs twice, none runs that isn't in the journal, and none succeeded that didn't run |
| `OperationJournal.WriteTells` | apps/relay/src/control-socket.ts:1222-1248 | A write of how a change went that goes through leaves just that in the journal, and is due again for as long as none is known to have |
| `OperationJournal.RestartForgets` | apps/relay/src/control-socket.ts:1103-1217 | A restart leaves nothing but the journal, and cuts off exactly those yet to be answered |
| `OperationJournal.TrueAnswers` | apps/relay/src/control-socket.ts:1112-1215 | While a change's journal reads succeed, everyone answered of it once it is recorded as started is told how it went, or less, and a different digest learns of the conflict: from the beginning, or from when memory keeps nothing a failed read left |
| `OperationJournal.MemoryClears` | apps/relay/src/control-socket.ts:2268-2277 | It keeps nothing so after a restart, or once a request finds the change's time in memory up; neither tells anyone something false |
| `OperationJournal.NoneForgotten` | apps/relay/src/control-socket.ts:1121-1131 | Every request is answered, was cut off by a restart, or waits for a claim still held |
| `OperationJournal.LookupsTellTruly` | apps/relay/src/control-socket.ts:1076-1093 | Looking up a change recorded as started, which no failed read hid, tells that it runs exactly while it is claimed; success, and any reply, only of a change that succeeded with it; a failure only of one that ended in just that; and never that it is unknown |
| `OperationJournal.LookupsTellKept` | apps/relay/src/control-socket.ts:1076-1093 | A change not under way is told exactly as memory has it, or else as the journal does: its reply if kept, its own failure, or that it was cut off only if its end was never written; and unknown only if neither has it |
| `OperationJournal.ClaimsSettle` | apps/relay/src/control-socket.ts:1203-1215 | A claim always has a next step, which takes it nearer its end or answers everyone it holds |
| `OperationJournal.ClaimsEnd` | apps/relay/src/control-socket.ts:1203-1217 | From any state a claim can be run to its end, which answers everyone it holds and lets its ID go |
| `OperationJournal.MisreadAnswers` | apps/relay/src/control-socket.ts:1203-1216 | Those a failed journal read has answered are told the failure, or of a conflict, which fits the change exactly if it is how that ended, or says no more than that its result is unavailable or it was cut off |
| `OperationJournal.MisreadMisleads` | apps/relay/src/control-socket.ts:1151-1216 | A failed read has a true repeat of a change told something false, unless the failure is just how the change ended or admits not to know |
| `OperationJournal.EndTellsAll` | apps/relay/src/control-socket.ts:1141-1152 | As a change ends, everyone waiting is answered its own outcome, or the conflict, and memory has it |
| `OperationJournal.RepeatTold` | apps/relay/src/control-socket.ts:1131-1132 | While memory has a change a repeat is told that outcome at once, its reply too unless it was too large to keep |
| `OperationJournal.Operations.Remember` | apps/relay/src/control-socket.ts:2239-2266 | In place, forgets as above, keeps a large reply's outcome alone, and holds at most 500 |
| `OperationJournal.Operations.Recent` | apps/relay/src/control-socket.ts:2268-2277 | Answers only an entry whose time isn't up, and drops one whose is |
| `BatchWindow.NextKeeps` | apps/relay/src/backups.ts:738-795 | Every step keeps the barrier: starting again exactly when every backup has arrived or left, archiving with the Apps stopped only once they are |
| `BatchWindow.StoppedAsTold` | apps/relay/src/backups.ts:744-770 | The Apps count as stopped, or not, only as stopping them went |
| `BatchWindow.WindowHolds` | apps/relay/src/backups.ts:738-795 | In any run no App starts again while a backup takes its archive or has yet to, stopping and restarting happen at most once, no archive that needs them stopped is taken unless they did stop, and restarting happens once all have arrived or left |
| `BatchWindow.StepsRunOut` | apps/relay/src/backups.ts:771-795 | Every step brings the batch nearer its end |
| `BatchWindow.NeverStuck` | apps/relay/src/backups.ts:771-795 | While a backup isn't over, it or one it waits for can go on |
| `BatchWindow.Settles` | apps/relay/src/backups.ts:738-795 | From any state a batch can be brought to its end, its Apps started again exactly once |
| `StoppedApps.Power.StopApps` | apps/relay/src/backups.ts:1200-1238 | Through any failure, crash or change of power, every App stopped and owed a start is in the journal, and each that ran runs or is owed one; if it succeeds exactly the Apps asked for have stopped; and if one won't stop and all else goes well, all run again |
| `StoppedApps.Power.StartIfOwed` | apps/relay/src/backups.ts:1249-1252 | An App's power is read first, and it is started only while its revision is the one noted; what comes of it is told by how each of the two went |
| `StoppedApps.Power.StartApps` | apps/relay/src/backups.ts:1244-1265 | Those that won't start stay journaled, with no warnings none is still owed, and as nothing fails exactly these run and the journal is gone |
| `StoppedApps.Power.KeepStopped` | apps/relay/src/backups.ts:1366-1375 | A journal write that fails or isn't made forgets no App owed a start |
| `StoppedApps.Power.CreateTar` | apps/relay/src/backups.ts:926-936 | A stopped backup keeps the journal covering throughout, and all that ran runs again, though its archive fail; a final one starts nothing, and leaves its Apps stopped |
| `StoppedApps.Power.RunBatch` | apps/relay/src/backups.ts:744-781 | A batch whose Apps all stopped keeps the journal covering, as does one a crash cuts short; its Apps start again however its archives went: each that ran runs or is owed a start, none is owed one with no warnings, and as starting them goes well all run as before and the journal is gone |
| `StoppedApps.Power.FinishUnstopped` | apps/relay/src/backups.ts:771-781 | One whose stopping failed keeps covering exactly if the journal stays, or nothing it stopped is still owed |
| `StoppedApps.FailedBatchForgets` | apps/relay/src/backups.ts:771-781 | A run of such a batch that forgets an App it owes a start: its one App won't stop, and then won't start |
| `StoppedApps.Power.RestartStoppedApps` | apps/relay/src/backups.ts:1272-1306 | As the Relay starts, every App still owed is started or stays journaled; with nothing failing, exactly those journaled and unchanged start, and the journals are gone |
| `SqlSplitter.StatementsStand` | apps/relay/src/database-browser-sqlite.ts:624-686 | Each statement of any script splits to exactly itself |
| `SqlSplitter.StatementsWeave` | apps/relay/src/database-browser-sqlite.ts:624-686 | A script is its statements in order with gaps between, each of which splits to nothing |
| `SqlSplitter.SegmentCut` | apps/relay/src/database-browser-sqlite.ts:638-680 | A statement cut where it ends and trimmed has the same end and words on its own, quotes and comments that run on included |
| `SqlSplitter.SegmentStands` | apps/relay/src/database-browser-sqlite.ts:662-673 | A statement that ends at a semicolon ends there whatever follows |
| `SqlSplitter.ClosesTriggerBody` | apps/relay/src/database-browser-sqlite.ts:690-698 | A trigger body is closed exactly if some start of it has more ENDs than CASEs |
| `SqlSplitter.SkipQuoted` | apps/relay/src/database-browser-sqlite.ts:700-713 | Finds the end of quoted text, past doubled quotes |
| `SqlSplitter.SplitStatements` | apps/relay/src/database-browser-sqlite.ts:624-686 | The loop over the script finds the statements defined from its suffixes |
| `SqlTokens.SplitCutsAtTokens` | apps/relay/src/database-browser-sqlite.ts:624-698 | A script made of quoted text, comments, bracketed names, words, semicolons and other characters is cut exactly at the semicolons among these that no trigger's open body holds; each piece with a word, less white space at its ends, is a statement |
| `SqlTokens.EveryScript` | apps/relay/src/database-browser-sqlite.ts:624-713 | Every text is made of such, the last of which may be cut short |
| `SqlTokens.ScriptsCutAtTokens` | apps/relay/src/database-browser-sqlite.ts:624-698 | So every text is split so |
| `SqlEdits.Database.Mutate` | apps/relay/src/database-browser-sqlite.ts:222-291 | Saves exactly when every update and delete hits one row still as loaded in the table as the changes before left it, and the commit is granted and goes through; else the table is as before, and conflicts, if told, are every miss in order with what its row holds |
| `SqlEdits.ProperMeans` | apps/relay/src/database-browser-sqlite.ts:222-291 | A change may set only the table's own columns that aren't generated, and an update or delete must give what locates a row and all that was loaded of it |
| `SqlEdits.TargetsMean` | apps/relay/src/database-browser-sqlite.ts:340-368 | It is of the row with its rowid or key whose every column is the value loaded, or begins with the preview loaded and is as long |
| `SqlEdits.HitsMean` | apps/relay/src/database-browser-sqlite.ts:222-291 | How many rows it hits is whether it is of none, one or more |
| `SqlEdits.AfterMeans` | apps/relay/src/database-browser-sqlite.ts:222-291 | An insert puts in a row with what it gives and the defaults for the rest, an update sets just its columns in just its rows, a delete takes just its rows out, and all else stays |
| `SqlEdits.CurrentRow` | apps/relay/src/database-browser-sqlite.ts:293-317 | A conflict tells a row its key locates, or that none is |
| `SqlEdits.StaleEditMisses` | apps/relay/src/database-browser-sqlite.ts:340-368 | A row that differs from what was loaded is changed by no edit of it |
| `SqlEdits.LaterEditOverwrites` | apps/relay/src/database-browser-sqlite.ts:340-368 | Two edits of a blob loaded by its size and first byte, of which the second overwrites what the first saved |
| `SqlEdits.LaterEditMisses` | apps/relay/src/database-browser-sqlite.ts:340-368 | Of two edits of the same loaded rows the later is of exactly those the first changed that still look as loaded: each new value matches the loaded one, as a blob may its preview, and the key still locates the row |
| `CommitHandshake.NextKeeps` | apps/relay/src/database-browser.ts:192-303 | Every step keeps grants, bytes under way, workers and answers in agreement |
| `CommitHandshake.StoppedNeverCommits` | apps/relay/src/database-browser.ts:221-256 | In any run, a job timed out or interrupted before its commit is granted never commits after, worker reuse included |
| `CommitHandshake.ToldTruly` | apps/relay/src/database-browser-worker.ts:46-58 | Being told that nothing was saved, or that it was, is so then and ever after |
| `CommitHandshake.JobsSettle` | apps/relay/src/database-browser-worker.ts:46-58 | From any state a running job that nobody stops, of a worker that lives, is brought to its end, saved and told so exactly if its commit succeeds |
| `CommitHandshake.StoppingTells` | apps/relay/src/database-browser.ts:221-256 | A deadline after the grant changes nothing; before it the job is cancelled, its own worker alone killed, and its caller told why |
| `CommitHandshake.CallersToldAtLast` | apps/relay/src/database-browser.ts:221-303 | Every caller can be told, by the deadline or that the worker is lost |
| `CommitHandshake.DeadStayDead` | apps/relay/src/database-browser.ts:192-303 | No worker lives again |
| `CommitHandshake.KillsItsOwn` | apps/relay/src/database-browser.ts:251-256 | A timeout never kills a worker committing for another job; an interruption does exactly if its job had that worker before and has its reply |
| `CommitHandshake.KillsAnothers` | apps/relay/src/database-browser.ts:251-256 | A run that does: a job answered, its worker granted the commit of the next, and then the first interrupted |
| `SessionRegistry.FloorsExclude` | apps/relay/src/browser-security.ts:1-8 | A capability below a revision received, and issued by then, is current at no later time it hasn't expired by, pruned or not |
| `SessionRegistry.MinimumIsHighest` | apps/relay/src/browser-session-registry.ts:326-354 | A capability's least revision is the highest floor of its person across the Relay, of its server if it is of one, and of its login if it has one |
| `SessionRegistry.CurrentMeans` | apps/relay/src/browser-session-registry.ts:356-363 | What is at its issuer's generation and at or above every revision of it received is current, and what is at another, or below one received since floors are kept, isn't |
| `SessionRegistry.ReachedRises` | apps/relay/src/browser-session-registry.ts:256-259 | An issuer's generation only rises, to the one received if that is higher, and no other issuer's does |
| `SessionRegistry.SameOwnerMeans` | apps/relay/src/browser-session-registry.ts:439-452 | Two capabilities have the same owner exactly if they differ in nothing but version, expiry, generation and revision |
| `SessionRegistry.SessionsKeep` | apps/relay/src/browser-session-registry.ts:111-117 | Sessions current before a handshake or transfer stay so exactly if it raises no generation, or none of them is bound to its issuer's last one |
| `SessionRegistry.TransfersKeep` | apps/relay/src/browser-session-registry.ts:219-225 | And transfers |
| `SessionRegistry.OwnersKeep` | apps/relay/src/browser-session-registry.ts:157-182 | Sessions renewed or ended by the same owners stay unshared and within limits |
| `SessionRegistry.AdmitKeeps` | apps/relay/src/browser-session-registry.ts:395-416 | A session admitted within the limits leaves every group of sessions within its own |
| `SessionRegistry.CountsNew` | apps/relay/src/browser-session-registry.ts:75-87 | An address's count stays true exactly if the handshake counted is new |
| `SessionRegistry.CountsReleased` | apps/relay/src/browser-session-registry.ts:298-305 | And stays true as one is released |
| `SessionRegistry.Registry.AcquirePending` | apps/relay/src/browser-session-registry.ts:75-87 | Admits exactly within the limits, each address's count staying true |
| `SessionRegistry.Registry.ReleasePending` | apps/relay/src/browser-session-registry.ts:298-305 | The handshake is pending no more, and counts stay true |
| `SessionRegistry.Registry.WithinLimits` | apps/relay/src/browser-session-registry.ts:395-416 | Counting in one pass finds exactly whether each group has room |
| `SessionRegistry.Registry.MinimumRevision` | apps/relay/src/browser-session-registry.ts:326-354 | The highest floor of those that cover the authority, after pruning |
| `SessionRegistry.Registry.Activate` | apps/relay/src/browser-session-registry.ts:89-155 | A session begins exactly when authorized and within limits, replaces the one its owner has, revives none, and is below no revision received by the time its capability was issued; the older ones stay current exactly as said above |
| `SessionRegistry.LeftBehind` | apps/relay/src/browser-session-registry.ts:111-142 | Two handshakes after which the first session is active and no longer current |
| `SessionRegistry.Registry.Renew` | apps/relay/src/browser-session-registry.ts:157-182 | A session goes on exactly if it is active and unexpired, under its own owner's current capability, which is below no such revision |
| `SessionRegistry.Registry.IsActive` | apps/relay/src/browser-session-registry.ts:204-212 | A session is active exactly until it ends or expires, and ends as it is found expired |
| `SessionRegistry.Registry.Expire` | apps/relay/src/browser-session-registry.ts:374-386 | A timer ends its own session, if its socket still has it, and no other changes |
| `SessionRegistry.Registry.RegisterTransfer` | apps/relay/src/browser-session-registry.ts:214-247 | A transfer begins exactly under a current capability; sessions and transfers there were stay current exactly as said above |
| `SessionRegistry.Registry.Revise` | apps/relay/src/browser-session-registry.ts:249-281 | Ends every session and transfer below a revision that covers it, by person, server or login, or of another generation than its issuer's, revives none, and leaves as it was each that is up to date with all revisions received |
| `SessionRegistry.Registry.RevokeIssuer` | apps/relay/src/browser-session-registry.ts:283-296 | Ends everything of an issuer and leaves everything else as it was |
| `Outbox.DepartsInOrder` | apps/relay/src/browser-outbox.ts:122-140 | What leaves as a message is sent is priority first, each kind in order, the newest resource last, and only the last of it may be had by its browser |
| `Outbox.AddKeeps` | apps/relay/src/browser-outbox.ts:47-61 | A message added keeps the byte count, each queue's order, and only the newest resource |
| `Outbox.TakeKeeps` | apps/relay/src/browser-outbox.ts:122-128 | A message taken does too |
| `Outbox.Outbox.Send` | apps/relay/src/browser-outbox.ts:39-70 | Accepted exactly if open, authorized and within both limits, which then hold; one too many or too long closes the outbox, and any other refused changes nothing |
| `Outbox.Outbox.Drain` | apps/relay/src/browser-outbox.ts:130-154 | Ends with one message under way, which its browser may have, or nothing left |
| `Outbox.Outbox.SendDone` | apps/relay/src/browser-outbox.ts:142-153 | As a message is sent whoever has waited longest is told if there is room, and the next, if any, is under way; as one fails to be, nothing more goes, and whoever waits is told nothing until the outbox closes |
| `Outbox.Outbox.Wake` | apps/relay/src/browser-outbox.ts:106-114 | Whoever has waited longest is told, exactly if there is room for it |
| `Outbox.Outbox.WhenRoomFor` | apps/relay/src/browser-outbox.ts:76-84 | Answered at once only if closed, or if nobody waits and it fits |
| `Outbox.Outbox.RoomMeans` | apps/relay/src/browser-outbox.ts:95-101 | There is room exactly while nothing is queued, or as long as what is then leaves as many bytes again free, and as many messages |
| `Outbox.Outbox.RoomIsEnough` | apps/relay/src/browser-outbox.ts:39-70 | Then a message of that size isn't too many |
| `Outbox.Outbox.Close` | apps/relay/src/browser-outbox.ts:86-93 | Everyone waiting is refused, in order, and nothing is left |
| `DeploymentLog.Deployment.Append` | apps/relay/src/apps.ts:2749-2764 | A line gets the number of lines before it, trimmed or not, and wakes every follower |
| `DeploymentLog.Deployment.Trim` | apps/relay/src/apps.ts:3533-3545 | Drops the oldest lines past either budget, and no more |
| `DeploymentLog.Deployment.Resume` | apps/relay/src/apps.ts:1055-1079 | A follower hands over the oldest line kept that it hasn't reached, or sleeps with none, to be woken by the next, or ends as it was aborted or its deployment is no longer the latest |
| `DeploymentLog.Deployment.HandedInOrder` | apps/relay/src/apps.ts:1055-1079 | A follower is handed strictly increasing numbers, misses only lines trimmed before it reached them, and never sleeps while a kept line is unread |
| `DeploymentLog.Deployment.Supersede` | apps/relay/src/apps.ts:1125-1129 | Nobody sleeps on a deployment that is no longer the latest |
| `LineReader.SplitIsUnique` | apps/relay/src/command.ts:101 | Splitting at newlines is the only way to cut a text into lines that join to it |
| `LineReader.SplitAppend` | apps/relay/src/command.ts:101-102 | A text's lines are those of its start, its open line taken on by the rest |
| `LineReader.NextLines` | apps/relay/src/command.ts:100-106 | A chunk after an open line, cut as it is, completes what it would of the whole text |
| `LineReader.LinesHandedOut` | apps/relay/src/command.ts:93-108 | What is handed out of a text is each line that makes it up, cut to the limit, but for a last one that is empty |
| `LineReader.Reader.Read` | apps/relay/src/command.ts:100-106 | After any chunks, exactly the whole text's complete lines are handed out, each cut to the limit |
| `LineReader.Reader.Flush` | apps/relay/src/command.ts:96-99 | The last line too, unless it is empty |
| `LineReader.ReadAll` | apps/relay/src/command.ts:93-108 | However a text is cut into chunks, the same lines are handed out as for the whole |

## Left out

- Docker, WebSockets, TLS, restic, xterm and SQLite themselves: each is a step that succeeds or fails, or an abstract function; JSON is a function from lines to bytes.
- Terminals: the idle and push timeouts and the heartbeat sweep are viewers detaching or refusing; viewers are visited in any order; restarts of a session, colour queries and what was typed aren't part of this model. No output arrives once a session has ended, as its socket is destroyed first.
- The legacy browser protocol, the stream's reconnection and discovery of console sessions, and the timestamps backfill falls back on when the oldest kept line isn't in what it read: older output is what comes before that line.
- ConsoleHub.BackfillKeeps: takes the session's output as one ordered log, so that older output agrees with lines trimmed before at the positions it takes.
- ConsoleFrames.EncodeNewestBatch: its claims of fitting, and of holding lines whole, are for budgets no larger than a frame, as both callers' are.
- Restores: extraction's checks of an archive, path containment, journals that can't be parsed, and power loss that reorders writes.
- RestoreJournal.Life: a recovery that fails is run again as the Relay next starts, for as long as its journal is there.
- The lanes a change waits in; the journal never forgets a change.
- OperationJournal.TrueAnswers: owed are those answered of a change recorded as started by then, and being told that it was interrupted counts as less than how it went; `OperationJournal.EndTellsAll` and `OperationJournal.RepeatTold` say when it is told exactly.
- Backups: archiving, uploading, the deadline's race with an install, and a person's change of power between the check of an App's revision and its start.
- SqlEdits.Database.Mutate: a table's constraints are one predicate on its rows; triggers, type affinity, and a rowid changed by an update aren't part of this model.
- Browser sessions: capability signatures and actions, renewal nonces, and floor keys joined as text (an issuer or subject holding a NUL character could share one).
- SessionRegistry.FloorsExclude: the clock never runs backwards.
- Outbox.Outbox.Drain: what a browser may have is asked once for all a drain takes, not anew for each message.
- Deployments: the rolling steps themselves and a console with no deployment yet.
