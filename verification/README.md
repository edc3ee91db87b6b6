# Cogito: verified models

Dafny models of the parts of Cogito (a Slack and Linear manager bot) whose behaviour is hardest to
see from reading one function, and proofs of what those parts keep. `dafny verify dfyconfig.toml`
checks everything.

| files | what they model |
|---|---|
| `ReplyStreamProtocol`, `ReplyStreamController`, `ReplyStreamSafety`, `ReplyStreamText`, `ReplyStreamNotice`, `ReplyStreamDelivery`, `ReplyStreamBreaks`, `ReplyStreamRest`, `ReplyStreamEnd` | the Slack reply stream: throttled flushes, the placeholder, finalizing, and what Slack shows, as a protocol over every interleaving |
| `Calendar`, `Schedule` | the day arithmetic of ECMA-262, section 21.4.1, and the next daily and weekly run |
| `JobFiles`, `JobMigration`, `Scheduler`, `SchedulerRuns` | jobs split over a config and a status file, the migration of older files, the scheduler's tick and runs of ticks |
| `PersonalizationLedger`, `PersonalizationCommit` | the ledger of observations: the function on values, and the entry objects changed in place |
| `GeneratedBlock`, `MemoryRender`, `MemoryLayout`, `MemoryDiagnostics`, `MemoryCoverage`, `MemoryRoundTrip`, `MemoryBullets`, `MemoryCommit` | the generated block in a file users edit, the Markdown printed from the ledger, the analyzer that reads it, and batches of observations committed to the file |
| `Shell`, `NotionContent`, `NotionReading`, `NotionSection` | the command line for `ntn`, reading a page under a budget, replacing one section of a page |
| `SlackSections`, `SlackBlocks`, `RichText` | cutting a message into sections, grouping lines into blocks, the inline markup |
| `ThreadQueue`, `WebhookLedger`, `Webhook`, `WebhookOutcomes`, `WebhookArrivals`, `WebhookRetention`, `WebhookQueue`, `WebhookHandler` | the promise chain per key, the delivery ledger, and at-most-once processing on top of both |
| `PolicyDiff` | the difference reported when a policy file is restored, read as a patch |
| `Prelude`, `Text`, `Lists`, `VisibleLines`, `Partition` | shared vocabulary: optional values, JavaScript string operations, list and counting lemmas |

Code that changes state step by step is modelled by classes and methods with loops; each is proved
against a function, and the properties are lemmas about that function. A class has a `Valid()` that is
the invariant of its function, kept by every method that handles an event. Code made of expressions is
modelled by functions. Texts are sequences of characters, times are milliseconds since the epoch.

## Where the code does less than it promises

Each of these is a lemma with a concrete run or input, next to the exact condition under which the
promise does hold.

- `finalizeReply` always leaves exactly one message with the reply if and only if the moment it is called
  is quiet and no late delta can show (`ReplyStreamBreaks.WhenFinalizeIsSafe`). Quiet means that no
  `enableStreaming` is still waiting for, or deleting, a live placeholder and that no flush call is under
  way after streaming was turned off. A late delta can show exactly if streaming is on, the last
  flush can leave the stream with a non-empty beginning of the rendered reply, so that it is stopped, and
  more text extends that beginning. With streaming off or failed, or with a reply that diverged from what was
  streamed (`DivergedReplyIsSafe`), any deltas are harmless. For each way to fail there is a breaking run.
  Once finalizing has ended, `ReplyStreamRest.WhenThePageIsFinal` says when the page stays as it is, and
  `StopDeliversForGood` when a stopped stream shows the reply for good.
- `Date.UTC` takes the years 0 to 99 for 1900 to 1999, so the next daily and weekly runs are wrong
  exactly when the current JST year is one of those (`Schedule.DailyIsFirstSlot`, `YearFiftyIsLate`).
- The application's `loadJobs` normalizes before the tick compares, so a tick without due jobs saves
  nothing. A daily or weekly job that has no status yet gets a fresh future slot on every load and runs
  only if that slot falls between the loading and the due check of one tick (`FreshJobRunsIff`,
  `FreshJobsStarve`).
- Saving statuses only, the application does not store that an `at` job was disabled, and the job runs
  again on the next tick (`OneShotRunsAgain`); with both files saved it runs once (`OneShotRunsOnce`).
- A runtime whose only content is an empty error or result text is dropped by a save
  (`JobFiles.SaveLoadRoundTrip` states exactly what survives).
- A colon in a project name lets two observation keys collide, and an exact repetition then moves an
  entry onto the key of another live one (`ColonBreaksTheSource`; `OnePerKeyIff` is the exact condition).
  The list of promoted entries a batch reports may contain superseded ones (`ReportsSupersededToo`).
- Every merge of the generated block adds one line break behind the user's trailing text
  (`OnlyTheLastBodyShows`); an END marker in front of the block makes old blocks pile up
  (`MergeReplacesIff`, `StrayEndExample`); a START marker without END drops the text behind it
  (`UnterminatedBlockDropsTheRest`).
- The memory file is written only if some memory entry is promoted. When the last promoted one is superseded
  by a candidate, the file keeps showing it until another is promoted (`InStepIff`,
  `GuessLeavesTheFileBehind`).
- The schema lets an entry's text have line breaks, and its further lines are printed as they are. A line
  of them that is a bullet is counted as one more entry, exactly then (`OneBulletEachIff`,
  `CountsEntriesIff`); one that is a heading can make the analyzer find a project that no entry has
  (`HeadingInsideIsAProject`). Without headings in texts the analyzer's result is exact (`AnalyzeRecovers`).
- A level-2 heading without visible text does not bound a Notion section and is archived with the body
  before it (`BlankHeadingsGoWithTheBody`, `BlankHeadingIsLost`).
- The webhook ledger is trimmed to 30 days and 1000 entries when saved, so at most once and the loop
  prevention hold within 30 days of a delivery's first arrival and fewer than 1000 further webhooks
  (`HandledOnceInTime`, `NoLoopInTime`), and both limits are sharp (`HandledTwiceAfterRetention`,
  `QueuedTwiceAfterAThousand`); `RetainedIff` says exactly when an entry is lost. A finished delivery turns from committed or no-op into failed exactly when
  its notification throws (`FinalStatusChangesIff`).
- The policy difference compares arrays by their JSON text, so key order inside them is reported
  (`KeyOrderInArraysIsReported`).

## Model

| member | source | states |
|---|---|---|
| ReplyStreamSafety.NextInv | src/lib/slack-replies.ts:28-348 | every step of the controller, in any state, keeps the invariant: one flush at a time, Slack shows what the controller recorded, streamed text only grows |
| ReplyStreamSafety.RunInv | src/lib/slack-replies.ts:28-348 | the invariant holds after every run of deltas, timers, answers and failures |
| ReplyStreamSafety.FlushesNeverOverlap | src/lib/slack-replies.ts:166-225 | in every run at most one flush is between its start and its end |
| ReplyStreamSafety.ShownIsRecorded | src/lib/slack-replies.ts:166-205 | until finalizing ends Slack shows exactly the recorded messages, and a started stream shows exactly sentRenderedText |
| ReplyStreamSafety.StreamOnlyGrows | src/lib/slack-replies.ts:166-225 | between any two points of a run the streamed text is extended, never rewritten, in the same message |
| ReplyStreamText.SentIsPushed | src/lib/slack-replies.ts:159-291 | in every run before finalizeReply in which streaming is not disabled, the buffer is all deltas in order, whether or not streaming was on when they came, and what was sent is the rendering of the first n of them for some n |
| ReplyStreamText.SentIsAllPushed | src/lib/slack-replies.ts:159-291 | once streaming is on and neither a timer nor a flush is pending, the stream shows the rendering of all deltas pushed |
| ReplyStreamNotice.NoticeComes | src/lib/slack-replies.ts:72-111 | the notice is posted at once or when its timer fires, and then it is all the page shows |
| ReplyStreamNotice.FailedStartBringsTheNoticeBack | src/lib/slack-replies.ts:142-190 | in any state, a stream that could not be started is given up and the notice is posted again, once |
| ReplyStreamNotice.FailedAppendKeepsTheStream | src/lib/slack-replies.ts:142-205 | in any state, a stream that fails later keeps what it shows, and no notice is posted |
| ReplyStreamNotice.TurnsOn | src/lib/slack-replies.ts:228-274 | without a notice enableStreaming turns streaming on and keeps the text buffered so far |
| ReplyStreamNotice.TurnsOnInPlaceOfTheNotice | src/lib/slack-replies.ts:113-138 | with a notice it is turned on exactly if the notice could be deleted |
| ReplyStreamNotice.NothingMoreIsStreamed | src/lib/slack-replies.ts:166-281 | once streaming has failed or was disabled, and no call is under way, no run streams anything more |
| ReplyStreamNotice.NoTeamNoStream | src/lib/slack-replies.ts:237-243 | without a team id no run streams anything |
| ReplyStreamDelivery.RunFinishing | src/lib/slack-replies.ts:283-346 | what holds phase by phase from finalizeReply on is kept by every run, with late deltas when none of them can show, and otherwise by every run in which none arrives before finalized is set |
| ReplyStreamDelivery.QuietLeavesOneMessage | src/lib/slack-replies.ts:283-346 | from a quiet state, however the calls interleave or fail, finalizing leaves exactly one message showing the rendered reply unless chat.update failed: in every run without late deltas, and with any late deltas when none of them can show |
| ReplyStreamBreaks.OneMessageIffQuiet | src/lib/slack-replies.ts:228-346 | finalizing always leaves exactly one message if and only if the state is quiet when it is called and, in runs with late deltas, streaming is off or the last flush cannot leave the stream with a non-empty beginning of the rendered reply that a later delta extends |
| ReplyStreamBreaks.WhenFinalizeIsSafe | src/lib/slack-replies.ts:28-348 | the same over every run from the start |
| ReplyStreamBreaks.StartInFlightBreaks | src/lib/slack-replies.ts:276-281 | streaming turned off while startStream is under way can leave two messages |
| ReplyStreamBreaks.AppendInFlightBreaks | src/lib/slack-replies.ts:276-281 | streaming turned off while appendStream is under way can spoil the final text |
| ReplyStreamBreaks.PendingDeleteBreaks | src/lib/slack-replies.ts:113-138 | a placeholder deletion under way can remove the final reply |
| ReplyStreamBreaks.PendingPostBreaks | src/lib/slack-replies.ts:228-274 | an enableStreaming waiting for the placeholder's post can remove the final reply |
| ReplyStreamBreaks.LateTextBreaks | src/lib/slack-replies.ts:283-346 | whenever a late delta can show there is a run in which text sent while the stream is being stopped spoils the delivered reply |
| ReplyStreamBreaks.DivergedReplyIsSafe | src/lib/slack-replies.ts:304-346 | from a quiet state a reply that does not extend what was streamed is delivered as exactly one message in every run, whatever deltas arrive |
| ReplyStreamBreaks.LateDeltaBreaks | src/lib/slack-replies.ts:283-346 | a run from the start in which one delta that arrives while the stream is being stopped changes the delivered reply |
| ReplyStreamBreaks.EnabledBeforeTheNotice | src/lib/slack-replies.ts:228-274 | a run from the start to a moment that is not quiet |
| ReplyStreamRest.WhenThePageIsFinal | src/lib/slack-replies.ts:28-348 | after every run in which finalizing has ended the page never changes again if and only if no notice is being posted, no flush is under way and no pending enableStreaming means to delete a shown message |
| ReplyStreamRest.StopDeliversForGood | src/lib/slack-replies.ts:293-320 | in every run, when finalizing ends by stopStream the page shows exactly the rendered reply for good if and only if no later text was sent meanwhile and none is under way |
| ReplyStreamEnd.OnlyThePostThrows | src/lib/slack-replies.ts:293-346 | in every run finalizeReply throws only if posting the reply failed |
| ReplyStreamEnd.FinalizingEnds | src/lib/slack-replies.ts:303-346 | wherever finalizing waits for an answer that fails, it goes on to the next way of delivering and ends with the reply in a message |
| ReplyStreamController.Controller.constructor | src/lib/slack-replies.ts:28-55 | the initial state, with or without a delayed placeholder, satisfies the invariant |
| ReplyStreamController.Controller.PushTextDelta | src/lib/slack-replies.ts:283-291 | the method is the protocol's delta step, and keeps the invariant |
| ReplyStreamController.Controller.FlushNow | src/lib/slack-replies.ts:207-216 | chains one more flush behind those still to run |
| ReplyStreamController.Controller.FlushTimerFires | src/lib/slack-replies.ts:218-225 | the method is the protocol's timer step, and keeps the invariant |
| ReplyStreamController.Controller.FlushBegins | src/lib/slack-replies.ts:166-190 | the method is the protocol's step from a waiting flush to its remote call, and keeps the invariant |
| ReplyStreamController.Controller.FlushAnswered | src/lib/slack-replies.ts:180-205 | the method is the protocol's step for the answer to startStream or appendStream, and keeps the invariant |
| ReplyStreamController.Controller.MarkStreamFailure | src/lib/slack-replies.ts:142-157 | the stream is given up and a new placeholder asked for |
| ReplyStreamController.Controller.EnableStreaming | src/lib/slack-replies.ts:228-274 | the method is the protocol's enable step, and keeps the invariant |
| ReplyStreamController.Controller.EnableResumes | src/lib/slack-replies.ts:228-274 | the method is the protocol's step after the placeholder's post was awaited, and keeps the invariant |
| ReplyStreamController.Controller.DeleteAnswered | src/lib/slack-replies.ts:113-138 | the method is the protocol's step for the answer to the placeholder's deletion, and keeps the invariant |
| ReplyStreamController.Controller.DisableStreaming | src/lib/slack-replies.ts:276-281 | the method is the protocol's disable step, and keeps the invariant |
| ReplyStreamController.Controller.NoticePosted | src/lib/slack-replies.ts:72-91 | the method is the protocol's step for the answer to the placeholder's post, and keeps the invariant |
| ReplyStreamController.Controller.FinalizeReply | src/lib/slack-replies.ts:293-302 | the method is the protocol's first step of finalizing, and keeps the invariant |
| ReplyStreamController.Controller.FinalizeResumes | src/lib/slack-replies.ts:303-346 | the method is the protocol's step after the last flush: stop the stream or fall back, and keeps the invariant |
| ReplyStreamController.Controller.StopAnswered | src/lib/slack-replies.ts:303-325 | the method is the protocol's step for the answer to stopStream, and keeps the invariant |
| ReplyStreamController.Controller.UpdateAnswered | src/lib/slack-replies.ts:366-395 | the method is the protocol's step for the answer to chat.update, and keeps the invariant |
| ReplyStreamController.Controller.ReplyPosted | src/lib/slack-replies.ts:396-407 | the method is the protocol's step for the answer to chat.postMessage, and keeps the invariant |
| Calendar.DayRoundTrip | src/lib/scheduler.ts:36-55 | turning a day number into civil parts and back gives the day, for every day (ECMA-262, section 21.4.1) |
| Calendar.CivilRoundTrip | src/lib/scheduler.ts:36-55 | turning valid civil parts into a day number and back gives the parts |
| Calendar.DayOverflow | src/lib/scheduler.ts:46-55 | a day of the month beyond its end counts on into the following months and years |
| Calendar.KnownDates | src/lib/scheduler.ts:36-55 | the calendar is the Gregorian one: day 0 is the first of January 1970, and of 1900, 2000, 2023 and 2024 only 2000 and 2024 have a leap day |
| Calendar.MonthLengths | src/lib/scheduler.ts:36-55 | the months of a common year have their lengths |
| Schedule.DailyIsFirstSlot | src/lib/scheduler.ts:61-69 | nextDailyRunAt is the least instant after now with that JST time if and only if the JST year is not 0 to 99; then it is at most 24 hours away |
| Schedule.WeeklyIsFirstSlot | src/lib/scheduler.ts:71-87 | the same for a weekday and time, at most 7 days away |
| Schedule.YearFiftyIsLate | src/lib/scheduler.ts:57-69 | an instant in such a year, where the next daily run is not the first slot |
| Schedule.SlotShowsTime | src/lib/scheduler.ts:46-60 | a daily slot is an instant at which a clock nine hours ahead of UTC shows exactly the job's text of hours and minutes |
| Schedule.WeekdaysFollow | src/lib/scheduler.ts:20-28 | the first of January 1970 is a Thursday and a day later is the next weekday, so each slot has the one weekday of its date |
| JobFiles.StatusReadBack | src/lib/system-workspace.ts:427-443 | the status read for a job is its runtime, or none if it has nothing to keep |
| JobFiles.SaveLoadRoundTrip | src/lib/system-workspace.ts:605-618 | loading after saveSchedulerJobs gives the same jobs if and only if no job is a built-in review and each runtime is empty or kept |
| JobFiles.CustomKeepsAll | src/lib/system-workspace.ts:458-460 | filtering built-in review configs changes nothing exactly when there are none |
| JobMigration.MergeSchedulerJobStatuses | src/lib/system-workspace.ts:445-456 | the loop over the map and the sort compute the merge function |
| JobMigration.MergeHolds | src/lib/system-workspace.ts:445-456 | the merge is sorted with distinct ids, keeps every current status over an incoming one and loses no id |
| JobMigration.MergeNothing | src/lib/system-workspace.ts:445-456 | merging nothing into a sorted list leaves it as it is |
| JobMigration.MigrationIsIdempotent | src/lib/system-workspace.ts:475-491 | migrating migrated files changes nothing |
| JobMigration.MigrationKeepsCustomJobs | src/lib/system-workspace.ts:475-491 | exactly the configurations with an action are removed, with multiplicities |
| JobMigration.MigrationKeepsRuntime | src/lib/system-workspace.ts:475-491 | afterwards every job's status is the existing one, else the one of the older file |
| Scheduler.SchedulerService.Tick | src/lib/scheduler.ts:212-249 | the tick with its guard and loop leaves the files the tick function gives and executes the due jobs in order |
| SchedulerRuns.NormalizeTwice | src/lib/scheduler.ts:97-107 | normalizing normalized jobs changes nothing, whenever it happens |
| SchedulerRuns.AdvancedIsNotDue | src/lib/scheduler.ts:115-172 | a repeating job's next run after running is later than the moment it was advanced |
| SchedulerRuns.IdleTickSavesNothing | src/runtime/app-bootstrap.ts:278-288 | with the application's wiring a tick without due jobs leaves the files as they were |
| SchedulerRuns.TickForJob | src/lib/scheduler.ts:212-249 | what one tick does to one job: it runs if and only if it is due, once, for its stored slot; its next run is the right one after the end of its own run (none, the first later slot, or everySec seconds later), later than that for a repeating job; a job that does not run keeps its slot |
| SchedulerRuns.RunIsRecorded | src/lib/scheduler.ts:115-172 | after a tick the status file tells for every job that ran when its run ended, ok or error with the summary in the matching field and none in the other, and the next run: none for an at job, the first later slot for a daily or weekly one (outside the years 0 to 99), and everySec seconds later otherwise |
| SchedulerRuns.WholeRunIsRecorded | src/lib/scheduler.ts:115-172 | the same when whole jobs are saved; an at job also comes back disabled, and nothing else of a configuration changes but its times |
| SchedulerRuns.WholeIdleTick | src/lib/scheduler.ts:97-107 | a tick that runs nothing only fills in missing times |
| SchedulerRuns.RunsIff | src/lib/scheduler.ts:89-113 | a job runs in a tick if and only if it is enabled and its stored next run has come, or, with none stored, its at time, a slot since the load, or its creation time has |
| SchedulerRuns.ExecutedInTick | src/lib/scheduler.ts:223-243 | a tick executes a job exactly when it is due, once, for its current slot |
| SchedulerRuns.AtMostOncePerSlot | src/lib/scheduler.ts:97-249 | over every run of ticks the slots a repeating job is executed for strictly increase and lie before its stored next run |
| SchedulerRuns.FreshJobRunsIff | src/lib/scheduler-management.ts:177-191 | a job without a status runs in a tick if and only if a slot of it lies after the loading and not after the due check |
| SchedulerRuns.FreshJobsStarve | src/lib/scheduler-management.ts:177-191 | without statuses and without a slot inside a tick, no run of ticks executes or saves anything |
| SchedulerRuns.OneShotRunsAgain | src/runtime/app-bootstrap.ts:278-288 | saving statuses only, an executed at job is due again on the next tick |
| SchedulerRuns.OneShotRunsOnce | src/lib/scheduler.ts:115-172 | saving both files, an at job is executed at most once in any run and is disabled afterwards |
| PersonalizationLedger.OnePerKeyIff | src/lib/personalization-commit.ts:69-160 | one observation keeps the keys of live entries distinct if and only if the entry it repeats does not get another live entry's key |
| PersonalizationLedger.LatestTextIsLive | src/lib/personalization-commit.ts:87-160 | with colon-free project names nothing clashes, and afterwards the only live entry with the observation's key has its text |
| PersonalizationLedger.RunKeepsOnePerKey | src/lib/personalization-commit.ts:317-332 | with colon-free project names every list of observations keeps one live entry per key |
| PersonalizationLedger.ColonBreaksOnePerKey | src/lib/personalization-commit.ts:69-81 | a ledger and an observation after which two live entries share a key |
| PersonalizationLedger.ColonBreaksTheSource | src/lib/personalization-commit.ts:69-81 | the same with the source's own white-space normalization |
| PersonalizationLedger.RunKeeps | src/lib/personalization-commit.ts:87-160 | over every list of observations each promoted entry is explicit or has 2 pieces of evidence and confidence 0.8, and total evidence grows by one per observation |
| PersonalizationLedger.TouchedIsPromotedIff | src/lib/personalization-commit.ts:109-158 | the entry an observation repeats or adds ends up promoted if and only if it is explicit or has 2 pieces of evidence and confidence 0.8 |
| PersonalizationLedger.UpsertObserves | src/lib/personalization-commit.ts:87-160 | with colon-free project names one observation either repeats the first live entry that says the same about the same thing, or adds an entry and supersedes the live ones about that thing; all other entries are unchanged. A repeated entry is explicit exactly if it or the observation was, has the larger confidence and one more piece of evidence, and is promoted exactly if it was, is now explicit, or has 2 pieces and confidence 0.8; a new entry is the observation's, promoted exactly if explicit |
| PersonalizationLedger.SameKeyIff | src/lib/personalization-commit.ts:63-81 | with colon-free project names an entry has an observation's key if and only if it is live and has its file, category (people-and-projects counting as project-overview), project and lower-cased summary |
| Text.NormalizeIsWords | src/lib/personalization-commit.ts:54-56 | normalizing a text joins its words by single blanks |
| PersonalizationLedger.OneMoreEvidence | src/lib/personalization-commit.ts:109-133 | one observation adds exactly one piece of evidence |
| PersonalizationLedger.ClosedNeverComesBack | src/lib/personalization-commit.ts:103-133 | superseded and rejected entries are unchanged by every list of observations, and ids stay |
| PersonalizationLedger.ReportsSupersededToo | src/lib/personalization-commit.ts:317-332 | two statements under one key are both reported as promoted although the first is superseded |
| PersonalizationLedger.SourceRulesIdempotent | src/lib/personalization-commit.ts:54-61 | the source's text normalization is idempotent |
| PersonalizationCommit.LedgerEntry.See | src/lib/personalization-commit.ts:109-126 | the in-place update of a repeated entry is the function on values |
| PersonalizationCommit.UpsertObservation | src/lib/personalization-commit.ts:87-160 | the entries after the call are the function of those before; the returned entry is the touched one if promoted |
| PersonalizationCommit.ApplyObservations | src/lib/personalization-commit.ts:317-332 | the batch leaves the ledger and the reported ids the functions give |
| GeneratedBlock.MarkersAreGood | src/lib/personalization-commit.ts:46-47 | the source's markers satisfy what the results below ask of markers |
| GeneratedBlock.SidesSurvive | src/lib/personalization-commit.ts:263-279 | a merge keeps the user's text in front of and behind the block |
| GeneratedBlock.SecondMergeReplaces | src/lib/personalization-commit.ts:263-279 | merging two bodies is merging the second alone, plus one line break if there is trailing text |
| GeneratedBlock.MergeReplacesIff | src/lib/personalization-commit.ts:263-279 | merging two bodies gives the file of the second alone, up to trailing white space, if and only if no END marker precedes the block |
| GeneratedBlock.StrayEndCheck | src/lib/personalization-commit.ts:264-270 | that condition in terms of the two marker positions |
| GeneratedBlock.StrayEndExample | src/lib/personalization-commit.ts:263-279 | a file with only an END marker, in which a second merge does not replace the first |
| GeneratedBlock.SidesSurviveAll | src/lib/personalization-commit.ts:281-289 | the user's text survives any number of merges |
| GeneratedBlock.OnlyTheLastBodyShows | src/lib/personalization-commit.ts:281-289 | after any number of merges the file is the one of the last body, plus one line break per earlier merge behind trailing text |
| GeneratedBlock.UnterminatedBlockDropsTheRest | src/lib/personalization-commit.ts:264-270 | with START and no END the merge is that of the text in front of START |
| MemoryDiagnostics.AnalyzeWorkspaceMemory | src/lib/workspace-memory-diagnostics.ts:66-138 | the loop over the lines computes the scan function |
| MemoryDiagnostics.ProjectLine | src/lib/workspace-memory-diagnostics.ts:78-86 | the analyzer takes a printed project heading for exactly that name |
| MemoryDiagnostics.BulletLine | src/lib/workspace-memory-diagnostics.ts:105-107 | the analyzer takes the first line of a printed entry for a bullet with that text, whatever it says |
| MemoryCoverage.CoverageOfText | src/lib/workspace-memory-diagnostics.ts:66-138 | for every text the projects are those with a heading, a section is present if it has a heading in its project, and its count is the number of bullets that stand under that heading before the next |
| MemoryLayout.SharedIsPrinted | src/lib/personalization-commit.ts:226-260 | each shared section lists exactly the entries of its category, with multiplicities, under its own heading |
| MemoryLayout.ProjectIsPrinted | src/lib/personalization-commit.ts:209-225 | each project has a text under its heading, in which each section lists exactly the entries of that project and category |
| MemoryRoundTrip.ScanProject | src/lib/personalization-commit.ts:209-222 | scanning a printed project adds exactly its sections and bullet counts |
| MemoryRoundTrip.AnalyzeRecovers | src/lib/personalization-commit.ts:196-261 | for every list of entries the schema accepts, texts of many lines included as long as none of their further lines is a heading, the analyzer finds in the printed file exactly their projects, the sections that have entries and the number of bullets in each |
| MemoryRoundTrip.CountsEntriesIff | src/lib/workspace-memory-diagnostics.ts:105-116 | that number is the number of entries if and only if no further line of a text is a bullet |
| MemoryBullets.EveryEntryOnce | src/lib/personalization-commit.ts:186-261 | for every list of entries the schema accepts the bullets found in the printed file are, with multiplicities, those in the entries' own lines |
| MemoryBullets.OneBulletEachIff | src/lib/personalization-commit.ts:186-261 | every entry is shown as exactly one bullet and nothing else is if and only if no further line of a text is a bullet |
| MemoryBullets.OneEntryTwoBullets | src/lib/personalization-commit.ts:186-194 | an entry that is found as two bullets |
| MemoryBullets.HeadingInsideIsAProject | src/lib/personalization-commit.ts:196-261 | a heading in the text of an entry is found as a project that no entry has |
| MemoryBullets.PlacedAreShown | src/lib/personalization-commit.ts:196-261 | for every list of entries, the bullets found in the printed file are exactly those of the entries that have a section to be printed in |
| MemoryCommit.MemoryFile.WriteGenerated | src/lib/personalization-commit.ts:281-289 | the method leaves the merge of the file and the generated text |
| MemoryCommit.ApplyPersonalizationObservations | src/lib/personalization-commit.ts:317-357 | the entries and the file after the call are those the commit function gives; nothing is written when no memory entry is promoted |
| MemoryCommit.MergeShows | src/lib/personalization-commit.ts:263-279 | for every file and every body, the merged file shows the user's bullets and those of the body, and nothing of the block before |
| MemoryCommit.MergeKeepsUsers | src/lib/personalization-commit.ts:263-279 | in a file without stray markers the user's bullets survive every merge, one with a blank body included |
| MemoryCommit.MemoryWithout | src/lib/personalization-commit.ts:186-261 | the printed file has no marker if no text and no project name of its entries has it |
| MemoryCommit.FileShowsLastWritten | src/lib/personalization-commit.ts:263-357 | over every list of batches, from a file without stray markers and with no END marker in texts or project names: the file is untouched, or its bullets are the user's own and exactly those of the memory entries promoted after the last batch that left any, whatever block was there before |
| MemoryCommit.InStepIff | src/lib/personalization-commit.ts:334-350 | once written, the file shows what is promoted now if and only if some memory entry is still promoted or nothing was shown of those written last |
| MemoryCommit.GuessLeavesTheFileBehind | src/lib/personalization-commit.ts:128-131 | a guess supersedes a stated preference without being promoted, and the file still shows the superseded one |
| Shell.ShellUndoesQuoting | src/lib/notion.ts:128-133 | a POSIX shell (sections 2.2 and 2.3 of the Shell Command Language) reads ntn and exactly the arguments, if and only if none has a NUL |
| Shell.WordRead | src/lib/notion.ts:128-133 | one escaped argument is read as one word with that text |
| Shell.BareIff | src/lib/notion.ts:128-133 | a word is left unquoted if and only if it is non-empty and consists of letters, digits and _./:- |
| Shell.CommandsAreDistinct | src/lib/notion.ts:178-180 | different argument lists never give the same command line |
| NotionContent.CollectLines | src/lib/notion.ts:911-946 | the budgeted walk makes exactly the requests and lines of the full pre-order traversal up to the budget's last line |
| NotionContent.LinesOfCut | src/lib/notion.ts:911-946 | cutting a traversal at a budget keeps exactly its first lines |
| NotionContent.BudgetsNest | src/lib/notion.ts:911-946 | of two walks below the same block the one with the smaller budget makes the first requests of the other and returns the first of its lines |
| NotionReading.TraversalPaths | src/lib/notion.ts:911-946 | reading a page shows one line for each block with text that is reached through blocks with children and is not too deep, with its depth, parents before children and siblings in order |
| NotionSection.PlannedIff | src/lib/notion.ts:540-571 | a plan exists if and only if exactly one section has the label |
| NotionSection.NotFoundIff | src/lib/notion.ts:560-566 | a label is reported as not found, with the labels there are, if and only if no section has it |
| NotionSection.AmbiguousIff | src/lib/notion.ts:567-569 | a label is reported as ambiguous if and only if two sections have it |
| NotionSection.CarryOut | src/lib/notion.ts:1140-1152 | however many calls succeed, the page is the one with that many blocks archived, and the new body once all succeed |
| NotionSection.ReplaceSection | src/lib/notion.ts:1127-1152 | the error cases, and otherwise the page above for the section found |
| NotionSection.FlattenParse | src/lib/notion.ts:526-532 | reading a page as sections loses nothing |
| NotionSection.OnlyTheTargetChanges | src/lib/notion.ts:1127-1152 | however far a run gets, the preamble and all other sections are unchanged and in place, and the target has the rest of its old body or exactly the new one |
| NotionSection.UpdateSection | src/lib/notion.ts:1127-1152 | one call with a paragraph and bullets: without a heading, without content or without exactly one section of that name nothing changes; otherwise the body of that section, and nothing else on the page, becomes the trimmed paragraph, if visible, followed by one bullet for each visible bullet in order, or loses its first blocks when a call fails |
| NotionSection.NothingToWriteIff | src/lib/notion.ts:439-454 | there is no content if and only if the paragraph and all bullets are blank |
| NotionSection.DraftsAreNoHeadings | src/lib/notion.ts:439-454 | the blocks built for a section never start another |
| NotionSection.ReplanArchivesTheNewBlocks | src/lib/notion.ts:573-583 | planning again on the result archives exactly the new blocks, under the same heading |
| NotionSection.BlankHeadingsGoWithTheBody | src/lib/notion.ts:550-556 | all other level-2 headings survive if and only if the replaced body has none |
| NotionSection.BlankHeadingIsLost | src/lib/notion.ts:550-556 | a page as it is listed, and the plan for one of its sections, that archives a heading without visible text |
| SlackSections.CutAt | src/lib/slack-format.ts:82-86 | a long line is cut at its last break in the final two fifths, or at the limit when there is none |
| SlackSections.SplitLongLine | src/lib/slack-format.ts:75-93 | the loop computes the pieces function and terminates |
| SlackSections.SplitSections | src/lib/slack-format.ts:95-135 | the nested loops compute the sections function |
| SlackSections.SectionsFit | src/lib/slack-format.ts:95-135 | every section is non-empty and at most 3000 characters |
| SlackSections.SectionsAreFull | src/lib/slack-format.ts:104-117 | sections are filled greedily: each starts with a part the one before had no room for |
| SlackSections.ParagraphsAre | src/lib/slack-format.ts:95-99 | paragraphs are what blank lines separate: a text without one is a single trimmed paragraph, and a blank line between two texts puts their paragraphs one after the other |
| SlackSections.SectionsAreParagraphs | src/lib/slack-format.ts:95-135 | if every paragraph fits, the sections are the paragraphs, whole and in order, with blank lines between |
| SlackSections.SectionsKeepVisibleText | src/lib/slack-format.ts:75-135 | without white space the sections joined are the text |
| SlackBlocks.GroupLines | src/lib/slack-format.ts:268-306 | the lines of a paragraph become maximal groups of bullets and of other lines, each line once and in order |
| SlackBlocks.LinesOfSections | src/lib/slack-format.ts:95-135 | the sections have exactly the non-blank lines of the text, long ones wrapped |
| SlackBlocks.BuildSlackBlocks | src/lib/slack-format.ts:258-310 | the blocks show every non-blank line of the text once and in order, long ones wrapped |
| SlackBlocks.NoLongLines | src/lib/slack-format.ts:75-78 | without lines over the limit nothing is wrapped |
| RichText.UnparseTokenize | src/lib/slack-format.ts:158-235 | the tokens of a text write out as the text: each position is read once |
| RichText.TokenizeUnparse | src/lib/slack-format.ts:158-235 | tokens are read back exactly from the text they are written as if and only if every markup character among them is a delimiter or literal text that nothing behind it closes |
| RichText.PlainTextIsKept | src/lib/slack-format.ts:212-235 | text without delimiters is shown as it is |
| RichText.PairIsCode | src/lib/slack-format.ts:166-177 | text between two back quotes is one element with the code style added, and what follows is shown as it would be alone |
| RichText.PairIsBold | src/lib/slack-format.ts:179-191 | text between two stars is shown as it would be alone with the bold style added |
| RichText.AngleIsLink | src/lib/slack-format.ts:193-208 | an address and a caption in angle brackets are a link with the style around it, or nothing if the address is empty |
| RichText.OrdinaryIsText | src/lib/slack-format.ts:210-226 | text up to the next markup character is one element |
| RichText.UnpairedIsText | src/lib/slack-format.ts:228-233 | a markup character that opens nothing is shown as it is |
| RichText.ParseRichTextElements | src/lib/slack-format.ts:158-242 | the recursive loop with its filter gives the elements of the tokens |
| ThreadQueue.NextInv | src/runtime/app-runtime-shared.ts:13-29 | every step keeps the chain: a job is chained to its key's last unreleased one |
| ThreadQueue.RefinesQueues | src/runtime/app-runtime-shared.ts:13-29 | every step is a step of a queue per key: enqueue at the back, release at the front, others untouched |
| ThreadQueue.HeadCanMove | src/runtime/app-runtime-shared.ts:16-26 | the head of every non-empty queue can take its next step whatever other keys do |
| ThreadQueue.OneAtATime | src/runtime/app-runtime-shared.ts:16-26 | in every run at most one job of a key is between its start and its release |
| ThreadQueue.StartedInEnqueueOrder | src/runtime/app-runtime-shared.ts:16-26 | in every run the jobs of a key start in enqueue order, each once, even after failures |
| ThreadQueue.MapHoldsUnfinishedKeys | src/runtime/app-runtime-shared.ts:21-28 | in every run the map holds a key exactly while it has unfinished jobs, with the last of them |
| ThreadQueue.ThreadQueue.Add | src/runtime/app-runtime-shared.ts:16-29 | enqueue is the model's enqueue step and keeps the chain |
| ThreadQueue.ThreadQueue.Cleanup | src/runtime/app-runtime-shared.ts:21-25 | the finally callback is the model's release step and keeps the chain |
| WebhookLedger.FindUpdate | src/lib/linear-webhook.ts:210-225 | a status update changes the entry of its delivery and no other |
| WebhookLedger.FindUpsert | src/lib/linear-webhook.ts:199-208 | an upsert replaces or adds the entry of its delivery and no other |
| WebhookLedger.IdsStayUnique | src/lib/linear-webhook.ts:199-225 | both keep delivery ids unique |
| WebhookLedger.TrimKeepsAllIff | src/state/repositories/file-backed-manager-repositories.ts:117-121 | a save keeps everything if and only if there are at most 1000 entries and none is older than 30 days |
| WebhookLedger.TrimKeepsIff | src/state/repositories/file-backed-manager-repositories.ts:117-121 | a save keeps an entry if and only if it is at most 30 days old and fewer than 1000 recent entries follow it |
| WebhookLedger.FindTrim | src/state/repositories/file-backed-manager-repositories.ts:117-121 | a save drops an entry or leaves it as it is |
| Webhook.RunOrdered | src/runtime/webhook-request-handler.ts:250-326 | in every run ledger ids are unique and jobs run in the order their webhooks were accepted |
| Webhook.ProcessedAtMostOnce | src/runtime/webhook-request-handler.ts:250-326 | in every run whose saves keep its entry a delivery is processed at most once |
| Webhook.CreatedIssuesAreNotHandled | src/runtime/webhook-request-handler.ts:72-86 | in every run an issue a job recorded as created is not handled by a later job, even if its webhook arrived while that job was running |
| Webhook.FinalStatusChangesIff | src/runtime/webhook-request-handler.ts:181-306 | at any step of a run whose saves keep its entry the final status of a delivery changes if and only if the notification about it fails |
| Webhook.RunFinalIsSettled | src/runtime/webhook-request-handler.ts:112-306 | in every such run a delivery with a final status is neither queued nor being handled |
| WebhookOutcomes.IssueReceived | src/runtime/webhook-request-handler.ts:259-287 | at any point of a run an issue webhook is recorded as received and queued if its delivery is unknown; a repeated one queues nothing and is marked only while the first is undecided |
| WebhookOutcomes.OtherReceived | src/runtime/webhook-request-handler.ts:250-257 | any other webhook is recorded as unsupported and changes nothing else |
| WebhookOutcomes.JobBegins | src/runtime/webhook-request-handler.ts:64-105 | the next job is that of the next accepted delivery; its issue is handled if and only if it could be looked up, belongs to the team and no delivery in the ledger has created it by its id or identifier; otherwise the entry says which of these failed |
| WebhookOutcomes.JobEnds | src/runtime/webhook-request-handler.ts:112-179 | when the handler ends the job's record and entry say what it created and how it ended, and the control room is told unless there was nothing to do or it threw |
| WebhookOutcomes.JobNotified | src/runtime/webhook-request-handler.ts:165-306 | telling the control room changes nothing, and if it fails the delivery is marked as failed |
| WebhookOutcomes.PassedOverIfCreated | src/runtime/webhook-request-handler.ts:72-86 | in every run an issue of the team is passed over only if an earlier job recorded that it created it |
| WebhookArrivals.RetainedInTime | src/state/repositories/file-backed-manager-repositories.ts:72-121 | no save drops a delivery in a run in which, after its first arrival, nothing happens later than 30 days on and fewer than 1000 further webhooks are received |
| WebhookArrivals.HandledOnceInTime | src/runtime/webhook-request-handler.ts:250-326 | in every such run the delivery is processed at most once, however often it arrives |
| WebhookArrivals.NoLoopInTime | src/runtime/webhook-request-handler.ts:72-86 | in every such run no later job handles an issue that the delivery's job recorded as created |
| WebhookArrivals.HandledTwiceAfterRetention | src/state/repositories/file-backed-manager-repositories.ts:72-121 | the limit of 30 days is sharp: a run in which a repeated delivery is handled again a millisecond later |
| WebhookArrivals.QueuedTwiceAfterAThousand | src/state/repositories/file-backed-manager-repositories.ts:72-121 | the limit on further webhooks is sharp: a run in which 1000 of them make a delivery queued again |
| WebhookRetention.RetainedIff | src/state/repositories/file-backed-manager-repositories.ts:72-121 | in every run in time order a delivery's entry is kept if and only if, after its first arrival, the ledger is never saved more than 30 days later and fewer than 1000 deliveries are added |
| WebhookRetention.KeptWithin | src/state/repositories/file-backed-manager-repositories.ts:72-121 | and as long as it is kept, the entries behind it are exactly as many as the deliveries added since |
| WebhookQueue.ChainServesTheQueue | src/runtime/webhook-request-handler.ts:287-326 | on the promise chain, whenever a job may start no other job is at work and it is the job of the next delivery in acceptance order |
| WebhookQueue.ChainRunsTheWebhook | src/runtime/webhook-request-handler.ts:250-326 | on the promise chain the webhook takes a run of its own model, so the results above hold there |
| WebhookQueue.AcceptedAreJobs | src/runtime/webhook-request-handler.ts:280-287 | every accepted delivery has its own job, and started jobs are exactly the taken deliveries |
| WebhookHandler.Handler.HandleIssueWebhook | src/runtime/webhook-request-handler.ts:259-285 | the method is the model's step for an issue-created webhook, and keeps unique ids and acceptance order |
| WebhookHandler.Handler.HandleOtherWebhook | src/runtime/webhook-request-handler.ts:250-257 | the method is the model's step for any other webhook, and keeps unique ids and acceptance order |
| WebhookHandler.Handler.BeginJob | src/runtime/webhook-request-handler.ts:64-105 | the method is the model's step from the queue to the handed-over issue, and keeps unique ids and acceptance order |
| WebhookHandler.Handler.FinishHandling | src/runtime/webhook-request-handler.ts:112-179 | the method is the model's step for the handler's result, and keeps unique ids and acceptance order |
| WebhookHandler.Handler.FinishNotifying | src/runtime/webhook-request-handler.ts:181-306 | the method is the model's step for the notification's outcome, and keeps unique ids and acceptance order |
| PolicyDiff.PatchRestores | src/runtime/state-recovery-notifier.ts:36-87 | applied as a patch to the previous value the difference gives the restored one, up to key order |
| PolicyDiff.EmptyIffSame | src/runtime/state-recovery-notifier.ts:36-87 | nothing is reported if and only if the two agree up to the order of keys outside arrays |
| PolicyDiff.EntriesAreTrue | src/runtime/state-recovery-notifier.ts:36-87 | every reported entry gives its path's value before, or that there was none, and its value afterwards, or that there is none, and the two differ |
| PolicyDiff.KeyOrderInArraysIsReported | src/runtime/state-recovery-notifier.ts:32-34 | arrays of the same records with other key order are reported as changed |
| PolicyDiff.PathsArePrefixFree | src/runtime/state-recovery-notifier.ts:36-87 | no reported path is a prefix of another |
| PolicyDiff.CollectDiff | src/runtime/state-recovery-notifier.ts:36-87 | the recursive collector with its two loops gives the difference, under its path prefix |

## Left out

- Remote calls, processes, HTTP, signatures and the file system: steps that succeed or fail, and values for files.
- The Slack reply stream assumes that a successful post gives a timestamp not used before, that a failed call had no effect and a successful one acts when its answer arrives, that event callbacks do not throw and that finalizeReply is called once; the then, catch and finally of the placeholder's post are one step.
- Text lengths count Dafny characters, where the source's limit of 3000 counts UTF-16 code units.
- Rendering of messages (messagePayloadText, formatSlackMessageText) is an arbitrary function.
- Dates are integers without the range limit of Date; times outside 00:00 to 23:59, which the schema's pattern lets through, are excluded.
- The scheduler's jobs have unique ids; crashes inside a tick, manual runs and edits of the files during a tick are not modelled.
- localeCompare is an arbitrary ranking of ids in JobMigration and an arbitrary reordering in MemoryRender.
- JSON and zod parsing: files are their parsed values.
- Lower-casing of summaries is an arbitrary function; white-space normalization is the source's.
- MemoryCommit.FileShowsLastWritten: assumes that every write and save of a batch succeeds; a ledger that cannot be saved after the file was written is not modelled.
- The promoted entries a batch returns are represented by their ids.
- MemoryDiagnostics.AnalyzeWorkspaceMemory: does not report headings, wording warnings or the sorted project lists, which are filters over the same lines and map.
- The agents file's printer (renderAgents), which is a single filter and sort per section.
- The two write calls of NotionSection.RemotePage (archiving removes a block, appending inserts behind one) say what the service is assumed to do; the source only builds the requests.
- Notion ids are opaque non-empty texts, so the trimming of ids is not modelled; the pages of a block listing are joined into one list, and the limit on blocks per append call is not modelled.
- Shell: parameter expansion, globbing and operators are not interpreted; a command with any of them unquoted is not read at all, which only makes the result stronger.
- SlackSections assumes the limit of 3000 only where it is named; cutting itself is proved for every limit of at least 2.
- Bullet lines of a list block are kept as lines; RichText models how each is parsed.
- MemoryRoundTrip.AnalyzeRecovers: is not an equivalence in the headings inside texts, because some of them change nothing the analyzer reports, such as a second heading of the section an entry is in.
- Webhook: each load, check and save is one step, and so is taking a job up to the looked-up issue. A delivery recorded while the lookup of an issue outside the team is under way would be overwritten by the older list.
- Webhook.CreatedIssuesAreNotHandled: speaks of issues recorded with the job's result; a job that throws after creating issues records none.
- A delivery id always carries the same event.
- PolicyDiff paths are lists of keys; joined with dots, as the source prints them, keys that contain dots are ambiguous. Inherited properties, which the in operator also sees, are not modelled, nor is the shortening of printed values.
- JSON state recovery and retention (src/state/json-file-store.ts), pipe tables and review introductions (src/lib/system-slack-reply.ts), duplicate candidates and their resolution, business-day counting, built-in job synchronization and attachment windows: shorter loops whose claims are easier than those above.
