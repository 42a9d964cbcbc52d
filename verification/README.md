# sjmb-slack: recovery, admission and filtering, verified in Dafny

The bot harvests URLs from Slack. One kind of connection, the user session, promises
more than best effort: it keeps per-channel checkpoints on disk, and a checkpoint is
meant to move only over messages that the worker has acknowledged, through
disconnects, restarts and crashes. This project models that protocol, the store
behind it, the worker that answers it, the Socket Mode admission path, and the
algorithmic pieces around them, and proves what they keep.

Run `dafny verify dfyconfig.toml` in this directory.

## How the model is built

- `Snapshots.dfy` says, as functions on values, what every `Store` operation does to
  the data behind its mutex. `Store.dfy` has the class itself, updated in place; every
  method is proved to compute the function of the same name. `Tracking.dfy` says what
  that leaves of threads, duplicate log, checkpoints and flags, without the functions.
- `Protocol.dfy` is the session as a step machine: the socket reader, the consumer,
  the recovery loop, the worker, saving, reconnecting and crashing, in any
  interleaving. Ghost state holds the messages ever posted, the acknowledged and the
  filtered ones, a floor per channel (the earliest second the bot has undertaken to
  cover) and the file on disk. `Safety.dfy`, `Progress.dfy` and `Reload.dfy` hold the
  invariants, `Theorems.dfy` what they mean for every run; `Delay.dfy`, and
  `Retention.dfy` with `Retries.dfy`, give two exact conditions over all runs.
- `Recovery.dfy` (`process`, the page loop, a pass, a round) and `SocketReader.dfy`
  have the same code imperatively; `Screening.dfy` says which messages `process`
  submits. They are tied to the step machine: `Agreement.dfy` shows that a call of
  `process` is a run of it, `Passes.dfy` that a successful pass is one from `Start` to
  `Finish`, and `SocketReader.FrameIsAStep` that a frame is a step.
- `Worker.dfy`, `SocketMode.dfy`, `Limits.dfy`, `Health.dfy`, `UrlFilter.dfy`,
  `Addresses.dfy`, `Entities.dfy` and `Harvest.dfy` model one component each.

The program relies on four facts about its environment. They are hypotheses, visible
as guards of single steps and nowhere else:

- The stream is first-in first-out and carries every message stamped after `began`,
  which is sampled before the handshake; a message stamped more than OVERLAP (120)
  seconds before a ping's recorded time arrives before the pong
  (`Protocol.StreamDelivered`, guard of `Pong`).
- History shows every message of the requested range that was posted more than
  OVERLAP seconds before the query (`Protocol.HistoryReturned`, guard of `Finish`, about
  what the pages have shown; that the pass has processed all of it is an invariant of
  the machine and, for the code, part of the contract of `recover_channel`).
  `Passes.CompletePassMayFinish` derives the guard from the same promise about Slack's
  replies alone.
- The local clock never goes backwards (guard of `Tick`).
- A `true` answer of the worker outside dry run means that every URL the filter lets
  through was inserted (guard of `Answer`; `Worker.OutcomeIsAnAnswer` proves that the
  worker meets it).

## A finding

`recover` asks history as soon as a connection has begun, for everything up to
`began`, and `finish_recovery` then sets the checkpoint to `began`
(src/slackbot/user_session/recovery.rs:4-28). Messages of the last OVERLAP seconds
before `began` may not be visible in history yet, and the stream owes only what was
stamped after `began`. The next heartbeats move the checkpoint past those messages,
and no later pass asks for them. The overlap subtracted at the next reconnect does
not help, because by then the checkpoint is far ahead. So, under the hypotheses above,
"below `covered_until - OVERLAP` everything is dealt with" is false of the code;
README.md:291-296 of the repository describes the overlap and the checkpoints without
this exception. `Theorems.CheckpointsAreSound` proves the claim for every message
except those a pass was entitled to miss in this way, `Theorems.ExposedIsNarrow` says
where these lie, and
`Delay.SoundExactlyWhenPassesWait` gives the exact condition: the claim holds of every
run, without exception, if and only if passes start more than OVERLAP seconds after
their connection began. The code waits 0 seconds.

## Model

| member | source | states |
|---|---|---|
| Theorems.CheckpointsAreSound | src/slackbot/user_session/state.rs:143-274 | In every run, in memory and in the saved file: a posted message at or above its channel's floor and below `covered_until - OVERLAP` is acknowledged with all its passing URLs stored, or was discarded by a filter, unless a pass that asked history too early was entitled to miss it |
| Theorems.KeptIsAcknowledged | src/slackbot/user_session.rs:461-508 | ... and if no filter discarded it and its channel was never refused as foreign, it is acknowledged with all its passing URLs stored, in every run |
| Theorems.FilteredIsExplained | src/slackbot/user_session.rs:429-490 | In every run, a message counts as discarded only after a step that filtered it or found its channel not to be joined |
| Theorems.ExposedIsNarrow | src/slackbot/user_session/recovery.rs:13-21 | That exemption covers only messages in the channel of a pass that finished, from the last OVERLAP seconds up to the start of its connection |
| Delay.SoundExactlyWhenPassesWait | src/slackbot/user_session/recovery.rs:4-28 | Soundness without exceptions, over all worlds and runs, holds if and only if passes start more than OVERLAP seconds after the connection began; the other direction is a concrete run that loses a message |
| Delay.PatienceExposesNothing | src/slackbot/user_session/recovery.rs:13-22 | When passes wait that long, no pass can miss a message under the history hypothesis |
| Delay.HeartbeatMovesOn | src/slackbot/user_session.rs:416-422 | The losing run: a pass that finishes within the overlap, then a heartbeat that moves the checkpoint past a message nobody has handled |
| Theorems.EveryRun | src/slackbot/user_session.rs:206-508 | Every state that any sequence of steps can reach satisfies all invariants of the session |
| Theorems.StepKeepsInv | src/slackbot/user_session.rs:206-508 | Each step of each task keeps them |
| Theorems.HeartbeatIsABarrier | src/slackbot/user_session.rs:290-354 | When a queued checkpoint takes effect, every message event queued before its pong has been processed to Ok or filtered, and the queue never exceeds its bound |
| Safety.BarrierIsOrdered | src/slackbot/user_session.rs:416-422 | ... and so has every posted message the checkpoint stands for, `began` exclusive to `at - OVERLAP` |
| Safety.AdvanceKeepsBook | src/slackbot/user_session/state.rs:264-274 | Advancing all channels that neither recover nor failed keeps every claim true if everything in between is dealt with |
| Safety.PassIsComplete | src/slackbot/user_session/recovery.rs:46-136 | A pass that has come to the end of its pages has dealt with every message of its range, except for what history was entitled to leave out |
| Safety.FinishKeepsClaims | src/slackbot/user_session/state.rs:255-262 | So `finish_recovery` may move the claim of its channel to the connection's start |
| Safety.BeganKeepsBook | src/slackbot/user_session/state.rs:143-171 | Reconnecting keeps every claim, and each channel that does not await recovery is complete up to the connection's start |
| Safety.AddKeepsClaims | src/slackbot/user_session/state.rs:173-186 | A channel added during a connection claims nothing from before its entry |
| Safety.BeginFacts | src/slackbot/user_session/state.rs:143-171 | With distinct valid members within the cap, `begin_connection` succeeds in any listing order; known channels are recovering at their clipped checkpoint, new ones start at `at`, and no other channel remains |
| Theorems.RecoveryIsNotForgotten | src/slackbot/user_session/state.rs:21-29 | After any crash or reconnect, a channel known when the connection began stays recovering, at the checkpoint it joined with, until its own pass succeeds |
| Theorems.FlagsAreNotSaved | src/slackbot/user_session/state.rs:21-29 | In every run, neither the file nor a save in progress holds a recovering or failed flag |
| Theorems.EveryKnownChannelJoins | src/slackbot/user_session/state.rs:143-171 | ... and those are all the channels that the store knew and that are still joined; the others are dropped; after a crash the store knows what the file has |
| Theorems.NothingMovesBeforeJoining | src/slackbot/user_session.rs:270-284 | Until a connection has joined its members, no step but a crash moves any checkpoint or recovering flag |
| Theorems.FileOnlyAdvances | src/slackbot/user_session/state.rs:305-327 | Through any part of any run, crashes included, the checkpoint on file never decreases while the channel stays on file |
| Theorems.FileIsAnOldMemory | src/slackbot/user_session/state.rs:305-327 | In every run, the file is what the memory was in some earlier state, with its checkpoints, threads, duplicate log and floors, apart from the two flags; a save in progress likewise, from no earlier a state |
| Theorems.FailureFreezesTheChannel | src/slackbot/user_session/state.rs:249-274 | After a failure in a channel its checkpoint does not move, whatever heartbeats and passes follow, until a reconnect, a restart or a new pass on that channel |
| Theorems.OutageIsLosslessOrForfeits | src/slackbot/user_session/recovery.rs:13-15 | Every second up to the connection's start is exactly one of: already claimed, requested by the pass, forfeited; if the outage is at most `window - OVERLAP`, neither clip changes anything and nothing is forfeited |
| Theorems.FloorRisesOnlyByTheWindow | src/slackbot/user_session/state.rs:161-167 | In every run, at every step: falling back on the file after a crash does not raise a tracked channel's floor, a reconnect with `covered_until - OVERLAP` older than the window raises it to the window, and nothing else moves it |
| Theorems.NoFloorEverRises | src/slackbot/user_session/state.rs:143-171 | Over any part of any run in which the channel stays tracked, through reconnects, crashes and restarts: if every outage is at most `window - OVERLAP`, its floor never rises, and without a crash it does not move |
| Theorems.ResubmissionIsExplained | src/slackbot/user_session.rs:461-508 | In every run, whichever tasks do it: between any recording of a message and any later submission of it there is a step at which its entry leaves the duplicate log, by pruning or by a crash |
| Theorems.SeenWasAcknowledged | src/slackbot/user_session/state.rs:217-237 | Every entry of the duplicate log, in memory or on disk, belongs to a message answered `true` |
| Progress.ProcessedIsSeen | src/slackbot/user_session/state.rs:217-230 | Recording a message never prunes the entry it just made |
| Retention.EntryOutlivesRetries | src/slackbot/user_session/state.rs:276-281 | Over any run without a crash, until `through + OVERLAP`: the entry of a message that a pass bounded by `through` can fetch stays in the log unless 32768 later messages were recorded |
| Retention.AgeLimitIsExact | src/slackbot/user_session/state.rs:276-281 | Age-based pruning keeps every single entry such a pass may need if and only if the time is at most `through + OVERLAP` |
| Retries.SafeExactlyWithinTheOverlap | src/slackbot/user_session/recovery.rs:4-16 | Over all worlds and runs: no pass submits a recorded message again up to `d` seconds after its bound, crashes and a full log apart, if and only if `d` is at most OVERLAP; `recover` retries without a limit |
| Retries.ProcessesTwice | src/slackbot/user_session/recovery.rs:4-16 | The run that shows it: recorded live, fetched one second past the limit, pruned on the way to the duplicate check, and submitted again |
| Theorems.SavedStateReloads | src/slackbot/user_session/state.rs:92-123 | At any later time, for any order of the maps, the file of any reachable state passes every check of `open`, its size included |
| Theorems.SaveAlwaysFits | src/slackbot/user_session/state.rs:305-312 | In every reachable state, what a save would write passes the size check |
| Reload.TextFits | src/slackbot/user_session/state.rs:305-312 | The JSON text of anything within the caps is below 16 MiB, so the size check of `save` never fires |
| Reload.PruneRestoresCaps | src/slackbot/user_session/state.rs:276-303 | After pruning, the thread and duplicate caps hold again |
| Reload.BookKeepsCaps | src/slackbot/user_session/state.rs:143-186 | Reconnecting, adding, checkpointing, saving and reloading keep all limits that `open` checks |
| Snapshots.PruneIsExact | src/slackbot/user_session/state.rs:276-303 | Survivors are the min(fresh, 4096) largest threads by (time, channel, timestamp) over all channels, the duplicate log is the last min(32768, n) fresh entries, and nothing else changes |
| Snapshots.RetainedIsInOrder | src/slackbot/user_session/state.rs:277-278 | Retaining is per entry and keeps the order |
| Snapshots.KeepsNewestIsUnique | src/slackbot/user_session/state.rs:285-301 | That description of the eviction has only one solution |
| Snapshots.JoinAllIsPointwise | src/slackbot/user_session/state.rs:143-168 | With distinct valid members within the cap, the joining loop never fails, in any order, and leaves exactly the members, each joined as if it were the only one |
| StoreObject.Store.constructor | src/slackbot/user_session/state.rs:134-140 | The store starts with the given data and window |
| StoreObject.Store.BeginConnection | src/slackbot/user_session/state.rs:143-171 | In place: the data and the result are those of `Snapshots.BeginConnection` |
| Tracking.ReconnectKeepsThreads | src/slackbot/user_session/state.rs:143-171 | A reconnect keeps the newest 4096 fresh threads among all those of channels that were known and are still joined, and the fresh end of the duplicate log; one that fails removes nothing else but the channels left |
| Tracking.JoiningStops | src/slackbot/user_session/state.rs:146-152 | It fails at the first invalid identifier, or new one beyond 4096 channels, with exactly the identifiers before it joined |
| StoreObject.Store.AddChannel | src/slackbot/user_session/state.rs:173-186 | In place: as `Snapshots.AddChannel` |
| Tracking.AddingIsExact | src/slackbot/user_session/state.rs:173-186 | A new channel starts at the given time with nothing tracked; a known one is left alone; an invalid identifier or one beyond 4096 changes nothing |
| StoreObject.Store.RecoveryChannels | src/slackbot/user_session/state.rs:188-195 | Exactly the recovering channels, with their data |
| StoreObject.Store.ThreadsOf | src/slackbot/user_session/state.rs:197-203 | Exactly the tracked threads of the channel, none if it is unknown |
| StoreObject.Store.RetryChannel | src/slackbot/user_session/state.rs:205-209 | Clears the failed flag of one channel, nothing else |
| StoreObject.Store.ForgetThread | src/slackbot/user_session/state.rs:211-215 | Removes one thread, nothing else |
| Tracking.ThreadIsForgotten | src/slackbot/user_session/state.rs:211-215 | Afterwards exactly the other threads are tracked |
| StoreObject.Store.Processed | src/slackbot/user_session/state.rs:217-230 | Appends the entry, remembers a valid parent of a known channel, prunes |
| StoreObject.Store.IsSeen | src/slackbot/user_session/state.rs:232-237 | True exactly when an entry for channel and timestamp exists |
| StoreObject.Store.RememberThread | src/slackbot/user_session/state.rs:239-247 | Remembers a valid parent of a known channel; prunes in any case |
| Tracking.RememberingTracks | src/slackbot/user_session/state.rs:239-247 | Afterwards the newest 4096 fresh ones among the parent, as of now, and all other threads are tracked; the parent is missing only if 4096 others were noted no earlier |
| Tracking.RecordingTracks | src/slackbot/user_session/state.rs:217-230 | Recording a message does the same for its parent |
| Tracking.SavingIsExact | src/slackbot/user_session/state.rs:21-29 | A save writes checkpoints, threads and duplicate log unchanged, and neither flag |
| StoreObject.Store.Failed | src/slackbot/user_session/state.rs:249-253 | Sets the failed flag of one channel, nothing else |
| Tracking.FlaggingIsExact | src/slackbot/user_session/state.rs:205-253 | Setting or clearing a failed flag changes no other flag, checkpoint, thread or log entry |
| StoreObject.Store.FinishRecovery | src/slackbot/user_session/state.rs:255-262 | Moves the checkpoint up and ends recovery exactly when the channel is known and did not fail |
| Tracking.FinishingIsExact | src/slackbot/user_session/state.rs:255-262 | Finishing moves its own channel to the later of the two times and ends its recovery, unless it failed; it changes nothing else, tracked threads included |
| StoreObject.Store.Checkpoint | src/slackbot/user_session/state.rs:264-274 | Advances every channel that neither recovers nor failed, then prunes |
| Tracking.CheckpointMoves | src/slackbot/user_session/state.rs:264-274 | A checkpoint moves each channel that neither recovers nor failed at least to it, none back, no other one; threads and log are only pruned |
| StoreObject.Store.Prune | src/slackbot/user_session/state.rs:276-303 | The retain, pop, sort and remove steps together are `Snapshots.Prune` |
| StoreObject.Store.EvictOldest | src/slackbot/user_session/state.rs:285-301 | Sorting and removing a prefix leaves exactly the 4096 newest threads |
| StoreObject.Sort | src/slackbot/user_session/state.rs:296 | The sorted list has the same threads, strictly ascending |
| StoreObject.CheckChannels | src/slackbot/user_session/state.rs:102-116 | The loop over the channels accepts exactly when each passes its checks and all threads together meet the cap |
| StoreObject.Open | src/slackbot/user_session/state.rs:66-141 | Yields the file's data exactly when every check passes, an empty store when there is no file, an error otherwise |
| StoreObject.AcceptedExactly | src/slackbot/user_session/state.rs:66-123 | What a file must be to be accepted, in numbers: account and version, 16 MiB, 4096 channels, 4096 threads in all, 32768 entries, checkpoints from zero to five minutes ahead, valid identifiers and timestamps |
| RecoveryPass.Session.Process | src/slackbot/user_session.rs:461-508 | In place: normalise, remember the thread, look for a duplicate, filter, submit, then record or mark as failed; data and result are those of `RecoveryPass.Processing` |
| Screening.HarvestedIsSubmitted | src/slackbot/user_session.rs:461-508 | A visible message without a subtype or with one of the four kept ones, with a valid timestamp, that parses, fits the limits and is not in the duplicate log, is submitted; the answer of the worker decides |
| Screening.ConfirmedIsLogged | src/slackbot/user_session.rs:500-502 | If the worker confirms, the message is in the duplicate log afterwards |
| Screening.ConfirmedIsRecorded | src/slackbot/user_session.rs:461-508 | ... recorded with the thread it names, the one being read, or its own if it has replies |
| Screening.UnconfirmedIsBlamed | src/slackbot/user_session.rs:503-507 | If not, the call fails, the channel and only it is marked as failed, and the log does not have the message |
| Screening.KnownIsSkipped | src/slackbot/user_session.rs:477-485 | A message that the log has or that exceeds a limit is not submitted; only its thread is noted |
| Screening.OthersAreDropped | src/slackbot/user_session.rs:521-562 | Hidden messages, other kinds and subtypes, invalid timestamps and what does not parse change nothing |
| Screening.DiscardedByItsFields | src/slackbot/user_session.rs:461-562 | A filter discards exactly these, and what exceeds a limit without being in the log |
| Screening.ThreadIsNoted | src/slackbot/user_session.rs:474-476 | The thread of a harvested message is tracked from then on, a duplicate's too |
| RecoveryPass.ProcessingKeepsCheckpoints | src/slackbot/user_session.rs:461-508 | Processing a message moves no checkpoint, and marks its channel as failed exactly when it fails |
| RecoveryPass.Session.RecoverPages | src/slackbot/user_session/recovery.rs:75-136 | Requests follow the chain of cursors from the empty one; the result is Ok if and only if the chain ends within the page limit, without repetition, with readable pages, and everything in range was processed successfully; otherwise the error is Slack's own exactly if it refused the last request, and a local one if not, and exactly the items up to the reason for stopping were processed |
| RecoveryPass.CompleteMeans | src/slackbot/user_session/recovery.rs:97-134 | What a successful chain takes, in numbers: pages of at most 1000 objects, cursors of at most 4096 octets that do not repeat, none on the last page, which does not claim more |
| RecoveryPass.Session.ReadPage | src/slackbot/user_session/recovery.rs:97-133 | One page: processed in order, exactly the items whose second is in range, up to the first that is no object or fails; `next_cursor`'s checks (src/slackbot/user_session.rs:609-621) included |
| RecoveryPass.FailureIsIncomplete | src/slackbot/user_session/recovery.rs:103-126 | Once an item of a page fails, no number of further pages makes the chain complete |
| RecoveryPass.LeadsOn | src/slackbot/user_session/recovery.rs:127-134 | The set of cursors detects exactly the chains that run into a circle |
| RecoveryPass.Session.RecoverChannel | src/slackbot/user_session/recovery.rs:46-73 | History, then the threads tracked by that time, each at most once, within the page limit; Ok exactly if all of them were read to their end or reported missing and forgotten; otherwise the last one visited ended with the error returned: Slack's own if it refused the last request of all, else a local one |
| RecoveryPass.SuccessMeans | src/slackbot/user_session/recovery.rs:46-73 | A pass that succeeds has read history, then exactly the threads that the channel tracked by then, each once and within the page limit, to the end or until Slack said that the thread was gone |
| RecoveryPass.FailureMeans | src/slackbot/user_session/recovery.rs:46-73 | One that fails has ended at a source that no number of requests within the limit reads to its end |
| RecoveryPass.Session.RecoverSource | src/slackbot/user_session/recovery.rs:55-70 | A missing thread is forgotten and not an error; every other refusal comes back as the very error Slack gave |
| RecoveryPass.Session.RecoverOne | src/slackbot/user_session/recovery.rs:13-39 | Only a completed pass moves the checkpoint to `through` and ends recovery, and then it always does; after an error the channel is still recovering at the same checkpoint, and no other channel changes either way |
| RecoveryPass.Session.Recover | src/slackbot/user_session/recovery.rs:8-42 | One round: every recovering member is tried once, unless the round ends early; each attempt asks Slack for its channel's range, as of the start of the round, on the store that the ones before left, and does with the replies what a pass does; exactly the finished channels have moved; it reports a failure to authenticate if and only if Slack answered some request of the round so |
| RecoveryPass.RoundReportsRefusals | src/slackbot/user_session/recovery.rs:28-39 | ... and it ends early without an error exactly if Slack answered some request with a rate limit |
| RecoveryPass.RefusalEndsAttempt | src/slackbot/user_session/recovery.rs:46-73 | A refusal of any request, but for a missing thread, ends the attempt on its channel with that error |
| RecoveryPass.ServedKeepsFlags | src/slackbot/user_session/recovery.rs:20-24 | A completed pass leaves no failed flag behind, so `finish_recovery` takes effect |
| Agreement.ProcessIsARun | src/slackbot/user_session.rs:461-508 | From any reachable state in which the consumer or a pass calls `process`, whatever is still queued at the worker, the run can be continued so that the machine has exactly the code's effect: on the store, the lock, the connection and the pass, and on what is acknowledged, discarded and stored |
| Passes.CompleteHasOwed | src/slackbot/user_session/recovery.rs:75-136 | If the page loop succeeded and Slack's pages showed what they owe, everything owed was among the items processed successfully |
| Passes.CompletePassMayFinish | src/slackbot/user_session/recovery.rs:19-21 | So a successful pass meets the guard of the machine's `Finish` |
| Passes.PassIsARun | src/slackbot/user_session/recovery.rs:13-73 | From any reachable state in which a pass may start: whatever `recover_channel` did with Ok continues the run from `Start` to `Finish`; the store is left exactly as the code leaves it, floors, file and members are untouched, everything the pass saw and everything history owed is dealt with, what it saw and no filter discards is acknowledged, and exactly the rest of the last OVERLAP seconds becomes exempt |
| SocketReader.Reader.constructor | src/slackbot/user_session.rs:298-300 | A reader starts with an empty queue and no ping outstanding |
| SocketReader.Reader.Tick | src/slackbot/user_session.rs:303-310 | A ping is sent only when none is outstanding, with the next sequence number; an overdue answer ends the connection |
| SocketReader.Reader.Take | src/slackbot/user_session.rs:417 | The consumer receives the events in the order in which they were queued |
| SocketReader.Reader.Receive | src/slackbot/user_session.rs:311-344 | An event is queued, and the pong of the outstanding ping becomes a checkpoint with that ping's time; the connection ends exactly on an end frame, or when the queue has no room for one of these; nothing else changes anything |
| SocketReader.Reader.Enqueue | src/slackbot/user_session.rs:349-354 | Appends if there is room; a full queue is an error |
| SocketReader.FrameIsAStep | src/slackbot/user_session.rs:311-344 | An end frame and a full queue are the loss of the connection, an event is received, the answer to the ping is the machine's pong; any other frame is no step |
| Worker.HandleMsg | src/slackbot.rs:535-579 | The rows are those of all attempts, failures notwithstanding; Ok exactly in dry run or when no passing URL was refused |
| Worker.HandleMessages | src/slackbot.rs:500-533 | Messages leave in queue order, each once, each with an honest receipt; nothing is accepted after the drain signal; a normal end means everything accepted was handled, and after the signal it comes within one turn per message and one more |
| Worker.HandleOne | src/slackbot.rs:517-528 | An expired message gets `false` and no insert; otherwise the receipt is the result of handling |
| Worker.ReceiptIsHonest | src/slackbot.rs:517-579 | `false` exactly for expiry or, outside dry run, a refused insert; one row for each URL that passes and is stored, in order, whatever becomes of the others, none in dry run; so `true` outside dry run means that exactly the passing URLs are stored |
| Worker.OutcomeIsAnAnswer | src/slackbot.rs:500-533 | The worker's outcome is always an answer that the session's step machine allows |
| SocketMode.Ingress.Enqueue | src/slackbot/socket_mode.rs:131-161 | Exactly the unknown keys with room in an open queue are queued and recorded; a refused or overflowing event is not recorded; a duplicate is acknowledged and leaves queue and cache alone |
| SocketMode.DuplicatesAreSuppressed | src/slackbot/socket_mode.rs:131-161 | Over every history, across sessions: the same key is admitted twice only 900 seconds apart, or with at least `capacity` other keys admitted in between |
| SocketMode.EnqueueExtends | src/slackbot/socket_mode.rs:190-199 | The calls of any number of sessions sharing the cache form such a history |
| SocketMode.LookupExtends | src/slackbot/socket_mode.rs:148-151 | ... calls that do not admit anything included |
| Limits.ExpiringCache.constructor | src/limits.rs:18-24 | An empty cache of positive capacity |
| Limits.ExpiringCache.Get | src/limits.rs:26-34 | A hit strictly before expiry; otherwise the entry is dropped |
| Limits.ExpiringCache.Insert | src/limits.rs:36-49 | Evicts one entry of minimum expiry exactly when the key is new and the cache is full; the size stays within capacity |
| Limits.CacheMeansItsHistory | src/limits.rs:26-49 | After any operations at non-decreasing times, with any lifetimes: a hit is the latest insertion's value before its expiry, and a miss on an unexpired key was evicted as the oldest entry of a full cache |
| Limits.HoldsLatest | src/limits.rs:36-49 | What is in the cache is each key's latest insertion |
| Limits.LeavesForAReason | src/limits.rs:26-49 | A latest insertion leaves only by a read after expiry or by such an eviction |
| HealthMonitor.NoLostWakeup | src/slackbot/socket_mode.rs:31-48 | In every run, a waiter parked over an event that has happened still has a notification coming |
| HealthMonitor.WaiterEnds | src/slackbot/socket_mode.rs:31-48 | Once the notifiers are done, a waiter whose event has happened ends within four steps of its own, whatever stale permits are left |
| HealthMonitor.FirstFailureStays | src/slackbot/socket_mode.rs:19-29 | The failure slot holds the first failure of the run, and a waiter that reports a failure reports that one |
| HealthMonitor.Health.StoreFailure | src/slackbot/socket_mode.rs:19-22 | The object's store is the machine's step |
| HealthMonitor.Health.StoreReady | src/slackbot/socket_mode.rs:393-404 | ... as is a hello from the right app |
| HealthMonitor.Health.NotifyOne | src/slackbot/socket_mode.rs:21-22 | ... and a notification, which wakes a parked waiter or leaves one permit |
| HealthMonitor.Health.Turn | src/slackbot/socket_mode.rs:31-48 | An undisturbed turn of either waiting loop is the machine's steps in sequence |
| UrlFilter.SearchIsTheRule | src/url_filter.rs:68-82 | For canonical rules and any name, the search finds something exactly when some rule's labels are a suffix of the name's labels |
| UrlFilter.UrlFilter.BlocksDomain | src/url_filter.rs:68-82 | The loop terminates and is exactly that search |
| UrlFilter.DnsNameIsCanonical | src/url_filter.rs:137-154 | Accepted names are canonical: idempotent, absolute, lower case, labels of 1 to 63 octets and at most 255 octets on the wire, as in section 2.3.4 of RFC 1035 |
| UrlFilter.DnsNameMeans | src/url_filter.rs:135-154 | Accepted are exactly the names of labels of 1 to 63 letters, digits and inner hyphens, at most 253 octets, with or without a final dot; the result has the same labels in lower case and a final dot |
| UrlFilter.BlocksUnion | src/url_filter.rs:63-66 | A union of rules blocks exactly what either set blocks |
| UrlFilter.SplitIsInjective | src/url_filter.rs:68-82 | Names are equal exactly when their labels are, so looking up text is looking up labels |
| UrlFilter.UrlFilter.Add | src/url_filter.rs:37-61 | A rule becomes an address or a canonical name, or is rejected with the filter unchanged |
| UrlFilter.UrlFilter.Include | src/url_filter.rs:63-66 | The filter holds the union afterwards; the other one is unchanged |
| UrlFilter.UrlFilter.Check | src/url_filter.rs:96-132 | Passes exactly when scheme, host, rules and all resolved addresses allow it; the resolver is asked exactly about well-formed names that no rule blocks |
| UrlFilter.NamesAreAdmitted | src/url_filter.rs:96-132 | A name passes if and only if no rule's labels end it and the resolver gives 1 to 64 addresses that are all public and unlisted; a single other one refuses the answer |
| UrlFilter.AddressesAreAdmitted | src/url_filter.rs:96-132 | An address passes exactly if it is public and unlisted; a URL without a host never does |
| Addresses.MaskIsInterval4 | src/url_filter.rs:184-186 | For every prefix length and aligned base, the mask test is membership in the prefix's interval (prefix notation of section 3.1 of RFC 4632) |
| Addresses.MaskIsInterval6 | src/url_filter.rs:191-204 | The same for 128 bits |
| Addresses.IntervalSize4 | src/url_filter.rs:184-186 | The interval runs from the base to base + 2^(32 - bits) - 1 |
| Addresses.IntervalSize6 | src/url_filter.rs:191-204 | The interval runs from the base to base + 2^(128 - bits) - 1 |
| Addresses.PublicV4IsComplement | src/url_filter.rs:165-187 | `public_v4` is the complement of fifteen explicit address ranges |
| Addresses.PublicV6IsComplement | src/url_filter.rs:189-204 | `public_v6` is 2000::/3 as a range, without four explicit ranges |
| Entities.ChainIsOnePass | src/harvest.rs:33-37 | For every text, replacing `&lt;`, then `&gt;`, then `&amp;` everywhere equals one left-to-right pass that decodes each entity once |
| Entities.DecodingIsSafe | src/harvest.rs:33-37 | Decoding never lengthens a text and undoes the escaping of `&`, `<` and `>` in any text |
| Harvest.TimestampMeans | src/harvest.rs:12-24 | A timestamp parses to a second exactly when it is that second in digits, optionally with a point and more digits, and the second is representable; printing a second and parsing it is the identity |
| Harvest.TimestampAlphabet | src/harvest.rs:12-24 | A valid timestamp has no character that JSON would escape |

## Left out

- HTTP, TLS, websocket framing, reconnect tickets, header and URL building and API error texts: a connection opens or ends and a request is answered or refused, at any time.
- Files, OS locks and cancellation inside `save`: a save copies the memory at one moment and replaces the file at a later one, or not at all; at most one is in progress.
- PostgreSQL, DNS, time-outs, regular expressions, URL, IDNA and JSON parsing: their results are inputs. The URLs a message owes are those the filter lets through whenever asked.
- `discover_channels` and `consume` as loops: the consumer is a part of the step machine; the member list is an arbitrary set of at most 4096 valid identifiers, which is what discovery checks. The cursor chain of discovery is the one proved for the page loop.
- The JSON schema behind `normalise`: whether an event fits it is an input. In the step machine any message may be filtered at any time before submission; `Theorems.KeptIsAcknowledged` speaks of those that are not, and `Screening.dfy` of which ones the code filters.
- Untracked thread replies, messages posted while not in a channel, and what a channel missed before its entry was made: the bot does not undertake to cover these, and the floor says so.
- Exactly-once submission: not provided by the code; a submission that failed, timed out or was cancelled is repeated.
- A pass that ends with an error is tied to the step machine call by call, a successful one as a whole; a run of the machine takes all pages of one source together.
- Recovery in `Recovery.dfy` runs without other tasks in between, one clock value serves the two readings inside one store call, and the checkpoints read at the start of a round are the current ones because recovering channels are frozen; interleavings, and the save after each finished channel, are covered by the step machine.
- Liveness and real time: nothing is said about when a step happens, except that time does not go backwards.
- Name lookups, counters, logging, configuration, back-off and the shutdown of listeners.
- RecoveryPass.Session.RecoverChannel: visits threads in any order, where the code takes them in ascending order.
- Limits.ExpiringCache.Insert: leaves open which of several entries with the same minimum expiry goes, as the hash map does.
- HealthMonitor.Health.Turn: assumes that no notifier runs during the turn; the machine does not.
- SocketMode.EnqueueExtends: covers calls in the order in which they hold the cache's lock.
- Reload.TextFits: counts one octet per character, which is exact for the ASCII text that identifiers, timestamps and numbers are.
