# A verified model of the pipeline's coordination and delivery

The pipeline keeps one Flink job running, its windowed counts in Redis right, and its readers
honest, through crashes, partitions and deposed leaders. This project models the parts of it
that have to be right under every interleaving and proves, with Dafny, what they promise.
`dafny verify dfyconfig.toml` checks all of it.

| file | what it models |
|---|---|
| `JobKeeper.dfy` | the keeper's decision: a declarative rule, and the algorithm with its loops and its memory, proved against it |
| `KeeperProtocol.dfy`, `KeeperSafety.dfy`, `KeeperTheorems.dfy` | any number of keepers over one doubly fenced record and one Flink cluster, as a transition system; its invariant; what holds over every run |
| `KeeperExact.dfy`, `KeeperActs.dfy` | one decision in Flink's own states: what it cancels, keeps and submits, if and only if; and what the steps do over a run: ids recorded, plans carried out, superseded jobs cancelled |
| `KeeperMarks.dfy`, `KeeperTakeover.dfy` | how a "never submitted" mark can be wrong; how a new leader can always take the next generation over; and so exactly when a mark stays true |
| `KeeperRuns.dfy`, `KeeperDecisions.dfy` | what the keeper's own clocks mean over all cycles of a tenure; every decision of a run is the last of such cycles, and the record counts its resubmissions |
| `Leadership.dfy`, `Fencing.dfy`, `FencingRuns.dfy` | the session flags, epochs and fenced snapshots, and `lead` for any number of processes |
| `Shutdown.dfy` | stopping the keeper while its worker is anywhere |
| `Names.dfy` | job names and the record's JSON, written and read back |
| `Windows.dfy`, `WindowsDelivery.dfy`, `WindowsReaders.dfy` | the Redis script, at-least-once delivery into it, and the two readers |
| `Replay.dfy` | what at-least-once processing of a log leaves unchanged, shared by the two consumers |
| `Bulkhead.dfy`, `BulkheadRuns.dfy` | admission shared by a dispatcher, a thread and abandoned requests; who holds a slot and when it goes back, by the steps taken |
| `Fanout.dfy` | the sockets' queues and eviction, and where each socket stands from admission to the slot's return |
| `Bridge.dfy` | the subscription's notices, acknowledgement and heartbeat |
| `KafkaConsumer.dfy` | replay accounting across injected crashes and deaths in the middle of an event |
| `Basics.dfy`, `Ordering.dfy` | shared vocabulary; strings in sorted order |

## What is taken as given

- ZooKeeper answers as one copy: reads see the latest write, a transaction applies wholly or not
  at all. `/epoch`, `/snapshot` and `/flink` are never deleted. A request once sent may be served
  late or never, and its reply may be lost.
- A Flink job answered as terminal, or as not found after it existed, stays so. One `submit` that
  ran creates at most one job, possibly late. Nobody else uses the keeper's job names. A listing
  may omit live jobs, and a lookup may fail, but neither lies.
- Every window has the same length. The server's clock never goes back and is never behind the
  clock the writer read when it began its batch. No script of a failed batch runs after its retry
  begins. Results for one page are on one partition, as the sink's key makes them.
- A lock-protected section with no waiting inside it is one step, except in `Shutdown.dfy`, where
  taking the lock, acting and releasing it are separate steps.

## Where the code does less than one might say of it

- A minute of health need not be uninterrupted. A completed cycle whose listing omits an attempt
  that has no recorded id leaves the running clock alone, so failures can be forgiven although a
  completed cycle in that minute did not see the job RUNNING (`KeeperRuns.HealthyMinuteHasGap`).
  Every completed cycle since the clock's start saw RUNNING exactly when every one of them was
  about that job (`KeeperRuns.ForgivenAfterHealthyMinute`).
- A "never submitted" mark can outlive its truth. In any state, its tenure deposed or not, it is
  wrong only if another tenure's intent for that generation was the one applied and that tenure
  called Flink for it (`KeeperMarks.MarkWrongOnlyIfTakenOver`), which cannot be while the mark's
  own epoch is current. It stays true in every continuation if and only if the generation was not
  run and was brought in by its own tenure, or by another that may no longer run it
  (`KeeperTakeover.MarkStaysTrueIff`). `KeeperTakeover.MarkUnsoundOnceDeposed` is a run in which it is wrong;
  `KeeperTheorems.DeposedWritesRejected` is why that does no harm.
- Retiring a tenure does not take the keeper's lock. No write of it is issued afterwards, whatever
  happens, if and only if none had passed its check when it was retired
  (`Shutdown.RetireSilencesIff`, which says the same of recording an observation); otherwise
  exactly one may be (`Shutdown.AtMostOneAfterRetire`, and `Shutdown.RetireIsNotEnough` for a
  run). Only `stop()` rules out every later write.
- `stop()` does not rule out every later client. A worker that has passed its check may launch one
  after `stop()` has returned (`Shutdown.LaunchedAfterStop`): whatever happens none is launched
  after the flag is set if and only if the worker had not passed that check
  (`Shutdown.StopSilencesLaunchesIff`), and never two (`Shutdown.AtMostOneLaunchAfterFlag`). Once
  `stop()` has returned a client is alive exactly while it has been launched, not handed over, and
  has not ended; handing it over terminates it (`Shutdown.ClientsEndAtStop`).
- Trimming the index compares window starts, which is safe exactly when the written window is at
  least as long as the others (`Windows.TrimIsSafeIff`).
- `latest` asked for zero windows shows all of them, since a slice from minus zero is the whole
  list (`WindowsReaders.Latest`).

## Model

| member | source | states |
|---|---|---|
| `JobKeeper.Decide` | src/pipeline/job_keeper.py:215-347 | one cycle's plan, its report and the memory it leaves satisfy the declarative rule, on every input, unavailable and stale reads included |
| `JobKeeper.Describe` | src/pipeline/job_keeper.py:334-341 | the report: the current job as it was judged, the cancels, and the generations still owed without an id, ascending |
| `JobKeeper.AttachIds` | src/pipeline/job_keeper.py:247-254 | an id-less attempt gains an id exactly when one listed job carries its name |
| `JobKeeper.RecordedSuperseded` | src/pipeline/job_keeper.py:258-258 | exactly the recorded ids below the current generation, each with the last generation holding it |
| `JobKeeper.Supersede` | src/pipeline/job_keeper.py:258-261 | recorded ids below the current generation win over listed jobs, of which the first listing counts |
| `JobKeeper.Reap` | src/pipeline/job_keeper.py:262-271 | cancels exactly the superseded jobs answered as alive and not already cancelling (`KeeperExact.CancelsExactly` names the states), oldest generation first; strikes exactly the attempts whose job is confirmed over |
| `JobKeeper.Assess` | src/pipeline/job_keeper.py:282-313 | what the current generation is doing, and which of the keeper's clocks start, go on or stop |
| `JobKeeper.Conclude` | src/pipeline/job_keeper.py:315-347 | supersedes a stopped generation exactly once its backoff has passed, keeping every other attempt |
| `JobKeeper.Memory.Waited` | src/pipeline/job_keeper.py:170-171 | the time since the key was first seen, starting its clock if it had none |
| `JobKeeper.Memory.Keep` | src/pipeline/job_keeper.py:173-177 | only the current generation's clocks and the marks not below it are kept |
| `JobKeeper.ClampUnobservable` | src/pipeline/job_keeper.py:190-192 | clamping the doublings changes no wait at all if and only if the cap is reached within the clamp |
| `JobKeeper.BackoffMonotone` | src/pipeline/job_keeper.py:195-199 | more failures never wait less, and never past the cap |
| `JobKeeper.BackoffTable` | src/pipeline/job_keeper.py:190-199 | the waits are 0, 10, 20, 40, 80, 160 and then always 300 seconds |
| `KeeperSafety.DecisionRecord` | src/pipeline/job_keeper.py:282-333 | a decision moves the generation by at most one, drops an attempt only for a listed reason, and records only ids that the record or the listing gave it |
| `KeeperSafety.DecisionCancels` | src/pipeline/job_keeper.py:256-271 | every cancelled id comes from a generation strictly below the record's |
| `KeeperExact.CancelsExactly` | src/pipeline/job_keeper.py:256-271 | a completed decision cancels a job if and only if it is recorded or listed under an earlier generation and was answered INITIALIZING, CREATED, RUNNING, FAILING, RESTARTING, SUSPENDED or RECONCILING |
| `KeeperExact.KeepsExactly` | src/pipeline/job_keeper.py:247-323 | an attempt is in the decided record if and only if it was there and its job is not gone nor provably never submitted, under its own id or the one found by name; an advance adds the new one, without an id |
| `KeeperExact.SubmitsExactly` | src/pipeline/job_keeper.py:282-323 | a completed decision submits the next generation if and only if there is no current job to wait for, by the answers, the marks and the uncertainty clock, and the backoff since that was first seen has passed |
| `KeeperExact.LookupsSuffice` | src/pipeline/job_keeper.py:207-212 | a decision is the same whatever the answers for jobs that were not asked about |
| `KeeperSafety.DroppedNotOwed` | src/pipeline/job_keeper.py:282-287 | under the current epoch, a dropped generation's job is over or nobody can ever run it |
| `KeeperSafety.UnconfirmedKeeps` | src/pipeline/job_keeper.py:546-556 | marking an intent never submitted after a lost reply keeps the invariant |
| `KeeperSafety.CommitKeeps` | src/pipeline/coordination.py:247-287 | a doubly fenced write, applied or rejected, however late, keeps the invariant |
| `KeeperSafety.InvKept` | src/pipeline/job_keeper.py:518-649 | every step of every keeper, of ZooKeeper and of Flink keeps the protocol's invariant |
| `KeeperActs.ReturnedSends` | src/pipeline/job_keeper.py:615-618 | a submission that landed sends the intent's record with the landed job's id in its attempt and nothing else changed |
| `KeeperActs.NeverRanSends` | src/pipeline/job_keeper.py:604-611 | a submission that never ran is marked, and sends the intent's record without its attempt, unless interrupted |
| `KeeperActs.MarksExactly` | src/pipeline/job_keeper.py:546-611 | a generation is marked never submitted after any step if and only if the step found that out, or it was marked and the step neither calls Flink for it nor decides from a record past it |
| `KeeperActs.CommitsExactly` | src/pipeline/coordination.py:247-287 | a write served is applied if and only if its epoch is current and nobody wrote since its version, and is then the record's next version |
| `KeeperTheorems.OwedWorkConserved` | src/pipeline/job_keeper.py:247-323 | in every reachable state a generation whose submission ran and whose job is not over is in the record |
| `KeeperTheorems.CancelsOnlySuperseded` | src/pipeline/job_keeper.py:538-544 | a job ever cancelled, even by a deposed keeper on an old read, is of a generation below the record's then and for ever |
| `KeeperTheorems.RecordedIdsAreTrue` | src/pipeline/job_keeper.py:615-618 | an id recorded under a generation, in any version of the record, is that generation's job |
| `KeeperActs.SubmittedIsRecorded` | src/pipeline/job_keeper.py:615-618 | over every run, once the write of a submission that returned is applied, the version after the intent holds the landed job's id and is otherwise the intent; and every later version holds that id until the job is over |
| `KeeperActs.IdStaysRecorded` | src/pipeline/job_keeper.py:247-323 | an id recorded in any version is in every later one for as long as its job is not over |
| `KeeperActs.NeverRanIsStruckOff` | src/pipeline/job_keeper.py:604-611 | over every run, once the write of a submission that never ran is applied, the version after the intent is the intent without that attempt |
| `KeeperActs.CancelsPrecedeWrite` | src/pipeline/job_keeper.py:538-558 | over every run, a tenure writes only after every cancel of its plan was made, and writes the record decided, signed with its own epoch, over the version it decided from |
| `KeeperActs.SupersededCanBeCancelled` | src/pipeline/job_keeper.py:518-544 | from every reachable state, a tenure about to start a cycle can cancel any recorded job of an earlier generation that is still going, and touches nothing else |
| `KeeperTheorems.RecordStepsUnderCurrentEpoch` | src/pipeline/coordination.py:247-287 | the record changes only under the epoch current at that moment, one generation at a time and never back |
| `KeeperTheorems.SubmitFollowsFencedIntent` | src/pipeline/job_keeper.py:546-558 | Flink is called for a generation only after that tenure's own intent for it was applied while its epoch was current |
| `KeeperTheorems.SubmitAtMostOnce` | src/pipeline/job_keeper.py:577-600 | over all keepers and the whole run, submit is called at most once per generation |
| `KeeperTheorems.OneJobPerGeneration` | src/pipeline/job_keeper.py:577-600 | at most one job ever carries a generation |
| `KeeperMarks.MarkWrongOnlyIfTakenOver` | src/pipeline/job_keeper.py:548-611 | in every state, whether or not its tenure is deposed, a mark is wrong only if another tenure's intent for the generation was the one applied and that tenure called Flink for it; while its epoch is current nobody else's can have been |
| `KeeperMarks.OwnMarkStaysTrue` | src/pipeline/job_keeper.py:585-611 | a mark of a generation its own tenure brought in stays true for as long as it is kept, whoever leads by then |
| `KeeperTakeover.MarkStaysTrueIff` | src/pipeline/job_keeper.py:548-611 | a mark stays true in every continuation if and only if its generation was not run and was brought in by its own tenure, or by another that may no longer run it |
| `KeeperTakeover.TakesOver` | src/pipeline/job_keeper.py:215-347 | from every reachable state there is a run in which a new leader brings in the next generation and submits it, every other tenure left as it was |
| `KeeperTakeover.DecisionExists` | src/pipeline/job_keeper.py:215-347 | from an empty listing with every answer final there is a decision, cancelling nothing, which advances exactly when the rule says |
| `KeeperMarks.NeverSubmittedIsSound` | src/pipeline/job_keeper.py:163-168 | while the tenure's epoch is current a marked generation has had no submission that ran, by anyone, and nobody else may still run it |
| `KeeperTheorems.DeposedWritesRejected` | src/pipeline/job_keeper.py:632-649 | a write of an older epoch not yet served when the epoch moved on is never applied |
| `KeeperTakeover.MarkUnsoundOnceDeposed` | src/pipeline/job_keeper.py:548-556 | a concrete run in which a deposed tenure's mark is wrong |
| `KeeperRuns.ClockStart` | src/pipeline/job_keeper.py:170-177 | a running clock shows when a cycle of this tenure saw what starts it, and no cycle since saw what stops it |
| `KeeperRuns.AdvanceIsJustified` | src/pipeline/job_keeper.py:282-323 | the generation advances only if there is none, none recorded, an id-less one this tenure knows it never submitted, one whose job was answered terminal or not found, or an id-less one watched by this tenure for the whole uncertainty window |
| `KeeperRuns.AdvanceWaitsOutBackoff` | src/pipeline/job_keeper.py:315-323 | and only after the backoff for its failures, timed from a cycle of this tenure that found it stopped |
| `KeeperRuns.ForgivenAfterHealthyMinute` | src/pipeline/job_keeper.py:293-304 | failures are forgiven only sixty seconds after a cycle that saw RUNNING; every completed cycle since saw it if and only if every one was about that job |
| `KeeperRuns.HealthyMinuteHasGap` | src/pipeline/job_keeper.py:293-304 | three cycles of one tenure and a decision of the third that forgives failures across a completed cycle that did not see RUNNING |
| `KeeperDecisions.DecisionsAreOneTenures` | src/pipeline/job_keeper.py:480-536 | every decision anywhere in a run is the last of its own tenure's cycles, so it advances only for a reason that tenure saw and after the backoff it timed, and forgives only after a minute it timed |
| `KeeperDecisions.DecisionCounts` | src/pipeline/job_keeper.py:315-333 | an advance counts one failure unless it is the first submission; otherwise failures stay or are forgiven |
| `KeeperDecisions.FailuresNeverExceedResubmissions` | src/pipeline/job_keeper.py:315-333 | in every version of the record, over all keepers and runs, failures lie between none and the resubmissions made |
| `Leadership.FlagsExact` | src/pipeline/coordination.py:725-766 | after any history, work is allowed if and only if the session is up and no LOST came since the last tenure began |
| `Leadership.Leadership.BeginTenure` | src/pipeline/coordination.py:732-743 | a tenure begins if and only if the session is up |
| `Leadership.Leadership.OnState` | src/pipeline/coordination.py:745-755 | the flags keep agreeing with the whole history of session states |
| `Leadership.Leadership.CanWork` | src/pipeline/coordination.py:757-760 | true exactly when the session is up and this tenure has not lost it |
| `Leadership.Leadership.TenureVoid` | src/pipeline/coordination.py:762-766 | true exactly when a LOST came since the last tenure began |
| `Fencing.InvKept` | src/pipeline/coordinator.py:111-233 | every step of any number of leaders, their sessions and ZooKeeper keeps the invariant tying tokens, what ZooKeeper accepted, requests in flight, keeper work and late writes |
| `FencingRuns.EpochValueIsVersion` | src/pipeline/coordination.py:199-217 | the epoch's value always equals its version and counts the claims made |
| `FencingRuns.TokensNeverShared` | src/pipeline/coordination.py:199-217 | no two tenures of any processes, at any two moments, hold the same token |
| `FencingRuns.FailedClaimWitnessed` | src/pipeline/coordination.py:207-217 | a refused claim lost to another tenure's claim, applied between its own read and its refusal |
| `FencingRuns.ClaimEpoch` | src/pipeline/coordination.py:199-217 | the loop fails exactly as often as rivals got in between, and returns the version after all of them |
| `FencingRuns.SnapshotsNeverGoBack` | src/pipeline/coordination.py:220-244 | each accepted snapshot is the newest epoch's of its time, from the tenure that claimed it, so epochs of accepted snapshots never decrease |
| `FencingRuns.RefusedChangesNothing` | src/pipeline/coordination.py:220-244 | a refused request, like every step that serves none, changes no value, no version and no history; an accepted one moves one version by one |
| `FencingRuns.VersionsCountAcceptances` | src/pipeline/coordination.py:199-244 | over any stretch of any run the two versions together grow by exactly the requests accepted |
| `FencingRuns.MatchMeansLatest` | src/pipeline/api.py:421-433 | a marker matches the snapshot if and only if the latest accepted snapshot is of its epoch; never before the first |
| `FencingRuns.MayWorkExactly` | src/pipeline/coordinator.py:128-174 | in every state of every run the flag means what it says; keeper work is active only for the tenure being led, and is active for it unless a later epoch was claimed and the keeper stood down |
| `FencingRuns.AtMostOneWriteAfterLost` | src/pipeline/coordinator.py:170-222 | a tenure that loses its session sends at most one more snapshot, ever |
| `FencingRuns.LostTenureEnds` | src/pipeline/coordinator.py:170-233 | and is over, its keeper work retired, within five steps of its own, whatever everybody else does |
| `FencingRuns.RefusedStepsDown` | src/pipeline/coordinator.py:197-233 | a tenure whose snapshot is refused for its epoch sends nothing more, and after one more step of its own is over with its keeper work retired |
| `FencingRuns.TenureEndsExactly` | src/pipeline/coordinator.py:168-233 | a tenure in its loop stays there, whatever its session does, exactly until the process stops, a check finds the session lost, a snapshot cannot be built, or a write is refused or fails for more than a lost connection |
| `FencingRuns.GatesExactly` | src/pipeline/coordinator.py:128-184 | a tenure begins only under a session that is up; marker, loop and snapshot each follow if and only if it is up and was not lost since; in doubt the tenure ends if and only if it was lost |
| `FencingRuns.KeepingExactly` | src/pipeline/coordinator.py:160-233 | keeper work is active for a tenure exactly from its confirmation until it stands down or the tenure ends |
| `FencingRuns.CanLead` | src/pipeline/coordinator.py:111-224 | from every reachable state a process that is out and connected can come to lead under the next epoch and have any number of snapshots accepted |
| `Shutdown.InvKept` | src/pipeline/job_keeper.py:456-476 | every step of owner, worker, tenures and clients keeps lock, clients and log consistent |
| `Shutdown.NoWriteAfterStop` | src/pipeline/job_keeper.py:468-476 | no record write is issued after stop() has released the lock |
| `Shutdown.ClientsEndAtStop` | src/pipeline/job_keeper.py:468-476 | once stop() returned a client is alive if and only if it is the one launched and not yet handed over, and has not ended; handing it over terminates it |
| `Shutdown.StopSilencesLaunchesIff` | src/pipeline/job_keeper.py:585-625 | in every continuation no client is launched after the flag is set, if and only if the worker had not passed its check for one |
| `Shutdown.AtMostOneLaunchAfterFlag` | src/pipeline/job_keeper.py:585-625 | after the flag is set at most one client is ever launched |
| `Shutdown.LaunchedAfterStop` | src/pipeline/job_keeper.py:585-625 | a concrete run in which one is launched after stop() has returned |
| `Shutdown.OneClientAtATime` | src/pipeline/job_keeper.py:577-625 | at most one client is ever alive and unterminated |
| `Shutdown.ChildFound` | src/pipeline/job_keeper.py:598-625 | stop() finds the client being waited for, unless it was handed over after the flag was set, and no other |
| `Shutdown.ObservationOwnEpoch` | src/pipeline/job_keeper.py:461-466 | however tenures are handed over and retired while a cycle is under way, an observation is served only for the epoch of the tenure whose cycle gathered it |
| `Shutdown.ObservationExactly` | src/pipeline/job_keeper.py:461-466 | asking for an epoch serves an observation if and only if that epoch's cycle was the last to record, and then its own |
| `Shutdown.ObservationGetsThrough` | src/pipeline/job_keeper.py:651-654 | from every reachable state what an active tenure's cycle saw can be recorded and is then served |
| `Shutdown.FrozenOnceStopped` | src/pipeline/job_keeper.py:651-654 | once stop() has set its flag no observation is ever recorded |
| `Shutdown.RetireSilencesIff` | src/pipeline/job_keeper.py:627-654 | in every continuation no write of a retired tenure is issued, nor observation recorded, if and only if none had passed its check when it was retired |
| `Shutdown.AtMostOneAfterRetire` | src/pipeline/job_keeper.py:627-654 | a retired tenure issues at most one more write and records at most one more observation |
| `Shutdown.RetireIsNotEnough` | src/pipeline/job_keeper.py:627-638 | a concrete run in which it issues one |
| `Names.GenerationReadsBack` | src/pipeline/job_keeper.py:88-95 | a job's name gives back its generation, under every base; a negative one is never recognised |
| `Names.OneBaseOnly` | src/pipeline/job_keeper.py:92-95 | no name at all is recognised under two different bases |
| `Names.NamesDistinct` | src/pipeline/job_keeper.py:88-89 | different bases or generations have different names |
| `Names.RecordReadsBack` | src/pipeline/job_keeper.py:117-141 | parsing undoes writing for every record, whatever the order of the attempts |
| `Names.ToJson` | src/pipeline/job_keeper.py:129-141 | the attempts ascend by generation, and parsing gives the record back |
| `Names.MissingMeansEmpty` | src/pipeline/job_keeper.py:117-127 | a record with nothing in it reads as the empty one |
| `Windows.Redis.Script` | src/pipeline/windows_writer.py:67-89 | the script's effect on hash, meta and index, key by key, is the rule: skip expired, refuse older, replace on newer, update on the same |
| `Windows.ScriptsHold` | src/pipeline/windows_writer.py:67-89 | after any run of scripts a live window holds exactly its newest generation's last result per page, with hash, meta and index in agreement |
| `Windows.GenerationNeverMovesBack` | src/pipeline/windows_writer.py:76-83 | at any two moments of a run, while a window lives its generation never decreases |
| `Windows.ExpiredStaysGone` | src/pipeline/windows_writer.py:72-74 | past its end and retention no run of scripts makes a window visible again |
| `Windows.TrimIsSafeIff` | src/pipeline/windows_writer.py:87-87 | trimming removes only expired windows if and only if the written one is at least as long as they are |
| `Windows.IndexExactly` | src/pipeline/windows_writer.py:86-87 | after any run of scripts the index names exactly the windows written and not past their retention at the clock of any script that wrote since |
| `WindowsDelivery.Writer.Deliver` | src/pipeline/windows_writer.py:160-188 | one record runs its script, or none if it is misshapen |
| `WindowsDelivery.Writer.Step` | src/pipeline/windows_writer.py:220-285 | a poll written delivers each partition from its old position to its new one, every offset once and in order, and moves it by exactly the records polled of it, to the log's end at most; then it may commit. A poll that fails, having applied any in-order part of itself, moves nothing and waits longer. An empty poll does nothing |
| `WindowsDelivery.Writer.Run` | src/pipeline/windows_writer.py:248-285 | over any polls, failures and restarts the store is that of the deliveries made, all before each position was delivered last in the log's order, and positions and commits are those the events lead to |
| `WindowsDelivery.PastAllExactly` | src/pipeline/windows_writer.py:227-234 | a batch moves each partition by as many records as it holds of it, to the log's end at most |
| `WindowsDelivery.DrainsExactly` | src/pipeline/windows_writer.py:248-285 | whatever went before, polls that go well drain the topic if and only if they return, of each partition, what was left to read |
| `WindowsDelivery.RewindKeeps` | src/pipeline/windows_writer.py:241-245 | going back to an earlier position loses nothing that was delivered |
| `WindowsDelivery.DrainedAgree` | src/pipeline/windows_writer.py:248-285 | two ways of delivering the whole topic agree on each window's newest generation and each page's last result |
| `WindowsDelivery.DeliveryConverges` | src/pipeline/windows_writer.py:220-285 | once drained, through any interleaving, failures and rewinds, each live window holds exactly what the rule says of the topic |
| `WindowsDelivery.ReadingFaithful` | src/pipeline/windows_writer.py:248-285 | one reading of the topic in order is a faithful delivery of it, up to wherever it has read |
| `WindowsDelivery.Converge` | src/pipeline/windows_writer.py:248-285 | a fresh writer over any polls, failures and restarts drains the topic if the run ends with polls that go well and return every partition; whenever it is drained Redis holds, for every live window, exactly what the rule says of the topic read once in order |
| `WindowsDelivery.ReplayLeavesNoTrace` | src/pipeline/windows_writer.py:248-285 | a run with failures leaves each live window as a run without them does |
| `WindowsReaders.Latest` | src/pipeline/windows.py:53-74 | the newest windows, each with its newest generation's last result per page and nothing else, sorted by window and page |
| `WindowsReaders.LatestIsWhatRedisHolds` | src/pipeline/windows.py:53-74 | what it shows of a live window is exactly what Redis holds of it once the writer has drained the topic |
| `WindowsReaders.RevRange` | src/pipeline/api.py:483-486 | the newest starts above the cutoff, highest first, at most the limit |
| `WindowsReaders.ReadWindows` | src/pipeline/api.py:483-507 | reads the newest live windows of the index, then in a later transaction what Redis holds of them, skipping those whose keys have gone |
| `WindowsReaders.ReaderIsExact` | src/pipeline/api.py:483-507 | with any scripts between the two round trips, each start read is answered, newest first, with end, generation and counts of one moment exactly as the rule says of the later run, or skipped if and only if it expired; no window both clocks call live is left out unless the limit is full of newer ones |
| `Bulkhead.Permit.Hold` | src/pipeline/bulkhead.py:94-101 | adds a holder, and refuses a permit already released |
| `Bulkhead.Permit.Drop` | src/pipeline/bulkhead.py:119-128 | idempotent per holder; only the last to leave releases |
| `Bulkhead.WorkerHold.Begin` | src/pipeline/bulkhead.py:178-186 | the read runs unless the dispatcher has left first |
| `Bulkhead.WorkerHold.DispatcherLeaving` | src/pipeline/bulkhead.py:188-194 | a thread that never started never will |
| `Bulkhead.AdmissionKept` | src/pipeline/bulkhead.py:88-128 | each section, in any order, keeps the holders equal to what their places in the protocol say |
| `Bulkhead.AtMostLimitBusy` | src/pipeline/bulkhead.py:234-270 | at most the limit ever have a read running or an abandoned request outstanding |
| `Bulkhead.ReturnedExactlyOnce` | src/pipeline/bulkhead.py:119-128 | a slot goes back at most once, only after everybody let go, and is back or on its way as soon as everybody has |
| `BulkheadRuns.TraceOf` | src/pipeline/bulkhead.py:94-128 | every run was made by some sequence of steps, so what follows is said of every run |
| `BulkheadRuns.HoldersExactly` | src/pipeline/bulkhead.py:94-128 | by the steps taken: the dispatcher holds until it drops its hold, the worker until the thread or a dispatcher that left first drops it, a request from when the read gave up on it until kazoo completed it |
| `BulkheadRuns.CompletedLetsGo` | src/pipeline/bulkhead.py:103-108 | a request completed holds nothing in any later state, however often its callback runs |
| `BulkheadRuns.SlotGoesBackExactly` | src/pipeline/bulkhead.py:119-128 | by the steps taken: the slot is owed or returned as soon as dispatcher, worker and every request given up on have let go, and not before |
| `BulkheadRuns.RunsExactly` | src/pipeline/bulkhead.py:178-194 | a read runs if and only if its thread started before its dispatcher left |
| `BulkheadRuns.CanGoBack` | src/pipeline/bulkhead.py:119-128 | no slot is ever lost: from every reachable state an admission's holders can let go and its slot then returns, the others left as they were |
| `Bulkhead.NoOverRelease` | src/pipeline/bulkhead.py:94-101 | the gate is never released past its limit, and no hold is attempted on a released permit |
| `Bulkhead.LeftFirstNeverRuns` | src/pipeline/bulkhead.py:178-194 | a read whose dispatcher left before it started never runs |
| `Fanout.PutKeeps` | src/pipeline/fanout.py:96-109 | a put keeps a member gapless, or evicts it having missed nothing until then |
| `Fanout.Hub.Admit` | src/pipeline/fanout.py:76-80 | a slot is given if and only if one is free |
| `Fanout.Hub.Release` | src/pipeline/fanout.py:82-83 | one slot fewer is out |
| `Fanout.Hub.Join` | src/pipeline/fanout.py:85-91 | the first message precedes every later broadcast |
| `Fanout.Hub.Leave` | src/pipeline/fanout.py:93-94 | leaving changes nothing anybody received |
| `Fanout.Hub.Take` | src/pipeline/fanout.py:51-53 | the sender takes the oldest message, and nothing is lost between queue and socket |
| `Fanout.Hub.Broadcast` | src/pipeline/fanout.py:96-109 | every member with room gets the text, every full one is evicted at once, and evictions counts them |
| `Fanout.Endpoint.Occur` | src/pipeline/api.py:773-782 | every section of every socket keeps the slots out equal to the sockets between admission and release, members attended to, and only the evicted closed |
| `Fanout.ServedExactly` | src/pipeline/fanout.py:134-155 | while it is served, a socket is stopping once anything stopped it and is to be closed once its eviction was noticed, before or after the stop |
| `Fanout.ClosedExactly` | src/pipeline/fanout.py:155-163 | a socket is closed with a reason if and only if its eviction was noticed, only after its sender has ended; the rest of its course leads to its slot's return |
| `Fanout.Serve` | src/pipeline/fanout.py:131-163 | for any interleaving of any sockets, a member has its first message and every broadcast since it joined, a former one a prefix of that; queues stay bounded; whoever may still send or is being closed holds a slot, so there are never more of them than the limit |
| `Bridge.Bridge.Acknowledged` | src/pipeline/bridge.py:168-179 | succeeds if and only if every channel was confirmed by name before any failure or the attempt's end |
| `Bridge.Bridge.Forward` | src/pipeline/bridge.py:230-246 | relays exactly what the channel's own parser made of the message; without a channel of ours, or refused by its parser, it is counted as dropped |
| `Bridge.Bridge.Exchange` | src/pipeline/bridge.py:185-205 | a ping is sent exactly when due and none is outstanding, and only its own answer clears it |
| `Bridge.Bridge.Pump` | src/pipeline/bridge.py:181-228 | pings and answers alternate, each ping sent in the first turn it is due; the pump fails in the first turn whose check finds a ping past its one fixed deadline; every message is relayed or dropped |
| `Bridge.RelayedAt` | src/pipeline/bridge.py:230-246 | of any stretch of turns, each message its channel's parser accepts adds exactly its text, after those before it, and no other turn adds any |
| `Bridge.RenewalsAt` | src/pipeline/bridge.py:208-220 | each subscription confirmed again adds one interruption and its end, and no other turn adds a notice |
| `Bridge.Bridge.Try` | src/pipeline/bridge.py:139-164 | an attempt says it recovered only if every channel was confirmed in it, carrying the time of the interruption it ends, and says it was interrupted only if it had recovered; its heartbeat is the pump's |
| `Bridge.Bridge.Run` | src/pipeline/bridge.py:135-166 | over every run notices alternate starting with a recovery, each carrying the preceding interruption's time, the state is subscribed exactly when the last one is a recovery, an attempt speaks only if all its channels were confirmed in it, no two pings share a payload, and every message handled was relayed in order or dropped |
| `Bridge.PayloadsDistinct` | src/pipeline/bridge.py:188-192 | no ping's answer can pass for another's |
| `KafkaConsumer.Consumer.Handle` | src/pipeline/kafka_consumer.py:75-79 | the counter climbs, the last page and the row are replaced, the job is published again; or only the first few of these, if the process dies in between |
| `KafkaConsumer.Consumer.Consume` | src/pipeline/kafka_consumer.py:98-119 | a death leaves at most commit_every increments and jobs past the commit to be made again, and an injected crash reports exactly how many, at least one |
| `KafkaConsumer.Consumer.Survive` | src/pipeline/kafka_consumer.py:98-119 | after any deaths and a drain, increments and jobs total the log's length plus what each death left to be made again; rows and last pages are those of the log's own order |
| `KafkaConsumer.ReplayChangesOnlyCounts` | src/pipeline/kafka_consumer.py:58-79 | each row and last page is as one pass without crashes leaves it |

## Left out

- JobKeeper.Decide: the free-text notes of an observation and the wall time in it are not modelled, nor the order of cancels within one generation; a job id is an opaque number, never the empty string.
- KeeperRuns.HealthyMinuteHasGap: does not exclude gaps in the healthy minute, because the code allows them; the exact condition is `KeeperRuns.ForgivenAfterHealthyMinute`.
- KeeperActs.CancelsPrecedeWrite: a cancel counts as made once it was requested, whether or not Flink accepts it, since the code goes on either way.
- KeeperSafety.InvKept: the keeper's `cycle`, `_submit` and `_write` are steps of a transition system rather than methods of a class, because their interleaving with other keepers is the point.
- Shutdown.InvKept: the sections of `stop`, `_track`, `_write` and `_observe` are steps rather than class methods, for the same reason; the one-second join is not modelled.
- Fencing.InvKept: the ephemeral leader marker is only an outcome (created or not) of acknowledging; `release_leadership`, whose versioned delete cannot tell a recreated marker from its own, is not modelled.
- Names.RecordReadsBack: JSON is a typed value rather than text; integers are an optional minus sign and ASCII digits, where Python also accepts spaces, underscores, a plus sign and other scripts' digits.
- WindowsReaders.Latest: a result without a generation counts as generation zero before it reaches the model, and a window's start is its integer time rather than the ISO text that sorts the same way.
- WindowsDelivery.DeliveryConverges: Redis losing data, consumer-group rebalances and the best-effort hints are not modelled.
- KafkaConsumer.Consumer.Handle: the notification is best effort and keeps no state, so it is not modelled; one partition of the log is.
- Fanout.Serve: members are kept by identity in a map rather than as heap objects with queues of their own; the tasks of `attend` are reduced to the events they cause.
- Bridge.Bridge.Run: the pauses between attempts and their doubling are not modelled; clocks are arbitrary numbers read in order.
- Bulkhead.AtMostLimitBusy: deadlines, error notes and the health flag are not modelled, as nothing proved depends on them.
- Presence, the configuration watcher, the producer, workers, HTTP routes, command-line tools and Flink SQL are not part of this model: plumbing, or run by systems outside the repository.
- Liveness: that a job is eventually running, or a message eventually delivered, is not stated anywhere.
