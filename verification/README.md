# Wolnut, modelled and proved

Wolnut is a controller that watches a UPS. On battery it asks an agent on each machine to shut
the machine down; when power is back it wakes the machines again. This project models the state
machines on both sides and proves what they keep over whole runs: with lost messages, retries,
restarts, concurrent requests and edited configurations.

`dafny verify dfyconfig.toml` checks everything.

## How it is built

Where the program changes fields, dictionaries or files in place, a class with methods and loops
does the same, and each method is proved against a specification: a function of the old state, or a
relation where the outcome is not determined. The theorems are about that specification.

| modules | models |
|---|---|
| `CommandIds` | identifiers of shutdown commands |
| `Tracker`, `Coordinator`, `Monitor` | the controller's client state tracker, the delivery of shutdowns, the polling loop |
| `Frames`, `Runs`, `Restorations`, `StuckRun` | whole runs of that loop: phases, crash and resume, notifications, completion, waking, termination |
| `Marks` | what a restoration goes by, traced back to readings, probes and the configuration: who was up when power failed, who is skipped, what is sent, when it is over |
| `Asked` | exactly which clients are asked to shut down, and when |
| `Outages` | how long an outage identifier lives, and what the next loss of power finds |
| `Deliveries`, `Retries`, `LostNotices` | runs of the loop with restarts and crashes, together with everything it ever sent: what records say about it, retries and quiet, and notices that a restart forgets |
| `Ledger`, `Concurrency` | the agent's ledger of accepted commands; its threads as program counters over two mutexes |
| `Protocol`, `Recreation` | controller and agents over a network that loses requests and responses; clients removed and added again |
| `OneClient` | polls of a configuration with one client, for concrete runs |
| `Enrollment`, `Pairing`, `EnrollmentProtocol` | one-time tokens, the agent's pairing handlers, and the three-stage enrollment end to end |
| `Configuration` | validation and every locked read-modify-write of the client list |
| `Fingerprint`, `UpsSnapshot` | texts that cross a boundary: fingerprints, and the reading of the UPS |
| `Settings`, `Crypto`, `Wrappers` | shared types |

A poll, a request and a handler each read the clock once. Time is in whole seconds.

## Where the code does less than one might expect

Each of these is the behaviour of the code, with the exact condition under which the stronger claim
holds and, where a condition alone would not show it, a run on which it fails.

* Eviction from the agent's ledger goes by recorded time. A command can be forgotten the moment it
  is accepted exactly when the ledger is full and holds nothing older (`Ledger.ForgottenAtOnceIff`);
  after a clock step back the same command then powers off again (`Ledger.ClockStepBackRepeats`).
* A restart on an older state file can repeat a notice. From any point of any run no notice is ever
  repeated exactly if none is forgotten there (`LostNotices.NoticesStayUniqueExactly`);
  `LostNotices.UnsavedNoticeRepeats` is a run in which one is. Acknowledgements are true on every
  run, forgotten records or not (`Protocol.AckMeansPowerOff`).
* A client removed and added again during an outage starts at delivery sequence 0. The identifier it
  then uses was used before exactly if sequence 0 was sent to that name in this outage
  (`Recreation.RecreatedIdExactly`). An agent that remembers it accepts without a power-off while the
  controller shows an acknowledgement (`Recreation.RecreatedIsDuplicate`, `Recreation.SameIdAfterReadding`).
* A loss of power is not always a new outage. It gets a new identifier exactly if a restoration
  completed or a quiet poll came since the last one (`Outages.NewOutageExactly`). After a restoration
  that timed out the identifier stays, and clients that had acknowledged are not asked again
  (`Outages.RearmedExactly`, `Outages.TimeoutKeepsOutage`).
* "All clients online" does not complete a restoration: a client that came back and went down again
  stays recorded as down. `Restorations.CompletionExactly` gives the exact condition,
  `Restorations.StuckNeverCompletes` what follows, and `StuckRun.AllOnlineNotFinished` a concrete run.
* Five wrong pairing codes close a code only if their count can be saved
  (`Pairing.ComparedExactly`, `Pairing.SixWrongGuesses`).
* Enrollment statuses are not final. A paired record is still paired exactly if every late claim or
  look-up of it and every failure since was followed by another completion
  (`Enrollment.PairedStaysExactly`, `Enrollment.PairedExpires`).

## Model

| member | source | states |
|---|---|---|
| CommandIds.CommandIdInjective | wolnut/shutdown.py:66-68 | outage, client name and sequence can be read back from the colon-joined identifier, even when names contain colons |
| CommandIds.AutomaticIsNotManual | wolnut/shutdown.py:66-68 | an automatic identifier is never one of a shutdown given by hand |
| CommandIds.DecimalRoundTrip | wolnut/shutdown.py:67 | the printed sequence number reads back as the same number |
| Ledger.PruneProcessed | agent/main.go:717-733 | from a ledger of any size exactly min(size, limit) entries stay, with their times, and nothing removed is newer than anything kept |
| Ledger.SortByTime | agent/main.go:729 | a permutation in order of time that promises nothing about ties |
| Ledger.DropFirst | agent/main.go:730-732 | exactly the listed entries are gone and the rest is as it was |
| Ledger.ShutdownServer.AcceptCommand | agent/main.go:139-152 | a known command changes nothing and is reported as known; a new one is added and the ledger pruned; errors leave it alone, and exactly an unreadable file or an unwritable one for a new command is an error |
| Ledger.ShutdownServer.HandleShutdown | agent/main.go:686-715 | invalid messages are refused; exactly the answer "accepted, not a duplicate" starts one power-off, for the command of the message |
| Ledger.StepKeepsOrEvicts | agent/main.go:139-152 | an entry survives a request with its time, or it was dropped from a full ledger in which nothing is older |
| Ledger.StaysUntilEvicted | agent/main.go:139-152 | over any run an accepted command stays in the ledger with its time until it is evicted |
| Ledger.AtMostOncePowerOff | agent/main.go:699-714 | between two clears a command schedules at most one power-off, unless it was evicted in between in favour of 100 entries not older |
| Ledger.SameMessageTwice | agent/main.go:670-684 | with a clock that does not go back, the same message schedules two power-offs only less than 300 seconds apart and only if 100 commands were accepted inside that window |
| Ledger.NeverOverLimit | agent/main.go:149-151 | the ledger never holds more than 100 entries |
| Ledger.RefusedExactly | agent/main.go:670-684 | with a visible identifier and one of the two sources a message is refused exactly outside the two time windows; without an identifier or with any other source always; a refusal changes nothing |
| Ledger.MinuteMessageExactly | wolnut/agent_client.py:386-405 | a message valid for a minute is refused exactly more than two minutes early or a minute late; otherwise a duplicate is one exactly if the ledger knows it, and a new one leaves at most 100 entries |
| Ledger.EntryWasAccepted | agent/main.go:144-151 | whatever is in the ledger was accepted, and powered off for, earlier in the run |
| Ledger.KnownExactly | agent/main.go:139-152 | at every point of a run the ledger knows a command exactly if it accepted it and neither cleared nor evicted it since |
| Ledger.ClockStepBackRepeats | agent/main.go:717-733 | after a clock step back below a full ledger, a command is forgotten at once and its repetition is not recognised |
| Ledger.ForgottenAtOnceIff | agent/main.go:717-733 | a new command may be pruned on acceptance exactly when the ledger is full and holds nothing older |
| Concurrency.LedgerIsSerial | agent/main.go:107-116 | in every interleaving of shutdown requests, policy changes, update jobs, resets and process restarts the ledger in the file is the one that accepting the commands one by one gives |
| Concurrency.AcceptedStaysInFile | agent/main.go:139-152 | in every interleaving an accepted command is in the file until pruning evicts it or pairing is reset |
| Concurrency.OneLiveJob | agent/main.go:562-612 | in every interleaving and on every error path there is exactly one live update job while the flag is set and none otherwise |
| Concurrency.TraceInv | agent/main.go:107-116 | every reachable state has at most one thread per mutex, and every copy about to be written back is the current file with one thread's change |
| Concurrency.NoUpdateLost | agent/main.go:107-116 | in every interleaving a step that changes the file is one thread's save, and a save makes exactly the change that thread set out to make |
| Concurrency.RestartAfterInstall | agent/main.go:576-604 | the service is restarted only by a job whose installation reported that a restart is pending |
| Concurrency.StartedBy | agent/main.go:523-560 | an update is started on request or by a saved policy that enables updates, and by nothing else |
| Tracker.ClientStateTracker.constructor | wolnut/state.py:34-64 | the file's contents, with a new record for every client it does not know |
| Tracker.ClientStateTracker.SaveState | wolnut/state.py:113-157 | writes exactly when dirty and different from what was last read or written; a failed write changes nothing |
| Tracker.ClientStateTracker.UpdateOnline | wolnut/state.py:159-184 | records who is online; an acknowledged client seen offline and then online is re-armed with the next delivery sequence |
| Tracker.ClientStateTracker.MarkSent | wolnut/state.py:186-190 | records the time of the last wake packet of that client only |
| Tracker.ClientStateTracker.MarkSkipped | wolnut/state.py:192-197 | marks that client as skipped, and is dirty only if it was not |
| Tracker.ClientStateTracker.MarkAllOnlineClients | wolnut/state.py:199-202 | every client remembers whether it is online now |
| Tracker.ClientStateTracker.SetUpsOnBattery | wolnut/state.py:223-234 | flag and charge as given, and an outage identifier only where there was none |
| Tracker.ClientStateTracker.StartOutage | wolnut/state.py:242-249 | a new outage gets a new identifier and clears every shutdown record; a running one keeps both |
| Tracker.ClientStateTracker.RecordShutdownAttempt | wolnut/state.py:261-283 | stores the attempt in that client's record only |
| Tracker.ClientStateTracker.AcknowledgeShutdown | wolnut/state.py:285-298 | marks that client's record as acknowledged and clears its error |
| Tracker.ClientStateTracker.MarkShutdownFailureNotified | wolnut/state.py:300-306 | marks that client's failure as notified |
| Tracker.ClientStateTracker.ResetAll | wolnut/state.py:341-354 | forgets marks, packets, skips and the outage of everyone, but neither shutdown records nor who is online |
| Tracker.ClientStateTracker.SyncWith | wolnut/state.py:356-378 | known clients stay as they are, new ones start fresh, unlisted ones go; dirty exactly if the set of names changed |
| Coordinator.ShutdownCoordinator.Process | wolnut/shutdown.py:42-121 | the loop over the clients delivers to exactly those that are due, in order, each seeing the records left by the ones before |
| Coordinator.ShutdownCoordinator.Deliver | wolnut/shutdown.py:64-121 | one attempt under the recorded identifier or a new one, its outcome recorded, and one notice for an acceptance or a first failure |
| Asked.AskedIsPermitted | wolnut/shutdown.py:52-63 | whatever a poll delivers, it is on battery, and an enabled entry with shutdown enabled has that name, agent and threshold, with the charge at or below it |
| Asked.AskedExactly | wolnut/shutdown.py:52-63 | a poll asks a client exactly once if it is on battery, the policy permits it at this charge, it is not acknowledged and its last attempt is at least max(poll interval, 5) seconds ago, and otherwise not at all |
| Frames.DeliverEffect | wolnut/shutdown.py:64-121 | an attempt changes one client's shutdown record and nothing else, as its outcome says |
| Frames.WakeFrame | wolnut/cli.py:219-284 | a waking pass changes nothing but the wake bookkeeping |
| Frames.ProbeFrame | wolnut/cli.py:150-154 | probing changes nothing but who is online and re-armed shutdown records |
| Monitor.Service.constructor | wolnut/cli.py:59-62 | the loop starts on battery exactly when the file says so |
| Monitor.Service.Reload | wolnut/cli.py:86-124 | a reload replaces the configuration, syncs the tracker and drops recorded names that are not enabled any more |
| Monitor.Service.ProbeClients | wolnut/cli.py:150-154 | every enabled client is updated with its probe, in order |
| Monitor.Service.HandleOnBattery | wolnut/cli.py:157-177 | the first reading on battery marks who is online and notifies once; every one ends a restoration and delivers shutdowns |
| Monitor.Service.WakeClient | wolnut/cli.py:219-284 | one client in a waking pass: skipped, recovered, waiting or woken |
| Monitor.Service.WakeClients | wolnut/cli.py:219-284 | the loop over the clients is the pass over all of them |
| Monitor.Service.HandleRestoration | wolnut/cli.py:180-317 | a poll of a restoration: wait for charge and delay, wake, then complete, time out or go on |
| Monitor.Service.HandleIdle | wolnut/cli.py:319-324 | a quiet poll forgets the outage and what was recorded |
| Monitor.Service.PollOnce | wolnut/cli.py:85-329 | one turn of the loop, error readings and the save included |
| Runs.LaunchPhase | wolnut/cli.py:54-62 | a process started on any file whose outage flag and identifier go together starts in a phase, on battery or not |
| Runs.RunPhase | wolnut/cli.py:85-329 | in every run on battery and in restoration exclude each other, either implies the outage flag in the tracker, and a clean tracker equals what its file would load |
| Runs.ResumesWhatWasSaved | wolnut/state.py:89-157 | wherever the last save went through, a restart has the same outage, records, sequences and marks, and re-enters an outage or restoration in progress |
| Runs.CrashOnBatteryUnnoticed | wolnut/cli.py:59-62 | after a crash on battery the new process sends and notifies, poll by poll, what the old one would have, up to the first reading on line |
| Runs.PollPowerEvents | wolnut/cli.py:157-190 | a poll notifies a power change exactly when it takes the loop on or off battery |
| Runs.PowerNotificationsAlternate | wolnut/cli.py:134-190 | over every run power-loss and power-restored notices strictly alternate, starting with power-restored exactly when the loop resumed on battery |
| Runs.RestorationPoll | wolnut/cli.py:286-315 | a poll of a restoration keeps its start or ends it, and ends it past both delays |
| Runs.RestorationEndsByDeadline | wolnut/cli.py:286-315 | with power and charge, a restoration is over after the first poll past the restore delay and the client timeout |
| Runs.RestorationTerminates | wolnut/cli.py:180-315 | with an advancing clock every restoration is over after a number of polls bounded by the remaining time |
| Restorations.DownAfterPass | wolnut/cli.py:219-284 | after a pass exactly those are recorded as down who miss now, or were down and have not recovered now |
| Restorations.CompletionExactly | wolnut/cli.py:286-292 | a restoration completes at a waking poll exactly when every enabled, wake-enabled, unskipped client that is always woken or was online before answers and nobody recorded as down is stuck there |
| Restorations.StuckNeverCompletes | wolnut/cli.py:240-256 | a client that came back and went down again keeps the restoration from ever completing |
| StuckRun.AllOnlineNotFinished | wolnut/cli.py:240-256 | a run of three polls in which every client answers and the restoration goes on |
| Restorations.MarksSurvive | wolnut/state.py:199-202 | while an outage or restoration is in progress a client's online-before mark is lost only to a completion, a new time on battery or its removal |
| Marks.MarkedAtLoss | wolnut/state.py:199-202 | at the poll that goes on battery exactly the clients that are up are marked: whose enabled entry answers, or, without one, who were online in memory |
| Marks.MarkedExactly | wolnut/cli.py:157-159 | over every run who is marked is who was up at the last loss of power, unless removed or forgotten by a reset since |
| Marks.CompletionByReach | wolnut/cli.py:219-292 | over every run a restoration completes at a waking poll exactly when every enabled, wake-enabled, unskipped client that is always woken or was up at the poll that went on battery answers and nobody is stuck |
| Marks.SkippedExactly | wolnut/cli.py:223-238 | a client is skipped exactly if nothing was reset and it was skipped before or a waking pass found an entry that is not woken, or not without its having been online |
| Marks.SaidExactly | wolnut/cli.py:240-284 | a packet is sent, fails or a recovery is notified exactly if a waking pass meets an eligible client that is missing with the reattempt delay over, or back after being recorded as down |
| Marks.OverExactly | wolnut/cli.py:192-315 | a restoration is over after an on-line reading exactly if charge and restore delay are met and nobody is recorded as down or the client timeout has passed, and it says which |
| Marks.AlwaysListed | wolnut/cli.py:106-111 | over every run only names with an enabled entry are recorded as down or back |
| Marks.RecordsStayListed | wolnut/cli.py:319-324 | any reload drops other names, and a quiet poll starts over with none |
| Marks.SentAtExactly | wolnut/state.py:186-190 | that and when a packet was sent last is forgotten by a reset or removal, set by a packet, and otherwise kept |
| Marks.ChargeExactly | wolnut/state.py:223-234 | the charge on record is that of the last reading on battery, and full after a reset |
| Marks.OnlineExactly | wolnut/cli.py:150-154 | whether a client is online in memory is decided by its last probe and nothing else |
| Restorations.PacketsKeepDistance | wolnut/cli.py:255-264 | two wake packets to one client, with neither reset nor removal between, are at least the reattempt delay apart |
| Restorations.PacketsWaitForDelay | wolnut/cli.py:192-217 | every wake packet goes out with enough charge and at least the restore delay after every earlier reading on battery |
| Outages.OutageKeptExactly | wolnut/state.py:223-249 | over every run an outage identifier is still on record exactly if no restoration completed and no quiet poll came since |
| Outages.NewOutageExactly | wolnut/cli.py:157-177 | of two losses of power the later one has a new identifier exactly if a restoration completed or a quiet poll came in between |
| Outages.RearmedExactly | wolnut/state.py:242-249 | the next loss of power clears every record if such an end came in between; if not, an acknowledged client keeps its record and is not asked |
| Outages.TimeoutKeepsOutage | wolnut/cli.py:294-315 | a run in which a restoration times out and the next loss of power keeps the identifier and asks nobody who had acknowledged |
| Deliveries.NewSequenceNewId | wolnut/shutdown.py:65-68 | where nothing was forgotten, a delivery sequence with nothing on record uses an identifier that was never sent |
| Deliveries.DeliverSound | wolnut/shutdown.py:64-120 | one delivery keeps records honest and acknowledgements backed, and notices unique where nothing was forgotten |
| Deliveries.AlwaysTruthful | wolnut/shutdown.py:64-120 | over every run, with failed saves, restarts on any file, crashes between two deliveries and clients added again: in memory and in the file, a recorded identifier is outage, name and current sequence, and an acknowledged client accepted the identifier on record |
| Deliveries.AlwaysSound | wolnut/shutdown.py:64-120 | over every run in which restarts follow a save, outages get fresh identifiers and no client of the outage is added again: records account for everything sent, and each identifier causes at most one failure notice and one acceptance notice |
| Retries.ActWhileAcked | wolnut/state.py:159-184 | an acknowledged client stays so from poll to poll unless it was seen offline and answers again, which raises its sequence |
| Retries.QuietUntilBack | wolnut/shutdown.py:52-59 | after an acknowledgement nothing is sent to the client in that outage until its enabled entry was probed offline and then online, and then under a higher sequence |
| Retries.AskedAgainAfterReturn | wolnut/state.py:166-183 | once an attempt was accepted, the next one in that outage comes only after a poll that found the enabled entry offline and a later one that found it online |
| Retries.RetriesReuseExactly | wolnut/shutdown.py:64-68 | two attempts to a client in one outage carry the same identifier exactly if nothing sent to it from the first up to the second was acknowledged |
| LostNotices.NoticesStayUniqueExactly | wolnut/shutdown.py:88-120 | from any world of any run, every continuation sends each notice once exactly if no notice of the outage is forgotten there |
| LostNotices.UnsavedNoticeRepeats | wolnut/state.py:113-157 | a run in which a poll cannot be saved, the process restarts, and the same identifier fails and is notified again; dying right after the delivery does the same |
| Protocol.SystemAlwaysSound | wolnut/shutdown.py:64-112 | over every run, with any requests and responses lost and crashes in the middle of a poll, what agents accepted was sent to them or given by hand, and what the controller takes as accepted was powered off for |
| Protocol.AckMeansPowerOff | wolnut/shutdown.py:107-113 | over every run, a client shown as acknowledged in memory or in the file was asked under the identifier on record, and the agent it was asked through scheduled a power-off for it |
| Protocol.OnePowerOffPerCommand | agent/main.go:699-714 | in the whole system a command powers a machine off at most once between clears, short of an eviction |
| Protocol.FirstOfSequenceIsNoDuplicate | agent/main.go:699-708 | the first request of a delivery sequence is never mistaken for a duplicate by the agent |
| Protocol.ControllerMessageTwice | wolnut/agent_client.py:386-405 | a message of the controller, valid for a minute, can be accepted twice only within 180 seconds of the agent's clock |
| Protocol.ManualExactly | wolnut/web.py:1396-1402 | a shutdown given by hand is refused exactly more than two minutes early or a minute late; otherwise it is a duplicate exactly if the agent knows it and else schedules a power-off |
| Protocol.AutomaticExactly | wolnut/agent_client.py:386-405 | an automatic message is refused exactly then as well, and a duplicate exactly if the agent knows it |
| Recreation.RecreatedIdExactly | wolnut/state.py:359-372 | in every run a client with nothing on record is sent an identifier that was used before exactly if sequence 0 was sent to its name in this outage |
| Recreation.RecreatedIsDuplicate | agent/main.go:699-708 | in every run, if the agent still holds that identifier an acceptance is a duplicate: no power-off, and the controller shows an acknowledgement |
| Recreation.SameIdAfterReadding | wolnut/state.py:356-378 | a run in which a client accepts, is removed and added again, and the same identifier is acknowledged without a second power-off |
| Enrollment.EnrollmentStore.Create | wolnut/enrollment.py:58-95 | refused exactly when an unexpired enrollment of the client is processing; otherwise older ones make way and the new one is pending |
| Enrollment.EnrollmentStore.Find | wolnut/enrollment.py:103-126 | the record of the token, or none exactly when no record has it |
| Enrollment.EnrollmentStore.Claim | wolnut/enrollment.py:97-126 | acts on a record of the token: expired before anything else; a pending record is bound to agent and request; a bound one is granted again to the same agent with the same request only |
| Enrollment.EnrollmentStore.Bootstrap | wolnut/enrollment.py:128-146 | acts on a record of the token: details of a pending one without consuming it; the same errors as a claim otherwise |
| Enrollment.EnrollmentStore.SetResult | wolnut/enrollment.py:154-171 | overwrites status, agent and error of a known record whatever it was |
| Enrollment.EnrollmentStore.StatusOf | wolnut/enrollment.py:173-185 | the stored status, or expired for an active record that is too old |
| Enrollment.ReportedPendingIff | wolnut/enrollment.py:173-185 | shown as pending exactly when a claim at that instant would start processing it |
| Enrollment.CreatedExactly | wolnut/enrollment.py:58-95 | creating succeeds exactly unless one of the client is processing and in time; then the new record is pending, the client's active ones are retired, and nothing else changes |
| Enrollment.GrantedExactly | wolnut/enrollment.py:97-126 | a claim is granted exactly in time, for a free token or one bound to this agent and request |
| Enrollment.LookedUpExactly | wolnut/enrollment.py:128-146 | a look-up answers exactly for a record that is shown as pending, and never consumes it |
| Enrollment.CreatedIsClaimable | wolnut/enrollment.py:58-95 | a new enrollment can be looked up and claimed as long as it lives, and not after |
| Enrollment.RunInv | wolnut/enrollment.py:58-171 | in every reachable store a client has at most one pending or processing record, and every granted claim matches the record it was granted on |
| Enrollment.GrantsAgree | wolnut/enrollment.py:107-125 | all granted claims of a token over a run carry one agent and one request, none after its expiry |
| Enrollment.NeverPendingAgain | wolnut/enrollment.py:58-171 | no record returns to pending, disappears, or changes client, token or expiry |
| Enrollment.PairedStaysExactly | wolnut/enrollment.py:107-110 | over every run a paired record is still paired exactly if every late claim or look-up of it and every failure since was followed by another completion |
| Enrollment.PairedExpires | wolnut/enrollment.py:107-110 | a run in which a completed enrollment becomes expired because its claim is repeated too late |
| Configuration.ValidateClient | wolnut/config.py:301-363 | accepts exactly clients in range, with a usable hardware address if woken, and paired if shut down automatically |
| Configuration.Validate | wolnut/config.py:272-363 | accepts exactly lists of valid clients with unique names |
| Configuration.FindClient | wolnut/web.py:687-701 | finds exactly the one client of a name; none or several are errors |
| Configuration.PersistConfig | wolnut/web.py:957-991 | goes through exactly if no submitted client changes its agent or update policy, settings change only with secure administration, and no name that is paired, by its last entry, is dropped |
| Configuration.ConfigStore.Put | wolnut/web.py:939-1003 | a save stores what was submitted exactly if it is valid and may replace what is there; otherwise nothing changes |
| Configuration.ConfigStore.Store | wolnut/config_store.py:29-37 | a read-modify-write either stores a valid result or leaves the file alone |
| Configuration.ConfigStore.PersistEnrollment | wolnut/web.py:1270-1291 | stores agent and port for that client only, with automatic shutdown off and threshold and policy kept, exactly if the client is found, belongs to no other agent and the result is valid |
| Configuration.ConfigStore.PersistPairing | wolnut/web.py:1338-1353 | the same for pairing by hand, taking over from any other agent; in a valid configuration exactly for a client that exists, an agent that is not blank and a valid port |
| Configuration.ConfigStore.ClearPairing | wolnut/web.py:1534-1543 | leaves that client with no agent, no automatic shutdown and no updates, and everything else as it was; in a valid configuration exactly for a client that exists |
| Configuration.ConfigStore.PersistPolicy | wolnut/web.py:1472-1485 | stores the given policy and nothing else, exactly if the pairing is still the one the agent was told for |
| Configuration.EnrollmentStoredIff | wolnut/web.py:1270-1291 | in a valid configuration an enrollment is stored exactly when its client exists and belongs to no other agent |
| Configuration.SaveKeepsPairings | wolnut/web.py:957-991 | a save leaves every name paired with exactly the agent it had, keeps the update policy of clients that stay, and adds only unpaired clients |
| Configuration.InsecureSaveKeepsSettings | wolnut/web.py:980-981 | without secure administration a save changes no shutdown setting |
| Configuration.AlwaysValid | wolnut/config.py:282-363 | over every run of saves, pairing, enrolling, unpairing and policies names stay unique and automatic shutdown is enabled only on paired clients |
| Configuration.AgentChangesByName | wolnut/web.py:957-991 | over every run the agent of a name changes only by pairing, enrolling or unpairing that name |
| Configuration.EnrollNeverReplaces | wolnut/web.py:1273-1278 | enrolling never takes a client from an agent it is paired with |
| Configuration.FieldsAfter | wolnut/web.py:1338-1351 | over every run, field by field: what pairing, enrolling, unpairing and setting a policy make of the one client they change |
| Configuration.PairingStoredIff | wolnut/web.py:1338-1353 | in a valid configuration pairing by hand goes through exactly for a client that exists, an agent that is not blank and a valid port |
| Configuration.UnpairingStoredIff | wolnut/web.py:1534-1543 | in a valid configuration unpairing goes through exactly for a client that exists |
| Configuration.EnrollAfterUnpair | wolnut/web.py:1534-1543 | over every run a client that was unpaired can then be enrolled with any agent on any valid port |
| Configuration.SaveExactly | wolnut/web.py:957-991 | a save over a valid configuration goes through exactly if it is valid, edits keep agent and policy (and all settings without secure administration), additions are unpaired (with the defaults without it), and what it drops is unpaired |
| Configuration.MacExactly | wolnut/utils.py:18-19 | a hardware address is six pairs of hexadecimal digits with colons or dashes between them |
| Configuration.OrdinaryIsValid | wolnut/config.py:282-363 | a client with a visible name, a usable address, values in range and a visible agent if enabled is accepted |
| Configuration.EmptyIsInvalid | wolnut/config.py:292-296 | a name or agent of nothing but white space is refused |
| Pairing.AgentService.IssueCode | agent/main.go:840-872 | refused when paired; otherwise a new code for ten minutes with no failures, and any started pairing is dropped |
| Pairing.AgentService.ValidateCode | agent/main.go:322-336 | paired, closed, wrong or right, in that order; a wrong guess is counted if it can be saved |
| Pairing.AgentService.HandlePair | agent/main.go:338-402 | a right code with a valid controller starts pairing with a new key and token and uses the code up |
| Pairing.AgentService.HandleComplete | agent/main.go:420-472 | the certificate is stored exactly with a pending key, the token in time, and a certificate for that key, this agent and that authority |
| Pairing.AgentService.PrepareEnrollment | agent/main.go:951-966 | an agent that is not paired saves a request before it sends it, and goes on with the saved one on every retry |
| Pairing.AgentService.FinishEnrollment | agent/main.go:1006-1043 | the answer is stored exactly if it is for this agent, of protocol 1, and its certificates fit each other and the pending key; what is saved is the state loaded before the exchange, over anything saved since |
| Pairing.AgentService.Forget | agent/main.go:735-770 | unpairing leaves the state of a new agent with the same name |
| Pairing.AlwaysSound | agent/main.go:322-472 | at every moment a stored server certificate matches the stored key, verifies under the stored authority, names the agent, and nothing is pending |
| Pairing.GuessesAreLimited | agent/main.go:322-336 | per issued code at most five wrong guesses are compared, not counting those that could not be saved, and at most one right guess starts pairing |
| Pairing.ComparedExactly | agent/main.go:322-336 | while a code is only guessed at, a guess is compared exactly within ten minutes, before the right one, and with fewer than five saved wrong guesses before it |
| Pairing.SixWrongGuesses | agent/main.go:332-335 | with a file that cannot be written six wrong guesses are compared |
| Pairing.CompletionHasOrigin | agent/main.go:338-472 | pairing completes only for who presented a code issued in the last ten minutes and returns within two minutes with the token, key and authority of that very exchange |
| Pairing.PairsAfterReset | agent/main.go:884-912 | whatever state an agent is in, once reset it can be paired by hand: a code used within ten minutes and the certificate for its request within two more |
| Pairing.EnrollsAfterReset | agent/main.go:943-1044 | and it can enroll: the request it saves, answered with a certificate for it, pairs it |
| Pairing.PairedStaysPaired | agent/main.go:322-325 | codes, guesses, completions and new enrollments leave a paired agent alone until it is reset |
| Pairing.OtherAgentRefused | agent/main.go:474-481 | a certificate made for another agent is refused, by hand and when enrolling |
| Pairing.TakenOverIsSigned | agent/main.go:358-370 | whatever certificate is taken over was signed by the authority it came with or that is on record |
| EnrollmentProtocol.OwnClaim | wolnut/web.py:1252-1259 | a claim of a ready token is granted to its agent with its saved request and changes nothing for anyone else |
| EnrollmentProtocol.OwnPersist | wolnut/web.py:1270-1291 | storing the pairing of a ready enrollment succeeds and names exactly its agent |
| EnrollmentProtocol.DeliverKeeps | agent/main.go:1006-1043 | the controller's answer to the saved request is one the agent accepts |
| EnrollmentProtocol.NewIsReady | wolnut/enrollment.py:58-95 | creating an enrollment for an unpaired client of a valid configuration and an agent with a saved request gives one that can succeed |
| EnrollmentProtocol.PreparedWaits | agent/main.go:951-966 | an agent that is not paired is in that position once it has saved its request |
| EnrollmentProtocol.AlwaysReady | wolnut/web.py:1242-1318 | from the creation on, whatever requests and answers are lost and wherever handlers stop, an undisturbed enrollment can still succeed |
| EnrollmentProtocol.RetryIsAccepted | wolnut/enrollment.py:111-121 | every retry with the saved request is accepted |
| EnrollmentProtocol.HandlerAdvances | wolnut/web.py:1291-1292 | a handler of an undisturbed enrollment reaches its next stage whenever it moves |
| EnrollmentProtocol.OneExchangeSuffices | wolnut/web.py:1252-1312 | in a run from the creation on, one exchange that runs to its end leaves the record paired, the configuration naming exactly this agent, and the agent with a certificate for the key it kept |
| EnrollmentProtocol.PairingStays | wolnut/web.py:1270-1289 | once stored, the pairing stays for the rest of an undisturbed run |
| EnrollmentProtocol.HandlersNeverReplace | wolnut/web.py:1273-1278 | no stage of any enrollment takes a client from an agent it is paired with |
| EnrollmentProtocol.OnlyOwnNames | wolnut/agent_client.py:196-247 | every request a handler works on names exactly its own agent: nothing else is ever signed |
| EnrollmentProtocol.ForeignNamesFail | wolnut/web.py:1260-1318 | a granted claim with a request that names anyone else fails the enrollment and changes neither configuration nor agent |
| Fingerprint.CertificateFingerprint | agent/main.go:212-223 | the loop prints the digest as upper-case pairs joined by colons |
| Fingerprint.PrintedIsRecognised | wolnut/agent_client.py:25-35 | for every 32-byte digest the printed fingerprint normalises to the lower-case digits the controller compares |
| Fingerprint.SpellingsAreAccepted | webui/src/shutdownUi.ts:3-6 | in either case, with nothing, colons, dashes or spaces between the pairs, every digest is accepted by interface and controller and read as its digits |
| Fingerprint.PairValue | agent/main.go:219-221 | a byte is spelled with the two digits of its value, the higher one first |
| Fingerprint.PinMatchesIff | wolnut/agent_client.py:292-293 | a printed fingerprint matches a presented certificate exactly when the digests are equal |
| Fingerprint.NormalizeIdempotent | wolnut/agent_client.py:25-35 | normalising twice is normalising once |
| Fingerprint.NormalizeExactly | wolnut/agent_client.py:25-35 | an ASCII text is accepted exactly if it has 64 hexadecimal digits and no other letter, and is read as those digits in lower case |
| Fingerprint.UiAcceptsIff | webui/src/shutdownUi.ts:3-6 | the interface accepts exactly the texts the controller accepts that have only letters, digits and separators, and the controller reads the same digits |
| UpsSnapshot.WordsIff | wolnut/shutdown.py:22 | the split status has exactly the words that stand between white space |
| UpsSnapshot.RoundInRange | wolnut/shutdown.py:30-33 | a rounded charge is from 0 to 100 exactly when the charge is from -0.5 to 100.5 |
| UpsSnapshot.ActsExactly | wolnut/shutdown.py:16-35 | the loop acts exactly on a status in which the letters OB or OL, each in either case, stand alone between white space, with a charge from -0.5 to 100.5; OB wins, and the charge is rounded to the nearest whole number, halves to the even one |
| UpsSnapshot.BatteryFirst | wolnut/shutdown.py:22-24 | a status that begins with OB in any case is acted on as on battery whatever else it says |

## Left out

- `_record_agent_result` and the background pollers of the web process, a second writer of the state file: the tracker is taken as its only writer.
- Update-installed notices and the `agent_update` part of the state file.
- State files that lack keys or load in part: a file is complete, or absent, which is also what the tracker makes of one it cannot read. A failing final rename in `save_state`, after which the tracker believes it saved.
- TLS, X.509, certificate lifetimes, signing and hashing: signatures and hashes are ideal, and the hash of a certificate request is the request itself.
- HTTP, JSON and YAML and the checks of types in them, file permissions, ping, `upsc`, wake sockets and `systemctl`: their outcomes are inputs of a step. A configuration file that does not reload leaves the loop as it was.
- Failing writes of the configuration file: the old file stays, as after any refused operation.
- Trimming of codes and tokens: texts arrive trimmed. Over runs, tokens and identifiers that are drawn at random are new; where two records had the same token, which one is found is left open.
- Locks around the pairing handlers: agent/main.go:347-390, 429-467 and 740-764 load and save without one, and the model treats each as atomic. Enrolling is two steps, before and after the exchange.
- Pairing.AgentService.Forget: the update fields that are cleared with the pairing are not part of the model.
- Monitor.Service.PollOnce: the several clock readings of a poll are one, and `wol_being_sent` and other fields that only decide what is logged are dropped.
- Deliveries.AlwaysTruthful: a crash falls between two deliveries or before the save; one between a delivery and its notice is not told apart.
- Protocol.FirstOfSequenceIsNoDuplicate: among the commands of this controller; messages from other holders of the controller's key are not part of the model.
- Fingerprint.UiAcceptsIff: ASCII texts only, because the two languages disagree on what is a letter or white space beyond them.
- UpsSnapshot.ActsExactly: charges are real numbers instead of binary floating point, and letters beyond ASCII, none of which has O, B or L as its upper case, are left as they are.
- The local auto-update scheduler (never started), the release updater's downloads and version comparison, the browser interface, login, notification providers, address resolution and installation scripts: they would add only easy members.
- Integer widths: times and counts never come near them.
- The rest of the configuration (UPS access, delays, notification settings): only the client list is validated and saved.
