/**
 The agent's threads: shutdown requests and update jobs that share the state file under one
 mutex and the update flag under another. Every action between two lock operations that
 other threads could see is a step of its own.
 */
module Concurrency {
  import opened Wrappers
  import opened Ledger

  /** The part of the state file these threads touch. */
  datatype File = File(processed: Entries, updateStatus: string, autoUpdate: bool)

  /** What an update callback changes in the file. */
  datatype Change = SetStatus(status: string) | SetPolicy(enabled: bool)

  function Changed(file: File, change: Change): File {
    match change
    case SetStatus(status) => file.(updateStatus := status)
    case SetPolicy(enabled) => file.(autoUpdate := enabled)
  }

  /** Reading, changing and writing back the state file. */
  datatype Write = Lock | Load | Save(copy: File) | Unlock(saved: bool)

  /** Where a thread is. */
  datatype Pc =
    // A shutdown request accepting its command.
    | AcceptLock(request: ShutdownRequest, at: int)
    | AcceptLoad(request: ShutdownRequest, at: int)
    | AcceptSave(request: ShutdownRequest, at: int, copy: File)
    | AcceptUnlock
    // Setting the update policy, which may start an update.
    | PolicyWrite(enabled: bool, write: Write)
    // Starting an update: test and set the flag, then mark the file.
    | StartLock
    | StartTest
    | StartRefuse
    | StartUnlock
    | StartWrite(write: Write)
    // The job itself: install, record the result, perhaps restart and record its failure.
    | JobInstall
    | JobWrite(status: string, write: Write)
    | JobRestart
    | JobRestartFailed(write: Write)
    // Clearing the flag, whatever happened before.
    | FinishLock
    | FinishClear
    | FinishUnlock
    | Done

  type Tid = nat

  datatype State = State(
    file: File,
    mu: Option<Tid>,
    updateMu: Option<Tid>,
    updateRunning: bool,
    threads: map<Tid, Pc>,
    ledgers: seq<Entries>,
    events: seq<Event>)

  // ---------- Steps ----------

  ghost predicate WriteStep(s: State, t: Tid, change: Change, write: Write, next: Write, r: State) {
    match write
    case Lock => s.mu == None && next == Load && r == s.(mu := Some(t))
    case Load => (next == Save(Changed(s.file, change)) || next == Unlock(false)) && r == s
    case Save(copy) => (next == Unlock(true) && r == s.(file := copy)) || (next == Unlock(false) && r == s)
    case Unlock(_) => false
  }

  function At(s: State, t: Tid, pc: Pc): State { s.(threads := s.threads[t := pc]) }

  predicate IsAccepting(pc: Pc) { pc.AcceptLock? || pc.AcceptLoad? || pc.AcceptSave? || pc.AcceptUnlock? }

  /** A shutdown request accepts its command. */
  ghost predicate Accepts(s: State, t: Tid, r: State)
    requires t in s.threads && IsAccepting(s.threads[t])
  {
    match s.threads[t]
    case AcceptLock(request, at) => s.mu == None && r == At(s.(mu := Some(t)), t, AcceptLoad(request, at))
    case AcceptLoad(request, at) =>
      || r == At(s, t, AcceptUnlock)
      || (&& request.commandId !in s.file.processed
          && exists kept | IsPruneOf(kept, s.file.processed[request.commandId := at], LIMIT) ::
               r == At(s, t, AcceptSave(request, at, s.file.(processed := kept))))
    case AcceptSave(request, at, copy) =>
      || r == At(s, t, AcceptUnlock)
      || r == At(s.(file := copy, ledgers := s.ledgers + [copy.processed],
                    events := s.events + [Served(request, at, Accepted(false))]), t, AcceptUnlock)
    case AcceptUnlock => r == At(s.(mu := None), t, Done)
  }

  /** The thread is in an update callback's write: what it changes, and how far it is. */
  function Writing(pc: Pc): Option<(Change, Write)> {
    match pc
    case PolicyWrite(enabled, write) => Some((SetPolicy(enabled), write))
    case StartWrite(write) => Some((SetStatus("checking"), write))
    case JobWrite(status, write) => Some((SetStatus(status), write))
    case JobRestartFailed(write) => Some((SetStatus("failed"), write))
    case _ => None
  }

  /** The same callback, further on. */
  function Onward(pc: Pc, write: Write): Pc
    requires Writing(pc).Some?
  {
    pc.(write := write)
  }

  ghost predicate WritesOn(s: State, t: Tid, r: State)
    requires t in s.threads && Writing(s.threads[t]).Some?
  {
    var (change, write) := Writing(s.threads[t]).value;
    exists next, u :: WriteStep(s, t, change, write, next, u) && r == At(u, t, Onward(s.threads[t], next))
  }

  /**
   Where a thread goes when its write is over and it lets go of the mutex; a start that was saved spawns
   a job instead.
   */
  function AfterWrite(pc: Pc): Pc
    requires Writing(pc).Some? && pc.write.Unlock?
  {
    match pc
    case PolicyWrite(enabled, Unlock(saved)) => if saved && enabled then StartLock else Done
    case StartWrite(Unlock(saved)) => if saved then Done else FinishLock
    case JobWrite(status, _) => if status == "restart_pending" then JobRestart else FinishLock
    case _ => FinishLock
  }

  ghost predicate Unlocks(s: State, t: Tid, r: State)
    requires t in s.threads && Writing(s.threads[t]).Some? && s.threads[t].write.Unlock?
  {
    var freed := At(s.(mu := None), t, AfterWrite(s.threads[t]));
    if s.threads[t] == StartWrite(Unlock(true)) then exists job :: job !in s.threads && r == At(freed, job, JobInstall)
    else r == freed
  }

  /** Testing, setting and clearing the flag, installing and restarting. */
  ghost predicate Proceeds(s: State, t: Tid, r: State)
    requires t in s.threads
  {
    match s.threads[t]
    case StartLock => s.updateMu == None && r == At(s.(updateMu := Some(t)), t, StartTest)
    case StartTest =>
      // Refused if an update is running, and always on an agent without an updater.
      r == At(s, t, StartRefuse) || (!s.updateRunning && r == At(s.(updateRunning := true), t, StartUnlock))
    case StartRefuse => r == At(s.(updateMu := None), t, Done)
    case StartUnlock => r == At(s.(updateMu := None), t, StartWrite(Lock))
    case JobInstall => exists status :: r == At(s, t, JobWrite(status, Lock))
    case JobRestart => r == At(s, t, FinishLock) || r == At(s, t, JobRestartFailed(Lock))
    case FinishLock => s.updateMu == None && r == At(s.(updateMu := Some(t)), t, FinishClear)
    case FinishClear => r == At(s.(updateRunning := false), t, FinishUnlock)
    case FinishUnlock => r == At(s.(updateMu := None), t, Done)
    case _ => false
  }

  /** Thread t of s takes one step to r. */
  ghost predicate Step(s: State, t: Tid, r: State)
    requires t in s.threads
  {
    var pc := s.threads[t];
    if IsAccepting(pc) then Accepts(s, t, r)
    else if Writing(pc).None? then Proceeds(s, t, r)
    else if pc.write.Unlock? then Unlocks(s, t, r)
    else WritesOn(s, t, r)
  }

  /**
   A thread steps, a request or an update arrives, pairing is reset while no thread writes, or the
   process restarts.
   */
  ghost predicate Next(s: State, r: State) {
    || (exists t | t in s.threads :: Step(s, t, r))
    || (exists t, request, at | t !in s.threads && IsValid(request, at) :: r == At(s, t, AcceptLock(request, at)))
    || (exists t | t !in s.threads :: r == At(s, t, StartLock))
    || (exists t, enabled | t !in s.threads :: r == At(s, t, PolicyWrite(enabled, Lock)))
    || (&& s.mu == None
        && r == s.(file := File(map[], "", false), ledgers := s.ledgers + [map[]], events := s.events + [Cleared]))
    || r == s.(mu := None, updateMu := None, updateRunning := false, threads := map[])
  }

  ghost predicate IsInitial(s: State) {
    s == State(File(map[], "", false), None, None, false, map[], [map[]], [])
  }

  ghost predicate IsTrace(states: seq<State>) {
    && |states| > 0 && IsInitial(states[0])
    && forall i | 0 < i < |states| :: Next(states[i - 1], states[i])
  }

  // ---------- Invariant ----------

  predicate Holds(write: Write) { !write.Lock? }

  predicate HoldsMu(pc: Pc) {
    match pc
    case AcceptLoad(_, _) | AcceptSave(_, _, _) | AcceptUnlock => true
    case PolicyWrite(_, write) => Holds(write)
    case StartWrite(write) => Holds(write)
    case JobWrite(_, write) => Holds(write)
    case JobRestartFailed(write) => Holds(write)
    case _ => false
  }

  predicate HoldsUpdateMu(pc: Pc) {
    pc.StartTest? || pc.StartRefuse? || pc.StartUnlock? || pc.FinishClear? || pc.FinishUnlock?
  }

  /** The thread set the update flag and has not cleared it: it is a live update job. */
  predicate IsLive(pc: Pc) {
    || pc.StartUnlock? || pc.StartWrite? || pc.JobInstall? || pc.JobWrite? || pc.JobRestart? || pc.JobRestartFailed?
    || pc.FinishLock? || pc.FinishClear?
  }

  ghost function LiveJobs(s: State): set<Tid> {
    set t | t in s.threads && IsLive(s.threads[t])
  }

  predicate WriteFits(file: File, change: Change, write: Write) {
    write.Save? ==> write.copy == Changed(file, change)
  }

  /** A copy about to be written back is the file with the thread's own change and nothing else. */
  ghost predicate CopyFits(file: File, pc: Pc) {
    match pc
    case AcceptLock(request, at) => IsValid(request, at)
    case AcceptLoad(request, at) => IsValid(request, at)
    case AcceptSave(request, at, copy) =>
      Ledger.Step(file.processed, Served(request, at, Accepted(false)), copy.processed)
      && copy == file.(processed := copy.processed)
    case PolicyWrite(enabled, write) => WriteFits(file, SetPolicy(enabled), write)
    case StartWrite(write) => WriteFits(file, SetStatus("checking"), write)
    case JobWrite(status, write) => WriteFits(file, SetStatus(status), write)
    case JobRestartFailed(write) => WriteFits(file, SetStatus("failed"), write)
    case _ => true
  }

  ghost predicate Locks(s: State) {
    && (forall t | t in s.threads :: HoldsMu(s.threads[t]) ==> s.mu == Some(t))
    && (forall t | t in s.threads :: HoldsUpdateMu(s.threads[t]) ==> s.updateMu == Some(t))
  }

  /** The live update job, if any, is the only one, and the flag tells whether there is one. */
  ghost predicate Jobs(s: State, job: Option<Tid>) {
    && (forall t | t in s.threads :: IsLive(s.threads[t]) <==> job == Some(t))
    && (job.Some? ==> job.value in s.threads)
    && (s.updateRunning <==> job.Some?)
  }

  ghost predicate Serial(s: State) {
    IsRun(s.ledgers, s.events) && s.ledgers[0] == map[] && s.ledgers[|s.events|] == s.file.processed
  }

  ghost predicate Inv(s: State, job: Option<Tid>) {
    && Locks(s) && Jobs(s, job) && Serial(s)
    && forall t | t in s.threads :: CopyFits(s.file, s.threads[t])
  }

  // ---------- Every step keeps the invariant ----------

  /** Who may pass a lock on: nobody else holds it. */
  predicate MayPass(lock: Option<Tid>, t: Tid, after: Option<Tid>) {
    after == lock || lock == None || lock == Some(t)
  }

  /** Thread t, old or new, moves to pc with whatever it may change on the way. */
  lemma Moves(s: State, job: Option<Tid>, t: Tid, pc: Pc, r: State, after: Option<Tid>)
    requires Inv(s, job) && r.threads == s.threads[t := pc] && Serial(r)
    requires MayPass(s.mu, t, r.mu) && (HoldsMu(pc) ==> r.mu == Some(t))
    requires MayPass(s.updateMu, t, r.updateMu) && (HoldsUpdateMu(pc) ==> r.updateMu == Some(t))
    requires MayPass(job, t, after) && (after == job || after == None || after == Some(t))
    requires IsLive(pc) <==> after == Some(t)
    requires (r.updateRunning <==> after.Some?) && (after.Some? ==> after.value in r.threads)
    requires CopyFits(r.file, pc) && (r.file == s.file || s.mu == Some(t))
    ensures Inv(r, after)
  {
    forall u | u in r.threads && u != t
      ensures CopyFits(r.file, r.threads[u])
    {
      assert CopyFits(s.file, s.threads[u]);
    }
  }

  /** What the invariant says about one thread. */
  lemma AboutThread(s: State, job: Option<Tid>, t: Tid)
    requires Inv(s, job) && t in s.threads
    ensures HoldsMu(s.threads[t]) ==> s.mu == Some(t)
    ensures HoldsUpdateMu(s.threads[t]) ==> s.updateMu == Some(t)
    ensures (IsLive(s.threads[t]) <==> job == Some(t)) && (job.Some? ==> job.value in s.threads)
    ensures (s.updateRunning <==> job.Some?) && CopyFits(s.file, s.threads[t]) && Serial(s)
  {}

  lemma SaveStep(s: State, job: Option<Tid>, t: Tid, r: State)
    requires Inv(s, job) && t in s.threads && s.threads[t].AcceptSave? && Accepts(s, t, r)
    ensures Inv(r, job)
  {
    hide IsRun, Inv, IsPruneOf;
    AboutThread(s, job, t);
    var AcceptSave(request, at, copy) := s.threads[t];
    if r.events != s.events {
      SerialGrows(s, Served(request, at, Accepted(false)), copy.processed, r);
    }
    Moves(s, job, t, AcceptUnlock, r, job);
  }

  lemma LoadStep(s: State, job: Option<Tid>, t: Tid, r: State)
    requires Inv(s, job) && t in s.threads && s.threads[t].AcceptLoad? && Accepts(s, t, r)
    ensures Inv(r, job)
  {
    hide IsRun, Inv, IsPruneOf;
    AboutThread(s, job, t);
    var AcceptLoad(request, at) := s.threads[t];
    if r == At(s, t, AcceptUnlock) {
      Moves(s, job, t, AcceptUnlock, r, job);
    } else {
      var kept :| IsPruneOf(kept, s.file.processed[request.commandId := at], LIMIT)
        && r == At(s, t, AcceptSave(request, at, s.file.(processed := kept)));
      Moves(s, job, t, AcceptSave(request, at, s.file.(processed := kept)), r, job);
    }
  }

  lemma AcceptStep(s: State, job: Option<Tid>, t: Tid, r: State)
    requires Inv(s, job) && t in s.threads && IsAccepting(s.threads[t]) && Accepts(s, t, r)
    ensures Inv(r, job)
  {
    hide IsRun, Inv;
    AboutThread(s, job, t);
    match s.threads[t]
    case AcceptLock(request, at) => Moves(s, job, t, AcceptLoad(request, at), r, job);
    case AcceptLoad(_, _) => LoadStep(s, job, t, r);
    case AcceptSave(_, _, _) => SaveStep(s, job, t, r);
    case AcceptUnlock => Moves(s, job, t, Done, r, job);
  }

  lemma SerialGrows(s: State, event: Event, after: Entries, r: State)
    requires Serial(s) && Ledger.Step(s.file.processed, event, after)
    requires r.ledgers == s.ledgers + [after] && r.events == s.events + [event] && r.file.processed == after
    ensures Serial(r)
  {
    forall i | 0 <= i < |r.events|
      ensures Ledger.Step(r.ledgers[i], r.events[i], r.ledgers[i + 1])
    {
      if i < |s.events| {
        assert Ledger.Step(s.ledgers[i], s.events[i], s.ledgers[i + 1]);
      }
    }
  }

  /** The starter hands the job over to a thread of its own. */
  lemma Spawns(s: State, t: Tid, worker: Tid)
    requires Inv(s, Some(t)) && t in s.threads && worker !in s.threads && s.threads[t] == StartWrite(Unlock(true))
    ensures Inv(At(At(s.(mu := None), t, Done), worker, JobInstall), Some(worker))
  {
    var r := At(At(s.(mu := None), t, Done), worker, JobInstall);
    forall u | u in r.threads && u != t && u != worker
      ensures CopyFits(r.file, r.threads[u])
    {
      assert CopyFits(s.file, s.threads[u]);
    }
  }

  lemma WriteOnStep(s: State, job: Option<Tid>, t: Tid, r: State)
    requires Inv(s, job) && t in s.threads && Writing(s.threads[t]).Some? && WritesOn(s, t, r)
    ensures Inv(r, job)
  {
    hide IsRun, Inv;
    AboutThread(s, job, t);
    Moves(s, job, t, r.threads[t], r, job);
  }

  lemma UnlockStep(s: State, job: Option<Tid>, t: Tid, r: State) returns (after: Option<Tid>)
    requires Inv(s, job) && t in s.threads && Writing(s.threads[t]).Some?
    requires s.threads[t].write.Unlock? && Unlocks(s, t, r)
    ensures Inv(r, after)
  {
    hide IsRun, Inv;
    AboutThread(s, job, t);
    if s.threads[t] == StartWrite(Unlock(true)) {
      var worker :| worker !in s.threads && r == At(At(s.(mu := None), t, Done), worker, JobInstall);
      Spawns(s, t, worker);
      after := Some(worker);
    } else {
      Moves(s, job, t, r.threads[t], r, job);
      after := job;
    }
  }

  predicate TouchesFlag(pc: Pc) { pc.StartTest? || pc.FinishClear? }

  lemma FlagStep(s: State, job: Option<Tid>, t: Tid, r: State) returns (after: Option<Tid>)
    requires Inv(s, job) && t in s.threads && Proceeds(s, t, r) && TouchesFlag(s.threads[t])
    ensures Inv(r, after)
  {
    hide IsRun, Inv;
    AboutThread(s, job, t);
    after := if s.threads[t].FinishClear? then None else if r.updateRunning == s.updateRunning then job else Some(t);
    Moves(s, job, t, r.threads[t], r, after);
  }

  lemma StartStep(s: State, job: Option<Tid>, t: Tid, r: State)
    requires Inv(s, job) && t in s.threads && Proceeds(s, t, r)
    requires s.threads[t].StartLock? || s.threads[t].StartRefuse? || s.threads[t].StartUnlock?
    ensures Inv(r, job)
  {
    hide IsRun, Inv;
    AboutThread(s, job, t);
    match s.threads[t]
    case StartLock => Moves(s, job, t, StartTest, r, job);
    case StartRefuse => Moves(s, job, t, Done, r, job);
    case StartUnlock => Moves(s, job, t, StartWrite(Lock), r, job);
  }

  lemma JobStep(s: State, job: Option<Tid>, t: Tid, r: State)
    requires Inv(s, job) && t in s.threads && Proceeds(s, t, r)
    requires s.threads[t].JobInstall? || s.threads[t].JobRestart? || s.threads[t].FinishLock?
      || s.threads[t].FinishUnlock?
    ensures Inv(r, job)
  {
    hide IsRun, Inv;
    AboutThread(s, job, t);
    Moves(s, job, t, r.threads[t], r, job);
  }

  lemma StepKeepsInv(s: State, job: Option<Tid>, t: Tid, r: State) returns (after: Option<Tid>)
    requires Inv(s, job) && t in s.threads && Step(s, t, r)
    ensures Inv(r, after)
  {
    hide Inv, Accepts, Unlocks, WritesOn;
    after := job;
    if IsAccepting(s.threads[t]) {
      AcceptStep(s, job, t, r);
    } else if Writing(s.threads[t]).None? {
      if TouchesFlag(s.threads[t]) {
        after := FlagStep(s, job, t, r);
      } else if s.threads[t].JobInstall? || s.threads[t].JobRestart? || s.threads[t].FinishLock?
        || s.threads[t].FinishUnlock? {
        JobStep(s, job, t, r);
      } else {
        StartStep(s, job, t, r);
      }
    } else if s.threads[t].write.Unlock? {
      after := UnlockStep(s, job, t, r);
    } else {
      WriteOnStep(s, job, t, r);
    }
  }

  lemma ArrivalKeepsInv(s: State, job: Option<Tid>, t: Tid, pc: Pc)
    requires Inv(s, job) && t !in s.threads
    requires pc.AcceptLock? || pc == StartLock || (pc.PolicyWrite? && pc.write == Lock)
    requires CopyFits(s.file, pc)
    ensures Inv(At(s, t, pc), job)
  {
    Moves(s, job, t, pc, At(s, t, pc), job);
  }

  lemma ClearKeepsInv(s: State, job: Option<Tid>, r: State)
    requires Inv(s, job) && s.mu == None
    requires r == s.(file := File(map[], "", false), ledgers := s.ledgers + [map[]], events := s.events + [Cleared])
    ensures Inv(r, job)
  {
    SerialGrows(s, Cleared, map[], r);
    forall t | t in r.threads
      ensures CopyFits(r.file, r.threads[t])
    {
      assert CopyFits(s.file, s.threads[t]) && !HoldsMu(s.threads[t]);
    }
  }

  lemma NextKeepsInv(s: State, job: Option<Tid>, r: State) returns (after: Option<Tid>)
    requires Inv(s, job) && Next(s, r)
    ensures Inv(r, after)
  {
    after := job;
    if r == s.(mu := None, updateMu := None, updateRunning := false, threads := map[]) {
      after := None;
    } else if t :| t in s.threads && Step(s, t, r) {
      after := StepKeepsInv(s, job, t, r);
    } else if t, request, at :| t !in s.threads && IsValid(request, at) && r == At(s, t, AcceptLock(request, at)) {
      ArrivalKeepsInv(s, job, t, AcceptLock(request, at));
    } else if t :| t !in s.threads && r == At(s, t, StartLock) {
      ArrivalKeepsInv(s, job, t, StartLock);
    } else if t, enabled :| t !in s.threads && r == At(s, t, PolicyWrite(enabled, Lock)) {
      ArrivalKeepsInv(s, job, t, PolicyWrite(enabled, Lock));
    } else {
      ClearKeepsInv(s, job, r);
    }
  }

  lemma {:induction false} TraceInv(states: seq<State>, k: nat) returns (job: Option<Tid>)
    requires IsTrace(states) && k < |states|
    ensures Inv(states[k], job)
  {
    if k == 0 {
      return None;
    }
    job := TraceInv(states, k - 1);
    job := NextKeepsInv(states[k - 1], job, states[k]);
  }

  // ---------- Results ----------

  /**
   Whatever the threads do in between, the ledger in the file is the one that accepting the
   commands one after the other would have produced: no update job overwrites an acceptance.
   */
  lemma LedgerIsSerial(states: seq<State>, k: nat)
    requires IsTrace(states) && k < |states|
    ensures var s := states[k]; IsRun(s.ledgers, s.events) && s.ledgers[|s.events|] == s.file.processed
  {
    var _ := TraceInv(states, k);
  }

  /** An accepted command is in the file until it is evicted by pruning or pairing is reset. */
  lemma AcceptedStaysInFile(states: seq<State>, k: nat, i: nat)
    requires IsTrace(states) && k < |states|
    requires i < |states[k].events| && PowersOff(states[k].events, i)
    requires NoClear(states[k].events, i, |states[k].events|)
    ensures var s := states[k];
            && IsRun(s.ledgers, s.events)
            && var id, at := s.events[i].request.commandId, s.events[i].now;
               || (id in s.file.processed && s.file.processed[id] == at)
               || (exists m | i <= m < |s.events| :: EvictedAt(s.ledgers, s.events, m, id, at))
  {
    var s := states[k];
    LedgerIsSerial(states, k);
    var id, at := s.events[i].request.commandId, s.events[i].now;
    if forall m | i <= m < |s.events| :: !EvictedAt(s.ledgers, s.events, m, id, at) {
      StaysUntilEvicted(s.ledgers, s.events, i, |s.events|);
    }
  }

  /** There is exactly one live update job while the flag is set, and none otherwise. */
  lemma OneLiveJob(states: seq<State>, k: nat)
    requires IsTrace(states) && k < |states|
    ensures |LiveJobs(states[k])| == if states[k].updateRunning then 1 else 0
  {
    var job := TraceInv(states, k);
    if job.Some? {
      assert LiveJobs(states[k]) == {job.value};
    } else {
      assert LiveJobs(states[k]) == {};
    }
  }

  /** The file after a thread's save: its own change, and everything else as it is at that moment. */
  predicate SavesOnlyItsChange(file: File, pc: Pc, after: File) {
    match pc
    case PolicyWrite(enabled, _) => after == File(file.processed, file.updateStatus, enabled)
    case StartWrite(_) => after == File(file.processed, "checking", file.autoUpdate)
    case JobWrite(status, _) => after == File(file.processed, status, file.autoUpdate)
    case JobRestartFailed(_) => after == File(file.processed, "failed", file.autoUpdate)
    case AcceptSave(_, _, _) => after.updateStatus == file.updateStatus && after.autoUpdate == file.autoUpdate
    case _ => false
  }

  /**
   In every interleaving a step that changes the file is a thread's save, and a save makes exactly the
   change that thread set out to make: no policy, status or acceptance saved meanwhile is lost.
   */
  lemma NoUpdateLost(states: seq<State>, k: nat, t: Tid)
    requires IsTrace(states) && 0 < k < |states|
    requires t in states[k - 1].threads && Step(states[k - 1], t, states[k])
    ensures t in states[k].threads
    ensures states[k].file != states[k - 1].file || HasSaved(states[k - 1].threads[t], states[k].threads[t]) ==>
              SavesOnlyItsChange(states[k - 1].file, states[k - 1].threads[t], states[k].file)
  {
    hide Inv, IsTrace, Step, SavesOnlyItsChange, HasSaved;
    var job := TraceInv(states, k - 1);
    AboutThread(states[k - 1], job, t);
    StepSaves(states[k - 1], t, states[k]);
  }

  lemma StepSaves(s: State, t: Tid, r: State)
    requires t in s.threads && Step(s, t, r) && CopyFits(s.file, s.threads[t])
    ensures t in r.threads
    ensures r.file != s.file || HasSaved(s.threads[t], r.threads[t]) ==>
              SavesOnlyItsChange(s.file, s.threads[t], r.file)
  {
    hide IsPruneOf;
    if IsAccepting(s.threads[t]) {
      AcceptSaves(s, t, r);
    } else if Writing(s.threads[t]).Some? && !s.threads[t].write.Unlock? {
      hide Proceeds, Unlocks, Accepts;
    } else {
      hide WritesOn, Accepts;
    }
  }

  lemma AcceptSaves(s: State, t: Tid, r: State)
    requires t in s.threads && IsAccepting(s.threads[t]) && Accepts(s, t, r) && CopyFits(s.file, s.threads[t])
    ensures t in r.threads && Writing(s.threads[t]).None?
    ensures r.file != s.file ==> SavesOnlyItsChange(s.file, s.threads[t], r.file)
  {}

  /** The step wrote an update callback's copy back. */
  predicate HasSaved(before: Pc, after: Pc) {
    && Writing(before).Some? && before.write.Save?
    && Writing(after).Some? && after.write == Unlock(true)
  }

  /** The steps at which a thread begins to restart the service. */
  lemma RestartStep(s: State, r: State, t: Tid)
    requires Next(s, r) && t in r.threads && r.threads[t] == JobRestart
    ensures t in s.threads
    ensures s.threads[t] == JobRestart
            || (s.threads[t].JobWrite? && s.threads[t].status == "restart_pending" && s.threads[t].write.Unlock?)
  {
    if u :| u in s.threads && Step(s, u, r) {
      StepMoves(s, u, r, t);
    }
  }

  /** A step changes where its own thread is, and starts at most one new job. */
  lemma StepMoves(s: State, u: Tid, r: State, t: Tid)
    requires u in s.threads && Step(s, u, r) && t in r.threads && r.threads[t] == JobRestart
    ensures t in s.threads && (s.threads[t] == JobRestart || (t == u && s.threads[t].JobWrite?
                                && s.threads[t].status == "restart_pending" && s.threads[t].write.Unlock?))
  {}

  lemma NextAt(states: seq<State>, k: nat, t: Tid)
    requires IsTrace(states) && k < |states| && t in states[k].threads
    ensures k > 0 && Next(states[k - 1], states[k])
  {}

  /** The service is restarted only by a job whose installation reported that a restart is pending. */
  lemma {:induction false} RestartAfterInstall(states: seq<State>, k: nat, t: Tid)
    requires IsTrace(states) && k < |states| && t in states[k].threads && states[k].threads[t] == JobRestart
    ensures exists m | 0 <= m < k ::
              && t in states[m].threads && states[m].threads[t].JobWrite?
              && states[m].threads[t].status == "restart_pending" && states[m].threads[t].write.Unlock?
  {
    hide Next;
    NextAt(states, k, t);
    RestartStep(states[k - 1], states[k], t);
    if states[k - 1].threads[t] == JobRestart {
      RestartAfterInstall(states, k - 1, t);
    }
  }

  /** An update is started on request, or by saving a policy that enables updates, and by nothing else. */
  lemma StartedBy(s: State, r: State, t: Tid)
    requires Next(s, r) && t in r.threads && r.threads[t] == StartLock
    ensures t !in s.threads || s.threads[t] == StartLock || s.threads[t] == PolicyWrite(true, Unlock(true))
  {
    if u :| u in s.threads && Step(s, u, r) {
      StepStarts(s, u, r, t);
    }
  }

  lemma StepStarts(s: State, u: Tid, r: State, t: Tid)
    requires u in s.threads && Step(s, u, r) && t in r.threads && r.threads[t] == StartLock
    ensures t in s.threads && (s.threads[t] == StartLock || (t == u && s.threads[t] == PolicyWrite(true, Unlock(true))))
  {}
}
