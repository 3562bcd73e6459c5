/** Whole runs of the polling loop: phases, crash and resume, notifications, marks, waking and termination. */
module Runs {
  import opened Wrappers
  import opened CommandIds
  import opened Settings
  import opened Tracker
  import opened Coordinator
  import opened Monitor
  import opened Frames

  /** A run of one process: each loop state follows from the one before by a poll. */
  ghost predicate IsRun(loops: seq<Loop>, envs: seq<Env>) {
    && |loops| == |envs| + 1
    && forall i | 0 <= i < |envs| :: IsPoll(loops[i], envs[i], loops[i + 1])
  }

  ghost predicate IsPoll(l: Loop, env: Env, after: Loop) {
    env.now > 0 && IsUuid(env.freshId) && after == Poll(l, env).loop
  }

  // ---------- Phases ----------

  predicate InProgress(l: Loop) { l.onBattery || l.restoration }

  /** What every reachable loop satisfies between polls. */
  ghost predicate Phase(l: Loop) {
    && !(l.onBattery && l.restoration)
    && (l.restoration <==> l.start.Some?)
    && (l.start.Some? ==> l.start.value > 0)
    && (InProgress(l) ==> l.tracker.image.meta.onBattery)
    && Consistent(l.tracker.image.meta)
    && NamesOf(l.config.clients) <= l.tracker.image.clients.Keys
    && l.tracker.savedImage == l.tracker.file
    && (!l.tracker.dirty ==> Settled(l))
  }

  /** The persisted flag and the outage identifier go together. */
  ghost predicate Consistent(meta: Meta) {
    && (meta.onBattery <==> meta.outageId.Some?)
    && (meta.outageId.Some? ==> IsUuid(meta.outageId.value))
  }

  /** The file, read back with the same clients, builds exactly what is in memory. */
  ghost predicate Settled(l: Loop) {
    l.tracker.image == Loaded(l.tracker.file, NamesOf(l.config.clients))
  }

  lemma LaunchPhase(config: Config, file: Option<Image>)
    requires file.Some? ==> Consistent(file.value.meta)
    ensures Phase(Launched(config, file))
  {}

  lemma PreparedPhase(l: Loop, env: Env)
    requires Phase(l)
    ensures Phase(Prepared(l, env))
    ensures var p := Prepared(l, env);
            p.onBattery == l.onBattery && p.restoration == l.restoration && p.start == l.start
    ensures Prepared(l, env).tracker.image.meta == l.tracker.image.meta
  {
    hide SyncClients, ProbeAll, Loaded;
    var r := Reloaded(l, env.reload);
    ReloadedPhase(l, env.reload);
    ProbeFrame(r.config.clients, r.tracker, env.reachable);
  }

  lemma ReloadedPhase(l: Loop, reload: Option<Config>)
    requires Phase(l)
    ensures Phase(Reloaded(l, reload))
    ensures var r := Reloaded(l, reload);
            r.onBattery == l.onBattery && r.restoration == l.restoration && r.start == l.start
    ensures Reloaded(l, reload).tracker.image.meta == l.tracker.image.meta
  {
    var r := Reloaded(l, reload);
    if reload.Some? && !r.tracker.dirty {
      assert r.tracker.image.clients == l.tracker.image.clients;
      assert Loaded(l.tracker.file, NamesOf(l.config.clients)).clients.Keys == NamesOf(r.config.clients);
      LoadedWith(l.tracker.file, NamesOf(l.config.clients), NamesOf(r.config.clients));
    }
  }

  /** Which of the known clients are listed makes no difference once all of them are covered. */
  lemma LoadedWith(file: Option<Image>, a: set<string>, b: set<string>)
    requires a <= b == Loaded(file, a).clients.Keys
    ensures Loaded(file, b) == Loaded(file, a)
  {
    assert Loaded(file, b).clients == Loaded(file, a).clients;
  }

  lemma SavePhase(l: Loop, writable: bool)
    requires Phase(l)
    ensures var saved := l.(tracker := Save(l.tracker, writable)); Phase(saved) && (writable ==> Settled(saved))
  {
    assert Loaded(Some(l.tracker.image), NamesOf(l.config.clients)).clients == l.tracker.image.clients;
  }

  lemma OutageFrame(t: State, percent: int, freshId: string)
    requires Consistent(t.image.meta) && IsUuid(freshId)
    ensures var begun := BeginOutage(t, percent, freshId);
            && InMemory(t, begun) && begun.image.clients.Keys == t.image.clients.Keys
            && begun.image.meta.onBattery && Consistent(begun.image.meta)
  {}

  lemma MarkFrame(t: State)
    ensures InMemory(t, MarkAllOnline(t)) && MarkAllOnline(t).image.meta == t.image.meta
    ensures MarkAllOnline(t).image.clients.Keys == t.image.clients.Keys
  {
    assert MapClients(map[], MarkOnline) == map[];
    if t.image.clients == map[] {
      assert MarkAllOnline(t) == t;
    }
  }

  lemma BatteryPhase(l: Loop, env: Env, percent: int)
    requires Phase(l) && IsUuid(env.freshId)
    ensures Phase(BatteryPoll(l, env, percent).loop)
  {
    var marked := if l.onBattery then l.tracker else MarkAllOnline(l.tracker);
    MarkFrame(l.tracker);
    var begun := BeginOutage(marked, percent, env.freshId);
    OutageFrame(marked, percent, env.freshId);
    var outage := begun.image.meta.outageId.value;
    DeliverFrame(l.config.clients, begun, outage, env.replies, percent, RetryDelay(l.config), env.now);
  }

  lemma RestorePhase(l: Loop, env: Env, percent: int)
    requires Phase(l) && InProgress(l) && env.now > 0
    ensures Phase(RestorePoll(l, env, percent).loop)
  {
    hide WakeAll, Loaded, NamesOf;
    WakeFrame(l.config.clients, Waking(l.tracker, l.down, l.up, l.failures, []), l.config.reattemptDelay, env);
  }

  lemma ReactPhase(l: Loop, env: Env)
    requires Phase(l) && env.now > 0 && IsUuid(env.freshId)
    ensures Phase(React(l, env).loop)
  {
    match env.reading
    case Incomplete =>
    case OnBattery(percent) => BatteryPhase(l, env, percent);
    case OnLine(percent) =>
      if InProgress(l) {
        RestorePhase(l, env, percent);
      }
  }

  lemma PollPhase(l: Loop, env: Env)
    requires Phase(l) && env.now > 0 && IsUuid(env.freshId)
    ensures Phase(Poll(l, env).loop)
    ensures env.writable ==> Settled(Poll(l, env).loop)
  {
    PreparedPhase(l, env);
    ReactPhase(Prepared(l, env), env);
    SavePhase(React(Prepared(l, env), env).loop, env.writable);
  }

  /** Every loop of a run is in a phase; on battery and in restoration exclude each other. */
  lemma {:induction false} RunPhase(loops: seq<Loop>, envs: seq<Env>, k: nat)
    requires IsRun(loops, envs) && Phase(loops[0]) && k <= |envs|
    ensures Phase(loops[k])
    ensures k > 0 && envs[k - 1].writable ==> Settled(loops[k])
  {
    if k > 0 {
      RunPhase(loops, envs, k - 1);
      assert IsPoll(loops[k - 1], envs[k - 1], loops[k]);
      PollPhase(loops[k - 1], envs[k - 1]);
    }
  }

  // ---------- Crash and resume ----------

  /** The process started again on the file it left behind. */
  function Relaunched(l: Loop): Loop { Launched(l.config, l.tracker.file) }

  /**
   Wherever the last save went through, a restart has the memory it had: the same outage, the
   same records and marks of every client. It re-enters an outage or restoration in progress.
   */
  lemma ResumesWhatWasSaved(loops: seq<Loop>, envs: seq<Env>, k: nat)
    requires IsRun(loops, envs) && Phase(loops[0]) && 0 < k <= |envs|
    requires envs[k - 1].writable || !loops[k].tracker.dirty
    ensures Relaunched(loops[k]).tracker.image == loops[k].tracker.image
    ensures InProgress(loops[k]) ==> Relaunched(loops[k]).onBattery
    ensures Phase(Relaunched(loops[k]))
    ensures !loops[k].tracker.dirty ==> Relaunched(loops[k]).tracker == loops[k].tracker
  {
    RunPhase(loops, envs, k);
  }

  /** Two loops that differ at most in what they recorded for a restoration's messages. */
  ghost predicate SameOutage(l: Loop, m: Loop) {
    m == l.(down := m.down, up := m.up, failures := m.failures)
  }

  /** On battery, a poll does not depend on what the loop recorded for messages. */
  lemma SamePoll(l: Loop, m: Loop, env: Env)
    requires SameOutage(l, m) && l.onBattery && !env.reading.OnLine?
    ensures var p, q := Poll(l, env), Poll(m, env);
            SameOutage(p.loop, q.loop) && p.loop.onBattery && q.log == p.log && q.events == p.events
  {
    hide ProbeAll, ProcessOnBattery, BeginOutage, MarkAllOnline, Save, SyncClients, NamesOf;
  }

  /** After a crash on battery the new process does, poll by poll, what the old one would have done. */
  lemma {:induction false} CrashOnBatteryUnnoticed(loops: seq<Loop>, again: seq<Loop>, envs: seq<Env>, k: nat)
    requires IsRun(loops, envs) && IsRun(again, envs) && Phase(loops[0])
    requires loops[0].onBattery && !loops[0].tracker.dirty && again[0] == Relaunched(loops[0])
    requires forall i | 0 <= i < |envs| :: !envs[i].reading.OnLine?
    requires k <= |envs|
    ensures SameOutage(loops[k], again[k]) && loops[k].onBattery
    ensures k < |envs| ==>
              && Poll(again[k], envs[k]).log == Poll(loops[k], envs[k]).log
              && Poll(again[k], envs[k]).events == Poll(loops[k], envs[k]).events
  {
    if k > 0 {
      CrashOnBatteryUnnoticed(loops, again, envs, k - 1);
      SamePoll(loops[k - 1], again[k - 1], envs[k - 1]);
      hide Poll;
      assert IsPoll(loops[k - 1], envs[k - 1], loops[k]) && IsPoll(again[k - 1], envs[k - 1], again[k]);
    }
    if k < |envs| {
      SamePoll(loops[k], again[k], envs[k]);
    }
  }

  // ---------- Power notifications ----------

  function IfPower(e: Event): seq<Event> { if e.PowerLoss? || e.PowerRestored? then [e] else [] }

  /** The notifications about power among the events of a poll. */
  function PowerEvents(events: seq<Event>): seq<Event> {
    if events == [] then [] else IfPower(events[0]) + PowerEvents(events[1..])
  }

  /** All notifications about power in the first k polls of a run. */
  function PowerHistory(loops: seq<Loop>, envs: seq<Env>, k: nat): seq<Event>
    requires |loops| == |envs| + 1 && k <= |envs|
  {
    if k == 0 then [] else PowerHistory(loops, envs, k - 1) + PowerEvents(Poll(loops[k - 1], envs[k - 1]).events)
  }

  lemma Associates<T>(a: seq<T>, b: seq<T>, c: seq<T>)
    ensures a + (b + c) == a + b + c
  {}

  lemma {:induction false} PowerEventsConcat(a: seq<Event>, b: seq<Event>)
    ensures PowerEvents(a + b) == PowerEvents(a) + PowerEvents(b)
  {
    if a == [] {
      assert a + b == b;
    } else {
      hide IfPower;
      PowerEventsConcat(a[1..], b);
      assert (a + b)[1..] == a[1..] + b && (a + b)[0] == a[0];
      Associates(IfPower(a[0]), PowerEvents(a[1..]), PowerEvents(b));
    }
  }

  lemma {:induction false} WakingEvents(clients: seq<Settings.Client>, w: Waking, delay: int, env: Env)
    ensures PowerEvents(WakeAll(clients, w, delay, env).events) == PowerEvents(w.events)
  {
    if clients != [] {
      var v := WakeOne(clients[0], w, delay, env);
      var news := v.events[|w.events|..];
      assert v.events == w.events + news && |news| <= 1;
      PowerEventsConcat(w.events, news);
      WakingEvents(clients[1..], v, delay, env);
    }
  }

  lemma RestorePowerEvents(l: Loop, env: Env, percent: int)
    ensures PowerEvents(RestorePoll(l, env, percent).events) == if IsUnset(l.start) then [PowerRestored] else []
  {
    hide WakeAll, Reset;
    var first := if IsUnset(l.start) then [PowerRestored] else [];
    var w := WakePass(l, env);
    WakingEvents(l.config.clients, Waking(l.tracker, l.down, l.up, l.failures, []), l.config.reattemptDelay, env);
    assert PowerEvents(w.events) == [];
    PowerEventsConcat(first, w.events);
    assert PowerEvents(first) == first;
    hide PowerEvents;
    OtherEvent(first + w.events, AllBackOnline);
    OtherEvent(first + w.events, RecoveryTimedOut(w.down));
    assert first + [] == first;
  }

  lemma OtherEvent(events: seq<Event>, e: Event)
    requires !e.PowerLoss? && !e.PowerRestored?
    ensures PowerEvents(events + [e]) == PowerEvents(events)
  {
    PowerEventsConcat(events, [e]);
  }

  /** One poll notifies a power change exactly when it takes the loop on or off battery. */
  lemma PollPowerEvents(l: Loop, env: Env)
    requires Phase(l)
    ensures var p := Poll(l, env);
            PowerEvents(p.events) == if p.loop.onBattery == l.onBattery then []
                                     else if l.onBattery then [PowerRestored] else [PowerLoss]
  {
    hide Prepared, WakePass, ProcessOnBattery, BeginOutage, MarkAllOnline, Save;
    PreparedPhase(l, env);
    if env.reading.OnLine? {
      RestorePowerEvents(Prepared(l, env), env, env.reading.percent);
    }
  }

  /** The notifications are loss and restored in turn; restored comes first exactly when resuming on battery. */
  ghost predicate Alternates(history: seq<Event>, resumed: bool) {
    forall i | 0 <= i < |history| :: history[i] == if (i % 2 == 0) == resumed then PowerRestored else PowerLoss
  }

  /** The next notification is due when the loop changes sides. */
  ghost predicate InTurn(history: seq<Event>, onBattery: bool, resumed: bool) {
    Alternates(history, resumed) && (onBattery <==> (|history| % 2 == 0) == resumed)
  }

  lemma InTurnGrows(history: seq<Event>, onBattery: bool, after: bool, resumed: bool)
    requires InTurn(history, onBattery, resumed)
    ensures InTurn(history + if after == onBattery then [] else if onBattery then [PowerRestored] else [PowerLoss],
                   after, resumed)
  {
    assert history + [] == history;
  }

  lemma {:induction false} PowerNotificationsAlternate(loops: seq<Loop>, envs: seq<Env>, k: nat)
    requires IsRun(loops, envs) && Phase(loops[0]) && k <= |envs|
    ensures InTurn(PowerHistory(loops, envs, k), loops[k].onBattery, loops[0].onBattery)
  {
    if k > 0 {
      hide Poll, InTurn;
      PowerNotificationsAlternate(loops, envs, k - 1);
      RunPhase(loops, envs, k - 1);
      PowerStep(loops, envs, k);
      InTurnGrows(PowerHistory(loops, envs, k - 1), loops[k - 1].onBattery, loops[k].onBattery, loops[0].onBattery);
    }
  }

  lemma PowerStep(loops: seq<Loop>, envs: seq<Env>, k: nat)
    requires IsRun(loops, envs) && 0 < k <= |envs| && Phase(loops[k - 1])
    ensures PowerHistory(loops, envs, k) == PowerHistory(loops, envs, k - 1) +
              if loops[k].onBattery == loops[k - 1].onBattery then []
              else if loops[k - 1].onBattery then [PowerRestored] else [PowerLoss]
  {
    assert IsPoll(loops[k - 1], envs[k - 1], loops[k]);
    PollPowerEvents(loops[k - 1], envs[k - 1]);
  }

  // ---------- Termination of a restoration ----------

  predicate IsCharged(l: Loop, env: Env) {
    env.reading.OnLine? && env.reading.percent >= Prepared(l, env).config.minBatteryPercent
  }

  /** The poll comes after both the restore delay and the client timeout, counted from a start. */
  predicate IsPastDeadline(l: Loop, env: Env, start: int) {
    var config := Prepared(l, env).config;
    env.now - start >= config.restoreDelay && env.now - start > config.clientTimeout
  }

  /** One poll of a restoration keeps its start or ends it, and past the deadline it ends it. */
  lemma RestorationPoll(l: Loop, env: Env)
    requires Phase(l) && InProgress(l) && IsCharged(l, env)
    ensures var after := Poll(l, env).loop;
            && !after.onBattery
            && (InProgress(after) ==> RestorationStart(after, env.now) == RestorationStart(l, env.now))
            && (IsPastDeadline(l, env, RestorationStart(l, env.now)) ==> !InProgress(after))
  {
    hide Prepared, WakePass, Save, Reset, Settled, Consistent;
    PreparedPhase(l, env);
  }

  /** The restoration that a run begins in. */
  function FirstStart(loops: seq<Loop>, envs: seq<Env>): int
    requires |loops| > 0 && |envs| > 0
  {
    RestorationStart(loops[0], envs[0].now)
  }

  lemma {:induction false} StartIsKept(loops: seq<Loop>, envs: seq<Env>, k: nat)
    requires IsRun(loops, envs) && Phase(loops[0]) && k < |envs|
    requires forall i | 0 <= i <= k :: InProgress(loops[i]) && IsCharged(loops[i], envs[i])
    ensures RestorationStart(loops[k], envs[k].now) == FirstStart(loops, envs)
  {
    if k > 0 {
      StartIsKept(loops, envs, k - 1);
      RunPhase(loops, envs, k - 1);
      assert IsPoll(loops[k - 1], envs[k - 1], loops[k]);
      RestorationPoll(loops[k - 1], envs[k - 1]);
      RunPhase(loops, envs, k);
    }
  }

  /** With power back and enough charge, a restoration is over after the first poll past its deadline. */
  lemma RestorationEndsByDeadline(loops: seq<Loop>, envs: seq<Env>, k: nat)
    requires IsRun(loops, envs) && Phase(loops[0]) && k < |envs|
    requires forall i | 0 <= i <= k :: IsCharged(loops[i], envs[i])
    requires IsPastDeadline(loops[k], envs[k], FirstStart(loops, envs))
    ensures exists i | 0 <= i <= k + 1 :: !InProgress(loops[i])
  {
    if forall i | 0 <= i <= k :: InProgress(loops[i]) {
      StartIsKept(loops, envs, k);
      RunPhase(loops, envs, k);
      assert IsPoll(loops[k], envs[k], loops[k + 1]);
      RestorationPoll(loops[k], envs[k]);
    }
  }

  /** Seconds left before the deadline, for a bound on both delays. */
  function Remaining(start: int, bound: nat, now: int): nat {
    if now - start > bound then 0 else bound - (now - start) + 1
  }

  lemma {:induction false} ClockGrows(envs: seq<Env>, k: nat)
    requires k < |envs| && forall i | 0 < i < |envs| :: envs[i - 1].now < envs[i].now
    ensures envs[k].now >= envs[0].now + k
  {
    if k > 0 {
      ClockGrows(envs, k - 1);
    }
  }

  /** Every restoration terminates: after that many polls with an advancing clock it is over. */
  lemma RestorationTerminates(loops: seq<Loop>, envs: seq<Env>, bound: nat)
    requires IsRun(loops, envs) && Phase(loops[0]) && |envs| > 0
    requires forall i | 0 < i < |envs| :: envs[i - 1].now < envs[i].now
    requires forall i | 0 <= i < |envs| :: IsCharged(loops[i], envs[i])
    requires forall i | 0 <= i < |envs| ::
               var config := Prepared(loops[i], envs[i]).config;
               config.restoreDelay <= bound && config.clientTimeout <= bound
    requires |envs| > Remaining(FirstStart(loops, envs), bound, envs[0].now)
    ensures exists i | 0 <= i <= |envs| :: !InProgress(loops[i])
  {
    var k := Remaining(FirstStart(loops, envs), bound, envs[0].now);
    ClockGrows(envs, k);
    var config := Prepared(loops[k], envs[k]).config;
    assert config.restoreDelay <= bound;
    RestorationEndsByDeadline(loops, envs, k);
  }
}
