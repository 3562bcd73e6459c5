/**
 What a restoration goes by: who was online when power failed, who is skipped, when packets were
 sent, and when it is over. Each is traced back to readings, probes and the configuration.
 */
module Marks {
  import opened Wrappers
  import opened CommandIds
  import opened Settings
  import opened Tracker
  import opened Coordinator
  import opened Monitor
  import opened Frames
  import opened Runs
  import opened Restorations
  import Deliveries
  import Retries
  import opened Asked

  // ---------- Who was online when power failed ----------

  lemma TailsEnabled(clients: seq<Settings.Client>, name: string)
    requires clients != []
    ensures name in EnabledNames(clients) <==>
            (clients[0].enabled && clients[0].name == name) || name in EnabledNames(clients[1..])
  {
    assert forall i | 0 <= i < |clients[1..]| :: clients[1..][i] == clients[i + 1];
    assert forall i | 0 < i < |clients| :: clients[i] == clients[1..][i - 1];
  }

  /** After probing, a client with an enabled entry is online exactly if it answered, and any other as it was. */
  lemma {:induction false} OnlineAfterProbes(clients: seq<Settings.Client>, t: State, reachable: set<string>,
      name: string)
    requires name in t.image.clients
    ensures name in ProbeAll(clients, t, reachable).image.clients
    ensures IsOnline(ProbeAll(clients, t, reachable), name) <==>
            if name in EnabledNames(clients) then name in reachable else IsOnline(t, name)
  {
    if clients != [] {
      var u := if clients[0].enabled then Update(t, clients[0].name, clients[0].name in reachable) else t;
      TailsEnabled(clients, name);
      OnlineAfterProbes(clients[1..], u, reachable, name);
    }
  }

  /** The client was up at this poll: its enabled entry answers, or, without one, it was online in memory. */
  predicate WasUp(l: Loop, env: Env, name: string) {
    if name in EnabledNames(ConfigAt(l, env).clients) then name in env.reachable else IsOnline(l.tracker, name)
  }

  lemma OnlineWhenPrepared(l: Loop, env: Env, name: string)
    requires Phase(l) && !env.reading.Incomplete? && name in Prepared(l, env).tracker.image.clients
    ensures IsOnline(Prepared(l, env).tracker, name) <==> WasUp(l, env, name)
  {
    var r := Reloaded(l, env.reload);
    ProbeFrame(r.config.clients, r.tracker, env.reachable);
    OnlineAfterProbes(r.config.clients, r.tracker, env.reachable, name);
  }

  lemma BatteryMarks(p: Loop, env: Env, name: string)
    requires Phase(p) && IsUuid(env.freshId) && env.reading.OnBattery? && name in p.tracker.image.clients
    ensures IsMarked(React(p, env).loop, name) <==>
            if p.onBattery then IsMarked(p, name) else IsOnline(p.tracker, name)
    ensures name in React(p, env).loop.tracker.image.clients
  {
    hide DeliverAll;
    var percent := env.reading.percent;
    var marked := if p.onBattery then p.tracker else MarkAllOnline(p.tracker);
    MarkFrame(p.tracker);
    var begun := BeginOutage(marked, percent, env.freshId);
    OutageFrame(marked, percent, env.freshId);
    DeliverFrame(p.config.clients, begun, begun.image.meta.outageId.value, env.replies, percent, RetryDelay(p.config),
        env.now);
  }

  lemma SameKeys(l: Loop, env: Env)
    requires Phase(l) && IsUuid(env.freshId)
    ensures Poll(l, env).loop.tracker.image.clients.Keys == Prepared(l, env).tracker.image.clients.Keys
  {
    Retries.PollKeys(l, env);
  }

  /** At the poll that goes on battery, exactly the clients that are up are marked as online before. */
  lemma MarkedAtLoss(l: Loop, env: Env, name: string)
    requires Phase(l) && env.now > 0 && IsUuid(env.freshId) && GoesOnBattery(l, env)
    ensures IsMarked(Poll(l, env).loop, name) <==>
            name in Poll(l, env).loop.tracker.image.clients && WasUp(l, env, name)
  {
    hide Prepared, BatteryPoll;
    PreparedPhase(l, env);
    SameKeys(l, env);
    if name in Prepared(l, env).tracker.image.clients {
      OnlineWhenPrepared(l, env, name);
      BatteryMarks(Prepared(l, env), env, name);
    }
  }

  lemma PreparedMarksExactly(l: Loop, env: Env, name: string)
    requires Phase(l)
    ensures IsMarked(Prepared(l, env), name) <==> IsMarked(l, name) && !Removes(env, name)
  {
    hide Phase, ProbeAll;
    var r := Reloaded(l, env.reload);
    ProbeFrame(r.config.clients, r.tracker, env.reachable);
  }

  lemma OnLineMarks(p: Loop, env: Env, name: string)
    requires env.reading.OnLine?
    ensures IsMarked(React(p, env).loop, name) <==>
            IsMarked(p, name) && InProgress(p)
            && !(MayWake(p, env, env.reading.percent) && WakePass(p, env).down == {})
  {
    hide WakeAll;
    WakeFrame(p.config.clients, Waking(p.tracker, p.down, p.up, p.failures, []), p.config.reattemptDelay, env);
  }

  lemma BatteryOnline(p: Loop, env: Env, name: string)
    requires Phase(p) && IsUuid(env.freshId) && env.reading.OnBattery? && name in p.tracker.image.clients
    ensures IsOnline(BatteryPoll(p, env, env.reading.percent).loop.tracker, name) == IsOnline(p.tracker, name)
  {
    hide DeliverAll;
    var percent := env.reading.percent;
    var marked := if p.onBattery then p.tracker else MarkAllOnline(p.tracker);
    MarkFrame(p.tracker);
    var begun := BeginOutage(marked, percent, env.freshId);
    OutageFrame(marked, percent, env.freshId);
    DeliverFrame(p.config.clients, begun, begun.image.meta.outageId.value, env.replies, percent, RetryDelay(p.config),
        env.now);
  }

  lemma RestoreOnline(p: Loop, env: Env, percent: int, name: string)
    requires name in p.tracker.image.clients
    ensures IsOnline(RestorePoll(p, env, percent).loop.tracker, name) == IsOnline(p.tracker, name)
    ensures IsOnline(IdlePoll(p).loop.tracker, name) == IsOnline(p.tracker, name)
  {
    hide WakeAll;
    WakeFrame(p.config.clients, Waking(p.tracker, p.down, p.up, p.failures, []), p.config.reattemptDelay, env);
  }

  lemma ReactOnline(p: Loop, env: Env, name: string)
    requires Phase(p) && IsUuid(env.freshId) && name in p.tracker.image.clients
    ensures IsOnline(React(p, env).loop.tracker, name) == IsOnline(p.tracker, name)
  {
    hide BatteryPoll, RestorePoll, IdlePoll, Phase, IsOnline;
    match env.reading
    case Incomplete =>
    case OnBattery(_) => BatteryOnline(p, env, name);
    case OnLine(percent) => RestoreOnline(p, env, percent, name);
  }

  /** Whether a client is online in memory is decided by its last probe and nothing else. */
  lemma OnlineExactly(l: Loop, env: Env, name: string)
    requires Phase(l) && IsUuid(env.freshId) && name in Poll(l, env).loop.tracker.image.clients
    ensures IsOnline(Poll(l, env).loop.tracker, name) <==>
            if !env.reading.Incomplete? && name in EnabledNames(ConfigAt(l, env).clients) then name in env.reachable
            else IsOnline(l.tracker, name) && !Removes(env, name)
  {
    hide Prepared, React, Phase;
    SameKeys(l, env);
    PreparedPhase(l, env);
    ReactOnline(Prepared(l, env), env, name);
    PreparedOnline(l, env, name);
  }

  lemma PreparedOnline(l: Loop, env: Env, name: string)
    requires Phase(l) && name in Prepared(l, env).tracker.image.clients
    ensures IsOnline(Prepared(l, env).tracker, name) <==>
            if !env.reading.Incomplete? && name in EnabledNames(ConfigAt(l, env).clients) then name in env.reachable
            else IsOnline(l.tracker, name) && !Removes(env, name)
  {
    hide Phase, ProbeAll;
    ReloadedPhase(l, env.reload);
    var r := Reloaded(l, env.reload);
    ProbeFrame(r.config.clients, r.tracker, env.reachable);
    if !env.reading.Incomplete? {
      OnlineAfterProbes(r.config.clients, r.tracker, env.reachable, name);
    }
    if name in EnabledNames(r.config.clients) {
      assert name in NamesOf(r.config.clients);
    }
  }

  /** At every other poll a client is marked exactly if it was, and neither is removed nor forgotten by a reset. */
  lemma MarkedOtherwise(l: Loop, env: Env, name: string)
    requires Phase(l) && env.now > 0 && IsUuid(env.freshId) && !GoesOnBattery(l, env)
    ensures IsMarked(Poll(l, env).loop, name) <==> IsMarked(l, name) && !Removes(env, name) && !Resets(l, env)
  {
    hide Prepared, BatteryPoll, RestorePoll, IdlePoll, Phase;
    var p := Prepared(l, env);
    PreparedPhase(l, env);
    PreparedMarksExactly(l, env, name);
    CompletesIff(l, env);
    SameKeys(l, env);
    match env.reading
    case Incomplete =>
    case OnBattery(_) =>
      if name in p.tracker.image.clients {
        BatteryMarks(p, env, name);
      }
    case OnLine(_) => OnLineMarks(p, env, name);
  }

  /** The client was up when power failed at poll i, and was not removed by a later poll before k. */
  ghost predicate UpAtLoss(loops: seq<Loop>, envs: seq<Env>, i: nat, k: nat, name: string)
    requires i < k <= |envs| < |loops|
  {
    && name in loops[i + 1].tracker.image.clients && WasUp(loops[i], envs[i], name)
    && forall m | i < m < k :: !Removes(envs[m], name)
  }

  ghost predicate LastLoss(loops: seq<Loop>, envs: seq<Env>, i: nat, k: nat)
    requires i < k <= |envs| < |loops|
  {
    GoesOnBattery(loops[i], envs[i]) && forall m | i < m < k :: !GoesOnBattery(loops[m], envs[m])
  }

  /** What a run says about one of its polls. */
  lemma PollAt(loops: seq<Loop>, envs: seq<Env>, m: nat)
    requires IsRun(loops, envs) && Phase(loops[0]) && m < |envs|
    ensures |loops| == |envs| + 1 && Phase(loops[m]) && envs[m].now > 0 && IsUuid(envs[m].freshId)
    ensures loops[m + 1] == Poll(loops[m], envs[m]).loop
  {
    RunPhase(loops, envs, m);
    assert IsPoll(loops[m], envs[m], loops[m + 1]);
  }

  /**
   Over every run: who is marked is who was up at the last loss of power, unless removed or forgotten by
   a reset since.
   */
  lemma {:induction false} MarkedExactly(loops: seq<Loop>, envs: seq<Env>, i: nat, k: nat, name: string)
    requires IsRun(loops, envs) && Phase(loops[0]) && i < k <= |envs| && LastLoss(loops, envs, i, k)
    ensures IsMarked(loops[k], name) <==>
            UpAtLoss(loops, envs, i, k, name) && forall m | i < m < k :: !Resets(loops[m], envs[m])
    decreases k
  {
    hide IsRun, Poll, Resets, Removes, WasUp, IsMarked, Phase, GoesOnBattery;
    PollAt(loops, envs, k - 1);
    if k == i + 1 {
      MarkedAtLoss(loops[i], envs[i], name);
    } else {
      MarkedExactly(loops, envs, i, k - 1, name);
      MarkedOtherwise(loops[k - 1], envs[k - 1], name);
    }
  }

  /** A restoration that is still in progress was not reset since the last loss of power. */
  lemma {:induction false} InProgressNoReset(loops: seq<Loop>, envs: seq<Env>, i: nat, k: nat)
    requires IsRun(loops, envs) && Phase(loops[0]) && i < k <= |envs| && LastLoss(loops, envs, i, k)
    requires InProgress(loops[k])
    ensures forall m | i < m < k :: !Resets(loops[m], envs[m])
    decreases k
  {
    hide IsRun, Poll, Resets, InProgress, Phase, GoesOnBattery;
    PollAt(loops, envs, k - 1);
    if k > i + 1 {
      ProgressBefore(loops[k - 1], envs[k - 1]);
      InProgressNoReset(loops, envs, i, k - 1);
    }
  }

  lemma ProgressBefore(l: Loop, env: Env)
    requires Phase(l) && !GoesOnBattery(l, env) && InProgress(Poll(l, env).loop)
    ensures InProgress(l) && !Resets(l, env)
  {
    hide Prepared, WakePass, Save, Reset, ProcessOnBattery, BeginOutage, MarkAllOnline;
    PreparedPhase(l, env);
    CompletesIff(l, env);
  }

  /** The restoration after the loss of power at poll i waits for the client at poll k. */
  ghost predicate Awaited(loops: seq<Loop>, envs: seq<Env>, i: nat, k: nat, c: Settings.Client)
    requires i < k < |envs| < |loops|
  {
    && c.enabled && c.wakeEnabled && !ShouldSkip(Prepared(loops[k], envs[k]).tracker, c.name)
    && (c.alwaysWake || UpAtLoss(loops, envs, i, k + 1, c.name))
  }

  /**
   A restoration completes at a poll that makes a waking pass exactly when every enabled,
   wake-enabled, unskipped client that is always woken or was up at the poll that went on battery
   answers, and nobody recorded as down is stuck there.
   */
  lemma CompletionByReach(loops: seq<Loop>, envs: seq<Env>, i: nat, k: nat)
    requires IsRun(loops, envs) && Phase(loops[0]) && i < k < |envs| && LastLoss(loops, envs, i, k)
    requires UniqueNames(ConfigAt(loops[k], envs[k]).clients)
    ensures Completes(loops[k], envs[k]) <==>
            && Wakes(loops[k], envs[k]) && NobodyStuck(Prepared(loops[k], envs[k]))
            && forall j | 0 <= j < |ConfigAt(loops[k], envs[k]).clients|
                          && Awaited(loops, envs, i, k, ConfigAt(loops[k], envs[k]).clients[j]) ::
                 ConfigAt(loops[k], envs[k]).clients[j].name in envs[k].reachable
  {
    RunPhase(loops, envs, k);
    var l, env := loops[k], envs[k];
    PreparedConfig(l, env);
    CompletionExactly(l, env);
    if Wakes(l, env) {
      InProgressNoReset(loops, envs, i, k);
      hide Prepared, Phase, Wakes, Completes, NobodyStuck, Awaited, IsEligible, Resets, LastLoss, IsRun;
      var clients := ConfigAt(l, env).clients;
      forall j | 0 <= j < |clients|
        ensures Awaited(loops, envs, i, k, clients[j]) <==> IsEligible(clients[j], Prepared(l, env).tracker)
      {
        AwaitedExactly(loops, envs, i, k, clients[j]);
      }
    }
  }

  lemma AwaitedExactly(loops: seq<Loop>, envs: seq<Env>, i: nat, k: nat, c: Settings.Client)
    requires IsRun(loops, envs) && Phase(loops[0]) && i < k < |envs| && LastLoss(loops, envs, i, k) && Phase(loops[k])
    requires forall m | i < m < k :: !Resets(loops[m], envs[m])
    ensures Awaited(loops, envs, i, k, c) <==> IsEligible(c, Prepared(loops[k], envs[k]).tracker)
  {
    hide Prepared, Phase, IsRun, LastLoss, Resets, WasUp, Removes;
    PollAt(loops, envs, k);
    MarkedExactly(loops, envs, i, k, c.name);
    PreparedMarksExactly(loops[k], envs[k], c.name);
    UpStill(loops, envs, i, k, c.name);
  }

  lemma UpStill(loops: seq<Loop>, envs: seq<Env>, i: nat, k: nat, name: string)
    requires i < k < |envs| < |loops|
    ensures UpAtLoss(loops, envs, i, k + 1, name) <==> UpAtLoss(loops, envs, i, k, name) && !Removes(envs[k], name)
  {
    hide WasUp, Removes;
  }

  // ---------- Who is skipped ----------

  predicate IsSkipped(l: Loop, name: string) { ShouldSkip(l.tracker, name) }

  /**
   The configuration has an enabled entry for the client that it does not wake, or not without its
   having been online.
   */
  predicate NotForWaking(clients: seq<Settings.Client>, t: State, name: string) {
    exists i | 0 <= i < |clients| ::
      && clients[i].enabled && clients[i].name == name
      && (!clients[i].wakeEnabled || (!clients[i].alwaysWake && !WasOnlineBefore(t, name)))
  }

  lemma TailNotForWaking(clients: seq<Settings.Client>, t: State, name: string)
    requires clients != []
    ensures NotForWaking(clients, t, name) <==>
            NotForWaking([clients[0]], t, name) || NotForWaking(clients[1..], t, name)
  {
    assert forall i | 0 <= i < |clients[1..]| :: clients[1..][i] == clients[i + 1];
    assert forall i | 0 < i < |clients| :: clients[i] == clients[1..][i - 1];
    assert [clients[0]][0] == clients[0];
  }

  lemma {:induction false} SkippedByPass(clients: seq<Settings.Client>, w: Waking, delay: int, env: Env, name: string)
    requires name in w.tracker.image.clients
    ensures ShouldSkip(WakeAll(clients, w, delay, env).tracker, name) <==>
            ShouldSkip(w.tracker, name) || NotForWaking(clients, w.tracker, name)
  {
    if clients != [] {
      var v := WakeOne(clients[0], w, delay, env);
      SkippedByOne(clients[0], w, delay, env, name);
      SkippedByPass(clients[1..], v, delay, env, name);
      TailNotForWaking(clients, w.tracker, name);
    }
  }

  lemma SkippedByOne(c: Settings.Client, w: Waking, delay: int, env: Env, name: string)
    requires name in w.tracker.image.clients
    ensures var v := WakeOne(c, w, delay, env);
            && name in v.tracker.image.clients
            && WasOnlineBefore(v.tracker, name) == WasOnlineBefore(w.tracker, name)
            && (ShouldSkip(v.tracker, name) <==> ShouldSkip(w.tracker, name) || NotForWaking([c], w.tracker, name))
  {
    assert [c][0] == c;
  }

  /**
   A client is skipped after a poll exactly if nothing was reset, and it was skipped before and stays
   configured, or a waking pass found an entry that is not woken.
   */
  lemma SkippedExactly(l: Loop, env: Env, name: string)
    requires Phase(l) && env.now > 0 && IsUuid(env.freshId) && name in Poll(l, env).loop.tracker.image.clients
    ensures IsSkipped(Poll(l, env).loop, name) <==>
            && !Resets(l, env)
            && (|| (IsSkipped(l, name) && !Removes(env, name))
                || (Wakes(l, env) && NotForWaking(ConfigAt(l, env).clients, Prepared(l, env).tracker, name)))
  {
    hide Prepared, BatteryPoll, RestorePoll, IdlePoll, Phase, NotForWaking;
    var p := Prepared(l, env);
    PreparedPhase(l, env);
    PreparedConfig(l, env);
    PreparedSkips(l, env, name);
    CompletesIff(l, env);
    SameKeys(l, env);
    match env.reading
    case Incomplete =>
    case OnBattery(_) => BatteryKeepsWaking(p, env, name);
    case OnLine(_) => OnLineSkips(p, env, name);
  }

  lemma PreparedSkips(l: Loop, env: Env, name: string)
    requires Phase(l)
    ensures IsSkipped(Prepared(l, env), name) <==> IsSkipped(l, name) && !Removes(env, name)
  {
    hide Phase, ProbeAll;
    var r := Reloaded(l, env.reload);
    ProbeFrame(r.config.clients, r.tracker, env.reachable);
  }

  lemma BatteryKeepsWaking(p: Loop, env: Env, name: string)
    requires Phase(p) && IsUuid(env.freshId) && env.reading.OnBattery? && name in p.tracker.image.clients
    ensures var q := React(p, env).loop;
            && name in q.tracker.image.clients && IsSkipped(q, name) == IsSkipped(p, name)
            && q.tracker.image.clients[name].wolSentAt == p.tracker.image.clients[name].wolSentAt
            && q.tracker.image.clients[name].wolSent == p.tracker.image.clients[name].wolSent
  {
    hide DeliverAll;
    var percent := env.reading.percent;
    var marked := if p.onBattery then p.tracker else MarkAllOnline(p.tracker);
    MarkFrame(p.tracker);
    var begun := BeginOutage(marked, percent, env.freshId);
    OutageFrame(marked, percent, env.freshId);
    DeliverFrame(p.config.clients, begun, begun.image.meta.outageId.value, env.replies, percent, RetryDelay(p.config),
        env.now);
  }

  lemma OnLineSkips(p: Loop, env: Env, name: string)
    requires env.reading.OnLine? && name in p.tracker.image.clients
    ensures var pass := InProgress(p) && MayWake(p, env, env.reading.percent);
            IsSkipped(React(p, env).loop, name) <==>
            && InProgress(p) && !(pass && WakePass(p, env).down == {})
            && (IsSkipped(p, name) || (pass && NotForWaking(p.config.clients, p.tracker, name)))
  {
    hide WakeAll, NotForWaking;
    WakeFrame(p.config.clients, Waking(p.tracker, p.down, p.up, p.failures, []), p.config.reattemptDelay, env);
    SkippedByPass(p.config.clients, Waking(p.tracker, p.down, p.up, p.failures, []), p.config.reattemptDelay, env,
        name);
  }

  // ---------- What a waking pass says ----------

  /** The restoration waits for the client, and it does not answer. */
  predicate IsMissing(c: Settings.Client, t: State) {
    && c.enabled && c.wakeEnabled && c.name in t.image.clients
    && !t.image.clients[c.name].skip && (c.alwaysWake || t.image.clients[c.name].wasOnlineBefore)
    && !t.image.clients[c.name].online
  }

  predicate IsBack(c: Settings.Client, t: State) {
    && c.enabled && c.wakeEnabled && c.name in t.image.clients
    && !t.image.clients[c.name].skip && (c.alwaysWake || t.image.clients[c.name].wasOnlineBefore)
    && t.image.clients[c.name].online
  }

  /** The time since the last packet to the client is at least the delay. */
  predicate IsWakeDue(t: State, name: string, delay: int, now: int) {
    name in t.image.clients && now - t.image.clients[name].wolSentAt >= delay
  }

  /** What a pass says about one entry. */
  predicate Says(c: Settings.Client, w: Waking, delay: int, env: Env, e: Event) {
    match e
    case WakeSent(name) =>
      name == c.name && IsMissing(c, w.tracker) && IsWakeDue(w.tracker, name, delay, env.now) && name in env.wolSucceeds
    case WakeFailed(name) =>
      && name == c.name && IsMissing(c, w.tracker) && IsWakeDue(w.tracker, name, delay, env.now)
      && name !in env.wolSucceeds && name !in w.failures
    case ClientRecovered(name) => name == c.name && IsBack(c, w.tracker) && name !in w.up && name in w.down
    case _ => false
  }

  lemma OneSays(c: Settings.Client, w: Waking, delay: int, env: Env, e: Event)
    requires c.name in w.tracker.image.clients
    ensures e in WakeOne(c, w, delay, env).events <==> e in w.events || Says(c, w, delay, env, e)
  {}

  lemma OthersSay(c: Settings.Client, w: Waking, delay: int, env: Env, other: Settings.Client, e: Event)
    requires other.name != c.name
    ensures Says(other, WakeOne(c, w, delay, env), delay, env, e) <==> Says(other, w, delay, env, e)
  {}

  ghost predicate SomeSays(clients: seq<Settings.Client>, w: Waking, delay: int, env: Env, e: Event) {
    exists i | 0 <= i < |clients| :: Says(clients[i], w, delay, env, e)
  }

  lemma {:induction false} PassSays(clients: seq<Settings.Client>, w: Waking, delay: int, env: Env, e: Event)
    requires UniqueNames(clients) && NamesOf(clients) <= w.tracker.image.clients.Keys
    ensures e in WakeAll(clients, w, delay, env).events <==> e in w.events || SomeSays(clients, w, delay, env, e)
  {
    if clients != [] {
      hide Says;
      var v := WakeOne(clients[0], w, delay, env);
      var rest := clients[1..];
      assert forall i | 0 <= i < |rest| :: rest[i] == clients[i + 1];
      assert forall i | 0 < i < |clients| :: clients[i] == rest[i - 1];
      assert clients[0].name in w.tracker.image.clients;
      OneKeys(clients[0], w, delay, env);
      Deliveries.TailNames(clients);
      PassSays(rest, v, delay, env, e);
      OneSays(clients[0], w, delay, env, e);
      forall i | 0 <= i < |rest|
        ensures Says(rest[i], v, delay, env, e) <==> Says(rest[i], w, delay, env, e)
      {
        OthersSay(clients[0], w, delay, env, rest[i], e);
      }
    }
  }

  lemma OneKeys(c: Settings.Client, w: Waking, delay: int, env: Env)
    ensures WakeOne(c, w, delay, env).tracker.image.clients.Keys == w.tracker.image.clients.Keys
  {}

  function Before(p: Loop): Waking { Waking(p.tracker, p.down, p.up, p.failures, []) }

  /**
   A poll says of a client that a packet was sent, failed, or that it recovered, exactly if it makes a
   waking pass and the client's entry gives reason to: eligible and missing with the reattempt delay
   over, or eligible and back after having been recorded as down.
   */
  lemma SaidExactly(l: Loop, env: Env, e: Event)
    requires Phase(l) && UniqueNames(ConfigAt(l, env).clients)
    requires e.WakeSent? || e.WakeFailed? || e.ClientRecovered?
    ensures e in Poll(l, env).events <==>
            && Wakes(l, env)
            && SomeSays(ConfigAt(l, env).clients, Before(Prepared(l, env)), ConfigAt(l, env).reattemptDelay, env, e)
  {
    hide Prepared, Phase, SomeSays, BatteryPoll, RestorePoll, UniqueNames;
    var p := Prepared(l, env);
    PreparedPhase(l, env);
    PreparedConfig(l, env);
    match env.reading
    case Incomplete =>
    case OnBattery(percent) => BatterySays(p, env, percent, e);
    case OnLine(percent) => RestoreSays(p, env, percent, e);
  }

  lemma BatterySays(p: Loop, env: Env, percent: int, e: Event)
    requires e.WakeSent? || e.WakeFailed? || e.ClientRecovered?
    ensures e !in BatteryPoll(p, env, percent).events
  {}

  lemma RestoreSays(p: Loop, env: Env, percent: int, e: Event)
    requires Phase(p) && UniqueNames(p.config.clients)
    requires e.WakeSent? || e.WakeFailed? || e.ClientRecovered?
    ensures e in RestorePoll(p, env, percent).events <==>
            MayWake(p, env, percent) && SomeSays(p.config.clients, Before(p), p.config.reattemptDelay, env, e)
  {
    hide WakeAll, SomeSays, Reset;
    PassSays(p.config.clients, Before(p), p.config.reattemptDelay, env, e);
  }

  // ---------- When it is over ----------

  /**
   A restoration that gets an on-line reading is over after the poll exactly if there is enough
   charge, the restore delay has passed, and nobody is recorded as down or the client timeout has
   passed; it says so.
   */
  lemma OverExactly(l: Loop, env: Env)
    requires Phase(l) && InProgress(l) && env.reading.OnLine? && env.now > 0 && IsUuid(env.freshId)
    ensures var q, config, elapsed := Poll(l, env), ConfigAt(l, env), env.now - RestorationStart(l, env.now);
            var pass := env.reading.percent >= config.minBatteryPercent && elapsed >= config.restoreDelay;
            && (!InProgress(q.loop) <==> pass && (q.loop.down == {} || elapsed > config.clientTimeout))
            && (AllBackOnline in q.events <==> pass && q.loop.down == {})
            && (forall names :: RecoveryTimedOut(names) in q.events <==>
                  pass && q.loop.down != {} && elapsed > config.clientTimeout && names == q.loop.down)
    ensures PowerRestored in Poll(l, env).events <==> IsUnset(l.start)
  {
    hide Prepared, Phase, RestorePoll, Save;
    var p := Prepared(l, env);
    PreparedPhase(l, env);
    PreparedConfig(l, env);
    RestoreOver(p, env);
    SavedOver(React(p, env).loop, env.writable);
  }

  lemma SavedOver(q: Loop, writable: bool)
    ensures InProgress(q.(tracker := Save(q.tracker, writable))) == InProgress(q)
  {}

  lemma RestoreOver(p: Loop, env: Env)
    requires env.reading.OnLine?
    ensures var q, elapsed := RestorePoll(p, env, env.reading.percent), env.now - RestorationStart(p, env.now);
            var pass := env.reading.percent >= p.config.minBatteryPercent && elapsed >= p.config.restoreDelay;
            && (!InProgress(q.loop) <==> pass && (q.loop.down == {} || elapsed > p.config.clientTimeout))
            && (AllBackOnline in q.events <==> pass && q.loop.down == {})
            && (forall names :: RecoveryTimedOut(names) in q.events <==>
                  pass && q.loop.down != {} && elapsed > p.config.clientTimeout && names == q.loop.down)
            && (PowerRestored in q.events <==> IsUnset(p.start))
  {
    hide WakeAll, Reset;
    PassDoesNotEnd(p.config.clients, Before(p), p.config.reattemptDelay, env);
    PassNotRestored(p.config.clients, Before(p), p.config.reattemptDelay, env);
  }

  lemma {:induction false} PassNotRestored(clients: seq<Settings.Client>, w: Waking, delay: int, env: Env)
    requires PowerRestored !in w.events
    ensures PowerRestored !in WakeAll(clients, w, delay, env).events
  {
    if clients != [] {
      PassNotRestored(clients[1..], WakeOne(clients[0], w, delay, env), delay, env);
    }
  }

  // ---------- What is recorded for messages ----------

  /** Only names with an enabled entry are recorded as down or back. */
  predicate RecordsListed(l: Loop) {
    l.down <= EnabledNames(l.config.clients) && l.up <= EnabledNames(l.config.clients)
  }

  lemma {:induction false} PassRecords(clients: seq<Settings.Client>, w: Waking, delay: int, env: Env)
    ensures var v := WakeAll(clients, w, delay, env);
            v.down <= w.down + EnabledNames(clients) && v.up <= w.up + EnabledNames(clients)
  {
    if clients != [] {
      var v := WakeOne(clients[0], w, delay, env);
      PassRecords(clients[1..], v, delay, env);
      Retries.TailEnabled(clients);
    }
  }

  lemma ReactRecords(p: Loop, env: Env)
    requires RecordsListed(p)
    ensures RecordsListed(React(p, env).loop)
    ensures env.reading.OnLine? && !InProgress(p) ==>
              var q := React(p, env).loop; q.down == {} && q.up == {} && q.failures == {}
  {
    hide WakeAll, Reset, ProcessOnBattery, BeginOutage, MarkAllOnline;
    PassRecords(p.config.clients, Before(p), p.config.reattemptDelay, env);
  }

  /** A poll keeps that, whatever configuration it loads, and a quiet one starts over. */
  lemma RecordsStayListed(l: Loop, env: Env)
    requires Phase(l) && (env.reload.Some? || RecordsListed(l))
    ensures RecordsListed(Poll(l, env).loop)
    ensures IsQuiet(l, env) ==>
              var q := Poll(l, env).loop; q.down == {} && q.up == {} && q.failures == {}
  {
    hide React, Phase, Save;
    var p := Prepared(l, env);
    PreparedPhase(l, env);
    PreparedRecords(l, env);
    hide Prepared, RecordsListed;
    ReactRecords(p, env);
    SavedRecords(React(p, env).loop, env.writable);
  }

  lemma PreparedRecords(l: Loop, env: Env)
    requires env.reload.Some? || RecordsListed(l)
    ensures RecordsListed(Prepared(l, env))
  {}

  lemma SavedRecords(q: Loop, writable: bool)
    ensures RecordsListed(q.(tracker := Save(q.tracker, writable))) == RecordsListed(q)
  {}

  /** From a launch on, the recorded names always have an enabled entry in the current configuration. */
  lemma {:induction false} AlwaysListed(loops: seq<Loop>, envs: seq<Env>, k: nat)
    requires IsRun(loops, envs) && Phase(loops[0]) && RecordsListed(loops[0]) && k <= |envs|
    ensures RecordsListed(loops[k])
  {
    if k > 0 {
      AlwaysListed(loops, envs, k - 1);
      RunPhase(loops, envs, k - 1);
      assert IsPoll(loops[k - 1], envs[k - 1], loops[k]);
      hide RecordsListed, Poll;
      RecordsStayListed(loops[k - 1], envs[k - 1]);
    }
  }

  // ---------- What is remembered of packets and charge ----------

  /**
   The time of the last packet: forgotten by a reset or removal, set by a packet, otherwise kept;
   likewise that there was one.
   */
  lemma SentAtExactly(l: Loop, env: Env, name: string)
    requires Phase(l) && env.now > 0 && IsUuid(env.freshId) && UniqueNames(ConfigAt(l, env).clients)
    requires name in Poll(l, env).loop.tracker.image.clients
    ensures var c, kept := Poll(l, env).loop.tracker.image.clients[name], KeptClient(l, env, name);
            && c.wolSentAt == (if Resets(l, env) then 0 else if Sends(l, env, name) then env.now else kept.wolSentAt)
            && (c.wolSent <==> !Resets(l, env) && (Sends(l, env, name) || kept.wolSent))
  {
    hide Prepared, BatteryPoll, IdlePoll, Phase, WakeAll, SomeSays, PassSentAt;
    var p := Prepared(l, env);
    PreparedPhase(l, env);
    PreparedConfig(l, env);
    SameKeys(l, env);
    PreparedSentAt(l, env, name);
    CompletesIff(l, env);
    SaidExactly(l, env, WakeSent(name));
    match env.reading
    case Incomplete =>
    case OnBattery(_) => BatteryKeepsWaking(p, env, name);
    case OnLine(_) => OnLineSentAt(p, env, name);
  }

  /** What is remembered of the client before the poll: nothing if it was not known or is removed. */
  function KeptClient(l: Loop, env: Env, name: string): Tracker.Client {
    if name in l.tracker.image.clients && !Removes(env, name) then l.tracker.image.clients[name] else NEW_CLIENT
  }

  lemma PreparedSentAt(l: Loop, env: Env, name: string)
    requires Phase(l) && name in Prepared(l, env).tracker.image.clients
    ensures var c, kept := Prepared(l, env).tracker.image.clients[name], KeptClient(l, env, name);
            c.wolSentAt == kept.wolSentAt && c.wolSent == kept.wolSent
    ensures name in l.tracker.image.clients || KeptClient(l, env, name) == Tracker.Client(false, false, false, 0,
        false, NEW_SHUTDOWN)
  {
    hide Phase, ProbeAll;
    var r := Reloaded(l, env.reload);
    ProbeFrame(r.config.clients, r.tracker, env.reachable);
  }

  /** What the time of the last packet to a client is after a pass. */
  ghost predicate PassSentAt(before: Waking, after: Waking, name: string, now: int) {
    && name in before.tracker.image.clients && name in after.tracker.image.clients
    && after.tracker.image.clients[name].wolSentAt ==
       (if WakeSent(name) in after.events then now else before.tracker.image.clients[name].wolSentAt)
    && (after.tracker.image.clients[name].wolSent <==>
          WakeSent(name) in after.events || before.tracker.image.clients[name].wolSent)
  }

  lemma {:induction false} SentAtAfterPass(clients: seq<Settings.Client>, w: Waking, delay: int, env: Env, name: string)
    requires name in w.tracker.image.clients
    requires WakeSent(name) in w.events ==>
               w.tracker.image.clients[name].wolSentAt == env.now && w.tracker.image.clients[name].wolSent
    ensures PassSentAt(w, WakeAll(clients, w, delay, env), name, env.now)
    ensures WakeSent(name) in w.events ==> WakeSent(name) in WakeAll(clients, w, delay, env).events
  {
    if clients != [] {
      SentAtAfterPass(clients[1..], WakeOne(clients[0], w, delay, env), delay, env, name);
    }
  }

  lemma OnLineSentAt(p: Loop, env: Env, name: string)
    requires Phase(p) && env.reading.OnLine? && name in p.tracker.image.clients && UniqueNames(p.config.clients)
    ensures var q := React(p, env);
            && name in q.loop.tracker.image.clients
            && var c, reset := q.loop.tracker.image.clients[name],
                               !InProgress(p) || (MayWake(p, env, env.reading.percent) && WakePass(p, env).down == {});
               && c.wolSentAt == (if reset then 0
                                  else if WakeSent(name) in q.events then env.now
                                  else p.tracker.image.clients[name].wolSentAt)
               && (c.wolSent <==> !reset && (WakeSent(name) in q.events || p.tracker.image.clients[name].wolSent))
  {
    hide WakeAll;
    WakeFrame(p.config.clients, Before(p), p.config.reattemptDelay, env);
    SentAtAfterPass(p.config.clients, Before(p), p.config.reattemptDelay, env, name);
  }

  /** The charge on record is that of the last reading on battery, and full after a reset. */
  lemma ChargeExactly(l: Loop, env: Env)
    requires Phase(l) && env.now > 0 && IsUuid(env.freshId)
    ensures Poll(l, env).loop.tracker.image.meta.batteryPercent ==
            if Resets(l, env) then 100
            else if env.reading.OnBattery? then env.reading.percent
            else l.tracker.image.meta.batteryPercent
  {
    hide Prepared, Phase, React;
    var p := Prepared(l, env);
    PreparedPhase(l, env);
    CompletesIff(l, env);
    ReactCharge(p, env);
  }

  lemma ReactCharge(p: Loop, env: Env)
    requires Phase(p) && IsUuid(env.freshId)
    ensures React(p, env).loop.tracker.image.meta.batteryPercent ==
            match env.reading
            case Incomplete => p.tracker.image.meta.batteryPercent
            case OnBattery(percent) => percent
            case OnLine(percent) =>
              if InProgress(p) && !(MayWake(p, env, percent) && WakePass(p, env).down == {})
              then p.tracker.image.meta.batteryPercent else 100
  {
    hide WakeAll, DeliverAll;
    match env.reading
    case Incomplete =>
    case OnBattery(percent) =>
      var marked := if p.onBattery then p.tracker else MarkAllOnline(p.tracker);
      MarkFrame(p.tracker);
      var begun := BeginOutage(marked, percent, env.freshId);
      OutageFrame(marked, percent, env.freshId);
      DeliverFrame(p.config.clients, begun, begun.image.meta.outageId.value, env.replies, percent, RetryDelay(p.config),
          env.now);
    case OnLine(percent) => WakeFrame(p.config.clients, Before(p), p.config.reattemptDelay, env);
  }
}
