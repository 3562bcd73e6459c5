/**
 The controller's polling loop: outages begin on battery readings, restorations run while
 power is back, and clients are woken. Functions say what one poll does; the class runs it.
 A poll reads the clock once.
 */
module Monitor {
  import opened Wrappers
  import opened Settings
  import opened Tracker
  import opened Coordinator

  datatype Reading = Incomplete | OnBattery(percent: int) | OnLine(percent: int)

  /** Notifications, and the log message that ends a restoration. */
  datatype Event =
    | PowerLoss
    | PowerRestored
    | ClientRecovered(name: string)
    | WakeSent(name: string)
    | WakeFailed(name: string)
    | AllBackOnline
    | RecoveryTimedOut(names: set<string>)

  /** Everything one poll learns from outside. */
  datatype Env = Env(
    now: int,
    reload: Option<Config>,
    reading: Reading,
    reachable: set<string>,
    replies: map<string, Reply>,
    wolSucceeds: set<string>,
    freshId: string,
    writable: bool)

  datatype Loop = Loop(
    config: Config,
    tracker: State,
    onBattery: bool,
    restoration: bool,
    start: Option<int>,
    down: set<string>,
    up: set<string>,
    failures: set<string>)

  /** The loop after a poll, the events it emitted and the shutdowns it delivered. */
  datatype Polled = Polled(loop: Loop, events: seq<Event>, log: seq<Delivery>)

  // ---------- What one poll does ----------

  function Launched(config: Config, file: Option<Image>): Loop {
    var tracker := Started(file, NamesOf(config.clients));
    Loop(config, tracker, tracker.image.meta.onBattery, false, None, {}, {}, {})
  }

  function Reloaded(l: Loop, reload: Option<Config>): Loop {
    match reload
    case None => l
    case Some(config) =>
      l.(config := config,
         tracker := SyncClients(l.tracker, NamesOf(config.clients)),
         down := l.down * EnabledNames(config.clients),
         up := l.up * EnabledNames(config.clients))
  }

  function ProbeAll(clients: seq<Settings.Client>, t: State, reachable: set<string>): State {
    if clients == [] then t
    else if !clients[0].enabled then ProbeAll(clients[1..], t, reachable)
    else ProbeAll(clients[1..], Update(t, clients[0].name, clients[0].name in reachable), reachable)
  }

  function BatteryPoll(l: Loop, env: Env, percent: int): Polled {
    var marked := if l.onBattery then l.tracker else MarkAllOnline(l.tracker);
    var progress := ProcessOnBattery(l.config, BeginOutage(marked, percent, env.freshId), env.replies, percent,
        env.now);
    Polled(l.(tracker := progress.tracker, onBattery := true, restoration := false, start := None),
           if l.onBattery then [] else [PowerLoss], progress.log)
  }

  /** The part of the loop that a pass of waking changes. */
  datatype Waking = Waking(
    tracker: State, down: set<string>, up: set<string>, failures: set<string>, events: seq<Event>)

  /** Whether waking a client is still this restoration's concern. */
  predicate IsEligible(c: Settings.Client, t: State) {
    c.enabled && c.wakeEnabled && !ShouldSkip(t, c.name) && (c.alwaysWake || WasOnlineBefore(t, c.name))
  }

  function WakeOne(c: Settings.Client, w: Waking, reattemptDelay: int, env: Env): Waking {
    if !c.enabled then w
    else if !IsEligible(c, w.tracker) then w.(tracker := MarkSkip(w.tracker, c.name))
    else if IsOnline(w.tracker, c.name) then
      if c.name in w.up then w
      else w.(down := w.down - {c.name}, up := w.up + {c.name},
              events := w.events + if c.name in w.down then [ClientRecovered(c.name)] else [])
    else
      var missed := w.(down := w.down + {c.name});
      if !ShouldAttemptWol(w.tracker, c.name, reattemptDelay, env.now) then missed
      else if c.name in env.wolSucceeds then
        missed.(tracker := MarkWolSent(w.tracker, c.name, env.now), events := w.events + [WakeSent(c.name)])
      else if c.name in w.failures then missed
      else missed.(failures := w.failures + {c.name}, events := w.events + [WakeFailed(c.name)])
  }

  function WakeAll(clients: seq<Settings.Client>, w: Waking, reattemptDelay: int, env: Env): Waking {
    if clients == [] then w
    else WakeAll(clients[1..], WakeOne(clients[0], w, reattemptDelay, env), reattemptDelay, env)
  }

  predicate IsUnset(start: Option<int>) { start.None? || start.value == 0 }

  /** When the restoration that this poll belongs to began. */
  function RestorationStart(l: Loop, now: int): int {
    if IsUnset(l.start) then now else l.start.value
  }

  predicate MayWake(l: Loop, env: Env, percent: int) {
    && percent >= l.config.minBatteryPercent
    && env.now - RestorationStart(l, env.now) >= l.config.restoreDelay
  }

  function WakePass(l: Loop, env: Env): Waking {
    WakeAll(l.config.clients, Waking(l.tracker, l.down, l.up, l.failures, []), l.config.reattemptDelay, env)
  }

  function RestorePoll(l: Loop, env: Env, percent: int): Polled {
    var start := RestorationStart(l, env.now);
    var events := if IsUnset(l.start) then [PowerRestored] else [];
    var begun := l.(onBattery := false, restoration := true, start := Some(start));
    if !MayWake(l, env, percent) then Polled(begun, events, [])
    else
      var w := WakePass(l, env);
      var woken := begun.(tracker := w.tracker, down := w.down, up := w.up, failures := w.failures);
      if w.down == {} then
        Polled(woken.(restoration := false, start := None, tracker := Reset(w.tracker), failures := {}),
               events + w.events + [AllBackOnline], [])
      else if env.now - start > l.config.clientTimeout then
        Polled(woken.(restoration := false, start := None, failures := {}),
               events + w.events + [RecoveryTimedOut(w.down)], [])
      else Polled(woken, events + w.events, [])
  }

  function IdlePoll(l: Loop): Polled {
    Polled(l.(tracker := Reset(l.tracker), down := {}, up := {}, failures := {}), [], [])
  }

  /** The loop once the configuration is current and, for a complete reading, the clients are probed. */
  function Prepared(l: Loop, env: Env): Loop {
    var current := Reloaded(l, env.reload);
    if env.reading.Incomplete? then current
    else current.(tracker := ProbeAll(current.config.clients, current.tracker, env.reachable))
  }

  function React(l: Loop, env: Env): Polled {
    match env.reading
    case Incomplete => Polled(l, [], [])
    case OnBattery(percent) => BatteryPoll(l, env, percent)
    case OnLine(percent) => if l.onBattery || l.restoration then RestorePoll(l, env, percent) else IdlePoll(l)
  }

  function Poll(l: Loop, env: Env): Polled {
    var p := React(Prepared(l, env), env);
    p.(loop := p.loop.(tracker := Save(p.loop.tracker, env.writable)))
  }

  // ---------- The class ----------

  class Service {
    const tracker: ClientStateTracker
    const coordinator: ShutdownCoordinator
    var config: Config
    var onBattery: bool
    var restoration: bool
    var restorationStart: Option<int>
    var recordedDown: set<string>
    var recordedUp: set<string>
    var reportedFailures: set<string>

    function Value(): Loop
      reads this, tracker
    {
      Loop(config, tracker.Value(), onBattery, restoration, restorationStart, recordedDown, recordedUp,
          reportedFailures)
    }

    constructor (config: Config, statusFile: Option<Image>)
      ensures Value() == Launched(config, statusFile)
      ensures fresh(tracker)
    {
      var states := new ClientStateTracker(NameList(config.clients), statusFile);
      tracker := states;
      coordinator := new ShutdownCoordinator();
      this.config := config;
      onBattery := states.meta.onBattery;
      restoration, restorationStart := false, None;
      recordedDown, recordedUp, reportedFailures := {}, {}, {};
    }

    method Reload(reload: Option<Config>)
      modifies this, tracker
      ensures Value() == Reloaded(old(Value()), reload)
    {
      if reload.None? {
        return;
      }
      config := reload.value;
      tracker.SyncWith(NameList(config.clients));
      var enabledNames := EnabledNames(config.clients);
      recordedDown := recordedDown * enabledNames;
      recordedUp := recordedUp * enabledNames;
    }

    method ProbeClients(reachable: set<string>)
      modifies tracker
      ensures tracker.Value() == ProbeAll(config.clients, old(tracker.Value()), reachable)
    {
      ghost var probed := ProbeAll(config.clients, tracker.Value(), reachable);
      assert config.clients[0..] == config.clients;
      for i := 0 to |config.clients|
        invariant ProbeAll(config.clients[i..], tracker.Value(), reachable) == probed
      {
        assert config.clients[i..][1..] == config.clients[i + 1..];
        var client := config.clients[i];
        if !client.enabled {
          continue;
        }
        tracker.UpdateOnline(client.name, client.name in reachable);
      }
    }

    method HandleOnBattery(env: Env, percent: int) returns (events: seq<Event>, log: seq<Delivery>)
      modifies this, tracker
      ensures Polled(Value(), events, log) == BatteryPoll(old(Value()), env, percent)
    {
      events := [];
      if !onBattery {
        tracker.MarkAllOnlineClients();
        tracker.StartOutage(percent, env.freshId);
        events := [PowerLoss];
      } else {
        tracker.StartOutage(percent, env.freshId);
      }
      onBattery := true;
      restoration := false;
      restorationStart := None;
      log := coordinator.Process(config, tracker, env.replies, percent, env.now);
    }

    function WakingValue(events: seq<Event>): Waking
      reads this, tracker
    {
      Waking(tracker.Value(), recordedDown, recordedUp, reportedFailures, events)
    }

    method WakeClient(client: Settings.Client, env: Env, ghost sent: seq<Event>) returns (events: seq<Event>)
      modifies this`recordedDown, this`recordedUp, this`reportedFailures, tracker
      ensures WakingValue(sent + events) == WakeOne(client, old(WakingValue(sent)), config.reattemptDelay, env)
    {
      events := [];
      assert sent + events == sent;
      if !client.enabled {
        return;
      }
      if !client.wakeEnabled {
        tracker.MarkSkipped(client.name);
        return;
      }
      if ShouldSkip(tracker.Value(), client.name) {
        return;
      }
      if !client.alwaysWake && !WasOnlineBefore(tracker.Value(), client.name) {
        tracker.MarkSkipped(client.name);
        return;
      }
      if IsOnline(tracker.Value(), client.name) {
        if client.name !in recordedUp {
          if client.name in recordedDown {
            events := [ClientRecovered(client.name)];
          }
          recordedDown := recordedDown - {client.name};
          recordedUp := recordedUp + {client.name};
        }
        return;
      }
      recordedDown := recordedDown + {client.name};
      if ShouldAttemptWol(tracker.Value(), client.name, config.reattemptDelay, env.now) {
        if client.name in env.wolSucceeds {
          tracker.MarkSent(client.name, env.now);
          events := [WakeSent(client.name)];
        } else if client.name !in reportedFailures {
          reportedFailures := reportedFailures + {client.name};
          events := [WakeFailed(client.name)];
        }
      }
    }

    method WakeClients(env: Env) returns (events: seq<Event>)
      modifies this`recordedDown, this`recordedUp, this`reportedFailures, tracker
      ensures WakingValue(events) == WakePass(old(Value()), env)
    {
      events := [];
      ghost var all := WakePass(Value(), env);
      assert config.clients[0..] == config.clients;
      for i := 0 to |config.clients|
        invariant WakeAll(config.clients[i..], WakingValue(events), config.reattemptDelay, env) == all
      {
        assert config.clients[i..][1..] == config.clients[i + 1..];
        var more := WakeClient(config.clients[i], env, events);
        events := events + more;
      }
    }

    method HandleRestoration(env: Env, percent: int) returns (events: seq<Event>)
      modifies this, tracker
      ensures Polled(Value(), events, []) == RestorePoll(old(Value()), env, percent)
    {
      onBattery := false;
      restoration := true;
      events := [];
      if IsUnset(restorationStart) {
        restorationStart := Some(env.now);
        events := [PowerRestored];
      }
      if percent < config.minBatteryPercent || env.now - restorationStart.value < config.restoreDelay {
        return;
      }
      var more := WakeClients(env);
      events := events + more;
      if recordedDown == {} {
        restoration := false;
        restorationStart := None;
        tracker.ResetAll();
        reportedFailures := {};
        events := events + [AllBackOnline];
      } else if env.now - restorationStart.value > config.clientTimeout {
        events := events + [RecoveryTimedOut(recordedDown)];
        restoration := false;
        restorationStart := None;
        reportedFailures := {};
      }
    }

    method HandleIdle()
      modifies this, tracker
      ensures Polled(Value(), [], []) == IdlePoll(old(Value()))
    {
      tracker.ResetAll();
      tracker.SetUpsOnBattery(false, 100, "");
      recordedDown := {};
      recordedUp := {};
      reportedFailures := {};
    }

    /** One turn of the loop. */
    method PollOnce(env: Env) returns (events: seq<Event>, log: seq<Delivery>)
      modifies this, tracker
      ensures Polled(Value(), events, log) == Poll(old(Value()), env)
    {
      events, log := [], [];
      Reload(env.reload);
      if env.reading.Incomplete? {
        tracker.SaveState(env.writable);
        return;
      }
      ProbeClients(env.reachable);
      match env.reading {
        case OnBattery(percent) => events, log := HandleOnBattery(env, percent);
        case OnLine(percent) =>
          if onBattery || restoration {
            events := HandleRestoration(env, percent);
          } else {
            HandleIdle();
          }
      }
      tracker.SaveState(env.writable);
    }
  }
}
