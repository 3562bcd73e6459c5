/** Who is asked to shut down: exactly which clients a poll delivers to, and with what. */
module Asked {
  import opened Wrappers
  import opened CommandIds
  import opened Settings
  import opened Tracker
  import opened Coordinator
  import opened Monitor
  import opened Frames
  import opened Runs
  import opened Deliveries
  import opened Retries

  /** The configuration a poll goes by: the one it loads, if it loads one. */
  function ConfigAt(l: Loop, env: Env): Config { if env.reload.Some? then env.reload.value else l.config }

  /** The client's policy lets it be shut down at this charge. */
  predicate Permits(c: Settings.Client, percent: int) {
    && c.enabled && c.shutdown.enabled
    && c.shutdown.agentId.Some? && c.shutdown.agentId.value != ""
    && percent <= c.shutdown.batteryPercent
  }

  /** The delivery is one to this entry of the configuration, as its policy has it. */
  predicate IsTo(d: Delivery, c: Settings.Client, percent: int, now: int) {
    && d.attempt.name == c.name && Some(d.attempt.agentId) == c.shutdown.agentId
    && d.attempt.threshold == c.shutdown.batteryPercent
    && d.attempt.percent == percent && d.attempt.at == now
  }

  /** At least max(pollInterval, 5) seconds have passed since the last attempt on record. */
  predicate MayRetry(s: Shutdown, pollInterval: int, now: int) {
    now - s.lastAttemptAt >= 5 && now - s.lastAttemptAt >= pollInterval
  }

  function CountTo(log: seq<Delivery>, name: string): nat {
    if log == [] then 0 else (if log[0].attempt.name == name then 1 else 0) + CountTo(log[1..], name)
  }

  lemma {:induction false} CountConcat(a: seq<Delivery>, b: seq<Delivery>, name: string)
    ensures CountTo(a + b, name) == CountTo(a, name) + CountTo(b, name)
  {
    if a == [] {
      assert a + b == b;
    } else {
      CountConcat(a[1..], b, name);
      assert (a + b)[1..] == a[1..] + b && (a + b)[0] == a[0];
    }
  }

  lemma {:induction false} CountedIsThere(log: seq<Delivery>, name: string)
    ensures CountTo(log, name) > 0 <==> exists d :: d in log && d.attempt.name == name
  {
    if log != [] {
      CountedIsThere(log[1..], name);
      assert log == [log[0]] + log[1..];
      if log[0].attempt.name == name {
        assert log[0] in log;
      }
    }
  }

  // ---------- Whoever is asked may be asked ----------

  lemma {:induction false} DeliveredIsPermitted(clients: seq<Settings.Client>, t: State, outage: string,
      replies: map<string, Reply>, percent: int, delay: int, now: int, d: Delivery)
    requires d in DeliverAll(clients, t, outage, replies, percent, delay, now).log
    ensures exists i | 0 <= i < |clients| :: Permits(clients[i], percent) && IsTo(d, clients[i], percent, now)
    ensures d.attempt.name in replies ==> d.reply == replies[d.attempt.name]
    ensures d.attempt.name !in replies ==> d.reply.Failed?
  {
    var c := clients[0];
    var first := DeliverIfDue(c, t, outage, replies, percent, delay, now);
    if d in first.log {
      DeliverEffect(c, t, outage, ReplyOf(replies, c.name), percent, now);
      assert Permits(c, percent) && IsTo(d, c, percent, now);
    } else {
      DeliveredIsPermitted(clients[1..], first.tracker, outage, replies, percent, delay, now, d);
      var i :| 0 <= i < |clients[1..]| && Permits(clients[1..][i], percent) && IsTo(d, clients[1..][i], percent, now);
      assert clients[i + 1] == clients[1..][i];
    }
  }

  /**
   Whatever a poll delivers, it is on battery, and the current configuration has an enabled entry
   with shutdown enabled for that name, agent and threshold, and the charge is at or below the threshold.
   */
  lemma AskedIsPermitted(l: Loop, env: Env, d: Delivery)
    requires Phase(l) && IsUuid(env.freshId) && d in Poll(l, env).log
    ensures env.reading.OnBattery?
    ensures exists i | 0 <= i < |ConfigAt(l, env).clients| ::
              && Permits(ConfigAt(l, env).clients[i], env.reading.percent)
              && IsTo(d, ConfigAt(l, env).clients[i], env.reading.percent, env.now)
    ensures d.attempt.percent <= d.attempt.threshold
    ensures d.attempt.name in env.replies ==> d.reply == env.replies[d.attempt.name]
    ensures d.attempt.name !in env.replies ==> d.reply.Failed?
  {
    hide Permits, IsTo, DeliverAll, BeginOutage, MarkAllOnline;
    var p := Prepared(l, env);
    OnlyOnBattery(l, env, d);
    var percent := env.reading.percent;
    var marked := if p.onBattery then p.tracker else MarkAllOnline(p.tracker);
    var begun := BeginOutage(marked, percent, env.freshId);
    DeliveredIsPermitted(p.config.clients, begun, begun.image.meta.outageId.value, env.replies, percent,
                         RetryDelay(p.config), env.now, d);
    assert forall c | Permits(c, percent) && IsTo(d, c, percent,
        env.now) :: d.attempt.percent <= d.attempt.threshold by {
      PermittedIsBelow(d, percent, env.now);
    }
  }

  lemma OnlyOnBattery(l: Loop, env: Env, d: Delivery)
    requires d in Poll(l, env).log
    ensures env.reading.OnBattery? && d in BatteryPoll(Prepared(l, env), env, env.reading.percent).log
    ensures Prepared(l, env).config == ConfigAt(l, env)
  {}

  lemma PermittedIsBelow(d: Delivery, percent: int, now: int)
    ensures forall c | Permits(c, percent) && IsTo(d, c, percent, now) :: d.attempt.percent <= d.attempt.threshold
  {}

  // ---------- Whoever may be asked is asked once ----------

  /** The client with this record is asked now. */
  predicate AskNow(c: Settings.Client, s: Shutdown, percent: int, pollInterval: int, now: int) {
    Permits(c, percent) && !s.acknowledged && MayRetry(s, pollInterval, now)
  }

  lemma {:induction false} NotListedNotAsked(clients: seq<Settings.Client>, t: State, outage: string,
      replies: map<string, Reply>, percent: int, delay: int, now: int, name: string)
    requires forall i | 0 <= i < |clients| :: clients[i].name != name
    ensures CountTo(DeliverAll(clients, t, outage, replies, percent, delay, now).log, name) == 0
  {
    var log := DeliverAll(clients, t, outage, replies, percent, delay, now).log;
    CountedIsThere(log, name);
    if d :| d in log && d.attempt.name == name {
      DeliveredIsPermitted(clients, t, outage, replies, percent, delay, now, d);
    }
  }

  lemma FirstAsked(c: Settings.Client, t: State, outage: string, replies: map<string, Reply>, percent: int,
                   config: Config, now: int, name: string)
    requires name in t.image.clients && c.name in t.image.clients
    ensures var first := DeliverIfDue(c, t, outage, replies, percent, RetryDelay(config), now);
            && first.tracker.image.clients.Keys == t.image.clients.Keys
            && (c.name != name ==> first.tracker.image.clients[name] == t.image.clients[name])
            && CountTo(first.log, name) ==
               if c.name == name && AskNow(c, t.image.clients[name].shutdown, percent, config.pollInterval,
                   now) then 1 else 0
  {
    if IsDue(c, t, percent, RetryDelay(config), now) {
      DeliverEffect(c, t, outage, ReplyOf(replies, c.name), percent, now);
      var log := DeliverIfDue(c, t, outage, replies, percent, RetryDelay(config), now).log;
      assert log[1..] == [];
    }
  }

  lemma {:induction false} ListedIsAsked(clients: seq<Settings.Client>, t: State, outage: string,
      replies: map<string, Reply>, percent: int, config: Config, now: int, i: nat)
    requires UniqueNames(clients) && i < |clients| && NamesOf(clients) <= t.image.clients.Keys
    ensures clients[i].name in t.image.clients
    ensures CountTo(DeliverAll(clients, t, outage, replies, percent, RetryDelay(config), now).log, clients[i].name) ==
            if AskNow(clients[i], t.image.clients[clients[i].name].shutdown, percent, config.pollInterval,
                now) then 1 else 0
  {
    hide AskNow, DeliverIfDue, RetryDelay;
    var delay, name := RetryDelay(config), clients[i].name;
    var first := DeliverIfDue(clients[0], t, outage, replies, percent, delay, now);
    var rest := DeliverAll(clients[1..], first.tracker, outage, replies, percent, delay, now);
    TailNames(clients);
    assert clients[0].name in t.image.clients && name in t.image.clients;
    FirstAsked(clients[0], t, outage, replies, percent, config, now, name);
    CountConcat(first.log, rest.log, name);
    assert forall j | 0 <= j < |clients[1..]| :: clients[1..][j] == clients[j + 1];
    if i == 0 {
      NotListedNotAsked(clients[1..], first.tracker, outage, replies, percent, delay, now, name);
    } else {
      assert clients[1..][i - 1] == clients[i];
      ListedIsAsked(clients[1..], first.tracker, outage, replies, percent, config, now, i - 1);
    }
  }

  /**
   A poll asks a client of its configuration exactly once if it is on battery, the client's policy
   permits it at this charge, the client is not acknowledged, and its last attempt is at least
   max(pollInterval, 5) seconds ago; otherwise not at all. The record is the one after probing, or a
   new one when an outage begins.
   */
  lemma AskedExactly(l: Loop, env: Env, i: nat)
    requires Phase(l) && IsUuid(env.freshId) && env.now > 0
    requires UniqueNames(ConfigAt(l, env).clients) && i < |ConfigAt(l, env).clients|
    ensures var c, s := ConfigAt(l, env).clients[i], BaseRecord(Prepared(l, env), env,
        ConfigAt(l, env).clients[i].name);
            CountTo(Poll(l, env).log, c.name) ==
            if env.reading.OnBattery? && Permits(c, env.reading.percent) && !s.acknowledged
               && MayRetry(s, ConfigAt(l, env).pollInterval, env.now)
            then 1 else 0
  {
    hide Permits, MayRetry, DeliverAll, Prepared;
    var p := Prepared(l, env);
    PreparedPhase(l, env);
    assert p.config == ConfigAt(l, env) by {
      PreparedConfig(l, env);
    }
    if env.reading.OnBattery? {
      BatteryAsked(p, env, i);
    } else {
      NothingLogged(l, env);
    }
  }

  lemma PreparedConfig(l: Loop, env: Env)
    ensures Prepared(l, env).config == ConfigAt(l, env)
  {}

  lemma NothingLogged(l: Loop, env: Env)
    requires !env.reading.OnBattery?
    ensures Poll(l, env).log == []
  {}

  lemma BatteryAsked(p: Loop, env: Env, i: nat)
    requires Phase(p) && IsUuid(env.freshId) && env.reading.OnBattery?
    requires UniqueNames(p.config.clients) && i < |p.config.clients|
    ensures var c, percent := p.config.clients[i], env.reading.percent;
            CountTo(BatteryPoll(p, env, percent).log, c.name) ==
            if AskNow(c, BaseRecord(p, env, c.name), percent, p.config.pollInterval, env.now) then 1 else 0
  {
    hide DeliverAll, AskNow, CountTo, RetryDelay;
    var percent := env.reading.percent;
    var marked := if p.onBattery then p.tracker else MarkAllOnline(p.tracker);
    MarkFrame(p.tracker);
    var begun := BeginOutage(marked, percent, env.freshId);
    OutageFrame(marked, percent, env.freshId);
    ListedIsAsked(p.config.clients, begun, begun.image.meta.outageId.value, env.replies, percent, p.config, env.now, i);
    assert begun.image.clients[p.config.clients[i].name].shutdown == BaseRecord(p, env, p.config.clients[i].name);
  }
}
