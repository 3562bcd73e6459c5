/** Polls of a configuration with one client, worked out: the building blocks of concrete runs. */
module OneClient {
  import opened Wrappers
  import opened CommandIds
  import opened Settings
  import opened Tracker
  import opened Coordinator
  import opened Monitor
  import opened Frames
  import opened Runs

  /** A client that is shut down at any charge through its agent, and always woken. */
  function ClientNamed(name: string): Settings.Client {
    Settings.Client(name, true, true, true, ShutdownPolicy(true, 100, Some("agent")))
  }

  function ConfigOf(name: string): Config { Config([ClientNamed(name)], 0, 0, 0, 0, 0) }

  const NO_CLIENTS := Config([], 0, 0, 0, 0, 0)

  lemma NamesOfOne(name: string)
    ensures NamesOf(ConfigOf(name).clients) == {name} == EnabledNames(ConfigOf(name).clients)
  {
    assert ConfigOf(name).clients[0].name == name;
  }

  /** What a poll with this client configured sees: the reading, whether the client answers, and its agent's reply. */
  function Moment(name: string, now: int, reading: Reading, online: bool, reply: Reply, freshId: string,
      writable: bool): Env {
    Env(now, Some(ConfigOf(name)), reading, if online then {name} else {}, map[name := reply], {}, freshId, writable)
  }

  /** The client as the poll finds it. */
  function Found(l: Loop, name: string): Tracker.Client {
    if name in l.tracker.image.clients then l.tracker.image.clients[name] else NEW_CLIENT
  }

  lemma ProbeOne(name: string, t: State, reachable: set<string>)
    ensures ProbeAll(ConfigOf(name).clients, t, reachable) == Update(t, name, name in reachable)
  {
    var c := ClientNamed(name);
    assert [c][1..] == [];
    var u := Update(t, name, name in reachable);
    assert ProbeAll([c], t, reachable) == ProbeAll([], u, reachable);
  }

  /** The loop once the client is configured and probed. */
  lemma PreparedOne(l: Loop, env: Env, name: string)
    requires Phase(l) && env.reload == Some(ConfigOf(name)) && !env.reading.Incomplete?
    ensures var p := Prepared(l, env);
            && Phase(p) && p.config == ConfigOf(name)
            && p.onBattery == l.onBattery && p.restoration == l.restoration && p.start == l.start
            && p.tracker.image.meta == l.tracker.image.meta
            && p.tracker.image.clients == map[name := Observed(Found(l, name), name in env.reachable)]
  {
    PreparedPhase(l, env);
    NamesOfOne(name);
    var r := Reloaded(l, env.reload);
    assert r.tracker.image.clients == map[name := Found(l, name)];
    ProbeOne(name, r.tracker, env.reachable);
  }

  /** The identifier of an attempt for a record. */
  function IdFor(s: Shutdown, outage: string, name: string): string {
    if s.commandId.Some? && s.commandId.value != "" then s.commandId.value
    else CommandId(outage, name, s.deliverySequence)
  }

  predicate IsDueNow(s: Shutdown, now: int) { !s.acknowledged && now - s.lastAttemptAt >= 5 }

  /** What a delivery does to a record, and what is logged of it. */
  ghost predicate Attempted(s: Shutdown, u: Shutdown, log: seq<Delivery>, name: string, outage: string, reply: Reply,
      now: int) {
    if !IsDueNow(s, now) then log == [] && u == s
    else
      var id := IdFor(s, outage, name);
      && u == Recorded(s, id, reply, 0, now)
      && log == [Delivery(Attempt(name, "agent", outage, s.deliverySequence, id, now, 0, 100), reply,
                          if reply == Accepted then AcceptedNotice
                          else if s.failureNotified then NoNotice else FailureNotice)]
  }

  lemma DeliverToOne(name: string, t: State, outage: string, reply: Reply, now: int)
    requires t.image.clients.Keys == {name}
    ensures var p := DeliverAll(ConfigOf(name).clients, t, outage, map[name := reply], 0, 5, now);
            var s := t.image.clients[name].shutdown;
            && p.tracker.image.meta == t.image.meta && p.tracker.image.clients.Keys == {name}
            && p.tracker.image.clients[name].online == t.image.clients[name].online
            && p.tracker.image.clients[name].skip == t.image.clients[name].skip
            && p.tracker.image.clients[name].wolSentAt == t.image.clients[name].wolSentAt
            && Attempted(s, p.tracker.image.clients[name].shutdown, p.log, name, outage, reply, now)
  {
    var c := ClientNamed(name);
    var replies := map[name := reply];
    assert [c][1..] == [];
    var first := DeliverIfDue(c, t, outage, replies, 0, 5, now);
    assert DeliverAll([], first.tracker, outage, replies, 0, 5, now) == Progress(first.tracker, []);
    assert DeliverAll([c], t, outage, replies, 0, 5, now) == Progress(first.tracker, first.log + []);
    assert first.log + [] == first.log;
    if IsDueNow(t.image.clients[name].shutdown, now) {
      DeliverEffect(c, t, outage, reply, 0, now);
    }
  }

  /** The outage of a poll on battery, and the record its delivery starts from. */
  function OutageOf(l: Loop, env: Env): string {
    if l.tracker.image.meta.outageId.Some? then l.tracker.image.meta.outageId.value else env.freshId
  }

  function StartOf(l: Loop, env: Env, name: string): Shutdown {
    if l.tracker.image.meta.onBattery then Observed(Found(l, name), name in env.reachable).shutdown else NEW_SHUTDOWN
  }

  /** What the marks and the outage make of the tracker before the delivery. */
  lemma BegunOfOne(p: Loop, name: string, freshId: string) returns (begun: State)
    requires Phase(p) && p.tracker.image.clients.Keys == {name} && IsUuid(freshId)
    ensures begun == BeginOutage(if p.onBattery then p.tracker else MarkAllOnline(p.tracker), 0, freshId)
    ensures begun.image.clients.Keys == {name}
    ensures var c, b := p.tracker.image.clients[name], begun.image.clients[name];
            && b.online == c.online && b.skip == c.skip && b.wolSentAt == c.wolSentAt
            && b.shutdown == if p.tracker.image.meta.onBattery then c.shutdown else NEW_SHUTDOWN
    ensures begun.image.meta == Meta(true, 0, Some(if p.tracker.image.meta.outageId.Some?
                                                   then p.tracker.image.meta.outageId.value else freshId))
    ensures IsUuid(begun.image.meta.outageId.value) && begun.image.meta.outageId.value != ""
  {
    begun := BeginOutage(if p.onBattery then p.tracker else MarkAllOnline(p.tracker), 0, freshId);
  }

  lemma ReactOfOne(p: Loop, name: string, env: Env, reply: Reply)
    requires Phase(p) && p.config == ConfigOf(name) && p.tracker.image.clients.Keys == {name}
    requires env.replies == map[name := reply] && IsUuid(env.freshId)
    ensures var q, c := BatteryPoll(p, env, 0), p.tracker.image.clients[name];
            var outage := OutageOf(p, env);
            && q.loop.config == p.config && q.loop.onBattery && !q.loop.restoration && q.loop.start == None
            && q.loop.tracker.image.meta == Meta(true, 0, Some(outage))
            && q.loop.tracker.image.clients.Keys == {name}
            && q.loop.tracker.image.clients[name].online == c.online
            && q.loop.tracker.image.clients[name].skip == c.skip
            && q.loop.tracker.image.clients[name].wolSentAt == c.wolSentAt
            && Attempted(if p.tracker.image.meta.onBattery then c.shutdown else NEW_SHUTDOWN,
                         q.loop.tracker.image.clients[name].shutdown, q.log, name, outage, reply, env.now)
  {
    hide DeliverAll, BeginOutage, Recorded, MarkAllOnline;
    var begun := BegunOfOne(p, name, env.freshId);
    DeliverToOne(name, begun, OutageOf(p, env), reply, env.now);
  }

  /** A poll on battery. */
  lemma BatteryPollOfOne(l: Loop, name: string, now: int, online: bool, reply: Reply, freshId: string, writable: bool)
    requires Phase(l) && now > 0 && IsUuid(freshId)
    ensures var env := Moment(name, now, OnBattery(0), online, reply, freshId, writable);
            var q, outage := Poll(l, env), OutageOf(l, env);
            && Phase(q.loop) && q.loop.config == ConfigOf(name)
            && q.loop.onBattery && !q.loop.restoration && q.loop.start == None
            && q.loop.tracker.image.meta == Meta(true, 0, Some(outage))
            && q.loop.tracker.image.clients.Keys == {name}
            && q.loop.tracker.image.clients[name].online == online
            && q.loop.tracker.image.clients[name].skip == Found(l, name).skip
            && q.loop.tracker.image.clients[name].wolSentAt == Found(l, name).wolSentAt
            && Attempted(StartOf(l, env, name), q.loop.tracker.image.clients[name].shutdown, q.log, name, outage,
                reply, now)
  {
    hide BatteryPoll, Prepared, Phase, Attempted;
    var env := Moment(name, now, OnBattery(0), online, reply, freshId, writable);
    var p := Prepared(l, env);
    PreparedOne(l, env, name);
    PollPhase(l, env);
    ReactOfOne(p, name, env, reply);
  }

  /** A poll with power back while the client does not answer: a restoration begins, goes on or times out. */
  lemma OfflinePollOfOne(l: Loop, name: string, now: int, freshId: string, writable: bool)
    requires Phase(l) && InProgress(l) && name in l.tracker.image.clients && now > 0 && IsUuid(freshId)
    requires !l.tracker.image.clients[name].skip && l.tracker.image.clients[name].wolSentAt <= now
    ensures var env := Moment(name, now, OnLine(50), false, Accepted, freshId, writable);
            var q, start := Poll(l, env), RestorationStart(l, now);
            && Phase(q.loop) && q.log == [] && !q.loop.onBattery && AllBackOnline !in q.events
            && q.loop.tracker.image.meta == l.tracker.image.meta
            && q.loop.tracker.image.clients.Keys == {name}
            && !q.loop.tracker.image.clients[name].skip && q.loop.tracker.image.clients[name].wolSentAt <= now
            && q.loop.tracker.image.clients[name].shutdown == Observed(Found(l, name), false).shutdown
            && (now >= start ==> q.loop.restoration == !(now - start > 0))
            && (now >= start && q.loop.restoration ==> q.loop.start == Some(start))
  {
    hide Prepared, Loaded, WakeAll;
    var env := Moment(name, now, OnLine(50), false, Accepted, freshId, writable);
    var p := Prepared(l, env);
    PreparedOne(l, env, name);
    PollPhase(l, env);
    WakeNobody(p, env, name);
  }

  lemma WakeNobody(p: Loop, env: Env, name: string)
    requires p.config == ConfigOf(name) && p.tracker.image.clients.Keys == {name} && env.wolSucceeds == {}
    requires !p.tracker.image.clients[name].skip && !p.tracker.image.clients[name].online
    ensures var w := WakePass(p, env);
            && w.tracker == p.tracker && name in w.down && AllBackOnline !in w.events
  {
    var c := ClientNamed(name);
    var w := Waking(p.tracker, p.down, p.up, p.failures, []);
    assert [c][1..] == [];
    assert WakeAll([c], w, 0, env) == WakeAll([], WakeOne(c, w, 0, env), 0, env);
  }
}
