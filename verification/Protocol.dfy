/**
 The controller and the agents together, over a network that may lose any request or any
 response: what an acknowledgement means, and how often a machine is powered off.
 */
module Protocol {
  import opened Wrappers
  import opened CommandIds
  import opened Settings
  import opened Tracker
  import opened Coordinator
  import opened Monitor
  import opened Runs
  import opened Deliveries
  import opened Retries
  import Ledger

  /** The history of one agent's ledger. */
  datatype AgentLog = AgentLog(ledgers: seq<Ledger.Entries>, events: seq<Ledger.Event>)

  type Agents = map<string, AgentLog>

  /** What the network made of an attempt: lost on the way, or answered by the agent. The answer may be lost too. */
  datatype Exchange = Lost | Answered(event: Ledger.Event, after: Ledger.Entries)

  datatype System = System(world: World, agents: Agents)

  datatype Move =
    /** A poll of the controller, with what became of its messages. */
    | Turn(env: Env, exchanges: seq<Exchange>)
    | Restart(config: Config)
    /** The controller dies in a poll, after some of its exchanges. */
    | Crash(env: Env, exchanges: seq<Exchange>, config: Config)
    /** A shutdown given by hand reaches its agent. */
    | Manual(agentId: string, uuid: string, at: int, event: Ledger.Event, after: Ledger.Entries)
    | Clear(agentId: string)

  /** The message sent for an attempt. */
  function RequestOf(a: Attempt): Ledger.ShutdownRequest {
    Ledger.ShutdownRequest(a.commandId, "automatic", a.at, a.at + 60)
  }

  /** The message sent for a shutdown by hand. */
  function ManualRequest(uuid: string, at: int): Ledger.ShutdownRequest {
    Ledger.ShutdownRequest(ManualId(uuid), "manual", at, at + 60)
  }

  function Current(log: AgentLog): Ledger.Entries
    requires |log.ledgers| > 0
  {
    log.ledgers[|log.ledgers| - 1]
  }

  function Extend(log: AgentLog, event: Ledger.Event, after: Ledger.Entries): AgentLog {
    AgentLog(log.ledgers + [after], log.events + [event])
  }

  /** A ledger history from an empty ledger. */
  ghost predicate IsLog(log: AgentLog) {
    Ledger.IsRun(log.ledgers, log.events) && log.ledgers[0] == map[]
  }

  /** An exchange may turn out this way, given what the controller took from it. */
  ghost predicate MayTurnOut(agents: Agents, d: Delivery, x: Exchange) {
    match x
    case Lost => d.reply != Accepted
    case Answered(event, after) =>
      && d.attempt.agentId in agents && |agents[d.attempt.agentId].ledgers| > 0
      && event.Served? && event.request == RequestOf(d.attempt)
      && Ledger.Step(Current(agents[d.attempt.agentId]), event, after)
      && (d.reply == Accepted ==> event.reply.Accepted?)
  }

  function AfterExchange(agents: Agents, d: Delivery, x: Exchange): Agents {
    if x.Answered? && d.attempt.agentId in agents
    then agents[d.attempt.agentId := Extend(agents[d.attempt.agentId], x.event, x.after)]
    else agents
  }

  /** The exchanges of a poll, in order. */
  function AfterExchanges(agents: Agents, log: seq<Delivery>, xs: seq<Exchange>): Agents
    requires |log| == |xs|
  {
    if log == [] then agents
    else AfterExchange(AfterExchanges(agents, log[..|log| - 1], xs[..|log| - 1]), log[|log| - 1], xs[|log| - 1])
  }

  ghost predicate MayAllTurnOut(agents: Agents, log: seq<Delivery>, xs: seq<Exchange>)
    requires |log| == |xs|
  {
    forall k | 0 <= k < |log| :: MayTurnOut(AfterExchanges(agents, log[..k], xs[..k]), log[k], xs[k])
  }

  // ---------- The system ----------

  ghost predicate IsInitialSystem(s: System) {
    IsInitial(s.world) && forall id | id in s.agents :: s.agents[id] == AgentLog([map[]], [])
  }

  /** A move of the system, whatever was saved and whoever was reconfigured before. */
  ghost predicate IsMove(s: System, m: Move, t: System) {
    match m
    case Turn(env, xs) =>
      var log := Poll(s.world.loop, env).log;
      && IsAction(s.world, Polls(env), t.world)
      && |xs| == |log| && MayAllTurnOut(s.agents, log, xs)
      && t.agents == AfterExchanges(s.agents, log, xs)
    case Restart(config) => IsAction(s.world, Restarts(config), t.world) && t.agents == s.agents
    case Crash(env, xs, config) =>
      var log := SentUntil(s.world.loop, env, |xs|);
      && IsAction(s.world, Crashes(env, |xs|, config), t.world)
      && |xs| == |log| && MayAllTurnOut(s.agents, log, xs)
      && t.agents == AfterExchanges(s.agents, log, xs)
    case Manual(agentId, uuid, at, event, after) =>
      && t.world == s.world && agentId in s.agents && |s.agents[agentId].ledgers| > 0
      && event.Served? && event.request == ManualRequest(uuid, at)
      && Ledger.Step(Current(s.agents[agentId]), event, after)
      && t.agents == s.agents[agentId := Extend(s.agents[agentId], event, after)]
    case Clear(agentId) =>
      && t.world == s.world && agentId in s.agents
      && t.agents == s.agents[agentId := Extend(s.agents[agentId], Ledger.Cleared, map[])]
  }

  ghost predicate IsSystemRun(systems: seq<System>, moves: seq<Move>) {
    && |systems| == |moves| + 1
    && forall i | 0 <= i < |moves| :: IsMove(systems[i], moves[i], systems[i + 1])
  }

  // ---------- Invariants ----------

  /** A command the agent accepted was sent to it by the controller, or was given by hand. */
  ghost predicate WasSent(id: string, agentId: string, history: seq<Delivery>) {
    || (exists d :: d in history && d.attempt.agentId == agentId && d.attempt.commandId == id)
    || (exists uuid :: id == ManualId(uuid))
  }

  ghost predicate LogFits(agentId: string, log: AgentLog, history: seq<Delivery>) {
    && IsLog(log)
    && forall k | 0 <= k < |log.events| && Ledger.PowersOff(log.events, k) ::
         WasSent(log.events[k].request.commandId, agentId, history)
  }

  /** The agent scheduled a power-off for the command. */
  ghost predicate PoweredOffFor(log: AgentLog, id: string) {
    exists k | 0 <= k < |log.events| :: Ledger.PowersOff(log.events, k) && log.events[k].request.commandId == id
  }

  ghost predicate ReplyFits(agents: Agents, d: Delivery) {
    d.reply == Accepted ==> d.attempt.agentId in agents && PoweredOffFor(agents[d.attempt.agentId], d.attempt.commandId)
  }

  ghost predicate AgentsFit(agents: Agents, history: seq<Delivery>) {
    && (forall id | id in agents :: LogFits(id, agents[id], history))
    && (forall d | d in history :: ReplyFits(agents, d))
  }

  lemma ExtendLog(agentId: string, log: AgentLog, event: Ledger.Event, after: Ledger.Entries,
                  history: seq<Delivery>, more: seq<Delivery>)
    requires LogFits(agentId, log, history) && Ledger.Step(Current(log), event, after)
    requires event.Served? && event.reply == Ledger.Accepted(false) ==>
             WasSent(event.request.commandId, agentId, history + more)
    ensures LogFits(agentId, Extend(log, event, after), history + more)
    ensures forall id | PoweredOffFor(log, id) :: PoweredOffFor(Extend(log, event, after), id)
    ensures event.Served? && event.reply == Ledger.Accepted(false) ==>
            PoweredOffFor(Extend(log, event, after), event.request.commandId)
  {
    var longer := Extend(log, event, after);
    var n := |log.events|;
    assert Ledger.IsRun(longer.ledgers, longer.events) by {
      forall i | 0 <= i < |longer.events|
        ensures Ledger.Step(longer.ledgers[i], longer.events[i], longer.ledgers[i + 1])
      {
        if i < n {
          assert Ledger.Step(log.ledgers[i], log.events[i], log.ledgers[i + 1]);
        }
      }
    }
    forall k | 0 <= k < |longer.events| && Ledger.PowersOff(longer.events, k)
      ensures WasSent(longer.events[k].request.commandId, agentId, history + more)
    {
      if k < n {
        assert Ledger.PowersOff(log.events, k);
        SentStays(log.events[k].request.commandId, agentId, history, more);
      }
    }
    forall id | PoweredOffFor(log, id)
      ensures PoweredOffFor(longer, id)
    {
      var k :| 0 <= k < n && Ledger.PowersOff(log.events, k) && log.events[k].request.commandId == id;
      assert Ledger.PowersOff(longer.events, k) && longer.events[k] == log.events[k];
    }
    if event.Served? && event.reply == Ledger.Accepted(false) {
      assert Ledger.PowersOff(longer.events, n);
    }
  }

  lemma SentStays(id: string, agentId: string, history: seq<Delivery>, more: seq<Delivery>)
    requires WasSent(id, agentId, history)
    ensures WasSent(id, agentId, history + more)
  {
    if d :| d in history && d.attempt.agentId == agentId && d.attempt.commandId == id {
      assert d in history + more;
    }
  }

  lemma LogsStay(agents: Agents, history: seq<Delivery>, more: seq<Delivery>)
    requires forall id | id in agents :: LogFits(id, agents[id], history)
    ensures forall id | id in agents :: LogFits(id, agents[id], history + more)
  {
    forall id | id in agents
      ensures LogFits(id, agents[id], history + more)
    {
      forall k | 0 <= k < |agents[id].events| && Ledger.PowersOff(agents[id].events, k)
        ensures WasSent(agents[id].events[k].request.commandId, id, history + more)
      {
        SentStays(agents[id].events[k].request.commandId, id, history, more);
      }
    }
  }

  lemma InLedgerMeansPowerOff(log: AgentLog, id: string)
    requires IsLog(log) && id in Current(log)
    ensures PoweredOffFor(log, id)
  {
    Ledger.EntryWasAccepted(log.ledgers, log.events, |log.events|, id);
  }

  lemma OneExchange(agents: Agents, history: seq<Delivery>, d: Delivery, x: Exchange)
    requires AgentsFit(agents, history) && MayTurnOut(agents, d, x)
    ensures AgentsFit(AfterExchange(agents, d, x), history + [d])
  {
    var id := d.attempt.agentId;
    var after := AfterExchange(agents, d, x);
    LogsStay(agents, history, [d]);
    if x.Answered? {
      assert d in history + [d] && WasSent(x.event.request.commandId, id, history + [d]);
      ExtendLog(id, agents[id], x.event, x.after, history, [d]);
      if x.event.reply == Ledger.Accepted(true) {
        InLedgerMeansPowerOff(agents[id], d.attempt.commandId);
      }
    }
    forall e | e in history + [d]
      ensures ReplyFits(after, e)
    {
      if e in history {
        assert ReplyFits(agents, e);
      }
    }
  }

  lemma PrefixMayTurnOut(agents: Agents, log: seq<Delivery>, xs: seq<Exchange>, n: nat)
    requires |log| == |xs| && n < |log| && MayAllTurnOut(agents, log, xs)
    ensures MayAllTurnOut(agents, log[..n], xs[..n])
    ensures MayTurnOut(AfterExchanges(agents, log[..n], xs[..n]), log[n], xs[n])
  {
    forall k | 0 <= k < n
      ensures MayTurnOut(AfterExchanges(agents, log[..n][..k], xs[..n][..k]), log[..n][k], xs[..n][k])
    {
      assert log[..n][..k] == log[..k] && xs[..n][..k] == xs[..k];
    }
  }

  lemma {:induction false} AllExchanges(agents: Agents, history: seq<Delivery>, log: seq<Delivery>, xs: seq<Exchange>)
    requires |log| == |xs| && AgentsFit(agents, history) && MayAllTurnOut(agents, log, xs)
    ensures AgentsFit(AfterExchanges(agents, log, xs), history + log)
  {
    if log == [] {
      assert history + log == history;
    } else {
      var n := |log| - 1;
      PrefixMayTurnOut(agents, log, xs, n);
      AllExchanges(agents, history, log[..n], xs[..n]);
      OneExchange(AfterExchanges(agents, log[..n], xs[..n]), history + log[..n], log[n], xs[n]);
      assert history + log[..n] + [log[n]] == history + log;
    }
  }

  ghost predicate SystemSound(s: System) {
    Good(s.world, NoDelivery) && AgentsFit(s.agents, s.world.history)
  }

  lemma MoveSound(s: System, m: Move, t: System)
    requires SystemSound(s) && IsMove(s, m, t)
    ensures SystemSound(t)
  {
    var history := s.world.history;
    assert history + [] == history;
    match m
    case Turn(env, xs) =>
      ActGood(s.world, Polls(env), NoDelivery);
      AllExchanges(s.agents, history, Poll(s.world.loop, env).log, xs);
    case Restart(config) => ActGood(s.world, Restarts(config), NoDelivery);
    case Crash(env, xs, config) =>
      ActGood(s.world, Crashes(env, |xs|, config), NoDelivery);
      AllExchanges(s.agents, history, SentUntil(s.world.loop, env, |xs|), xs);
    case Manual(agentId, uuid, at, event, after) =>
      ExtendLog(agentId, s.agents[agentId], event, after, history, []);
      RepliesStay(s, agentId, Extend(s.agents[agentId], event, after));
    case Clear(agentId) =>
      ExtendLog(agentId, s.agents[agentId], Ledger.Cleared, map[], history, []);
      RepliesStay(s, agentId, Extend(s.agents[agentId], Ledger.Cleared, map[]));
  }

  lemma RepliesStay(s: System, agentId: string, log: AgentLog)
    requires AgentsFit(s.agents, s.world.history) && agentId in s.agents
    requires forall id | PoweredOffFor(s.agents[agentId], id) :: PoweredOffFor(log, id)
    ensures forall d | d in s.world.history :: ReplyFits(s.agents[agentId := log], d)
  {
    forall d | d in s.world.history
      ensures ReplyFits(s.agents[agentId := log], d)
    {
      assert ReplyFits(s.agents, d);
    }
  }

  lemma {:induction false} SystemAlwaysSound(systems: seq<System>, moves: seq<Move>, k: nat)
    requires IsSystemRun(systems, moves) && IsInitialSystem(systems[0]) && k <= |moves|
    ensures SystemSound(systems[k])
  {
    if k > 0 {
      SystemAlwaysSound(systems, moves, k - 1);
      MoveSound(systems[k - 1], moves[k - 1], systems[k]);
    }
  }

  // ---------- Results ----------

  /** The client accepted this identifier, and the agent it was sent to scheduled a power-off for it. */
  ghost predicate PoweredOffBy(d: Delivery, name: string, commandId: string, agents: Agents) {
    Backs(d, name, commandId) && d.attempt.agentId in agents && PoweredOffFor(agents[d.attempt.agentId], commandId)
  }

  /**
   The acknowledgement on record is true: an agent that was asked for this client scheduled a power-off
   for the identifier.
   */
  ghost predicate AckTrue(name: string, s: Shutdown, w: System) {
    s.acknowledged ==>
      && s.commandId.Some?
      && exists d :: d in w.world.history && PoweredOffBy(d, name, s.commandId.value, w.agents)
  }

  /**
   In every run, whatever was lost or saved and wherever the controller stopped: a client shown
   as acknowledged, in memory or in the file, was asked under the very identifier on record, and
   the agent it was asked through scheduled a power-off for it.
   */
  lemma AckMeansPowerOff(systems: seq<System>, moves: seq<Move>, k: nat, name: string)
    requires IsSystemRun(systems, moves) && IsInitialSystem(systems[0]) && k <= |moves|
    ensures var t := systems[k].world.loop.tracker;
            && (name in t.image.clients ==> AckTrue(name, t.image.clients[name].shutdown, systems[k]))
            && (t.file.Some? && name in t.file.value.clients ==>
                  AckTrue(name, t.file.value.clients[name].shutdown, systems[k]))
  {
    SystemAlwaysSound(systems, moves, k);
    var t := systems[k].world.loop.tracker;
    if name in t.image.clients {
      AckedImage(systems[k], t.image, name);
    }
    if t.file.Some? && name in t.file.value.clients {
      AckedImage(systems[k], t.file.value, name);
    }
  }

  lemma AckedImage(s: System, image: Image, name: string)
    requires AgentsFit(s.agents, s.world.history) && Fits(image, s.world.history, NoDelivery) && name in image.clients
    ensures AckTrue(name, image.clients[name].shutdown, s)
  {
    var record := image.clients[name].shutdown;
    assert RecordFits(image.meta.outageId, name, record, s.world.history, NoDelivery);
    if record.acknowledged {
      var d :| d in s.world.history && Backs(d, name, record.commandId.value);
      assert ReplyFits(s.agents, d);
      assert PoweredOffBy(d, name, record.commandId.value, s.agents);
    }
  }

  /**
   Retries and lost messages power a machine off at most once per command, short of a clear or an
   eviction in between.
   */
  lemma OnePowerOffPerCommand(systems: seq<System>, moves: seq<Move>, k: nat, agentId: string, i: nat, j: nat)
    requires IsSystemRun(systems, moves) && IsInitialSystem(systems[0]) && k <= |moves|
    requires agentId in systems[k].agents && i < j < |systems[k].agents[agentId].events|
    requires var events := systems[k].agents[agentId].events;
             && Ledger.PowersOff(events, i) && Ledger.PowersOff(events, j) && Ledger.NoClear(events, i, j)
             && events[i].request.commandId == events[j].request.commandId
    ensures var log := systems[k].agents[agentId];
            && Ledger.IsRun(log.ledgers, log.events)
            && exists m | i <= m < j ::
                 Ledger.EvictedAt(log.ledgers, log.events, m, log.events[i].request.commandId, log.events[i].now)
  {
    SystemAlwaysSound(systems, moves, k);
    var log := systems[k].agents[agentId];
    assert LogFits(agentId, log, systems[k].world.history);
    Ledger.AtMostOncePowerOff(log.ledgers, log.events, i, j);
  }

  /**
   A shutdown given by hand is refused exactly if it arrives more than two minutes early or a minute
   late. In time, and with a working state file, it is a duplicate exactly if the agent knows its
   identifier, and otherwise schedules a power-off.
   */
  lemma ManualExactly(s: System, agentId: string, uuid: string, at: int, event: Ledger.Event, after: Ledger.Entries,
      t: System)
    requires IsMove(s, Manual(agentId, uuid, at, event, after), t)
    ensures event.request.source == "manual" && event.request.commandId == ManualId(uuid)
    ensures event.reply == Ledger.BadRequest <==> event.now < at - 120 || event.now >= at + 60
    ensures event.reply.Accepted? ==>
              (event.reply == Ledger.Accepted(true) <==> ManualId(uuid) in Current(s.agents[agentId]))
    ensures event.reply == Ledger.Accepted(false) ==> PoweredOffFor(t.agents[agentId], ManualId(uuid))
  {
    assert ManualId(uuid)[0] == 'm';
    Ledger.MinuteMessageExactly(Current(s.agents[agentId]), ManualId(uuid), "manual", at, event.now, event.reply,
        after);
    if event.reply == Ledger.Accepted(false) {
      var log := t.agents[agentId];
      assert Ledger.PowersOff(log.events, |log.events| - 1);
    }
  }

  /** An automatic message that arrives is refused exactly then as well. */
  lemma AutomaticExactly(agents: Agents, d: Delivery, x: Exchange)
    requires MayTurnOut(agents, d, x) && x.Answered?
    requires d.attempt.commandId != "" && d.attempt.commandId[0] in "0123456789abcdef"
    ensures x.event.request.source == "automatic" && x.event.request.commandId == d.attempt.commandId
    ensures x.event.reply == Ledger.BadRequest <==>
            x.event.now < d.attempt.at - 120 || x.event.now >= d.attempt.at + 60
    ensures x.event.reply.Accepted? ==>
              (x.event.reply == Ledger.Accepted(true) <==> d.attempt.commandId in Current(agents[d.attempt.agentId]))
  {
    Ledger.MinuteMessageExactly(Current(agents[d.attempt.agentId]), d.attempt.commandId, "automatic", d.attempt.at,
                                x.event.now, x.event.reply, x.after);
  }

  /** The deliveries before the n-th of a poll. */
  function SentBefore(s: System, log: seq<Delivery>, n: nat): seq<Delivery>
    requires n <= |log|
  {
    s.world.history + log[..n]
  }

  predicate SameSequence(a: Attempt, b: Attempt) {
    a.outage == b.outage && a.name == b.name && a.sequence == b.sequence
  }

  /**
   The first request of a delivery sequence, in a new outage or after re-arming, is never
   answered as a duplicate: if the agent accepts it at all, the machine is powered off.
   */
  lemma FirstOfSequenceIsNoDuplicate(systems: seq<System>, moves: seq<Move>, k: nat, n: nat)
    requires IsSystemRun(systems, moves) && IsInitialSystem(systems[0]) && k < |moves| && moves[k].Turn?
    requires n < |moves[k].exchanges| && moves[k].exchanges[n].Answered?
    requires var log := Poll(systems[k].world.loop, moves[k].env).log;
             && |log| == |moves[k].exchanges|
             && forall d | d in SentBefore(systems[k], log, n) :: !SameSequence(d.attempt, log[n].attempt)
    ensures var event := moves[k].exchanges[n].event; event.Served? && event.reply != Ledger.Accepted(true)
  {
    var s, env, xs := systems[k], moves[k].env, moves[k].exchanges;
    var log := Poll(s.world.loop, env).log;
    SystemAlwaysSound(systems, moves, k);
    SystemAlwaysSound(systems, moves, k + 1);
    assert IsMove(s, moves[k], systems[k + 1]);
    FirstHasNewId(s.world.history, log, n);
    NewIdAtAgent(s.agents, s.world.history, log, xs, n);
  }

  lemma FirstHasNewId(history: seq<Delivery>, log: seq<Delivery>, n: nat)
    requires WellNamed(history + log) && n < |log|
    requires forall d | d in history + log[..n] :: !SameSequence(d.attempt, log[n].attempt)
    ensures forall d | d in history + log[..n] :: d.attempt.commandId != log[n].attempt.commandId
  {
    var a := log[n].attempt;
    assert log[n] in history + log;
    forall d | d in history + log[..n]
      ensures d.attempt.commandId != a.commandId
    {
      assert d in history + log;
      if d.attempt.commandId == a.commandId {
        CommandIdInjective(d.attempt.outage, d.attempt.name, d.attempt.sequence, a.outage, a.name, a.sequence);
      }
    }
  }

  lemma NewIdAtAgent(agents: Agents, history: seq<Delivery>, log: seq<Delivery>, xs: seq<Exchange>, n: nat)
    requires |log| == |xs| && n < |log| && MayAllTurnOut(agents, log, xs) && xs[n].Answered?
    requires AgentsFit(agents, history) && WellNamed(history + log)
    requires forall d | d in history + log[..n] :: d.attempt.commandId != log[n].attempt.commandId
    ensures xs[n].event.Served? && xs[n].event.reply != Ledger.Accepted(true)
  {
    PrefixMayTurnOut(agents, log, xs, n);
    AllExchanges(agents, history, log[..n], xs[..n]);
    var before := AfterExchanges(agents, log[..n], xs[..n]);
    assert log[n] in history + log;
    NotManual(log[n]);
    var agent := before[log[n].attempt.agentId];
    assert LogFits(log[n].attempt.agentId, agent, history + log[..n]);
    if log[n].attempt.commandId in Current(agent) {
      InLedgerMeansPowerOff(agent, log[n].attempt.commandId);
    }
  }

  lemma NotManual(d: Delivery)
    requires IsUuid(d.attempt.outage)
    requires d.attempt.commandId == CommandId(d.attempt.outage, d.attempt.name, d.attempt.sequence)
    ensures forall uuid :: d.attempt.commandId != ManualId(uuid)
  {
    forall uuid
      ensures d.attempt.commandId != ManualId(uuid)
    {
      AutomaticIsNotManual(d.attempt.outage, d.attempt.name, d.attempt.sequence, uuid);
    }
  }

  /** One message of the controller can power a machine off twice only within 180 seconds of the agent's clock. */
  lemma ControllerMessageTwice(log: AgentLog, a: Attempt, i: nat, j: nat)
    requires IsLog(log) && Ledger.ClockAdvances(log.events) && i < j < |log.events| && Ledger.NoClear(log.events, i, j)
    requires Ledger.PowersOff(log.events, i) && Ledger.PowersOff(log.events, j)
    requires log.events[i].request == log.events[j].request == RequestOf(a)
    ensures log.events[j].now - log.events[i].now < 180
  {
    assert Ledger.Step(log.ledgers[i], log.events[i], log.ledgers[i + 1]);
    assert Ledger.Step(log.ledgers[j], log.events[j], log.ledgers[j + 1]);
  }
}
