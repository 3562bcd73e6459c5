/**
 Clients that are removed and added again during an outage: their deliveries start over at
 sequence 0, so an identifier may be used twice, and an agent that remembers it does nothing.
 */
module Recreation {
  import opened Wrappers
  import opened CommandIds
  import opened Settings
  import opened Tracker
  import opened Coordinator
  import opened Monitor
  import opened Runs
  import opened Deliveries
  import opened Retries
  import opened Protocol
  import opened OneClient
  import opened Outages
  import Ledger

  /** What a client without anything on record is sent, just created by this poll or before, has sequence 0. */
  lemma FirstFromNew(l: Loop, env: Env, d: Delivery)
    requires Phase(l) && IsUuid(env.freshId) && d in Poll(l, env).log
    requires ShutdownOf(l.tracker, d.attempt.name) == NEW_SHUTDOWN
    ensures d.attempt.sequence == 0
    ensures var u := ShutdownOf(Poll(l, env).loop.tracker, d.attempt.name);
            u.deliverySequence == 0 && (u.acknowledged <==> AcceptedBy(Poll(l, env).log, d.attempt.name))
  {
    var name := d.attempt.name;
    LoggedIsListed(l, env, d);
    PreparedPhase(l, env);
    var r := Reloaded(l, env.reload);
    ReloadedPhase(l, env.reload);
    assert name in r.tracker.image.clients && ShutdownOf(r.tracker, name) == NEW_SHUTDOWN;
    ProbeWhileUnacked(r.config.clients, r.tracker, env.reachable, name);
    PollDelivered(l, env, name);
  }

  /**
   In every run: a client with nothing on record, newly created or created anew, is sent an
   identifier that was used before exactly if sequence 0 was sent to its name in this outage.
   */
  lemma RecreatedIdExactly(worlds: seq<World>, actions: seq<Action>, k: nat, d: Delivery)
    requires IsHistory(worlds, actions) && IsInitial(worlds[0]) && k < |actions| && Attempts(worlds, actions, k, d)
    requires RecordOf(worlds[k], d.attempt.name) == NEW_SHUTDOWN
    ensures (exists e :: e in worlds[k].history && e.attempt.commandId == d.attempt.commandId) <==>
            (exists e :: e in worlds[k].history && e.attempt.outage == d.attempt.outage
                         && e.attempt.name == d.attempt.name && e.attempt.sequence == 0)
  {
    AlwaysTruthful(worlds, actions, k);
    AlwaysTruthful(worlds, actions, k + 1);
    assert IsAction(worlds[k], actions[k], worlds[k + 1]) && d in worlds[k + 1].history;
    FirstFromNew(worlds[k].loop, actions[k].env, d);
    forall e | e in worlds[k].history && e.attempt.commandId == d.attempt.commandId
      ensures e.attempt.outage == d.attempt.outage && e.attempt.name == d.attempt.name && e.attempt.sequence == 0
    {
      CommandIdInjective(e.attempt.outage, e.attempt.name, e.attempt.sequence, d.attempt.outage, d.attempt.name, 0);
    }
  }

  /** The agent of the n-th delivery of a poll, as it was before that exchange. */
  function AgentBefore(s: System, log: seq<Delivery>, xs: seq<Exchange>, n: nat): AgentLog
    requires |log| == |xs| && n < |log| && log[n].attempt.agentId in AfterExchanges(s.agents, log[..n], xs[..n])
  {
    AfterExchanges(s.agents, log[..n], xs[..n])[log[n].attempt.agentId]
  }

  /**
   In every run of the system: if the agent of a client with nothing on record still holds the
   identifier of its first delivery, an acceptance is a duplicate. No power-off is scheduled for
   it, and the controller shows the client as acknowledged under that identifier.
   */
  lemma RecreatedIsDuplicate(systems: seq<System>, moves: seq<Move>, k: nat, n: nat)
    requires IsSystemRun(systems, moves) && IsInitialSystem(systems[0]) && k < |moves| && moves[k].Turn?
    requires var log, xs := Poll(systems[k].world.loop, moves[k].env).log, moves[k].exchanges;
             && |log| == |xs| && n < |log| && xs[n].Answered? && log[n].reply == Accepted
             && RecordOf(systems[k].world, log[n].attempt.name) == NEW_SHUTDOWN
             && log[n].attempt.agentId in AfterExchanges(systems[k].agents, log[..n], xs[..n])
             && |AgentBefore(systems[k], log, xs, n).ledgers| > 0
             && CommandId(log[n].attempt.outage, log[n].attempt.name, 0) in Current(AgentBefore(systems[k], log, xs, n))
    ensures moves[k].exchanges[n].event.Served? && moves[k].exchanges[n].event.reply == Ledger.Accepted(true)
    ensures var d := Poll(systems[k].world.loop, moves[k].env).log[n];
            var u := RecordOf(systems[k + 1].world, d.attempt.name);
            u.acknowledged && u.commandId == Some(CommandId(d.attempt.outage, d.attempt.name, 0))
  {
    var s, env, xs := systems[k], moves[k].env, moves[k].exchanges;
    var log := Poll(s.world.loop, env).log;
    var d := log[n];
    SystemAlwaysSound(systems, moves, k);
    SystemAlwaysSound(systems, moves, k + 1);
    assert IsMove(s, moves[k], systems[k + 1]);
    FirstFromNew(s.world.loop, env, d);
    AfterAttempt(s.world.loop, env, d);
    assert d in systems[k + 1].world.history;
    PrefixMayTurnOut(s.agents, log, xs, n);
    RecordedId(systems[k + 1].world, d.attempt.outage, d.attempt.name);
  }

  /** An acknowledged client of the current outage at sequence 0 has that identifier on record. */
  lemma RecordedId(w: World, outage: string, name: string)
    requires Good(w, NoDelivery) && w.loop.tracker.image.meta.outageId == Some(outage)
    requires RecordOf(w, name).acknowledged && RecordOf(w, name).deliverySequence == 0
    ensures RecordOf(w, name).commandId == Some(CommandId(outage, name, 0))
  {
    assert name in w.loop.tracker.image.clients;
    assert RecordFits(Some(outage), name, w.loop.tracker.image.clients[name].shutdown, w.history, NoDelivery);
  }

  // ---------- A run ----------

  const AGENT := AgentLog([map[]], [])

  function Request(name: string, now: int): Ledger.ShutdownRequest {
    RequestOf(Attempt(name, "agent", FIRST, 0, CommandId(FIRST, name, 0), now, 0, 100))
  }

  /** An agent's answer to the first delivery, and its ledger afterwards. */
  function Answer(name: string, now: int, duplicate: bool): Exchange {
    Answered(Ledger.Served(Request(name, now), now, Ledger.Accepted(duplicate)), map[CommandId(FIRST, name, 0) := 5])
  }

  lemma AnswersStep(name: string)
    ensures Ledger.Step(map[], Answer(name, 5, false).event, Answer(name, 5, false).after)
    ensures Ledger.Step(Answer(name, 5, false).after, Answer(name, 10, true).event, Answer(name, 10, true).after)
  {
    var id := CommandId(FIRST, name, 0);
    assert id[0] == '0' && !Ledger.IsSpace('0');
    assert !Ledger.IsBlank(id);
  }

  const REMOVED := Env(6, Some(NO_CLIENTS), Incomplete, {}, map[], {}, FIRST, true)

  lemma RemovingPoll(l: Loop)
    requires Phase(l)
    ensures var q := Poll(l, REMOVED);
            && Phase(q.loop) && q.log == [] && q.loop.tracker.image.meta == l.tracker.image.meta
            && q.loop.tracker.image.clients == map[]
  {
    assert NamesOf(NO_CLIENTS.clients) == {};
    PollPhase(l, REMOVED);
  }

  lemma OneExchangeTurnsOut(agents: Agents, d: Delivery, x: Exchange)
    requires MayTurnOut(agents, d, x)
    ensures MayAllTurnOut(agents, [d], [x]) && AfterExchanges(agents, [d], [x]) == AfterExchange(agents, d, x)
  {
    assert [d][..0] == [] && [x][..0] == [];
    assert AfterExchanges(agents, [], []) == agents;
  }

  /** A poll in which a client with nothing on record is asked for the first time, and accepts. */
  lemma AcceptingPoll(l: Loop, name: string, now: int) returns (d: Delivery, after: Loop)
    requires Phase(l) && now >= 5 && l.tracker.image.meta.outageId in {None, Some(FIRST)}
    requires l.tracker.image.clients in {map[], map[name := NEW_CLIENT]}
    ensures var q := Poll(l, Asking(name, now));
            && after == q.loop && q.log == [d] && Phase(after)
            && after.tracker.image.meta.outageId == Some(FIRST) && ShutdownOf(after.tracker, name).acknowledged
    ensures d == FirstDelivery(name, now)
  {
    hide Poll, Phase;
    BatteryPollOfOne(l, name, now, true, Accepted, FIRST, true);
    var q := Poll(l, Asking(name, now));
    d, after := q.log[0], q.loop;
  }

  function Asking(name: string, now: int): Env { Moment(name, now, OnBattery(0), true, Accepted, FIRST, true) }

  function FirstDelivery(name: string, now: int): Delivery {
    Delivery(Attempt(name, "agent", FIRST, 0, CommandId(FIRST, name, 0), now, 0, 100), Accepted, AcceptedNotice)
  }

  /** That poll as a move of the system, with the agent's answer. */
  lemma AcceptingMove(s: System, name: string, now: int, x: Exchange) returns (t: System)
    requires Phase(s.world.loop) && now >= 5 && s.world.loop.tracker.image.meta.outageId in {None, Some(FIRST)}
    requires s.world.loop.tracker.image.clients in {map[], map[name := NEW_CLIENT]}
    requires MayTurnOut(s.agents, FirstDelivery(name, now), x)
    ensures IsMove(s, Turn(Asking(name, now), [x]), t)
    ensures t.agents == AfterExchange(s.agents, FirstDelivery(name, now), x)
    ensures t.world.history == s.world.history + [FirstDelivery(name, now)]
    ensures Phase(t.world.loop) && t.world.loop.tracker.image.meta.outageId == Some(FIRST)
    ensures ShutdownOf(t.world.loop.tracker, name).acknowledged
  {
    hide Poll, Phase, MayTurnOut, AfterExchange, Moment;
    var d, after := AcceptingPoll(s.world.loop, name, now);
    OneExchangeTurnsOut(s.agents, d, x);
    t := System(World(after, s.world.history + [d]), AfterExchange(s.agents, d, x));
    assert IsPossible(Polls(Asking(name, now))) by {
      AskingIsPossible(name, now);
    }
  }

  lemma AskingIsPossible(name: string, now: int)
    requires now > 0
    ensures IsPossible(Polls(Asking(name, now)))
  {}

  /** The client is removed. */
  lemma RemovingMove(s: System) returns (t: System)
    requires Phase(s.world.loop)
    ensures IsMove(s, Turn(REMOVED, []), t) && t.agents == s.agents && t.world.history == s.world.history
    ensures Phase(t.world.loop) && t.world.loop.tracker.image.meta == s.world.loop.tracker.image.meta
    ensures t.world.loop.tracker.image.clients == map[]
  {
    hide Poll, Phase;
    RemovingPoll(s.world.loop);
    assert s.world.history + [] == s.world.history;
    t := System(World(Poll(s.world.loop, REMOVED).loop, s.world.history), s.agents);
  }

  lemma FirstSystem(name: string) returns (s: System)
    ensures IsInitialSystem(s) && Phase(s.world.loop) && s.world.history == [] && s.agents == map["agent" := AGENT]
    ensures OutageId(s.world.loop).None? && s.world.loop.tracker.image.clients == map[name := NEW_CLIENT]
  {
    var l := FirstLaunch(name);
    s := System(World(l, []), map["agent" := AGENT]);
  }

  /**
   A client accepts and is powered off; it is removed and added again; the same identifier is
   sent again, the agent recognises it, and the controller shows an acknowledgement although
   no second power-off was scheduled.
   */
  lemma SameIdAfterReadding(name: string)
    ensures exists systems: seq<System>, moves: seq<Move> ::
              && IsSystemRun(systems, moves) && IsInitialSystem(systems[0]) && |moves| == 3
              && AskedTwicePoweredOffOnce(systems[3], name)
  {
    var s0 := FirstSystem(name);
    AnswersStep(name);
    var x0, x2 := Answer(name, 5, false), Answer(name, 10, true);
    hide IsMove, Phase, IsInitialSystem, Ledger.Step;
    var s1 := AcceptingMove(s0, name, 5, x0);
    var s2 := RemovingMove(s1);
    var s3 := AcceptingMove(s2, name, 10, x2);
    var systems := [s0, s1, s2, s3];
    var moves := [Turn(Asking(name, 5), [x0]), Turn(REMOVED, []), Turn(Asking(name, 10), [x2])];
    assert IsSystemRun(systems, moves);
    assert AskedTwicePoweredOffOnce(s3, name);
  }

  ghost predicate AskedTwicePoweredOffOnce(s: System, name: string) {
    && |s.world.history| == 2 && RecordOf(s.world, name).acknowledged
    && s.world.history[0].attempt.commandId == s.world.history[1].attempt.commandId
    && "agent" in s.agents && |s.agents["agent"].events| == 2
    && Ledger.PowersOff(s.agents["agent"].events, 0) && !Ledger.PowersOff(s.agents["agent"].events, 1)
  }
}
