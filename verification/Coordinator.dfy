/** Delivery of automatic shutdowns while on battery: who is asked, under which identifier, and what is recorded. */
module Coordinator {
  import opened Wrappers
  import opened CommandIds
  import opened Settings
  import opened Tracker

  /** What the agent client reports: an accepted answer, or the error of a failed exchange. */
  datatype Reply = Accepted | Failed(message: string)

  /** One request to an agent, with the outage and delivery sequence it was derived from. */
  datatype Attempt = Attempt(
    name: string, agentId: string, outage: string, sequence: nat, commandId: string,
    at: int, percent: int, threshold: int)

  datatype Notice = NoNotice | FailureNotice | AcceptedNotice

  /** An attempt, what came back, and the notification sent for it. */
  datatype Delivery = Delivery(attempt: Attempt, reply: Reply, notice: Notice)

  datatype Progress = Progress(tracker: State, log: seq<Delivery>)

  function RetryDelay(config: Config): int {
    if config.pollInterval > 5 then config.pollInterval else 5
  }

  predicate IsPaired(c: Settings.Client) {
    c.shutdown.agentId.Some? && c.shutdown.agentId.value != ""
  }

  predicate IsDue(c: Settings.Client, t: State, percent: int, delay: int, now: int) {
    && c.enabled && c.shutdown.enabled && IsPaired(c)
    && percent <= c.shutdown.batteryPercent
    && ShouldAttemptShutdown(t, c.name, delay, now)
  }

  /** The identifier the next attempt uses: the recorded one, or a new one for the current delivery sequence. */
  function NextCommandId(t: State, outage: string, name: string): string {
    var previous := ShutdownOf(t, name);
    if previous.commandId.Some? && previous.commandId.value != "" then previous.commandId.value
    else CommandId(outage, name, previous.deliverySequence)
  }

  function AttemptTo(c: Settings.Client, t: State, outage: string, percent: int, now: int): Attempt
    requires IsPaired(c)
  {
    Attempt(c.name, c.shutdown.agentId.value, outage, ShutdownOf(t, c.name).deliverySequence,
            NextCommandId(t, outage, c.name), now, percent, c.shutdown.batteryPercent)
  }

  function ReplyOf(replies: map<string, Reply>, name: string): Reply {
    if name in replies then replies[name] else Failed("could not contact agent")
  }

  /** One client that is due: the attempt, and the tracker after its outcome is recorded. */
  function DeliverTo(c: Settings.Client, t: State, outage: string, reply: Reply, percent: int, now: int): Progress
    requires IsPaired(c)
  {
    var attempt := AttemptTo(c, t, outage, percent, now);
    match reply
    case Accepted =>
      var recorded := RecordAttempt(t, c.name, attempt.commandId, percent, "automatic", None, now);
      Progress(Acknowledge(recorded, c.name, now), [Delivery(attempt, reply, AcceptedNotice)])
    case Failed(message) =>
      var recorded := RecordAttempt(t, c.name, attempt.commandId, percent, "automatic", Some(message), now);
      if ShutdownOf(t, c.name).failureNotified then Progress(recorded, [Delivery(attempt, reply, NoNotice)])
      else Progress(MarkFailureNotified(recorded, c.name), [Delivery(attempt, reply, FailureNotice)])
  }

  function DeliverIfDue(c: Settings.Client, t: State, outage: string, replies: map<string, Reply>,
                        percent: int, delay: int, now: int): Progress {
    if IsDue(c, t, percent, delay, now) then DeliverTo(c, t, outage, ReplyOf(replies, c.name), percent, now)
    else Progress(t, [])
  }

  function DeliverAll(clients: seq<Settings.Client>, t: State, outage: string, replies: map<string, Reply>,
                      percent: int, delay: int, now: int): Progress {
    if clients == [] then Progress(t, []) else
      var first := DeliverIfDue(clients[0], t, outage, replies, percent, delay, now);
      Then(first.log, DeliverAll(clients[1..], first.tracker, outage, replies, percent, delay, now))
  }

  /** Progress made after earlier deliveries. */
  function Then(log: seq<Delivery>, p: Progress): Progress { p.(log := log + p.log) }

  lemma ThenAssociates(log: seq<Delivery>, first: seq<Delivery>, rest: Progress)
    ensures Then(log, Then(first, rest)) == Then(log + first, rest)
  {
    assert log + (first + rest.log) == log + first + rest.log;
  }

  /** A pass over all clients; without an outage identifier nothing is attempted. */
  function ProcessOnBattery(config: Config, t: State, replies: map<string, Reply>, percent: int, now: int): Progress {
    if t.image.meta.outageId.None? || t.image.meta.outageId.value == "" then Progress(t, [])
    else DeliverAll(config.clients, t, t.image.meta.outageId.value, replies, percent, RetryDelay(config), now)
  }

  class ShutdownCoordinator {
    constructor () {}

    method Process(config: Config, tracker: ClientStateTracker, replies: map<string, Reply>, percent: int, now: int)
      returns (log: seq<Delivery>)
      modifies tracker
      ensures Progress(tracker.Value(), log) == ProcessOnBattery(config, old(tracker.Value()), replies, percent, now)
    {
      log := [];
      if tracker.meta.outageId.None? || tracker.meta.outageId.value == "" {
        return;
      }
      var outage := tracker.meta.outageId.value;
      var delay := RetryDelay(config);
      ghost var all := DeliverAll(config.clients, tracker.Value(), outage, replies, percent, delay, now);
      assert config.clients[0..] == config.clients;
      for i := 0 to |config.clients|
        invariant all ==
                  Then(log, DeliverAll(config.clients[i..], tracker.Value(), outage, replies, percent, delay, now))
      {
        var client := config.clients[i];
        assert config.clients[i..][1..] == config.clients[i + 1..];
        ghost var first := DeliverIfDue(client, tracker.Value(), outage, replies, percent, delay, now);
        ghost var rest := DeliverAll(config.clients[i + 1..], first.tracker, outage, replies, percent, delay, now);
        ThenAssociates(log, first.log, rest);
        if !IsDue(client, tracker.Value(), percent, delay, now) {
          continue;
        }
        var delivery := Deliver(client, tracker, outage, ReplyOf(replies, client.name), percent, now);
        log := log + [delivery];
      }
    }

    /** One client that is due. */
    method Deliver(client: Settings.Client, tracker: ClientStateTracker, outage: string, reply: Reply, percent: int,
        now: int)
      returns (delivery: Delivery)
      requires IsPaired(client)
      modifies tracker
      ensures Progress(tracker.Value(), [delivery]) ==
              DeliverTo(client, old(tracker.Value()), outage, reply, percent, now)
    {
      var previous := ShutdownOf(tracker.Value(), client.name);
      var attempt := AttemptTo(client, tracker.Value(), outage, percent, now);
      match reply {
        case Failed(message) =>
          tracker.RecordShutdownAttempt(client.name, attempt.commandId, percent, "automatic", Some(message), now);
          if !previous.failureNotified {
            tracker.MarkShutdownFailureNotified(client.name);
            return Delivery(attempt, reply, FailureNotice);
          }
          return Delivery(attempt, reply, NoNotice);
        case Accepted =>
          tracker.RecordShutdownAttempt(client.name, attempt.commandId, percent, "automatic", None, now);
          tracker.AcknowledgeShutdown(client.name, now);
          return Delivery(attempt, reply, AcceptedNotice);
      }
    }
  }
}
