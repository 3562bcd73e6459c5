/**
 One client within one outage: it is left alone after an acknowledgement until it came back,
 and every retry before one carries the identifier of the first attempt.
 */
module Retries {
  import opened Wrappers
  import opened CommandIds
  import opened Settings
  import opened Tracker
  import opened Coordinator
  import opened Monitor
  import opened Frames
  import opened Runs
  import opened Deliveries

  predicate InOutage(w: World, outage: string) {
    w.loop.tracker.image.meta.onBattery && w.loop.tracker.image.meta.outageId == Some(outage)
  }

  function RecordOf(w: World, name: string): Shutdown { ShutdownOf(w.loop.tracker, name) }

  predicate Known(w: World, name: string) { name in w.loop.tracker.image.clients }

  /** The poll probes the client's enabled entry, with this result. */
  predicate Sees(w: World, a: Action, name: string, online: bool) {
    && a.Polls? && !a.env.reading.Incomplete?
    && name in EnabledNames(Reloaded(w.loop, a.env.reload).config.clients)
    && online == (name in a.env.reachable)
  }

  /** The action keeps the records: it is a poll, or a restart after a save that went through. */
  ghost predicate IsSaved(w: World, a: Action) { a.Polls? || (a.Restarts? && Settled(w.loop)) }

  ghost predicate SavedBetween(worlds: seq<World>, actions: seq<Action>, i: nat, j: nat)
    requires j <= |actions| < |worlds|
  {
    forall m | i <= m < j :: IsSaved(worlds[m], actions[m])
  }

  /** The client is known and the outage goes on, from world i to world j. */
  ghost predicate Throughout(worlds: seq<World>, name: string, outage: string, i: nat, j: nat)
    requires j < |worlds|
  {
    forall m | i <= m <= j :: Known(worlds[m], name) && InOutage(worlds[m], outage)
  }

  // ---------- Probing ----------

  /** Acknowledged under this sequence, and perhaps seen offline since. */
  predicate Acked(s: Shutdown, sequence: nat, mayBeOffline: bool) {
    s.acknowledged && s.deliverySequence == sequence && (s.offlineAfterAck ==> mayBeOffline)
  }

  lemma TailEnabled(clients: seq<Settings.Client>)
    requires clients != []
    ensures EnabledNames(clients[1..]) <= EnabledNames(clients)
    ensures clients[0].enabled ==> clients[0].name in EnabledNames(clients)
  {
    assert forall i | 0 <= i < |clients[1..]| :: clients[1..][i] == clients[i + 1];
  }

  /** Probing an acknowledged client keeps it acknowledged, except that one seen offline is re-armed when it answers. */
  lemma {:induction false} ProbeWhileAcked(clients: seq<Settings.Client>, t: State, reachable: set<string>,
                                           name: string, sequence: nat)
    requires name in t.image.clients
    ensures ShutdownOf(ProbeAll(clients, t, reachable), name).deliverySequence >= ShutdownOf(t, name).deliverySequence
    ensures Acked(ShutdownOf(t, name), sequence, true) ==>
              var s, u := ShutdownOf(t, name), ShutdownOf(ProbeAll(clients, t, reachable), name);
              || Acked(u, sequence, s.offlineAfterAck || (name in EnabledNames(clients) && name !in reachable))
              || (&& name in EnabledNames(clients) && name in reachable
                  && s.offlineAfterAck && u.deliverySequence > sequence)
  {
    if clients != [] {
      var u := if clients[0].enabled then Update(t, clients[0].name, clients[0].name in reachable) else t;
      TailEnabled(clients);
      ProbeWhileAcked(clients[1..], u, reachable, name, sequence);
    }
  }

  /** Probing leaves the record of a client that is not acknowledged alone. */
  lemma {:induction false} ProbeWhileUnacked(clients: seq<Settings.Client>, t: State, reachable: set<string>,
      name: string)
    requires name in t.image.clients && !ShutdownOf(t, name).acknowledged
    ensures ShutdownOf(ProbeAll(clients, t, reachable), name) == ShutdownOf(t, name)
  {
    if clients != [] {
      var u := if clients[0].enabled then Update(t, clients[0].name, clients[0].name in reachable) else t;
      ProbeWhileUnacked(clients[1..], u, reachable, name);
    }
  }

  // ---------- Delivering ----------

  ghost predicate AcceptedBy(log: seq<Delivery>, name: string) {
    exists d :: d in log && d.attempt.name == name && d.reply == Accepted
  }

  /**
   What delivering does to one record: everything sent carries its sequence, and exactly an acceptance
   acknowledges it.
   */
  ghost predicate Delivered(before: Shutdown, after: Shutdown, log: seq<Delivery>, name: string, outage: string) {
    && after.deliverySequence == before.deliverySequence && after.offlineAfterAck == before.offlineAfterAck
    && (forall d | d in log && d.attempt.name == name ::
          d.attempt.outage == outage && d.attempt.sequence == before.deliverySequence && !before.acknowledged)
    && (after.acknowledged <==> before.acknowledged || AcceptedBy(log, name))
    && (before.acknowledged ==> after == before)
  }

  lemma OneDelivered(c: Settings.Client, t: State, outage: string, replies: map<string, Reply>, percent: int,
                     delay: int, now: int, name: string)
    requires name in t.image.clients
    ensures var p := DeliverIfDue(c, t, outage, replies, percent, delay, now);
            && name in p.tracker.image.clients
            && Delivered(ShutdownOf(t, name), ShutdownOf(p.tracker, name), p.log, name, outage)
  {
    if IsDue(c, t, percent, delay, now) {
      hide DeliverTo;
      DeliverEffect(c, t, outage, ReplyOf(replies, c.name), percent, now);
      var d := DeliverTo(c, t, outage, ReplyOf(replies, c.name), percent, now).log[0];
      assert AcceptedBy([d], name) <==> d.attempt.name == name && d.reply == Accepted by {
        assert d in [d];
      }
    }
  }

  lemma {:induction false} AllDelivered(clients: seq<Settings.Client>, t: State, outage: string,
      replies: map<string, Reply>, percent: int, delay: int, now: int, name: string)
    requires name in t.image.clients
    ensures var p := DeliverAll(clients, t, outage, replies, percent, delay, now);
            Delivered(ShutdownOf(t, name), ShutdownOf(p.tracker, name), p.log, name, outage)
  {
    if clients != [] {
      hide DeliverIfDue;
      var first := DeliverIfDue(clients[0], t, outage, replies, percent, delay, now);
      OneDelivered(clients[0], t, outage, replies, percent, delay, now, name);
      AllDelivered(clients[1..], first.tracker, outage, replies, percent, delay, now, name);
      var rest := DeliverAll(clients[1..], first.tracker, outage, replies, percent, delay, now);
      AcceptedByEither(first.log, rest.log, name);
    }
  }

  lemma AcceptedByEither(a: seq<Delivery>, b: seq<Delivery>, name: string)
    ensures AcceptedBy(a + b, name) <==> AcceptedBy(a, name) || AcceptedBy(b, name)
  {
    if AcceptedBy(a, name) {
      var d :| d in a && d.attempt.name == name && d.reply == Accepted;
      assert d in a + b;
    }
    if AcceptedBy(b, name) {
      var d :| d in b && d.attempt.name == name && d.reply == Accepted;
      assert d in a + b;
    }
  }

  /** The record that the deliveries of a poll start from. */
  function BaseRecord(p: Loop, env: Env, name: string): Shutdown {
    if env.reading.OnBattery? && !p.tracker.image.meta.onBattery then NEW_SHUTDOWN else ShutdownOf(p.tracker, name)
  }

  lemma BatteryDelivered(p: Loop, env: Env, name: string)
    requires Phase(p) && name in p.tracker.image.clients && IsUuid(env.freshId) && env.reading.OnBattery?
    ensures var q := BatteryPoll(p, env, env.reading.percent);
            && q.loop.tracker.image.meta.outageId.Some?
            && (p.tracker.image.meta.onBattery ==> q.loop.tracker.image.meta.outageId == p.tracker.image.meta.outageId)
            && Delivered(BaseRecord(p, env, name), ShutdownOf(q.loop.tracker, name), q.log, name,
                         q.loop.tracker.image.meta.outageId.value)
  {
    hide DeliverAll, Delivered, RetryDelay, NamesOf;
    var percent := env.reading.percent;
    var marked := if p.onBattery then p.tracker else MarkAllOnline(p.tracker);
    MarkFrame(p.tracker);
    var begun := BeginOutage(marked, percent, env.freshId);
    OutageFrame(marked, percent, env.freshId);
    assert ShutdownOf(begun, name) == BaseRecord(p, env, name);
    var outage := begun.image.meta.outageId.value;
    AllDelivered(p.config.clients, begun, outage, env.replies, percent, RetryDelay(p.config), env.now, name);
    DeliverFrame(p.config.clients, begun, outage, env.replies, percent, RetryDelay(p.config), env.now);
  }

  lemma OnLineRecords(p: Loop, env: Env, name: string)
    requires env.reading.OnLine?
    ensures ShutdownOf(React(p, env).loop.tracker, name) == ShutdownOf(p.tracker, name)
    ensures React(p, env).log == []
  {
    hide WakeAll;
    WakeFrame(p.config.clients, Waking(p.tracker, p.down, p.up, p.failures, []), p.config.reattemptDelay, env);
  }

  /** What a poll does to one client's record, given the record after probing. */
  lemma PollDelivered(l: Loop, env: Env, name: string)
    requires Phase(l) && IsUuid(env.freshId) && name in Prepared(l, env).tracker.image.clients
    ensures var p, q := Prepared(l, env), Poll(l, env);
            var id := q.loop.tracker.image.meta.outageId;
            var outage := if id.Some? then id.value else "";
            && Delivered(BaseRecord(p, env, name), ShutdownOf(q.loop.tracker, name), q.log, name, outage)
            && (env.reading.OnBattery? ==> q.loop.tracker.image.meta.outageId.Some?)
            && (env.reading.OnBattery? && p.tracker.image.meta.onBattery ==>
                  q.loop.tracker.image.meta.outageId == p.tracker.image.meta.outageId)
            && (!env.reading.OnBattery? ==> q.log == [])
  {
    hide Prepared, BatteryPoll, RestorePoll, IdlePoll;
    var p := Prepared(l, env);
    PreparedPhase(l, env);
    match env.reading
    case Incomplete =>
    case OnBattery(_) => BatteryDelivered(p, env, name);
    case OnLine(_) => OnLineRecords(p, env, name);
  }

  lemma PreparedKnown(l: Loop, env: Env, name: string)
    requires Phase(l) && name in l.tracker.image.clients && IsUuid(env.freshId)
    requires name in Poll(l, env).loop.tracker.image.clients || name in NamesOf(Prepared(l, env).config.clients)
    ensures name in Prepared(l, env).tracker.image.clients && name in Reloaded(l, env.reload).tracker.image.clients
    ensures ShutdownOf(Reloaded(l, env.reload).tracker, name) == ShutdownOf(l.tracker, name)
  {
    var r := Reloaded(l, env.reload);
    var p := Prepared(l, env);
    PreparedPhase(l, env);
    ProbeFrame(r.config.clients, r.tracker, env.reachable);
    PollKeys(l, env);
  }

  lemma BatteryKeys(p: Loop, env: Env, percent: int)
    requires Phase(p) && IsUuid(env.freshId)
    ensures BatteryPoll(p, env, percent).loop.tracker.image.clients.Keys == p.tracker.image.clients.Keys
  {
    var marked := if p.onBattery then p.tracker else MarkAllOnline(p.tracker);
    MarkFrame(p.tracker);
    var begun := BeginOutage(marked, percent, env.freshId);
    OutageFrame(marked, percent, env.freshId);
    DeliverFrame(p.config.clients, begun, begun.image.meta.outageId.value, env.replies, percent, RetryDelay(p.config),
        env.now);
  }

  lemma OnLineKeys(p: Loop, env: Env)
    requires env.reading.OnLine?
    ensures React(p, env).loop.tracker.image.clients.Keys == p.tracker.image.clients.Keys
  {
    WakeFrame(p.config.clients, Waking(p.tracker, p.down, p.up, p.failures, []), p.config.reattemptDelay, env);
  }

  lemma PollKeys(l: Loop, env: Env)
    requires Phase(l) && IsUuid(env.freshId)
    ensures Poll(l, env).loop.tracker.image.clients.Keys == Prepared(l, env).tracker.image.clients.Keys
  {
    hide Prepared, BatteryPoll, RestorePoll, IdlePoll;
    var p := Prepared(l, env);
    PreparedPhase(l, env);
    match env.reading
    case Incomplete =>
    case OnBattery(percent) => BatteryKeys(p, env, percent);
    case OnLine(percent) => OnLineKeys(p, env);
  }

  lemma {:induction false} DeliveredIsListed(clients: seq<Settings.Client>, t: State, outage: string,
      replies: map<string, Reply>, percent: int, delay: int, now: int, d: Delivery)
    requires d in DeliverAll(clients, t, outage, replies, percent, delay, now).log
    ensures d.attempt.name in NamesOf(clients)
  {
    var first := DeliverIfDue(clients[0], t, outage, replies, percent, delay, now);
    if d !in first.log {
      TailNames(clients);
      DeliveredIsListed(clients[1..], first.tracker, outage, replies, percent, delay, now, d);
    }
  }

  lemma LoggedIsListed(l: Loop, env: Env, d: Delivery)
    requires Phase(l) && IsUuid(env.freshId) && d in Poll(l, env).log
    ensures d.attempt.name in NamesOf(Prepared(l, env).config.clients)
  {
    var p := Prepared(l, env);
    var percent := env.reading.percent;
    var marked := if p.onBattery then p.tracker else MarkAllOnline(p.tracker);
    var begun := BeginOutage(marked, percent, env.freshId);
    DeliveredIsListed(p.config.clients, begun, begun.image.meta.outageId.value, env.replies, percent,
                      RetryDelay(p.config), env.now, d);
  }

  // ---------- Quiet after an acknowledgement ----------

  /** From one world of the outage to the next, an acknowledged client stays so unless it is re-armed. */
  lemma ActWhileAcked(w: World, a: Action, name: string, outage: string, sequence: nat)
    requires Phase(w.loop) && IsPossible(a) && IsSaved(w, a)
    requires InOutage(w, outage) && Known(w, name) && Known(Act(w, a), name)
    ensures RecordOf(Act(w, a), name).deliverySequence >= RecordOf(w, name).deliverySequence
    ensures Acked(RecordOf(w, name), sequence, true) ==>
              var s, u := RecordOf(w, name), RecordOf(Act(w, a), name);
              || Acked(u, sequence, s.offlineAfterAck || Sees(w, a, name, false))
              || (Sees(w, a, name, true) && s.offlineAfterAck && u.deliverySequence > sequence)
  {
    match a
    case Polls(env) =>
      PreparedKnown(w.loop, env, name);
      PreparedPhase(w.loop, env);
      var r := Reloaded(w.loop, env.reload);
      ProbeWhileAcked(r.config.clients, r.tracker, env.reachable, name, sequence);
      PollDelivered(w.loop, env, name);
    case Restarts(config) => LaunchedFrom(w.loop, config);
  }

  ghost predicate SawOffline(worlds: seq<World>, actions: seq<Action>, name: string, i: nat, k: nat)
    requires k <= |actions| < |worlds|
  {
    exists p | i <= p < k :: Sees(worlds[p], actions[p], name, false)
  }

  /** Seen online at some poll from i on, after having been seen offline since the acknowledgement. */
  ghost predicate CameBack(worlds: seq<World>, actions: seq<Action>, name: string, i: nat, k: nat)
    requires i <= k <= |actions| < |worlds|
  {
    exists r | i <= r < k ::
      && Sees(worlds[r], actions[r], name, true)
      && (RecordOf(worlds[i], name).offlineAfterAck || SawOffline(worlds, actions, name, i, r))
  }

  /** From world i to world k: still acknowledged, or re-armed after coming back. */
  ghost predicate QuietOrBack(worlds: seq<World>, actions: seq<Action>, name: string, i: nat, k: nat)
    requires i <= k <= |actions| < |worlds|
  {
    var s, u := RecordOf(worlds[i], name), RecordOf(worlds[k], name);
    || Acked(u, s.deliverySequence, s.offlineAfterAck || SawOffline(worlds, actions, name, i, k))
    || (u.deliverySequence > s.deliverySequence && CameBack(worlds, actions, name, i, k))
  }

  lemma SightsGrow(worlds: seq<World>, actions: seq<Action>, name: string, i: nat, k: nat)
    requires i <= k < |actions| < |worlds|
    ensures SawOffline(worlds, actions, name, i, k + 1) <==>
            SawOffline(worlds, actions, name, i, k) || Sees(worlds[k], actions[k], name, false)
    ensures CameBack(worlds, actions, name, i, k + 1) <==>
            || CameBack(worlds, actions, name, i, k)
            || (Sees(worlds[k], actions[k], name, true)
                && (RecordOf(worlds[i], name).offlineAfterAck || SawOffline(worlds, actions, name, i, k)))
  {
    hide RecordOf, Sees;
  }

  lemma QuietStep(worlds: seq<World>, actions: seq<Action>, name: string, outage: string, i: nat, k: nat)
    requires i <= k < |actions| < |worlds|
    requires Phase(worlds[k].loop) && IsAction(worlds[k], actions[k], worlds[k + 1]) && IsSaved(worlds[k], actions[k])
    requires InOutage(worlds[k], outage) && Known(worlds[k], name) && Known(worlds[k + 1], name)
    requires QuietOrBack(worlds, actions, name, i, k)
    ensures QuietOrBack(worlds, actions, name, i, k + 1)
  {
    hide Act, IsPossible, IsSaved, InOutage, Known, RecordOf, Sees, SawOffline, CameBack, Phase;
    ActWhileAcked(worlds[k], actions[k], name, outage, RecordOf(worlds[i], name).deliverySequence);
    SightsGrow(worlds, actions, name, i, k);
  }

  lemma QuietAtFirst(worlds: seq<World>, actions: seq<Action>, name: string, i: nat)
    requires i <= |actions| < |worlds| && RecordOf(worlds[i], name).acknowledged
    ensures QuietOrBack(worlds, actions, name, i, i)
  {}

  /** What a run says about step k of a time in one outage. */
  lemma StepAt(worlds: seq<World>, actions: seq<Action>, name: string, outage: string, i: nat, j: nat, k: nat)
    requires IsHistory(worlds, actions) && IsInitial(worlds[0]) && i <= k < j <= |actions|
    requires Throughout(worlds, name, outage, i, j) && SavedBetween(worlds, actions, i, j)
    ensures |worlds| == |actions| + 1 && Phase(worlds[k].loop)
    ensures IsAction(worlds[k], actions[k], worlds[k + 1]) && IsSaved(worlds[k], actions[k])
    ensures InOutage(worlds[k], outage) && Known(worlds[k], name) && Known(worlds[k + 1], name)
  {
    AlwaysTruthful(worlds, actions, k);
  }

  lemma {:induction false} AckedUntilBack(worlds: seq<World>, actions: seq<Action>, name: string, outage: string,
      i: nat, k: nat)
    requires IsHistory(worlds, actions) && IsInitial(worlds[0]) && i <= k <= |actions|
    requires Throughout(worlds, name, outage, i, k) && SavedBetween(worlds, actions, i, k)
    requires RecordOf(worlds[i], name).acknowledged
    ensures QuietOrBack(worlds, actions, name, i, k)
    decreases k
  {
    hide IsHistory, IsInitial, IsAction, IsSaved, InOutage, Known, RecordOf, QuietOrBack, Phase;
    if i == k {
      assert |actions| < |worlds| by {
        OneWorldMore(worlds, actions);
      }
      QuietAtFirst(worlds, actions, name, i);
    } else {
      OneWorldMore(worlds, actions);
      AckedUntilBack(worlds, actions, name, outage, i, k - 1);
      StepAt(worlds, actions, name, outage, i, k, k - 1);
      QuietStep(worlds, actions, name, outage, i, k - 1);
    }
  }

  lemma OneWorldMore(worlds: seq<World>, actions: seq<Action>)
    requires IsHistory(worlds, actions)
    ensures |worlds| == |actions| + 1
  {}

  /** The poll at step i makes the attempt d. */
  predicate Attempts(worlds: seq<World>, actions: seq<Action>, i: nat, d: Delivery)
    requires i < |actions| < |worlds|
  {
    actions[i].Polls? && d in Poll(worlds[i].loop, actions[i].env).log
  }

  /**
   After an acknowledgement the client is left alone for the rest of the outage, until it was
   seen offline and then online again; what it is sent then carries a higher sequence.
   */
  lemma QuietUntilBack(worlds: seq<World>, actions: seq<Action>, name: string, outage: string, i: nat, j: nat,
      d: Delivery)
    requires IsHistory(worlds, actions) && IsInitial(worlds[0]) && i <= j < |actions|
    requires Throughout(worlds, name, outage, i, j) && SavedBetween(worlds, actions, i, j)
    requires RecordOf(worlds[i], name).acknowledged
    requires Attempts(worlds, actions, j, d) && d.attempt.name == name
    ensures d.attempt.sequence > RecordOf(worlds[i], name).deliverySequence
    ensures CameBack(worlds, actions, name, i, j + 1)
  {
    AckedUntilBack(worlds, actions, name, outage, i, j);
    AlwaysTruthful(worlds, actions, j);
    assert IsAction(worlds[j], actions[j], worlds[j + 1]);
    SightsGrow(worlds, actions, name, i, j);
    AttemptAfterAck(worlds[j], actions[j].env, name, outage, RecordOf(worlds[i], name).deliverySequence, d);
  }

  /** An attempt to a client that is still acknowledged means that this poll re-armed it. */
  lemma AttemptAfterAck(w: World, env: Env, name: string, outage: string, sequence: nat, d: Delivery)
    requires Phase(w.loop) && IsPossible(Polls(env)) && InOutage(w, outage) && Known(w, name)
    requires d in Poll(w.loop, env).log && d.attempt.name == name
    ensures d.attempt.sequence >= RecordOf(w, name).deliverySequence
    ensures Acked(RecordOf(w, name), sequence, true) ==>
              && d.attempt.sequence > sequence
              && Sees(w, Polls(env), name, true) && RecordOf(w, name).offlineAfterAck
  {
    LoggedIsListed(w.loop, env, d);
    PreparedKnown(w.loop, env, name);
    PreparedPhase(w.loop, env);
    var r := Reloaded(w.loop, env.reload);
    ProbeWhileAcked(r.config.clients, r.tracker, env.reachable, name, sequence);
    PollDelivered(w.loop, env, name);
  }

  /** A client that accepts in a poll has not been seen offline since. */
  lemma FreshlyAcked(l: Loop, env: Env, d: Delivery, history: seq<Delivery>)
    requires Phase(l) && Fits(l.tracker.image, history, NoDelivery) && IsUuid(env.freshId) && d in Poll(l, env).log
    ensures !ShutdownOf(Poll(l, env).loop.tracker, d.attempt.name).offlineAfterAck
  {
    hide RecordFits, Poll, Prepared;
    var name := d.attempt.name;
    LoggedIsListed(l, env, d);
    PreparedPhase(l, env);
    PreparedFits(l, env, history, NoDelivery);
    PollDelivered(l, env, name);
    NotOfflineUnacked(Prepared(l, env).tracker, name, history);
  }

  lemma NotOfflineUnacked(t: State, name: string, history: seq<Delivery>)
    requires Fits(t.image, history, NoDelivery)
    ensures ShutdownOf(t, name).offlineAfterAck ==> ShutdownOf(t, name).acknowledged
  {
    if name in t.image.clients {
      assert RecordFits(t.image.meta.outageId, name, t.image.clients[name].shutdown, history, NoDelivery);
    }
  }

  /**
   Once an attempt was accepted, the next one to the client in that outage comes only after a poll
   that found its enabled entry offline and a later one that found it online.
   */
  lemma AskedAgainAfterReturn(worlds: seq<World>, actions: seq<Action>, outage: string, i: nat, j: nat, d: Delivery,
      e: Delivery)
    requires IsHistory(worlds, actions) && IsInitial(worlds[0]) && i < j < |actions|
    requires Attempts(worlds, actions, i, d) && Attempts(worlds, actions, j, e)
    requires d.reply == Accepted && d.attempt.name == e.attempt.name
    requires Throughout(worlds, d.attempt.name, outage, i + 1, j) && SavedBetween(worlds, actions, i + 1, j)
    ensures exists p, r | i < p < r <= j ::
              Sees(worlds[p], actions[p], d.attempt.name, false) && Sees(worlds[r], actions[r], d.attempt.name, true)
  {
    hide Sees, RecordOf, Throughout, SavedBetween;
    var name := d.attempt.name;
    AcceptedIsAcked(worlds, actions, i, d);
    QuietUntilBack(worlds, actions, name, outage, i + 1, j, e);
    AlwaysTruthful(worlds, actions, i);
    assert IsAction(worlds[i], actions[i], worlds[i + 1]);
    FreshlyAcked(worlds[i].loop, actions[i].env, d, worlds[i].history);
    assert !RecordOf(worlds[i + 1], name).offlineAfterAck by {
      RecordIs(worlds[i + 1], name);
    }
    var r :| i + 1 <= r < j + 1 && Sees(worlds[r], actions[r], name, true)
      && (RecordOf(worlds[i + 1], name).offlineAfterAck || SawOffline(worlds, actions, name, i + 1, r));
    var p :| i + 1 <= p < r && Sees(worlds[p], actions[p], name, false);
  }

  lemma RecordIs(w: World, name: string)
    ensures RecordOf(w, name) == ShutdownOf(w.loop.tracker, name)
  {}

  // ---------- Retries before one ----------

  /** Some attempt to the client, from step i up to step j, was accepted. */
  ghost predicate AcceptedBetween(worlds: seq<World>, actions: seq<Action>, name: string, i: nat, j: nat)
    requires j <= |actions| < |worlds|
  {
    exists m | i <= m < j :: actions[m].Polls? && AcceptedBy(Poll(worlds[m].loop, actions[m].env).log, name)
  }

  /** An attempt leaves its sequence on record, and an acknowledgement exactly if its poll got one. */
  lemma AfterAttempt(l: Loop, env: Env, d: Delivery)
    requires Phase(l) && IsUuid(env.freshId) && d in Poll(l, env).log
    ensures var after := Poll(l, env).loop.tracker;
            && after.image.meta.outageId == Some(d.attempt.outage)
            && ShutdownOf(after, d.attempt.name).deliverySequence == d.attempt.sequence
            && (ShutdownOf(after, d.attempt.name).acknowledged <==> AcceptedBy(Poll(l, env).log, d.attempt.name))
  {
    LoggedIsListed(l, env, d);
    PreparedPhase(l, env);
    PollDelivered(l, env, d.attempt.name);
  }

  lemma ActWhileUnacked(w: World, a: Action, name: string, outage: string)
    requires Phase(w.loop) && IsPossible(a) && IsSaved(w, a)
    requires InOutage(w, outage) && Known(w, name) && Known(Act(w, a), name) && !RecordOf(w, name).acknowledged
    ensures var after := RecordOf(Act(w, a), name);
            && after.deliverySequence == RecordOf(w, name).deliverySequence
            && (after.acknowledged <==> a.Polls? && AcceptedBy(Poll(w.loop, a.env).log, name))
  {
    match a
    case Polls(env) =>
      PreparedKnown(w.loop, env, name);
      PreparedPhase(w.loop, env);
      var r := Reloaded(w.loop, env.reload);
      ProbeWhileUnacked(r.config.clients, r.tracker, env.reachable, name);
      PollDelivered(w.loop, env, name);
    case Restarts(config) => LaunchedFrom(w.loop, config);
  }

  lemma AcceptedGrows(worlds: seq<World>, actions: seq<Action>, name: string, i: nat, k: nat)
    requires i <= k < |actions| < |worlds|
    ensures AcceptedBetween(worlds, actions, name, i, k + 1) <==>
            || AcceptedBetween(worlds, actions, name, i, k)
            || (actions[k].Polls? && AcceptedBy(Poll(worlds[k].loop, actions[k].env).log, name))
  {
    hide Poll, AcceptedBy;
  }

  lemma ResultOf(w: World, a: Action, after: World)
    requires IsAction(w, a, after)
    ensures after == Act(w, a) && IsPossible(a)
  {}

  lemma {:induction false} UnackedStays(worlds: seq<World>, actions: seq<Action>, name: string, outage: string,
      i: nat, k: nat)
    requires IsHistory(worlds, actions) && IsInitial(worlds[0]) && i <= k <= |actions|
    requires Throughout(worlds, name, outage, i, k) && SavedBetween(worlds, actions, i, k)
    requires !RecordOf(worlds[i], name).acknowledged && !AcceptedBetween(worlds, actions, name, i, k)
    ensures RecordOf(worlds[k], name).deliverySequence == RecordOf(worlds[i], name).deliverySequence
    ensures !RecordOf(worlds[k], name).acknowledged
    decreases k
  {
    hide IsHistory, IsInitial, IsAction, IsSaved, InOutage, Known, RecordOf, Phase, Poll, Act, IsPossible;
    hide AcceptedBetween;
    if i < k {
      OneWorldMore(worlds, actions);
      AcceptedGrows(worlds, actions, name, i, k - 1);
      UnackedStays(worlds, actions, name, outage, i, k - 1);
      StepAt(worlds, actions, name, outage, i, k, k - 1);
      ResultOf(worlds[k - 1], actions[k - 1], worlds[k]);
      ActWhileUnacked(worlds[k - 1], actions[k - 1], name, outage);
    }
  }

  lemma {:induction false} SequenceGrows(worlds: seq<World>, actions: seq<Action>, name: string, outage: string,
      i: nat, k: nat)
    requires IsHistory(worlds, actions) && IsInitial(worlds[0]) && i <= k <= |actions|
    requires Throughout(worlds, name, outage, i, k) && SavedBetween(worlds, actions, i, k)
    ensures RecordOf(worlds[k], name).deliverySequence >= RecordOf(worlds[i], name).deliverySequence
    decreases k
  {
    hide IsHistory, IsInitial, IsAction, IsSaved, InOutage, Known, RecordOf, Phase, Poll, Act, IsPossible;
    if i < k {
      OneWorldMore(worlds, actions);
      SequenceGrows(worlds, actions, name, outage, i, k - 1);
      StepAt(worlds, actions, name, outage, i, k, k - 1);
      ResultOf(worlds[k - 1], actions[k - 1], worlds[k]);
      ActWhileAcked(worlds[k - 1], actions[k - 1], name, outage, 0);
    }
  }

  /**
   Two attempts to one client in one outage carry the same identifier exactly when nothing sent
   to the client from the first one up to the second was acknowledged.
   */
  lemma RetriesReuseExactly(worlds: seq<World>, actions: seq<Action>, outage: string, i: nat, j: nat, d: Delivery,
      e: Delivery)
    requires IsHistory(worlds, actions) && IsInitial(worlds[0]) && i < j < |actions|
    requires Attempts(worlds, actions, i, d) && Attempts(worlds, actions, j, e) && d.attempt.name == e.attempt.name
    requires Throughout(worlds, d.attempt.name, outage, i + 1, j) && SavedBetween(worlds, actions, i + 1, j)
    ensures d.attempt.commandId == e.attempt.commandId <==> !AcceptedBetween(worlds, actions, d.attempt.name, i, j)
  {
    hide IsHistory, IsInitial, IsSaved, Known, RecordOf, Phase, Poll;
    var name := d.attempt.name;
    OneWorldMore(worlds, actions);
    SameIdIffSameSequence(worlds, actions, i, j, d, e);
    FirstAttempt(worlds, actions, i, d);
    assert InOutage(worlds[i + 1], outage);
    if AcceptedBetween(worlds, actions, name, i, j) {
      var m, f := AcceptedAttempt(worlds, actions, name, i, j);
      FirstAttempt(worlds, actions, m, f);
      SequenceGrows(worlds, actions, name, outage, i + 1, m + 1);
      AcceptedIsAcked(worlds, actions, m, f);
      QuietUntilBack(worlds, actions, name, outage, m + 1, j, e);
    } else {
      NoneAccepted(worlds, actions, name, i, j);
      UnackedStays(worlds, actions, name, outage, i + 1, j);
      LastAttempt(worlds, actions, name, outage, j, e);
    }
  }

  lemma AcceptedAttempt(worlds: seq<World>, actions: seq<Action>, name: string, i: nat, j: nat)
    returns (m: nat, f: Delivery)
    requires j <= |actions| < |worlds| && AcceptedBetween(worlds, actions, name, i, j)
    ensures i <= m < j && Attempts(worlds, actions, m, f) && f.attempt.name == name && f.reply == Accepted
  {
    m :| i <= m < j && actions[m].Polls? && AcceptedBy(Poll(worlds[m].loop, actions[m].env).log, name);
    f :| f in Poll(worlds[m].loop, actions[m].env).log && f.attempt.name == name && f.reply == Accepted;
  }

  lemma AcceptedIsAcked(worlds: seq<World>, actions: seq<Action>, m: nat, f: Delivery)
    requires IsHistory(worlds, actions) && IsInitial(worlds[0]) && m < |actions| && Attempts(worlds, actions, m, f)
    requires f.reply == Accepted
    ensures RecordOf(worlds[m + 1], f.attempt.name).acknowledged
  {
    FirstAttempt(worlds, actions, m, f);
    assert AcceptedBy(Poll(worlds[m].loop, actions[m].env).log, f.attempt.name);
  }

  lemma NoneAccepted(worlds: seq<World>, actions: seq<Action>, name: string, i: nat, j: nat)
    requires i < j <= |actions| < |worlds| && !AcceptedBetween(worlds, actions, name, i, j)
    ensures !AcceptedBetween(worlds, actions, name, i + 1, j)
    ensures actions[i].Polls? ==> !AcceptedBy(Poll(worlds[i].loop, actions[i].env).log, name)
  {}

  lemma FirstAttempt(worlds: seq<World>, actions: seq<Action>, i: nat, d: Delivery)
    requires IsHistory(worlds, actions) && IsInitial(worlds[0]) && i < |actions| && Attempts(worlds, actions, i, d)
    ensures worlds[i + 1].loop.tracker.image.meta.outageId == Some(d.attempt.outage)
    ensures RecordOf(worlds[i + 1], d.attempt.name).deliverySequence == d.attempt.sequence
    ensures RecordOf(worlds[i + 1], d.attempt.name).acknowledged <==>
            AcceptedBy(Poll(worlds[i].loop, actions[i].env).log, d.attempt.name)
  {
    AlwaysTruthful(worlds, actions, i);
    assert IsAction(worlds[i], actions[i], worlds[i + 1]);
    AfterAttempt(worlds[i].loop, actions[i].env, d);
  }

  lemma LastAttempt(worlds: seq<World>, actions: seq<Action>, name: string, outage: string, j: nat, e: Delivery)
    requires IsHistory(worlds, actions) && IsInitial(worlds[0]) && j < |actions| && Attempts(worlds, actions, j, e)
    requires e.attempt.name == name && Known(worlds[j], name) && InOutage(worlds[j], outage)
    requires !RecordOf(worlds[j], name).acknowledged
    ensures e.attempt.sequence == RecordOf(worlds[j], name).deliverySequence && e.attempt.outage == outage
  {
    AlwaysTruthful(worlds, actions, j);
    assert IsAction(worlds[j], actions[j], worlds[j + 1]);
    var l, env := worlds[j].loop, actions[j].env;
    LoggedIsListed(l, env, e);
    PreparedKnown(l, env, name);
    PreparedPhase(l, env);
    var r := Reloaded(l, env.reload);
    ProbeWhileUnacked(r.config.clients, r.tracker, env.reachable, name);
    PollDelivered(l, env, name);
  }

  lemma SameIdIffSameSequence(worlds: seq<World>, actions: seq<Action>, i: nat, j: nat, d: Delivery, e: Delivery)
    requires IsHistory(worlds, actions) && IsInitial(worlds[0]) && i < |actions| && j < |actions|
    requires Attempts(worlds, actions, i, d) && Attempts(worlds, actions, j, e) && d.attempt.name == e.attempt.name
    ensures d.attempt.commandId == e.attempt.commandId <==>
            d.attempt.outage == e.attempt.outage && d.attempt.sequence == e.attempt.sequence
  {
    AlwaysTruthful(worlds, actions, i + 1);
    AlwaysTruthful(worlds, actions, j + 1);
    assert IsAction(worlds[i], actions[i], worlds[i + 1]) && IsAction(worlds[j], actions[j], worlds[j + 1]);
    assert d in worlds[i + 1].history && e in worlds[j + 1].history;
    if d.attempt.commandId == e.attempt.commandId {
      CommandIdInjective(d.attempt.outage, d.attempt.name, d.attempt.sequence,
                         e.attempt.outage, e.attempt.name, e.attempt.sequence);
    }
  }
}
