/**
 Restarts on an older file: exactly which forgotten notices are repeated. A notice is sent once
 for an identifier as long as the record that was loaded shows it, or is past it.
 */
module LostNotices {
  import opened Wrappers
  import opened CommandIds
  import opened Settings
  import opened Tracker
  import opened Coordinator
  import opened Monitor
  import opened Frames
  import opened Runs
  import opened Deliveries
  import opened OneClient
  import opened Outages

  /** A notice of the current outage that the client's record does not show although it has not passed its sequence. */
  predicate Forgets(w: World, d: Delivery) {
    var image := w.loop.tracker.image;
    && d in w.history && d.notice != NoNotice
    && image.meta.outageId == Some(d.attempt.outage) && d.attempt.name in image.clients
    && !Accounts(image.clients[d.attempt.name].shutdown, d, Notified)
  }

  /** What may follow a world: any polls and restarts that themselves forget nothing. */
  ghost predicate IsContinuation(w: World, worlds: seq<World>, actions: seq<Action>) {
    IsHistory(worlds, actions) && worlds[0] == w && IsCarefulUntil(worlds, actions, |actions|)
  }

  function Last(worlds: seq<World>): World
    requires worlds != []
  {
    worlds[|worlds| - 1]
  }

  lemma NothingForgotten(w: World)
    requires Good(w, NoDelivery) && NoticesOnce(w.history) && forall d :: !Forgets(w, d)
    ensures Good(w, Notified)
  {
    var image := w.loop.tracker.image;
    forall name | name in image.clients
      ensures RecordFits(image.meta.outageId, name, image.clients[name].shutdown, w.history, Notified)
    {
      var s := image.clients[name].shutdown;
      assert RecordFits(image.meta.outageId, name, s, w.history, NoDelivery);
      if image.meta.outageId.Some? {
        forall d | d in w.history && d.attempt.outage == image.meta.outageId.value && d.attempt.name == name
                   && Covers(Notified, d)
          ensures Accounts(s, d, Notified)
        {
          assert !Forgets(w, d);
        }
      }
    }
  }

  // ---------- A forgotten notice comes back ----------

  /**
   The next poll on the way to repeating a notice: let the client accept, leave and return until its
   sequence is reached.
   */
  function NextEnv(w: World, d: Delivery): Env
    requires d.attempt.name in w.loop.tracker.image.clients
  {
    var c := w.loop.tracker.image.clients[d.attempt.name];
    var online := !(c.shutdown.acknowledged && c.online);
    var s := Observed(c, online).shutdown;
    var reply := if s.deliverySequence == d.attempt.sequence && d.notice == FailureNotice then Failed("") else Accepted;
    var now := (if s.lastAttemptAt > 0 then s.lastAttemptAt else 0) + 5;
    Moment(d.attempt.name, now, OnBattery(0), online, reply, d.attempt.outage, true)
  }

  /** How many more polls a client needs to pass one sequence. */
  function Stage(c: Tracker.Client): nat {
    if !c.shutdown.acknowledged then 4
    else if c.online then 2
    else if c.shutdown.offlineAfterAck then 1
    else 3
  }

  function Distance(w: World, d: Delivery): int
    requires d.attempt.name in w.loop.tracker.image.clients
  {
    d.attempt.sequence - w.loop.tracker.image.clients[d.attempt.name].shutdown.deliverySequence
  }

  /** The record of the poll on the way, and what it sends. */
  lemma NextPoll(w: World, d: Delivery)
    requires Good(w, NoDelivery) && Forgets(w, d)
    ensures var env, name, outage := NextEnv(w, d), d.attempt.name, d.attempt.outage;
            var c, q := w.loop.tracker.image.clients[name], Poll(w.loop, env);
            var s := Observed(c, name in env.reachable).shutdown;
            && IsPossible(Polls(env)) && IsCareful(w, Polls(env))
            && q.loop.tracker.image.meta.outageId == Some(outage) && name in q.loop.tracker.image.clients
            && q.loop.tracker.image.clients[name].online == (name in env.reachable)
            && Attempted(s, q.loop.tracker.image.clients[name].shutdown, q.log, name, outage, env.replies[name],
                env.now)
            && (s.acknowledged || IsDueNow(s, env.now))
            && IdFor(s, outage, name) == CommandId(outage, name, s.deliverySequence)
            && d.attempt.commandId == CommandId(outage, name, d.attempt.sequence)
  {
    hide Poll, Attempted;
    var env, name, outage := NextEnv(w, d), d.attempt.name, d.attempt.outage;
    var c := w.loop.tracker.image.clients[name];
    assert IsUuid(outage);
    assert RecordFits(Some(outage), name, c.shutdown, w.history, NoDelivery);
    NamesOfOne(name);
    assert Found(w.loop, name) == c && StartOf(w.loop, env, name) == Observed(c, name in env.reachable).shutdown;
    BatteryPollOfOne(w.loop, name, env.now, name in env.reachable, env.replies[name], outage, true);
    assert env == Moment(name, env.now, OnBattery(0), name in env.reachable, env.replies[name], outage, true);
  }

  /** A notice that was sent before and is sent again. */
  lemma Repeats(history: seq<Delivery>, log: seq<Delivery>, d: Delivery, p: Delivery)
    requires d in history && log == [p]
    requires p.notice == d.notice != NoNotice && p.attempt.commandId == d.attempt.commandId
    ensures !NoticesOnce(history + log)
  {
    var i :| 0 <= i < |history| && history[i] == d;
    assert (history + log)[i] == d && (history + log)[|history|] == p;
  }

  /** World v is on the way from w to the sequence of d. */
  predicate IsCloser(v: World, w: World, d: Delivery)
    requires d.attempt.name in v.loop.tracker.image.clients && d.attempt.name in w.loop.tracker.image.clients
  {
    var after, before := v.loop.tracker.image.clients[d.attempt.name], w.loop.tracker.image.clients[d.attempt.name];
    || 0 <= Distance(v, d) < Distance(w, d)
    || (Distance(v, d) == Distance(w, d) && Stage(after) < Stage(before))
  }

  /** The poll repeats the notice, or comes one step closer. */
  lemma Closer(w: World, d: Delivery)
    requires Good(w, NoDelivery) && Forgets(w, d)
    ensures var a := Polls(NextEnv(w, d));
            var v := Act(w, a);
            && IsPossible(a) && IsCareful(w, a) && Good(v, NoDelivery)
            && (!NoticesOnce(v.history) || (Forgets(v, d) && IsCloser(v, w, d)))
  {
    hide Poll, IsCareful, Good;
    NextPoll(w, d);
    var env, name := NextEnv(w, d), d.attempt.name;
    ActGood(w, Polls(env), NoDelivery);
    var c, q := w.loop.tracker.image.clients[name], Poll(w.loop, env);
    var s := Observed(c, name in env.reachable).shutdown;
    if !s.acknowledged && s.deliverySequence == d.attempt.sequence {
      Repeats(w.history, q.log, d, q.log[0]);
    }
  }

  lemma ComesBack(w: World, d: Delivery) returns (worlds: seq<World>, actions: seq<Action>)
    requires Good(w, NoDelivery) && Forgets(w, d)
    ensures IsContinuation(w, worlds, actions) && !NoticesOnce(Last(worlds).history)
    decreases Distance(w, d), Stage(w.loop.tracker.image.clients[d.attempt.name])
  {
    hide Act, IsCareful, Good, NoticesOnce, IsPossible;
    var a := Polls(NextEnv(w, d));
    var v := Act(w, a);
    Closer(w, d);
    if !NoticesOnce(v.history) {
      worlds, actions := [w, v], [a];
    } else {
      worlds, actions := ComesBack(v, d);
      Prepend(w, a, worlds, actions);
      worlds, actions := [w] + worlds, [a] + actions;
    }
  }

  lemma Prepend(w: World, a: Action, worlds: seq<World>, actions: seq<Action>)
    requires IsPossible(a) && IsCareful(w, a) && IsContinuation(Act(w, a), worlds, actions)
    ensures IsContinuation(w, [w] + worlds, [a] + actions) && Last([w] + worlds) == Last(worlds)
  {
    hide Act, IsCareful, IsPossible;
    var ws, acts := [w] + worlds, [a] + actions;
    assert IsAction(w, a, Act(w, a));
    forall i | 0 <= i < |acts|
      ensures IsAction(ws[i], acts[i], ws[i + 1]) && IsCareful(ws[i], acts[i])
    {
      if i > 0 {
        assert IsAction(worlds[i - 1], actions[i - 1], worlds[i]) && IsCareful(worlds[i - 1], actions[i - 1]);
      }
    }
  }

  // ---------- The exact condition ----------

  /**
   From any world of any run, after a restart on an older file for instance: no notice is ever
   repeated, whatever follows, exactly if none was forgotten.
   */
  lemma NoticesStayUniqueExactly(past: seq<World>, steps: seq<Action>, k: nat)
    requires IsHistory(past, steps) && IsInitial(past[0]) && k <= |steps| && NoticesOnce(past[k].history)
    ensures (forall worlds, actions | IsContinuation(past[k], worlds, actions) :: NoticesOnce(Last(worlds).history))
            <==> (forall d :: !Forgets(past[k], d))
  {
    var w := past[k];
    AlwaysTruthful(past, steps, k);
    hide Good, NoticesOnce, Forgets, IsContinuation;
    if forall d :: !Forgets(w, d) {
      NothingForgotten(w);
      forall worlds, actions | IsContinuation(w, worlds, actions)
        ensures NoticesOnce(Last(worlds).history)
      {
        ContinuesOnce(w, worlds, actions);
      }
    } else {
      var d :| Forgets(w, d);
      var worlds, actions := ComesBack(w, d);
      assert IsContinuation(w, worlds, actions) && !NoticesOnce(Last(worlds).history);
    }
  }

  lemma ContinuesOnce(w: World, worlds: seq<World>, actions: seq<Action>)
    requires Good(w, Notified) && IsContinuation(w, worlds, actions)
    ensures NoticesOnce(Last(worlds).history)
  {
    AlwaysGood(worlds, actions, |actions|, Notified);
  }

  /**
   The outage is saved; a delivery fails and is notified, but that poll cannot be saved; the
   process restarts, and the same identifier fails and is notified again. Dying right after
   the delivery does the same.
   */
  lemma UnsavedNoticeRepeats(name: string)
    ensures var e0 := Moment(name, 1, OnBattery(0), true, Failed(""), FIRST, true);
            var e1 := Moment(name, 6, OnBattery(0), true, Failed(""), FIRST, false);
            var e2 := Moment(name, 7, OnBattery(0), true, Failed(""), FIRST, true);
            var w1 := Act(World(Launched(ConfigOf(name), None), []), Polls(e0));
            var w2 := Act(w1, Polls(e1));
            var w3 := Act(w2, Restarts(ConfigOf(name)));
            var w4 := Act(w3, Polls(e2));
            && w1.history == [] && w3 == Act(w1, Crashes(e1, 1, ConfigOf(name)))
            && |w4.history| == 2 && w4.history[0].notice == w4.history[1].notice == FailureNotice
            && w4.history[0].attempt.commandId == w4.history[1].attempt.commandId == CommandId(FIRST, name, 0)
  {
    hide Poll, Loaded, Phase;
    var l0 := FirstLaunch(name);
    var e0 := Moment(name, 1, OnBattery(0), true, Failed(""), FIRST, true);
    var e1 := Moment(name, 6, OnBattery(0), true, Failed(""), FIRST, false);
    var e2 := Moment(name, 7, OnBattery(0), true, Failed(""), FIRST, true);
    BatteryPollOfOne(l0, name, 1, true, Failed(""), FIRST, true);
    var l1 := Poll(l0, e0).loop;
    PollPhase(l0, e0);
    BatteryPollOfOne(l1, name, 6, true, Failed(""), FIRST, false);
    PollFile(l1, e1);
    var l3 := Launched(ConfigOf(name), l1.tracker.file);
    LaunchedFrom(l1, ConfigOf(name));
    NamesOfOne(name);
    assert l3.tracker.image.clients == l1.tracker.image.clients;
    BatteryPollOfOne(l3, name, 7, true, Failed(""), FIRST, true);
    var log := Poll(l1, e1).log;
    assert [] + [] + log == log == log[..1];
  }
}
