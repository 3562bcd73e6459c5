/** A run in which every client is back online and the restoration still goes on. */
module StuckRun {
  import opened Wrappers
  import opened CommandIds
  import opened Settings
  import opened Tracker
  import opened Coordinator
  import opened Monitor
  import opened Frames
  import opened Runs
  import opened Restorations

  const CLIENT_A := Settings.Client("a", true, true, true, ShutdownPolicy(false, 20, None))
  const CLIENT_B := Settings.Client("b", true, true, true, ShutdownPolicy(false, 20, None))
  const CONFIG := Config([CLIENT_A, CLIENT_B], 10, 20, 0, 360, 30)
  const UUID := "00000000-0000-4000-8000-000000000000"

  /** Left behind by an outage during which both clients were tracked. */
  const OUTAGE_FILE := Image(Meta(true, 50, Some(UUID)), map["a" := NEW_CLIENT, "b" := NEW_CLIENT])

  function Moment(now: int, reachable: set<string>): Env {
    Env(now, None, OnLine(50), reachable, map[], {}, UUID, true)
  }

  lemma PassOverTwo(a: Settings.Client, b: Settings.Client, w: Waking, env: Env)
    ensures WakeAll([a, b], w, 30, env) == WakeOne(b, WakeOne(a, w, 30, env), 30, env)
  {
    var v := WakeOne(a, w, 30, env);
    assert [a, b][1..] == [b];
    assert [b][1..] == [];
    assert WakeAll([b], v, 30, env) == WakeAll([], WakeOne(b, v, 30, env), 30, env);
  }

  lemma ProbeOfTwo(a: Settings.Client, b: Settings.Client, t: State, reachable: set<string>)
    requires a.enabled && b.enabled
    ensures ProbeAll([a, b], t, reachable) ==
            Update(Update(t, a.name, a.name in reachable), b.name, b.name in reachable)
  {
    var u := Update(t, a.name, a.name in reachable);
    assert [a, b][1..] == [b];
    assert [b][1..] == [];
    assert ProbeAll([b], u, reachable) == ProbeAll([], Update(u, b.name, b.name in reachable), reachable);
  }

  /** A restoration of both clients, with nobody skipped. */
  predicate Restores(l: Loop, down: set<string>, up: set<string>) {
    && l.config == CONFIG && InProgress(l)
    && l.tracker.image.clients.Keys == {"a", "b"}
    && (forall n | n in l.tracker.image.clients :: !l.tracker.image.clients[n].skip)
    && l.down == down && l.up == up
  }

  lemma Probed(l: Loop, env: Env)
    requires Restores(l, l.down, l.up) && env.reload == None && env.reading == OnLine(50)
    ensures var p := Prepared(l, env);
            && p == l.(tracker := p.tracker) && Restores(p, l.down, l.up)
            && (IsOnline(p.tracker, "a") <==> "a" in env.reachable)
            && (IsOnline(p.tracker, "b") <==> "b" in env.reachable)
  {
    ProbeFrame(CONFIG.clients, l.tracker, env.reachable);
    ProbeOfTwo(CLIENT_A, CLIENT_B, l.tracker, env.reachable);
  }

  lemma Woken(p: Loop, env: Env)
    requires Restores(p, p.down, p.up) && env.wolSucceeds == {}
    ensures var w := WakePass(p, env);
            && w.down == p.down - (if IsOnline(p.tracker, "a") && "a" !in p.up then {"a"} else {})
                                - (if IsOnline(p.tracker, "b") && "b" !in p.up then {"b"} else {})
                                + (if IsOnline(p.tracker, "a") then {} else {"a"})
                                + (if IsOnline(p.tracker, "b") then {} else {"b"})
            && w.up == p.up + (if IsOnline(p.tracker, "a") then {"a"} else {})
                            + (if IsOnline(p.tracker, "b") then {"b"} else {})
            && w.tracker == p.tracker
  {
    PassOverTwo(CLIENT_A, CLIENT_B, Waking(p.tracker, p.down, p.up, p.failures, []), env);
  }

  function DownNext(l: Loop, reachable: set<string>): set<string> {
    l.down - (if "a" in reachable && "a" !in l.up then {"a"} else {})
      - (if "b" in reachable && "b" !in l.up then {"b"} else {})
      + (if "a" in reachable then {} else {"a"}) + (if "b" in reachable then {} else {"b"})
  }

  function UpNext(l: Loop, reachable: set<string>): set<string> {
    l.up + (if "a" in reachable then {"a"} else {}) + (if "b" in reachable then {"b"} else {})
  }

  /** One poll of the restoration of both clients, before its timeout. */
  lemma RestorationStep(l: Loop, env: Env, start: int)
    requires Phase(l) && Restores(l, l.down, l.up) && env.reload == None
    requires env.reading == OnLine(50) && env.wolSucceeds == {}
    requires RestorationStart(l, env.now) == start && 0 < start <= env.now <= start + 360 && IsUuid(env.freshId)
    requires DownNext(l, env.reachable) != {}
    ensures var q := Poll(l, env).loop;
            && Phase(q) && Restores(q, DownNext(l, env.reachable), UpNext(l, env.reachable)) && q.start == Some(start)
    ensures !Completes(l, env)
  {
    Probed(l, env);
    var p := Prepared(l, env);
    Woken(p, env);
    assert WakePass(p, env).down == DownNext(l, env.reachable);
    assert WakePass(p, env).up == UpNext(l, env.reachable);
    assert RestorationStart(p, env.now) == start;
    PollPhase(l, env);
    CompletesIff(l, env);
  }

  lemma AtLaunch()
    ensures var l := Launched(CONFIG, Some(OUTAGE_FILE)); Phase(l) && Restores(l, {}, {}) && l.start == None
  {
    assert NamesOf(CONFIG.clients) == {"a", "b"} by {
      assert CONFIG.clients[0].name == "a" && CONFIG.clients[1].name == "b";
    }
  }

  lemma EveryoneAnswers(l: Loop, env: Env)
    requires Phase(l) && Restores(l, l.down, l.up) && env.reload == None && env.reading == OnLine(50)
    requires env.reachable == {"a", "b"} && RestorationStart(l, env.now) <= env.now
    ensures AllAnswer(Prepared(l, env), env) && Wakes(l, env)
  {
    Probed(l, env);
  }

  /** Both clients answer and are eligible, yet the restoration goes on: a came back, went down and came back again. */
  lemma AllOnlineNotFinished()
    ensures var l := Launched(CONFIG, Some(OUTAGE_FILE));
            var e0, e1, e2 := Moment(100, {"a"}), Moment(110, {}), Moment(120, {"a", "b"});
            var l1 := Poll(l, e0).loop;
            var l2 := Poll(l1, e1).loop;
            && AllAnswer(Prepared(l2, e2), e2) && Wakes(l2, e2)
            && !Completes(l2, e2) && InProgress(Poll(l2, e2).loop)
  {
    hide Launched, Poll, Prepared, Completes, Wakes, AllAnswer, Phase;
    AtLaunch();
    var l := Launched(CONFIG, Some(OUTAGE_FILE));
    var e0, e1, e2 := Moment(100, {"a"}), Moment(110, {}), Moment(120, {"a", "b"});
    assert DownNext(l, e0.reachable) == {"b"} && UpNext(l, e0.reachable) == {"a"};
    RestorationStep(l, e0, 100);
    var l1 := Poll(l, e0).loop;
    assert DownNext(l1, e1.reachable) == {"a", "b"} && UpNext(l1, e1.reachable) == {"a"};
    RestorationStep(l1, e1, 100);
    var l2 := Poll(l1, e1).loop;
    assert "a" in DownNext(l2, e2.reachable);
    RestorationStep(l2, e2, 100);
    EveryoneAnswers(l2, e2);
  }
}
