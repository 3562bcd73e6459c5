/** Restorations in detail: when one completes, what it keeps, and when wake packets go out. */
module Restorations {
  import opened Wrappers
  import opened CommandIds
  import opened Settings
  import opened Tracker
  import opened Coordinator
  import opened Monitor
  import opened Frames
  import opened Runs

  // ---------- Who is still missing after a pass ----------

  predicate Misses(c: Settings.Client, t: State) {
    IsEligible(c, t) && !IsOnline(t, c.name)
  }

  predicate Recovers(c: Settings.Client, t: State, up: set<string>) {
    IsEligible(c, t) && IsOnline(t, c.name) && c.name !in up
  }

  ghost predicate SomeMisses(clients: seq<Settings.Client>, t: State, name: string) {
    exists i | 0 <= i < |clients| :: clients[i].name == name && Misses(clients[i], t)
  }

  ghost predicate SomeRecovers(clients: seq<Settings.Client>, t: State, up: set<string>, name: string) {
    exists i | 0 <= i < |clients| :: clients[i].name == name && Recovers(clients[i], t, up)
  }

  /** Waking one client changes nothing another one depends on. */
  lemma OthersUnaffected(c: Settings.Client, w: Waking, delay: int, env: Env, other: Settings.Client)
    requires other.name != c.name
    ensures var v := WakeOne(c, w, delay, env);
            && Misses(other, v.tracker) == Misses(other, w.tracker)
            && Recovers(other, v.tracker, v.up) == Recovers(other, w.tracker, w.up)
  {}

  lemma TailUnaffected(clients: seq<Settings.Client>, w: Waking, delay: int, env: Env, name: string)
    requires UniqueNames(clients) && clients != []
    ensures var v := WakeOne(clients[0], w, delay, env);
            && SomeMisses(clients[1..], v.tracker, name) == SomeMisses(clients[1..], w.tracker, name)
            && SomeRecovers(clients[1..], v.tracker, v.up, name) == SomeRecovers(clients[1..], w.tracker, w.up, name)
  {
    forall i | 0 <= i < |clients[1..]|
      ensures clients[1..][i].name != clients[0].name
      ensures var v := WakeOne(clients[0], w, delay, env);
              && Misses(clients[1..][i], v.tracker) == Misses(clients[1..][i], w.tracker)
              && Recovers(clients[1..][i], v.tracker, v.up) == Recovers(clients[1..][i], w.tracker, w.up)
    {
      assert clients[1..][i] == clients[i + 1];
      OthersUnaffected(clients[0], w, delay, env, clients[1..][i]);
    }
  }

  lemma SplitFirst(clients: seq<Settings.Client>, t: State, up: set<string>, name: string)
    requires clients != []
    ensures SomeMisses(clients, t, name) <==>
            (clients[0].name == name && Misses(clients[0], t)) || SomeMisses(clients[1..], t, name)
    ensures SomeRecovers(clients, t, up, name) <==>
            (clients[0].name == name && Recovers(clients[0], t, up)) || SomeRecovers(clients[1..], t, up, name)
  {
    assert forall i | 0 <= i < |clients[1..]| :: clients[1..][i] == clients[i + 1];
    assert forall i | 0 < i < |clients| :: clients[i] == clients[1..][i - 1];
  }

  lemma NameOnlyFirst(clients: seq<Settings.Client>, t: State, up: set<string>)
    requires UniqueNames(clients) && clients != []
    ensures !SomeMisses(clients[1..], t, clients[0].name) && !SomeRecovers(clients[1..], t, up, clients[0].name)
  {
    assert forall i | 0 <= i < |clients[1..]| :: clients[1..][i] == clients[i + 1];
  }

  /** After a pass, exactly these are recorded as down: who misses now, and who was down and has not recovered now. */
  lemma {:induction false} DownAfterPass(clients: seq<Settings.Client>, w: Waking, delay: int, env: Env, name: string)
    requires UniqueNames(clients)
    ensures name in WakeAll(clients, w, delay, env).down <==>
            SomeMisses(clients, w.tracker, name) || (name in w.down && !SomeRecovers(clients, w.tracker, w.up, name))
  {
    if clients != [] {
      var v := WakeOne(clients[0], w, delay, env);
      assert UniqueNames(clients[1..]);
      DownAfterPass(clients[1..], v, delay, env, name);
      TailUnaffected(clients, w, delay, env, name);
      SplitFirst(clients, w.tracker, w.up, name);
      NameOnlyFirst(clients, w.tracker, w.up);
    }
  }

  lemma {:induction false} UpAfterPass(clients: seq<Settings.Client>, w: Waking, delay: int, env: Env)
    ensures w.up <= WakeAll(clients, w, delay, env).up
  {
    if clients != [] {
      UpAfterPass(clients[1..], WakeOne(clients[0], w, delay, env), delay, env);
    }
  }

  predicate EndsRestoration(e: Event) { e.AllBackOnline? || e.RecoveryTimedOut? }

  lemma {:induction false} PassDoesNotEnd(clients: seq<Settings.Client>, w: Waking, delay: int, env: Env)
    requires forall e | e in w.events :: !EndsRestoration(e)
    ensures forall e | e in WakeAll(clients, w, delay, env).events :: !EndsRestoration(e)
  {
    if clients != [] {
      PassDoesNotEnd(clients[1..], WakeOne(clients[0], w, delay, env), delay, env);
    }
  }

  // ---------- Completion ----------

  predicate Completes(l: Loop, env: Env) { AllBackOnline in Poll(l, env).events }

  /** The poll makes a pass of waking. */
  predicate Wakes(l: Loop, env: Env) {
    InProgress(l) && env.reading.OnLine? && MayWake(Prepared(l, env), env, env.reading.percent)
  }

  lemma CompletesIff(l: Loop, env: Env)
    requires Phase(l)
    ensures Completes(l, env) <==> Wakes(l, env) && WakePass(Prepared(l, env), env).down == {}
  {
    var p := Prepared(l, env);
    PreparedPhase(l, env);
    PassDoesNotEnd(p.config.clients, Waking(p.tracker, p.down, p.up, p.failures, []), p.config.reattemptDelay, env);
  }

  lemma {:induction false} ProbedOnline(clients: seq<Settings.Client>, t: State, reachable: set<string>, i: nat)
    requires UniqueNames(clients) && i < |clients| && clients[i].enabled && clients[i].name in t.image.clients
    ensures IsOnline(ProbeAll(clients, t, reachable), clients[i].name) <==> clients[i].name in reachable
  {
    var u := if clients[0].enabled then Update(t, clients[0].name, clients[0].name in reachable) else t;
    assert UniqueNames(clients[1..]);
    if i == 0 {
      assert IsOnline(u, clients[0].name) <==> clients[0].name in reachable;
      ProbedOthers(clients[1..], u, reachable, clients[0].name);
    } else {
      assert clients[1..][i - 1] == clients[i];
      ProbedOnline(clients[1..], u, reachable, i - 1);
    }
  }

  lemma {:induction false} ProbedOthers(clients: seq<Settings.Client>, t: State, reachable: set<string>, name: string)
    requires forall i | 0 <= i < |clients| :: clients[i].name != name
    ensures IsOnline(ProbeAll(clients, t, reachable), name) == IsOnline(t, name)
  {
    if clients != [] {
      var u := if clients[0].enabled then Update(t, clients[0].name, clients[0].name in reachable) else t;
      ProbedOthers(clients[1..], u, reachable, name);
    }
  }

  /** Every client this restoration is concerned with answers the probe. */
  ghost predicate AllAnswer(p: Loop, env: Env) {
    forall i | 0 <= i < |p.config.clients| && IsEligible(p.config.clients[i], p.tracker) ::
      p.config.clients[i].name in env.reachable
  }

  /** Everyone recorded as down is still this restoration's concern, and was not recorded as back before. */
  ghost predicate NobodyStuck(p: Loop) {
    forall name | name in p.down ::
      name !in p.up && exists i | 0 <= i < |p.config.clients| ::
        p.config.clients[i].name == name && IsEligible(p.config.clients[i], p.tracker)
  }

  lemma AnswersMeansOnline(l: Loop, env: Env, i: nat)
    requires Phase(l) && !env.reading.Incomplete? && UniqueNames(Prepared(l, env).config.clients)
    requires i < |Prepared(l, env).config.clients| && Prepared(l, env).config.clients[i].enabled
    ensures var p := Prepared(l, env);
            IsOnline(p.tracker, p.config.clients[i].name) <==> p.config.clients[i].name in env.reachable
  {
    var r := Reloaded(l, env.reload);
    assert r.config.clients[i].name in r.tracker.image.clients;
    ProbedOnline(r.config.clients, r.tracker, env.reachable, i);
  }

  /**
   A restoration is declared complete at a poll that makes a waking pass exactly when every
   enabled, wake-enabled, unskipped client that is always woken or was online before answers,
   and nobody recorded as down is stuck there.
   */
  lemma CompletionExactly(l: Loop, env: Env)
    requires Phase(l) && UniqueNames(Prepared(l, env).config.clients)
    ensures Completes(l, env) <==> Wakes(l, env) && AllAnswer(Prepared(l, env), env) && NobodyStuck(Prepared(l, env))
  {
    CompletesIff(l, env);
    if Wakes(l, env) {
      var p := Prepared(l, env);
      var clients := p.config.clients;
      var w := Waking(p.tracker, p.down, p.up, p.failures, []);
      forall i | 0 <= i < |clients| && IsEligible(clients[i], p.tracker)
        ensures IsOnline(p.tracker, clients[i].name) <==> clients[i].name in env.reachable
      {
        AnswersMeansOnline(l, env, i);
      }
      forall name
        ensures name in WakePass(p, env).down <==>
                || SomeMisses(clients, p.tracker, name)
                || (name in p.down && !SomeRecovers(clients, p.tracker, p.up, name))
      {
        DownAfterPass(clients, w, p.config.reattemptDelay, env, name);
      }
      if WakePass(p, env).down == {} {
        EmptyPass(p, env);
      }
      if AllAnswer(p, env) && NobodyStuck(p) {
        forall name
          ensures name !in WakePass(p, env).down
        {
          ClearPass(p, env, name);
        }
        assert WakePass(p, env).down == {};
      }
    }
  }

  lemma EmptyPass(p: Loop, env: Env)
    requires forall name :: !SomeMisses(p.config.clients, p.tracker, name)
    requires forall name | name in p.down :: SomeRecovers(p.config.clients, p.tracker, p.up, name)
    requires forall i | 0 <= i < |p.config.clients| && IsEligible(p.config.clients[i], p.tracker) ::
               IsOnline(p.tracker, p.config.clients[i].name) <==> p.config.clients[i].name in env.reachable
    ensures AllAnswer(p, env) && NobodyStuck(p)
  {
    forall i | 0 <= i < |p.config.clients| && IsEligible(p.config.clients[i], p.tracker)
      ensures p.config.clients[i].name in env.reachable
    {
      assert !SomeMisses(p.config.clients, p.tracker, p.config.clients[i].name);
      assert !Misses(p.config.clients[i], p.tracker);
    }
  }

  lemma ClearPass(p: Loop, env: Env, name: string)
    requires AllAnswer(p, env) && NobodyStuck(p)
    requires forall i | 0 <= i < |p.config.clients| && IsEligible(p.config.clients[i], p.tracker) ::
               IsOnline(p.tracker, p.config.clients[i].name) <==> p.config.clients[i].name in env.reachable
    ensures !SomeMisses(p.config.clients, p.tracker, name)
    ensures name in p.down ==> SomeRecovers(p.config.clients, p.tracker, p.up, name)
  {
    if name in p.down {
      var i :| 0 <= i < |p.config.clients|
        && p.config.clients[i].name == name && IsEligible(p.config.clients[i], p.tracker);
      assert Recovers(p.config.clients[i], p.tracker, p.up);
    }
  }

  // ---------- Clients that went down twice ----------

  /** The configuration still enables the client after the poll's reload. */
  predicate StaysEnabled(env: Env, name: string) {
    env.reload.Some? ==> name in EnabledNames(env.reload.value.clients)
  }

  /** The poll is the quiet one between restorations, which starts over. */
  predicate IsQuiet(l: Loop, env: Env) { env.reading.OnLine? && !InProgress(l) }

  lemma PreparedSets(l: Loop, env: Env, name: string)
    requires name in l.down && name in l.up && StaysEnabled(env, name)
    ensures name in Prepared(l, env).down && name in Prepared(l, env).up
  {}

  lemma StuckPoll(l: Loop, env: Env, name: string)
    requires Phase(l) && UniqueNames(Prepared(l, env).config.clients)
    requires name in l.down && name in l.up && StaysEnabled(env, name) && !IsQuiet(l, env)
    ensures var after := Poll(l, env).loop; name in after.down && name in after.up
    ensures !Completes(l, env)
  {
    hide Prepared, WakeAll, ProcessOnBattery, BeginOutage, MarkAllOnline, Save, Reset;
    var p := Prepared(l, env);
    PreparedPhase(l, env);
    PreparedSets(l, env, name);
    CompletionExactly(l, env);
    if Wakes(l, env) {
      var w := Waking(p.tracker, p.down, p.up, p.failures, []);
      DownAfterPass(p.config.clients, w, p.config.reattemptDelay, env, name);
      UpAfterPass(p.config.clients, w, p.config.reattemptDelay, env);
    }
  }

  /**
   A client that came back and went down again within one restoration stays recorded as down
   whatever it does afterwards: that restoration never completes, it can only time out.
   */
  lemma {:induction false} StuckNeverCompletes(loops: seq<Loop>, envs: seq<Env>, name: string, k: nat)
    requires IsRun(loops, envs) && Phase(loops[0]) && k <= |envs|
    requires name in loops[0].down && name in loops[0].up
    requires forall i | 0 <= i < |envs| ::
               && StaysEnabled(envs[i], name) && !IsQuiet(loops[i], envs[i])
               && UniqueNames(Prepared(loops[i], envs[i]).config.clients)
    ensures name in loops[k].down && name in loops[k].up
    ensures k < |envs| ==> !Completes(loops[k], envs[k])
  {
    if k > 0 {
      StuckNeverCompletes(loops, envs, name, k - 1);
      RunPhase(loops, envs, k - 1);
      assert IsPoll(loops[k - 1], envs[k - 1], loops[k]);
      StuckPoll(loops[k - 1], envs[k - 1], name);
    }
    RunPhase(loops, envs, k);
    if k < |envs| {
      StuckPoll(loops[k], envs[k], name);
    }
  }

  // ---------- Marks ----------

  predicate IsMarked(l: Loop, name: string) {
    name in l.tracker.image.clients && l.tracker.image.clients[name].wasOnlineBefore
  }

  /** The poll's reload drops the client. */
  predicate Removes(env: Env, name: string) {
    env.reload.Some? && name !in NamesOf(env.reload.value.clients)
  }

  /** The poll begins a new time on battery. */
  predicate GoesOnBattery(l: Loop, env: Env) { env.reading.OnBattery? && !l.onBattery }

  lemma PreparedMarks(l: Loop, env: Env, name: string)
    requires IsMarked(l, name) && !Removes(env, name)
    ensures IsMarked(Prepared(l, env), name)
  {
    var r := Reloaded(l, env.reload);
    assert IsMarked(r, name);
    ProbeFrame(r.config.clients, r.tracker, env.reachable);
  }

  lemma MarkedPoll(l: Loop, env: Env, name: string)
    requires Phase(l) && InProgress(l) && IsMarked(l, name) && IsUuid(env.freshId)
    requires !Removes(env, name) && !GoesOnBattery(l, env) && !Completes(l, env)
    ensures IsMarked(Poll(l, env).loop, name)
  {
    PreparedMarks(l, env, name);
    PreparedPhase(l, env);
    var p := Prepared(l, env);
    match env.reading
    case Incomplete =>
    case OnBattery(percent) =>
      var begun := BeginOutage(p.tracker, percent, env.freshId);
      DeliverFrame(p.config.clients, begun, begun.image.meta.outageId.value, env.replies, percent,
          RetryDelay(p.config), env.now);
    case OnLine(percent) =>
      CompletesIff(l, env);
      WakeFrame(p.config.clients, Waking(p.tracker, p.down, p.up, p.failures, []), p.config.reattemptDelay, env);
  }

  /** While an outage or its restoration goes on, who was online before is forgotten only by those events. */
  lemma {:induction false} MarksSurvive(loops: seq<Loop>, envs: seq<Env>, name: string, k: nat)
    requires IsRun(loops, envs) && Phase(loops[0]) && IsMarked(loops[0], name) && k <= |envs|
    requires forall i | 0 <= i < k ::
               && InProgress(loops[i])
               && !Removes(envs[i], name) && !GoesOnBattery(loops[i], envs[i]) && !Completes(loops[i], envs[i])
    ensures IsMarked(loops[k], name)
  {
    if k > 0 {
      MarksSurvive(loops, envs, name, k - 1);
      RunPhase(loops, envs, k - 1);
      assert IsPoll(loops[k - 1], envs[k - 1], loops[k]);
      MarkedPoll(loops[k - 1], envs[k - 1], name);
    }
  }

  // ---------- Wake packets ----------

  predicate Sends(l: Loop, env: Env, name: string) { WakeSent(name) in Poll(l, env).events }

  /** The last packet to the client was not sent before the given time. */
  ghost predicate LastSentSince(t: State, name: string, since: int) {
    name in t.image.clients && t.image.clients[name].wolSentAt >= since
  }

  lemma {:induction false} PassSends(clients: seq<Settings.Client>, w: Waking, delay: int, env: Env, name: string,
      since: int)
    requires LastSentSince(w.tracker, name, since) && since <= env.now
    ensures var v := WakeAll(clients, w, delay, env);
            && LastSentSince(v.tracker, name, since)
            && (WakeSent(name) in v.events && WakeSent(name) !in w.events ==>
                  env.now - since >= delay && v.tracker.image.clients[name].wolSentAt == env.now)
    ensures WakeSent(name) in w.events && w.tracker.image.clients[name].wolSentAt == env.now ==>
              WakeAll(clients, w, delay, env).tracker.image.clients[name].wolSentAt == env.now
  {
    if clients != [] {
      PassSends(clients[1..], WakeOne(clients[0], w, delay, env), delay, env, name, since);
    }
  }

  /** The poll forgets what was sent: it completes a restoration, or it is quiet. */
  predicate Resets(l: Loop, env: Env) { Completes(l, env) || IsQuiet(l, env) }

  lemma PreparedSends(l: Loop, env: Env, name: string, since: int)
    requires LastSentSince(l.tracker, name, since) && !Removes(env, name)
    ensures LastSentSince(Prepared(l, env).tracker, name, since)
  {
    var r := Reloaded(l, env.reload);
    assert LastSentSince(r.tracker, name, since);
    ProbeFrame(r.config.clients, r.tracker, env.reachable);
  }

  lemma BatterySends(p: Loop, env: Env, percent: int, name: string, since: int)
    requires LastSentSince(p.tracker, name, since) && Consistent(p.tracker.image.meta) && IsUuid(env.freshId)
    ensures LastSentSince(BatteryPoll(p, env, percent).loop.tracker, name, since)
  {
    var marked := if p.onBattery then p.tracker else MarkAllOnline(p.tracker);
    assert LastSentSince(marked, name, since);
    var begun := BeginOutage(marked, percent, env.freshId);
    OutageFrame(marked, percent, env.freshId);
    assert LastSentSince(begun, name, since);
    DeliverFrame(p.config.clients, begun, begun.image.meta.outageId.value, env.replies, percent, RetryDelay(p.config),
        env.now);
  }

  lemma RestoreSends(p: Loop, env: Env, percent: int, name: string, since: int)
    requires LastSentSince(p.tracker, name, since) && since <= env.now
    ensures var q := RestorePoll(p, env, percent);
            && (WakeSent(name) in q.events ==> MayWake(p, env, percent) && env.now - since >= p.config.reattemptDelay)
            && (AllBackOnline !in q.events ==> LastSentSince(q.loop.tracker, name, since))
            && (AllBackOnline !in q.events && WakeSent(name) in q.events ==>
                  LastSentSince(q.loop.tracker, name, env.now))
  {
    PassSends(p.config.clients, Waking(p.tracker, p.down, p.up, p.failures, []), p.config.reattemptDelay, env, name,
        since);
  }

  /** What one poll sends to a client, and what it remembers of it. */
  lemma PollSends(l: Loop, env: Env, name: string, since: int)
    requires Phase(l) && IsUuid(env.freshId)
    requires LastSentSince(Prepared(l, env).tracker, name, since) && since <= env.now
    ensures Sends(l, env, name) ==> Wakes(l, env) && env.now - since >= Prepared(l, env).config.reattemptDelay
    ensures !Resets(l, env) ==> LastSentSince(Poll(l, env).loop.tracker, name, since)
    ensures !Resets(l, env) && Sends(l, env, name) ==> LastSentSince(Poll(l, env).loop.tracker, name, env.now)
  {
    var p := Prepared(l, env);
    PreparedPhase(l, env);
    match env.reading
    case Incomplete =>
    case OnBattery(percent) => BatterySends(p, env, percent, name, since);
    case OnLine(percent) => RestoreSends(p, env, percent, name, since);
  }

  lemma {:induction false} PassSendsListed(clients: seq<Settings.Client>, w: Waking, delay: int, env: Env, name: string)
    requires WakeSent(name) in WakeAll(clients, w, delay, env).events && WakeSent(name) !in w.events
    ensures name in NamesOf(clients)
  {
    var v := WakeOne(clients[0], w, delay, env);
    if WakeSent(name) !in v.events {
      PassSendsListed(clients[1..], v, delay, env, name);
      var i :| 0 <= i < |clients[1..]| && clients[1..][i].name == name;
      assert clients[i + 1].name == name;
    }
  }

  lemma SendsKnown(l: Loop, env: Env, name: string)
    requires Phase(l) && Sends(l, env, name)
    ensures name in Prepared(l, env).tracker.image.clients
  {
    var p := Prepared(l, env);
    PreparedPhase(l, env);
    PassSendsListed(p.config.clients, Waking(p.tracker, p.down, p.up, p.failures, []), p.config.reattemptDelay, env,
        name);
  }

  ghost predicate ClockAdvances(envs: seq<Env>) {
    forall i, j | 0 <= i <= j < |envs| :: envs[i].now <= envs[j].now
  }

  lemma {:induction false} SentSince(loops: seq<Loop>, envs: seq<Env>, name: string, i: nat, k: nat)
    requires IsRun(loops, envs) && Phase(loops[0]) && ClockAdvances(envs) && i < k <= |envs|
    requires Sends(loops[i], envs[i], name)
    requires forall m | i <= m < k :: !Resets(loops[m], envs[m])
    requires forall m | i < m < k :: !Removes(envs[m], name)
    ensures LastSentSince(loops[k].tracker, name, envs[i].now)
    decreases k
  {
    RunPhase(loops, envs, k - 1);
    assert IsPoll(loops[k - 1], envs[k - 1], loops[k]);
    if k == i + 1 {
      SendsKnown(loops[i], envs[i], name);
      var sentAt := Prepared(loops[i], envs[i]).tracker.image.clients[name].wolSentAt;
      PollSends(loops[i], envs[i], name, if sentAt <= envs[i].now then sentAt else envs[i].now);
    } else {
      SentSince(loops, envs, name, i, k - 1);
      PreparedSends(loops[k - 1], envs[k - 1], name, envs[i].now);
      PollSends(loops[k - 1], envs[k - 1], name, envs[i].now);
    }
  }

  /** Two packets to one client, with neither a reset nor its removal in between, keep the reattempt delay apart. */
  lemma PacketsKeepDistance(loops: seq<Loop>, envs: seq<Env>, name: string, i: nat, j: nat)
    requires IsRun(loops, envs) && Phase(loops[0]) && ClockAdvances(envs) && i < j < |envs|
    requires Sends(loops[i], envs[i], name) && Sends(loops[j], envs[j], name)
    requires forall m | i <= m < j :: !Resets(loops[m], envs[m])
    requires forall m | i < m <= j :: !Removes(envs[m], name)
    ensures envs[j].now - envs[i].now >= Prepared(loops[j], envs[j]).config.reattemptDelay
  {
    SentSince(loops, envs, name, i, j);
    RunPhase(loops, envs, j);
    assert IsPoll(loops[j], envs[j], loops[j + 1]);
    PreparedSends(loops[j], envs[j], name, envs[i].now);
    PollSends(loops[j], envs[j], name, envs[i].now);
  }

  /** A restoration that follows a battery reading began no earlier than that reading. */
  ghost predicate BegunSince(l: Loop, since: int) {
    l.start.Some? ==> l.start.value >= since
  }

  lemma BegunPoll(l: Loop, env: Env, since: int)
    requires Phase(l) && since <= env.now
    requires BegunSince(l, since) || env.reading.OnBattery?
    ensures BegunSince(Poll(l, env).loop, since)
  {
    hide Prepared, WakePass, Save, Reset, ProcessOnBattery, BeginOutage, MarkAllOnline;
    PreparedPhase(l, env);
  }

  lemma {:induction false} RestorationAfterBattery(loops: seq<Loop>, envs: seq<Env>, i: nat, k: nat)
    requires IsRun(loops, envs) && Phase(loops[0]) && ClockAdvances(envs) && i < k <= |envs|
    requires envs[i].reading.OnBattery?
    ensures BegunSince(loops[k], envs[i].now)
    decreases k
  {
    RunPhase(loops, envs, k - 1);
    assert IsPoll(loops[k - 1], envs[k - 1], loops[k]);
    if i + 1 < k {
      RestorationAfterBattery(loops, envs, i, k - 1);
    }
    BegunPoll(loops[k - 1], envs[k - 1], envs[i].now);
  }

  lemma PacketMeansPass(l: Loop, env: Env, name: string)
    requires Phase(l) && Sends(l, env, name)
    ensures Wakes(l, env)
  {
    PreparedPhase(l, env);
  }

  /** Every wake packet goes out with enough charge and the restore delay after every earlier battery reading. */
  lemma PacketsWaitForDelay(loops: seq<Loop>, envs: seq<Env>, name: string, i: nat, j: nat)
    requires IsRun(loops, envs) && Phase(loops[0]) && ClockAdvances(envs) && i < j < |envs|
    requires envs[i].reading.OnBattery? && Sends(loops[j], envs[j], name)
    ensures envs[j].reading.OnLine? && envs[j].reading.percent >= Prepared(loops[j], envs[j]).config.minBatteryPercent
    ensures envs[j].now - envs[i].now >= Prepared(loops[j], envs[j]).config.restoreDelay
  {
    RunPhase(loops, envs, j);
    PreparedPhase(loops[j], envs[j]);
    PacketMeansPass(loops[j], envs[j], name);
    RestorationAfterBattery(loops, envs, i, j);
  }
}
