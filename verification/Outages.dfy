/** When one outage ends and the next one begins: how long an outage identifier lives. */
module Outages {
  import opened Wrappers
  import opened CommandIds
  import opened Settings
  import opened Tracker
  import opened Coordinator
  import opened Monitor
  import opened Frames
  import opened Runs
  import opened Restorations
  import opened Deliveries
  import opened Retries
  import opened OneClient

  function OutageId(l: Loop): Option<string> { l.tracker.image.meta.outageId }

  /** What one poll makes of the outage identifier. */
  lemma PollOutageId(l: Loop, env: Env)
    requires Phase(l) && env.now > 0 && IsUuid(env.freshId)
    ensures OutageId(Poll(l, env).loop) ==
            if Resets(l, env) then None
            else if env.reading.OnBattery? && OutageId(l).None? then Some(env.freshId)
            else OutageId(l)
  {
    PreparedPhase(l, env);
    CompletesIff(l, env);
    ReactOutageId(Prepared(l, env), env);
  }

  lemma ReactOutageId(p: Loop, env: Env)
    requires Phase(p) && IsUuid(env.freshId)
    ensures OutageId(React(p, env).loop) ==
            match env.reading
            case Incomplete => OutageId(p)
            case OnBattery(_) => if OutageId(p).None? then Some(env.freshId) else OutageId(p)
            case OnLine(percent) =>
              if InProgress(p) && !(MayWake(p, env, percent) && WakePass(p, env).down == {}) then OutageId(p) else None
  {
    hide WakeAll, DeliverAll;
    match env.reading
    case Incomplete =>
    case OnBattery(percent) =>
      var marked := if p.onBattery then p.tracker else MarkAllOnline(p.tracker);
      MarkFrame(p.tracker);
      var begun := BeginOutage(marked, percent, env.freshId);
      OutageFrame(marked, percent, env.freshId);
      DeliverFrame(p.config.clients, begun, begun.image.meta.outageId.value, env.replies, percent,
          RetryDelay(p.config), env.now);
    case OnLine(percent) =>
      WakeFrame(p.config.clients, Waking(p.tracker, p.down, p.up, p.failures, []), p.config.reattemptDelay, env);
  }

  ghost predicate NoReset(loops: seq<Loop>, envs: seq<Env>, i: nat, k: nat)
    requires k <= |envs| < |loops|
  {
    forall m | i <= m < k :: !Resets(loops[m], envs[m])
  }

  /** The random identifiers drawn from poll i up to poll k are all different from this one. */
  predicate DrawsOther(envs: seq<Env>, id: string, i: nat, k: nat)
    requires k <= |envs|
  {
    forall m | i <= m < k :: envs[m].freshId != id
  }

  /** An outage identifier lasts exactly until a restoration completes or a quiet poll comes. */
  lemma {:induction false} OutageKeptExactly(loops: seq<Loop>, envs: seq<Env>, id: string, i: nat, k: nat)
    requires IsRun(loops, envs) && Phase(loops[0]) && i <= k <= |envs|
    requires OutageId(loops[i]) == Some(id) && DrawsOther(envs, id, i, k)
    ensures OutageId(loops[k]) == Some(id) <==> NoReset(loops, envs, i, k)
    decreases k
  {
    if i < k {
      OutageKeptExactly(loops, envs, id, i, k - 1);
      RunPhase(loops, envs, k - 1);
      assert IsPoll(loops[k - 1], envs[k - 1], loops[k]);
      hide Poll, Resets, Phase;
      PollOutageId(loops[k - 1], envs[k - 1]);
      assert NoReset(loops, envs, i, k) <==> NoReset(loops, envs, i, k - 1) && !Resets(loops[k - 1], envs[k - 1]);
    }
  }

  lemma OnBatteryHasOutage(loops: seq<Loop>, envs: seq<Env>, i: nat)
    requires IsRun(loops, envs) && Phase(loops[0]) && i < |envs| && envs[i].reading.OnBattery?
    ensures OutageId(loops[i + 1]).Some? && !Resets(loops[i], envs[i])
    ensures OutageId(loops[i + 1]) == if OutageId(loops[i]).Some? then OutageId(loops[i]) else Some(envs[i].freshId)
  {
    RunPhase(loops, envs, i);
    assert IsPoll(loops[i], envs[i], loops[i + 1]);
    CompletesIff(loops[i], envs[i]);
    PollOutageId(loops[i], envs[i]);
  }

  /**
   A later loss of power is a new outage with a new identifier exactly if a restoration completed
   or a quiet poll came in between; a restoration that timed out is neither.
   */
  lemma NewOutageExactly(loops: seq<Loop>, envs: seq<Env>, i: nat, j: nat)
    requires IsRun(loops, envs) && Phase(loops[0]) && i < j < |envs|
    requires GoesOnBattery(loops[i], envs[i]) && GoesOnBattery(loops[j], envs[j])
    requires OutageId(loops[i + 1]).Some? ==> DrawsOther(envs, OutageId(loops[i + 1]).value, i + 1, j + 1)
    ensures OutageId(loops[i + 1]).Some? && OutageId(loops[j + 1]).Some?
    ensures OutageId(loops[j + 1]) != OutageId(loops[i + 1]) <==> !NoReset(loops, envs, i + 1, j)
  {
    OnBatteryHasOutage(loops, envs, i);
    OnBatteryHasOutage(loops, envs, j);
    var id := OutageId(loops[i + 1]).value;
    OutageKeptExactly(loops, envs, id, i + 1, j + 1);
    assert NoReset(loops, envs, i + 1, j + 1) <==> NoReset(loops, envs, i + 1, j);
  }

  /** Between two successive losses of power the identifier is kept, or there is none. */
  lemma {:induction false} KeptOrNone(loops: seq<Loop>, envs: seq<Env>, i: nat, k: nat)
    requires IsRun(loops, envs) && Phase(loops[0]) && i <= k <= |envs| && OutageId(loops[i]).Some?
    requires forall m | i <= m < k :: !GoesOnBattery(loops[m], envs[m])
    ensures OutageId(loops[k]) == if NoReset(loops, envs, i, k) then OutageId(loops[i]) else None
    decreases k
  {
    if i < k {
      KeptOrNone(loops, envs, i, k - 1);
      RunPhase(loops, envs, k - 1);
      assert IsPoll(loops[k - 1], envs[k - 1], loops[k]);
      hide Poll, Resets;
      PollOutageId(loops[k - 1], envs[k - 1]);
      assert NoReset(loops, envs, i, k) <==> NoReset(loops, envs, i, k - 1) && !Resets(loops[k - 1], envs[k - 1]);
    }
  }

  /** The records a loss of power starts from: new ones without an outage on record, the old ones with one. */
  lemma RecordsAtLoss(l: Loop, env: Env, name: string)
    requires Phase(l) && IsUuid(env.freshId) && env.reading.OnBattery? && name in Prepared(l, env).tracker.image.clients
    ensures var s, q := ShutdownOf(Prepared(l, env).tracker, name), Poll(l, env);
            var u := ShutdownOf(q.loop.tracker, name);
            && (OutageId(l).Some? && s.acknowledged ==> u == s && forall d | d in q.log :: d.attempt.name != name)
            && (OutageId(l).None? ==> u.deliverySequence == 0 && (u.acknowledged <==> AcceptedBy(q.log, name)))
  {
    hide Poll, Prepared;
    PreparedPhase(l, env);
    PollDelivered(l, env, name);
  }

  /**
   What the next loss of power means for a client: after a completed restoration or a quiet poll
   nothing is left on its record but what this poll does; otherwise, after a restoration that
   timed out, an acknowledged client keeps its record and is not asked again.
   */
  lemma RearmedExactly(loops: seq<Loop>, envs: seq<Env>, i: nat, j: nat, name: string)
    requires IsRun(loops, envs) && Phase(loops[0]) && i < j < |envs|
    requires GoesOnBattery(loops[i], envs[i]) && GoesOnBattery(loops[j], envs[j])
    requires forall m | i < m < j :: !GoesOnBattery(loops[m], envs[m])
    requires name in Prepared(loops[j], envs[j]).tracker.image.clients
    ensures var s, q := ShutdownOf(Prepared(loops[j], envs[j]).tracker, name), Poll(loops[j], envs[j]);
            var u := ShutdownOf(q.loop.tracker, name);
            && (NoReset(loops, envs, i + 1, j) && s.acknowledged ==>
                  u == s && forall d | d in q.log :: d.attempt.name != name)
            && (!NoReset(loops, envs, i + 1, j) ==>
                  u.deliverySequence == 0 && (u.acknowledged <==> AcceptedBy(q.log, name)))
  {
    OnBatteryHasOutage(loops, envs, i);
    KeptOrNone(loops, envs, i + 1, j);
    RunPhase(loops, envs, j);
    assert IsPoll(loops[j], envs[j], loops[j + 1]);
    hide Poll, Prepared, Resets, Phase;
    RecordsAtLoss(loops[j], envs[j], name);
  }

  // ---------- A second outage right after a timeout ----------

  const FIRST := "00000000-0000-4000-8000-000000000001"
  const SECOND := "00000000-0000-4000-8000-000000000002"

  function Asked(name: string): Env { Moment(name, 5, OnBattery(0), true, Accepted, FIRST, true) }

  function PowerBack(name: string, now: int): Env { Moment(name, now, OnLine(50), false, Accepted, FIRST, true) }

  /**
   On battery a client accepts; power returns, the client stays down and the restoration times
   out; power fails again. The second outage keeps the identifier of the first, and the client,
   acknowledged in the first, is not asked.
   */
  lemma TimeoutKeepsOutage(name: string)
    ensures var l0 := Launched(ConfigOf(name), None);
            var e0, e3 := Asked(name), Moment(name, 12, OnBattery(0), false, Accepted, SECOND, true);
            var e1, e2 := PowerBack(name, 10), PowerBack(name, 11);
            var l1 := Poll(l0, e0).loop;
            var l2 := Poll(l1, e1).loop;
            var l3 := Poll(l2, e2).loop;
            && GoesOnBattery(l0, e0) && OutageId(l1) == Some(FIRST) && |Poll(l0, e0).log| == 1
            && l2.restoration && !InProgress(l3)
            && GoesOnBattery(l3, e3) && OutageId(Poll(l3, e3).loop) == Some(FIRST) && Poll(l3, e3).log == []
            && ShutdownOf(Poll(l3, e3).loop.tracker, name).acknowledged
  {
    hide Poll, Phase, Launched;
    var l0 := FirstLaunch(name);
    var e0, e3 := Asked(name), Moment(name, 12, OnBattery(0), false, Accepted, SECOND, true);
    var e1, e2 := PowerBack(name, 10), PowerBack(name, 11);
    BatteryPollOfOne(l0, name, 5, true, Accepted, FIRST, true);
    var l1 := Poll(l0, e0).loop;
    OfflinePollOfOne(l1, name, 10, FIRST, true);
    var l2 := Poll(l1, e1).loop;
    OfflinePollOfOne(l2, name, 11, FIRST, true);
    var l3 := Poll(l2, e2).loop;
    BatteryPollOfOne(l3, name, 12, false, Accepted, SECOND, true);
  }

  lemma FirstLaunch(name: string) returns (l: Loop)
    ensures l == Launched(ConfigOf(name), None) && Phase(l) && !InProgress(l) && OutageId(l).None?
    ensures l.tracker.image.clients == map[name := NEW_CLIENT]
  {
    l := Launched(ConfigOf(name), None);
    NamesOfOne(name);
  }
}
