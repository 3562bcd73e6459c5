/**
 Shutdown delivery across an outage: what the controller's records say about everything it
 ever sent, over any run of polls, restarts and crashes.
 */
module Deliveries {
  import opened Wrappers
  import opened CommandIds
  import opened Settings
  import opened Tracker
  import opened Coordinator
  import opened Monitor
  import opened Frames
  import opened Runs

  // ---------- Records against history ----------

  /** Which past deliveries of the current outage the records are held to account for. */
  datatype Extent = NoDelivery | Notified | Every

  predicate Covers(extent: Extent, d: Delivery) {
    extent == Every || (extent == Notified && d.notice != NoNotice)
  }

  /** A recorded identifier is the one of the current outage, client and delivery sequence. */
  predicate Honest(outage: Option<string>, name: string, s: Shutdown) {
    outage.Some? && s.commandId.Some? ==> s.commandId.value == CommandId(outage.value, name, s.deliverySequence)
  }

  /** The client's record accounts for a past delivery to it in this outage. */
  predicate Accounts(s: Shutdown, d: Delivery, extent: Extent) {
    || d.attempt.sequence < s.deliverySequence
    || (&& d.attempt.sequence == s.deliverySequence
        && (extent == Every ==> s.commandId.Some?)
        && (d.notice == FailureNotice ==> s.failureNotified || s.acknowledged)
        && (d.notice == AcceptedNotice ==> s.acknowledged))
  }

  ghost predicate AccountsForAll(outage: string, name: string, s: Shutdown, history: seq<Delivery>, extent: Extent) {
    forall d | d in history && d.attempt.outage == outage && d.attempt.name == name && Covers(extent, d) ::
      Accounts(s, d, extent)
  }

  /** The delivery was accepted and went to this client under this identifier. */
  predicate Backs(d: Delivery, name: string, commandId: string) {
    d.reply == Accepted && d.attempt.name == name && d.attempt.commandId == commandId
  }

  /** A client shown as acknowledged did accept the identifier on record. */
  ghost predicate AckBacked(name: string, s: Shutdown, history: seq<Delivery>) {
    s.acknowledged ==> s.commandId.Some? && exists d :: d in history && Backs(d, name, s.commandId.value)
  }

  ghost predicate RecordFits(outage: Option<string>, name: string, s: Shutdown, history: seq<Delivery>,
      extent: Extent) {
    && Honest(outage, name, s)
    && (outage.Some? ==> AccountsForAll(outage.value, name, s, history, extent))
    && AckBacked(name, s, history)
    && (s.offlineAfterAck ==> s.acknowledged)
  }

  ghost predicate Fits(image: Image, history: seq<Delivery>, extent: Extent) {
    forall name | name in image.clients ::
      RecordFits(image.meta.outageId, name, image.clients[name].shutdown, history, extent)
  }

  /** What was sent carried the identifier of its outage, client and sequence. */
  ghost predicate WellNamed(history: seq<Delivery>) {
    forall d | d in history ::
      IsUuid(d.attempt.outage) && d.attempt.commandId == CommandId(d.attempt.outage, d.attempt.name, d.attempt.sequence)
  }

  /** No two notifications of the same kind concern the same identifier. */
  ghost predicate NoticesOnce(history: seq<Delivery>) {
    forall i, j | 0 <= i < j < |history| && history[i].notice == history[j].notice != NoNotice ::
      history[i].attempt.commandId != history[j].attempt.commandId
  }

  ghost predicate Sound(image: Image, history: seq<Delivery>, extent: Extent) {
    Fits(image, history, extent) && WellNamed(history) && (extent != NoDelivery ==> NoticesOnce(history))
  }

  // ---------- Freshness ----------

  /** A new random identifier was not the identifier of an outage in which something was sent. */
  ghost predicate IsFresh(id: string, history: seq<Delivery>) {
    forall d | d in history :: d.attempt.outage != id
  }

  /** No client that was sent something in this outage is created anew. */
  ghost predicate NoRecreation(image: Image, names: set<string>, history: seq<Delivery>) {
    forall name, d | name in names && name !in image.clients && d in history && d.attempt.name == name ::
      Some(d.attempt.outage) != image.meta.outageId
  }

  /** A delivery sequence with nothing on record yet uses an identifier that was never sent before. */
  lemma NewSequenceNewId(image: Image, history: seq<Delivery>, name: string)
    requires Sound(image, history, Every) && image.meta.outageId.Some? && IsUuid(image.meta.outageId.value)
    requires name in image.clients && image.clients[name].shutdown.commandId == None
    ensures var id := CommandId(image.meta.outageId.value, name, image.clients[name].shutdown.deliverySequence);
            forall d | d in history :: d.attempt.commandId != id
  {
    var outage := image.meta.outageId.value;
    var s := image.clients[name].shutdown;
    assert RecordFits(image.meta.outageId, name, s, history, Every);
    forall d | d in history
      ensures d.attempt.commandId != CommandId(outage, name, s.deliverySequence)
    {
      assert d.attempt.outage == outage && d.attempt.name == name ==> Accounts(s, d, Every);
      if d.attempt.commandId == CommandId(outage, name, s.deliverySequence) {
        CommandIdInjective(d.attempt.outage, d.attempt.name, d.attempt.sequence, outage, name, s.deliverySequence);
      }
    }
  }

  // ---------- What each operation keeps ----------

  lemma SameRecordsFit(a: Image, b: Image, history: seq<Delivery>, extent: Extent)
    requires Fits(a, history, extent) && b.clients.Keys <= a.clients.Keys
    requires b.meta.outageId == a.meta.outageId || b.meta.outageId.None?
    requires forall name | name in b.clients :: b.clients[name].shutdown == a.clients[name].shutdown
    ensures Fits(b, history, extent)
  {
    forall name | name in b.clients
      ensures RecordFits(b.meta.outageId, name, b.clients[name].shutdown, history, extent)
    {
      assert RecordFits(a.meta.outageId, name, a.clients[name].shutdown, history, extent);
    }
  }

  lemma NewRecordFits(outage: Option<string>, name: string, history: seq<Delivery>, extent: Extent)
    requires outage.Some? && extent != NoDelivery ==>
               forall d | d in history && d.attempt.name == name :: d.attempt.outage != outage.value
    ensures RecordFits(outage, name, NEW_SHUTDOWN, history, extent)
  {}

  lemma SyncFits(t: State, names: set<string>, history: seq<Delivery>, extent: Extent)
    requires Fits(t.image, history, extent)
    requires extent != NoDelivery ==> NoRecreation(t.image, names, history)
    ensures Fits(SyncClients(t, names).image, history, extent)
  {
    var b := SyncClients(t, names).image;
    forall name | name in b.clients
      ensures RecordFits(b.meta.outageId, name, b.clients[name].shutdown, history, extent)
    {
      if name in t.image.clients {
        assert RecordFits(t.image.meta.outageId, name, t.image.clients[name].shutdown, history, extent);
      } else {
        NewRecordFits(b.meta.outageId, name, history, extent);
      }
    }
  }

  lemma ObservedFits(outage: Option<string>, name: string, c: Tracker.Client, online: bool, history: seq<Delivery>,
                     extent: Extent)
    requires RecordFits(outage, name, c.shutdown, history, extent)
    ensures RecordFits(outage, name, Observed(c, online).shutdown, history, extent)
  {
    var s := Observed(c, online).shutdown;
    if outage.Some? {
      forall d | d in history && d.attempt.outage == outage.value && d.attempt.name == name && Covers(extent, d)
        ensures Accounts(s, d, extent)
      {
        assert Accounts(c.shutdown, d, extent);
      }
    }
  }

  lemma UpdateFits(t: State, name: string, online: bool, history: seq<Delivery>, extent: Extent)
    requires Fits(t.image, history, extent)
    ensures Fits(Update(t, name, online).image, history, extent)
  {
    var b := Update(t, name, online).image;
    forall other | other in b.clients
      ensures RecordFits(b.meta.outageId, other, b.clients[other].shutdown, history, extent)
    {
      assert RecordFits(t.image.meta.outageId, other, t.image.clients[other].shutdown, history, extent);
      if other == name {
        ObservedFits(t.image.meta.outageId, name, t.image.clients[name], online, history, extent);
      }
    }
  }

  lemma {:induction false} ProbeFits(clients: seq<Settings.Client>, t: State, reachable: set<string>,
                                     history: seq<Delivery>, extent: Extent)
    requires Fits(t.image, history, extent)
    ensures Fits(ProbeAll(clients, t, reachable).image, history, extent)
  {
    if clients != [] {
      if clients[0].enabled {
        UpdateFits(t, clients[0].name, clients[0].name in reachable, history, extent);
      }
      var u := if clients[0].enabled then Update(t, clients[0].name, clients[0].name in reachable) else t;
      ProbeFits(clients[1..], u, reachable, history, extent);
    }
  }

  lemma OutageFits(t: State, percent: int, freshId: string, history: seq<Delivery>, extent: Extent)
    requires Fits(t.image, history, extent) && Consistent(t.image.meta)
    requires extent != NoDelivery && !t.image.meta.onBattery ==> IsFresh(freshId, history)
    ensures Fits(BeginOutage(t, percent, freshId).image, history, extent)
  {
    var b := BeginOutage(t, percent, freshId).image;
    if t.image.meta.onBattery {
      SameRecordsFit(t.image, b, history, extent);
    } else {
      forall name | name in b.clients
        ensures RecordFits(b.meta.outageId, name, b.clients[name].shutdown, history, extent)
      {
        NewRecordFits(b.meta.outageId, name, history, extent);
      }
    }
  }

  /** Records that fit what was sent still fit, but for accounts, when more was sent. */
  lemma MoreHistoryFits(image: Image, history: seq<Delivery>, more: seq<Delivery>)
    requires Fits(image, history, NoDelivery)
    ensures Fits(image, history + more, NoDelivery)
  {
    forall name | name in image.clients
      ensures RecordFits(image.meta.outageId, name, image.clients[name].shutdown, history + more, NoDelivery)
    {
      var s := image.clients[name].shutdown;
      assert RecordFits(image.meta.outageId, name, s, history, NoDelivery);
      if s.acknowledged {
        var d :| d in history && Backs(d, name, s.commandId.value);
        assert d in history + more;
      }
    }
  }

  lemma LessExtentFits(image: Image, history: seq<Delivery>, extent: Extent)
    requires Fits(image, history, extent)
    ensures Fits(image, history, NoDelivery)
  {
    forall name | name in image.clients
      ensures RecordFits(image.meta.outageId, name, image.clients[name].shutdown, history, NoDelivery)
    {
      assert RecordFits(image.meta.outageId, name, image.clients[name].shutdown, history, extent);
    }
  }

  // ---------- One delivery ----------

  lemma DeliveryId(c: Settings.Client, t: State, outage: string, history: seq<Delivery>, extent: Extent)
    requires Fits(t.image, history, extent) && t.image.meta.outageId == Some(outage)
    requires IsPaired(c) && c.name in t.image.clients
    ensures var s := t.image.clients[c.name].shutdown;
            NextCommandId(t, outage, c.name) == CommandId(outage, c.name, s.deliverySequence)
  {
    assert RecordFits(t.image.meta.outageId, c.name, t.image.clients[c.name].shutdown, history, extent);
  }

  lemma NoticeIsFirst(s: Shutdown, outage: string, name: string, history: seq<Delivery>, kind: Notice, extent: Extent)
    requires WellNamed(history) && IsUuid(outage)
    requires AccountsForAll(outage, name, s, history, extent) && extent != NoDelivery
    requires !s.acknowledged && (kind == AcceptedNotice || (kind == FailureNotice && !s.failureNotified))
    ensures forall d | d in history && d.notice == kind ::
            d.attempt.commandId != CommandId(outage, name, s.deliverySequence)
  {
    forall d | d in history && d.notice == kind
      ensures d.attempt.commandId != CommandId(outage, name, s.deliverySequence)
    {
      assert d.attempt.outage == outage && d.attempt.name == name ==> Accounts(s, d, extent);
      if d.attempt.commandId == CommandId(outage, name, s.deliverySequence) {
        CommandIdInjective(d.attempt.outage, d.attempt.name, d.attempt.sequence, outage, name, s.deliverySequence);
      }
    }
  }

  /** A delivery, recorded, keeps everything. */
  lemma DeliverSound(c: Settings.Client, t: State, outage: string, reply: Reply, percent: int, now: int,
                     history: seq<Delivery>, extent: Extent)
    requires Sound(t.image, history, extent) && t.image.meta.outageId == Some(outage) && IsUuid(outage)
    requires IsPaired(c) && c.name in t.image.clients && !t.image.clients[c.name].shutdown.acknowledged
    ensures var p := DeliverTo(c, t, outage, reply, percent, now); Sound(p.tracker.image, history + p.log, extent)
  {
    var p := DeliverTo(c, t, outage, reply, percent, now);
    DeliverEffect(c, t, outage, reply, percent, now);
    DeliveryId(c, t, outage, history, extent);
    var d := p.log[0];
    assert p.log == [d];
    var previous := t.image.clients[c.name].shutdown;
    assert RecordFits(Some(outage), c.name, previous, history, extent);
    if d.notice != NoNotice && extent != NoDelivery {
      NoticeIsFirst(previous, outage, c.name, history, d.notice, extent);
    }
    forall name | name in p.tracker.image.clients
      ensures RecordFits(Some(outage), name, p.tracker.image.clients[name].shutdown, history + p.log, extent)
    {
      var before, after := t.image.clients[name].shutdown, p.tracker.image.clients[name].shutdown;
      assert RecordFits(Some(outage), name, before, history, extent);
      RecordGrows(outage, name, before, after, history, d, extent);
    }
  }

  /** A record that takes in one more delivery, to its own client or another. */
  lemma RecordGrows(outage: string, name: string, before: Shutdown, after: Shutdown, history: seq<Delivery>,
                    d: Delivery, extent: Extent)
    requires RecordFits(Some(outage), name, before, history, extent)
    requires d.attempt.outage == outage
    requires d.attempt.name != name ==> after == before
    requires d.attempt.name == name ==>
               && after == Recorded(before, d.attempt.commandId, d.reply, d.attempt.percent, d.attempt.at)
               && d.attempt.sequence == before.deliverySequence && !before.acknowledged
               && d.attempt.commandId == CommandId(outage, name, before.deliverySequence)
               && d.notice == (if d.reply == Accepted then AcceptedNotice
                               else if before.failureNotified then NoNotice else FailureNotice)
    ensures RecordFits(Some(outage), name, after, history + [d], extent)
  {
    forall e | e in history + [d] && e.attempt.outage == outage && e.attempt.name == name && Covers(extent, e)
      ensures Accounts(after, e, extent)
    {
      if e in history {
        assert Accounts(before, e, extent);
      }
    }
    assert d in history + [d];
    if before.acknowledged {
      var e :| e in history && Backs(e, name, before.commandId.value);
      assert e in history + [d];
    }
    if d.attempt.name == name && d.reply == Accepted {
      assert Backs(d, name, after.commandId.value);
    }
  }

  // ---------- One poll ----------

  lemma {:induction false} DeliverAllSound(clients: seq<Settings.Client>, t: State, outage: string,
      replies: map<string, Reply>, percent: int, delay: int, now: int, history: seq<Delivery>, extent: Extent)
    requires Sound(t.image, history, extent) && t.image.meta.outageId == Some(outage) && IsUuid(outage)
    requires NamesOf(clients) <= t.image.clients.Keys
    ensures var p := DeliverAll(clients, t, outage, replies, percent, delay, now);
            Sound(p.tracker.image, history + p.log, extent)
  {
    hide Fits, WellNamed, NoticesOnce, DeliverTo;
    if clients == [] {
      assert history + [] == history;
    } else {
      var first := DeliverIfDue(clients[0], t, outage, replies, percent, delay, now);
      assert Sound(first.tracker.image, history + first.log, extent) && first.tracker.image.meta == t.image.meta
             && NamesOf(clients[1..]) <= first.tracker.image.clients.Keys by {
        TailNames(clients);
        assert clients[0].name in t.image.clients;
        if IsDue(clients[0], t, percent, delay, now) {
          var reply := ReplyOf(replies, clients[0].name);
          DeliverSound(clients[0], t, outage, reply, percent, now, history, extent);
          DeliverEffect(clients[0], t, outage, reply, percent, now);
        } else {
          assert history + [] == history;
        }
      }
      DeliverAllSound(clients[1..], first.tracker, outage, replies, percent, delay, now, history + first.log, extent);
      var rest := DeliverAll(clients[1..], first.tracker, outage, replies, percent, delay, now);
      assert history + (first.log + rest.log) == history + first.log + rest.log;
    }
  }

  lemma TailNames(clients: seq<Settings.Client>)
    requires clients != []
    ensures NamesOf(clients[1..]) <= NamesOf(clients)
  {
    assert forall i | 0 <= i < |clients[1..]| :: clients[1..][i] == clients[i + 1];
  }

  /** A poll that forgets nothing: a new outage gets a new identifier, and no client of this outage is created anew. */
  ghost predicate Spares(l: Loop, env: Env, history: seq<Delivery>) {
    && (env.reading.OnBattery? && !l.tracker.image.meta.onBattery ==> IsFresh(env.freshId, history))
    && (env.reload.Some? ==> NoRecreation(l.tracker.image, NamesOf(env.reload.value.clients), history))
  }

  lemma PreparedFits(l: Loop, env: Env, history: seq<Delivery>, extent: Extent)
    requires Fits(l.tracker.image, history, extent) && (extent != NoDelivery ==> Spares(l, env, history))
    ensures Fits(Prepared(l, env).tracker.image, history, extent)
  {
    if env.reload.Some? {
      SyncFits(l.tracker, NamesOf(env.reload.value.clients), history, extent);
    }
    var r := Reloaded(l, env.reload);
    ProbeFits(r.config.clients, r.tracker, env.reachable, history, extent);
  }

  lemma BatterySound(p: Loop, env: Env, percent: int, history: seq<Delivery>, extent: Extent)
    requires Phase(p) && Sound(p.tracker.image, history, extent) && IsUuid(env.freshId)
    requires extent != NoDelivery && !p.tracker.image.meta.onBattery ==> IsFresh(env.freshId, history)
    ensures var q := BatteryPoll(p, env, percent); Sound(q.loop.tracker.image, history + q.log, extent)
  {
    hide RecordFits;
    var marked := if p.onBattery then p.tracker else MarkAllOnline(p.tracker);
    SameRecordsFit(p.tracker.image, marked.image, history, extent);
    MarkFrame(p.tracker);
    var begun := BeginOutage(marked, percent, env.freshId);
    OutageFrame(marked, percent, env.freshId);
    OutageFits(marked, percent, env.freshId, history, extent);
    DeliverAllSound(p.config.clients, begun, begun.image.meta.outageId.value, env.replies, percent,
                    RetryDelay(p.config), env.now, history, extent);
  }

  lemma RestoreSound(p: Loop, env: Env, percent: int, history: seq<Delivery>, extent: Extent)
    requires Fits(p.tracker.image, history, extent)
    ensures Fits(RestorePoll(p, env, percent).loop.tracker.image, history, extent)
  {
    hide WakeAll, RecordFits;
    var w := WakePass(p, env);
    WakeFrame(p.config.clients, Waking(p.tracker, p.down, p.up, p.failures, []), p.config.reattemptDelay, env);
    SameRecordsFit(p.tracker.image, w.tracker.image, history, extent);
    SameRecordsFit(w.tracker.image, Reset(w.tracker).image, history, extent);
  }

  lemma ReactSound(p: Loop, env: Env, history: seq<Delivery>, extent: Extent)
    requires Phase(p) && Sound(p.tracker.image, history, extent) && IsUuid(env.freshId)
    requires extent != NoDelivery && env.reading.OnBattery? && !p.tracker.image.meta.onBattery ==>
             IsFresh(env.freshId, history)
    ensures var q := React(p, env); Sound(q.loop.tracker.image, history + q.log, extent)
  {
    hide RecordFits, BatteryPoll, RestorePoll;
    assert history + [] == history;
    match env.reading
    case Incomplete =>
    case OnBattery(percent) => BatterySound(p, env, percent, history, extent);
    case OnLine(percent) =>
      if InProgress(p) {
        RestoreSound(p, env, percent, history, extent);
        assert RestorePoll(p, env, percent).log == [] by {
          RestoringSendsNothing(p, env, percent);
        }
      } else {
        SameRecordsFit(p.tracker.image, Reset(p.tracker).image, history, extent);
      }
  }

  lemma RestoringSendsNothing(p: Loop, env: Env, percent: int)
    ensures RestorePoll(p, env, percent).log == []
  {}

  lemma PollSound(l: Loop, env: Env, history: seq<Delivery>, extent: Extent)
    requires Phase(l) && Sound(l.tracker.image, history, extent) && env.now > 0 && IsUuid(env.freshId)
    requires extent != NoDelivery ==> Spares(l, env, history)
    ensures var q := Poll(l, env); Phase(q.loop) && Sound(q.loop.tracker.image, history + q.log, extent)
  {
    hide React, Fits;
    PreparedPhase(l, env);
    PollPhase(l, env);
    PreparedFits(l, env, history, extent);
    ReactSound(Prepared(l, env), env, history, extent);
  }

  // ---------- Runs with restarts and crashes ----------

  /** The controller, with everything it has sent so far. */
  datatype World = World(loop: Loop, history: seq<Delivery>)

  datatype Action =
    | Polls(env: Env)
    | Restarts(config: Config)
    /** The process dies in a poll, after that many of its deliveries, and starts again on what it had saved before. */
    | Crashes(env: Env, sent: nat, config: Config)

  /** What a crashing poll still sent. */
  function SentUntil(l: Loop, env: Env, sent: nat): seq<Delivery> {
    var log := Poll(l, env).log;
    if sent <= |log| then log[..sent] else log
  }

  function Act(w: World, a: Action): World {
    match a
    case Polls(env) => World(Poll(w.loop, env).loop, w.history + Poll(w.loop, env).log)
    case Restarts(config) => World(Launched(config, w.loop.tracker.file), w.history)
    case Crashes(env, sent, config) =>
      World(Launched(config, w.loop.tracker.file), w.history + SentUntil(w.loop, env, sent))
  }

  predicate IsPossible(a: Action) { a.Restarts? || (a.env.now > 0 && IsUuid(a.env.freshId)) }

  ghost predicate IsAction(w: World, a: Action, after: World) {
    IsPossible(a) && after == Act(w, a)
  }

  /** Any run: saves may fail, the process may stop anywhere, and clients may be removed and added again. */
  ghost predicate IsHistory(worlds: seq<World>, actions: seq<Action>) {
    && |worlds| == |actions| + 1
    && forall i | 0 <= i < |actions| :: IsAction(worlds[i], actions[i], worlds[i + 1])
  }

  /** The action forgets nothing that was sent: it is a sparing poll, or a restart after a save that went through. */
  ghost predicate IsCareful(w: World, a: Action) {
    match a
    case Polls(env) => Spares(w.loop, env, w.history)
    case Restarts(config) => Settled(w.loop) && NoRecreation(w.loop.tracker.image, NamesOf(config.clients), w.history)
    case Crashes(_, _, _) => false
  }

  ghost predicate IsCarefulUntil(worlds: seq<World>, actions: seq<Action>, k: nat)
    requires k <= |actions| < |worlds|
  {
    forall i | 0 <= i < k :: IsCareful(worlds[i], actions[i])
  }

  /** A controller first started without a file, or after one that never sent anything. */
  ghost predicate IsInitial(w: World) {
    exists config :: w == World(Launched(config, None), [])
  }

  ghost predicate FileFits(file: Option<Image>, history: seq<Delivery>) {
    file.Some? ==> Consistent(file.value.meta) && Fits(file.value, history, NoDelivery)
  }

  /** What holds of a world: in memory to the given extent, and of the file without any account. */
  ghost predicate Good(w: World, extent: Extent) {
    && Phase(w.loop)
    && Sound(w.loop.tracker.image, w.history, extent)
    && FileFits(w.loop.tracker.file, w.history)
  }

  /** A restart, perhaps on an edited configuration, finds the clients it knew as they were and any others new. */
  lemma LaunchedFrom(l: Loop, config: Config)
    requires Phase(l) && Settled(l)
    ensures var again := Launched(config, l.tracker.file);
            && Phase(again) && again.tracker.image.meta == l.tracker.image.meta
            && (again.tracker.image.clients.Keys <= l.tracker.image.clients.Keys + NamesOf(config.clients))
            && forall name | name in again.tracker.image.clients ::
                 again.tracker.image.clients[name] ==
                 if name in l.tracker.image.clients then l.tracker.image.clients[name] else NEW_CLIENT
  {}

  lemma CarefulRestart(l: Loop, config: Config, history: seq<Delivery>, extent: Extent)
    requires Phase(l) && Settled(l) && Fits(l.tracker.image, history, extent)
    requires extent != NoDelivery ==> NoRecreation(l.tracker.image, NamesOf(config.clients), history)
    ensures Phase(Launched(config, l.tracker.file))
    ensures Fits(Launched(config, l.tracker.file).tracker.image, history, extent)
  {
    var image, again := l.tracker.image, Launched(config, l.tracker.file);
    LaunchedFrom(l, config);
    forall name | name in again.tracker.image.clients
      ensures RecordFits(image.meta.outageId, name, again.tracker.image.clients[name].shutdown, history, extent)
    {
      if name in image.clients {
        assert RecordFits(image.meta.outageId, name, image.clients[name].shutdown, history, extent);
      } else {
        NewRecordFits(image.meta.outageId, name, history, extent);
      }
    }
  }

  /** A restart on whatever the file holds. */
  lemma AnyRestart(config: Config, file: Option<Image>, history: seq<Delivery>)
    requires FileFits(file, history)
    ensures Phase(Launched(config, file)) && Fits(Launched(config, file).tracker.image, history, NoDelivery)
  {
    LaunchPhase(config, file);
    var image := Launched(config, file).tracker.image;
    forall name | name in image.clients
      ensures RecordFits(image.meta.outageId, name, image.clients[name].shutdown, history, NoDelivery)
    {
      if file.Some? && name in file.value.clients {
        assert RecordFits(file.value.meta.outageId, name, file.value.clients[name].shutdown, history, NoDelivery);
      } else {
        NewRecordFits(image.meta.outageId, name, history, NoDelivery);
      }
    }
  }

  lemma PollsGood(w: World, env: Env, extent: Extent)
    requires Good(w, extent) && IsPossible(Polls(env)) && (extent != NoDelivery ==> IsCareful(w, Polls(env)))
    ensures Good(Act(w, Polls(env)), extent)
  {
    hide Fits, WellNamed, NoticesOnce, React;
    var q := Poll(w.loop, env);
    PollSound(w.loop, env, w.history, extent);
    LessExtentFits(q.loop.tracker.image, w.history + q.log, extent);
    assert FileFits(w.loop.tracker.file, w.history + q.log) by {
      if w.loop.tracker.file.Some? {
        MoreHistoryFits(w.loop.tracker.file.value, w.history, q.log);
      }
    }
    PollFile(w.loop, env);
  }

  /** A poll leaves the file alone or writes its memory to it. */
  lemma PollFile(l: Loop, env: Env)
    requires Phase(l) && env.now > 0 && IsUuid(env.freshId)
    ensures var t := Poll(l, env).loop.tracker; t.file == l.tracker.file || (env.writable && t.file == Some(t.image))
  {
    PreparedPhase(l, env);
    var p := Prepared(l, env);
    assert p.tracker.file == l.tracker.file by {
      var r := Reloaded(l, env.reload);
      ProbeFrame(r.config.clients, r.tracker, env.reachable);
    }
    ReactFile(p, env);
  }

  lemma ReactFile(p: Loop, env: Env)
    requires Phase(p) && env.now > 0 && IsUuid(env.freshId)
    ensures React(p, env).loop.tracker.file == p.tracker.file
  {
    hide WakeAll, DeliverAll;
    match env.reading
    case Incomplete =>
    case OnBattery(percent) =>
      var marked := if p.onBattery then p.tracker else MarkAllOnline(p.tracker);
      MarkFrame(p.tracker);
      var begun := BeginOutage(marked, percent, env.freshId);
      OutageFrame(marked, percent, env.freshId);
      DeliverFrame(p.config.clients, begun, begun.image.meta.outageId.value, env.replies, percent,
          RetryDelay(p.config), env.now);
    case OnLine(percent) =>
      WakeFrame(p.config.clients, Waking(p.tracker, p.down, p.up, p.failures, []), p.config.reattemptDelay, env);
  }

  lemma CrashesGood(w: World, env: Env, sent: nat, config: Config)
    requires Good(w, NoDelivery) && IsPossible(Crashes(env, sent, config))
    ensures Good(Act(w, Crashes(env, sent, config)), NoDelivery)
  {
    hide Fits, Poll;
    var q, some := Poll(w.loop, env), SentUntil(w.loop, env, sent);
    PollSound(w.loop, env, w.history, NoDelivery);
    assert forall d | d in w.history + some :: d in w.history + q.log;
    assert FileFits(w.loop.tracker.file, w.history + some) by {
      if w.loop.tracker.file.Some? {
        MoreHistoryFits(w.loop.tracker.file.value, w.history, some);
      }
    }
    AnyRestart(config, w.loop.tracker.file, w.history + some);
  }

  lemma ActGood(w: World, a: Action, extent: Extent)
    requires Good(w, extent) && IsPossible(a) && (extent != NoDelivery ==> IsCareful(w, a))
    ensures Good(Act(w, a), extent)
  {
    hide Fits, WellNamed, NoticesOnce, Phase, Poll;
    match a
    case Polls(env) => PollsGood(w, env, extent);
    case Restarts(config) =>
      if extent == NoDelivery {
        AnyRestart(config, w.loop.tracker.file, w.history);
      } else {
        CarefulRestart(w.loop, config, w.history, extent);
      }
    case Crashes(env, sent, config) => CrashesGood(w, env, sent, config);
  }

  lemma {:induction false} AlwaysGood(worlds: seq<World>, actions: seq<Action>, k: nat, extent: Extent)
    requires IsHistory(worlds, actions) && k <= |actions| && Good(worlds[0], extent)
    requires extent != NoDelivery ==> IsCarefulUntil(worlds, actions, k)
    ensures Good(worlds[k], extent)
  {
    if k > 0 {
      AlwaysGood(worlds, actions, k - 1, extent);
      hide Act, Good;
      assert IsAction(worlds[k - 1], actions[k - 1], worlds[k]);
      ActGood(worlds[k - 1], actions[k - 1], extent);
    }
  }

  lemma InitiallyGood(w: World, extent: Extent)
    requires IsInitial(w)
    ensures Good(w, extent)
  {}

  /**
   At every moment of every run, whatever was saved and wherever the process stopped: in memory
   and in the file, an identifier on record is the one of outage, client and sequence, and a
   client shown as acknowledged accepted that very identifier.
   */
  lemma AlwaysTruthful(worlds: seq<World>, actions: seq<Action>, k: nat)
    requires IsHistory(worlds, actions) && IsInitial(worlds[0]) && k <= |actions|
    ensures var w := worlds[k];
            && Good(w, NoDelivery)
            && (forall name | name in w.loop.tracker.image.clients ::
                  AckBacked(name, w.loop.tracker.image.clients[name].shutdown, w.history))
            && (w.loop.tracker.file.Some? ==>
                  forall name | name in w.loop.tracker.file.value.clients ::
                    AckBacked(name, w.loop.tracker.file.value.clients[name].shutdown, w.history))
  {
    InitiallyGood(worlds[0], NoDelivery);
    AlwaysGood(worlds, actions, k, NoDelivery);
    var w := worlds[k];
    forall name | name in w.loop.tracker.image.clients
      ensures AckBacked(name, w.loop.tracker.image.clients[name].shutdown, w.history)
    {
      var image := w.loop.tracker.image;
      assert RecordFits(image.meta.outageId, name, image.clients[name].shutdown, w.history, NoDelivery);
    }
    if w.loop.tracker.file.Some? {
      var image := w.loop.tracker.file.value;
      forall name | name in image.clients
        ensures AckBacked(name, image.clients[name].shutdown, w.history)
      {
        assert RecordFits(image.meta.outageId, name, image.clients[name].shutdown, w.history, NoDelivery);
      }
    }
  }

  /**
   Where nothing that was sent is forgotten, records moreover account for everything sent in
   their outage, and each identifier causes at most one failure notice and one acceptance notice.
   */
  lemma AlwaysSound(worlds: seq<World>, actions: seq<Action>, k: nat)
    requires IsHistory(worlds, actions) && IsInitial(worlds[0]) && k <= |actions| && IsCarefulUntil(worlds, actions, k)
    ensures Good(worlds[k], Every)
  {
    InitiallyGood(worlds[0], Every);
    AlwaysGood(worlds, actions, k, Every);
  }
}
