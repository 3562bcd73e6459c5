/** What the passes over the clients leave alone. */
module Frames {
  import opened Wrappers
  import opened Settings
  import opened Tracker
  import opened Coordinator
  import opened Monitor

  /** An operation in memory: it leaves the file alone and is marked dirty unless it changed nothing. */
  ghost predicate InMemory(t: State, u: State) {
    && u.file == t.file && u.savedImage == t.savedImage
    && (u == t || u.dirty)
  }

  /** Only what probing decides may differ: who is online, and a re-armed shutdown. */
  ghost predicate OnlyProbed(a: Image, b: Image) {
    && a.meta == b.meta && a.clients.Keys == b.clients.Keys
    && forall n | n in a.clients ::
         b.clients[n] == a.clients[n].(online := b.clients[n].online, shutdown := b.clients[n].shutdown)
  }

  /** Only shutdown records may differ. */
  ghost predicate OnlyShutdown(a: Image, b: Image) {
    && a.meta == b.meta && a.clients.Keys == b.clients.Keys
    && forall n | n in a.clients :: b.clients[n] == a.clients[n].(shutdown := b.clients[n].shutdown)
  }

  /** Only wake bookkeeping may differ. */
  ghost predicate OnlyWoken(a: Image, b: Image) {
    && a.meta == b.meta && a.clients.Keys == b.clients.Keys
    && forall n | n in a.clients ::
         b.clients[n] == a.clients[n].(wolSent := b.clients[n].wolSent, wolSentAt := b.clients[n].wolSentAt,
                                       skip := b.clients[n].skip)
  }

  lemma {:induction false} ProbeFrame(clients: seq<Settings.Client>, t: State, reachable: set<string>)
    ensures InMemory(t, ProbeAll(clients, t, reachable))
    ensures OnlyProbed(t.image, ProbeAll(clients, t, reachable).image)
  {
    if clients != [] {
      var u := if clients[0].enabled then Update(t, clients[0].name, clients[0].name in reachable) else t;
      assert InMemory(t, u) && OnlyProbed(t.image, u.image);
      ProbeFrame(clients[1..], u, reachable);
    }
  }

  /** The shutdown record once the outcome of an attempt is in it. */
  function Recorded(previous: Shutdown, commandId: string, reply: Reply, percent: int, now: int): Shutdown {
    var attempted := previous.(commandId := Some(commandId), lastAttemptAt := now,
                               batteryPercent := Some(percent), source := Some("automatic"));
    match reply
    case Accepted => attempted.(acknowledged := true, acknowledgedAt := now, lastError := None)
    case Failed(message) => attempted.(failureNotified := true, lastError := Some(message))
  }

  /** An attempt changes one shutdown record. */
  lemma DeliverEffect(c: Settings.Client, t: State, outage: string, reply: Reply, percent: int, now: int)
    requires IsPaired(c)
    ensures var p := DeliverTo(c, t, outage, reply, percent, now);
            var shutdown := Recorded(ShutdownOf(t, c.name), NextCommandId(t, outage, c.name), reply, percent, now);
            && p.tracker == (if c.name in t.image.clients
                             then WithClient(t, c.name, t.image.clients[c.name].(shutdown := shutdown)) else t)
            && |p.log| == 1 && p.log[0].reply == reply && p.log[0].attempt == AttemptTo(c, t, outage, percent, now)
            && p.log[0].notice == (if reply == Accepted then AcceptedNotice
                                   else if ShutdownOf(t, c.name).failureNotified then NoNotice else FailureNotice)
  {
    if c.name in t.image.clients {
      var client := t.image.clients[c.name];
      var error := if reply == Accepted then None else Some(reply.message);
      var attempted := client.shutdown.(commandId := Some(NextCommandId(t, outage, c.name)), lastAttemptAt := now,
                                        batteryPercent := Some(percent), source := Some("automatic"),
                                        lastError := error);
      var u := WithClient(t, c.name, client.(shutdown := attempted));
      var after := Recorded(client.shutdown, NextCommandId(t, outage, c.name), reply, percent, now);
      ReplaceTwice(t, c.name, client.(shutdown := attempted), client.(shutdown := after));
      assert u.image.clients[c.name] == client.(shutdown := attempted);
      if reply == Accepted {
        assert after == attempted.(acknowledged := true, acknowledgedAt := now, lastError := None);
      } else if client.shutdown.failureNotified {
        assert after == attempted;
      } else {
        assert after == attempted.(failureNotified := true);
      }
    }
  }

  lemma ReplaceTwice(t: State, name: string, a: Tracker.Client, b: Tracker.Client)
    ensures WithClient(WithClient(t, name, a), name, b) == WithClient(t, name, b)
  {
    assert t.image.clients[name := a][name := b] == t.image.clients[name := b];
  }

  lemma {:induction false} DeliverFrame(clients: seq<Settings.Client>, t: State, outage: string,
                                        replies: map<string, Reply>, percent: int, delay: int, now: int)
    ensures var u := DeliverAll(clients, t, outage, replies, percent, delay, now).tracker;
            InMemory(t, u) && OnlyShutdown(t.image, u.image)
  {
    if clients != [] {
      var u := DeliverIfDue(clients[0], t, outage, replies, percent, delay, now).tracker;
      if IsDue(clients[0], t, percent, delay, now) {
        DeliverEffect(clients[0], t, outage, ReplyOf(replies, clients[0].name), percent, now);
      }
      DeliverFrame(clients[1..], u, outage, replies, percent, delay, now);
    }
  }

  lemma {:induction false} WakeFrame(clients: seq<Settings.Client>, w: Waking, delay: int, env: Env)
    ensures InMemory(w.tracker, WakeAll(clients, w, delay, env).tracker)
    ensures OnlyWoken(w.tracker.image, WakeAll(clients, w, delay, env).tracker.image)
  {
    if clients != [] {
      var v := WakeOne(clients[0], w, delay, env);
      assert InMemory(w.tracker, v.tracker) && OnlyWoken(w.tracker.image, v.tracker.image);
      WakeFrame(clients[1..], v, delay, env);
    }
  }
}
