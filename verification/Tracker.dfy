/**
 The controller's client state tracker: what it remembers about each client and the current
 outage, and its write-back file. Functions say what each operation does to a tracker value;
 the class changes its fields in place and is proved against them.
 */
module Tracker {
  import opened Wrappers

  datatype Shutdown = Shutdown(
    commandId: Option<string>,
    lastAttemptAt: int,
    acknowledged: bool,
    acknowledgedAt: int,
    lastError: Option<string>,
    batteryPercent: Option<int>,
    source: Option<string>,
    failureNotified: bool,
    offlineAfterAck: bool,
    deliverySequence: nat)

  datatype Client = Client(
    wasOnlineBefore: bool,
    online: bool,
    wolSent: bool,
    wolSentAt: int,
    skip: bool,
    shutdown: Shutdown)

  datatype Meta = Meta(onBattery: bool, batteryPercent: int, outageId: Option<string>)

  /** What the state file holds. */
  datatype Image = Image(meta: Meta, clients: map<string, Client>)

  /** A tracker: its image in memory, the contents it last read or wrote, and its file. */
  datatype State = State(image: Image, dirty: bool, savedImage: Option<Image>, file: Option<Image>)

  const NEW_SHUTDOWN := Shutdown(None, 0, false, 0, None, None, None, false, false, 0)
  const NEW_CLIENT := Client(false, false, false, 0, false, NEW_SHUTDOWN)
  const NEW_META := Meta(false, 100, None)

  // ---------- What the operations do ----------

  /** The image that starting on this file with these clients builds. */
  function Loaded(file: Option<Image>, names: set<string>): Image {
    var found := if file.Some? then file.value else Image(NEW_META, map[]);
    found.(clients := (map name | name in names :: NEW_CLIENT) + found.clients)
  }

  function Started(file: Option<Image>, names: set<string>): State {
    State(Loaded(file, names), false, file, file)
  }

  function Save(s: State, writable: bool): State {
    if s.dirty && s.savedImage != Some(s.image) && writable
    then State(s.image, false, Some(s.image), Some(s.image))
    else s
  }

  /** The tracker with one client replaced, which makes it differ from its file. */
  function WithClient(s: State, name: string, client: Client): State {
    s.(image := s.image.(clients := s.image.clients[name := client]), dirty := true)
  }

  function Observed(c: Client, online: bool): Client {
    if c.online == online then c
    else if c.shutdown.acknowledged && !online then
      c.(online := online, shutdown := c.shutdown.(offlineAfterAck := true))
    else if c.shutdown.acknowledged && c.shutdown.offlineAfterAck then
      c.(online := online, shutdown := NEW_SHUTDOWN.(deliverySequence := c.shutdown.deliverySequence + 1))
    else c.(online := online)
  }

  function Update(s: State, name: string, online: bool): State {
    if name !in s.image.clients || s.image.clients[name].online == online then s
    else WithClient(s, name, Observed(s.image.clients[name], online))
  }

  function MarkWolSent(s: State, name: string, now: int): State {
    if name !in s.image.clients then s
    else WithClient(s, name, s.image.clients[name].(wolSent := true, wolSentAt := now))
  }

  function MarkSkip(s: State, name: string): State {
    if name !in s.image.clients || s.image.clients[name].skip then s
    else WithClient(s, name, s.image.clients[name].(skip := true))
  }

  /** Every client changed in the same way. */
  function MapClients(clients: map<string, Client>, f: Client -> Client): map<string, Client> {
    map name | name in clients :: f(clients[name])
  }

  function MarkOnline(c: Client): Client { c.(wasOnlineBefore := c.online) }

  function Forget(c: Client): Client {
    c.(wasOnlineBefore := false, wolSent := false, wolSentAt := 0, skip := false)
  }

  function Rearm(c: Client): Client { c.(shutdown := NEW_SHUTDOWN) }

  function MarkAllOnline(s: State): State {
    s.(image := s.image.(clients := MapClients(s.image.clients, MarkOnline)),
       dirty := s.dirty || s.image.clients != map[])
  }

  function SetOnBattery(s: State, onBattery: bool, percent: int, freshId: string): State {
    var outage := if onBattery && s.image.meta.outageId.None? then Some(freshId) else s.image.meta.outageId;
    var meta := Meta(onBattery, percent, outage);
    s.(image := s.image.(meta := meta), dirty := s.dirty || meta != s.image.meta)
  }

  function BeginOutage(s: State, percent: int, freshId: string): State {
    var begun :=
      if s.image.meta.onBattery then s
      else s.(image := Image(s.image.meta.(outageId := Some(freshId)), MapClients(s.image.clients, Rearm)),
              dirty := true);
    SetOnBattery(begun, true, percent, freshId)
  }

  function RecordAttempt(s: State, name: string, commandId: string, percent: int, source: string,
                         error: Option<string>, now: int): State {
    if name !in s.image.clients then s
    else
      var c := s.image.clients[name];
      WithClient(s, name, c.(shutdown := c.shutdown.(commandId := Some(commandId), lastAttemptAt := now,
                                                     batteryPercent := Some(percent), source := Some(source),
                                                     lastError := error)))
  }

  function Acknowledge(s: State, name: string, now: int): State {
    if name !in s.image.clients then s
    else
      var c := s.image.clients[name];
      WithClient(s, name, c.(shutdown := c.shutdown.(acknowledged := true, acknowledgedAt := now, lastError := None)))
  }

  function MarkFailureNotified(s: State, name: string): State {
    if name !in s.image.clients then s
    else
      var c := s.image.clients[name];
      WithClient(s, name, c.(shutdown := c.shutdown.(failureNotified := true)))
  }

  function Reset(s: State): State {
    State(Image(NEW_META, MapClients(s.image.clients, Forget)), true, s.savedImage, s.file)
  }

  function SyncClients(s: State, names: set<string>): State {
    var synced := map name | name in names :: if name in s.image.clients then s.image.clients[name] else NEW_CLIENT;
    s.(image := s.image.(clients := synced), dirty := s.dirty || names != s.image.clients.Keys)
  }

  function ShutdownOf(s: State, name: string): Shutdown {
    if name in s.image.clients then s.image.clients[name].shutdown else NEW_SHUTDOWN
  }

  predicate ShouldAttemptShutdown(s: State, name: string, delay: int, now: int) {
    !ShutdownOf(s, name).acknowledged && now - ShutdownOf(s, name).lastAttemptAt >= delay
  }

  predicate ShouldAttemptWol(s: State, name: string, delay: int, now: int) {
    now - (if name in s.image.clients then s.image.clients[name].wolSentAt else 0) >= delay
  }

  predicate IsOnline(s: State, name: string) { name in s.image.clients && s.image.clients[name].online }
  predicate WasOnlineBefore(s: State, name: string) { name in s.image.clients && s.image.clients[name].wasOnlineBefore }
  predicate ShouldSkip(s: State, name: string) { name in s.image.clients && s.image.clients[name].skip }

  // ---------- The class ----------

  class ClientStateTracker {
    var meta: Meta
    var clients: map<string, Client>
    var dirty: bool
    /** The contents whose hash is remembered; equal hashes stand for equal contents. */
    var savedImage: Option<Image>
    var file: Option<Image>

    function Value(): State
      reads this
    {
      State(Image(meta, clients), dirty, savedImage, file)
    }

    constructor (names: seq<string>, statusFile: Option<Image>)
      ensures Value() == Started(statusFile, set name | name in names)
    {
      meta, clients, dirty, savedImage, file := NEW_META, map[], false, None, statusFile;
      new;
      if statusFile.Some? {
        meta, clients, savedImage := statusFile.value.meta, statusFile.value.clients, statusFile;
      }
      var _ := AddMissing(names);
    }

    /** Adds a new client for each name not known yet; returns whether there was one. */
    method AddMissing(names: seq<string>) returns (added: bool)
      modifies this`clients
      ensures clients == (map name | name in names :: NEW_CLIENT) + old(clients)
      ensures added <==> exists name :: name in names && name !in old(clients)
    {
      added := false;
      for i := 0 to |names|
        invariant forall name :: name in clients <==> name in old(clients) || name in names[..i]
        invariant forall name | name in clients ::
            clients[name] == if name in old(clients) then old(clients)[name] else NEW_CLIENT
        invariant added <==> exists name :: name in names[..i] && name !in old(clients)
      {
        assert names[..i + 1] == names[..i] + [names[i]];
        if names[i] !in clients {
          clients := clients[names[i] := NEW_CLIENT];
          added := true;
        }
      }
      assert names[..|names|] == names;
    }

    /** Removes every client whose name is not listed; returns whether there was one. */
    method RemoveUnlisted(names: seq<string>) returns (removed: bool)
      modifies this`clients
      ensures clients == map name | name in old(clients) && name in names :: old(clients)[name]
      ensures removed <==> exists name :: name in old(clients) && name !in names
    {
      removed := false;
      var rest := clients.Keys;
      while rest != {}
        invariant rest <= old(clients).Keys
        invariant clients == map name | name in old(clients) && (name in rest || name in names) :: old(clients)[name]
        invariant removed <==> exists name :: name in old(clients) && name !in rest && name !in names
        decreases rest
      {
        var name :| name in rest;
        if name !in names {
          clients := clients - {name};
          removed := true;
        }
        rest := rest - {name};
      }
    }

    method SaveState(writable: bool)
      modifies this
      ensures Value() == Save(old(Value()), writable)
    {
      if !dirty {
        return;
      }
      var data := Image(meta, clients);
      if savedImage == Some(data) {
        return;
      }
      if !writable {
        return;
      }
      file := Some(data);
      savedImage := Some(data);
      dirty := false;
    }

    method UpdateOnline(name: string, online: bool)
      modifies this`clients, this`dirty
      ensures Value() == Update(old(Value()), name, online)
    {
      if name !in clients {
        return;
      }
      var client := clients[name];
      var wasOnline := client.online;
      if wasOnline == online {
        return;
      }
      client := client.(online := online);
      var shutdown := client.shutdown;
      if shutdown.acknowledged && wasOnline && !online {
        client := client.(shutdown := shutdown.(offlineAfterAck := true));
      } else if shutdown.acknowledged && !wasOnline && online && shutdown.offlineAfterAck {
        var sequence := shutdown.deliverySequence + 1;
        client := client.(shutdown := NEW_SHUTDOWN);
        client := client.(shutdown := client.shutdown.(deliverySequence := sequence));
      }
      clients := clients[name := client];
      dirty := true;
    }

    method MarkSent(name: string, now: int)
      modifies this`clients, this`dirty
      ensures Value() == MarkWolSent(old(Value()), name, now)
    {
      if name in clients {
        clients := clients[name := clients[name].(wolSent := true, wolSentAt := now)];
        dirty := true;
      }
    }

    method MarkSkipped(name: string)
      modifies this`clients, this`dirty
      ensures Value() == MarkSkip(old(Value()), name)
    {
      if name in clients && !clients[name].skip {
        clients := clients[name := clients[name].(skip := true)];
        dirty := true;
      }
    }

    /** Applies one change to every client, one client at a time. */
    method ForEachClient(change: Client -> Client)
      modifies this`clients
      ensures clients == MapClients(old(clients), change)
    {
      var names := clients.Keys;
      ghost var done: set<string> := {};
      while names != {}
        invariant names !! done && names + done == old(clients).Keys == clients.Keys
        invariant forall name | name in clients ::
            clients[name] == if name in done then change(old(clients)[name]) else old(clients)[name]
        decreases names
      {
        var name :| name in names;
        clients := clients[name := change(clients[name])];
        names, done := names - {name}, done + {name};
      }
    }

    method MarkAllOnlineClients()
      modifies this`clients, this`dirty
      ensures Value() == MarkAllOnline(old(Value()))
    {
      dirty := dirty || clients != map[];
      ForEachClient(MarkOnline);
    }

    method SetUpsOnBattery(onBattery: bool, percent: int, freshId: string)
      modifies this`meta, this`dirty
      ensures Value() == SetOnBattery(old(Value()), onBattery, percent, freshId)
    {
      if meta.onBattery != onBattery {
        meta := meta.(onBattery := onBattery);
        dirty := true;
      }
      if onBattery && meta.outageId.None? {
        meta := meta.(outageId := Some(freshId));
        dirty := true;
      }
      if meta.batteryPercent != percent {
        meta := meta.(batteryPercent := percent);
        dirty := true;
      }
    }

    method StartOutage(percent: int, freshId: string)
      modifies this`meta, this`clients, this`dirty
      ensures Value() == BeginOutage(old(Value()), percent, freshId)
    {
      if !meta.onBattery {
        meta := meta.(outageId := Some(freshId));
        ForEachClient(Rearm);
        dirty := true;
      }
      SetUpsOnBattery(true, percent, freshId);
    }

    method RecordShutdownAttempt(name: string, commandId: string, percent: int, source: string,
                                 error: Option<string>, now: int)
      modifies this`clients, this`dirty
      ensures Value() == RecordAttempt(old(Value()), name, commandId, percent, source, error, now)
    {
      if name !in clients {
        return;
      }
      var shutdown := clients[name].shutdown.(commandId := Some(commandId), lastAttemptAt := now,
        batteryPercent := Some(percent), source := Some(source), lastError := error);
      clients := clients[name := clients[name].(shutdown := shutdown)];
      dirty := true;
    }

    method AcknowledgeShutdown(name: string, now: int)
      modifies this`clients, this`dirty
      ensures Value() == Acknowledge(old(Value()), name, now)
    {
      if name !in clients {
        return;
      }
      var shutdown := clients[name].shutdown.(acknowledged := true, acknowledgedAt := now, lastError := None);
      clients := clients[name := clients[name].(shutdown := shutdown)];
      dirty := true;
    }

    method MarkShutdownFailureNotified(name: string)
      modifies this`clients, this`dirty
      ensures Value() == MarkFailureNotified(old(Value()), name)
    {
      if name in clients {
        clients := clients[name := clients[name].(shutdown := clients[name].shutdown.(failureNotified := true))];
        dirty := true;
      }
    }

    method ResetAll()
      modifies this`meta, this`clients, this`dirty
      ensures Value() == Reset(old(Value()))
    {
      ForEachClient(Forget);
      SetUpsOnBattery(false, 100, "");
      meta := meta.(outageId := None);
      dirty := true;
    }

    method SyncWith(names: seq<string>)
      modifies this`clients, this`dirty
      ensures Value() == SyncClients(old(Value()), set name | name in names)
    {
      var added := AddMissing(names);
      var removed := RemoveUnlisted(names);
      dirty := dirty || added || removed;
      ghost var all := set name | name in names;
      assert clients == SyncClients(old(Value()), all).image.clients;
      assert added || removed <==> all != old(clients).Keys;
    }
  }
}
