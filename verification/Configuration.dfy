/**
 The stored configuration: its validation, the saves of the web interface, and what pairing,
 enrolling and unpairing write into it. Every operation is one locked read-modify-write.
 */
module Configuration {
  import opened Wrappers

  datatype Shutdown = Shutdown(
    enabled: bool, batteryPercent: int, agentId: Option<string>, agentPort: int, autoUpdate: bool)

  datatype Client = Client(
    name: string, mac: Option<string>, enabled: bool, wakeEnabled: bool, alwaysWake: bool, shutdown: Shutdown)

  const NO_SHUTDOWN := Shutdown(false, 20, None, 8184, false)

  // ---------- Validation ----------

  /** White space as the controller's language understands it. */
  predicate IsSpace(c: char) {
    var n := c as int;
    || 9 <= n <= 13 || 0x1C <= n <= 0x20 || 0x2000 <= n <= 0x200A
    || n in {0x85, 0xA0, 0x1680, 0x2028, 0x2029, 0x202F, 0x205F, 0x3000}
  }

  predicate IsBlank(s: string) { forall i | 0 <= i < |s| :: IsSpace(s[i]) }

  predicate IsHex(c: char) { '0' <= c <= '9' || 'a' <= c <= 'f' || 'A' <= c <= 'F' }

  /** Six pairs of hexadecimal digits; the pattern's end also matches before a final newline. */
  predicate IsMac(s: string) {
    && (|s| == 17 || (|s| == 18 && s[17] == '\n'))
    && forall i | 0 <= i < 17 :: if i % 3 == 2 then s[i] == ':' || s[i] == '-' else IsHex(s[i])
  }

  predicate IsValidClient(c: Client) {
    && !IsBlank(c.name)
    && (c.wakeEnabled ==> c.mac.Some? && (c.mac.value == "auto" || IsMac(c.mac.value)))
    && 1 <= c.shutdown.batteryPercent <= 100
    && 1 <= c.shutdown.agentPort <= 65535
    && (c.shutdown.agentId.Some? ==> !IsBlank(c.shutdown.agentId.value))
    && (c.shutdown.enabled ==> c.shutdown.agentId.Some?)
  }

  ghost predicate UniqueNames(clients: seq<Client>) {
    forall i, j | 0 <= i < j < |clients| :: clients[i].name != clients[j].name
  }

  ghost predicate IsValid(clients: seq<Client>) {
    UniqueNames(clients) && forall i | 0 <= i < |clients| :: IsValidClient(clients[i])
  }

  /** The checks of one client whose name is in order. */
  method ValidateClient(client: Client) returns (r: Result<()>)
    requires !IsBlank(client.name)
    ensures r.Ok? <==> IsValidClient(client)
  {
    if client.wakeEnabled && client.mac.None? {
      return Err("Client is missing required field: 'mac'");
    }
    if client.wakeEnabled && client.mac.value != "auto" && !IsMac(client.mac.value) {
      return Err("Client has invalid MAC address format");
    }
    var shutdown := client.shutdown;
    if !(1 <= shutdown.batteryPercent <= 100) {
      return Err("Client shutdown battery percentage must be between 1 and 100");
    }
    if !(1 <= shutdown.agentPort <= 65535) {
      return Err("Client shutdown agent port must be between 1 and 65535");
    }
    if shutdown.agentId.Some? && IsBlank(shutdown.agentId.value) {
      return Err("Client has invalid shutdown agent ID");
    }
    if shutdown.enabled && shutdown.agentId.None? {
      return Err("Client must be paired before automatic shutdown is enabled");
    }
    return Ok(());
  }

  method Validate(clients: seq<Client>) returns (r: Result<()>)
    ensures r.Ok? <==> IsValid(clients)
  {
    var names: set<string> := {};
    for i := 0 to |clients|
      invariant names == set j | 0 <= j < i :: clients[j].name
      invariant IsValid(clients[..i])
    {
      var client := clients[i];
      assert clients[..i + 1] == clients[..i] + [client];
      if IsBlank(client.name) {
        return Err("Client has an invalid empty name");
      }
      if client.name in names {
        return Err("Client names must be unique");
      }
      names := names + {client.name};
      var valid := ValidateClient(client);
      if valid.Err? {
        return valid;
      }
    }
    assert clients[..|clients|] == clients;
    return Ok(());
  }

  // ---------- Looking clients up ----------

  /** The last client of that name, as a dictionary by name keeps it. */
  function LookUp(clients: seq<Client>, name: string): Option<Client> {
    if clients == [] then None
    else if clients[|clients| - 1].name == name then Some(clients[|clients| - 1])
    else LookUp(clients[..|clients| - 1], name)
  }

  function ShutdownOf(clients: seq<Client>, name: string): Shutdown {
    var c := LookUp(clients, name);
    if c.Some? then c.value.shutdown else NO_SHUTDOWN
  }

  /** The agent a name is paired with, if any: the empty text counts as none. */
  function AgentOf(clients: seq<Client>, name: string): Option<string> {
    var agent := ShutdownOf(clients, name).agentId;
    if agent == Some("") then None else agent
  }

  function NamesOf(clients: seq<Client>): set<string> {
    set i | 0 <= i < |clients| :: clients[i].name
  }

  lemma {:induction false} LookUpFinds(clients: seq<Client>, name: string)
    ensures LookUp(clients, name).Some? <==> name in NamesOf(clients)
    ensures LookUp(clients, name).Some? ==>
              exists i | 0 <= i < |clients| :: clients[i] == LookUp(clients, name).value && clients[i].name == name
  {
    if clients != [] {
      LookUpFinds(clients[..|clients| - 1], name);
    }
  }

  lemma LookUpAt(clients: seq<Client>, i: nat)
    requires UniqueNames(clients) && i < |clients|
    ensures LookUp(clients, clients[i].name) == Some(clients[i])
  {
    LookUpFinds(clients, clients[i].name);
  }

  /** The one client of that name; none or several are errors. */
  method FindClient(clients: seq<Client>, name: string) returns (r: Result<nat>)
    ensures r.Ok? ==> r.value < |clients| && clients[r.value].name == name
    ensures r.Ok? <==> exists i | 0 <= i < |clients| :: IsOnly(clients, i, name)
  {
    var found: Option<nat> := None;
    for i := 0 to |clients|
      invariant found.Some? ==> found.value < i && IsOnly(clients[..i], found.value, name)
      invariant found.None? ==> forall j | 0 <= j < i :: clients[j].name != name
    {
      if clients[i].name == name {
        if found.Some? {
          assert clients[found.value].name == name;
          return Err("Client name is ambiguous");
        }
        found := Some(i);
      }
    }
    if found.None? {
      return Err("Client not found");
    }
    assert clients[..|clients|] == clients;
    return Ok(found.value);
  }

  ghost predicate IsOnly(clients: seq<Client>, i: nat, name: string) {
    && i < |clients| && clients[i].name == name
    && forall j | 0 <= j < |clients| && j != i :: clients[j].name != name
  }

  // ---------- Saving the configuration ----------

  /** A submitted client may be saved over what was there. */
  predicate MaySave(current: seq<Client>, client: Client, secure: bool) {
    var previous := ShutdownOf(current, client.name);
    && client.shutdown.agentId == previous.agentId
    && client.shutdown.autoUpdate == previous.autoUpdate
    && (client.shutdown == previous || secure)
  }

  /** What is there under a name may be dropped by what was submitted; of several entries the last one counts. */
  predicate MayDrop(current: seq<Client>, submitted: seq<Client>, name: string) {
    name in NamesOf(submitted) || AgentOf(current, name) == None
  }

  /** A save goes through. */
  ghost predicate SaveAccepted(current: seq<Client>, submitted: seq<Client>, secure: bool) {
    && IsValid(submitted)
    && (forall i | 0 <= i < |submitted| :: MaySave(current, submitted[i], secure))
    && (forall i | 0 <= i < |current| :: MayDrop(current, submitted, current[i].name))
  }

  /** The submitted clients, if they may replace the current ones. */
  method PersistConfig(current: seq<Client>, submitted: seq<Client>, secure: bool) returns (r: Result<seq<Client>>)
    ensures r.Ok? <==> (forall i | 0 <= i < |submitted| :: MaySave(current, submitted[i], secure))
                       && (forall i | 0 <= i < |current| :: MayDrop(current, submitted, current[i].name))
    ensures r.Ok? ==> r.value == submitted
  {
    for i := 0 to |submitted|
      invariant forall j | 0 <= j < i :: MaySave(current, submitted[j], secure)
    {
      var previous := ShutdownOf(current, submitted[i].name);
      var shutdown := submitted[i].shutdown;
      if shutdown.agentId != previous.agentId {
        return Err("Agent pairing changed while editing; refresh the configuration and try again");
      }
      if shutdown.autoUpdate != previous.autoUpdate {
        return Err("Use the agent auto-update control to change this setting");
      }
      if shutdown != previous && !secure {
        return Err("Secure administration is required");
      }
    }
    var names := NamesOf(submitted);
    for i := 0 to |current|
      invariant forall j | 0 <= j < i :: MayDrop(current, submitted, current[j].name)
    {
      var previous := ShutdownOf(current, current[i].name);
      if current[i].name !in names && previous.agentId.Some? && previous.agentId.value != "" {
        return Err("Unpair the client before removing it");
      }
    }
    return Ok(submitted);
  }

  // ---------- Pairing ----------

  /** What enrolling or pairing writes for a client. */
  function PairedWith(s: Shutdown, agentId: string, agentPort: int): Shutdown {
    Shutdown(false, s.batteryPercent, Some(agentId), agentPort, s.autoUpdate)
  }

  function Unpaired(s: Shutdown): Shutdown {
    s.(enabled := false, agentId := None, autoUpdate := false)
  }

  function WithShutdown(clients: seq<Client>, i: nat, s: Shutdown): seq<Client>
    requires i < |clients|
  {
    clients[i := clients[i].(shutdown := s)]
  }

  /** Changing one client's settings changes what is found for its name only. */
  lemma WithShutdownFinds(clients: seq<Client>, i: nat, s: Shutdown, name: string)
    requires UniqueNames(clients) && i < |clients|
    ensures UniqueNames(WithShutdown(clients, i, s))
    ensures ShutdownOf(WithShutdown(clients, i, s), name) ==
            if name == clients[i].name then s else ShutdownOf(clients, name)
  {
    var after := WithShutdown(clients, i, s);
    assert forall j | 0 <= j < |clients| :: after[j].name == clients[j].name;
    LookUpFinds(after, name);
    LookUpFinds(clients, name);
    if LookUp(clients, name).Some? {
      var j :| 0 <= j < |clients| && clients[j] == LookUp(clients, name).value && clients[j].name == name;
      assert after[j].name == name;
      LookUpAt(after, j);
    }
  }

  /** An operation on one client's settings goes through. */
  ghost predicate CanStore(clients: seq<Client>, i: nat, name: string, s: Shutdown) {
    IsOnly(clients, i, name) && IsValid(WithShutdown(clients, i, s))
  }

  predicate MayEnroll(s: Shutdown, agentId: string) {
    s.agentId.None? || s.agentId.value == "" || s.agentId.value == agentId
  }

  function WithPolicy(s: Shutdown, autoUpdate: bool): Shutdown { s.(autoUpdate := autoUpdate) }

  class ConfigStore {
    var clients: seq<Client>

    constructor (initial: seq<Client>)
      ensures clients == initial
    {
      clients := initial;
    }

    /** A save from the web interface. */
    method Put(submitted: seq<Client>, secure: bool) returns (r: Result<()>)
      modifies this
      ensures r.Ok? <==> SaveAccepted(old(clients), submitted, secure)
      ensures clients == if r.Ok? then submitted else old(clients)
    {
      var valid := Validate(submitted);
      if valid.Err? {
        return valid;
      }
      var updated := PersistConfig(clients, submitted, secure);
      if updated.Err? {
        return Err(updated.message);
      }
      clients := updated.value;
      return Ok(());
    }

    /** Replaces one client's settings if the result is valid. */
    method Store(i: nat, shutdown: Shutdown) returns (r: Result<()>)
      requires i < |clients|
      modifies this
      ensures r.Ok? <==> IsValid(WithShutdown(old(clients), i, shutdown))
      ensures clients == if r.Ok? then WithShutdown(old(clients), i, shutdown) else old(clients)
    {
      var updated := WithShutdown(clients, i, shutdown);
      r := Validate(updated);
      if r.Ok? {
        clients := updated;
      }
    }

    /** The configuration stage of an enrollment; it never replaces another agent. */
    method PersistEnrollment(name: string, agentId: string, agentPort: int) returns (r: Result<()>)
      modifies this
      ensures r.Ok? <==> exists i | 0 <= i < |old(clients)| ::
                MayEnroll(old(clients)[i].shutdown, agentId)
                && CanStore(old(clients), i, name, PairedWith(old(clients)[i].shutdown, agentId, agentPort))
      ensures r.Err? ==> clients == old(clients)
      ensures forall i | 0 <= i < |old(clients)| && r.Ok? && IsOnly(old(clients), i, name) ::
                clients == WithShutdown(old(clients), i, PairedWith(old(clients)[i].shutdown, agentId, agentPort))
      ensures IsValid(old(clients)) && r.Ok? ==>
                && NowPaired(ShutdownOf(old(clients), name), ShutdownOf(clients, name), agentId, agentPort)
                && ChangedOnly(old(clients), clients, name)
    {
      ghost var before := clients;
      var found := FindClient(clients, name);
      if found.Err? {
        return Err(found.message);
      }
      var i := found.value;
      var shutdown := clients[i].shutdown;
      if shutdown.agentId.Some? && shutdown.agentId.value != "" && shutdown.agentId.value != agentId {
        return Err("Client was paired while enrollment was in progress");
      }
      shutdown := shutdown.(enabled := false, agentId := Some(agentId), agentPort := agentPort);
      r := Store(i, shutdown);
      if IsValid(before) {
        StoreValid(before, i, shutdown);
        LookUpAt(before, i);
      }
    }

    /** The configuration stage of pairing by hand; it takes over from any agent before. */
    method PersistPairing(name: string, agentId: string, agentPort: int) returns (r: Result<()>)
      modifies this
      ensures r.Ok? <==> exists i | 0 <= i < |old(clients)| ::
                CanStore(old(clients), i, name, PairedWith(old(clients)[i].shutdown, agentId, agentPort))
      ensures r.Err? ==> clients == old(clients)
      ensures forall i | 0 <= i < |old(clients)| && r.Ok? && IsOnly(old(clients), i, name) ::
                clients == WithShutdown(old(clients), i, PairedWith(old(clients)[i].shutdown, agentId, agentPort))
      ensures IsValid(old(clients)) ==>
                && (r.Ok? <==> name in NamesOf(old(clients)) && !IsBlank(agentId) && 1 <= agentPort <= 65535)
                && (r.Ok? ==> NowPaired(ShutdownOf(old(clients), name), ShutdownOf(clients, name), agentId, agentPort)
                              && ChangedOnly(old(clients), clients, name))
    {
      ghost var before := clients;
      var found := FindClient(clients, name);
      if found.Err? {
        return Err(found.message);
      }
      var shutdown := clients[found.value].shutdown;
      shutdown := shutdown.(enabled := false, agentId := Some(agentId), agentPort := agentPort);
      r := Store(found.value, shutdown);
      if IsValid(before) {
        PairingStoredIff(before, name, agentId, agentPort);
        StoreValid(before, found.value, shutdown);
        LookUpAt(before, found.value);
      }
    }

    /** Unpairing a client. */
    method ClearPairing(name: string) returns (r: Result<()>)
      modifies this
      ensures r.Ok? <==> exists i | 0 <= i < |old(clients)| ::
                CanStore(old(clients), i, name, Unpaired(old(clients)[i].shutdown))
      ensures r.Err? ==> clients == old(clients)
      ensures forall i | 0 <= i < |old(clients)| && r.Ok? && IsOnly(old(clients), i, name) ::
                clients == WithShutdown(old(clients), i, Unpaired(old(clients)[i].shutdown))
      ensures IsValid(old(clients)) ==>
                && (r.Ok? <==> name in NamesOf(old(clients)))
                && (r.Ok? ==> NowUnpaired(ShutdownOf(old(clients), name), ShutdownOf(clients, name))
                              && ChangedOnly(old(clients), clients, name))
    {
      ghost var before := clients;
      var found := FindClient(clients, name);
      if found.Err? {
        return Err(found.message);
      }
      var shutdown := clients[found.value].shutdown;
      shutdown := shutdown.(enabled := false);
      shutdown := shutdown.(agentId := None);
      shutdown := shutdown.(autoUpdate := false);
      r := Store(found.value, shutdown);
      if IsValid(before) {
        UnpairingStoredIff(before, name);
        StoreValid(before, found.value, shutdown);
        LookUpAt(before, found.value);
      }
    }

    /** Storing an update policy, unless the pairing changed since the agent was told. */
    method PersistPolicy(name: string, agentId: string, enabled: bool) returns (r: Result<()>)
      modifies this
      ensures r.Ok? <==> exists i | 0 <= i < |old(clients)| ::
                old(clients)[i].shutdown.agentId == Some(agentId)
                && CanStore(old(clients), i, name, WithPolicy(old(clients)[i].shutdown, enabled))
      ensures r.Err? ==> clients == old(clients)
      ensures forall i | 0 <= i < |old(clients)| && r.Ok? && IsOnly(old(clients), i, name) ::
                clients == WithShutdown(old(clients), i, WithPolicy(old(clients)[i].shutdown, enabled))
      ensures IsValid(old(clients)) && r.Ok? ==>
                && NowPolicy(ShutdownOf(old(clients), name), ShutdownOf(clients, name), enabled)
                && ChangedOnly(old(clients), clients, name)
    {
      ghost var before := clients;
      var found := FindClient(clients, name);
      if found.Err? {
        return Err(found.message);
      }
      var shutdown := clients[found.value].shutdown;
      if shutdown.agentId != Some(agentId) {
        return Err("Agent pairing changed while update policy was being saved");
      }
      shutdown := shutdown.(autoUpdate := enabled);
      r := Store(found.value, shutdown);
      if IsValid(before) {
        StoreValid(before, found.value, shutdown);
        LookUpAt(before, found.value);
      }
    }
  }

  /** In a valid configuration, an enrollment is stored exactly when its client exists and belongs to no other agent. */
  lemma EnrollmentStoredIff(clients: seq<Client>, name: string, agentId: string, agentPort: int)
    requires IsValid(clients)
    ensures (exists i | 0 <= i < |clients| ::
               && MayEnroll(clients[i].shutdown, agentId)
               && CanStore(clients, i, name, PairedWith(clients[i].shutdown, agentId, agentPort)))
            <==> name in NamesOf(clients) && AgentOf(clients, name) in {None, Some(agentId)}
                 && !IsBlank(agentId) && 1 <= agentPort <= 65535
  {
    if i :| 0 <= i < |clients| && clients[i].name == name {
      LookUpAt(clients, i);
      StoreValid(clients, i, PairedWith(clients[i].shutdown, agentId, agentPort));
      assert IsOnly(clients, i, name) && IsValidClient(clients[i]);
      assert forall j | 0 <= j < |clients| && IsOnly(clients, j, name) :: j == i;
    }
  }

  /** The same clients in the same order, alike but for one name's shutdown settings. */
  ghost predicate ChangedOnly(before: seq<Client>, after: seq<Client>, name: string) {
    && |after| == |before|
    && (forall i | 0 <= i < |before| :: after[i] == before[i].(shutdown := after[i].shutdown))
    && (forall i | 0 <= i < |before| :: before[i].name != name ==> after[i] == before[i])
  }

  lemma StoreValid(clients: seq<Client>, i: nat, s: Shutdown)
    requires IsValid(clients) && i < |clients|
    ensures IsValid(WithShutdown(clients, i, s)) <==> IsValidClient(clients[i].(shutdown := s))
    ensures ChangedOnly(clients, WithShutdown(clients, i, s), clients[i].name)
    ensures ShutdownOf(WithShutdown(clients, i, s), clients[i].name) == s
  {
    var after := WithShutdown(clients, i, s);
    assert forall j | 0 <= j < |clients| && j != i :: after[j] == clients[j];
    WithShutdownFinds(clients, i, s, clients[i].name);
    if IsValid(after) {
      assert IsValidClient(after[i]);
    }
  }

  // ---------- What saves keep ----------

  /**
   A save that goes through leaves every name paired with exactly the agent it was paired with,
   keeps the update policy of every client that stays, and adds only unpaired clients.
   */
  lemma SaveKeepsPairings(current: seq<Client>, submitted: seq<Client>, secure: bool, name: string)
    requires IsValid(current) && SaveAccepted(current, submitted, secure)
    ensures AgentOf(submitted, name) == AgentOf(current, name)
    ensures name in NamesOf(current) && name in NamesOf(submitted) ==>
              ShutdownOf(submitted, name).autoUpdate == ShutdownOf(current, name).autoUpdate
    ensures name in NamesOf(submitted) && name !in NamesOf(current) ==>
              && AgentOf(submitted, name) == None
              && !ShutdownOf(submitted, name).autoUpdate && !ShutdownOf(submitted, name).enabled
  {
    LookUpFinds(submitted, name);
    LookUpFinds(current, name);
    if name in NamesOf(submitted) {
      var i :| 0 <= i < |submitted| && submitted[i] == LookUp(submitted, name).value && submitted[i].name == name;
      assert MaySave(current, submitted[i], secure) && IsValidClient(submitted[i]);
    } else if name in NamesOf(current) {
      var i :| 0 <= i < |current| && current[i] == LookUp(current, name).value && current[i].name == name;
      assert MayDrop(current, submitted, current[i].name);
    }
  }

  /** Without secure administration, no shutdown setting can be changed by a save. */
  lemma InsecureSaveKeepsSettings(current: seq<Client>, submitted: seq<Client>, name: string)
    requires IsValid(current) && SaveAccepted(current, submitted, false) && name in NamesOf(submitted)
    ensures ShutdownOf(submitted, name) == ShutdownOf(current, name)
  {
    LookUpFinds(submitted, name);
    var i :| 0 <= i < |submitted| && submitted[i] == LookUp(submitted, name).value && submitted[i].name == name;
    assert MaySave(current, submitted[i], false);
  }

  // ---------- Runs ----------

  datatype Op =
    | Save(submitted: seq<Client>, secure: bool)
    | Enroll(name: string, agentId: string, agentPort: int)
    | Pair(name: string, agentId: string, agentPort: int)
    | Unpair(name: string)
    | SetPolicy(name: string, agentId: string, autoUpdate: bool)

  /** One name's settings were replaced and the result was valid. */
  ghost predicate Stored(before: seq<Client>, i: nat, name: string, s: Shutdown, after: seq<Client>) {
    CanStore(before, i, name, s) && after == WithShutdown(before, i, s)
  }

  /** One operation, successful or not, as the store's methods promise it. */
  ghost predicate Step(before: seq<Client>, op: Op, after: seq<Client>) {
    after == before ||
    match op
    case Save(submitted, secure) => SaveAccepted(before, submitted, secure) && after == submitted
    case Enroll(name, agentId, agentPort) => exists i | 0 <= i < |before| ::
      && MayEnroll(before[i].shutdown, agentId)
      && Stored(before, i, name, PairedWith(before[i].shutdown, agentId, agentPort), after)
    case Pair(name, agentId, agentPort) => exists i | 0 <= i < |before| ::
      Stored(before, i, name, PairedWith(before[i].shutdown, agentId, agentPort), after)
    case Unpair(name) => exists i | 0 <= i < |before| ::
      Stored(before, i, name, Unpaired(before[i].shutdown), after)
    case SetPolicy(name, agentId, autoUpdate) => exists i | 0 <= i < |before| ::
      && before[i].shutdown.agentId == Some(agentId)
      && Stored(before, i, name, WithPolicy(before[i].shutdown, autoUpdate), after)
  }

  /** Any of the operations on one name's settings. */
  lemma StepStores(before: seq<Client>, op: Op, after: seq<Client>) returns (i: nat, s: Shutdown)
    requires Step(before, op, after) && after != before && !op.Save?
    ensures i < |before| && Stored(before, i, op.name, s, after)
    ensures op.Enroll? ==>
            MayEnroll(before[i].shutdown, op.agentId) && s == PairedWith(before[i].shutdown, op.agentId, op.agentPort)
    ensures op.Pair? ==> s == PairedWith(before[i].shutdown, op.agentId, op.agentPort)
    ensures op.Unpair? ==> s == Unpaired(before[i].shutdown)
    ensures op.SetPolicy? ==> s == WithPolicy(before[i].shutdown, op.autoUpdate)
  {
    match op
    case Enroll(name, agentId, agentPort) =>
      i :| 0 <= i < |before| && MayEnroll(before[i].shutdown, agentId)
        && Stored(before, i, name, PairedWith(before[i].shutdown, agentId, agentPort), after);
      s := PairedWith(before[i].shutdown, agentId, agentPort);
    case Pair(name, agentId, agentPort) =>
      i :| 0 <= i < |before| && Stored(before, i, name, PairedWith(before[i].shutdown, agentId, agentPort), after);
      s := PairedWith(before[i].shutdown, agentId, agentPort);
    case Unpair(name) =>
      i :| 0 <= i < |before| && Stored(before, i, name, Unpaired(before[i].shutdown), after);
      s := Unpaired(before[i].shutdown);
    case SetPolicy(name, agentId, autoUpdate) =>
      i :| 0 <= i < |before| && before[i].shutdown.agentId == Some(agentId)
        && Stored(before, i, name, WithPolicy(before[i].shutdown, autoUpdate), after);
      s := WithPolicy(before[i].shutdown, autoUpdate);
  }

  ghost predicate IsRun(states: seq<seq<Client>>, ops: seq<Op>) {
    && |states| == |ops| + 1 && IsValid(states[0])
    && forall i | 0 <= i < |ops| :: Step(states[i], ops[i], states[i + 1])
  }

  /** Over every run names stay unique, and automatic shutdown is enabled only on paired clients. */
  lemma {:induction false} AlwaysValid(states: seq<seq<Client>>, ops: seq<Op>, k: nat)
    requires IsRun(states, ops) && k <= |ops|
    ensures IsValid(states[k])
    ensures forall i | 0 <= i < |states[k]| && states[k][i].shutdown.enabled ::
            AgentOf(states[k], states[k][i].name).Some?
  {
    if k > 0 {
      AlwaysValid(states, ops, k - 1);
      assert Step(states[k - 1], ops[k - 1], states[k]);
      if states[k] != states[k - 1] && !ops[k - 1].Save? {
        var _, _ := StepStores(states[k - 1], ops[k - 1], states[k]);
      }
    }
    forall i | 0 <= i < |states[k]| && states[k][i].shutdown.enabled
      ensures AgentOf(states[k], states[k][i].name).Some?
    {
      LookUpAt(states[k], i);
    }
  }

  /** Which agent a name is paired with changes only by pairing, enrolling or unpairing that very name. */
  lemma {:induction false} AgentChangesByName(states: seq<seq<Client>>, ops: seq<Op>, name: string, k: nat)
    requires IsRun(states, ops) && k <= |ops|
    requires forall i | 0 <= i < k :: ops[i].Save? || ops[i].SetPolicy? || ops[i].name != name
    ensures AgentOf(states[k], name) == AgentOf(states[0], name)
  {
    if k > 0 {
      AgentChangesByName(states, ops, name, k - 1);
      AlwaysValid(states, ops, k - 1);
      var before, op, after := states[k - 1], ops[k - 1], states[k];
      assert Step(before, op, after);
      if after != before {
        if op.Save? {
          SaveKeepsPairings(before, op.submitted, op.secure, name);
        } else {
          var i, s := StepStores(before, op, after);
          WithShutdownFinds(before, i, s, name);
          LookUpAt(before, i);
        }
      }
    }
  }

  /** Enrolling never takes a client away from another agent. */
  lemma EnrollNeverReplaces(before: seq<Client>, op: Op, after: seq<Client>, name: string)
    requires IsValid(before) && Step(before, op, after) && op.Enroll? && AgentOf(before, name).Some?
    ensures AgentOf(after, name) == AgentOf(before, name)
  {
    if after != before {
      var i, s := StepStores(before, op, after);
      WithShutdownFinds(before, i, s, name);
      LookUpAt(before, i);
    }
  }

  // ---------- What each operation leaves behind, field by field ----------

  /** Paired with this agent on this port, with automatic shutdown off and everything else as before. */
  predicate NowPaired(before: Shutdown, after: Shutdown, agentId: string, agentPort: int) {
    && after.agentId == Some(agentId) && after.agentPort == agentPort && !after.enabled
    && after.batteryPercent == before.batteryPercent && after.autoUpdate == before.autoUpdate
  }

  /** Paired with nobody, with automatic shutdown and updates off and everything else as before. */
  predicate NowUnpaired(before: Shutdown, after: Shutdown) {
    && after.agentId == None && !after.enabled && !after.autoUpdate
    && after.batteryPercent == before.batteryPercent && after.agentPort == before.agentPort
  }

  predicate NowPolicy(before: Shutdown, after: Shutdown, autoUpdate: bool) {
    && after.autoUpdate == autoUpdate && after.enabled == before.enabled && after.agentId == before.agentId
    && after.batteryPercent == before.batteryPercent && after.agentPort == before.agentPort
  }

  /** In every run: what an operation on one client that changed something made of it, and that nothing else changed. */
  lemma FieldsAfter(states: seq<seq<Client>>, ops: seq<Op>, k: nat)
    requires IsRun(states, ops) && k < |ops| && !ops[k].Save? && states[k + 1] != states[k]
    ensures var name, before, after := ops[k].name, states[k], states[k + 1];
            var s, u := ShutdownOf(before, name), ShutdownOf(after, name);
            && name in NamesOf(before) && ChangedOnly(before, after, name)
            && (ops[k].Pair? || ops[k].Enroll? ==> NowPaired(s, u, ops[k].agentId, ops[k].agentPort))
            && (ops[k].Unpair? ==> NowUnpaired(s, u) && AgentOf(after, name) == None)
            && (ops[k].SetPolicy? ==> NowPolicy(s, u, ops[k].autoUpdate))
  {
    AlwaysValid(states, ops, k);
    assert Step(states[k], ops[k], states[k + 1]);
    var i, shutdown := StepStores(states[k], ops[k], states[k + 1]);
    StoreValid(states[k], i, shutdown);
    LookUpAt(states[k], i);
  }

  /** In a valid configuration: whether storing these settings for a name goes through. */
  lemma StoredIff(clients: seq<Client>, name: string, change: Shutdown -> Shutdown)
    requires IsValid(clients)
    ensures (exists i | 0 <= i < |clients| :: CanStore(clients, i, name, change(clients[i].shutdown))) <==>
            exists i | 0 <= i < |clients| && clients[i].name == name ::
              IsValidClient(clients[i].(shutdown := change(clients[i].shutdown)))
  {
    forall i | 0 <= i < |clients|
      ensures CanStore(clients, i, name, change(clients[i].shutdown)) <==>
              clients[i].name == name && IsValidClient(clients[i].(shutdown := change(clients[i].shutdown)))
    {
      StoreValid(clients, i, change(clients[i].shutdown));
    }
  }

  /** Pairing by hand goes through exactly for a client that exists, an agent that is not blank and a valid port. */
  lemma PairingStoredIff(clients: seq<Client>, name: string, agentId: string, agentPort: int)
    requires IsValid(clients)
    ensures (exists i | 0 <= i < |clients| ::
               CanStore(clients, i, name, PairedWith(clients[i].shutdown, agentId, agentPort)))
            <==> name in NamesOf(clients) && !IsBlank(agentId) && 1 <= agentPort <= 65535
  {
    StoredIff(clients, name, s => PairedWith(s, agentId, agentPort));
    assert forall i | 0 <= i < |clients| :: IsValidClient(clients[i]);
  }

  /** Unpairing goes through exactly for a client that exists. */
  lemma UnpairingStoredIff(clients: seq<Client>, name: string)
    requires IsValid(clients)
    ensures (exists i | 0 <= i < |clients| :: CanStore(clients, i, name, Unpaired(clients[i].shutdown)))
            <==> name in NamesOf(clients)
  {
    StoredIff(clients, name, Unpaired);
    assert forall i | 0 <= i < |clients| :: IsValidClient(clients[i]);
  }

  /** A client that was unpaired can be enrolled with any agent: the enrollment is stored, and names that agent. */
  lemma EnrollAfterUnpair(states: seq<seq<Client>>, ops: seq<Op>, k: nat, agentId: string, agentPort: int)
    returns (next: seq<Client>)
    requires IsRun(states, ops) && k < |ops| && ops[k].Unpair? && states[k + 1] != states[k]
    requires !IsBlank(agentId) && 1 <= agentPort <= 65535
    ensures Step(states[k + 1], Enroll(ops[k].name, agentId, agentPort), next)
    ensures AgentOf(next, ops[k].name) == Some(agentId)
  {
    var name, clients := ops[k].name, states[k + 1];
    FieldsAfter(states, ops, k);
    AlwaysValid(states, ops, k + 1);
    assert name in NamesOf(clients) by {
      assert forall i | 0 <= i < |clients| :: clients[i].name == states[k][i].name;
    }
    EnrollmentStoredIff(clients, name, agentId, agentPort);
    var i :| 0 <= i < |clients| && MayEnroll(clients[i].shutdown, agentId)
      && CanStore(clients, i, name, PairedWith(clients[i].shutdown, agentId, agentPort));
    next := WithShutdown(clients, i, PairedWith(clients[i].shutdown, agentId, agentPort));
    assert Stored(clients, i, name, PairedWith(clients[i].shutdown, agentId, agentPort), next);
    StoreValid(clients, i, PairedWith(clients[i].shutdown, agentId, agentPort));
    assert !IsBlank("") || agentId != "";
  }

  // ---------- Ordinary saves ----------

  /** A submitted client is new, unpaired, and, without secure administration, has the default settings. */
  predicate IsOrdinaryAddition(c: Client, secure: bool) {
    && c.shutdown.agentId == None && !c.shutdown.autoUpdate
    && (secure || c.shutdown == Shutdown(false, 20, None, 8184, false))
  }

  /**
   A submitted client keeps agent and update policy of the one before, and all its settings without
   secure administration.
   */
  predicate IsOrdinaryEdit(before: Client, after: Client, secure: bool) {
    && after.shutdown.agentId == before.shutdown.agentId && after.shutdown.autoUpdate == before.shutdown.autoUpdate
    && (secure || after.shutdown == before.shutdown)
  }

  /**
   A save over a valid configuration goes through exactly if it is valid, every client in it is an
   ordinary edit of the one of its name or an ordinary addition, and every client it drops is unpaired.
   */
  lemma SaveExactly(current: seq<Client>, submitted: seq<Client>, secure: bool)
    requires IsValid(current)
    ensures SaveAccepted(current, submitted, secure) <==>
            && IsValid(submitted)
            && (forall i, j | 0 <= i < |submitted| && 0 <= j < |current| && submitted[i].name == current[j].name ::
                  IsOrdinaryEdit(current[j], submitted[i], secure))
            && (forall i | 0 <= i < |submitted| && submitted[i].name !in NamesOf(current) ::
                  IsOrdinaryAddition(submitted[i], secure))
            && (forall j | 0 <= j < |current| && current[j].name !in NamesOf(submitted) ::
                  current[j].shutdown.agentId == None)
  {
    hide IsValidClient;
    forall i, j | 0 <= i < |submitted| && 0 <= j < |current| && submitted[i].name == current[j].name
      ensures MaySave(current, submitted[i], secure) <==> IsOrdinaryEdit(current[j], submitted[i], secure)
    {
      LookUpAt(current, j);
    }
    forall i | 0 <= i < |submitted| && submitted[i].name !in NamesOf(current)
      ensures MaySave(current, submitted[i], secure) <==> IsOrdinaryAddition(submitted[i], secure)
    {
      LookUpFinds(current, submitted[i].name);
    }
    forall j | 0 <= j < |current|
      ensures MayDrop(current, submitted, current[j].name) <==>
              current[j].name in NamesOf(submitted) || current[j].shutdown.agentId == None
    {
      LookUpAt(current, j);
      AgentNotEmpty(current[j]);
    }
    forall i | 0 <= i < |submitted| && submitted[i].name in NamesOf(current)
      ensures exists j | 0 <= j < |current| :: submitted[i].name == current[j].name
    {
    }
  }

  lemma AgentNotEmpty(c: Client)
    requires IsValidClient(c)
    ensures c.shutdown.agentId != Some("")
  {}

  /** A hardware address is six pairs of hexadecimal digits with colons or dashes between them. */
  lemma MacExactly(s: string)
    requires |s| == 17
    ensures IsMac(s) <==>
            && (forall i | i in {2, 5, 8, 11, 14} :: s[i] in {':', '-'})
            && (forall i | i in {0, 1, 3, 4, 6, 7, 9, 10, 12, 13, 15, 16} :: s[i] in "0123456789abcdefABCDEF")
  {
    var digits := "0123456789abcdefABCDEF";
    forall c: char
      ensures IsHex(c) <==> c in digits
    {
      HexDigits(c);
    }
  }

  lemma HexDigits(c: char)
    ensures IsHex(c) <==> c in "0123456789abcdefABCDEF"
  {
    var digits := "0123456789abcdefABCDEF";
    if IsHex(c) {
      var k := if c <= '9' then c as int - '0' as int else if 'a' <= c then c as int - 'a' as int + 10
               else c as int - 'A' as int + 16;
      assert 0 <= k < 22 && digits[k] == c;
    }
  }

  /** Some character is printable ASCII. */
  predicate IsVisible(s: string) { exists i | 0 <= i < |s| :: '!' <= s[i] <= '~' }

  /** What an ordinary client looks like: it is accepted. */
  lemma OrdinaryIsValid(c: Client)
    requires IsVisible(c.name)
    requires c.wakeEnabled ==> c.mac.Some? && (c.mac.value == "auto" || (|c.mac.value| == 17 && IsMac(c.mac.value)))
    requires 1 <= c.shutdown.batteryPercent <= 100 && 1 <= c.shutdown.agentPort <= 65535
    requires if c.shutdown.agentId.Some? then IsVisible(c.shutdown.agentId.value) else !c.shutdown.enabled
    ensures IsValidClient(c)
  {
    VisibleIsNotBlank(c.name);
    if c.shutdown.agentId.Some? {
      VisibleIsNotBlank(c.shutdown.agentId.value);
    }
  }

  /** A name of nothing but spaces, tabs and line ends is refused, and so is such an agent. */
  lemma EmptyIsInvalid(c: Client)
    requires || (forall i | 0 <= i < |c.name| :: c.name[i] in {' ', '\t', '\n', '\r'})
             || (&& c.shutdown.agentId.Some?
                 && forall i | 0 <= i < |c.shutdown.agentId.value| :: c.shutdown.agentId.value[i] in {' ', '\t', '\n',
                     '\r'})
    ensures !IsValidClient(c)
  {}

  lemma VisibleIsNotBlank(s: string)
    requires IsVisible(s)
    ensures !IsBlank(s)
  {
    var i :| 0 <= i < |s| && '!' <= s[i] <= '~';
    assert !IsSpace(s[i]);
  }
}
