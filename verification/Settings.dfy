/** The part of the loaded configuration that the polling loop acts on. */
module Settings {
  import opened Wrappers

  datatype ShutdownPolicy = ShutdownPolicy(enabled: bool, batteryPercent: int, agentId: Option<string>)

  datatype Client = Client(name: string, enabled: bool, wakeEnabled: bool, alwaysWake: bool, shutdown: ShutdownPolicy)

  datatype Config = Config(
    clients: seq<Client>,
    pollInterval: int,
    minBatteryPercent: int,
    restoreDelay: int,
    clientTimeout: int,
    reattemptDelay: int)

  function NamesOf(clients: seq<Client>): (names: set<string>)
    ensures forall i | 0 <= i < |clients| :: clients[i].name in names
  {
    set i | 0 <= i < |clients| :: clients[i].name
  }

  function EnabledNames(clients: seq<Client>): set<string> {
    set i | 0 <= i < |clients| && clients[i].enabled :: clients[i].name
  }

  ghost predicate UniqueNames(clients: seq<Client>) {
    forall i, j | 0 <= i < j < |clients| :: clients[i].name != clients[j].name
  }

  function NameList(clients: seq<Client>): (names: seq<string>)
    ensures |names| == |clients| && forall i | 0 <= i < |names| :: names[i] == clients[i].name
    ensures (set name | name in names) == NamesOf(clients)
  {
    seq(|clients|, i requires 0 <= i < |clients| => clients[i].name)
  }
}
