/** The configured servers and the `host -> proxy_pass` map the handler consumes. */
module Settings {

  datatype ServerSetting = ServerSetting(host: string, proxyPass: string)

  datatype Settings = Settings(servers: seq<ServerSetting>)

  /** The settings without their last entry. */
  function Init(settings: Settings): Settings
    requires settings.servers != []
  {
    Settings(settings.servers[..|settings.servers| - 1])
  }

  /**
   * `Settings::servers`: the `(host, proxy_pass)` pairs collected into a
   * map in order, so a later entry overwrites an earlier one.
   */
  function Servers(settings: Settings): map<string, string>
    decreases |settings.servers|
  {
    var entries := settings.servers;
    if entries == [] then map[]
    else Servers(Init(settings))[entries[|entries| - 1].host := entries[|entries| - 1].proxyPass]
  }

  function Hosts(entries: seq<ServerSetting>): set<string> {
    set e | e in entries :: e.host
  }

  /** Entry `i` is the last one for its host. */
  ghost predicate IsLastFor(entries: seq<ServerSetting>, i: int) {
    0 <= i < |entries| && forall j :: i < j < |entries| ==> entries[j].host != entries[i].host
  }

  /** The map has exactly the configured hosts as keys, and no more keys than entries. */
  lemma {:induction false} ServersKeys(settings: Settings)
    ensures Servers(settings).Keys == Hosts(settings.servers)
    ensures |Servers(settings)| <= |settings.servers|
    decreases |settings.servers|
  {
    var entries := settings.servers;
    if entries != [] {
      var init, last := Init(settings).servers, entries[|entries| - 1];
      ServersKeys(Init(settings));
      assert entries == init + [last];
      assert Hosts(entries) == Hosts(init) + {last.host};
    }
  }

  /** A host listed more than once maps to the `proxy_pass` of its last entry. */
  lemma {:induction false} ServersLastWins(settings: Settings, i: int)
    requires IsLastFor(settings.servers, i)
    ensures settings.servers[i].host in Servers(settings)
    ensures Servers(settings)[settings.servers[i].host] == settings.servers[i].proxyPass
    decreases |settings.servers|
  {
    if i < |settings.servers| - 1 {
      assert IsLastFor(Init(settings).servers, i);
      ServersLastWins(Init(settings), i);
    }
  }

  /** With no host listed twice, every entry is in the map and the map has one key per entry. */
  lemma {:induction false} DistinctHosts(settings: Settings)
    requires forall i, j :: 0 <= i < j < |settings.servers| ==> settings.servers[i].host != settings.servers[j].host
    ensures |Servers(settings)| == |settings.servers|
    ensures forall e :: e in settings.servers ==> e.host in Servers(settings) && Servers(settings)[e.host] == e.proxyPass
    decreases |settings.servers|
  {
    var entries := settings.servers;
    if entries != [] {
      var init, last := Init(settings).servers, entries[|entries| - 1];
      DistinctHosts(Init(settings));
      ServersKeys(Init(settings));
      assert last.host !in Hosts(init);
      forall e | e in entries ensures e.host in Servers(settings) && Servers(settings)[e.host] == e.proxyPass {
        var i :| 0 <= i < |entries| && entries[i] == e;
        ServersLastWins(settings, i);
      }
    }
  }
}
