/**
 * The server map built from the settings is the one the handler resolves
 * `Host` headers against.
 */
module Routing {
  import opened Wrappers
  import opened Ascii
  import opened Headers
  import opened Settings
  import opened Handler

  /** A request for a configured host goes to the `proxy_pass` of that host's last entry. */
  lemma ConfiguredHostIsRouted(settings: Settings, parse: string -> Option<Uri>, headers: seq<Header>, i: int)
    requires IsLastFor(settings.servers, i)
    requires First(headers, Handler.Host) == Some(settings.servers[i].host)
    requires IsVisibleAscii(settings.servers[i].host)
    requires parse(settings.servers[i].proxyPass).Some? && parse(FallbackUpstream).Some?
    ensures ResolveUpstream(Servers(settings), parse, headers) == Ok(parse(settings.servers[i].proxyPass).value)
  {
    ServersLastWins(settings, i);
  }

  /** A request whose host is not configured goes to the fallback upstream. */
  lemma UnconfiguredHostFallsBack(settings: Settings, parse: string -> Option<Uri>, headers: seq<Header>)
    requires First(headers, Handler.Host).Some? ==> First(headers, Handler.Host).value !in Hosts(settings.servers)
    requires parse(FallbackUpstream).Some?
    ensures ResolveUpstream(Servers(settings), parse, headers) == Ok(parse(FallbackUpstream).value)
  {
    ServersKeys(settings);
  }
}
