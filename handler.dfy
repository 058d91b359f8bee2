/**
 * The reverse-proxy request and response rewriting of `Handler`: upstream
 * resolution, the outbound URI, the header copy, hop-by-hop stripping
 * (section 6.1 of RFC 7230, "Connection"), reinstating an upgrade request,
 * and the `X-Forwarded-For` / `X-Forwarded-Proto` headers.
 */
module Handler {
  import opened Wrappers
  import opened Net
  import opened Ascii
  import opened Headers

  // Header names, lower-cased as hyper stores them.
  const Host := "host"
  const Connection := "connection"
  const Upgrade := "upgrade"
  const XForwardedFor := "x-forwarded-for"
  const XForwardedProto := "x-forwarded-proto"

  /** The fixed hop-by-hop names, removed from every request and non-101 response. */
  const HopHeaders: seq<string> := [
    "connection",
    "keep-alive",
    "proxy-authenticate",
    "proxy-authorization",
    "te",
    "trailer",
    "transfer-encoding",
    "upgrade"
  ]

  /** The upstream used whenever the `Host` header does not lead to one. */
  const FallbackUpstream := "http://127.0.0.1:8000/"

  const SwitchingProtocols := 101

  /** `uri::Scheme::HTTP`, the scheme an upstream without one gets. */
  const Http := "http"

  datatype Version = Http09 | Http10 | Http11 | H2 | H3

  /** The parts `Uri::into_parts` yields. */
  datatype Uri = Uri(scheme: Option<string>, authority: Option<string>, pathAndQuery: Option<string>)

  /** `verb` is the HTTP method. */
  datatype Request = Request(verb: string, uri: Uri, version: Version, headers: seq<Header>, body: seq<byte>)

  /** A response as far as the handler looks at it; its body streams through untouched. */
  datatype Response = Response(status: nat, headers: seq<Header>)

  datatype Error =
    | InvalidUri  // the fallback upstream did not parse
    | BodyError   // buffering the request body failed

  // ---------------------------------------------------------------- upstream

  /**
   * The `and_then` chain: the first `Host` value, if it is visible ASCII,
   * looked up in the server map, and the mapped string parsed.
   */
  function MappedUpstream(servers: map<string, string>, parse: string -> Option<Uri>, headers: seq<Header>): Option<Uri>
  {
    match First(headers, Host)
    case None => None
    case Some(host) =>
      if !IsVisibleAscii(host) || host !in servers then None else parse(servers[host])
  }

  /**
   * The upstream a request goes to. The fallback is parsed eagerly (it is the
   * argument of `unwrap_or`, and `?` returns its parse error), so a fallback
   * that does not parse is an error whether or not the host is mapped.
   */
  function ResolveUpstream(servers: map<string, string>, parse: string -> Option<Uri>, headers: seq<Header>): (r: Result<Uri, Error>)
    ensures r.Err? <==> parse(FallbackUpstream).None?
    ensures r.Ok? ==>
      var host := First(headers, Host);
      if host.Some? && IsVisibleAscii(host.value) && host.value in servers && parse(servers[host.value]).Some?
      then r.value == parse(servers[host.value]).value
      else r.value == parse(FallbackUpstream).value
  {
    var fallback := parse(FallbackUpstream);
    if fallback.None? then Err(InvalidUri)
    else Ok(MappedUpstream(servers, parse, headers).GetOr(fallback.value))
  }

  /** The resolved upstream has an authority, so unwrapping it cannot panic. */
  predicate UpstreamHasAuthority(servers: map<string, string>, parse: string -> Option<Uri>, headers: seq<Header>) {
    var up := ResolveUpstream(servers, parse, headers);
    up.Ok? ==> up.value.authority.Some?
  }

  // --------------------------------------------------------------- stripping

  /** The first `Connection` value is text, so converting it to a string cannot panic. */
  predicate ConnectionIsText(headers: seq<Header>) {
    match First(headers, Connection)
    case None => true
    case Some(v) => IsVisibleAscii(v)
  }

  function TrimAll(pieces: seq<string>): seq<string>
  {
    seq(|pieces|, i requires 0 <= i < |pieces| => Trim(pieces[i]))
  }

  lemma TrimAllHas(pieces: seq<string>, w: string)
    ensures w in TrimAll(pieces) <==> exists i :: 0 <= i < |pieces| && Trim(pieces[i]) == w
  {
    var t := TrimAll(pieces);
    assert forall i :: 0 <= i < |pieces| ==> t[i] == Trim(pieces[i]);
  }

  /** The names listed in the first `Connection` value: split at commas, each piece trimmed. */
  function ConnectionTokens(headers: seq<Header>): seq<string> {
    match First(headers, Connection)
    case None => []
    case Some(v) => TrimAll(Split(v, ','))
  }

  /** The header names `keys` denote: `remove` lower-cases a string key. */
  function NamesOf(keys: seq<string>): set<string> {
    set k | k in keys :: Lower(k)
  }

  /** The map after `remove(k)` for each key `k` of `keys` in turn. */
  function RemoveEach(headers: seq<Header>, keys: seq<string>): seq<Header>
    decreases |keys|
  {
    if keys == [] then headers
    else Without(RemoveEach(headers, keys[..|keys| - 1]), Lower(keys[|keys| - 1]))
  }

  lemma {:induction false} RemoveEachIsFilter(headers: seq<Header>, keys: seq<string>)
    ensures RemoveEach(headers, keys) == Filter(headers, NamesOf(keys))
    decreases |keys|
  {
    if keys == [] {
      assert NamesOf(keys) == {};
      FilterNothing(headers);
    } else {
      var init, last := keys[..|keys| - 1], keys[|keys| - 1];
      RemoveEachIsFilter(headers, init);
      FilterFilter(headers, NamesOf(init), {Lower(last)});
      assert keys == init + [last];
      assert NamesOf(keys) == NamesOf(init) + {Lower(last)};
    }
  }

  /** What `strip_connection_and_hop_headers` leaves of a map. */
  function Stripped(headers: seq<Header>): seq<Header> {
    RemoveEach(RemoveEach(headers, ConnectionTokens(headers)), HopHeaders)
  }

  /** The names stripping removes: the `Connection` tokens and the fixed hop-by-hop set. */
  function StrippedNames(headers: seq<Header>): set<string> {
    NamesOf(ConnectionTokens(headers)) + NamesOf(HopHeaders)
  }

  /** The eight fixed names are already lower case, so they are their own header names. */
  lemma HopNames()
    ensures NamesOf(HopHeaders) == set k | k in HopHeaders
  {
    assert NoUpper("connection") && NoUpper("keep-alive");
    assert NoUpper("proxy-authenticate") && NoUpper("proxy-authorization");
    assert NoUpper("te") && NoUpper("trailer");
    assert NoUpper("transfer-encoding") && NoUpper("upgrade");
  }

  /** Stripping keeps exactly the entries whose names are not stripped, in order. */
  lemma StrippedIsFilter(headers: seq<Header>)
    ensures Stripped(headers) == Filter(headers, StrippedNames(headers))
  {
    var tokens := ConnectionTokens(headers);
    RemoveEachIsFilter(headers, tokens);
    RemoveEachIsFilter(RemoveEach(headers, tokens), HopHeaders);
    FilterFilter(headers, NamesOf(tokens), NamesOf(HopHeaders));
  }

  /** Under a stripped name no value is left; under any other name every value is kept. */
  lemma StrippedValues(headers: seq<Header>, n: string)
    ensures ValuesOf(Stripped(headers), n) == if n in StrippedNames(headers) then [] else ValuesOf(headers, n)
  {
    StrippedIsFilter(headers);
    FilterValues(headers, StrippedNames(headers), n);
  }

  lemma StripRemovesHopHeaders(headers: seq<Header>)
    ensures forall k :: k in HopHeaders ==> !Has(Stripped(headers), k)
  {
    HopNames();
    forall k | k in HopHeaders ensures !Has(Stripped(headers), k) {
      StrippedValues(headers, k);
    }
  }

  lemma StripRemovesConnectionTokens(headers: seq<Header>)
    ensures forall t :: t in ConnectionTokens(headers) ==> !Has(Stripped(headers), Lower(t))
  {
    forall t | t in ConnectionTokens(headers) ensures !Has(Stripped(headers), Lower(t)) {
      StrippedValues(headers, Lower(t));
    }
  }

  method StripConnectionAndHopHeaders(h: HeaderMap)
    requires ConnectionIsText(h.entries)
    modifies h
    ensures h.entries == Stripped(old(h.entries))
  {
    var connection := h.Get(Connection);
    if connection.Some? {
      // ConnectionIsText: the value converts to a string without panicking
      var tokens := TrimAll(Split(connection.value, ','));
      RemoveKeys(h, tokens);
    }
    RemoveKeys(h, HopHeaders);
  }

  /** A removal loop: each key of `keys`, in order, is removed from the map. */
  method RemoveKeys(h: HeaderMap, keys: seq<string>)
    modifies h
    ensures h.entries == RemoveEach(old(h.entries), keys)
  {
    ghost var original := h.entries;
    for i := 0 to |keys|
      invariant h.entries == RemoveEach(original, keys[..i])
    {
      assert keys[..i + 1][..i] == keys[..i];
      h.Remove(Lower(keys[i]));
    }
    assert keys[..|keys|] == keys;
  }

  // ----------------------------------------------------------------- upgrade

  /** Whether some piece, once trimmed, is the word `upgrade`. */
  function AnyIsUpgrade(pieces: seq<string>): (r: bool)
    ensures r <==> exists i :: 0 <= i < |pieces| && Trim(pieces[i]) == Upgrade
  {
    if pieces == [] then false
    else Trim(pieces[0]) == Upgrade || AnyIsUpgrade(pieces[1..])
  }

  /** The first `Connection` value is text and, lower-cased, lists the token `upgrade`. */
  ghost predicate RequestsUpgrade(headers: seq<Header>) {
    match First(headers, Connection)
    case None => false
    case Some(v) => IsVisibleAscii(v) && Upgrade in TrimAll(Split(Lower(v), ','))
  }

  function FindUpgradeType(headers: seq<Header>): (r: Option<string>)
    ensures r.Some? <==> RequestsUpgrade(headers) && Has(headers, Upgrade)
    ensures r.Some? ==> r == First(headers, Upgrade)
  {
    var isUpgrade :=
      (match First(headers, Connection)
       case None => false
       case Some(v) =>
         TrimAllHas(Split(Lower(v), ','), Upgrade);
         IsVisibleAscii(v) && AnyIsUpgrade(Split(Lower(v), ',')));
    if isUpgrade then First(headers, Upgrade) else None
  }

  /** The outbound map after `Connection: upgrade` and the original `Upgrade` value are inserted again. */
  function Reinstated(headers: seq<Header>, upgrade: Option<string>): seq<Header> {
    match upgrade
    case None => headers
    case Some(u) => Replaced(Replaced(headers, Connection, Upgrade), Upgrade, u)
  }

  // --------------------------------------------------------------- forwarded

  /** The first stage of `insert_forwarded_headers`, on `X-Forwarded-For`. */
  function WithForwardedFor(headers: seq<Header>, clientIp: string): seq<Header> {
    match First(headers, XForwardedFor)
    case Some(prior) => WithFirst(headers, XForwardedFor, prior + ", " + clientIp)
    case None => Replaced(headers, XForwardedFor, clientIp)
  }

  /** What `insert_forwarded_headers` makes of a map. */
  function WithForwarded(headers: seq<Header>, clientIp: string): seq<Header> {
    var withFor := WithForwardedFor(headers, clientIp);
    if Has(withFor, XForwardedProto) then withFor else Replaced(withFor, XForwardedProto, "https")
  }

  lemma ForwardedForValues(headers: seq<Header>, clientIp: string, n: string)
    ensures var before := ValuesOf(headers, n);
      ValuesOf(WithForwardedFor(headers, clientIp), n) ==
        if n != XForwardedFor then before
        else if before == [] then [clientIp]
        else [before[0] + ", " + clientIp] + before[1..]
  {
    match First(headers, XForwardedFor)
    case Some(prior) => WithFirstValues(headers, XForwardedFor, prior + ", " + clientIp, n);
    case None => ReplacedValues(headers, XForwardedFor, clientIp, n);
  }

  /**
   * The client address is appended to the first `X-Forwarded-For` value (or
   * becomes it), `X-Forwarded-Proto` is `https` only where it was missing,
   * and every other name keeps all its values.
   */
  lemma ForwardedValues(headers: seq<Header>, clientIp: string, n: string)
    ensures var before := ValuesOf(headers, n);
      ValuesOf(WithForwarded(headers, clientIp), n) ==
        if n == XForwardedFor then
          (if before == [] then [clientIp] else [before[0] + ", " + clientIp] + before[1..])
        else if n == XForwardedProto then
          (if before == [] then ["https"] else before)
        else before
  {
    var withFor := WithForwardedFor(headers, clientIp);
    ForwardedForValues(headers, clientIp, n);
    ForwardedForValues(headers, clientIp, XForwardedProto);
    if !Has(withFor, XForwardedProto) {
      ReplacedValues(withFor, XForwardedProto, "https", n);
    }
  }

  /** Through a chain of two proxies the addresses accumulate, comma-separated. */
  lemma ForwardedForAccumulates(headers: seq<Header>, ip1: string, ip2: string)
    ensures First(WithForwarded(WithForwarded(headers, ip1), ip2), XForwardedFor) ==
      Some(match First(headers, XForwardedFor)
           case Some(prior) => prior + ", " + ip1 + ", " + ip2
           case None => ip1 + ", " + ip2)
  {
    ForwardedValues(headers, ip1, XForwardedFor);
    ForwardedValues(WithForwarded(headers, ip1), ip2, XForwardedFor);
  }

  method InsertForwardedHeaders(h: HeaderMap, clientIp: string)
    requires AllValid(h.entries) && IsValidValue(clientIp)
    modifies h
    ensures h.entries == WithForwarded(old(h.entries), clientIp)
  {
    if h.ContainsKey(XForwardedFor) {
      var prior := h.Get(XForwardedFor).value;
      // building the joined value cannot fail: every byte is a valid value byte
      FirstIsStored(h.entries, XForwardedFor);
      ConcatValid(prior, ", ");
      ConcatValid(prior + ", ", clientIp);
      h.SetFirst(XForwardedFor, prior + ", " + clientIp);
    } else {
      h.Insert(XForwardedFor, clientIp);
    }
    if !h.ContainsKey(XForwardedProto) {
      h.Insert(XForwardedProto, "https");
    }
  }

  // ------------------------------------------------------ request, response

  lemma ReinstatedValues(headers: seq<Header>, upgrade: Option<string>, n: string)
    ensures ValuesOf(Reinstated(headers, upgrade), n) ==
      if upgrade.Some? && n == Connection then [Upgrade]
      else if upgrade.Some? && n == Upgrade then [upgrade.value]
      else ValuesOf(headers, n)
  {
    if upgrade.Some? {
      ReplacedValues(headers, Connection, Upgrade, n);
      ReplacedValues(Replaced(headers, Connection, Upgrade), Upgrade, upgrade.value, n);
    }
  }

  /** The headers `handle_client` sends upstream for a request with `headers` from `clientIp`. */
  function OutboundHeaders(headers: seq<Header>, clientIp: string): seq<Header> {
    WithForwarded(Reinstated(Stripped(headers), FindUpgradeType(headers)), clientIp)
  }

  /** An upgrade request reaches the upstream with one `Connection: upgrade` and its own `Upgrade` value. */
  lemma OutboundUpgrade(headers: seq<Header>, clientIp: string)
    requires FindUpgradeType(headers).Some?
    ensures ValuesOf(OutboundHeaders(headers, clientIp), Connection) == [Upgrade]
    ensures ValuesOf(OutboundHeaders(headers, clientIp), Upgrade) == [First(headers, Upgrade).value]
  {
    var mid := Reinstated(Stripped(headers), FindUpgradeType(headers));
    ForwardedValues(mid, clientIp, Connection);
    ForwardedValues(mid, clientIp, Upgrade);
    ReinstatedValues(Stripped(headers), FindUpgradeType(headers), Connection);
    ReinstatedValues(Stripped(headers), FindUpgradeType(headers), Upgrade);
  }

  /**
   * A stripped name has no value upstream, unless it is `Connection` or
   * `Upgrade` of an upgrade request, or a forwarding header the proxy sets.
   */
  lemma OutboundDropsStripped(headers: seq<Header>, clientIp: string, n: string)
    requires n in StrippedNames(headers)
    requires n != XForwardedFor && n != XForwardedProto
    requires FindUpgradeType(headers).None? || (n != Connection && n != Upgrade)
    ensures !Has(OutboundHeaders(headers, clientIp), n)
  {
    var mid := Reinstated(Stripped(headers), FindUpgradeType(headers));
    ForwardedValues(mid, clientIp, n);
    ReinstatedValues(Stripped(headers), FindUpgradeType(headers), n);
    StrippedValues(headers, n);
  }

  /** For a request that is not an upgrade, none of the fixed hop-by-hop names reaches the upstream. */
  lemma OutboundHasNoHopHeaders(headers: seq<Header>, clientIp: string)
    requires FindUpgradeType(headers).None?
    ensures forall k :: k in HopHeaders ==> !Has(OutboundHeaders(headers, clientIp), k)
  {
    HopNames();
    forall k | k in HopHeaders ensures !Has(OutboundHeaders(headers, clientIp), k) {
      OutboundDropsStripped(headers, clientIp, k);
    }
  }

  /** Every end-to-end header arrives upstream with all its values. */
  lemma OutboundKeepsEndToEnd(headers: seq<Header>, clientIp: string, n: string)
    requires n !in StrippedNames(headers)
    requires n != XForwardedFor && n != XForwardedProto
    ensures ValuesOf(OutboundHeaders(headers, clientIp), n) == ValuesOf(headers, n)
  {
    HopNames();
    assert Connection in HopHeaders && Upgrade in HopHeaders;
    var mid := Reinstated(Stripped(headers), FindUpgradeType(headers));
    ForwardedValues(mid, clientIp, n);
    ReinstatedValues(Stripped(headers), FindUpgradeType(headers), n);
    StrippedValues(headers, n);
  }

  /** The copy loop of `handle_client`: each (name, value) of the request is appended in order to a new map. */
  method CopyHeaders(src: seq<Header>) returns (h: HeaderMap)
    requires AllValid(src)
    ensures fresh(h) && h.entries == src
  {
    h := new HeaderMap();
    for i := 0 to |src|
      invariant h.entries == src[..i]
    {
      assert src[i] in src;
      h.Append(src[i].name, src[i].value);
      assert src[..i + 1] == src[..i] + [src[i]];
    }
    assert src[..|src|] == src;
  }

  /** Stripping keeps only values that were there, so a map of valid values stays one. */
  lemma StrippedStaysValid(headers: seq<Header>)
    requires AllValid(headers)
    ensures AllValid(Stripped(headers))
  {
    StrippedIsFilter(headers);
  }

  /** The values inserted for an upgrade are valid `HeaderValue`s, so the `unwrap` there cannot panic. */
  lemma ReinstatedStaysValid(headers: seq<Header>, upgrade: Option<string>)
    requires AllValid(headers)
    requires upgrade.Some? ==> IsValidValue(upgrade.value)
    ensures AllValid(Reinstated(headers, upgrade))
  {
    assert IsValidValue(Upgrade);
  }

  /**
   * Lines 25-64 of `handle_client`: everything up to handing the request to
   * the HTTP client. `bodyReadFails` is the outcome of buffering the body.
   */
  method RewriteRequest(servers: map<string, string>, parse: string -> Option<Uri>, addr: SocketAddr,
                        req: Request, bodyReadFails: bool)
    returns (r: Result<Request, Error>)
    requires UpstreamHasAuthority(servers, parse, req.headers)
    requires parse(FallbackUpstream).Some? ==> req.uri.pathAndQuery.Some? && ConnectionIsText(req.headers)
    requires AllValid(req.headers) && IsValidValue(addr.ip)
    ensures parse(FallbackUpstream).None? ==> r == Err(InvalidUri)
    ensures parse(FallbackUpstream).Some? && bodyReadFails ==> r == Err(BodyError)
    ensures r.Ok? <==> parse(FallbackUpstream).Some? && !bodyReadFails
    ensures r.Ok? ==>
      var up := ResolveUpstream(servers, parse, req.headers).value;
      && r.value.verb == req.verb
      && r.value.version == req.version
      && r.value.uri == Uri(Some(up.scheme.GetOr(Http)), up.authority, req.uri.pathAndQuery)
      && r.value.headers == OutboundHeaders(req.headers, addr.ip)
      && r.value.body == req.body
  {
    var upstream := ResolveUpstream(servers, parse, req.headers);
    if upstream.Err? {
      return Err(upstream.error);
    }
    var up := upstream.value;
    // the builder cannot fail: scheme, authority and path-and-query are all present
    var uri := Uri(Some(up.scheme.GetOr(Http)), Some(up.authority.value), req.uri.pathAndQuery);

    var headers := CopyHeaders(req.headers);
    StripConnectionAndHopHeaders(headers);
    var upgrade := FindUpgradeType(req.headers);
    StrippedStaysValid(req.headers);
    if upgrade.Some? {
      FirstIsStored(req.headers, Upgrade);
      ReinstatedStaysValid(headers.entries, upgrade);
      assert IsValidValue(Upgrade);
      headers.Insert(Connection, Upgrade);
      headers.Insert(Upgrade, upgrade.value);
    }
    InsertForwardedHeaders(headers, addr.ip);

    if bodyReadFails {
      return Err(BodyError);
    }
    r := Ok(Request(req.verb, uri, req.version, headers.entries, req.body));
  }

  /**
   * Lines 72-77 of `handle_client`: a 101 response goes back as it is (the
   * byte splice that follows it is not modelled); any other has its
   * hop-by-hop headers stripped.
   */
  method RewriteResponse(res: Response) returns (out: Response)
    requires res.status != SwitchingProtocols ==> ConnectionIsText(res.headers)
    ensures out.status == res.status
    ensures res.status == SwitchingProtocols ==> out == res
    ensures res.status != SwitchingProtocols ==>
      && out.headers == Stripped(res.headers)
      && (forall k :: k in HopHeaders ==> !Has(out.headers, k))
      && (forall t :: t in ConnectionTokens(res.headers) ==> !Has(out.headers, Lower(t)))
  {
    if res.status == SwitchingProtocols {
      out := res;
    } else {
      var headers := new HeaderMap.FromEntries(res.headers);
      StripConnectionAndHopHeaders(headers);
      StripRemovesHopHeaders(res.headers);
      StripRemovesConnectionTokens(res.headers);
      out := Response(res.status, headers.entries);
    }
  }
}
