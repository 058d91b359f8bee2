# revprox core in Dafny

A model of the core of revprox, a reverse proxy with TLS termination. It has three parts:

- **Request and response rewriting** (`Handler`, in `handler.dfy`, on top of `headers.dfy` and `ascii.dfy`).
  - The upstream is chosen from the `Host` header and the configured `host -> upstream` map. It falls back to `http://127.0.0.1:8000/`.
  - The outbound URI takes the upstream's scheme and authority and the request's path and query.
  - The headers are copied. Then the hop-by-hop headers are stripped: every name listed in the first `Connection` value, and the eight fixed names of `HOP_HEADERS` (src/handler.rs:124-133).
  - For an upgrade request, `Connection: upgrade` and the original `Upgrade` value are put back.
  - `X-Forwarded-For` and `X-Forwarded-Proto` are added.
  - A response with status 101 goes back as it is. Any other response is stripped too.
- **The TLS stream** (`Tls`, in `tls.dfy`). It is a class whose `state` field is a two-state tagged union, `Handshaking` then `Streaming`, driven by read and write polls. The acceptor wraps each accepted socket in a fresh `Handshaking` stream.
- **The server map** (`Settings`, in `settings.dfy`). The configured list of `(host, proxy_pass)` entries is folded into a map, and a later entry wins. `Routing` (`routing.dfy`) ties this map to upstream resolution.

## Modelling choices

- A `HeaderMap` is a class holding a sequence of (name, value) entries. Names are lower-cased, as hyper stores them.
  - `get` returns the first value under a name.
  - `insert` replaces all values under a name.
  - `remove` deletes all values under a name.
  - `append` adds one more value.
  - Only the order of the values under one name is observable, and that is the order the model keeps.
- Contracts compare maps through `ValuesOf`, the list of values under one name.
- A header value is a `string` whose characters stand for its bytes. `to_str` succeeds on visible ASCII and tab.
- Converting a string key into a header name lower-cases it. `strip_connection_and_hop_headers` removes `Lower(token)` for each token.
- URI parsing belongs to the `http` crate. It is a parameter `parse: string -> Option<Uri>`, and a `Uri` is the three parts `into_parts` yields.
- The fallback URI is parsed eagerly, because it is the argument of `unwrap_or` followed by `?`. So if the fallback fails to parse, the handler returns an error even for a mapped host.
- Unwraps that can panic in the source are preconditions:
  - the upstream's authority (handler.rs:38);
  - the request's path and query (handler.rs:39);
  - `to_str` of the `Connection` value (handler.rs:141).
- The last two are demanded only when the fallback parses. Otherwise the `?` at handler.rs:33 returns `InvalidUri` before either unwrap runs.
- The two `HeaderValue` unwraps in `insert_forwarded_headers` (handler.rs:167, 171) and the one for the `Upgrade` value (handler.rs:57) put their value in a `HeaderValue`, which rejects some bytes. These unwraps are proved not to fail, given that every existing value and the client address are valid `HeaderValue` bytes. The client address condition is a precondition, since the address formatting is not modelled.
- The TLS handshake future and the encrypted stream belong to the TLS library, so each poll gets them as oracle functions:
  - `handshake: Accept -> Poll<IoResult<Encrypted>>` says what polling the handshake yields now;
  - `op: Encrypted -> Step<T>` says what an operation on an encrypted stream returns, and the stream it leaves behind.
- A 101 response is returned unstripped (handler.rs:72-77); only other responses have their hop-by-hop headers removed.

## Model

| member | source | states |
|---|---|---|
| `Ascii.TrimStart` | src/handler.rs:143 | the result is a suffix of the input, everything dropped is whitespace, and it does not start with whitespace |
| `Ascii.TrimEnd` | src/handler.rs:143 | the result is a prefix of the input, everything dropped is whitespace, and it does not end with whitespace |
| `Ascii.Lower` | src/handler.rs:114 | same length, and no capital letter is left; every other character is unchanged, and each capital becomes the same letter in lower case; text without capitals is its own lower case |
| `Ascii.Split` | src/handler.rs:142 | at least one piece, and no piece contains the separator |
| `Ascii.JoinSplit` | src/handler.rs:142 | joining the pieces of `split(",")` with the separator gives the input back |
| `Ascii.SplitJoin` | src/handler.rs:142 | splitting separator-free pieces joined by the separator gives the pieces back |
| `Ascii.ConcatValid` | src/handler.rs:164-167 | the concatenation of two valid header values is a valid header value |
| `Headers.ValuesOf` | src/handler.rs:26 | the per-name value list, in order, that the contracts compare maps by (the handler itself only reads the first of it with `get`); it is empty exactly when no entry has that name |
| `Headers.First` | src/handler.rs:26 | `get` is the first element of the value list under the name, or none |
| `Headers.FirstIsStored` | src/handler.rs:117 | the value `get` returns is an entry of the map |
| `Headers.Filter` | src/handler.rs:147 | an entry is kept exactly when it was there and its name is not dropped |
| `Headers.FilterValues` | src/handler.rs:147 | dropped names have no values left, and every other name keeps all its values |
| `Headers.FilterFilter` | src/handler.rs:146-153 | dropping one set of names and then another is the same as dropping their union |
| `Headers.Replaced` | src/handler.rs:169 | `insert` keeps the entries of other names and adds the one new entry |
| `Headers.ReplacedValues` | src/handler.rs:56-57 | after `insert`, the name has exactly the new value, and other names are unchanged |
| `Headers.WithFirst` | src/handler.rs:163-167 | assigning through `get_mut` only introduces the new entry |
| `Headers.WithFirstValues` | src/handler.rs:163-167 | only the first value under the name changes; the rest, and other names, are unchanged |
| `Headers.HeaderMap.constructor` | src/handler.rs:41 | a new request builder starts with no headers |
| `Headers.HeaderMap.FromEntries` | src/handler.rs:75 | the map of an existing response holds its entries |
| `Headers.HeaderMap.Append` | src/handler.rs:47 | `header(key, value)` adds one entry at the end |
| `Headers.HeaderMap.Insert` | src/handler.rs:56-57 | the map becomes `Replaced` of the old map |
| `Headers.HeaderMap.Remove` | src/handler.rs:147 | the map loses every entry under the name |
| `Headers.HeaderMap.SetFirst` | src/handler.rs:163-167 | the name must be present (the `unwrap`), and the first value under it is replaced |
| `Handler.ResolveUpstream` | src/handler.rs:26-33 | error exactly when the fallback does not parse; otherwise the parsed mapped URI when `Host` is present, visible ASCII, mapped and its mapping parses, else the parsed fallback |
| `Handler.RemoveEachIsFilter` | src/handler.rs:146-148 | removing the keys one by one equals dropping the set of their lower-cased names |
| `Handler.HopNames` | src/handler.rs:123-134 | the eight fixed names are their own header names |
| `Handler.Stripped` | src/handler.rs:136-154 | the map `strip_connection_and_hop_headers` leaves: the first `Connection` value's tokens removed one by one, then the eight fixed names; `StrippedIsFilter`, `StrippedValues`, `StripRemovesHopHeaders` and `StripRemovesConnectionTokens` prove its properties |
| `Handler.StrippedIsFilter` | src/handler.rs:136-154 | stripping keeps, in order, exactly the entries whose names are neither `Connection` tokens nor fixed hop-by-hop names |
| `Handler.StrippedValues` | src/handler.rs:136-154 | a stripped name has no value left; every other name keeps all its values unchanged |
| `Handler.StripRemovesHopHeaders` | src/handler.rs:151-153 | none of the eight fixed names remains |
| `Handler.StripRemovesConnectionTokens` | src/handler.rs:138-149 | every trimmed comma-separated token of the first `Connection` value, read before removal, is absent as a name |
| `Handler.StripConnectionAndHopHeaders` | src/handler.rs:136-154 | the map after the two removal loops is `Stripped` of the old map; requires the `Connection` value to be text |
| `Handler.RemoveKeys` | src/handler.rs:146-153 | a removal loop leaves the map with each key removed in turn |
| `Handler.AnyIsUpgrade` | src/handler.rs:114 | true exactly when some trimmed piece equals `upgrade` |
| `Handler.FindUpgradeType` | src/handler.rs:110-121 | some value exactly when the first `Connection` value is text, lists `upgrade` after lower-casing, splitting and trimming, and an `Upgrade` header exists; that value is the first `Upgrade` value |
| `Handler.WithForwarded` | src/handler.rs:156-179 | the map `insert_forwarded_headers` leaves: the client address appended to the first `X-Forwarded-For` value or inserted, then `X-Forwarded-Proto: https` only when absent; `ForwardedForValues`, `ForwardedValues` and `ForwardedForAccumulates` prove its properties |
| `Handler.ForwardedForValues` | src/handler.rs:162-173 | the first `X-Forwarded-For` value becomes `prior, ip`, or the header is set to `ip` when absent; other names are unchanged |
| `Handler.ForwardedValues` | src/handler.rs:156-179 | as above, plus `X-Forwarded-Proto` is `https` only when it was absent and is otherwise preserved; every other name keeps its values |
| `Handler.ForwardedForAccumulates` | src/handler.rs:162-167 | through two proxies the client addresses accumulate comma-separated, not overwritten |
| `Handler.InsertForwardedHeaders` | src/handler.rs:156-179 | the map becomes `WithForwarded` of the old map, and the `from_bytes(..).unwrap()` calls cannot fail |
| `Handler.ReinstatedValues` | src/handler.rs:55-58 | for an upgrade, `Connection` is exactly `upgrade` and `Upgrade` is exactly the original value; no other name changes |
| `Handler.OutboundUpgrade` | src/handler.rs:52-58 | detection runs on the original headers, and upstream sees exactly one `Connection: upgrade` and one `Upgrade` equal to the original |
| `Handler.OutboundDropsStripped` | src/handler.rs:46-60 | a stripped name reaches upstream only as a reinstated upgrade header or a forwarding header |
| `Handler.OutboundHasNoHopHeaders` | src/handler.rs:46-60 | a request that is not an upgrade reaches upstream with none of the eight fixed names |
| `Handler.OutboundKeepsEndToEnd` | src/handler.rs:46-60 | an end-to-end header reaches upstream with all its values unchanged |
| `Handler.CopyHeaders` | src/handler.rs:46-48 | the copy loop yields a fresh map with exactly the request's entries |
| `Handler.StrippedStaysValid` | src/handler.rs:52 | stripping a map of valid values leaves valid values |
| `Handler.ReinstatedStaysValid` | src/handler.rs:56-57 | the reinstated upgrade headers are valid values, so the `try_into().unwrap()` cannot fail |
| `Handler.RewriteRequest` | src/handler.rs:25-64 | `InvalidUri` when the fallback does not parse, whatever the request's path or `Connection` value, `BodyError` when buffering fails, and otherwise a request with the same method, version and body, the upstream's scheme (`http` if none) and authority with the request's path and query, and `OutboundHeaders` of the request's headers |
| `Handler.RewriteResponse` | src/handler.rs:72-77 | a 101 response is returned unchanged; any other keeps its status and has its headers stripped, so no fixed hop-by-hop name and no `Connection` token remains |
| `Tls.Drive` | src/tls.rs:53-84 | the rule `poll_read` and `poll_write` share, as a function of the state, the handshake outcome and the operation; `DriveWhileHandshaking`, `DriveWhileStreaming` and `DriveIsLegal` prove its properties |
| `Tls.Settle` | src/tls.rs:87-99 | the rule `poll_flush` and `poll_shutdown` share; `SettleIsLegal` proves its properties |
| `Tls.DriveWhileHandshaking` | src/tls.rs:54-61 | while handshaking: a pending handshake gives `Pending` and a failed one gives its error, both leaving the state unchanged without touching any encrypted stream; a completed one runs the operation on the new stream, returns its result and enters `Streaming` |
| `Tls.DriveWhileStreaming` | src/tls.rs:62 | once streaming, a poll delegates to the stored stream and stays streaming |
| `Tls.DriveIsLegal` | src/tls.rs:57 | a read or write poll leaves the state as it is or makes it `Streaming` |
| `Tls.SettleIsLegal` | src/tls.rs:87-99 | flush and shutdown return `Ok(())` without touching state while handshaking, and otherwise stay streaming |
| `Tls.StreamingIsFinal` | src/tls.rs:57 | in any run of polls, once `Streaming`, always `Streaming` |
| `Tls.CompletesAtMostOnce` | src/tls.rs:78 | in any run of polls, the handshake-to-streaming transition happens at most once, and never in a run that starts streaming |
| `Tls.HandshakeIsNeverReplaced` | src/tls.rs:35-37 | a `Handshaking` state in a run equals every state before it, so the handshake started at construction is never replaced |
| `Tls.TlsStream.constructor` | src/tls.rs:32-39 | starts handshaking on the raw stream with the configuration, and captures the raw stream's remote address (a constant field, which `remote_addr` returns) |
| `Tls.TlsStream.RemoteAddr` | src/tls.rs:41-43 | the remote address captured at construction, which no poll changes |
| `Tls.TlsStream.PollRead` | src/tls.rs:47-64 | the new state and the result are those of `Drive` on the old state, and the move is legal |
| `Tls.TlsStream.PollWrite` | src/tls.rs:68-85 | the new state and the result are those of `Drive` with the write of `buf`, and the move is legal |
| `Tls.TlsStream.PollFlush` | src/tls.rs:87-92 | the new state and the result are those of `Settle` with the flush |
| `Tls.TlsStream.PollShutdown` | src/tls.rs:94-99 | the new state and the result are those of `Settle` with the shutdown |
| `Tls.TlsAcceptor.constructor` | src/tls.rs:108-113 | keeps the shared configuration |
| `Tls.TlsAcceptor.PollAccept` | src/tls.rs:120-130 | an accepted socket becomes a fresh `Handshaking` stream with that socket's address; `Pending`, end of sequence and accept errors pass through unchanged |
| `Settings.Servers` | src/settings.rs:25-30 | the (host, proxy_pass) pairs folded into a map in list order, so a later entry overwrites an earlier one; `ServersKeys`, `ServersLastWins` and `DistinctHosts` prove its properties |
| `Settings.ServersKeys` | src/settings.rs:25-30 | the map's keys are exactly the configured hosts, and it has no more keys than entries |
| `Settings.ServersLastWins` | src/settings.rs:26-29 | a host maps to the `proxy_pass` of its last entry |
| `Settings.DistinctHosts` | src/settings.rs:25-30 | with distinct hosts, every pair is in the map and the map's size equals the number of entries |
| `Routing.ConfiguredHostIsRouted` | src/handler.rs:29-33 | a request for a configured visible-ASCII host whose last `proxy_pass` parses goes to that upstream |
| `Routing.UnconfiguredHostFallsBack` | src/handler.rs:29-33 | a request with no `Host`, or an unconfigured one, goes to the fallback |

## Left out

- `handle_upgrade` (src/handler.rs:81-108) is not modelled. It takes over both upgraded connections and spawns a byte-splicing task. That is foreign upgrade machinery plus concurrency. Only the branch "101: return the response as it is" is modelled.
- Sending the request with the HTTP client (`client.request`) is foreign I/O. The request half (`RewriteRequest`) and the response half (`RewriteResponse`) of `handle_client` are modelled separately, joined by that call. Its errors are not modelled.
- Buffering the body is I/O. It is one boolean, `bodyReadFails`; otherwise the outbound body equals the request's body. There is no size limit, as in the source.
- URI parsing and formatting belong to the `http` crate. They are the parameter `parse`. `Uri::builder().build()` is taken to succeed, since all three parts are present.
- Header name validation is not modelled. An invalid key, such as an empty `Connection` token, removes nothing in hyper. In the model it removes nothing either, because no stored name is invalid. The model does not enforce that invariant.
- The order of entries across different names is not hyper's. Only the order of values under one name is kept.
- `Handler::new`, which only stores the map, is not modelled. The map is a parameter of `ResolveUpstream` and `RewriteRequest`.
- `Tls.TlsStream.PollRead` and `PollWrite` do not model the ready-buffer. The read data is the operation's result value. A failed handshake leaves the state `Handshaking`, as in the source; what the TLS library does when polled again after that is not modelled.
- `Tls.TlsAcceptor.PollAccept` takes the listening socket's poll outcome as a parameter. The state of `AddrIncoming` and the task context (`cx`) are not modelled.
- `Settings::from_config_file` is file I/O and is not modelled.
- The rest of the repository is outside this model: the SSH readiness bridge (src/tssh.rs, src/async_ssh/), the tunnel (src/tunnel.rs) and `copy_duplex` (src/utils.rs). These are async scheduling over an FFI library, network setup and concurrent copying. Server wiring (src/main.rs, src/macros.rs) and the CLI struct (src/opt.rs) are also left out.
- Debug printing (`dbg!`) is not modelled.
- Formatting the client address (`IpAddr`'s `Display`) is not modelled: `SocketAddr.ip` is its output, and `InsertForwardedHeaders` and `RewriteRequest` require it to be valid header bytes. So the proof that the `from_str(..).unwrap()` at src/handler.rs:171 cannot fail rests on that requirement, not on the formatting.
