/**
 * The TLS-terminating stream: a two-state machine, `Handshaking` then
 * `Streaming`, driven by read and write polls, and the acceptor that wraps
 * each accepted socket in one. The handshake future and the encrypted
 * stream belong to the TLS library: what polling them yields is passed in
 * as a function (an oracle) on each call.
 */
module Tls {
  import opened Wrappers
  import opened Net

  datatype Poll<T> = Pending | Ready(value: T)

  datatype IoError = IoError(code: int)

  /** `io::Result`. */
  type IoResult<T> = Result<T, IoError>

  /** A raw accepted connection (`AddrStream`); `socket` identifies the underlying socket. */
  datatype AddrStream = AddrStream(remoteAddr: SocketAddr, socket: nat)

  /** The shared server configuration (certificate and key); its contents are not modelled. */
  datatype ServerConfig = ServerConfig(id: nat)

  /** The handshake future that accepting `raw` with `config` starts. */
  datatype Accept = Accept(raw: AddrStream, config: ServerConfig)

  /** The encrypted stream a completed handshake yields; `session` stands for its internal state. */
  datatype Encrypted = Encrypted(raw: AddrStream, session: nat)

  datatype State = Handshaking(accept: Accept) | Streaming(stream: Encrypted)

  /** One poll of an operation on the encrypted stream: what it returns, and the stream afterwards. */
  datatype Step<T> = Step(result: Poll<IoResult<T>>, after: Encrypted)

  /**
   * The rule `poll_read` and `poll_write` share: while handshaking, poll the
   * handshake; on completion run the operation on the new stream and keep
   * that stream; once streaming, run the operation on the stored stream.
   */
  function Drive<T>(s: State, handshake: Accept -> Poll<IoResult<Encrypted>>, op: Encrypted -> Step<T>): (State, Poll<IoResult<T>>)
  {
    match s
    case Handshaking(accept) =>
      (match handshake(accept)
       case Pending => (s, Pending)
       case Ready(Err(e)) => (s, Ready(Err(e)))
       case Ready(Ok(stream)) => (Streaming(op(stream).after), op(stream).result))
    case Streaming(stream) => (Streaming(op(stream).after), op(stream).result)
  }

  /** The rule `poll_flush` and `poll_shutdown` share: nothing to do while handshaking. */
  function Settle(s: State, op: Encrypted -> Step<()>): (State, Poll<IoResult<()>>)
  {
    match s
    case Handshaking(_) => (s, Ready(Ok(())))
    case Streaming(stream) => (Streaming(op(stream).after), op(stream).result)
  }

  /** A state may stay as it is or become `Streaming`; it never becomes another `Handshaking`. */
  predicate Legal(s: State, t: State) {
    t == s || t.Streaming?
  }

  /**
   * The handshake outcome decides a poll while handshaking: pending or failed
   * leaves the state as it is and never reaches the encrypted stream; success
   * enters `Streaming` with the stream the operation left behind.
   */
  lemma DriveWhileHandshaking<T>(accept: Accept, handshake: Accept -> Poll<IoResult<Encrypted>>, op: Encrypted -> Step<T>, other: Encrypted -> Step<T>)
    ensures var (t, p) := Drive(Handshaking(accept), handshake, op);
      match handshake(accept)
      case Pending =>
        t == Handshaking(accept) && p == Pending && Drive(Handshaking(accept), handshake, other) == (t, p)
      case Ready(Err(e)) =>
        t == Handshaking(accept) && p == Ready(Err(e)) && Drive(Handshaking(accept), handshake, other) == (t, p)
      case Ready(Ok(stream)) =>
        t == Streaming(op(stream).after) && p == op(stream).result
  {
  }

  /** Once streaming, every poll delegates to the stored stream and stays streaming. */
  lemma DriveWhileStreaming<T>(stream: Encrypted, handshake: Accept -> Poll<IoResult<Encrypted>>, op: Encrypted -> Step<T>)
    ensures Drive(Streaming(stream), handshake, op) == (Streaming(op(stream).after), op(stream).result)
  {
  }

  lemma DriveIsLegal<T>(s: State, handshake: Accept -> Poll<IoResult<Encrypted>>, op: Encrypted -> Step<T>)
    ensures Legal(s, Drive(s, handshake, op).0)
  {
  }

  lemma SettleIsLegal(s: State, op: Encrypted -> Step<()>)
    ensures Legal(s, Settle(s, op).0)
    ensures s.Handshaking? ==> Settle(s, op) == (s, Ready(Ok(())))
  {
  }

  /** A sequence of states a stream goes through, one poll after another. */
  ghost predicate IsRun(states: seq<State>) {
    forall i :: 0 <= i < |states| - 1 ==> Legal(states[i], states[i + 1])
  }

  /** How many polls in a run took the stream from `Handshaking` to `Streaming`. */
  function Completions(states: seq<State>): nat {
    if |states| < 2 then 0
    else (if states[0].Handshaking? && states[1].Streaming? then 1 else 0) + Completions(states[1..])
  }

  lemma {:induction false} StreamingIsFinal(states: seq<State>, i: nat, j: nat)
    requires IsRun(states)
    requires i <= j < |states|
    requires states[i].Streaming?
    ensures states[j].Streaming?
    decreases j - i
  {
    if i < j {
      assert Legal(states[i], states[i + 1]);
      StreamingIsFinal(states, i + 1, j);
    }
  }

  /** The handshake completes at most once in any run, and never after streaming began. */
  lemma {:induction false} CompletesAtMostOnce(states: seq<State>)
    requires IsRun(states)
    ensures Completions(states) <= 1
    ensures |states| > 0 && states[0].Streaming? ==> Completions(states) == 0
  {
    if |states| >= 2 {
      assert IsRun(states[1..]) by {
        forall i | 0 <= i < |states[1..]| - 1 ensures Legal(states[1..][i], states[1..][i + 1]) {
          assert Legal(states[i + 1], states[i + 2]);
        }
      }
      CompletesAtMostOnce(states[1..]);
      assert Legal(states[0], states[1]);
    }
  }

  /** Before the handshake completes, every state of a run is the one created with the stream. */
  lemma {:induction false} HandshakeIsNeverReplaced(states: seq<State>, j: nat)
    requires IsRun(states)
    requires j < |states| && states[j].Handshaking?
    ensures forall i :: 0 <= i <= j ==> states[i] == states[j]
    decreases j
  {
    if j > 0 {
      assert Legal(states[j - 1], states[j]);
      HandshakeIsNeverReplaced(states, j - 1);
    }
  }

  class TlsStream {
    var state: State
    const remoteAddr: SocketAddr

    constructor (raw: AddrStream, config: ServerConfig)
      ensures state == Handshaking(Accept(raw, config))
      ensures remoteAddr == raw.remoteAddr
    {
      remoteAddr := raw.remoteAddr;
      state := Handshaking(Accept(raw, config));
    }

    /** The peer address, captured once at construction. */
    function RemoteAddr(): SocketAddr {
      remoteAddr
    }

    method PollRead(handshake: Accept -> Poll<IoResult<Encrypted>>, read: Encrypted -> Step<seq<byte>>)
      returns (p: Poll<IoResult<seq<byte>>>)
      modifies this
      ensures (state, p) == Drive(old(state), handshake, read)
      ensures Legal(old(state), state)
    {
      match state
      case Handshaking(accept) =>
        match handshake(accept) {
          case Pending =>
            p := Pending;
          case Ready(Err(e)) =>
            p := Ready(Err(e));
          case Ready(Ok(stream)) =>
            var step := read(stream);
            state := Streaming(step.after);
            p := step.result;
        }
      case Streaming(stream) =>
        var step := read(stream);
        state := Streaming(step.after);
        p := step.result;
    }

    method PollWrite(handshake: Accept -> Poll<IoResult<Encrypted>>, write: (Encrypted, seq<byte>) -> Step<nat>, buf: seq<byte>)
      returns (p: Poll<IoResult<nat>>)
      modifies this
      ensures (state, p) == Drive(old(state), handshake, stream => write(stream, buf))
      ensures Legal(old(state), state)
    {
      match state
      case Handshaking(accept) =>
        match handshake(accept) {
          case Pending =>
            p := Pending;
          case Ready(Err(e)) =>
            p := Ready(Err(e));
          case Ready(Ok(stream)) =>
            var step := write(stream, buf);
            state := Streaming(step.after);
            p := step.result;
        }
      case Streaming(stream) =>
        var step := write(stream, buf);
        state := Streaming(step.after);
        p := step.result;
    }

    method PollFlush(flush: Encrypted -> Step<()>) returns (p: Poll<IoResult<()>>)
      modifies this
      ensures (state, p) == Settle(old(state), flush)
      ensures Legal(old(state), state)
    {
      match state
      case Handshaking(_) =>
        p := Ready(Ok(()));
      case Streaming(stream) =>
        var step := flush(stream);
        state := Streaming(step.after);
        p := step.result;
    }

    method PollShutdown(shutdown: Encrypted -> Step<()>) returns (p: Poll<IoResult<()>>)
      modifies this
      ensures (state, p) == Settle(old(state), shutdown)
      ensures Legal(old(state), state)
    {
      match state
      case Handshaking(_) =>
        p := Ready(Ok(()));
      case Streaming(stream) =>
        var step := shutdown(stream);
        state := Streaming(step.after);
        p := step.result;
    }
  }

  class TlsAcceptor {
    const config: ServerConfig

    constructor (config: ServerConfig)
      ensures this.config == config
    {
      this.config := config;
    }

    /**
     * `next` is what polling the listening socket yields. An accepted socket
     * becomes a fresh stream that has not begun its handshake; errors, the
     * end of the sequence and `Pending` pass through unchanged.
     */
    method PollAccept(next: Poll<Option<IoResult<AddrStream>>>) returns (p: Poll<Option<IoResult<TlsStream>>>)
      ensures match next
        case Pending => p == Pending
        case Ready(None) => p == Ready(None)
        case Ready(Some(Err(e))) => p == Ready(Some(Err(e)))
        case Ready(Some(Ok(sock))) =>
          && p.Ready? && p.value.Some? && p.value.value.Ok?
          && fresh(p.value.value.value)
          && p.value.value.value.state == Handshaking(Accept(sock, config))
          && p.value.value.value.remoteAddr == sock.remoteAddr
    {
      match next
      case Pending =>
        p := Pending;
      case Ready(None) =>
        p := Ready(None);
      case Ready(Some(Err(e))) =>
        p := Ready(Some(Err(e)));
      case Ready(Some(Ok(sock))) =>
        var stream := new TlsStream(sock, config);
        p := Ready(Some(Ok(stream)));
    }
  }
}
