/**
 * The device-side reporting listener as a state machine over values: the
 * process-wide list of failed display names and the connection to the host,
 * whose log holds every message line handed to the socket.
 */
module ListenerSpec {
  import opened Wrappers
  import opened JUnit
  import opened Decimal
  import R = ResultObjects

  /** The connection to the host: absent (null), or a socket with its lines. */
  datatype Conn = NoSocket | Socket(closed: bool, lines: seq<R.Message>)

  datatype ListenerState = ListenerState(failed: seq<string>, conn: Conn)

  /**
   * What goes wrong inside transmit, from code outside the model: the JSON
   * encoder throws before anything is written, or the settle sleep after the
   * write is interrupted.
   */
  datatype Fault = NoFault | EncodeFault | SleepInterrupted

  /** The exception transmit raises (always caught by sendToHost). */
  datatype TransmitError = ConnectionDied | SocketClosed | EncodeFailed | Interrupted

  datatype Outcome = Transmitted | NotTransmitted(error: TransmitError)

  /** The six JUnit callbacks. */
  datatype Callback =
    | OnIgnored(description: Description)
    | OnRunStarted(description: Description)
    | OnRunFinished(result: RunResult)
    | OnStarted(description: Description)
    | OnFinished(description: Description)
    | OnFailure(failure: Failure)

  /** One callback together with the fault, if any, its transmit meets. */
  datatype Event = Event(callback: Callback, fault: Fault)

  function Lines(c: Conn): seq<R.Message>
  {
    if c.Socket? then c.lines else []
  }

  predicate IsOpen(c: Conn)
  {
    c.Socket? && !c.closed
  }

  predicate IsClosed(c: Conn)
  {
    c.Socket? && c.closed
  }

  /** The discriminator each callback passes to the builder and to sendToHost. */
  function TypeOf(cb: Callback): (t: int)
    ensures t in R.ResultTypes
  {
    match cb
    case OnIgnored(_) => R.TestIgnored
    case OnRunStarted(_) => R.TestRunStarted
    case OnRunFinished(_) => R.TestRunFinished
    case OnStarted(_) => R.TestStarted
    case OnFinished(_) => R.TestFinished
    case OnFailure(_) => R.TestFailure
  }

  /** createDescriptionResult: a fresh record carrying only a description. */
  function DescriptionResult(d: Description, t: int): R.Message
  {
    R.Message(Some(d), None, None, t)
  }

  /** createResultResult: a fresh record carrying only a run summary. */
  function ResultResult(r: RunResult, t: int): R.Message
  {
    R.Message(None, Some(r), None, t)
  }

  /** createFailureResult: a fresh record carrying only a failure. */
  function FailureResult(f: Failure, t: int): R.Message
  {
    R.Message(None, None, Some(f), t)
  }

  /** The message a callback builds: its one payload and its own discriminator. */
  function MessageFor(cb: Callback): (m: R.Message)
    ensures R.WellFormed(m) && m.resultType == TypeOf(cb)
    ensures cb.OnFailure? ==> m.failure == Some(cb.failure)
    ensures cb.OnRunFinished? ==> m.result == Some(cb.result)
    ensures !cb.OnFailure? && !cb.OnRunFinished? ==> m.description == Some(cb.description)
  {
    match cb
    case OnRunFinished(r) => ResultResult(r, TypeOf(cb))
    case OnFailure(f) => FailureResult(f, TypeOf(cb))
    case _ => DescriptionResult(cb.description, TypeOf(cb))
  }

  /**
   * transmit: with no socket it raises "Connection to host died"; otherwise the
   * message is encoded, the socket's stream is fetched (which fails once the
   * socket is closed), the line is written and the sleep follows.
   */
  function Transmit(c: Conn, m: R.Message, fault: Fault): (r: (Outcome, Conn))
    ensures r.0.Transmitted? <==> IsOpen(c) && fault.NoFault?
    ensures c.NoSocket? ==> r == (NotTransmitted(ConnectionDied), c)
    ensures r.1 == c || (IsOpen(c) && r.1 == c.(lines := c.lines + [m]))
    ensures r.0.Transmitted? ==> r.1 == c.(lines := c.lines + [m])
    ensures r.0.NotTransmitted? && r.0.error != Interrupted ==> r.1 == c
    ensures r.1 != c <==> IsOpen(c) && !fault.EncodeFault?
    ensures r.0 == NotTransmitted(Interrupted) <==> IsOpen(c) && fault.SleepInterrupted?
  {
    match c
    case NoSocket => (NotTransmitted(ConnectionDied), c)
    case Socket(closed, lines) =>
      if fault.EncodeFault? then (NotTransmitted(EncodeFailed), c)
      else if closed then (NotTransmitted(SocketClosed), c)
      else if fault.SleepInterrupted? then (NotTransmitted(Interrupted), Socket(closed, lines + [m]))
      else (Transmitted, Socket(closed, lines + [m]))
  }

  function Close(c: Conn): (r: Conn)
    ensures Lines(r) == Lines(c) && r.Socket? == c.Socket?
    ensures c.Socket? ==> IsClosed(r)
  {
    match c
    case NoSocket => c
    case Socket(_, lines) => Socket(true, lines)
  }

  /**
   * sendToHost: transmit, and for a run-finished message close the socket
   * when (and only when) the transmit returned normally. Every exception is
   * caught, so the result is always a new connection and never an error.
   */
  function SendToHost(c: Conn, t: int, m: R.Message, fault: Fault): (r: Conn)
    ensures Lines(r) == Lines(Transmit(c, m, fault).1)
    ensures r.Socket? == c.Socket?
    ensures IsClosed(r) <==> IsClosed(c) || (t == R.TestRunFinished && IsOpen(c) && fault.NoFault?)
  {
    var (outcome, c') := Transmit(c, m, fault);
    if t == R.TestRunFinished && outcome.Transmitted? then Close(c') else c'
  }

  /** The failed-list entry a callback adds: only testFailure adds one. */
  function FailedEntry(cb: Callback): seq<string>
  {
    if cb.OnFailure? then [cb.failure.description.displayName] else []
  }

  /** The effect of one callback on the listener's state. */
  function OnCallback(s: ListenerState, e: Event): (r: ListenerState)
    ensures r.failed == s.failed + FailedEntry(e.callback)
    ensures r.conn.Socket? == s.conn.Socket?
    ensures Lines(r.conn) == Lines(s.conn) || Lines(r.conn) == Lines(s.conn) + [MessageFor(e.callback)]
  {
    var cb := e.callback;
    match cb
    case OnFinished(d) =>
      if d.displayName in s.failed then s
      else s.(conn := SendToHost(s.conn, TypeOf(cb), MessageFor(cb), e.fault))
    case OnFailure(f) =>
      var recorded := s.(failed := s.failed + [f.description.displayName]);
      recorded.(conn := SendToHost(s.conn, TypeOf(cb), MessageFor(cb), e.fault))
    case _ =>
      s.(conn := SendToHost(s.conn, TypeOf(cb), MessageFor(cb), e.fault))
  }

  /** A sequence of callbacks delivered in order. */
  function Run(s: ListenerState, es: seq<Event>): ListenerState
    decreases |es|
  {
    if es == [] then s else Run(OnCallback(s, es[0]), es[1..])
  }

  /** Every failed-list entry a sequence of callbacks adds, in order. */
  function FailedEntries(es: seq<Event>): seq<string>
    decreases |es|
  {
    if es == [] then [] else FailedEntry(es[0].callback) + FailedEntries(es[1..])
  }

  /** Errors raised while constructing a listener. */
  datatype ConnectError = PortNotANumber | PortOutOfRange | ConnectFailed

  /**
   * The listener's constructor: Integer.parseInt on the port text, then a
   * socket to host:port, whose constructor rejects ports outside 0..65535
   * and fails when the host cannot be reached (given as `reachable`).
   */
  function ConnectPort(port: string, reachable: bool): (r: Result<nat, ConnectError>)
    ensures r.Ok? ==> ParseInt(port) == Some(r.value) && r.value <= 0xffff && reachable
    ensures r == Err(PortNotANumber) <==> ParseInt(port).None?
    ensures r == Err(PortOutOfRange) <==>
      ParseInt(port).Some? && !(0 <= ParseInt(port).value <= 0xffff)
    ensures r == Err(ConnectFailed) <==>
      ParseInt(port).Some? && 0 <= ParseInt(port).value <= 0xffff && !reachable
    ensures ParseInt(port).Some? && 0 <= ParseInt(port).value <= 0xffff && reachable ==>
      r == Ok(ParseInt(port).value)
  {
    match ParseInt(port)
    case None => Err(PortNotANumber)
    case Some(p) =>
      if p < 0 || p > 0xffff then Err(PortOutOfRange)
      else if !reachable then Err(ConnectFailed)
      else Ok(p)
  }

  /** A port written in decimal within 0..65535 connects to a reachable host. */
  lemma ConnectShownPort(n: nat)
    requires n <= 0xffff
    ensures ConnectPort(Show(n), true) == Ok(n)
    ensures ConnectPort(Show(n), false) == Err(ConnectFailed)
  {
    ParseShow(n);
  }
}
