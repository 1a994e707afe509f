/**
 * The reporting listener as objects: the shared list of failed display
 * names, the socket to the host, and the listener whose callbacks build a
 * ResultObject and send it. Each method is proved against ListenerSpec.
 */
module Listener {
  import opened Wrappers
  import opened JUnit
  import R = ResultObjects
  import opened ListenerSpec

  /**
   * The list of failed display names. In the source it is a static field, so
   * every listener in the process holds the same one. Here that is an
   * obligation on callers of Create: they must pass one FailedList object
   * to every listener.
   */
  class FailedList {
    var names: seq<string>

    constructor ()
      ensures names == []
    {
      names := [];
    }

    method Add(name: string)
      modifies this
      ensures names == old(names) + [name]
    {
      names := names + [name];
    }
  }

  /**
   * The socket to the host. `lines` is every line handed to its output
   * stream; the stream's writer swallows I/O errors, so a write to a socket
   * that is not closed always adds its line.
   */
  class HostSocket {
    const host: string
    const port: nat
    var closed: bool
    var lines: seq<R.Message>

    /** A connected socket. */
    constructor (host: string, port: nat)
      ensures this.host == host && this.port == port
      ensures !closed && lines == []
    {
      this.host := host;
      this.port := port;
      closed := false;
      lines := [];
    }

    /** Fetching the output stream fails once the socket is closed. */
    method GetOutputStream() returns (ok: bool)
      ensures ok <==> !closed
    {
      ok := !closed;
    }

    method PrintLine(m: R.Message)
      requires !closed
      modifies this
      ensures lines == old(lines) + [m] && !closed
    {
      lines := lines + [m];
    }

    /** Closing is final; closing a closed socket does nothing. */
    method Close()
      modifies this
      ensures closed && lines == old(lines)
    {
      closed := true;
    }
  }

  class RoboTestListener {
    const failedTests: FailedList
    var hostSocket: HostSocket?

    function Connection(): Conn
      reads this, hostSocket
    {
      if hostSocket == null then NoSocket else Socket(hostSocket.closed, hostSocket.lines)
    }

    /** The abstract state: the shared failed list and this listener's connection. */
    function State(): ListenerState
      reads this, failedTests, hostSocket
    {
      ListenerState(failedTests.names, Connection())
    }

    constructor (failedTests: FailedList, hostSocket: HostSocket)
      ensures this.failedTests == failedTests && this.hostSocket == hostSocket
    {
      this.failedTests := failedTests;
      this.hostSocket := hostSocket;
    }

    /**
     * The source's constructor: parse the port, connect, and fail with the
     * exception if either goes wrong. `reachable` stands for the outcome of
     * the network connect. The source's failed list is a static field, so
     * callers must pass the single process-wide FailedList here.
     */
    static method Create(failedTests: FailedList, host: string, port: string, reachable: bool)
      returns (r: Result<RoboTestListener, ConnectError>)
      ensures r.Ok? <==> ConnectPort(port, reachable).Ok?
      ensures r.Err? ==> r.error == ConnectPort(port, reachable).error
      ensures r.Ok? ==> fresh(r.value) && fresh(r.value.hostSocket)
      ensures r.Ok? ==> r.value.failedTests == failedTests && r.value.hostSocket != null
      ensures r.Ok? ==> r.value.hostSocket.host == host && r.value.hostSocket.port == ConnectPort(port, reachable).value
      ensures r.Ok? ==> r.value.State() == ListenerState(failedTests.names, Socket(false, []))
    {
      var p := ConnectPort(port, reachable);
      if p.Err? {
        return Err(p.error);
      }
      var socket := new HostSocket(host, p.value);
      var listener := new RoboTestListener(failedTests, socket);
      return Ok(listener);
    }

    method TestIgnored(d: Description, fault: Fault)
      modifies hostSocket
      ensures State() == OnCallback(old(State()), Event(OnIgnored(d), fault))
    {
      var message := CreateDescriptionResult(d, R.TestIgnored);
      SendToHost(R.TestIgnored, message, fault);
    }

    method TestRunStarted(d: Description, fault: Fault)
      modifies hostSocket
      ensures State() == OnCallback(old(State()), Event(OnRunStarted(d), fault))
    {
      var message := CreateDescriptionResult(d, R.TestRunStarted);
      SendToHost(R.TestRunStarted, message, fault);
    }

    method TestRunFinished(result: RunResult, fault: Fault)
      modifies hostSocket
      ensures State() == OnCallback(old(State()), Event(OnRunFinished(result), fault))
    {
      var message := CreateResultResult(result, R.TestRunFinished);
      SendToHost(R.TestRunFinished, message, fault);
    }

    method TestStarted(d: Description, fault: Fault)
      modifies hostSocket
      ensures State() == OnCallback(old(State()), Event(OnStarted(d), fault))
    {
      var message := CreateDescriptionResult(d, R.TestStarted);
      SendToHost(R.TestStarted, message, fault);
    }

    /** Dropped when the display name has already failed; sent otherwise. */
    method TestFinished(d: Description, fault: Fault)
      modifies hostSocket
      ensures State() == OnCallback(old(State()), Event(OnFinished(d), fault))
    {
      var failed := AlreadyFailed(d.displayName);
      if failed {
        return;
      }
      var message := CreateDescriptionResult(d, R.TestFinished);
      SendToHost(R.TestFinished, message, fault);
    }

    /** Records the display name first, then sends the failure. */
    method TestFailure(f: Failure, fault: Fault)
      modifies failedTests, hostSocket
      ensures State() == OnCallback(old(State()), Event(OnFailure(f), fault))
    {
      failedTests.Add(f.description.displayName);
      var message := CreateFailureResult(f, R.TestFailure);
      SendToHost(R.TestFailure, message, fault);
    }

    /** The search of the failed list that guards TestFinished. */
    method AlreadyFailed(name: string) returns (found: bool)
      ensures found <==> name in failedTests.names
    {
      var names := failedTests.names;
      for i := 0 to |names|
        invariant name !in names[..i]
      {
        if names[i] == name {
          return true;
        }
      }
      return false;
    }

    method CreateFailureResult(f: Failure, t: int) returns (o: R.ResultObject)
      ensures fresh(o) && o.Value() == FailureResult(f, t)
    {
      o := new R.ResultObject();
      o.SetFailure(Some(f));
      o.SetResultType(t);
    }

    method CreateDescriptionResult(d: Description, t: int) returns (o: R.ResultObject)
      ensures fresh(o) && o.Value() == DescriptionResult(d, t)
    {
      o := new R.ResultObject();
      o.SetDescription(Some(d));
      o.SetResultType(t);
    }

    method CreateResultResult(result: RunResult, t: int) returns (o: R.ResultObject)
      ensures fresh(o) && o.Value() == ResultResult(result, t)
    {
      o := new R.ResultObject();
      o.SetResult(Some(result));
      o.SetResultType(t);
    }

    /** Transmits, closing after a run-finished message; nothing it raises escapes. */
    method SendToHost(t: int, message: R.ResultObject, fault: Fault)
      modifies hostSocket
      ensures Connection() == ListenerSpec.SendToHost(old(Connection()), t, message.Value(), fault)
    {
      if t == R.TestRunFinished {
        var outcome := Transmit(message, fault);
        if outcome.Transmitted? {
          hostSocket.Close();
        }
      } else {
        var _ := Transmit(message, fault);
      }
    }

    /**
     * Raises "Connection to host died" without a socket; otherwise encodes
     * the message, writes it as one line, then sleeps.
     */
    method Transmit(message: R.ResultObject, fault: Fault) returns (outcome: Outcome)
      modifies hostSocket
      ensures (outcome, Connection()) == ListenerSpec.Transmit(old(Connection()), message.Value(), fault)
    {
      if hostSocket == null {
        return NotTransmitted(ConnectionDied);
      }
      var line := message.Value();
      if fault.EncodeFault? {
        return NotTransmitted(EncodeFailed);
      }
      var open := hostSocket.GetOutputStream();
      if !open {
        return NotTransmitted(SocketClosed);
      }
      hostSocket.PrintLine(line);
      if fault.SleepInterrupted? {
        return NotTransmitted(Interrupted);
      }
      return Transmitted;
    }
  }

  /**
   * Two listeners in one process share the failed list: a failure reported
   * through one silences the finished callback for that test on the other.
   */
  method SharedFailedList(first: RoboTestListener, second: RoboTestListener, f: Failure, fault: Fault, later: Fault)
    requires first.failedTests == second.failedTests
    requires first.hostSocket != null && second.hostSocket != null && first.hostSocket != second.hostSocket
    modifies first.failedTests, first.hostSocket, second.hostSocket
    ensures f.description.displayName in second.failedTests.names
    ensures second.State().conn == old(second.State().conn)
  {
    first.TestFailure(f, fault);
    second.TestFinished(f.description, later);
  }
}
