# RoboVM JUnit bridge: the device-side reporting core in Dafny

The bridge runs JUnit tests inside a RoboVM app on a device or simulator and
streams each lifecycle event to a host over one socket. This project models
the device side of that bridge:

- **`ResultObject`**: the event record. It has six integer discriminators
  (ignored 1, run started 2, run finished 3, started 4, finished 5,
  failure 6) and one payload slot each for a description, a run result and a
  failure. It is a class with getters and setters (`result_object.dfy`).
- **`RoboTestListener`**: the JUnit listener that turns callbacks into lines
  on the socket. It is modelled twice:
  - as a pure state machine over values (`listener_spec.dfy`): the
    process-wide list of failed display names, and a connection that is
    absent, open or closed and logs every line written to it;
  - as classes whose methods are proved against that state machine
    (`listener.dfy`). The failed list is one `FailedList` object shared by
    every listener, which is how the source's static field behaves. The
    model does not enforce this: callers of `Create` must pass the single
    process-wide `FailedList`.

  The properties of whole runs are in `listener_properties.dfy`: the
  failure dedupe, the append-only failed list, the closed socket as a
  terminal state, well-formed lines, and two example runs.
- **`TestRunner`**: how the main program handles its test list
  (`test_runner.dfy`). Lines are split with
  `split("#(?=[^.]+$)")` into a whole-class or `class#method` request and
  issued in file order. `getSharedResource` splits a file name at its last
  `.`.
- `decimal.dfy` models `Integer.parseInt`, which the listener's constructor
  applies to the port. `junit.dfy` holds JUnit's `Description`, `Result`
  (here `RunResult`) and `Failure` as plain values. `wrappers.dfy` holds
  `Option` and `Result`, which stand for Java's null and thrown exceptions.

Faults that come from code outside the model are parameters:

- `Fault` in `ListenerSpec` is a JSON encoder that throws before writing, or
  a settle sleep that is interrupted after the line was written.
- `reachable` is the outcome of the network connect.
- `loadable` is the set of classes `Class.forName` can find.

The source's `PrintWriter` swallows write errors. A write to a socket that is
not closed therefore always adds its line to the log, even if the peer has
gone.

Two behaviours of the code that the model keeps as written:

- After a run-finished message, the code closes the socket only when the
  transmit returned normally. The close follows the transmit inside the same
  `try`, so a failed run-finished send leaves the socket open.
- The failed list is a static list shared by every listener in the process,
  not a set owned by one run. Duplicates are kept and nothing is removed.

## Model

| member | source | states |
|---|---|---|
| ResultObjects.ResultTypesAreOneToSix | src/main/java/org/robovm/devicebridge/ResultObject.java:27-32 | the six type constants are pairwise distinct and are exactly the integers 1..6 |
| ResultObjects.ResultObject.constructor | src/main/java/org/robovm/devicebridge/ResultObject.java:34-40 | a new record has no description, result or failure and type 0, so it is not a well-formed message |
| ResultObjects.ResultObject.GetDescription | src/main/java/org/robovm/devicebridge/ResultObject.java:42-44 | returns the description slot |
| ResultObjects.ResultObject.SetDescription | src/main/java/org/robovm/devicebridge/ResultObject.java:46-48 | the description slot becomes the argument; the other three slots are unchanged |
| ResultObjects.ResultObject.GetResult | src/main/java/org/robovm/devicebridge/ResultObject.java:50-52 | returns the result slot |
| ResultObjects.ResultObject.SetResult | src/main/java/org/robovm/devicebridge/ResultObject.java:54-56 | the result slot becomes the argument; the other three slots are unchanged |
| ResultObjects.ResultObject.GetResultType | src/main/java/org/robovm/devicebridge/ResultObject.java:58-60 | returns the discriminator |
| ResultObjects.ResultObject.SetResultType | src/main/java/org/robovm/devicebridge/ResultObject.java:62-64 | the discriminator becomes the argument; the three payload slots are unchanged |
| ResultObjects.ResultObject.GetFailure | src/main/java/org/robovm/devicebridge/ResultObject.java:66-68 | returns the failure slot |
| ResultObjects.ResultObject.SetFailure | src/main/java/org/robovm/devicebridge/ResultObject.java:70-72 | the failure slot becomes the argument; the other three slots are unchanged |
| ResultObjects.SetTwiceKeepsLast | src/main/java/org/robovm/devicebridge/ResultObject.java:46-64 | setting each of the four slots twice leaves the second value in every slot, and each getter returns it |
| Decimal.ParseInt | src/main/java/org/robovm/devicebridge/internal/listener/RoboTestListener.java:50 | the port is accepted only as an optionally signed run of digits whose value fits a 32-bit int, and then yields the literal's signed value; a literal outside the int range and any other text are rejected |
| Decimal.ParseShow | src/main/java/org/robovm/devicebridge/internal/listener/RoboTestListener.java:50 | every int from 0 to 2^31-1 written in decimal parses back to itself |
| Decimal.ParseNegative | src/main/java/org/robovm/devicebridge/internal/listener/RoboTestListener.java:50 | a leading minus negates the value, down to -2^31 |
| Decimal.ParseTooLarge | src/main/java/org/robovm/devicebridge/internal/listener/RoboTestListener.java:50 | a decimal literal above 2^31-1 is rejected |
| Decimal.ParseTooSmall | src/main/java/org/robovm/devicebridge/internal/listener/RoboTestListener.java:50 | a negative literal below -2^31 is rejected |
| Decimal.DigitsValueLeadingZeros | src/main/java/org/robovm/devicebridge/internal/listener/RoboTestListener.java:50 | leading zeros do not change the value of a run of digits |
| Decimal.ParsePlusLeadingZeros | src/main/java/org/robovm/devicebridge/internal/listener/RoboTestListener.java:50 | a '+' sign and leading zeros in front of a decimal int read back to its value |
| ListenerSpec.ConnectPort | src/main/java/org/robovm/devicebridge/internal/listener/RoboTestListener.java:48-51 | construction succeeds only with a parsed port in 0..65535 and a reachable host, and always succeeds then with that port; otherwise the error names the first failing step: a non-numeric port, an out-of-range port or a failed connect |
| ListenerSpec.ConnectShownPort | src/main/java/org/robovm/devicebridge/internal/listener/RoboTestListener.java:48-51 | a decimal port in 0..65535 connects to a reachable host and fails with a connect error otherwise |
| ListenerSpec.TypeOf | src/main/java/org/robovm/devicebridge/internal/listener/RoboTestListener.java:53-87 | each callback passes one of the six discriminators |
| ListenerSpec.MessageFor | src/main/java/org/robovm/devicebridge/internal/listener/RoboTestListener.java:89-108 | a built message has exactly one payload, its type is the callback's constant, and the payload is the callback's own description, result or failure |
| ListenerSpec.Transmit | src/main/java/org/robovm/devicebridge/internal/listener/RoboTestListener.java:133-163 | no socket gives "connection died" and changes nothing; it succeeds exactly when the socket is open and no fault occurs, and then appends exactly the one message; the line is written exactly when the socket is open and encoding succeeded, so an encode failure writes nothing; the interrupted error arises exactly from an interrupted sleep on an open socket |
| ListenerSpec.SendToHost | src/main/java/org/robovm/devicebridge/internal/listener/RoboTestListener.java:110-131 | always returns a connection and never an error; the lines are those the transmit left; the socket ends closed exactly when it was closed already or a run-finished transmit succeeded |
| ListenerSpec.OnCallback | src/main/java/org/robovm/devicebridge/internal/listener/RoboTestListener.java:53-87 | only a failure extends the failed list, by its display name; a callback writes either nothing or exactly its own message |
| ListenerProperties.FinishedAfterFailureDropped | src/main/java/org/robovm/devicebridge/internal/listener/RoboTestListener.java:74-79 | a finished callback whose display name is in the failed list leaves the whole state unchanged |
| ListenerProperties.CallbackSendsOneMessage | src/main/java/org/robovm/devicebridge/internal/listener/RoboTestListener.java:53-87 | any callback that is not dropped writes exactly its one message to an open socket when no fault occurs; the socket is then closed exactly when the callback is run finished |
| ListenerProperties.FailureRecordedEvenIfSendFails | src/main/java/org/robovm/devicebridge/internal/listener/RoboTestListener.java:84-87 | a failure records its display name whatever the transmit does, and a later finished for that test is dropped |
| ListenerProperties.DisplayNameCollision | src/main/java/org/robovm/devicebridge/internal/listener/RoboTestListener.java:74-87 | dedupe compares display names only, so a different test with the same display name is also dropped |
| ListenerProperties.RunFinishedClosesOnlyOnSuccess | src/main/java/org/robovm/devicebridge/internal/listener/RoboTestListener.java:112-118 | run finished closes an open socket exactly when its transmit succeeds; an interrupted sleep leaves the line written and the socket open |
| ListenerProperties.FailedListOnlyGrows | src/main/java/org/robovm/devicebridge/internal/listener/RoboTestListener.java:84-86 | over any run, the failed list becomes the old list followed by the display names of the failures delivered, in order |
| ListenerProperties.LinesOnlyGrow | src/main/java/org/robovm/devicebridge/internal/listener/RoboTestListener.java:133-163 | over any run, the lines written before remain a prefix of the log, and a socket never appears or disappears |
| ListenerProperties.NoFinishedOnceFailed | src/main/java/org/robovm/devicebridge/internal/listener/RoboTestListener.java:74-87 | once a name is in the failed list, no later line is a finished message for that name |
| ListenerProperties.FailureSuppressesLaterFinished | src/main/java/org/robovm/devicebridge/internal/listener/RoboTestListener.java:74-87 | in any run, after a failure callback no finished message for the failing test's display name is written |
| ListenerProperties.ClosedIsTerminal | src/main/java/org/robovm/devicebridge/internal/listener/RoboTestListener.java:112-118 | once the socket is closed, no callback writes to it or reopens it |
| ListenerProperties.LinesWellFormed | src/main/java/org/robovm/devicebridge/internal/listener/RoboTestListener.java:89-108 | every line the listener writes has exactly one payload, and that payload matches its discriminator |
| ListenerProperties.EmptyRun | src/main/java/org/robovm/devicebridge/internal/listener/RoboTestListener.java:58-66 | a run with no tests writes exactly run started then run finished and closes the socket |
| ListenerProperties.PassFailIgnoreScenario | src/main/java/org/robovm/devicebridge/internal/listener/RoboTestListener.java:53-87 | a passing, a failing and an ignored test give seven lines, without the failing test's finished |
| Listener.FailedList.constructor | src/main/java/org/robovm/devicebridge/internal/listener/RoboTestListener.java:46 | the process starts with an empty failed list |
| Listener.FailedList.Add | src/main/java/org/robovm/devicebridge/internal/listener/RoboTestListener.java:85 | appends one name at the end |
| Listener.HostSocket.constructor | src/main/java/org/robovm/devicebridge/internal/listener/RoboTestListener.java:50 | a connected socket to the given host and port is open with no lines |
| Listener.HostSocket.GetOutputStream | src/main/java/org/robovm/devicebridge/internal/listener/RoboTestListener.java:156 | the stream is available exactly when the socket is not closed |
| Listener.HostSocket.PrintLine | src/main/java/org/robovm/devicebridge/internal/listener/RoboTestListener.java:157-158 | appends one line and leaves the socket open |
| Listener.HostSocket.Close | src/main/java/org/robovm/devicebridge/internal/listener/RoboTestListener.java:115 | the socket is closed and its lines are unchanged |
| Listener.RoboTestListener.constructor | src/main/java/org/robovm/devicebridge/internal/listener/RoboTestListener.java:48-51 | the listener holds the shared failed list and the given socket |
| Listener.RoboTestListener.Create | src/main/java/org/robovm/devicebridge/internal/listener/RoboTestListener.java:48-51 | fails exactly when ConnectPort fails, with the same error; otherwise gives a new listener on a new open socket with no lines, sharing the given failed list |
| Listener.RoboTestListener.TestIgnored | src/main/java/org/robovm/devicebridge/internal/listener/RoboTestListener.java:53-56 | the new state is the state machine's step for an ignored callback |
| Listener.RoboTestListener.TestRunStarted | src/main/java/org/robovm/devicebridge/internal/listener/RoboTestListener.java:58-61 | the new state is the state machine's step for run started |
| Listener.RoboTestListener.TestRunFinished | src/main/java/org/robovm/devicebridge/internal/listener/RoboTestListener.java:63-66 | the new state is the state machine's step for run finished |
| Listener.RoboTestListener.TestStarted | src/main/java/org/robovm/devicebridge/internal/listener/RoboTestListener.java:68-71 | the new state is the state machine's step for a started test |
| Listener.RoboTestListener.TestFinished | src/main/java/org/robovm/devicebridge/internal/listener/RoboTestListener.java:73-81 | the new state is the state machine's step for a finished test, so it is dropped after a failure of the same name |
| Listener.RoboTestListener.TestFailure | src/main/java/org/robovm/devicebridge/internal/listener/RoboTestListener.java:83-87 | the new state is the state machine's step for a failure: the name is recorded, then the failure is sent |
| Listener.RoboTestListener.AlreadyFailed | src/main/java/org/robovm/devicebridge/internal/listener/RoboTestListener.java:75-79 | the loop finds the name exactly when it is in the shared failed list |
| Listener.RoboTestListener.CreateFailureResult | src/main/java/org/robovm/devicebridge/internal/listener/RoboTestListener.java:89-94 | a new record carrying only the failure, with the given type |
| Listener.RoboTestListener.CreateDescriptionResult | src/main/java/org/robovm/devicebridge/internal/listener/RoboTestListener.java:96-101 | a new record carrying only the description, with the given type |
| Listener.RoboTestListener.CreateResultResult | src/main/java/org/robovm/devicebridge/internal/listener/RoboTestListener.java:103-108 | a new record carrying only the run result, with the given type |
| Listener.RoboTestListener.SendToHost | src/main/java/org/robovm/devicebridge/internal/listener/RoboTestListener.java:110-131 | the connection afterwards is the state machine's sendToHost of the record's value; no error is returned |
| Listener.RoboTestListener.Transmit | src/main/java/org/robovm/devicebridge/internal/listener/RoboTestListener.java:133-163 | the outcome and the connection afterwards are the state machine's transmit of the record's value |
| Listener.SharedFailedList | src/main/java/org/robovm/devicebridge/internal/listener/RoboTestListener.java:46 | two listeners share the failed list: after a failure on one, the other drops that test's finished and writes nothing |
| TestRunner.TailSplit | src/main/java/org/robovm/devicebridge/internal/runner/TestRunner.java:52 | the split always yields at least one piece |
| TestRunner.JoinTailSplit | src/main/java/org/robovm/devicebridge/internal/runner/TestRunner.java:52 | joining the pieces with the separator gives back the line |
| TestRunner.TailSplitCuts | src/main/java/org/robovm/devicebridge/internal/runner/TestRunner.java:52 | the split yields more than one piece exactly when some separator is followed by a non-empty, dot-free remainder |
| TestRunner.TailSplitLastPiece | src/main/java/org/robovm/devicebridge/internal/runner/TestRunner.java:52 | after a cut the last piece is non-empty, so no trailing empty piece is ever dropped |
| TestRunner.FirstCut | src/main/java/org/robovm/devicebridge/internal/runner/TestRunner.java:52 | the first piece ends at the first separator with a non-empty, dot-free remainder, and the remaining pieces are the split of the text after it |
| TestRunner.NoSeparatorNoCut | src/main/java/org/robovm/devicebridge/internal/runner/TestRunner.java:50 | a text without the separator comes back as a single piece |
| TestRunner.SplitClassMethod | src/main/java/org/robovm/devicebridge/internal/runner/TestRunner.java:50-53 | `c#m` with one '#' and a non-empty, dot-free m splits into exactly c and m |
| TestRunner.SplitAtLastDot | src/main/java/org/robovm/devicebridge/internal/runner/TestRunner.java:63 | a name splits at its last '.' when a non-empty, dot-free extension follows |
| TestRunner.TailSplitShape | src/main/java/org/robovm/devicebridge/internal/runner/TestRunner.java:63 | a split at '.' cuts at most once, before a non-empty, dot-free tail, and loses nothing |
| TestRunner.SharedResource | src/main/java/org/robovm/devicebridge/internal/runner/TestRunner.java:62-65 | the query's name followed by its extension is the file name; the extension is "." plus a non-empty, dot-free tail, under "test"; it fails exactly when no such '.' exists |
| TestRunner.SharedResourceOfName | src/main/java/org/robovm/devicebridge/internal/runner/TestRunner.java:62-64 | base + "." + ext gives the query (base, "." + ext); classLoader.txt gives (classLoader, .txt) |
| TestRunner.LineRequest | src/main/java/org/robovm/devicebridge/internal/runner/TestRunner.java:50-57 | a line without '#' runs its whole class; a line with '#' fails exactly when no '#' is followed by a non-empty, dot-free remainder |
| TestRunner.LineRequestClassMethod | src/main/java/org/robovm/devicebridge/internal/runner/TestRunner.java:50-53 | `c#m` with one '#' and a non-empty, dot-free m runs method m of class c |
| TestRunner.LineRequestFirstCut | src/main/java/org/robovm/devicebridge/internal/runner/TestRunner.java:52-53 | with several valid separators, the class is the text before the first and the method is the next piece |
| TestRunner.SeveralHashesTakeFirstTwo | src/main/java/org/robovm/devicebridge/internal/runner/TestRunner.java:52-53 | the line "a#b#c" runs method b of class a |
| TestRunner.TrailingHashFails | src/main/java/org/robovm/devicebridge/internal/runner/TestRunner.java:52-53 | a line ending in its only '#' has no second piece |
| TestRunner.DotAfterHashFails | src/main/java/org/robovm/devicebridge/internal/runner/TestRunner.java:52-53 | a '.' after the only '#' leaves no second piece |
| TestRunner.RunTestList | src/main/java/org/robovm/devicebridge/internal/runner/TestRunner.java:48-59 | one attempt per line in file order, each the request its line asks for; a class that cannot be loaded does not stop the loop; it stops early only at the first line whose split has no second piece |
| TestRunner.RunMethodOnly | src/main/java/org/robovm/devicebridge/internal/runner/TestRunner.java:74-81 | records a method request that runs exactly when the class can be loaded |
| TestRunner.RunClass | src/main/java/org/robovm/devicebridge/internal/runner/TestRunner.java:89-96 | records a whole-class request that runs exactly when the class can be loaded |

## Left out

- JSON encoding with Gson and its type adapters: a message on the wire is the record's value, kept opaque. No encode/decode round trip is modelled; the adapters are not part of this model.
- The host side, `RoboVMDeviceBridge.startServer`, `jsonToResultObject` and `compileAndRun`: these are server-socket I/O, an Rx observable and the compiler and simulator launch.
- The two-second sleep after each send: it is timing only. Its interruption is modelled as the `SleepInterrupted` fault.
- Logging: `Foundation.log`, `printStackTrace`, `Logger`, `TestRunner.log` and the uncaught-exception handler. They are diagnostics and never steer control flow.
- The listener's `reporter` argument: it is stored and never read.
- `Socket.close` throwing: closing is modelled as always succeeding. In the source an exception from it would be caught and printed too.
- Host-name lookup and the connect itself: both are folded into the `reachable` parameter.
- Decimal.ParseInt: accepts only ASCII digits, whereas `Integer.parseInt` also accepts other Unicode decimal digits.
- JUnit execution: `JUnitCore.run`, `Request.method` and `addListener`. Run requests are recorded as values, and `Class.forName` is the `loadable` set. The callbacks JUnit then makes are the listener's events.
- The bundle lookup in `getSharedResource`: the model returns the query it would make.
- The file reading in `main`: the test list is given as a sequence of lines. Opening the file, creating the listener before the loop and an `IOException` from `readLine` are left out.
- Null arguments: JUnit never passes null descriptions, results or failures.
- The integration test `RoboVMDeviceBridgeTest`: it launches a simulator and holds no logic of its own.
