/**
 * What the listener guarantees over single callbacks and over whole runs:
 * the failure dedupe, the append-only failed list, the closed socket as a
 * terminal state, and well-formed messages on the wire.
 */
module ListenerProperties {
  import opened Wrappers
  import opened JUnit
  import R = ResultObjects
  import opened ListenerSpec

  /** A TEST_FINISHED message for the given display name. */
  predicate IsFinishedFor(m: R.Message, name: string)
  {
    m.resultType == R.TestFinished && m.description.Some? && m.description.value.displayName == name
  }

  /** A finished callback for a name already in the failed list sends nothing and changes nothing. */
  lemma FinishedAfterFailureDropped(s: ListenerState, d: Description, fault: Fault)
    requires d.displayName in s.failed
    ensures OnCallback(s, Event(OnFinished(d), fault)) == s
  {
  }

  /**
   * A failure is recorded whatever happens to its own message, so a later
   * finished callback for the same display name is dropped even when the
   * failure itself never reached the host.
   */
  lemma FailureRecordedEvenIfSendFails(s: ListenerState, f: Failure, fault: Fault, later: Fault)
    ensures OnCallback(s, Event(OnFailure(f), fault)).failed == s.failed + [f.description.displayName]
    ensures var s1 := OnCallback(s, Event(OnFailure(f), fault));
            OnCallback(s1, Event(OnFinished(f.description), later)) == s1
  {
  }

  /**
   * Dedupe is by display name alone: a failure of one test silences the
   * finished callback of a different test that happens to share its name.
   */
  lemma DisplayNameCollision(s: ListenerState, f: Failure, d: Description, fault: Fault, later: Fault)
    requires d != f.description && d.displayName == f.description.displayName
    ensures var s1 := OnCallback(s, Event(OnFailure(f), fault));
            OnCallback(s1, Event(OnFinished(d), later)) == s1
  {
  }

  /** On run finished the socket is closed only if the transmit returned normally. */
  lemma RunFinishedClosesOnlyOnSuccess(s: ListenerState, r: RunResult, fault: Fault)
    requires IsOpen(s.conn)
    ensures var s1 := OnCallback(s, Event(OnRunFinished(r), fault));
            IsClosed(s1.conn) <==> fault.NoFault?
    ensures fault.SleepInterrupted? ==>
            OnCallback(s, Event(OnRunFinished(r), fault)).conn
            == Socket(false, s.conn.lines + [ResultResult(r, R.TestRunFinished)])
  {
  }

  lemma {:induction false} RunAppend(s: ListenerState, a: seq<Event>, b: seq<Event>)
    ensures Run(s, a + b) == Run(Run(s, a), b)
    decreases |a|
  {
    if a == [] {
      assert a + b == b;
    } else {
      assert (a + b)[0] == a[0];
      assert (a + b)[1..] == a[1..] + b;
      RunAppend(OnCallback(s, a[0]), a[1..], b);
    }
  }

  /** The failed list only grows: exactly the names of the failures delivered are appended, in order. */
  lemma {:induction false} FailedListOnlyGrows(s: ListenerState, es: seq<Event>)
    ensures Run(s, es).failed == s.failed + FailedEntries(es)
    decreases |es|
  {
    if es != [] {
      FailedListOnlyGrows(OnCallback(s, es[0]), es[1..]);
    }
  }

  /** The lines written to the host only grow, and the socket never appears or disappears. */
  lemma {:induction false} LinesOnlyGrow(s: ListenerState, es: seq<Event>)
    ensures Run(s, es).conn.Socket? == s.conn.Socket?
    ensures Lines(s.conn) <= Lines(Run(s, es).conn)
    decreases |es|
  {
    if es != [] {
      LinesOnlyGrow(OnCallback(s, es[0]), es[1..]);
    }
  }

  /** Once a name is in the failed list, no TEST_FINISHED line for it is ever written again. */
  lemma {:induction false} NoFinishedOnceFailed(s: ListenerState, es: seq<Event>, name: string)
    requires name in s.failed
    ensures var after := Lines(Run(s, es).conn);
            forall i :: |Lines(s.conn)| <= i < |after| ==> !IsFinishedFor(after[i], name)
    decreases |es|
  {
    if es != [] {
      var s1 := OnCallback(s, es[0]);
      var after := Lines(Run(s1, es[1..]).conn);
      NoFinishedOnceFailed(s1, es[1..], name);
      LinesOnlyGrow(s1, es[1..]);
      if Lines(s1.conn) != Lines(s.conn) {
        var cb := es[0].callback;
        assert Lines(s1.conn) == Lines(s.conn) + [MessageFor(cb)];
        assert after[|Lines(s.conn)|] == MessageFor(cb);
        assert !IsFinishedFor(MessageFor(cb), name);
      }
    }
  }

  /**
   * The dedupe over a whole run: after a failure callback, whatever follows,
   * no TEST_FINISHED line for the failing test's display name is written.
   */
  lemma FailureSuppressesLaterFinished(s: ListenerState, before: seq<Event>, f: Failure, fault: Fault, after: seq<Event>)
    ensures var s1 := Run(s, before + [Event(OnFailure(f), fault)]);
            var out := Lines(Run(s, before + [Event(OnFailure(f), fault)] + after).conn);
            forall i :: |Lines(s1.conn)| <= i < |out| ==> !IsFinishedFor(out[i], f.description.displayName)
  {
    var failure := [Event(OnFailure(f), fault)];
    RunAppend(s, before, failure);
    RunAppend(s, before + failure, after);
    var s1 := Run(s, before + failure);
    assert s1 == OnCallback(Run(s, before), failure[0]);
    NoFinishedOnceFailed(s1, after, f.description.displayName);
  }

  /** A closed socket is terminal: nothing more is written and it is never reopened. */
  lemma {:induction false} ClosedIsTerminal(s: ListenerState, es: seq<Event>)
    requires IsClosed(s.conn)
    ensures Run(s, es).conn == s.conn
    decreases |es|
  {
    if es != [] {
      ClosedIsTerminal(OnCallback(s, es[0]), es[1..]);
    }
  }

  /** Every line the listener writes is a well-formed message. */
  lemma {:induction false} LinesWellFormed(s: ListenerState, es: seq<Event>)
    requires forall m :: m in Lines(s.conn) ==> R.WellFormed(m)
    ensures forall m :: m in Lines(Run(s, es).conn) ==> R.WellFormed(m)
    decreases |es|
  {
    if es != [] {
      var s1 := OnCallback(s, es[0]);
      assert forall m :: m in Lines(s1.conn) ==> m in Lines(s.conn) || m == MessageFor(es[0].callback);
      LinesWellFormed(s1, es[1..]);
    }
  }

  lemma RunCons(s: ListenerState, e: Event, rest: seq<Event>)
    ensures Run(s, [e] + rest) == Run(OnCallback(s, e), rest)
  {
    assert ([e] + rest)[1..] == rest;
  }

  /** A fresh listener: nothing failed yet, an open socket with no lines. */
  function Fresh(): ListenerState
  {
    ListenerState([], Socket(false, []))
  }

  /** A run with no tests writes exactly run-started then run-finished, and closes the socket. */
  lemma EmptyRun(suite: Description, r: RunResult)
    ensures Run(Fresh(), [Event(OnRunStarted(suite), NoFault), Event(OnRunFinished(r), NoFault)]).conn
            == Socket(true, [DescriptionResult(suite, R.TestRunStarted), ResultResult(r, R.TestRunFinished)])
  {
    var es := [Event(OnRunStarted(suite), NoFault), Event(OnRunFinished(r), NoFault)];
    var s1 := OnCallback(Fresh(), es[0]);
    assert Run(Fresh(), es) == Run(s1, es[1..]);
    assert Run(s1, es[1..]) == Run(OnCallback(s1, es[1]), es[2..]);
  }

  /**
   * A callback that is not dropped, on an open socket and without a fault,
   * writes its one message; only run finished then closes the socket.
   */
  lemma CallbackSendsOneMessage(s: ListenerState, cb: Callback)
    requires IsOpen(s.conn)
    requires cb.OnFinished? ==> cb.description.displayName !in s.failed
    ensures OnCallback(s, Event(cb, NoFault))
            == ListenerState(s.failed + FailedEntry(cb), Socket(cb.OnRunFinished?, s.conn.lines + [MessageFor(cb)]))
  {
  }

  /** JUnit's callbacks for a run where test A passes, test B fails and test C is ignored. */
  function PassFailIgnoreEvents(suite: Description, a: Description, fb: Failure, c: Description, r: RunResult): seq<Event>
  {
    [Event(OnRunStarted(suite), NoFault),
     Event(OnStarted(a), NoFault), Event(OnFinished(a), NoFault),
     Event(OnStarted(fb.description), NoFault)]
    + [Event(OnFailure(fb), NoFault), Event(OnFinished(fb.description), NoFault),
       Event(OnIgnored(c), NoFault),
       Event(OnRunFinished(r), NoFault)]
  }

  lemma PassFailIgnorePrefix(s: ListenerState, suite: Description, a: Description, b: Description)
    requires s == Fresh()
    ensures Run(s, [Event(OnRunStarted(suite), NoFault), Event(OnStarted(a), NoFault),
                    Event(OnFinished(a), NoFault), Event(OnStarted(b), NoFault)])
            == ListenerState([], Socket(false, [DescriptionResult(suite, R.TestRunStarted),
                                                DescriptionResult(a, R.TestStarted),
                                                DescriptionResult(a, R.TestFinished),
                                                DescriptionResult(b, R.TestStarted)]))
  {
    var e0, e1, e2, e3 := Event(OnRunStarted(suite), NoFault), Event(OnStarted(a), NoFault),
                          Event(OnFinished(a), NoFault), Event(OnStarted(b), NoFault);
    var s1 := OnCallback(s, e0);
    var s2 := OnCallback(s1, e1);
    var s3 := OnCallback(s2, e2);
    var s4 := OnCallback(s3, e3);
    assert s4.failed == [];
    assert s4.conn.lines == [MessageFor(e0.callback), MessageFor(e1.callback),
                             MessageFor(e2.callback), MessageFor(e3.callback)];
    RunCons(s, e0, [e1, e2, e3]);
    RunCons(s1, e1, [e2, e3]);
    RunCons(s2, e2, [e3]);
    RunCons(s3, e3, []);
    assert [e0, e1, e2, e3] == [e0] + [e1, e2, e3];
    assert [e1, e2, e3] == [e1] + [e2, e3];
    assert [e2, e3] == [e2] + [e3];
    assert [e3] == [e3] + [];
  }

  lemma PassFailIgnoreSuffix(s: ListenerState, fb: Failure, c: Description, r: RunResult)
    requires s.failed == [] && IsOpen(s.conn)
    ensures Run(s, [Event(OnFailure(fb), NoFault), Event(OnFinished(fb.description), NoFault),
                    Event(OnIgnored(c), NoFault), Event(OnRunFinished(r), NoFault)])
            == ListenerState([fb.description.displayName],
                             Socket(true, s.conn.lines + [FailureResult(fb, R.TestFailure),
                                                          DescriptionResult(c, R.TestIgnored),
                                                          ResultResult(r, R.TestRunFinished)]))
  {
    var e0, e1, e2, e3 := Event(OnFailure(fb), NoFault), Event(OnFinished(fb.description), NoFault),
                          Event(OnIgnored(c), NoFault), Event(OnRunFinished(r), NoFault);
    var s1 := OnCallback(s, e0);
    assert s1.failed == [fb.description.displayName];
    var s2 := OnCallback(s1, e1);
    assert s2 == s1;
    var s3 := OnCallback(s2, e2);
    var s4 := OnCallback(s3, e3);
    assert s4.conn.lines == s.conn.lines + [MessageFor(e0.callback), MessageFor(e2.callback), MessageFor(e3.callback)];
    RunCons(s, e0, [e1, e2, e3]);
    RunCons(s1, e1, [e2, e3]);
    RunCons(s2, e2, [e3]);
    RunCons(s3, e3, []);
    assert [e0, e1, e2, e3] == [e0] + [e1, e2, e3];
    assert [e1, e2, e3] == [e1] + [e2, e3];
    assert [e2, e3] == [e2] + [e3];
    assert [e3] == [e3] + [];
  }

  /**
   * Test A passes, test B fails, test C is ignored. JUnit calls finished for
   * B after its failure; that call is dropped, so the host sees seven lines
   * and the socket ends closed.
   */
  lemma PassFailIgnoreScenario(suite: Description, a: Description, fb: Failure, c: Description, r: RunResult)
    ensures Run(Fresh(), PassFailIgnoreEvents(suite, a, fb, c, r)).conn
            == Socket(true, [DescriptionResult(suite, R.TestRunStarted),
                             DescriptionResult(a, R.TestStarted), DescriptionResult(a, R.TestFinished),
                             DescriptionResult(fb.description, R.TestStarted), FailureResult(fb, R.TestFailure),
                             DescriptionResult(c, R.TestIgnored),
                             ResultResult(r, R.TestRunFinished)])
  {
    var first := [Event(OnRunStarted(suite), NoFault), Event(OnStarted(a), NoFault),
                  Event(OnFinished(a), NoFault), Event(OnStarted(fb.description), NoFault)];
    var second := [Event(OnFailure(fb), NoFault), Event(OnFinished(fb.description), NoFault),
                   Event(OnIgnored(c), NoFault), Event(OnRunFinished(r), NoFault)];
    RunAppend(Fresh(), first, second);
    PassFailIgnorePrefix(Fresh(), suite, a, fb.description);
    PassFailIgnoreSuffix(Run(Fresh(), first), fb, c, r);
  }
}
