/**
 * The event record sent from the device to the host: one integer
 * discriminator and one payload slot per kind of event.
 */
module ResultObjects {
  import opened Wrappers
  import opened JUnit

  // The six discriminators of the wire protocol.
  const TestIgnored: int := 1
  const TestRunStarted: int := 2
  const TestRunFinished: int := 3
  const TestStarted: int := 4
  const TestFinished: int := 5
  const TestFailure: int := 6

  const ResultTypes: set<int> :=
    {TestIgnored, TestRunStarted, TestRunFinished, TestStarted, TestFinished, TestFailure}

  /** The six constants are pairwise distinct and are exactly the integers 1 to 6. */
  lemma ResultTypesAreOneToSix()
    ensures |ResultTypes| == 6
    ensures forall t :: t in ResultTypes <==> 1 <= t <= 6
  {
  }

  /**
   * The value a ResultObject holds at one moment: what the serializer sees
   * when the object is transmitted. The encoded text itself is not modelled.
   */
  datatype Message = Message(
    description: Option<Description>,
    result: Option<RunResult>,
    failure: Option<Failure>,
    resultType: int)

  /** Number of payload slots that are set. */
  function PayloadCount(m: Message): (n: nat)
    ensures n <= 3
    ensures n == 0 <==> m.description.None? && m.result.None? && m.failure.None?
  {
    (if m.description.Some? then 1 else 0)
    + (if m.result.Some? then 1 else 0)
    + (if m.failure.Some? then 1 else 0)
  }

  /**
   * The wire contract: exactly one payload is set, and it is the one the
   * discriminator names (description for 1, 2, 4, 5; result for 3; failure for 6).
   */
  predicate WellFormed(m: Message)
  {
    && PayloadCount(m) == 1
    && m.resultType in ResultTypes
    && (m.resultType == TestRunFinished <==> m.result.Some?)
    && (m.resultType == TestFailure <==> m.failure.Some?)
  }

  class ResultObject {
    var description: Option<Description>
    var result: Option<RunResult>
    var failure: Option<Failure>
    var resultType: int

    /** The abstract value of the object. */
    function Value(): Message
      reads this
    {
      Message(description, result, failure, resultType)
    }

    /** A new object holds no payload and the type 0 (Java's field defaults). */
    constructor ()
      ensures Value() == Message(None, None, None, 0)
      ensures !WellFormed(Value())
    {
      description := None;
      result := None;
      failure := None;
      resultType := 0;
    }

    method GetDescription() returns (d: Option<Description>)
      ensures d == description
    {
      d := description;
    }

    method SetDescription(d: Option<Description>)
      modifies this
      ensures Value() == old(Value()).(description := d)
    {
      description := d;
    }

    method GetResult() returns (r: Option<RunResult>)
      ensures r == result
    {
      r := result;
    }

    method SetResult(r: Option<RunResult>)
      modifies this
      ensures Value() == old(Value()).(result := r)
    {
      result := r;
    }

    method GetResultType() returns (t: int)
      ensures t == resultType
    {
      t := resultType;
    }

    method SetResultType(t: int)
      modifies this
      ensures Value() == old(Value()).(resultType := t)
    {
      resultType := t;
    }

    method GetFailure() returns (f: Option<Failure>)
      ensures f == failure
    {
      f := failure;
    }

    method SetFailure(f: Option<Failure>)
      modifies this
      ensures Value() == old(Value()).(failure := f)
    {
      failure := f;
    }
  }

  /**
   * Setting a slot and reading it back gives the value set; setting it twice
   * keeps only the second value; this holds for each of the four slots.
   */
  method SetTwiceKeepsLast(o: ResultObject,
                           d1: Description, d2: Description, x1: RunResult, x2: RunResult,
                           f1: Failure, f2: Failure, t1: int, t2: int)
    returns (d: Option<Description>, x: Option<RunResult>, f: Option<Failure>, t: int)
    modifies o
    ensures d == Some(d2) && x == Some(x2) && f == Some(f2) && t == t2
    ensures o.Value() == Message(Some(d2), Some(x2), Some(f2), t2)
  {
    o.SetDescription(Some(d1));
    o.SetResult(Some(x1));
    o.SetFailure(Some(f1));
    o.SetResultType(t1);
    o.SetDescription(Some(d2));
    o.SetResult(Some(x2));
    o.SetFailure(Some(f2));
    o.SetResultType(t2);
    d := o.GetDescription();
    x := o.GetResult();
    f := o.GetFailure();
    t := o.GetResultType();
  }

}
