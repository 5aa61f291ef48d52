/**
 * The per-event records of a JMeter result log: `Sample`, its extended
 * variant `Sample2`, and `Assertion`; plus the ways a run can fail.
 */
module Records {
  import opened Wrappers
  import opened IntLiteral

  /**
   * The ways an analysis run stops: the two messages of `JMeterLibException`
   * raised by the analysis ("File ... couldn't be opened", "Incorrect log file
   * format", "No samples were found in a log file.") and the Python errors the
   * analysis code does not catch.
   */
  datatype Failure =
    | FileNotOpened   // the log file could not be opened
    | IncorrectFormat // neither CSV nor XML was recognised
    | NoSamples       // parsing produced no sample
    | IndexError      // a list was indexed past its end
    | ValueError      // `int()` was applied to a non-numeric field

  /**
   * One assertion result attached to a sample.  The source keeps the two
   * flags as Python booleans; `getFailure()`/`getError()` return `str()` of them.
   */
  datatype Assertion = Assertion(name: string, failure: bool, failureMessage: string, error: bool)

  /** `Assertion(name=..., failure=..., failureMessage=..., error=...)`: a flag is set only by the exact text "true". */
  function NewAssertion(name: string, failure: string, failureMessage: string, error: string): (a: Assertion)
    ensures a.failure <==> failure == "true"
    ensures a.error <==> error == "true"
    ensures a.name == name && a.failureMessage == failureMessage
  {
    Assertion(name, failure == "true", failureMessage, error == "true")
  }

  /** Python's `str()` of a boolean, as returned by `getFailure()` and `getError()`. */
  function FlagText(b: bool): string {
    if b then "True" else "False"
  }

  /** The pass test of the aggregation: `getFailure() == "False" and getError() == "False"`. */
  predicate Passed(a: Assertion) {
    FlagText(a.failure) == "False" && FlagText(a.error) == "False"
  }

  /** An assertion passes exactly when neither of its flags is set. */
  lemma PassedIffNoFlag(a: Assertion)
    ensures Passed(a) <==> !a.failure && !a.error
  {
    assert FlagText(true) != "False" by { assert FlagText(true)[0] == 'T'; }
  }

  /** The two fields only `Sample2` carries: active threads in the group (`ng`) and in all groups (`na`). */
  datatype ThreadCounts = ThreadCounts(ng: string, na: string)

  /**
   * A sample as the parsers build it.  Like the source, every field keeps
   * the text it was read from; `extended` is present for a `Sample2`.
   */
  datatype Sample = Sample(
    startTime: string,   // ts: epoch milliseconds
    sampleTime: string,  // t: elapsed milliseconds
    sampleLabel: string, // lb: the label, the aggregation key
    respCode: string,    // rc
    respMsg: string,     // rm
    threadName: string,  // tn
    dataType: string,    // dt
    status: string,      // s: "true" on success
    bytes: string,       // by
    latency: string,     // lt
    extended: Option<ThreadCounts>,
    assertions: seq<Assertion>)

  /** The four numeric fields the parsers validate (`ts`, `t`, `by`, `lt`) all parse with `int()`. */
  predicate NumericFieldsParse(s: Sample) {
    && ParseInt(s.startTime).Some?
    && ParseInt(s.sampleTime).Some?
    && ParseInt(s.bytes).Some?
    && ParseInt(s.latency).Some?
  }
}
