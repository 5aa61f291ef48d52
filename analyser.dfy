/**
 * `LogAnalyser` and its CSV and XML variants: collecting the samples of a
 * log, and `calculate`, which folds them into the summary, one group per
 * label and the TOTAL group, and then finalizes every group.
 */
module Analyser {
  import opened Wrappers
  import opened IntLiteral
  import opened Records
  import opened LogFormat
  import opened CsvLog
  import opened XmlLog
  import opened AggregateSpec
  import opened Percentiles
  import opened Calculation
  import opened Accumulators

  /**
   * The samples `getSamples` collects: from the rows `csv.reader` yields for
   * a CSV log, from the `minidom` parse result for an XML log.
   */
  function SamplesOf(format: Format, rows: seq<seq<string>>, document: XmlInput): Result<seq<Sample>, Failure>
    requires format != Unknown
  {
    if format == Csv then CsvSamples(rows) else XmlSamples(document)
  }

  /** What `analyzeLog` computes from: the converted samples, or the failure that ends the run. */
  function AnalysisOf(format: Format, rows: seq<seq<string>>, document: XmlInput): (r: Result<seq<Measurement>, Failure>)
    requires format != Unknown
    ensures r.Ok? ==> |r.value| > 0
  {
    match SamplesOf(format, rows, document)
    case Err(e) => Err(e)
    case Ok(samples) =>
      match MeasureAll(samples)
      case None => Err(ValueError)
      case Some(ms) => Ok(ms)
  }

  class LogAnalyser {
    const filePath: string
    /** `CsvLogAnalyser` or `XmlLogAnalyser`. */
    const format: Format
    var samples: seq<Sample>
    var aggrSummary: AggregatedSummary
    var aggrSamples: seq<AggregatedSamples>
    var totalSamples: AggregatedSamples

    constructor (filePath: string, format: Format)
      requires format != Unknown
      ensures this.filePath == filePath && this.format == format
      ensures samples == [] && aggrSamples == []
    {
      this.filePath := filePath;
      this.format := format;
      samples := [];
      aggrSamples := [];
      aggrSummary := new AggregatedSummary();
      totalSamples := new AggregatedSamples("TOTAL", -1);
    }

    /**
     * `CsvLogAnalyser.getSamples` over the rows of the file: the header test
     * on row 0, then one sample per accepted row, in row order.
     */
    method GetCsvSamples(rows: seq<seq<string>>) returns (outcome: Outcome<Failure>)
      modifies this`samples
      ensures CsvSamples(rows).Ok? ==> outcome == Pass && samples == CsvSamples(rows).value
      ensures CsvSamples(rows).Err? ==> outcome == Fail(CsvSamples(rows).error)
    {
      samples := [];
      var headerFound := false;
      var counter := 0;
      while counter < |rows|
        invariant 0 <= counter <= |rows|
        invariant headerFound == (counter > 0 && HeaderFound(rows))
        invariant ParsedRows(rows[..counter], HeaderFound(rows)) == Ok(samples)
      {
        if counter == 0 && IsHeaderRow(rows[0]) {
          headerFound := true;
        }
        var classified := SampleOfRow(rows[counter], headerFound, counter);
        if classified.Err? {
          ShortRowFails(rows, counter);
          return Fail(IndexError);
        }
        if classified.value.Some? {
          samples := samples + [classified.value.value];
        }
        assert rows[..counter + 1][..counter] == rows[..counter];
        counter := counter + 1;
      }
      assert rows[..counter] == rows;
      if |samples| <= 0 {
        return Fail(NoSamples);
      }
      return Pass;
    }

    /**
     * The body of the row loop of `CsvLogAnalyser.getSamples` for row number
     * `counter`: after a header, the header layout or the `IndexError` of a
     * short row; without one, the sample of an accepted 10- or 12-field row.
     */
    static method SampleOfRow(row: seq<string>, headerFound: bool, counter: nat) returns (r: Result<Option<Sample>, Failure>)
      ensures r == ClassifyRow(row, headerFound, counter)
    {
      // row 0 of a log with a header is the header itself
      if headerFound {
        if counter >= 1 {
          if |row| < 14 {
            return Err(IndexError);
          }
          return Ok(Some(HeaderLayoutSample(row)));
        }
        return Ok(None);
      }
      if |row| == 10 && ValidateCsvSampleAttributes(row) {
        return Ok(Some(DataRowSample(row)));
      }
      if |row| == 12 && ValidateCsvSampleAttributes(row) {
        return Ok(Some(DataRowSample(row)));
      }
      return Ok(None);
    }

    /**
     * `XmlLogAnalyser.getSamples`: the children of the first `testResults`
     * element, each validated element becoming a sample whose assertions are
     * its child elements, in order.
     */
    method GetXmlSamples(document: XmlInput) returns (outcome: Outcome<Failure>)
      modifies this`samples
      ensures XmlSamples(document).Ok? ==> outcome == Pass && samples == XmlSamples(document).value
      ensures XmlSamples(document).Err? ==> outcome == Fail(NoSamples)
    {
      samples := [];
      if document.Parsed? {
        var testResultNodes := ElementsByTagName([document.document], "testResults");
        if |testResultNodes| > 0 {
          samples := SamplesOfChildren(testResultNodes[0].children);
        }
      }
      if |samples| <= 0 {
        return Fail(NoSamples);
      }
      return Pass;
    }

    /**
     * The loop of `XmlLogAnalyser.getSamples` over the children of
     * `testResults`: one sample per element that passes validation, with the
     * assertions its child elements hold.
     */
    static method SamplesOfChildren(nodes: seq<XmlNode>) returns (found: seq<Sample>)
      ensures found == SamplesOfNodes(nodes)
    {
      found := [];
      var i := 0;
      while i < |nodes|
        invariant 0 <= i <= |nodes|
        invariant found == SamplesOfNodes(nodes[..i])
      {
        assert nodes[..i + 1][..i] == nodes[..i];
        var newSample := SampleOfChild(nodes[i]);
        if newSample.Some? {
          found := found + [newSample.value];
        }
        i := i + 1;
      }
      assert nodes[..i] == nodes;
    }

    /** One pass of the loop of `XmlLogAnalyser.getSamples`: the sample of a child element that passes validation. */
    static method SampleOfChild(node: XmlNode) returns (r: Option<Sample>)
      ensures r == SampleOfNode(node)
    {
      r := None;
      if node.Element? {
        if ValidateXmlSampleAttributes(node.attributes) {
          var newSample := XmlSampleOf(node.attributes, []);
          var assertions := AssertionsOfChildren(node.children);
          r := Some(newSample.(assertions := assertions));
        }
      }
    }

    /** The inner loop of `XmlLogAnalyser.getSamples`: one assertion per child element of a sample element. */
    static method AssertionsOfChildren(nodes: seq<XmlNode>) returns (found: seq<Assertion>)
      ensures found == AssertionsOf(nodes)
    {
      found := [];
      var j := 0;
      while j < |nodes|
        invariant 0 <= j <= |nodes|
        invariant found == AssertionsOf(nodes[..j])
      {
        var a := nodes[j];
        assert nodes[..j + 1][..j] == nodes[..j];
        if a.Element? {
          found := found + [AssertionOf(a)];
        }
        j := j + 1;
      }
      assert nodes[..j] == nodes;
    }

    /** `getSamples` of the variant this analyser is. */
    method GetSamples(rows: seq<seq<string>>, document: XmlInput) returns (outcome: Outcome<Failure>)
      requires format != Unknown
      modifies this`samples
      ensures SamplesOf(format, rows, document).Ok? ==> outcome == Pass && samples == SamplesOf(format, rows, document).value
      ensures SamplesOf(format, rows, document).Err? ==> outcome == Fail(SamplesOf(format, rows, document).error)
    {
      if format == Csv {
        outcome := GetCsvSamples(rows);
      } else {
        outcome := GetXmlSamples(document);
      }
    }

    /**
     * `analyzeLog`: the samples of the log, then `calculate` over them.  Since
     * `getSamples` fails on an empty result, `calculate` always runs once the
     * samples are collected.
     */
    method AnalyzeLog(rows: seq<seq<string>>, document: XmlInput) returns (outcome: Outcome<Failure>)
      requires format != Unknown
      modifies this`samples, this`aggrSummary, this`aggrSamples, this`totalSamples
      ensures AnalysisOf(format, rows, document).Err? ==> outcome == Fail(AnalysisOf(format, rows, document).error)
      ensures AnalysisOf(format, rows, document).Ok? ==>
                && outcome == Pass && samples == SamplesOf(format, rows, document).value
                && Finished(Fold(AnalysisOf(format, rows, document).value))
    {
      outcome := GetSamples(rows, document);
      if outcome.Fail? {
        return;
      }
      if |samples| > 0 {
        outcome := Calculate();
      }
    }

    /**
     * The objects of the analysis hold the state `st` of the sample loop:
     * the summary its counters, each group (numbered by its position, TOTAL
     * not yet among them) its group value, and TOTAL its TOTAL value.
     */
    predicate Mirrors(st: CalcState)
      reads this, aggrSummary, aggrSamples, totalSamples
    {
      GroupsMirror(st) && aggrSummary.Counts(st.summary)
    }

    /** The part of `Mirrors` about the groups and TOTAL. */
    predicate GroupsMirror(st: CalcState)
      reads this, aggrSamples, totalSamples
    {
      && |aggrSamples| == |st.groups|
      && totalSamples !in aggrSamples
      && (forall g, h :: 0 <= g < h < |aggrSamples| ==> aggrSamples[g] != aggrSamples[h])
      && (forall g :: 0 <= g < |aggrSamples| ==>
            aggrSamples[g].Holds(st.groups[g]) && aggrSamples[g].link == LinkFor(st.groups[g].name, g))
      && totalSamples.Holds(st.total)
      && totalSamples.link == "samples_"
    }

    /**
     * After `calculate` has taken the samples to the state `st`: TOTAL is
     * appended to the groups, every group and TOTAL carries the final figures
     * of its value, and the summary those of its counters.
     */
    predicate Finished(st: CalcState)
      reads this, aggrSummary, aggrSamples
    {
      && |aggrSamples| == |st.groups| + 1
      && aggrSamples[|st.groups|] == totalSamples
      && (forall g, h :: 0 <= g < h < |aggrSamples| ==> aggrSamples[g] != aggrSamples[h])
      && (forall g :: 0 <= g < |st.groups| ==>
            aggrSamples[g].Finalized(st.groups[g]) && aggrSamples[g].link == LinkFor(st.groups[g].name, g))
      && totalSamples.Finalized(st.total)
      && totalSamples.link == "samples_"
      && aggrSummary.Finalized(st.summary)
    }

    /**
     * `calculate`: every sample is added to the summary, to the group of its
     * label (created when the label is first seen) and to TOTAL; then the
     * summary is finalized, TOTAL is appended to the groups and every group
     * is finalized.  A sample whose start time, time or size is not an
     * integer makes `int()` raise.
     */
    method Calculate() returns (outcome: Outcome<Failure>)
      requires |samples| > 0
      modifies this`aggrSummary, this`aggrSamples, this`totalSamples
      ensures MeasureAll(samples).None? ==> outcome == Fail(ValueError)
      ensures MeasureAll(samples).Some? ==> outcome == Pass && Finished(Fold(MeasureAll(samples).value))
    {
      var measured := MeasureAll(samples);
      if measured.None? {
        return Fail(ValueError);
      }
      var ms := measured.value;
      Run(ms);
      return Pass;
    }

    /** The objects, the sample loop and the finalizers of `calculate`, over the samples `ms`. */
    method Run(ms: seq<Measurement>)
      requires ms != []
      modifies this`aggrSummary, this`aggrSamples, this`totalSamples
      ensures Finished(Fold(ms))
    {
      Reset();
      AccumulateAll(ms);
      Finish(Fold(ms));
    }

    /** The start of `calculate`: a fresh summary, no group and a fresh TOTAL, numbered -1. */
    method Reset()
      modifies this`aggrSummary, this`aggrSamples, this`totalSamples
      ensures Mirrors(Initial) && aggrSamples == []
      ensures fresh(aggrSummary) && fresh(totalSamples)
    {
      aggrSummary := new AggregatedSummary();
      aggrSamples := [];
      totalSamples := new AggregatedSamples("TOTAL", -1);
    }

    /** The end of `calculate`: the summary's finalizers, then TOTAL appended to the groups and every group finalized. */
    method Finish(ghost st: CalcState)
      requires Ready(st) && st.total.tally.samples > 0 && st.total.span.totalTime.Some?
      requires Mirrors(st)
      modifies this`aggrSamples, aggrSummary, aggrSamples, totalSamples
      ensures Finished(st)
    {
      FinalizeSummary(st.summary);
      FinalizeGroups(st);
    }

    /** The sample loop of `calculate`, from fresh objects, over the samples `ms`. */
    method AccumulateAll(ms: seq<Measurement>)
      requires Mirrors(Initial) && aggrSamples == []
      modifies this`aggrSamples, aggrSummary, totalSamples
      ensures Mirrors(Fold(ms))
      ensures forall g :: 0 <= g < |aggrSamples| ==> fresh(aggrSamples[g])
    {
      var i := 0;
      while i < |ms|
        invariant 0 <= i <= |ms|
        invariant forall g :: 0 <= g < |aggrSamples| ==> fresh(aggrSamples[g])
        invariant Mirrors(Fold(ms[..i]))
      {
        AccumulateNext(ms, i);
        i := i + 1;
      }
      assert ms[..i] == ms;
    }

    /** Pass `i` of the sample loop, taking the objects from the fold of `ms[..i]` to that of `ms[..i + 1]`. */
    method AccumulateNext(ms: seq<Measurement>, i: nat)
      requires i < |ms| && Mirrors(Fold(ms[..i]))
      modifies this`aggrSamples, aggrSummary, totalSamples, aggrSamples
      ensures Mirrors(Fold(ms[..i + 1]))
      ensures old(aggrSamples) <= aggrSamples && forall g :: |old(aggrSamples)| <= g < |aggrSamples| ==> fresh(aggrSamples[g])
    {
      FoldPrefixStep(ms, i);
      AccumulateSample(ms[i], Fold(ms[..i]));
    }

    /**
     * One pass of the sample loop of `calculate`: find or create the group of
     * the sample's label, start TOTAL's span on the first sample, and add the
     * sample to the summary, its group and TOTAL.
     */
    method AccumulateSample(m: Measurement, ghost st: CalcState)
      requires Ready(st) && Mirrors(st)
      modifies this`aggrSamples, aggrSummary, totalSamples, aggrSamples
      ensures Mirrors(Step(st, m))
      ensures old(aggrSamples) <= aggrSamples && forall g :: |old(aggrSamples)| <= g < |aggrSamples| ==> fresh(aggrSamples[g])
    {
      var whichAggr := PlaceSample(m, st);
      AddToAll(whichAggr, m, Placed(st, m));
    }

    /** The first statements of the sample loop: `checkWhichAggregated`, and TOTAL's start time on the first sample. */
    method PlaceSample(m: Measurement, ghost st: CalcState) returns (whichAggr: nat)
      requires Mirrors(st)
      modifies this`aggrSamples, totalSamples`startTime
      ensures whichAggr == GroupIndex(st.groups, m.name)
      ensures Mirrors(Placed(st, m))
      ensures old(aggrSamples) <= aggrSamples && forall g :: |old(aggrSamples)| <= g < |aggrSamples| ==> fresh(aggrSamples[g])
    {
      whichAggr := CheckWhichAggregated(m.name, m.start, st);
      StartTotal(m.start, st.(groups := Grown(st.groups, m.name, m.start)));
    }

    /** TOTAL's `setStartTime(start)`, made only while TOTAL has no start time. */
    method StartTotal(start: int, ghost st: CalcState)
      requires Mirrors(st)
      modifies totalSamples`startTime
      ensures Mirrors(st.(total := Begin(st.total, start)))
    {
      if totalSamples.startTime == None {
        totalSamples.SetStartTime(start);
      }
    }

    /** The rest of the sample loop: `m` added to the summary, to group `which` and to TOTAL. */
    method AddToAll(which: nat, m: Measurement, ghost p: CalcState)
      requires which < |p.groups| && Extendable(p.groups[which]) && Extendable(p.total)
      requires Mirrors(p)
      modifies aggrSummary, aggrSamples, totalSamples
      ensures Mirrors(Add(p, which, m))
    {
      AddToSummary(aggrSummary, m, p.summary);
      AddToGroup(aggrSamples[which], m, p.groups[which]);
      AddToGroup(totalSamples, m, p.total);
    }

    /** The four finalizers of the summary, after the sample loop. */
    method FinalizeSummary(ghost t: Tally)
      requires aggrSummary.Counts(t)
      modifies aggrSummary
      ensures aggrSummary.Finalized(t)
    {
      aggrSummary.CalculateAverageTime();
      aggrSummary.CalculateSampleSuccessRateNoAssert();
      aggrSummary.CalculateSampleSuccessRateInclAssert();
      aggrSummary.CalculateAssertionPassRate();
    }

    /**
     * The end of `calculate`: TOTAL joins the groups and each group runs its
     * eight finalizers.
     */
    method FinalizeGroups(ghost st: CalcState)
      requires Ready(st) && st.total.tally.samples > 0 && st.total.span.totalTime.Some?
      requires GroupsMirror(st) && aggrSummary.Finalized(st.summary)
      modifies this`aggrSamples, aggrSamples, totalSamples
      ensures Finished(st)
    {
      ghost var values := st.groups + [st.total];
      aggrSamples := aggrSamples + [totalSamples];
      FinalizeAll(aggrSamples, values);
    }

    /**
     * `checkWhichAggregated(name, start)`: the number of the group labelled
     * `name`, found by a scan that stops at the first match; when there is
     * none, a new group is appended with that number, labelled `name` and
     * started at `start`.  The groups mirroring `st` afterwards mirror
     * `Grown(st.groups, name, start)`.
     */
    method CheckWhichAggregated(name: string, start: int, ghost st: CalcState) returns (aggrId: nat)
      requires GroupsMirror(st)
      modifies this`aggrSamples
      ensures aggrId == GroupIndex(st.groups, name)
      ensures GroupsMirror(st.(groups := Grown(st.groups, name, start)))
      ensures old(aggrSamples) <= aggrSamples && forall g :: |old(aggrSamples)| <= g < |aggrSamples| ==> fresh(aggrSamples[g])
    {
      assert forall g :: 0 <= g < |aggrSamples| ==> aggrSamples[g].sampleName == st.groups[g].name;
      var found, counter := ScanGroups(name, st.groups);
      if found < 0 {
        found := counter + 1;
        CreateGroup(name, found, start, st);
      }
      aggrId := found;
    }

    /** The branch of `checkWhichAggregated` that finds no group: group `id` appended, labelled `name` and started at `start`. */
    method CreateGroup(name: string, id: int, start: int, ghost st: CalcState)
      requires GroupsMirror(st) && id == |st.groups|
      modifies this`aggrSamples
      ensures GroupsMirror(st.(groups := st.groups + [NewGroup(name).(span := Span(Some(start), None, None))]))
      ensures old(aggrSamples) <= aggrSamples && forall g :: |old(aggrSamples)| <= g < |aggrSamples| ==> fresh(aggrSamples[g])
    {
      ghost var appended := st.(groups := st.groups + [NewGroup(name)]);
      AppendGroup(name, id, st);
      StartGroup(aggrSamples[id], id, start, appended);
      assert appended.groups[id := appended.groups[id].(span := appended.groups[id].span.(startTime := Some(start)))]
          == st.groups + [NewGroup(name).(span := Span(Some(start), None, None))];
    }

    /**
     * The scan of `checkWhichAggregated` over groups labelled as `groups`:
     * the number of the first group labelled `name`, or -1, and the counter
     * as the scan leaves it.
     */
    method ScanGroups(name: string, ghost groups: seq<GroupValue>) returns (found: int, counter: int)
      requires |aggrSamples| == |groups|
      requires forall g :: 0 <= g < |aggrSamples| ==> aggrSamples[g].sampleName == groups[g].name
      ensures found == (if GroupIndex(groups, name) < |groups| then GroupIndex(groups, name) else -1)
      ensures counter == |groups| - 1 || found >= 0
    {
      found := -1;
      counter := -1;
      var k := 0;
      while k < |aggrSamples|
        invariant 0 <= k <= |aggrSamples|
        invariant counter == k - 1 && found == -1
        invariant forall g :: 0 <= g < k ==> groups[g].name != name
      {
        counter := counter + 1;
        if name == aggrSamples[k].sampleName {
          found := counter;
          GroupIndexUnique(groups, name, k);
          return;
        }
        k := k + 1;
      }
      GroupIndexUnique(groups, name, k);
    }

    /** The new group of `checkWhichAggregated`: labelled `name`, numbered `id` and appended. */
    method AppendGroup(name: string, id: int, ghost st: CalcState)
      requires GroupsMirror(st) && id == |st.groups|
      modifies this`aggrSamples
      ensures GroupsMirror(st.(groups := st.groups + [NewGroup(name)]))
      ensures old(aggrSamples) <= aggrSamples && |aggrSamples| == id + 1 && fresh(aggrSamples[id])
    {
      var group := new AggregatedSamples(name, id);
      Append(group, st, NewGroup(name));
    }

    /** `aggrSamples.append(group)`, for a group holding `v` with the link of the next number. */
    method Append(group: AggregatedSamples, ghost st: CalcState, ghost v: GroupValue)
      requires GroupsMirror(st) && group !in aggrSamples && group != totalSamples
      requires group.Holds(v) && group.link == LinkFor(v.name, |aggrSamples|)
      modifies this`aggrSamples
      ensures GroupsMirror(st.(groups := st.groups + [v]))
      ensures aggrSamples == old(aggrSamples) + [group]
    {
      ghost var before := aggrSamples;
      aggrSamples := aggrSamples + [group];
      ghost var groups := st.groups + [v];
      forall g | 0 <= g < |aggrSamples|
        ensures aggrSamples[g].Holds(groups[g]) && aggrSamples[g].link == LinkFor(groups[g].name, g)
      {
        if g < |before| {
          assert aggrSamples[g] == before[g] && groups[g] == st.groups[g];
        }
      }
    }

    /** `setStartTime(start)` on group `id`, the group `agg`. */
    method StartGroup(agg: AggregatedSamples, id: nat, start: int, ghost st: CalcState)
      requires GroupsMirror(st) && id < |aggrSamples| && aggrSamples[id] == agg
      modifies agg`startTime
      ensures GroupsMirror(st.(groups := st.groups[id := st.groups[id].(span := st.groups[id].span.(startTime := Some(start)))]))
    {
      agg.SetStartTime(start);
    }
  }

  /**
   * The summary's part of one pass of the sample loop of `calculate`: sample
   * count, minimum, maximum and time sum, then the success, the assertions
   * and the success including assertions.  It takes the summary from the
   * counters of the samples before `m` to those including `m`.
   */
  method AddToSummary(summary: AggregatedSummary, m: Measurement, ghost t: Tally)
    requires summary.Counts(t)
    modifies summary
    ensures summary.Counts(AddMeasurement(t, m))
  {
    summary.AddSample();
    summary.AddMinTime(m.elapsed);
    summary.AddMaxTime(m.elapsed);
    summary.AddAverageTime(m.elapsed);
    SummaryOutcome(summary, m, t);
  }

  /**
   * The status test, the assertion loop and the success including
   * assertions, on the summary.  An assertion that does not pass clears
   * `sampleWithAssertOk`.
   */
  method SummaryOutcome(summary: AggregatedSummary, m: Measurement, ghost t: Tally)
    requires summary.Counts(TimeSample(t, m))
    modifies summary
    ensures summary.Counts(AddMeasurement(t, m))
  {
    var sampleWithAssertOk := false;
    if m.status == "true" {
      summary.AddSuccessfullSampleNoAssert();
      sampleWithAssertOk := true;
    }
    ghost var started := StartSample(t, m);
    var j := 0;
    while j < |m.assertions|
      invariant 0 <= j <= |m.assertions|
      invariant summary.Counts(AddAssertionResults(started, m.assertions[..j]))
      invariant sampleWithAssertOk <==> Succeeded(m) && forall a :: a in m.assertions[..j] ==> Passed(a)
    {
      assert m.assertions[..j + 1] == m.assertions[..j] + [m.assertions[j]];
      var passed := SummaryAssertion(summary, m.assertions[j], AddAssertionResults(started, m.assertions[..j]));
      if !passed {
        sampleWithAssertOk := false;
      }
      j := j + 1;
    }
    assert m.assertions[..j] == m.assertions;
    if sampleWithAssertOk {
      summary.AddSuccessfullSampleInclAssert();
    }
    PhasesMakeMeasurement(t, m);
  }

  /** One pass of the assertion loop on the summary: `addAssertion`, and `addAssertionPassRate` when the assertion passed. */
  method SummaryAssertion(summary: AggregatedSummary, a: Assertion, ghost t: Tally) returns (passed: bool)
    requires summary.Counts(t)
    modifies summary
    ensures passed == Passed(a) && summary.Counts(AddAssertionResult(t, a))
  {
    summary.AddAssertion();
    passed := FlagText(a.failure) == "False" && FlagText(a.error) == "False";
    if passed {
      summary.AddAssertionPassRate();
    }
  }

  /**
   * A group's part of one pass of the sample loop of `calculate` (TOTAL's is
   * the same): the group holds `v` and afterwards holds `v` with `m` added.
   */
  method AddToGroup(agg: AggregatedSamples, m: Measurement, ghost v: GroupValue)
    requires agg.Holds(v) && Extendable(v)
    modifies agg`samples, agg`assertions, agg`samplesSuccessRateNoAssert,
      agg`samplesSuccessRateInclAssert, agg`assertionPassRate, agg`averageTime,
      agg`minTime, agg`maxTime, agg`timeTable, agg`averageBytes, agg`bytesPerSec,
      agg`endTime, agg`totalTime
    ensures agg.Holds(AddTo(v, m))
  {
    AddTimeToGroup(agg, m, v);
    GroupOutcome(agg, m, v.tally, Timed(v, m));
  }

  /**
   * The sample count, time table, minimum, maximum, time sum, byte totals and
   * end time of a group that holds `v`: afterwards it holds `Timed(v, m)`.
   */
  method AddTimeToGroup(agg: AggregatedSamples, m: Measurement, ghost v: GroupValue)
    requires agg.Holds(v) && Extendable(v)
    modifies agg`samples, agg`timeTable, agg`minTime, agg`maxTime, agg`averageTime,
      agg`averageBytes, agg`bytesPerSec, agg`endTime, agg`totalTime
    ensures agg.Holds(Timed(v, m))
  {
    agg.AddSample();
    agg.AddTime(m.elapsed);
    agg.AddMinTime(m.elapsed);
    agg.AddMaxTime(m.elapsed);
    agg.AddAverageTime(m.elapsed);
    agg.AddAverageBytes(m.bytes);
    agg.SetEndTime(m.start, m.elapsed);
  }

  /** The finalizing loop of `calculate`: each group, in order, runs its eight finalizers. */
  method FinalizeAll(groups: seq<AggregatedSamples>, ghost values: seq<GroupValue>)
    requires |groups| == |values|
    requires forall g, h :: 0 <= g < h < |groups| ==> groups[g] != groups[h]
    requires forall g :: 0 <= g < |groups| ==>
      groups[g].Holds(values[g]) && values[g].tally.samples > 0 && values[g].span.totalTime.Some?
    modifies set g | 0 <= g < |groups| :: groups[g]
    ensures forall g :: 0 <= g < |groups| ==> groups[g].Finalized(values[g]) && groups[g].link == old(groups[g].link)
  {
    var k := 0;
    while k < |groups|
      invariant 0 <= k <= |groups|
      invariant forall g :: 0 <= g < k ==> groups[g].Finalized(values[g])
      invariant forall g :: k <= g < |groups| ==> groups[g].Holds(values[g])
      invariant forall g :: 0 <= g < |groups| ==> groups[g].link == old(groups[g].link)
    {
      FinalizeNext(groups[k], groups, values, k);
      k := k + 1;
    }
  }

  /**
   * One pass of the finalizing loop of `calculate`: the groups before `k`
   * are finalized and the others hold their values; group `k` is finalized.
   */
  method FinalizeNext(agg: AggregatedSamples, groups: seq<AggregatedSamples>, ghost values: seq<GroupValue>, k: nat)
    requires k < |groups| == |values| && groups[k] == agg
    requires forall g, h :: 0 <= g < h < |groups| ==> groups[g] != groups[h]
    requires forall g :: 0 <= g < k ==> groups[g].Finalized(values[g])
    requires forall g :: k <= g < |groups| ==> groups[g].Holds(values[g])
    requires values[k].tally.samples > 0 && values[k].span.totalTime.Some?
    modifies agg`averageTime, agg`samplesSuccessRateNoAssert, agg`samplesErrorNoAssert,
      agg`samplesSuccessRateInclAssert, agg`samplesErrorInclAssert, agg`throughput,
      agg`averageBytes, agg`bytesPerSec, agg`kBytesPerSec, agg`median, agg`percentil90, agg`variance
    ensures forall g :: 0 <= g <= k ==> groups[g].Finalized(values[g])
    ensures forall g :: k < g < |groups| ==> groups[g].Holds(values[g])
  {
    assert forall g :: 0 <= g < |groups| && g != k ==> groups[g] != agg;
    FinalizeGroup(agg, values[k]);
  }

  /** The eight finalizers of a group that holds at least one sample. */
  method FinalizeGroup(agg: AggregatedSamples, ghost v: GroupValue)
    requires agg.Holds(v) && v.tally.samples > 0 && v.span.totalTime.Some?
    modifies agg`averageTime, agg`samplesSuccessRateNoAssert, agg`samplesErrorNoAssert,
      agg`samplesSuccessRateInclAssert, agg`samplesErrorInclAssert, agg`throughput,
      agg`averageBytes, agg`bytesPerSec, agg`kBytesPerSec, agg`median, agg`percentil90, agg`variance
    ensures agg.Finalized(v)
  {
    FinalizeFigures(agg, v);
    FinalizeOrder(agg, Figures(v));
  }

  /** The first six finalizers: the counters and the byte total turned into rates and means. */
  method FinalizeFigures(agg: AggregatedSamples, ghost v: GroupValue)
    requires agg.Holds(v) && v.tally.samples > 0 && v.span.totalTime.Some?
    modifies agg`averageTime, agg`samplesSuccessRateNoAssert, agg`samplesErrorNoAssert,
      agg`samplesSuccessRateInclAssert, agg`samplesErrorInclAssert,
      agg`throughput, agg`averageBytes, agg`bytesPerSec, agg`kBytesPerSec
    ensures agg.Contents() == Figures(v)
  {
    FinalizeCounters(agg, v.tally);
    FinalizeRates(agg, v.bytes, v.span.totalTime.value);
  }

  /** The first three finalizers: mean time, success and error rates without and with assertions. */
  method FinalizeCounters(agg: AggregatedSamples, ghost t: Tally)
    requires agg.Counts(t) && t.samples > 0
    modifies agg`averageTime, agg`samplesSuccessRateNoAssert, agg`samplesErrorNoAssert,
      agg`samplesSuccessRateInclAssert, agg`samplesErrorInclAssert
    ensures agg.averageTime == MeanOf(t.timeSum as real, t.samples)
    ensures agg.samplesSuccessRateNoAssert == RateOf(t.successNoAssert as real, t.samples)
    ensures agg.samplesErrorNoAssert == 100.0 - agg.samplesSuccessRateNoAssert
    ensures agg.samplesSuccessRateInclAssert == RateOf(t.successInclAssert as real, t.samples)
    ensures agg.samplesErrorInclAssert == 100.0 - agg.samplesSuccessRateInclAssert
  {
    agg.CalculateAverageTime();
    agg.CalculateSampleSuccessRateNoAssert();
    agg.CalculateSampleSuccessRateInclAssert();
  }

  /** The throughput and byte finalizers over a total time of `total` milliseconds. */
  method FinalizeRates(agg: AggregatedSamples, ghost bytes: int, ghost total: int)
    requires agg.totalTime == Some(total) && agg.averageBytes == bytes as real && agg.bytesPerSec == bytes as real
    requires agg.throughput == 0.0 && agg.kBytesPerSec == 0.0
    modifies agg`throughput, agg`averageBytes, agg`bytesPerSec, agg`kBytesPerSec
    ensures agg.throughput == PerSecond(agg.samples as real, total, 0.0)
    ensures agg.averageBytes == MeanOf(bytes as real, agg.samples)
    ensures agg.bytesPerSec == PerSecond(bytes as real, total, bytes as real)
    ensures agg.kBytesPerSec == if total > 0 then agg.bytesPerSec / 1000.0 else 0.0
  {
    agg.CalculateThroughput();
    agg.CalculateAverageBytes();
    agg.CalculateKBytesPerSec();
  }

  /** The percentile and deviation finalizers, on a group whose fields are `f`. */
  method FinalizeOrder(agg: AggregatedSamples, ghost f: GroupFields)
    requires agg.Contents() == f && f.counters.samples > 0 && f.finals.median == 0 && f.finals.percentil90 == 0
    modifies agg`median, agg`percentil90, agg`variance
    ensures agg.Contents() == Ordered(f)
  {
    ghost var sorted := SortAsc(f.timeTable);
    ghost var n := f.counters.samples;
    FinalizePercentiles(agg, f);
    FinalizeVariance(agg, f.(finals := f.finals.(median := MedianOf(sorted, n, 0), percentil90 := Perc90Of(sorted, n, 0))));
  }

  /** `calculatePercentils` on a group whose fields are `f`. */
  method FinalizePercentiles(agg: AggregatedSamples, ghost f: GroupFields)
    requires agg.Contents() == f && f.counters.samples > 0
    modifies agg`median, agg`percentil90
    ensures var sorted := SortAsc(f.timeTable);
      agg.Contents() == f.(finals := f.finals.(median := MedianOf(sorted, f.counters.samples, f.finals.median),
                                               percentil90 := Perc90Of(sorted, f.counters.samples, f.finals.percentil90)))
  {
    agg.CalculatePercentils();
  }

  /** `calculateStdDev` on a group whose fields are `f`. */
  method FinalizeVariance(agg: AggregatedSamples, ghost f: GroupFields)
    requires agg.Contents() == f && f.counters.samples > 0
    modifies agg`variance
    ensures agg.Contents() == f.(finals := f.finals.(variance := SquaredDeviations(SortAsc(f.timeTable), f.counters.timeSum) / f.counters.samples as real))
  {
    agg.CalculateStdDev();
  }

  /** The status test, the assertion loop and the success including assertions, on a group. */
  method GroupOutcome(agg: AggregatedSamples, m: Measurement, ghost t: Tally, ghost w: GroupValue)
    requires agg.Holds(w) && w.tally == TimeSample(t, m)
    modifies agg`samplesSuccessRateNoAssert, agg`assertions, agg`assertionPassRate, agg`samplesSuccessRateInclAssert
    ensures agg.Holds(w.(tally := AddMeasurement(t, m)))
  {
    var sampleWithAssertOk := false;
    if m.status == "true" {
      agg.AddSuccessfullSampleNoAssert();
      sampleWithAssertOk := true;
    }
    ghost var started := StartSample(t, m);
    var j := 0;
    while j < |m.assertions|
      invariant 0 <= j <= |m.assertions|
      invariant agg.Holds(w.(tally := AddAssertionResults(started, m.assertions[..j])))
      invariant sampleWithAssertOk <==> Succeeded(m) && forall a :: a in m.assertions[..j] ==> Passed(a)
    {
      assert m.assertions[..j + 1] == m.assertions[..j] + [m.assertions[j]];
      var passed := GroupAssertion(agg, m.assertions[j], w.(tally := AddAssertionResults(started, m.assertions[..j])));
      if !passed {
        sampleWithAssertOk := false;
      }
      j := j + 1;
    }
    assert m.assertions[..j] == m.assertions;
    if sampleWithAssertOk {
      agg.AddSuccessfullSampleInclAssert();
    }
    PhasesMakeMeasurement(t, m);
  }

  /** One pass of the assertion loop on a group: `addAssertion`, and `addAssertionPassRate` when the assertion passed. */
  method GroupAssertion(agg: AggregatedSamples, a: Assertion, ghost w: GroupValue) returns (passed: bool)
    requires agg.Holds(w)
    modifies agg`assertions, agg`assertionPassRate
    ensures passed == Passed(a) && agg.Holds(w.(tally := AddAssertionResult(w.tally, a)))
  {
    agg.AddAssertion();
    passed := FlagText(a.failure) == "False" && FlagText(a.error) == "False";
    if passed {
      agg.AddAssertionPassRate();
    }
  }
}
