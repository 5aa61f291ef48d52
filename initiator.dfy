/**
 * `LogAnalysisInitiator`: reading the log, choosing the CSV or XML analyser
 * by `recognizeFormat`, and running `analyzeLog` on it.  The file itself is
 * given by what the libraries make of it.
 */
module Initiator {
  import opened Wrappers
  import opened Records
  import opened LogFormat
  import opened XmlLog
  import opened AggregateSpec
  import opened Calculation
  import opened Analyser

  /**
   * A log file as the analysis sees it: the lines `readlines()` returns, the
   * rows `csv.reader` yields and the result of `minidom.parse`.
   */
  datatype LogFile = LogFile(lines: seq<string>, rows: seq<seq<string>>, document: XmlInput)

  /**
   * What a run of `LogAnalysisInitiator(filePath)` computes from: the
   * samples of the log, converted for `calculate`, or the failure that stops
   * it.  `None` is a file that cannot be opened.
   */
  function RunAnalysis(file: Option<LogFile>): (r: Result<seq<Measurement>, Failure>)
    ensures r.Ok? ==> |r.value| > 0
  {
    match file
    case None => Err(FileNotOpened)
    case Some(f) =>
      match SelectAnalyser(f.lines)
      case Err(e) => Err(e)
      case Ok(format) => AnalysisOf(format, f.rows, f.document)
  }

  /** The log analyser `initiateNewAnalyserObject` returns, with the analysis its constructor ran. */
  class LogAnalysisInitiator {
    const jtlPath: string
    const analyserObject: LogAnalyser

    constructor (jtlPath: string, analyserObject: LogAnalyser)
      ensures this.jtlPath == jtlPath && this.analyserObject == analyserObject
    {
      this.jtlPath := jtlPath;
      this.analyserObject := analyserObject;
    }
  }

  /**
   * `initiateNewAnalyserObject`: a file that cannot be opened fails, and
   * otherwise the lines select a CSV or an XML analyser for the path, or the
   * run stops with the failure of `recognizeFormat` or "Incorrect log file
   * format".
   */
  method InitiateNewAnalyserObject(jtlPath: string, file: Option<LogFile>) returns (r: Result<LogAnalyser, Failure>)
    ensures file.None? ==> r == Err(FileNotOpened)
    ensures file.Some? && SelectAnalyser(file.value.lines).Err? ==> r == Err(SelectAnalyser(file.value.lines).error)
    ensures file.Some? && SelectAnalyser(file.value.lines).Ok? ==>
              && r.Ok? && fresh(r.value)
              && r.value.format == SelectAnalyser(file.value.lines).value && r.value.filePath == jtlPath
  {
    if file.None? {
      return Err(FileNotOpened);
    }
    var format := SelectAnalyser(file.value.lines);
    if format.Err? {
      return Err(format.error);
    }
    var analyser := new LogAnalyser(jtlPath, format.value);
    return Ok(analyser);
  }

  /**
   * The constructor of `LogAnalysisInitiator(filePath)`: the analyser for
   * the file, then its `analyzeLog`.  On success the analyser holds the
   * samples of the log and the finished figures of the summary, of every
   * label group and of TOTAL.
   */
  method Initiate(jtlPath: string, file: Option<LogFile>) returns (r: Result<LogAnalysisInitiator, Failure>)
    ensures RunAnalysis(file).Err? ==> r == Err(RunAnalysis(file).error)
    ensures RunAnalysis(file).Ok? ==>
              && r.Ok? && r.value.jtlPath == jtlPath
              && r.value.analyserObject.samples == SamplesOf(SelectAnalyser(file.value.lines).value, file.value.rows, file.value.document).value
              && r.value.analyserObject.Finished(Fold(RunAnalysis(file).value))
  {
    var created := InitiateNewAnalyserObject(jtlPath, file);
    if created.Err? {
      return Err(created.error);
    }
    var analyser := created.value;
    var outcome := analyser.AnalyzeLog(file.value.rows, file.value.document);
    if outcome.Fail? {
      return Err(outcome.error);
    }
    var initiator := new LogAnalysisInitiator(jtlPath, analyser);
    return Ok(initiator);
  }

  /**
   * When a run fails: the file cannot be opened, or its format is not
   * recognised, or the samples of its format fail, or some sample's start
   * time, time or size is not an integer.
   */
  lemma RunAnalysisFailures(file: Option<LogFile>)
    ensures RunAnalysis(file) == Err(FileNotOpened) <==> file.None?
    ensures RunAnalysis(file) == Err(IncorrectFormat) <==> file.Some? && RecognizeFormat(file.value.lines) == Ok(Unknown)
    ensures RunAnalysis(file).Ok? <==>
              && file.Some? && SelectAnalyser(file.value.lines).Ok?
              && SamplesOf(SelectAnalyser(file.value.lines).value, file.value.rows, file.value.document).Ok?
              && MeasureAll(SamplesOf(SelectAnalyser(file.value.lines).value, file.value.rows, file.value.document).value).Some?
  {
  }

  /**
   * The figures of a successful run, from the log's samples: the summary and
   * TOTAL count every sample, there is one group per label in first-seen
   * order holding that label's counters, and the groups' counters put
   * together are TOTAL's.
   */
  lemma {:induction false} RunConserves(file: Option<LogFile>)
    requires RunAnalysis(file).Ok?
    ensures var ms := RunAnalysis(file).value;
      var st := Fold(ms);
      && st.summary == st.total.tally
      && st.total.tally.samples == |ms|
      && |st.groups| == |Labels(ms)|
      && (forall g :: 0 <= g < |st.groups| ==>
            st.groups[g].name == Labels(ms)[g] && st.groups[g].tally == TallyOf(ByLabel(ms, Labels(ms)[g])))
      && CombineGroups(ms, Labels(ms)) == st.total.tally
  {
    var ms := RunAnalysis(file).value;
    FoldMeaning(ms);
    TallyCounts(ms);
    GroupsMakeTotal(ms);
  }
}
