# JMeter log analysis, modelled in Dafny

This project models the log-analysis engine of the Robot Framework JMeter
library (`JMeterClasses.py`) and proves properties of it. The engine works in
four steps:

1. `LogAnalysisInitiator` reads a JMeter result log.
2. `recognizeFormat` decides whether the log is CSV or XML.
3. `CsvLogAnalyser`/`XmlLogAnalyser` `getSamples` turns rows or elements into
   `Sample` records with their `Assertion`s.
4. `LogAnalyser.calculate` folds the samples into:
   - an `AggregatedSummary`;
   - one `AggregatedSamples` group per label, in first-seen order;
   - a TOTAL group appended last.

   Every group is then finalized: mean time, success and error rates,
   throughput, bytes, median, 90th percentile and the variance under the
   standard deviation.

The code takes the form of the source.

- **Pure functions.** The value-level parts become functions, with lemmas
  about them: format recognition, row and element validation, `int()`,
  assertion flags, and median and percentile selection.
- **Classes with step-by-step methods.** The accumulators and the analyser
  change their fields step by step, so they are classes:
  - `Accumulators.AggregatedSummary` and `Accumulators.AggregatedSamples`,
    whose fields are updated in place;
  - `Analyser.LogAnalyser`, with `samples`, `aggrSummary`, `aggrSamples` and
    `totalSamples`.

  The `getSamples` loops, the sample loop of `calculate`, the scan of
  `checkWhichAggregated` and the finalization loop are `while` loops with
  invariants. Each method is proved against a specification function:
  - `CsvLog.CsvSamples` and `XmlLog.XmlSamples` for `getSamples`;
  - `Calculation.Fold` for the sample loop, one `Calculation.Step` per sample;
  - `Accumulators.Figures` and `Accumulators.Ordered` for the finalizers.
- **Meaning of the fold.** Lemmas relate the fold to per-label definitions
  (`AggregateSpec.TallyOf`, `ByLabel`, `Labels`, `SpanOf`, `Times`):
  - each group holds exactly the samples of its label;
  - TOTAL and the summary hold all samples;
  - the groups' counters add up to TOTAL's.

Modules, one per file:

| module | what it models |
|---|---|
| `Wrappers` | `Option`, `Result` and `Outcome` |
| `IntLiteral` | Python 3 `int()` on strings |
| `Records` | `Sample`/`Sample2`, `Assertion`, and the failures that stop a run |
| `LogFormat` | `recognizeFormat` and the analyser dispatch |
| `CsvLog` | CSV rows to samples |
| `XmlLog` | XML elements to samples |
| `AggregateSpec` | counters, labels, spans, time tables and rates, defined per list of samples |
| `Percentiles` | `sorted`, median, 90th percentile, squared deviations |
| `Calculation` | the sample loop of `calculate` as a fold |
| `Accumulators` | the two accumulator classes |
| `Analyser` | `LogAnalyser` with `getSamples`, `analyzeLog`, `calculate` and `checkWhichAggregated` |
| `Initiator` | `LogAnalysisInitiator`: file, format, analyser, analysis |

**Conventions**
- Time stamps and durations are integer milliseconds.
- Rates, means and per-second figures are exact `real`s.
- Python 3 semantics are used throughout: `/` is true division.

## Model

| member | source | states |
|---|---|---|
| IntLiteral.ParseIntAcceptsLiterals | JMeterClasses.py:456-465 | `int()` succeeds on a field exactly when it is an integer literal: optional whitespace (tab to carriage return, the separators 0x1C-0x1F, space), an optional sign, at least one ASCII digit, optional whitespace |
| IntLiteral.ParseIntRoundTrip | JMeterClasses.py:456-465 | the decimal text of any integer parses back to that integer |
| IntLiteral.NatToString | JMeterClasses.py:833-837 | `str()` of the natural group number in `makeLink` is a nonempty digit string whose value is the number |
| IntLiteral.IntToString | JMeterClasses.py:833-837 | `str()` of a group number is an optional minus sign followed by digits; `IntLiteral.ParseIntRoundTrip` shows `int()` reads the number back |
| Records.NewAssertion | JMeterClasses.py:645-684 | an assertion's failure and error flags are set exactly by the text `true`; the name and the message are kept as given |
| Records.PassedIffNoFlag | JMeterClasses.py:364-372 | the test `getFailure() == "False" and getError() == "False"` holds exactly when neither flag is set |
| LogFormat.SearchIntPairCorrect | JMeterClasses.py:268-273 | the scan answers exactly whether ASCII digits, a comma, ASCII digits and a comma (`\d+,\d+,` over ASCII digits) occur anywhere in the line |
| LogFormat.RecognizeFormat | JMeterClasses.py:262-275 | `recognizeFormat` can fail only with an index error, from reading a second line that is not there |
| LogFormat.RecognizeFormatCases | JMeterClasses.py:262-275 | XML iff there are at least two lines, line 0 has `xml version` and line 1 has `<testResults`. A lone line with the CSV header fails with an index error. Otherwise CSV iff line 0 holds `digits,digits,`, or holds the header with line 1 holding `digits,digits,`. Anything else is the empty answer |
| LogFormat.SelectAnalyser | JMeterClasses.py:288-295 | the analyser chosen is CSV or XML as recognised; "Incorrect log file format" exactly when the answer is empty |
| LogFormat.UnrecognizedLogFails | JMeterClasses.py:288-295 | a log that is neither XML nor CSV, and not a lone header line, stops with "Incorrect log file format" |
| CsvLog.ParsedRows | JMeterClasses.py:427-450 | collecting samples from rows can fail only with an index error |
| CsvLog.CsvSamples | JMeterClasses.py:419-454 | `getSamples` yields at least one sample, or fails with "No samples were found" or an index error |
| CsvLog.HeaderRowsMapped | JMeterClasses.py:427-440 | after a header row, collection succeeds iff every later row has at least 14 fields. Each later row then becomes the sample of columns 0-7, 9 and 13, in row order, with no check of its numbers |
| CsvLog.DataRowsValidated | JMeterClasses.py:441-450 | without a header, every sample comes from an accepted row: exactly 10 or 12 fields with fields 0, 1, 8, 9 parsing as integers. Every accepted row yields its sample |
| CsvLog.DataRowsAppend | JMeterClasses.py:427-450 | without a header, the samples of two blocks of rows are the samples of each block, in order |
| CsvLog.DataRowStep | JMeterClasses.py:441-451 | without a header, one more row adds exactly its sample at the end when it passes validation, and nothing otherwise |
| CsvLog.DataRowsNeverFail | JMeterClasses.py:441-450 | without a header row, collecting samples from rows never fails, whatever the rows hold |
| CsvLog.DataRowsNumeric | JMeterClasses.py:441-465 | without a header, every sample's start time, time, bytes and latency parse as integers |
| CsvLog.ShortRowFails | JMeterClasses.py:435-440 | after the header, a row shorter than 14 fields makes `getSamples` fail with an index error, whatever follows |
| CsvLog.PrefixFailurePersists | JMeterClasses.py:427-450 | once a prefix of the rows fails, the whole scan fails the same way |
| XmlLog.ElementsByTagName | JMeterClasses.py:477-478 | `getElementsByTagName` returns only elements with that tag |
| XmlLog.TagContentRoundTrip | JMeterClasses.py:532-539 | `getAssertionFields` gives back the text of an element `<tag>text</tag>` whose text holds no markup |
| XmlLog.XmlSampleOf | JMeterClasses.py:484-498 | the sample of a validated element has numeric `ts`, `t`, `by`, `lt`. It is a `Sample2` iff both `ng` and `na` are present, and it carries the element's label and status |
| XmlLog.XmlSamples | JMeterClasses.py:468-513 | `getSamples` yields at least one sample or fails with "No samples were found", also when the file cannot be read or parsed |
| XmlLog.AssertionsCount | JMeterClasses.py:499-508 | a sample element has one assertion per child element |
| XmlLog.AssertionsAppend | JMeterClasses.py:499-508 | assertions follow the order of the child elements |
| XmlLog.AssertionFlags | JMeterClasses.py:502-507 | an XML assertion fails (errs) exactly when its `failure` (`error`) child's text is `true` |
| XmlLog.SamplesAppend | JMeterClasses.py:482-511 | samples follow the order of the children of `testResults` |
| XmlLog.SamplesValidated | JMeterClasses.py:482-530 | every sample comes from a child element that passes `validateXmlSampleAttributes` and has numeric fields |
| AggregateSpec.MeasureAll | JMeterClasses.py:336-358 | the conversions of `calculate` succeed iff every sample's `ts`, `t`, `by` parse, and then give one measurement per sample, in order |
| AggregateSpec.ValidatedSamplesMeasurable | JMeterClasses.py:336-358 | samples with numeric fields always convert, each measurement keeping its sample's label |
| AggregateSpec.MinWith | JMeterClasses.py:774-781 | `addMinTime` keeps the smaller of the current minimum and the new time, the first time setting it |
| AggregateSpec.MaxWith | JMeterClasses.py:785-790 | `addMaxTime` keeps the larger of the current maximum and the new time |
| AggregateSpec.PassCountBound | JMeterClasses.py:364-372 | assertion passes never outnumber assertions, and equal them iff every assertion passed |
| AggregateSpec.AssertionResultsCount | JMeterClasses.py:364-372 | the assertion loop adds one assertion per assertion and one pass per passing assertion |
| AggregateSpec.PhasesMakeMeasurement | JMeterClasses.py:341-376 | the order of updates in the loop body (counters, status, assertions, success including assertions) gives the counters of one whole sample |
| AggregateSpec.TallyCounts | JMeterClasses.py:341-376 | the counters count every sample. Successes without assertions are the samples with status `"true"`; successes including assertions are those whose assertions all passed as well. Passes never outnumber assertions |
| AggregateSpec.TallyMinMax | JMeterClasses.py:774-791 | `minTime` is unset iff there is no sample and is the least time. `maxTime` is at least every time and is 0 or one of the times |
| AggregateSpec.TallyAppend | JMeterClasses.py:336-376 | the counters of two lists of samples put together are the counters of the joined list |
| AggregateSpec.LabelsDistinctAndComplete | JMeterClasses.py:393-407 | the group labels are distinct and are exactly the labels of the samples |
| AggregateSpec.LabelsGrowByPrefix | JMeterClasses.py:393-407 | groups are never removed or reordered: the labels after any prefix of the samples are a prefix of the final labels |
| AggregateSpec.NewLabelNumbered | JMeterClasses.py:401-406 | a label seen for the first time gets the next group number |
| AggregateSpec.GroupsMakeTotal | JMeterClasses.py:345-358 | conservation: the per-label groups' counters put together are TOTAL's (and the summary's) counters |
| AggregateSpec.SpanOf | JMeterClasses.py:861-880 | a group's span starts at its first sample's start time and has an end time and a total time |
| AggregateSpec.SpanIsFurthestReach | JMeterClasses.py:867-880 | `totalTime` is the largest (start − group start) + duration over the group's samples |
| AggregateSpec.SpanMonotone | JMeterClasses.py:867-880 | `totalTime` never decreases as samples are added |
| AggregateSpec.TimesInOrder | JMeterClasses.py:963-964 | the time table holds the samples' times in input order |
| AggregateSpec.RateIsPercentage | JMeterClasses.py:727-757 | a rate over a positive denominator lies in [0, 100], so does its error rate, and it is 100 when every sample counts. Over a zero denominator it stays as it was |
| AggregateSpec.MeanWithinMinMax | JMeterClasses.py:765-770 | the mean time lies between the minimum and the maximum time |
| Percentiles.SortAsc | JMeterClasses.py:921 | `sorted()` returns an ascending permutation of the time table |
| Percentiles.Insert | JMeterClasses.py:921 | placing one time into an ascending list keeps it ascending and adds exactly that time |
| Percentiles.SortAscPermutationInvariant | JMeterClasses.py:921 | the sorted time table does not depend on the order of the times |
| Percentiles.MedianBetweenMiddles | JMeterClasses.py:922-935 | the median lies between the two middle elements; for an odd count it is the middle element |
| Percentiles.MedianEvenFloor | JMeterClasses.py:922-927 | for an even count the median is the floor of the mean of the two middle elements, for non-negative middle times (where flooring and Python's `int()` truncation agree) |
| Percentiles.Perc90IndexInRange | JMeterClasses.py:936-941 | the 90th-percentile index is within the list and at or above 90 % of it |
| Percentiles.Perc90IsElement | JMeterClasses.py:936-943 | the 90th percentile is an element of the list, not below any element in the first 90 % |
| Percentiles.MedianAtMostPerc90 | JMeterClasses.py:918-943 | the median never exceeds the 90th percentile |
| Percentiles.PercentilesOrderInvariant | JMeterClasses.py:918-943 | median and 90th percentile do not depend on the order of the times |
| Percentiles.SquaredDeviationsNonnegative | JMeterClasses.py:948-952 | the sum of squared deviations is never negative |
| Percentiles.SquaredDeviationsConstant | JMeterClasses.py:948-952 | equal times about their own value have no deviation |
| Calculation.GroupIndex | JMeterClasses.py:393-407 | the group number of a label is that of the first group with the label, or the next free number when there is none |
| Calculation.Grown | JMeterClasses.py:401-406 | `checkWhichAggregated` only ever appends a group, and afterwards the label's number is within the groups |
| Calculation.CollectedStep | JMeterClasses.py:345-351 | adding one more sample of a label to its group is one group step, after its start time is set |
| Calculation.Fold | JMeterClasses.py:336-376 | after the sample loop every group holds a sample and has a total time; TOTAL does too once there is a sample |
| Calculation.FoldMeaning | JMeterClasses.py:336-376 | after the samples, the summary holds their counters. There is one group per label in first-seen order, each holding exactly its label's samples (counters, time table, bytes, span), and TOTAL holds all samples |
| Accumulators.GroupLinksDistinct | JMeterClasses.py:833-837 | the links of distinct group numbers differ, and differ from TOTAL's `samples_` |
| Accumulators.AggregatedSummary.constructor | JMeterClasses.py:686-698 | a new summary holds the counters of no sample, with `minTime` unset and `maxTime` 0 |
| Accumulators.AggregatedSummary.InitiateAll | JMeterClasses.py:690-698 | every counter goes back to that of no sample: no minimum, maximum 0 |
| Accumulators.AggregatedSummary.AddSample | JMeterClasses.py:712-713 | the sample count grows by one |
| Accumulators.AggregatedSummary.AddAssertion | JMeterClasses.py:718-719 | the assertion count grows by one |
| Accumulators.AggregatedSummary.AddSuccessfullSampleNoAssert | JMeterClasses.py:724-725 | the count of successful samples grows by one |
| Accumulators.AggregatedSummary.AddSuccessfullSampleInclAssert | JMeterClasses.py:736-737 | the count of samples successful with their assertions grows by one |
| Accumulators.AggregatedSummary.CalculateSampleSuccessRateInclAssert | JMeterClasses.py:739-744 | the count of samples successful with their assertions becomes a percentage of the samples, only when there is a sample |
| Accumulators.AggregatedSummary.AddAssertionPassRate | JMeterClasses.py:748-749 | the count of passed assertions grows by one |
| Accumulators.AggregatedSummary.CalculateAssertionPassRate | JMeterClasses.py:751-756 | the count of passed assertions becomes a percentage of the assertions, only when there is an assertion |
| Accumulators.AggregatedSummary.AddAverageTime | JMeterClasses.py:760-763 | the time sum grows by the time |
| Accumulators.AggregatedSummary.AddMaxTime | JMeterClasses.py:785-790 | the maximum becomes the larger of the old maximum and the time |
| Accumulators.AggregatedSummary.AddMinTime | JMeterClasses.py:774-781 | the minimum becomes the smaller of the old minimum and the time |
| Accumulators.AggregatedSummary.CalculateSampleSuccessRateNoAssert | JMeterClasses.py:727-732 | the success count becomes a percentage of the samples, only when there is a sample |
| Accumulators.AggregatedSummary.CalculateAverageTime | JMeterClasses.py:765-770 | the time sum becomes the mean, only when there is a sample |
| Accumulators.AggregatedSamples.constructor | JMeterClasses.py:794-811 | a new group carries its label, the link of its number and no sample, time or span |
| Accumulators.AggregatedSamples.MakeLink | JMeterClasses.py:833-837 | the link is `samples_` for TOTAL numbered -1, and `aggr` followed by the number otherwise |
| Accumulators.AggregatedSamples.AddSample | JMeterClasses.py:712-713 | a group's sample count grows by one and nothing else of the group changes |
| Accumulators.AggregatedSamples.AddAssertion | JMeterClasses.py:718-719 | a group's assertion count grows by one and nothing else changes |
| Accumulators.AggregatedSamples.AddSuccessfullSampleNoAssert | JMeterClasses.py:724-725 | a group's count of successful samples grows by one and nothing else changes |
| Accumulators.AggregatedSamples.AddSuccessfullSampleInclAssert | JMeterClasses.py:736-737 | a group's count of samples successful with their assertions grows by one and nothing else changes |
| Accumulators.AggregatedSamples.AddAssertionPassRate | JMeterClasses.py:748-749 | a group's count of passed assertions grows by one and nothing else changes |
| Accumulators.AggregatedSamples.AddAverageTime | JMeterClasses.py:760-763 | a group's time sum grows by the time and nothing else changes |
| Accumulators.AggregatedSamples.AddMinTime | JMeterClasses.py:774-781 | a group's minimum becomes the smaller of the old one and the time, nothing else changes |
| Accumulators.AggregatedSamples.AddMaxTime | JMeterClasses.py:785-790 | a group's maximum becomes the larger of the old one and the time, nothing else changes |
| Accumulators.AggregatedSamples.SetStartTime | JMeterClasses.py:861-862 | the group's start time is set and nothing else changes |
| Accumulators.AggregatedSamples.CalculateSampleSuccessRateInclAssert | JMeterClasses.py:850-856 | the group's success rate including assertions and its error rate, which add up to 100, only when there is a sample |
| Accumulators.AggregatedSamples.CalculateAverageTime | JMeterClasses.py:765-770 | the group's time sum becomes the mean time, only when there is a sample |
| Accumulators.AggregatedSamples.CalculateThroughput | JMeterClasses.py:882-885 | throughput is the sample count per second of total time, only when the total time is positive |
| Accumulators.AggregatedSamples.AddAverageBytes | JMeterClasses.py:890-894 | the byte sum grows by the sample's bytes, and so does the byte total for the per-second figures |
| Accumulators.AggregatedSamples.CalculateAverageBytes | JMeterClasses.py:896-900 | the byte sum becomes the mean size, only when there is a sample |
| Accumulators.AggregatedSamples.AddBytesPerSec | JMeterClasses.py:905-906 | the byte total grows by the bytes |
| Accumulators.AggregatedSamples.SetEndTime | JMeterClasses.py:867-880 | the first end time sets the span; a later sample moves the end time only when it reaches further |
| Accumulators.AggregatedSamples.CalculateSampleSuccessRateNoAssert | JMeterClasses.py:839-845 | the group's success rate and error rate, which add up to 100, only when there is a sample |
| Accumulators.AggregatedSamples.CalculateKBytesPerSec | JMeterClasses.py:908-913 | the byte total becomes bytes per second and KB per second, only when the total time is positive |
| Accumulators.AggregatedSamples.CalculatePercentils | JMeterClasses.py:918-943 | median and 90th percentile are taken from the sorted time table |
| Accumulators.AggregatedSamples.CalculateStdDev | JMeterClasses.py:948-955 | the variance is the mean squared deviation of the times from the mean time |
| Accumulators.AggregatedSamples.AddTime | JMeterClasses.py:963-964 | the time is appended to the time table and nothing else changes |
| Analyser.AnalysisOf | JMeterClasses.py:319-325 | a successful analysis always has samples to calculate over |
| Analyser.LogAnalyser.GetCsvSamples | JMeterClasses.py:419-454 | the loop over the rows collects exactly `CsvSamples`, or fails as it does |
| Analyser.LogAnalyser.SampleOfRow | JMeterClasses.py:428-450 | one pass of the row loop classifies the row exactly as the row step of `CsvSamples`: header layout or index error after a header, the sample of an accepted row otherwise |
| Analyser.LogAnalyser.GetXmlSamples | JMeterClasses.py:468-513 | the loop over the children of `testResults` collects exactly `XmlSamples`, or fails with "No samples were found" |
| Analyser.LogAnalyser.constructor | JMeterClasses.py:315-317 | a new analyser holds its path and format, and no sample or group yet |
| Analyser.LogAnalyser.GetSamples | JMeterClasses.py:419-513 | `getSamples` of the analyser's format stores the samples of the log or fails as they do |
| Analyser.LogAnalyser.SamplesOfChildren | JMeterClasses.py:482-511 | the loop over the children yields the samples of the validated elements, in order |
| Analyser.LogAnalyser.AssertionsOfChildren | JMeterClasses.py:499-508 | the inner loop yields one assertion per child element, in order |
| Analyser.LogAnalyser.AnalyzeLog | JMeterClasses.py:319-325 | `analyzeLog` fails as the analysis of its samples does. Otherwise it keeps the samples `getSamples` collected and leaves the finished figures of the fold of those samples |
| Analyser.LogAnalyser.Calculate | JMeterClasses.py:331-391 | a sample whose start time, time or size is not an integer makes the run fail with a value error. Otherwise the summary, every label group in first-seen order and TOTAL (appended last) carry the finished figures of the fold of the samples |
| Analyser.LogAnalyser.Run | JMeterClasses.py:333-391 | over samples that all convert, the objects end with the finished figures of their fold |
| Analyser.LogAnalyser.Reset | JMeterClasses.py:333-335 | the objects start as the state before any sample: new summary and TOTAL, no group |
| Analyser.LogAnalyser.Finish | JMeterClasses.py:378-391 | from the state after the loop, the summary, the groups and TOTAL carry their finished figures |
| Analyser.LogAnalyser.AccumulateAll | JMeterClasses.py:336-376 | after the sample loop the objects hold the fold of the samples, and every group object is new |
| Analyser.LogAnalyser.AccumulateSample | JMeterClasses.py:337-376 | one pass of the loop takes the objects from a state to its `Step` |
| Analyser.LogAnalyser.PlaceSample | JMeterClasses.py:337-339 | the pass finds or creates the label's group and starts TOTAL on the first sample |
| Analyser.LogAnalyser.AddToAll | JMeterClasses.py:341-376 | the sample is added to the summary, to its group and to TOTAL, and nothing else changes |
| Analyser.LogAnalyser.CheckWhichAggregated | JMeterClasses.py:393-407 | the number returned is the label's first group, or a new group appended and started at the sample's start time |
| Analyser.LogAnalyser.ScanGroups | JMeterClasses.py:396-402 | the scan stops at the first group with the label, or runs to the end with the counter at the last group |
| Analyser.LogAnalyser.FinalizeSummary | JMeterClasses.py:378-381 | the summary's four finalizers turn its counters into the mean time and the three rates |
| Analyser.LogAnalyser.FinalizeGroups | JMeterClasses.py:382-391 | TOTAL joins the groups last and every group carries its finished figures |
| Analyser.AddToSummary | JMeterClasses.py:341-376 | one sample takes the summary's counters from those of the samples before it to those including it |
| Analyser.SummaryOutcome | JMeterClasses.py:359-376 | the status test, the assertion loop and the success including assertions on the summary |
| Analyser.SummaryAssertion | JMeterClasses.py:364-372 | one assertion adds one to the summary's assertions and, exactly when neither flag is set, one pass; the answer says whether it passed |
| Analyser.GroupAssertion | JMeterClasses.py:364-372 | the same on a group, nothing else of the group changing |
| Analyser.AddToGroup | JMeterClasses.py:345-376 | one sample takes a group from the value of its samples before it to the value including it |
| Analyser.AddTimeToGroup | JMeterClasses.py:345-351 | count, time table, minimum, maximum, time sum, bytes and span of one sample on a group |
| Analyser.GroupOutcome | JMeterClasses.py:359-376 | the status test, the assertion loop and the success including assertions on a group |
| Analyser.FinalizeAll | JMeterClasses.py:383-391 | the finalization loop leaves every group with its finished figures and its link unchanged |
| Analyser.FinalizeGroup | JMeterClasses.py:384-391 | the eight finalizers of a group give the figures and the order statistics of its value |
| Analyser.FinalizeFigures | JMeterClasses.py:384-389 | the first six finalizers of a group give the figures of its value |
| Analyser.FinalizeCounters | JMeterClasses.py:384-386 | mean time, success rates and error rates of a group with samples |
| Analyser.FinalizeRates | JMeterClasses.py:387-389 | throughput, mean size, bytes per second and KB per second of a group |
| Analyser.FinalizeOrder | JMeterClasses.py:390-391 | median, 90th percentile and variance of the sorted time table |
| Analyser.FinalizePercentiles | JMeterClasses.py:390 | median and 90th percentile taken from the sorted time table |
| Analyser.FinalizeVariance | JMeterClasses.py:391 | the variance is the mean squared deviation from the mean time |
| Initiator.RunAnalysis | JMeterClasses.py:244-296 | a successful run has samples |
| Initiator.InitiateNewAnalyserObject | JMeterClasses.py:277-296 | an unopenable file fails with "couldn't be opened". Otherwise the analyser is the CSV or XML one recognised, or the run fails as `recognizeFormat` and the dispatch do |
| Initiator.Initiate | JMeterClasses.py:244-249 | the constructor fails as the run does. Otherwise it holds an analyser with the log's samples and the finished figures of the fold of those samples |
| Initiator.RunAnalysisFailures | JMeterClasses.py:244-296 | the run fails with "couldn't be opened" iff the file cannot be opened, and with "Incorrect log file format" iff the format is not recognised. It succeeds iff the format is recognised, its samples are found and all convert |
| Initiator.RunConserves | JMeterClasses.py:331-391 | after a successful run, the summary equals TOTAL's counters and TOTAL counts every sample. There is one group per label in first-seen order with that label's counters, and the groups' counters put together are TOTAL's |
| Initiator.LogAnalysisInitiator.constructor | JMeterClasses.py:244-249 | the initiator keeps the path and the analyser object |

## Left out

- I/O:
  - Reading the file, `csv.reader` quoting and `xml.dom.minidom.parse` are not modelled. Their results are parameters (`Initiator.LogFile`, `XmlLog.XmlInput`).
  - An `IOError` while `CsvLogAnalyser.getSamples` reopens a file that `recognizeFormat` could read is not modelled. The model keeps every row.
  - `toxml()` of an assertion child is taken as given text.
- Reports and wrappers: `JMeterRunner`, `JMeterKeywords`, `LogConverterSql`, `LogConverterHtml`, `convertToDictionary`, `getReturnStructure` and the debug prints. These are process execution, persistence, rendering and output.
- Floating point:
  - Rates, means and per-second figures are exact reals.
  - The `"%.2f"`/`"%.1f"` string formatting of the finalizers is not modelled. So `calculateStdDev` uses the exact mean where the source uses the mean rounded to two decimals.
  - `math.sqrt` is not modelled. The model keeps the variance that `stddev` is the square root of.
- Time:
  - `datetime.fromtimestamp` is replaced by integer milliseconds.
  - `totalTime` is kept in milliseconds where the source keeps seconds. Throughput and bytes per second convert it to seconds, so they are the source's per-second figures.
- Python 2: the model follows Python 3. Under Python 2, `/` on integers floors, and `round` rounds halves away from zero.
- Percentiles.Perc90Rounded: `round(0.9 * n + 0.5)` is taken as Python 3 rounding of the exact value. The floating-point error of `0.9 * n` on ties is not modelled.
- ParseIntAcceptsLiterals: `int()` is modelled on ASCII text. Python 3 also strips non-ASCII whitespace (U+0085, U+00A0, U+1680, U+2000-U+200A, U+2028, U+2029, U+202F, U+205F, U+3000) and accepts any Unicode decimal digit and single underscores between digits; the model rejects those fields. JMeter writes ASCII numbers.
- SearchIntPairCorrect: the format test's `\d` is modelled as the ASCII digits. In Python 3 it matches every Unicode decimal digit, so a log whose numbers use other scripts' digits is CSV in the source and "Incorrect log file format" in the model.
- Analyser.LogAnalyser.Calculate:
  - It requires samples. `analyzeLog` only calls it then.
  - With no sample, TOTAL's `None` total time would make `calculateThroughput` raise.
  - The `int()` conversions are checked on every sample before any object changes. In the source, a bad sample raises a `ValueError` part-way through the loop, after earlier samples were added. The model states the failure, not the partly updated objects.
- Inheritance: `CsvLogAnalyser` and `XmlLogAnalyser` are one class, `LogAnalyser`, with a `format` field. `AggregatedSamples` repeats the counters of `AggregatedSummary` rather than inheriting them.
- `calculateAssertionPassRate` is not called for groups in the source, so a group's `assertionPassRate` stays a count. The model keeps it that way.
