/**
 * The accumulator objects of the analysis.  `AggregatedSummary` keeps the
 * run-wide counters; `AggregatedSamples` keeps the same counters for one
 * label (or for TOTAL) plus its time span, time table, byte totals and the
 * order statistics computed at the end.  Each `add*` method updates its
 * counter in place; each `calculate*` method turns a counter into its final
 * figure, leaving it as it is when the denominator is 0.
 *
 * `AggregatedSamples` inherits the counter members of `AggregatedSummary`;
 * here it repeats them, and both classes share the update rules `MinWith`,
 * `MaxWith`, `RateOf` and `MeanOf`.
 */
module Accumulators {
  import opened Wrappers
  import opened IntLiteral
  import opened AggregateSpec
  import opened Percentiles
  import opened Calculation

  /**
   * The counter fields both classes keep, as one value; the success and pass
   * counters and the time sum are floats.  `timeSum` is the source's
   * `averageTime` field: the running sum of the times until
   * `calculateAverageTime` turns it into the mean time, which is what the
   * deviation finalizer (`Ordered`) then reads from it.
   */
  datatype Counters = Counters(
    samples: nat,
    assertions: nat,
    successNoAssert: real,
    successInclAssert: real,
    assertionPasses: real,
    timeSum: real,
    minTime: Option<int>,
    maxTime: int)

  /** The field values that hold the tally `t`. */
  function CountersOf(t: Tally): Counters {
    Counters(t.samples, t.assertions, t.successNoAssert as real, t.successInclAssert as real,
             t.assertionPasses as real, t.timeSum as real, t.minTime, t.maxTime)
  }

  /** The final figures of a group, all 0 until the finalizers run. */
  datatype Finals = Finals(
    samplesErrorNoAssert: real,
    samplesErrorInclAssert: real,
    throughput: real,
    kBytesPerSec: real,
    median: int,
    variance: real,
    percentil90: int)

  /** The fields of an `AggregatedSamples` other than its link and start-time-only state, as one value. */
  datatype GroupFields = GroupFields(
    name: string,
    counters: Counters,
    timeTable: seq<int>,
    averageBytes: real,
    bytesPerSec: real,
    span: Span,
    finals: Finals)

  /** The fields of a group holding `v` before any finalizer has run. */
  function FieldsOf(v: GroupValue): GroupFields {
    GroupFields(v.name, CountersOf(v.tally), v.times, v.bytes as real, v.bytes as real, v.span,
                Finals(0.0, 0.0, 0.0, 0.0, 0, 0.0, 0))
  }

  /**
   * The fields of a group holding `v`, with at least one sample and a total
   * time, once its first six finalizers have run: the counters turned into
   * rates and means (a group's pass counter is never turned into a rate), the
   * byte total into a mean and a rate, and the error rates as the complements
   * of the success rates.
   */
  function Figures(v: GroupValue): GroupFields
    requires v.span.totalTime.Some?
  {
    var t := v.tally;
    var total := v.span.totalTime.value;
    var successNoAssert := RateOf(t.successNoAssert as real, t.samples);
    var successInclAssert := RateOf(t.successInclAssert as real, t.samples);
    var bytesPerSec := PerSecond(v.bytes as real, total, v.bytes as real);
    GroupFields(
      v.name,
      Counters(t.samples, t.assertions, successNoAssert, successInclAssert, t.assertionPasses as real,
               MeanOf(t.timeSum as real, t.samples), t.minTime, t.maxTime),
      v.times,
      MeanOf(v.bytes as real, t.samples),
      bytesPerSec,
      v.span,
      Finals(100.0 - successNoAssert, 100.0 - successInclAssert, PerSecond(t.samples as real, total, 0.0),
             if total > 0 then bytesPerSec / 1000.0 else 0.0, 0, 0.0, 0))
  }

  /** The fields `f` once the percentile and deviation finalizers have run on its sorted time table. */
  function Ordered(f: GroupFields): GroupFields
    requires f.counters.samples > 0
  {
    var sorted := SortAsc(f.timeTable);
    var n := f.counters.samples;
    f.(finals := f.finals.(median := MedianOf(sorted, n, 0),
                           variance := SquaredDeviations(sorted, f.counters.timeSum) / n as real,
                           percentil90 := Perc90Of(sorted, n, 0)))
  }

  class AggregatedSummary {
    var samples: nat
    var assertions: nat
    // counters of successful samples and passed assertions until the
    // finalizers turn them into percentages
    var samplesSuccessRateNoAssert: real
    var samplesSuccessRateInclAssert: real
    var assertionPassRate: real
    // the sum of the times until `CalculateAverageTime` makes it a mean
    var averageTime: real
    var minTime: Option<int>
    var maxTime: int

    /** The eight counter fields as one value. */
    function CounterFields(): Counters
      reads this
    {
      Counters(samples, assertions, samplesSuccessRateNoAssert, samplesSuccessRateInclAssert,
               assertionPassRate, averageTime, minTime, maxTime)
    }

    /** The counters hold exactly the tally `t`. */
    predicate Counts(t: Tally)
      reads this
    {
      CounterFields() == CountersOf(t)
    }

    /** The figures once the four finalizers of the summary have run on the counters `t`. */
    predicate Finalized(t: Tally)
      reads this
    {
      && samples == t.samples
      && assertions == t.assertions
      && samplesSuccessRateNoAssert == RateOf(t.successNoAssert as real, t.samples)
      && samplesSuccessRateInclAssert == RateOf(t.successInclAssert as real, t.samples)
      && assertionPassRate == RateOf(t.assertionPasses as real, t.assertions)
      && averageTime == MeanOf(t.timeSum as real, t.samples)
      && minTime == t.minTime
      && maxTime == t.maxTime
    }

    constructor ()
      ensures Counts(EmptyTally)
    {
      new;
      InitiateAll();
    }

    /** `initiateAll`: every counter back to its start value; no minimum yet, maximum 0. */
    method InitiateAll()
      modifies this
      ensures Counts(EmptyTally)
    {
      samples := 0;
      assertions := 0;
      samplesSuccessRateNoAssert := 0.0;
      samplesSuccessRateInclAssert := 0.0;
      assertionPassRate := 0.0;
      averageTime := 0.0;
      minTime := None;
      maxTime := 0;
    }

    method AddSample()
      modifies this`samples
      ensures samples == old(samples) + 1
    {
      samples := samples + 1;
    }

    method AddAssertion()
      modifies this`assertions
      ensures assertions == old(assertions) + 1
    {
      assertions := assertions + 1;
    }

    method AddSuccessfullSampleNoAssert()
      modifies this`samplesSuccessRateNoAssert
      ensures samplesSuccessRateNoAssert == old(samplesSuccessRateNoAssert) + 1.0
    {
      samplesSuccessRateNoAssert := samplesSuccessRateNoAssert + 1.0;
    }

    method CalculateSampleSuccessRateNoAssert()
      modifies this`samplesSuccessRateNoAssert
      ensures samplesSuccessRateNoAssert == RateOf(old(samplesSuccessRateNoAssert), samples)
    {
      if samples > 0 {
        samplesSuccessRateNoAssert := samplesSuccessRateNoAssert * 100.0 / samples as real;
      }
    }

    method AddSuccessfullSampleInclAssert()
      modifies this`samplesSuccessRateInclAssert
      ensures samplesSuccessRateInclAssert == old(samplesSuccessRateInclAssert) + 1.0
    {
      samplesSuccessRateInclAssert := samplesSuccessRateInclAssert + 1.0;
    }

    method CalculateSampleSuccessRateInclAssert()
      modifies this`samplesSuccessRateInclAssert
      ensures samplesSuccessRateInclAssert == RateOf(old(samplesSuccessRateInclAssert), samples)
    {
      if samples > 0 {
        samplesSuccessRateInclAssert := samplesSuccessRateInclAssert * 100.0 / samples as real;
      }
    }

    method AddAssertionPassRate()
      modifies this`assertionPassRate
      ensures assertionPassRate == old(assertionPassRate) + 1.0
    {
      assertionPassRate := assertionPassRate + 1.0;
    }

    method CalculateAssertionPassRate()
      modifies this`assertionPassRate
      ensures assertionPassRate == RateOf(old(assertionPassRate), assertions)
    {
      if assertions > 0 {
        assertionPassRate := assertionPassRate * 100.0 / assertions as real;
      }
    }

    method AddAverageTime(t: int)
      modifies this`averageTime
      ensures averageTime == old(averageTime) + t as real
    {
      averageTime := averageTime + t as real;
    }

    method CalculateAverageTime()
      modifies this`averageTime
      ensures averageTime == MeanOf(old(averageTime), samples)
    {
      if samples > 0 {
        averageTime := averageTime / samples as real;
      }
    }

    method AddMinTime(t: int)
      modifies this`minTime
      ensures minTime == MinWith(old(minTime), t)
    {
      if minTime == None {
        minTime := Some(t);
      } else if t < minTime.value {
        minTime := Some(t);
      }
    }

    method AddMaxTime(t: int)
      modifies this`maxTime
      ensures maxTime == MaxWith(old(maxTime), t)
    {
      if t > maxTime {
        maxTime := t;
      }
    }
  }

  /** The anchor `makeLink` gives a group: "samples_" for TOTAL created without a number, "aggr<n>" otherwise. */
  function LinkFor(name: string, which: int): string {
    if which == -1 && name == "TOTAL" then "samples_" else "aggr" + IntToString(which)
  }

  /** Every numbered group has its own anchor, and none of them is the anchor of TOTAL. */
  lemma GroupLinksDistinct(name1: string, g: nat, name2: string, h: nat)
    ensures LinkFor(name1, g) != LinkFor("TOTAL", -1)
    ensures g != h ==> LinkFor(name1, g) != LinkFor(name2, h)
  {
    assert LinkFor(name1, g)[0] == 'a' && LinkFor("TOTAL", -1)[0] == 's';
    if g != h && LinkFor(name1, g) == LinkFor(name2, h) {
      var a, b := IntToString(g), IntToString(h);
      assert a == LinkFor(name1, g)[4..] == LinkFor(name2, h)[4..] == b;
      ParseIntRoundTrip(g);
      ParseIntRoundTrip(h);
      assert false;
    }
  }

  class AggregatedSamples {
    var samples: nat
    var assertions: nat
    var samplesSuccessRateNoAssert: real
    var samplesSuccessRateInclAssert: real
    var assertionPassRate: real
    var averageTime: real
    var minTime: Option<int>
    var maxTime: int

    var sampleName: string
    var link: string
    var samplesErrorNoAssert: real
    var samplesErrorInclAssert: real
    // epoch milliseconds of the group's first sample and of the sample that
    // reaches furthest; `totalTime` is that reach, in milliseconds
    var startTime: Option<int>
    var endTime: Option<int>
    var totalTime: Option<int>
    var throughput: real
    // both hold the byte total until their finalizers run
    var averageBytes: real
    var bytesPerSec: real
    var kBytesPerSec: real
    var median: int
    // the square of the standard deviation (see `CalculateStdDev`)
    var variance: real
    var percentil90: int
    var timeTable: seq<int>

    /** The eight counter fields as one value. */
    function CounterFields(): Counters
      reads this
    {
      Counters(samples, assertions, samplesSuccessRateNoAssert, samplesSuccessRateInclAssert,
               assertionPassRate, averageTime, minTime, maxTime)
    }

    /** The counters hold exactly the tally `t`. */
    predicate Counts(t: Tally)
      reads this
    {
      CounterFields() == CountersOf(t)
    }

    /** The span fields as one value. */
    function CurrentSpan(): Span
      reads this
    {
      Span(startTime, endTime, totalTime)
    }

    /** What the sample loop reads and updates, and the final figures, as one value. */
    function Contents(): GroupFields
      reads this
    {
      GroupFields(sampleName, CounterFields(), timeTable, averageBytes, bytesPerSec, CurrentSpan(),
                  Finals(samplesErrorNoAssert, samplesErrorInclAssert, throughput, kBytesPerSec, median, variance, percentil90))
    }

    /**
     * The group holds the value `v`: its label, counters, time table, byte
     * totals (in both `averageBytes` and `bytesPerSec`) and span, and no
     * finalizer has run yet.
     */
    predicate Holds(v: GroupValue)
      reads this
    {
      Contents() == FieldsOf(v)
    }

    /**
     * The figures once the eight finalizers of a group have run on the value
     * `v`, which holds at least one sample.
     */
    predicate Finalized(v: GroupValue)
      reads this
    {
      v.tally.samples > 0 && v.span.totalTime.Some? && Contents() == Ordered(Figures(v))
    }

    /** `AggregatedSamples(name, Id)`: fresh counters, the link of `Id`, no span, an empty time table. */
    constructor (name: string, id: int)
      ensures link == LinkFor(name, id) && Holds(NewGroup(name))
    {
      // the counters as the inherited `__init__` leaves them through `initiateAll`
      samples := 0;
      assertions := 0;
      samplesSuccessRateNoAssert := 0.0;
      samplesSuccessRateInclAssert := 0.0;
      assertionPassRate := 0.0;
      averageTime := 0.0;
      minTime := None;
      maxTime := 0;
      sampleName := name;
      samplesErrorNoAssert := 0.0;
      samplesErrorInclAssert := 0.0;
      startTime := None;
      endTime := None;
      totalTime := None;
      throughput := 0.0;
      averageBytes := 0.0;
      bytesPerSec := 0.0;
      kBytesPerSec := 0.0;
      median := 0;
      variance := 0.0;
      percentil90 := 0;
      timeTable := [];
      new;
      MakeLink(id);
    }

    method MakeLink(which: int)
      modifies this`link
      ensures link == LinkFor(sampleName, which)
    {
      if which == -1 && sampleName == "TOTAL" {
        link := "samples_";
      } else {
        link := "aggr" + IntToString(which);
      }
    }

    method AddSample()
      modifies this`samples
      ensures Contents() == old(Contents()).(counters := old(CounterFields()).(samples := old(samples) + 1))
    {
      samples := samples + 1;
    }

    method AddAssertion()
      modifies this`assertions
      ensures Contents() == old(Contents()).(counters := old(CounterFields()).(assertions := old(assertions) + 1))
    {
      assertions := assertions + 1;
    }

    method AddSuccessfullSampleNoAssert()
      modifies this`samplesSuccessRateNoAssert
      ensures Contents() == old(Contents()).(counters := old(CounterFields()).(successNoAssert := old(samplesSuccessRateNoAssert) + 1.0))
    {
      samplesSuccessRateNoAssert := samplesSuccessRateNoAssert + 1.0;
    }

    /** The group version also records the error rate, the complement of the success rate. */
    method CalculateSampleSuccessRateNoAssert()
      modifies this`samplesSuccessRateNoAssert, this`samplesErrorNoAssert
      ensures samplesSuccessRateNoAssert == RateOf(old(samplesSuccessRateNoAssert), samples)
      ensures samplesErrorNoAssert == if samples > 0 then 100.0 - samplesSuccessRateNoAssert else old(samplesErrorNoAssert)
    {
      if samples > 0 {
        samplesSuccessRateNoAssert := samplesSuccessRateNoAssert * 100.0 / samples as real;
        samplesErrorNoAssert := 100.0 - samplesSuccessRateNoAssert;
      }
    }

    method AddSuccessfullSampleInclAssert()
      modifies this`samplesSuccessRateInclAssert
      ensures Contents() == old(Contents()).(counters := old(CounterFields()).(successInclAssert := old(samplesSuccessRateInclAssert) + 1.0))
    {
      samplesSuccessRateInclAssert := samplesSuccessRateInclAssert + 1.0;
    }

    method CalculateSampleSuccessRateInclAssert()
      modifies this`samplesSuccessRateInclAssert, this`samplesErrorInclAssert
      ensures samplesSuccessRateInclAssert == RateOf(old(samplesSuccessRateInclAssert), samples)
      ensures samplesErrorInclAssert == if samples > 0 then 100.0 - samplesSuccessRateInclAssert else old(samplesErrorInclAssert)
    {
      if samples > 0 {
        samplesSuccessRateInclAssert := samplesSuccessRateInclAssert * 100.0 / samples as real;
        samplesErrorInclAssert := 100.0 - samplesSuccessRateInclAssert;
      }
    }

    method AddAssertionPassRate()
      modifies this`assertionPassRate
      ensures Contents() == old(Contents()).(counters := old(CounterFields()).(assertionPasses := old(assertionPassRate) + 1.0))
    {
      assertionPassRate := assertionPassRate + 1.0;
    }

    method AddAverageTime(t: int)
      modifies this`averageTime
      ensures Contents() == old(Contents()).(counters := old(CounterFields()).(timeSum := old(averageTime) + t as real))
    {
      averageTime := averageTime + t as real;
    }

    method CalculateAverageTime()
      modifies this`averageTime
      ensures averageTime == MeanOf(old(averageTime), samples)
    {
      if samples > 0 {
        averageTime := averageTime / samples as real;
      }
    }

    method AddMinTime(t: int)
      modifies this`minTime
      ensures Contents() == old(Contents()).(counters := old(CounterFields()).(minTime := MinWith(old(minTime), t)))
    {
      if minTime == None {
        minTime := Some(t);
      } else if t < minTime.value {
        minTime := Some(t);
      }
    }

    method AddMaxTime(t: int)
      modifies this`maxTime
      ensures Contents() == old(Contents()).(counters := old(CounterFields()).(maxTime := MaxWith(old(maxTime), t)))
    {
      if t > maxTime {
        maxTime := t;
      }
    }

    /** `setStartTime(t)`, with the timestamp kept in epoch milliseconds. */
    method SetStartTime(t: int)
      modifies this`startTime
      ensures Contents() == old(Contents()).(span := old(CurrentSpan()).(startTime := Some(t)))
    {
      startTime := Some(t);
    }

    /**
     * `setEndTime(t, p)` for a sample starting at `t` and lasting `p`
     * milliseconds.  The group must have a start time, as `calculate` sets it
     * before the first call.
     */
    method SetEndTime(t: int, p: int)
      requires startTime.Some? && (endTime.Some? ==> totalTime.Some?)
      modifies this`endTime, this`totalTime
      ensures Contents() == old(Contents()).(span := ExtendSpan(old(CurrentSpan()), t, p))
    {
      var start := t;
      var duration := p;
      if endTime == None {
        endTime := Some(start);
        totalTime := Some(start - startTime.value + duration);
      } else {
        var newEndTime := start;
        var newTotalTime := newEndTime - startTime.value + duration;
        if newTotalTime > totalTime.value {
          totalTime := Some(newTotalTime);
          endTime := Some(newEndTime);
        }
      }
    }

    /** `calculateThroughput`: samples per second over the group's total time, when that is positive. */
    method CalculateThroughput()
      requires totalTime.Some?
      modifies this`throughput
      ensures throughput == PerSecond(samples as real, totalTime.value, old(throughput))
    {
      if totalTime.value > 0 {
        throughput := samples as real / (totalTime.value as real / 1000.0);
      }
    }

    method AddAverageBytes(b: int)
      modifies this`averageBytes, this`bytesPerSec
      ensures Contents() == old(Contents()).(averageBytes := old(averageBytes) + b as real,
                                             bytesPerSec := old(bytesPerSec) + b as real)
    {
      averageBytes := averageBytes + b as real;
      AddBytesPerSec(b);
    }

    method CalculateAverageBytes()
      modifies this`averageBytes
      ensures averageBytes == MeanOf(old(averageBytes), samples)
    {
      if samples > 0 {
        averageBytes := averageBytes / samples as real;
      }
    }

    method AddBytesPerSec(b: int)
      modifies this`bytesPerSec
      ensures bytesPerSec == old(bytesPerSec) + b as real
    {
      bytesPerSec := bytesPerSec + b as real;
    }

    /** `calculateKBytesPerSec`: bytes per second, and that in thousands, when the total time is positive. */
    method CalculateKBytesPerSec()
      requires totalTime.Some?
      modifies this`bytesPerSec, this`kBytesPerSec
      ensures bytesPerSec == PerSecond(old(bytesPerSec), totalTime.value, old(bytesPerSec))
      ensures kBytesPerSec == if totalTime.value > 0 then bytesPerSec / 1000.0 else old(kBytesPerSec)
    {
      if totalTime.value > 0 {
        bytesPerSec := bytesPerSec / (totalTime.value as real / 1000.0);
        kBytesPerSec := bytesPerSec / 1000.0;
      }
    }

    /**
     * `calculatePercentils`: the median and the 90th percentile of the sorted
     * time table, each left as it is where its index test fails.  An empty
     * table with a count of 0 would be read at index -1.
     */
    method CalculatePercentils()
      requires |timeTable| > 0 || samples > 0
      modifies this`median, this`percentil90
      ensures median == MedianOf(SortAsc(timeTable), samples, old(median))
      ensures percentil90 == Perc90Of(SortAsc(timeTable), samples, old(percentil90))
    {
      var sortedSamples := SortAsc(timeTable);
      if samples % 2 == 0 {
        var medianSample := samples / 2;
        if |sortedSamples| > medianSample && medianSample - 1 >= 0 {
          median := HalfTowardZero(sortedSamples[medianSample] + sortedSamples[medianSample - 1]);
        }
      } else {
        var medianSample := 0;
        if samples > 1 {
          medianSample := samples / 2;
        }
        if |sortedSamples| > medianSample {
          median := sortedSamples[medianSample];
        }
      }
      assert median == MedianOf(sortedSamples, samples, old(median));
      var perc90Sample := Perc90Rounded(samples);
      if |sortedSamples| == perc90Sample {
        perc90Sample := perc90Sample - 1;
      }
      assert perc90Sample == Perc90Index(|sortedSamples|, samples);
      if |sortedSamples| > perc90Sample {
        percentil90 := sortedSamples[perc90Sample];
      }
    }

    /**
     * `calculateStdDev` up to its final square root: the squared deviations
     * of the sorted times from the mean, summed in a loop and divided by the
     * sample count.
     */
    method CalculateStdDev()
      requires samples > 0
      modifies this`variance
      ensures variance == SquaredDeviations(SortAsc(timeTable), averageTime) / samples as real
    {
      var squares := 0.0;
      var sortedSamples := SortAsc(timeTable);
      var mean := averageTime;
      var i := 0;
      while i < |sortedSamples|
        invariant 0 <= i <= |sortedSamples|
        invariant squares == SquaredDeviations(sortedSamples[..i], mean)
      {
        SquaredDeviationsStep(sortedSamples, mean, i);
        squares := squares + Square(sortedSamples[i] as real - mean);
        i := i + 1;
      }
      assert sortedSamples[..i] == sortedSamples;
      variance := squares / samples as real;
    }

    method AddTime(t: int)
      modifies this`timeTable
      ensures Contents() == old(Contents()).(timeTable := old(timeTable) + [t])
    {
      timeTable := timeTable + [t];
    }
  }
}
