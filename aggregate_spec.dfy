/**
 * What `LogAnalyser.calculate` accumulates, stated over the whole list of
 * samples at once: the counters of `AggregatedSummary`, the time span, time
 * table and byte sum of `AggregatedSamples`, the per-label groups in the
 * order their labels were first seen, and how the finalizers turn counters
 * into rates.  The accumulator classes and the loops of `calculate` are
 * proved against these definitions.
 */
module AggregateSpec {
  import opened Wrappers
  import opened IntLiteral
  import opened Records

  /**
   * A sample after the `int()` conversions the accumulators apply to it:
   * start time (`ts`), elapsed time (`t`) and size (`by`) in integers.
   * Status and assertions are used as text and records.
   */
  datatype Measurement = Measurement(
    name: string,
    start: int,
    elapsed: int,
    bytes: int,
    status: string,
    assertions: seq<Assertion>)

  /** The conversions of one sample; `None` where one of them would raise `ValueError`. */
  function Measure(s: Sample): Option<Measurement> {
    var ts, t, size := ParseInt(s.startTime), ParseInt(s.sampleTime), ParseInt(s.bytes);
    if ts.Some? && t.Some? && size.Some?
    then Some(Measurement(s.sampleLabel, ts.value, t.value, size.value, s.status, s.assertions))
    else None
  }

  /** All the values of `f` on `xs`, in order, when every one is present. */
  function MapAll<A, B>(xs: seq<A>, f: A -> Option<B>): (r: Option<seq<B>>)
    ensures r.Some? <==> forall i :: 0 <= i < |xs| ==> f(xs[i]).Some?
    ensures r.Some? ==> |r.value| == |xs| && forall i :: 0 <= i < |xs| ==> f(xs[i]) == Some(r.value[i])
    decreases |xs|
  {
    if xs == [] then Some([])
    else
      var init := xs[..|xs| - 1];
      var rest := MapAll(init, f);
      var last := f(xs[|xs| - 1]);
      assert forall i :: 0 <= i < |init| ==> init[i] == xs[i];
      if rest.Some? && last.Some? then Some(rest.value + [last.value]) else None
  }

  /** The conversions of a whole run: every sample converts, or the run fails. */
  function MeasureAll(samples: seq<Sample>): (r: Option<seq<Measurement>>)
    ensures r.Some? <==> forall i :: 0 <= i < |samples| ==> Measure(samples[i]).Some?
    ensures r.Some? ==> |r.value| == |samples| && forall i :: 0 <= i < |samples| ==> Measure(samples[i]) == Some(r.value[i])
  {
    MapAll(samples, Measure)
  }

  /** Samples that passed the parsers' validation always convert, and keep their labels and order. */
  lemma ValidatedSamplesMeasurable(samples: seq<Sample>)
    requires forall s :: s in samples ==> NumericFieldsParse(s)
    ensures MeasureAll(samples).Some?
    ensures forall i :: 0 <= i < |samples| ==> MeasureAll(samples).value[i].name == samples[i].sampleLabel
  {
    assert forall i :: 0 <= i < |samples| ==> NumericFieldsParse(samples[i]) by {
      forall i | 0 <= i < |samples| ensures NumericFieldsParse(samples[i]) {
        assert samples[i] in samples;
      }
    }
  }

  // ---------------------------------------------------------------------
  // Counters shared by AggregatedSummary and AggregatedSamples
  // ---------------------------------------------------------------------

  /** `addMinTime`: the first time seen, then the smaller of the kept one and the new one. */
  function MinWith(current: Option<int>, t: int): (r: Option<int>)
    ensures r.Some? && r.value <= t
    ensures current.Some? ==> r.value <= current.value && (r.value == t || r == current)
  {
    if current.None? || t < current.value then Some(t) else current
  }

  /** `addMaxTime`: the larger of the kept maximum (initially 0) and the new time. */
  function MaxWith(current: int, t: int): (r: int)
    ensures r >= t && r >= current && (r == t || r == current)
  {
    if t > current then t else current
  }

  /** The pass test applied to each assertion of a sample. */
  function PassCount(assertions: seq<Assertion>): nat
    decreases |assertions|
  {
    if assertions == [] then 0
    else PassCount(assertions[..|assertions| - 1]) + if Passed(assertions[|assertions| - 1]) then 1 else 0
  }

  /** No more assertions pass than there are. */
  lemma {:induction false} PassCountBound(assertions: seq<Assertion>)
    ensures PassCount(assertions) <= |assertions|
    ensures PassCount(assertions) == |assertions| <==> forall a :: a in assertions ==> Passed(a)
    decreases |assertions|
  {
    if assertions != [] {
      var init := assertions[..|assertions| - 1];
      PassCountBound(init);
      assert assertions == init + [assertions[|assertions| - 1]];
    }
  }

  /** A sample counts as successful when its status is exactly "true". */
  predicate Succeeded(m: Measurement) {
    m.status == "true"
  }

  /** "Successful including assertions": successful, and every assertion of it passed. */
  predicate SucceededInclAssert(m: Measurement) {
    Succeeded(m) && forall a :: a in m.assertions ==> Passed(a)
  }

  /** The counters both accumulator classes keep. */
  datatype Tally = Tally(
    samples: nat,
    assertions: nat,
    successNoAssert: nat,
    successInclAssert: nat,
    assertionPasses: nat,
    timeSum: int,
    minTime: Option<int>,
    maxTime: int)

  /** The counters after `initiateAll`. */
  const EmptyTally: Tally := Tally(0, 0, 0, 0, 0, 0, None, 0)

  /** The counters after one iteration of the sample loop of `calculate`. */
  function AddMeasurement(t: Tally, m: Measurement): Tally {
    Tally(
      t.samples + 1,
      t.assertions + |m.assertions|,
      t.successNoAssert + (if Succeeded(m) then 1 else 0),
      t.successInclAssert + (if SucceededInclAssert(m) then 1 else 0),
      t.assertionPasses + PassCount(m.assertions),
      t.timeSum + m.elapsed,
      MinWith(t.minTime, m.elapsed),
      MaxWith(t.maxTime, m.elapsed))
  }

  /**
   * The same iteration in the order `calculate` performs it: the sample and
   * its time first (and its success, when its status is "true"), then one
   * step per assertion, then the success including assertions.
   */
  function StartSample(t: Tally, m: Measurement): Tally {
    var timed := TimeSample(t, m);
    timed.(successNoAssert := timed.successNoAssert + (if Succeeded(m) then 1 else 0))
  }

  /** The first steps of `StartSample`: the sample count, time sum, minimum and maximum. */
  function TimeSample(t: Tally, m: Measurement): Tally {
    t.(samples := t.samples + 1,
       timeSum := t.timeSum + m.elapsed,
       minTime := MinWith(t.minTime, m.elapsed),
       maxTime := MaxWith(t.maxTime, m.elapsed))
  }

  /** `addAssertion`, and `addAssertionPassRate` when the assertion passed. */
  function AddAssertionResult(t: Tally, a: Assertion): Tally {
    t.(assertions := t.assertions + 1,
       assertionPasses := t.assertionPasses + if Passed(a) then 1 else 0)
  }

  /** The assertion steps for a list of assertions, in order. */
  function AddAssertionResults(t: Tally, assertions: seq<Assertion>): Tally
    decreases |assertions|
  {
    if assertions == [] then t
    else AddAssertionResult(AddAssertionResults(t, assertions[..|assertions| - 1]), assertions[|assertions| - 1])
  }

  /** `addSuccessfullSampleInclAssert` when the sample and all its assertions succeeded. */
  function FinishSample(t: Tally, m: Measurement): Tally {
    t.(successInclAssert := t.successInclAssert + if SucceededInclAssert(m) then 1 else 0)
  }

  /** The assertion steps add one assertion each, and one pass per passing assertion. */
  lemma {:induction false} AssertionResultsCount(t: Tally, assertions: seq<Assertion>)
    ensures AddAssertionResults(t, assertions) ==
      t.(assertions := t.assertions + |assertions|, assertionPasses := t.assertionPasses + PassCount(assertions))
    decreases |assertions|
  {
    if assertions != [] {
      AssertionResultsCount(t, assertions[..|assertions| - 1]);
    }
  }

  /** Performing the iteration in the order of `calculate` gives the counters of `AddMeasurement`. */
  lemma PhasesMakeMeasurement(t: Tally, m: Measurement)
    ensures FinishSample(AddAssertionResults(StartSample(t, m), m.assertions), m) == AddMeasurement(t, m)
  {
    AssertionResultsCount(StartSample(t, m), m.assertions);
  }

  /** The counters after folding a list of samples into a fresh accumulator. */
  function TallyOf(ms: seq<Measurement>): Tally
    decreases |ms|
  {
    if ms == [] then EmptyTally
    else AddMeasurement(TallyOf(ms[..|ms| - 1]), ms[|ms| - 1])
  }

  /** The samples of `ms` that satisfy `p`, in order. */
  function Where(ms: seq<Measurement>, p: Measurement -> bool): (r: seq<Measurement>)
    ensures forall m :: m in r <==> m in ms && p(m)
    decreases |ms|
  {
    if ms == [] then []
    else
      var last := ms[|ms| - 1];
      Where(ms[..|ms| - 1], p) + if p(last) then [last] else []
  }

  /**
   * The counters mean what their names say: one per sample, successes are the
   * samples whose status is "true", successes including assertions those whose
   * assertions all passed as well, and passes never outnumber assertions.
   */
  lemma {:induction false} TallyCounts(ms: seq<Measurement>)
    ensures TallyOf(ms).samples == |ms|
    ensures TallyOf(ms).successNoAssert == |Where(ms, Succeeded)|
    ensures TallyOf(ms).successInclAssert == |Where(ms, SucceededInclAssert)|
    ensures TallyOf(ms).successInclAssert <= TallyOf(ms).successNoAssert <= TallyOf(ms).samples
    ensures TallyOf(ms).assertionPasses <= TallyOf(ms).assertions
    decreases |ms|
  {
    if ms != [] {
      TallyCounts(ms[..|ms| - 1]);
      PassCountBound(ms[|ms| - 1].assertions);
    }
  }

  /**
   * `minTime` is the least time and `maxTime` the greatest time, or 0 when
   * every time is negative; before any sample `minTime` is unset.
   */
  lemma {:induction false} TallyMinMax(ms: seq<Measurement>)
    ensures TallyOf(ms).minTime.None? <==> ms == []
    ensures forall i :: 0 <= i < |ms| ==> TallyOf(ms).minTime.value <= ms[i].elapsed <= TallyOf(ms).maxTime
    ensures ms != [] ==> exists i :: 0 <= i < |ms| && ms[i].elapsed == TallyOf(ms).minTime.value
    ensures TallyOf(ms).maxTime >= 0
    ensures TallyOf(ms).maxTime == 0 || exists i :: 0 <= i < |ms| && ms[i].elapsed == TallyOf(ms).maxTime
    decreases |ms|
  {
    if ms != [] {
      var init := ms[..|ms| - 1];
      TallyMinMax(init);
      var t := TallyOf(ms);
      assert forall i :: 0 <= i < |init| ==> ms[i] == init[i];
      if init != [] && t.minTime != Some(ms[|ms| - 1].elapsed) {
        var i :| 0 <= i < |init| && init[i].elapsed == TallyOf(init).minTime.value;
        assert ms[i].elapsed == t.minTime.value;
      }
      if t.maxTime != 0 && t.maxTime != ms[|ms| - 1].elapsed {
        var i :| 0 <= i < |init| && init[i].elapsed == TallyOf(init).maxTime;
        assert ms[i].elapsed == t.maxTime;
      }
    }
  }

  /** The smaller of two optional minima, an unset one giving way to the other. */
  function MinOf(a: Option<int>, b: Option<int>): Option<int> {
    if a.None? then b
    else if b.None? then a
    else if b.value < a.value then b
    else a
  }

  /** The counters of two lists of samples, put together. */
  function Combine(a: Tally, b: Tally): Tally {
    Tally(
      a.samples + b.samples,
      a.assertions + b.assertions,
      a.successNoAssert + b.successNoAssert,
      a.successInclAssert + b.successInclAssert,
      a.assertionPasses + b.assertionPasses,
      a.timeSum + b.timeSum,
      MinOf(a.minTime, b.minTime),
      MaxWith(a.maxTime, b.maxTime))
  }

  /** Adding a sample to either side of a combination adds it to the whole. */
  lemma CombineAdd(a: Tally, b: Tally, m: Measurement)
    ensures Combine(AddMeasurement(a, m), b) == AddMeasurement(Combine(a, b), m)
    ensures Combine(a, AddMeasurement(b, m)) == AddMeasurement(Combine(a, b), m)
  {
  }

  /** The counters of `a + b` are those of `a` combined with those of `b`: the fold does not depend on how the list is cut. */
  lemma {:induction false} TallyAppend(a: seq<Measurement>, b: seq<Measurement>)
    ensures TallyOf(a + b) == Combine(TallyOf(a), TallyOf(b))
    decreases |b|
  {
    if b == [] {
      assert a + b == a;
      TallyMinMax(a);
      CombineEmpty(TallyOf(a));
    } else {
      var init := b[..|b| - 1];
      var last := b[|b| - 1];
      assert (a + b)[..|a + b| - 1] == a + init;
      TallyAppend(a, init);
      CombineAdd(TallyOf(a), TallyOf(init), last);
      calc {
        TallyOf(a + b);
        AddMeasurement(TallyOf(a + init), last);
        AddMeasurement(Combine(TallyOf(a), TallyOf(init)), last);
        Combine(TallyOf(a), AddMeasurement(TallyOf(init), last));
      }
    }
  }

  // ---------------------------------------------------------------------
  // Groups
  // ---------------------------------------------------------------------

  /** The samples carrying `label`, in input order: the samples one `AggregatedSamples` group receives. */
  function ByLabel(ms: seq<Measurement>, l: string): (r: seq<Measurement>)
    ensures forall m :: m in r <==> m in ms && m.name == l
    decreases |ms|
  {
    if ms == [] then []
    else
      var last := ms[|ms| - 1];
      ByLabel(ms[..|ms| - 1], l) + if last.name == l then [last] else []
  }

  /** The group labels in the order `checkWhichAggregated` creates groups: each label once, when first seen. */
  function Labels(ms: seq<Measurement>): seq<string>
    decreases |ms|
  {
    if ms == [] then []
    else
      var init := Labels(ms[..|ms| - 1]);
      var l := ms[|ms| - 1].name;
      if l in init then init else init + [l]
  }

  /** No two groups share a label, and there is a group for every label in the input and for no other. */
  lemma {:induction false} LabelsDistinctAndComplete(ms: seq<Measurement>)
    ensures forall g, h :: 0 <= g < h < |Labels(ms)| ==> Labels(ms)[g] != Labels(ms)[h]
    ensures forall l :: l in Labels(ms) <==> exists i :: 0 <= i < |ms| && ms[i].name == l
    decreases |ms|
  {
    if ms != [] {
      var init := ms[..|ms| - 1];
      LabelsDistinctAndComplete(init);
      assert forall i :: 0 <= i < |init| ==> ms[i] == init[i];
      forall l | l in Labels(ms) ensures exists i :: 0 <= i < |ms| && ms[i].name == l {
        if l in Labels(init) {
          var i :| 0 <= i < |init| && init[i].name == l;
          assert ms[i].name == l;
        } else {
          assert ms[|ms| - 1].name == l;
        }
      }
      forall l | exists i :: 0 <= i < |ms| && ms[i].name == l ensures l in Labels(ms) {
        var i :| 0 <= i < |ms| && ms[i].name == l;
        if i < |init| {
          assert init[i].name == l;
        }
      }
    }
  }

  /**
   * Groups are never removed or reordered: the groups after any prefix of the
   * input are a prefix of the final groups, so group numbers follow the order
   * in which labels are first seen.
   */
  lemma {:induction false} LabelsGrowByPrefix(ms: seq<Measurement>, k: nat)
    requires k <= |ms|
    ensures Labels(ms[..k]) <= Labels(ms)
    decreases |ms| - k
  {
    if k < |ms| {
      LabelsGrowByPrefix(ms, k + 1);
      assert ms[..k + 1][..k] == ms[..k];
    } else {
      assert ms[..k] == ms;
    }
  }

  /** A label seen for the first time at position `i` gets the next group number. */
  lemma NewLabelNumbered(ms: seq<Measurement>, i: nat)
    requires i < |ms| && ms[i].name !in Labels(ms[..i])
    ensures |Labels(ms[..i + 1])| == |Labels(ms[..i])| + 1
    ensures Labels(ms[..i + 1])[|Labels(ms[..i])|] == ms[i].name
  {
    assert ms[..i + 1][..i] == ms[..i];
  }

  /** A label not among the groups has no samples. */
  lemma {:induction false} UnseenLabelEmpty(ms: seq<Measurement>, l: string)
    requires l !in Labels(ms)
    ensures ByLabel(ms, l) == []
    decreases |ms|
  {
    if ms != [] {
      var init := ms[..|ms| - 1];
      assert Labels(init) <= Labels(ms);
      UnseenLabelEmpty(init, l);
    }
  }

  /** Every group receives at least one sample. */
  lemma GroupNonEmpty(ms: seq<Measurement>, l: string)
    requires l in Labels(ms)
    ensures ByLabel(ms, l) != []
  {
    LabelsDistinctAndComplete(ms);
    var i :| 0 <= i < |ms| && ms[i].name == l;
    assert ms[i] in ByLabel(ms, l);
  }

  /** The counters of the groups named `labels`, combined in that order. */
  function CombineGroups(ms: seq<Measurement>, labels: seq<string>): Tally
    decreases |labels|
  {
    if labels == [] then EmptyTally
    else Combine(CombineGroups(ms, labels[..|labels| - 1]), TallyOf(ByLabel(ms, labels[|labels| - 1])))
  }

  /** Combining with the counters of no sample changes nothing, once the maximum is not negative. */
  lemma CombineEmpty(t: Tally)
    requires t.maxTime >= 0
    ensures Combine(t, EmptyTally) == t
  {
  }

  /** One new sample reaches exactly the group of its own label among distinct `labels`. */
  lemma {:induction false} CombineGroupsStep(ms: seq<Measurement>, m: Measurement, labels: seq<string>)
    requires forall g, h :: 0 <= g < h < |labels| ==> labels[g] != labels[h]
    ensures CombineGroups(ms + [m], labels) ==
      if m.name in labels then AddMeasurement(CombineGroups(ms, labels), m) else CombineGroups(ms, labels)
    decreases |labels|
  {
    if labels != [] {
      var init := labels[..|labels| - 1];
      var l := labels[|labels| - 1];
      assert labels == init + [l];
      CombineGroupsStep(ms, m, init);
      FoldsStep(ms, m);
      LabelsStep(ms, m);
      var rest := CombineGroups(ms, init);
      var group := TallyOf(ByLabel(ms, l));
      if m.name == l {
        assert m.name !in init;
        assert TallyOf(ByLabel(ms + [m], l)) == AddMeasurement(group, m);
        CombineAdd(rest, group, m);
      } else {
        assert ByLabel(ms + [m], l) == ByLabel(ms, l);
        if m.name in init {
          CombineAdd(rest, group, m);
        }
      }
    }
  }

  /**
   * Conservation: the counters of TOTAL (and of the summary) are exactly the
   * per-label groups' counters put together, so in particular the group
   * sample counts add up to the number of samples.
   */
  lemma {:induction false} GroupsMakeTotal(ms: seq<Measurement>)
    ensures CombineGroups(ms, Labels(ms)) == TallyOf(ms)
    decreases |ms|
  {
    if ms != [] {
      var init := ms[..|ms| - 1];
      var m := ms[|ms| - 1];
      assert ms == init + [m];
      GroupsMakeTotal(init);
      LabelsDistinctAndComplete(init);
      CombineGroupsStep(init, m, Labels(init));
      if m.name !in Labels(init) {
        var labels := Labels(init) + [m.name];
        assert labels[..|labels| - 1] == Labels(init);
        UnseenLabelEmpty(init, m.name);
        assert ByLabel(ms, m.name) == [m];
        assert TallyOf([m]) == AddMeasurement(EmptyTally, m);
        TallyMinMax(init);
        CombineAdd(TallyOf(init), EmptyTally, m);
        CombineEmpty(TallyOf(init));
      }
    }
  }

  // ---------------------------------------------------------------------
  // Time span, time table and bytes of a group
  // ---------------------------------------------------------------------

  /** `startTime`, `endTime` (epoch ms) and `totalTime` (ms) of an `AggregatedSamples`. */
  datatype Span = Span(startTime: Option<int>, endTime: Option<int>, totalTime: Option<int>)

  /** How far a sample reaches past the group's start: its start offset plus its duration. */
  function Reach(groupStart: int, m: Measurement): int {
    m.start - groupStart + m.elapsed
  }

  /** `setEndTime(t, p)`: the first call sets the end; later ones move it only for a sample that reaches further. */
  function ExtendSpan(sp: Span, start: int, duration: int): Span
    requires sp.startTime.Some? && (sp.endTime.Some? ==> sp.totalTime.Some?)
  {
    var total := start - sp.startTime.value + duration;
    if sp.endTime.None? then Span(sp.startTime, Some(start), Some(total))
    else if total > sp.totalTime.value then Span(sp.startTime, Some(start), Some(total))
    else sp
  }

  /** The span of a non-empty group: started at its first sample, extended by each sample in turn. */
  function SpanOf(ms: seq<Measurement>): (sp: Span)
    requires ms != []
    ensures sp.startTime == Some(ms[0].start) && sp.endTime.Some? && sp.totalTime.Some?
    decreases |ms|
  {
    var last := ms[|ms| - 1];
    if |ms| == 1 then ExtendSpan(Span(Some(last.start), None, None), last.start, last.elapsed)
    else ExtendSpan(SpanOf(ms[..|ms| - 1]), last.start, last.elapsed)
  }

  /**
   * `totalTime` is the furthest reach of any sample of the group, and
   * `endTime` is the start of the first sample that reaches that far.
   */
  lemma {:induction false} SpanIsFurthestReach(ms: seq<Measurement>)
    requires ms != []
    ensures forall i :: 0 <= i < |ms| ==> Reach(ms[0].start, ms[i]) <= SpanOf(ms).totalTime.value
    ensures exists i :: 0 <= i < |ms| && Reach(ms[0].start, ms[i]) == SpanOf(ms).totalTime.value
                        && SpanOf(ms).endTime == Some(ms[i].start)
    decreases |ms|
  {
    if |ms| > 1 {
      var init := ms[..|ms| - 1];
      SpanIsFurthestReach(init);
      assert forall i :: 0 <= i < |init| ==> ms[i] == init[i];
      if SpanOf(ms) == SpanOf(init) {
        var i :| 0 <= i < |init| && Reach(init[0].start, init[i]) == SpanOf(init).totalTime.value
                 && SpanOf(init).endTime == Some(init[i].start);
        assert Reach(ms[0].start, ms[i]) == SpanOf(ms).totalTime.value;
      } else {
        assert Reach(ms[0].start, ms[|ms| - 1]) == SpanOf(ms).totalTime.value;
      }
    } else {
      assert Reach(ms[0].start, ms[0]) == SpanOf(ms).totalTime.value;
    }
  }

  /** A group's total time never decreases as samples arrive. */
  lemma SpanMonotone(ms: seq<Measurement>, m: Measurement)
    requires ms != []
    ensures SpanOf(ms + [m]).totalTime.value >= SpanOf(ms).totalTime.value
  {
    assert (ms + [m])[..|ms|] == ms;
  }

  /** The `timeTable` of a group: its times, appended in input order by `addTime`. */
  function Times(ms: seq<Measurement>): seq<int>
    decreases |ms|
  {
    if ms == [] then []
    else Times(ms[..|ms| - 1]) + [ms[|ms| - 1].elapsed]
  }

  /** The time table holds every sample's time at that sample's position. */
  lemma {:induction false} TimesInOrder(ms: seq<Measurement>)
    ensures |Times(ms)| == |ms|
    ensures forall i :: 0 <= i < |ms| ==> Times(ms)[i] == ms[i].elapsed
    decreases |ms|
  {
    if ms != [] {
      TimesInOrder(ms[..|ms| - 1]);
    }
  }

  /** The byte total `addAverageBytes` accumulates (into both `averageBytes` and `bytesPerSec`). */
  function ByteSum(ms: seq<Measurement>): int
    decreases |ms|
  {
    if ms == [] then 0
    else ByteSum(ms[..|ms| - 1]) + ms[|ms| - 1].bytes
  }

  /** The folds of a list extended by one sample: one more step of each. */
  lemma FoldsStep(ms: seq<Measurement>, m: Measurement)
    ensures TallyOf(ms + [m]) == AddMeasurement(TallyOf(ms), m)
    ensures Times(ms + [m]) == Times(ms) + [m.elapsed]
    ensures ByteSum(ms + [m]) == ByteSum(ms) + m.bytes
    ensures SpanOf(ms + [m]) == if ms == [] then ExtendSpan(Span(Some(m.start), None, None), m.start, m.elapsed)
                                 else ExtendSpan(SpanOf(ms), m.start, m.elapsed)
  {
    assert (ms + [m])[..|ms|] == ms;
  }

  /** The grouping of a list extended by one sample: it joins its own label's group, which is new when the label is. */
  lemma LabelsStep(ms: seq<Measurement>, m: Measurement)
    ensures ByLabel(ms + [m], m.name) == ByLabel(ms, m.name) + [m]
    ensures forall l :: l != m.name ==> ByLabel(ms + [m], l) == ByLabel(ms, l)
    ensures Labels(ms + [m]) == if m.name in Labels(ms) then Labels(ms) else Labels(ms) + [m.name]
  {
    assert (ms + [m])[..|ms|] == ms;
  }

  // ---------------------------------------------------------------------
  // Finalizers
  // ---------------------------------------------------------------------

  /** The `calculate*Rate` finalizers: a percentage of `denominator`, or the counter left as it is when that is 0. */
  function RateOf(count: real, denominator: int): real {
    if denominator > 0 then count * 100.0 / denominator as real else count
  }

  /** `calculateAverageTime` and `calculateAverageBytes`: a mean, or the sum left as it is when there is no sample. */
  function MeanOf(sum: real, samples: int): real {
    if samples > 0 then sum / samples as real else sum
  }

  /** `calculateThroughput` and `calculateKBytesPerSec`: an amount per second of a total time in milliseconds, or `current` when that time is not positive. */
  function PerSecond(amount: real, totalTime: int, current: real): real {
    if totalTime > 0 then amount / (totalTime as real / 1000.0) else current
  }

  /** A rate of a count no larger than its denominator is a percentage between 0 and 100, and the error rate is its complement. */
  lemma RateIsPercentage(count: nat, denominator: nat)
    requires count <= denominator
    ensures denominator > 0 ==> 0.0 <= RateOf(count as real, denominator) <= 100.0
    ensures denominator > 0 ==> 0.0 <= 100.0 - RateOf(count as real, denominator) <= 100.0
    ensures 0 < count == denominator ==> RateOf(count as real, denominator) == 100.0
    ensures denominator == 0 ==> RateOf(count as real, denominator) == 0.0
  {
    if denominator > 0 {
      var d := denominator as real;
      DivisionBounds(count as real * 100.0, d, 0.0, 100.0);
      if count == denominator {
        DivisionBounds(count as real * 100.0, d, 100.0, 100.0);
      }
    }
  }

  /** The mean time of a non-empty list of samples lies between its least and its greatest time. */
  lemma MeanWithinMinMax(ms: seq<Measurement>)
    requires ms != []
    ensures TallyOf(ms).minTime.value as real <= MeanOf(TallyOf(ms).timeSum as real, |ms|) <= TallyOf(ms).maxTime as real
  {
    TallyMinMax(ms);
    var lo, hi := TallyOf(ms).minTime.value, TallyOf(ms).maxTime;
    SumBounds(ms, lo, hi);
    MeanBetween(TallyOf(ms).timeSum, |ms|, lo, hi);
  }

  /** A sum of `n` values between `lo` and `hi`, divided by `n`, lies between `lo` and `hi`. */
  lemma MeanBetween(sum: int, n: int, lo: int, hi: int)
    requires n > 0 && n * lo <= sum <= n * hi
    ensures lo as real <= sum as real / n as real <= hi as real
  {
    ProductAsReal(n, lo);
    ProductAsReal(n, hi);
    DivisionBounds(sum as real, n as real, lo as real, hi as real);
  }

  /** `(n + 1) * x == n * x + x`, the one product step the bounds need. */
  lemma Distribute(n: int, x: int)
    ensures (n + 1) * x == n * x + x
  {
  }

  /** Integer products carry over to the reals. */
  lemma ProductAsReal(a: int, b: int)
    ensures (a * b) as real == a as real * b as real
  {
  }

  /** Dividing a quantity between `n * lo` and `n * hi` by a positive `n` gives a quotient between `lo` and `hi`. */
  lemma DivisionBounds(x: real, n: real, lo: real, hi: real)
    requires n > 0.0 && n * lo <= x <= n * hi
    ensures lo <= x / n <= hi
  {
  }

  /** Times between `lo` and `hi` sum to between `n * lo` and `n * hi`. */
  lemma {:induction false} SumBounds(ms: seq<Measurement>, lo: int, hi: int)
    requires forall i :: 0 <= i < |ms| ==> lo <= ms[i].elapsed <= hi
    ensures |ms| * lo <= TallyOf(ms).timeSum <= |ms| * hi
    decreases |ms|
  {
    if ms != [] {
      var init := ms[..|ms| - 1];
      assert forall i :: 0 <= i < |init| ==> init[i] == ms[i];
      SumBounds(init, lo, hi);
      Distribute(|init|, lo);
      Distribute(|init|, hi);
    }
  }
}
