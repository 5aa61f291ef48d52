/**
 * The sample loop of `LogAnalyser.calculate` as a fold over values: the
 * state between two samples is the summary's counters, the groups in the
 * order they were created and TOTAL, and each sample takes one `Step`.
 * `FoldMeaning` connects the fold to the per-label definitions of
 * `AggregateSpec`: the groups are the labels in first-seen order, each
 * holding exactly the samples of its label, and TOTAL holds all of them.
 */
module Calculation {
  import opened Wrappers
  import opened AggregateSpec

  /** What one `AggregatedSamples` holds while samples are added: its label, counters, time table, byte total and span. */
  datatype GroupValue = GroupValue(name: string, tally: Tally, times: seq<int>, bytes: int, span: Span)

  /** A group as `AggregatedSamples(name, Id)` creates it: fresh counters, no time, no byte, no span. */
  function NewGroup(name: string): GroupValue {
    GroupValue(name, EmptyTally, [], 0, Span(None, None, None))
  }

  /** The group of the samples `ms` labelled `name`: their counters, times, byte total and span. */
  function Collected(name: string, ms: seq<Measurement>): GroupValue {
    GroupValue(name, TallyOf(ms), Times(ms), ByteSum(ms), if ms == [] then Span(None, None, None) else SpanOf(ms))
  }

  /** A span `setEndTime` can extend: it has a start time, and a total time once it has an end time. */
  predicate Extendable(v: GroupValue) {
    v.span.startTime.Some? && (v.span.endTime.Some? ==> v.span.totalTime.Some?)
  }

  /** TOTAL's `setStartTime` in the sample loop: only when no start time is set yet. */
  function Begin(v: GroupValue, start: int): (r: GroupValue)
    ensures r.span.startTime.Some?
  {
    if v.span.startTime.None? then v.(span := v.span.(startTime := Some(start))) else v
  }

  /** One sample added to a group: its counters, time table, byte totals and end time. */
  function AddTo(v: GroupValue, m: Measurement): (r: GroupValue)
    requires Extendable(v)
    ensures Extendable(r) && r.name == v.name && r.tally.samples == v.tally.samples + 1 && r.span.totalTime.Some?
  {
    GroupValue(v.name, AddMeasurement(v.tally, m), v.times + [m.elapsed], v.bytes + m.bytes,
               ExtendSpan(v.span, m.start, m.elapsed))
  }

  /** The first half of `AddTo`: the sample counted and timed, its bytes and span added. */
  function Timed(v: GroupValue, m: Measurement): GroupValue
    requires Extendable(v)
  {
    GroupValue(v.name, TimeSample(v.tally, m), v.times + [m.elapsed], v.bytes + m.bytes,
               ExtendSpan(v.span, m.start, m.elapsed))
  }

  /** Adding one more sample to the samples of a group is one `AddTo`, after the start time is set for the first one. */
  lemma CollectedStep(name: string, ms: seq<Measurement>, m: Measurement)
    ensures Extendable(Begin(Collected(name, ms), m.start))
    ensures Collected(name, ms + [m]) == AddTo(Begin(Collected(name, ms), m.start), m)
  {
    FoldsStep(ms, m);
  }

  /** The state of `calculate` between samples. */
  datatype CalcState = CalcState(summary: Tally, groups: seq<GroupValue>, total: GroupValue)

  /** The state `calculate` starts from: a fresh summary, no group, a fresh TOTAL. */
  const Initial: CalcState := CalcState(EmptyTally, [], NewGroup("TOTAL"))

  /**
   * What the sample loop keeps true: every group holds a sample and has a
   * span that can be extended, with a total time, and TOTAL's span has a
   * total time once it has an end time.
   */
  predicate Ready(st: CalcState) {
    && (forall g :: 0 <= g < |st.groups| ==>
          Extendable(st.groups[g]) && st.groups[g].tally.samples > 0 && st.groups[g].span.totalTime.Some?)
    && (st.total.span.endTime.Some? ==> st.total.span.totalTime.Some?)
  }

  /**
   * The scan of `checkWhichAggregated`: the number of the first group named
   * `name`, or the number a new group gets when there is none.
   */
  function GroupIndex(groups: seq<GroupValue>, name: string): (r: nat)
    ensures r <= |groups|
    ensures r < |groups| ==> groups[r].name == name
    ensures forall g :: 0 <= g < r ==> groups[g].name != name
    decreases |groups|
  {
    if groups == [] then 0
    else if groups[0].name == name then 0
    else 1 + GroupIndex(groups[1..], name)
  }

  /**
   * The first statements of the sample loop: the group of `m` found, or
   * created and started at `m`'s start time, and TOTAL started on the first
   * sample.
   */
  function Placed(st: CalcState, m: Measurement): CalcState {
    CalcState(st.summary, Grown(st.groups, m.name, m.start), Begin(st.total, m.start))
  }

  /**
   * The groups after `checkWhichAggregated(name, start)`: unchanged when a
   * group is labelled `name`, otherwise with a new group appended, labelled
   * `name` and started at `start`.
   */
  function Grown(groups: seq<GroupValue>, name: string, start: int): (r: seq<GroupValue>)
    ensures GroupIndex(groups, name) < |r| && groups <= r
  {
    if GroupIndex(groups, name) < |groups| then groups
    else groups + [NewGroup(name).(span := Span(Some(start), None, None))]
  }

  /** The three properties of `GroupIndex` determine it. */
  lemma GroupIndexUnique(groups: seq<GroupValue>, name: string, r: nat)
    requires r <= |groups| && (r < |groups| ==> groups[r].name == name)
    requires forall g :: 0 <= g < r ==> groups[g].name != name
    ensures GroupIndex(groups, name) == r
  {
  }

  /** The rest of the sample loop: `m` added to the summary, to group `which` and to TOTAL. */
  function Add(st: CalcState, which: nat, m: Measurement): CalcState
    requires which < |st.groups| && Extendable(st.groups[which]) && Extendable(st.total)
  {
    CalcState(AddMeasurement(st.summary, m), st.groups[which := AddTo(st.groups[which], m)], AddTo(st.total, m))
  }

  /** One pass of the sample loop. */
  function Step(st: CalcState, m: Measurement): (r: CalcState)
    requires Ready(st)
    ensures Ready(r) && r.total.tally.samples > 0 && r.total.span.totalTime.Some?
  {
    var p := Placed(st, m);
    Add(p, GroupIndex(st.groups, m.name), m)
  }

  /** The state after the sample loop has taken the samples `ms`, in order. */
  function Fold(ms: seq<Measurement>): (r: CalcState)
    ensures Ready(r) && (ms != [] ==> r.total.tally.samples > 0 && r.total.span.totalTime.Some?)
    decreases |ms|
  {
    if ms == [] then Initial else Step(Fold(ms[..|ms| - 1]), ms[|ms| - 1])
  }

  /** The fold of a longer prefix is one more step. */
  lemma FoldPrefixStep(ms: seq<Measurement>, i: nat)
    requires i < |ms|
    ensures Fold(ms[..i + 1]) == Step(Fold(ms[..i]), ms[i])
  {
    assert ms[..i + 1][..i] == ms[..i];
  }

  /**
   * The meaning of the sample loop: after the samples `ms` the summary holds
   * their counters, there is one group per label in first-seen order, each
   * holding exactly the samples of its label, and TOTAL holds all samples.
   */
  lemma {:induction false} FoldMeaning(ms: seq<Measurement>)
    ensures Fold(ms).summary == TallyOf(ms)
    ensures |Fold(ms).groups| == |Labels(ms)|
    ensures forall g :: 0 <= g < |Labels(ms)| ==> Fold(ms).groups[g] == Collected(Labels(ms)[g], ByLabel(ms, Labels(ms)[g]))
    ensures Fold(ms).total == Collected("TOTAL", ms)
    decreases |ms|
  {
    if ms != [] {
      var init := ms[..|ms| - 1];
      var m := ms[|ms| - 1];
      assert ms == init + [m];
      FoldMeaning(init);
      FoldsStep(init, m);
      CollectedStep("TOTAL", init, m);
      GroupsStep(Fold(init).groups, init, m);
    }
  }

  /** The groups part of one step of `FoldMeaning`: the sample's own group takes it, the others keep theirs. */
  lemma GroupsStep(groups: seq<GroupValue>, init: seq<Measurement>, m: Measurement)
    requires |groups| == |Labels(init)|
    requires forall g :: 0 <= g < |groups| ==> groups[g] == Collected(Labels(init)[g], ByLabel(init, Labels(init)[g]))
    ensures var which := GroupIndex(groups, m.name);
      var grown := Grown(groups, m.name, m.start);
      && which < |grown| && Extendable(grown[which])
      && |grown| == |Labels(init + [m])|
      && (forall g :: 0 <= g < |grown| ==>
            grown[which := AddTo(grown[which], m)][g] == Collected(Labels(init + [m])[g], ByLabel(init + [m], Labels(init + [m])[g])))
  {
    var labels' := Labels(init + [m]);
    var which := GroupIndex(groups, m.name);
    var grown := Grown(groups, m.name, m.start);
    GrownShape(groups, init, m);
    OwnGroupStep(init, m, grown[which]);
    forall g | 0 <= g < |grown| && g != which
      ensures grown[g] == Collected(labels'[g], ByLabel(init + [m], labels'[g]))
    {
      OtherGroupStep(init, m, labels'[g]);
    }
  }

  /**
   * The groups after `checkWhichAggregated` line up with the labels including
   * the sample's: its own group is the one of its label, started, and every
   * other group is the one of another label.
   */
  lemma GrownShape(groups: seq<GroupValue>, init: seq<Measurement>, m: Measurement)
    requires |groups| == |Labels(init)|
    requires forall g :: 0 <= g < |groups| ==> groups[g] == Collected(Labels(init)[g], ByLabel(init, Labels(init)[g]))
    ensures var which := GroupIndex(groups, m.name);
      var grown := Grown(groups, m.name, m.start);
      var labels' := Labels(init + [m]);
      && |grown| == |labels'| && which < |grown| && labels'[which] == m.name
      && grown[which] == Begin(Collected(m.name, ByLabel(init, m.name)), m.start)
      && (forall g :: 0 <= g < |grown| && g != which ==>
            labels'[g] != m.name && grown[g] == Collected(labels'[g], ByLabel(init, labels'[g])))
  {
    var labels := Labels(init);
    var which := GroupIndex(groups, m.name);
    LabelsStep(init, m);
    LabelsDistinctAndComplete(init);
    if which < |groups| {
      assert labels[which] == m.name;
      GroupNonEmpty(init, m.name);
    } else {
      assert m.name !in labels by {
        forall g | 0 <= g < |labels| ensures labels[g] != m.name {
          assert groups[g].name == labels[g];
        }
      }
      UnseenLabelEmpty(init, m.name);
    }
  }

  /** The sample's own group, started when it is new, takes the sample. */
  lemma OwnGroupStep(init: seq<Measurement>, m: Measurement, v: GroupValue)
    requires v == Begin(Collected(m.name, ByLabel(init, m.name)), m.start)
    ensures Extendable(v) && AddTo(v, m) == Collected(m.name, ByLabel(init + [m], m.name))
  {
    LabelsStep(init, m);
    CollectedStep(m.name, ByLabel(init, m.name), m);
  }

  /** A group of another label is left as it is. */
  lemma OtherGroupStep(init: seq<Measurement>, m: Measurement, l: string)
    requires l != m.name
    ensures Collected(l, ByLabel(init + [m], l)) == Collected(l, ByLabel(init, l))
  {
    LabelsStep(init, m);
  }
}
