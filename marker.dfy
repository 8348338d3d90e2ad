/** The per-property track (the tween's "property marker"): how `config.props` is
    turned into an ordered list of them, and what one tick does to that list. */
module Markers {
  import opened JsValues
  import opened Stages

  datatype Marker = Marker(
    key: string,
    running: bool,
    complete: bool,
    current: nat,
    queue: seq<Stage>,
    totalDuration: int)

  /** The template every marker is copied from */
  const DefaultInstance := Marker("", false, false, 0, [], 0)

  /** The current stage exists, so looking it up cannot fail */
  predicate WellFormed(m: Marker) {
    m.current < |m.queue|
  }

  predicate AllWellFormed(ms: seq<Marker>) {
    forall i :: 0 <= i < |ms| ==> WellFormed(ms[i])
  }

  function CurrentStage(m: Marker): Stage
    requires WellFormed(m)
  {
    m.queue[m.current]
  }

  /** The marker for one property key: a copy of the template with its key, a queue
      holding the one stage built for the value, and that stage's duration as total. */
  function MarkerFor(d: Stage, key: string, v: PropValue): (m: Marker)
    requires !v.StringProp?
    ensures m.key == key && m.queue == [StageFor(d, v)] && m.current == 0
    ensures !m.running && !m.complete
    ensures m.totalDuration == StageFor(d, v).duration
  {
    var data := StageFor(d, v);
    DefaultInstance.(key := key, queue := DefaultInstance.queue + [data], totalDuration := data.duration)
  }

  /** The index of the first string-valued property, or the number of properties */
  function FirstString(entries: seq<(string, PropValue)>): (k: nat)
    ensures k <= |entries|
    ensures forall j :: 0 <= j < k ==> !entries[j].1.StringProp?
    ensures k < |entries| ==> entries[k].1.StringProp?
    decreases |entries|
  {
    if entries == [] || entries[0].1.StringProp? then 0 else 1 + FirstString(entries[1..])
  }

  /** The markers for the properties, in iteration order, up to the first string */
  function BuildMarkers(d: Stage, entries: seq<(string, PropValue)>): (ms: seq<Marker>)
    ensures |ms| == FirstString(entries)
    decreases |entries|
  {
    if entries == [] || entries[0].1.StringProp? then []
    else [MarkerFor(d, entries[0].0, entries[0].1)] + BuildMarkers(d, entries[1..])
  }

  /** One marker per property before the first string, at the same position */
  lemma {:induction false} BuildMarkersAt(d: Stage, entries: seq<(string, PropValue)>)
    ensures |BuildMarkers(d, entries)| == FirstString(entries)
    ensures forall i :: 0 <= i < FirstString(entries) ==>
      BuildMarkers(d, entries)[i] == MarkerFor(d, entries[i].0, entries[i].1)
    decreases |entries|
  {
    if entries != [] && !entries[0].1.StringProp? {
      BuildMarkersAt(d, entries[1..]);
    }
  }

  /** No built marker is running: the template's `running` is false and the build
      never sets it. */
  lemma BuiltMarkersIdle(d: Stage, entries: seq<(string, PropValue)>)
    ensures AllWellFormed(BuildMarkers(d, entries))
    ensures forall i :: 0 <= i < |BuildMarkers(d, entries)| ==> !BuildMarkers(d, entries)[i].running
  {
    BuildMarkersAt(d, entries);
  }

  /** The sum of the markers' total durations */
  function TotalOf(ms: seq<Marker>): (total: int)
    decreases |ms|
  {
    if ms == [] then 0 else TotalOf(ms[..|ms| - 1]) + ms[|ms| - 1].totalDuration
  }

  lemma {:induction false} TotalOfAppend(a: seq<Marker>, b: seq<Marker>)
    ensures TotalOf(a + b) == TotalOf(a) + TotalOf(b)
    decreases |b|
  {
    if b == [] {
      assert a + b == a;
    } else {
      assert (a + b)[..|a + b| - 1] == a + b[..|b| - 1];
      assert (a + b)[|a + b| - 1] == b[|b| - 1];
      TotalOfAppend(a, b[..|b| - 1]);
    }
  }

  /** Markers whose totals are non-negative have a non-negative sum. */
  lemma {:induction false} TotalOfNonNegative(ms: seq<Marker>)
    requires forall i :: 0 <= i < |ms| ==> 0 <= ms[i].totalDuration
    ensures 0 <= TotalOf(ms)
    decreases |ms|
  {
    if ms != [] {
      TotalOfNonNegative(ms[..|ms| - 1]);
    }
  }

  /** The total over the built markers is the sum of their stages' durations after
      the conversion by 1000. */
  lemma {:induction false} TotalOfBuilt(d: Stage, entries: seq<(string, PropValue)>)
    ensures TotalOf(BuildMarkers(d, entries)) == StageDurations(d, entries)
    decreases |entries|
  {
    if entries != [] && !entries[0].1.StringProp? {
      TotalOfBuilt(d, entries[1..]);
      TotalOfAppend([MarkerFor(d, entries[0].0, entries[0].1)], BuildMarkers(d, entries[1..]));
      assert TotalOf([MarkerFor(d, entries[0].0, entries[0].1)]) == TotalOf([]) + StageFor(d, entries[0].1).duration;
    }
  }

  /** The durations of the stages built for the properties before the first string */
  function StageDurations(d: Stage, entries: seq<(string, PropValue)>): int
    decreases |entries|
  {
    if entries == [] || entries[0].1.StringProp? then 0
    else StageFor(d, entries[0].1).duration + StageDurations(d, entries[1..])
  }

  /** Distinct property keys give markers with distinct keys. */
  lemma BuiltKeysDistinct(d: Stage, entries: seq<(string, PropValue)>)
    requires forall i, j :: 0 <= i < j < |entries| ==> entries[i].0 != entries[j].0
    ensures DistinctKeys(BuildMarkers(d, entries))
  {
    BuildMarkersAt(d, entries);
  }

  predicate DistinctKeys(ms: seq<Marker>) {
    forall i, j :: 0 <= i < j < |ms| ==> ms[i].key != ms[j].key
  }

  /** One tick for one marker: a running marker advances its current stage, any other
      marker is left as it is. */
  function StepTrack(m: Marker, delta: int): (r: Marker)
    requires WellFormed(m)
    ensures r.key == m.key && r.running == m.running && r.current == m.current
    ensures !m.running ==> r == m
  {
    if m.running then m.(queue := m.queue[m.current := Advance(m.queue[m.current], delta)]) else m
  }

  /** A tick changes one marker's current stage only, and only when it is running. */
  lemma StepTrackFrame(m: Marker, delta: int)
    requires WellFormed(m)
    ensures WellFormed(StepTrack(m, delta))
    ensures StepTrack(m, delta).(queue := m.queue) == m && |StepTrack(m, delta).queue| == |m.queue|
    ensures forall j :: 0 <= j < |m.queue| && j != m.current ==> StepTrack(m, delta).queue[j] == m.queue[j]
    ensures CurrentStage(StepTrack(m, delta)) ==
      if m.running then Advance(CurrentStage(m), delta) else CurrentStage(m)
  {
  }

  /** One tick for every marker of the list, in order */
  function StepAll(ms: seq<Marker>, delta: int): (r: seq<Marker>)
    requires AllWellFormed(ms)
    ensures |r| == |ms|
    decreases |ms|
  {
    if ms == [] then [] else StepAll(ms[..|ms| - 1], delta) + [StepTrack(ms[|ms| - 1], delta)]
  }

  lemma {:induction false} StepAllAt(ms: seq<Marker>, delta: int)
    requires AllWellFormed(ms)
    ensures |StepAll(ms, delta)| == |ms|
    ensures forall i :: 0 <= i < |ms| ==> StepAll(ms, delta)[i] == StepTrack(ms[i], delta)
    decreases |ms|
  {
    if ms != [] {
      StepAllAt(ms[..|ms| - 1], delta);
    }
  }

  /** What a tick changes in the list of markers: only the elapsed time and progress
      of each running marker's current stage. Keys, flags, current indices, queue
      lengths, totals, other stages and whole idle markers stay as they were. */
  lemma StepAllFrame(ms: seq<Marker>, delta: int)
    requires AllWellFormed(ms)
    ensures |StepAll(ms, delta)| == |ms| && AllWellFormed(StepAll(ms, delta))
    ensures forall i :: 0 <= i < |ms| ==>
      var r := StepAll(ms, delta)[i];
      && r.key == ms[i].key && r.running == ms[i].running && r.complete == ms[i].complete
      && r.current == ms[i].current && |r.queue| == |ms[i].queue|
      && r.totalDuration == ms[i].totalDuration
      && (forall j :: 0 <= j < |r.queue| && j != r.current ==> r.queue[j] == ms[i].queue[j])
      && (ms[i].running ==> CurrentStage(r) == Advance(CurrentStage(ms[i]), delta))
      && (!ms[i].running ==> r == ms[i])
  {
    StepAllAt(ms, delta);
    forall i | 0 <= i < |ms| {
      StepTrackFrame(ms[i], delta);
    }
  }

  /** Every running marker's current stage is within its duration */
  predicate Clocked(ms: seq<Marker>)
    requires AllWellFormed(ms)
  {
    forall i :: 0 <= i < |ms| && ms[i].running ==> Timed(CurrentStage(ms[i]))
  }

  /** A tick with a non-negative delta keeps every running marker's current stage
      within its duration, with a progress between 0 and 1. */
  lemma StepAllClocked(ms: seq<Marker>, delta: int)
    requires AllWellFormed(ms) && Clocked(ms) && 0 <= delta
    ensures |StepAll(ms, delta)| == |ms|
    ensures AllWellFormed(StepAll(ms, delta)) && Clocked(StepAll(ms, delta))
    ensures forall i :: 0 <= i < |ms| && ms[i].running ==>
      var p := CurrentStage(StepAll(ms, delta)[i]).progress;
      p.Finite? && 0.0 <= p.r <= 1.0
  {
    StepAllFrame(ms, delta);
    forall i | 0 <= i < |ms| && ms[i].running
      ensures Timed(CurrentStage(StepAll(ms, delta)[i]))
      ensures CurrentStage(StepAll(ms, delta)[i]).progress.Finite?
      ensures 0.0 <= CurrentStage(StepAll(ms, delta)[i]).progress.r <= 1.0
    {
      AdvanceBounds(CurrentStage(ms[i]), delta);
    }
  }

  /** A list with no running marker is left as it is by a tick. */
  lemma StepAllIdle(ms: seq<Marker>, delta: int)
    requires AllWellFormed(ms)
    requires forall i :: 0 <= i < |ms| ==> !ms[i].running
    ensures StepAll(ms, delta) == ms
  {
    StepAllFrame(ms, delta);
  }
}
