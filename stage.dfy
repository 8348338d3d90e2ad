/** One stage record of a property's queue (the tween's "TweenData"): how it is built
    from the tween's defaults and a per-property config value, and how one tick of
    `update` advances it. */
module Stages {
  import opened JsValues

  /** The easing a stage holds. `Registry(name)` stands for the function the easing
      registry returns for `name` (the tween-level `ease`); `Given(name)` is what a
      per-property object supplied under `ease`, which the merge stores as it is,
      without a registry lookup. No easing is ever applied by this core. */
  datatype EaseRef = Registry(name: string) | Given(name: string)

  datatype Stage = Stage(
    value: JsValue,
    progress: Fraction,
    startTime: int,
    ease: EaseRef,
    duration: int,
    yoyo: bool,
    repeat: int,
    loop: bool,
    delay: int,
    startAt: JsValue,
    elapsed: int)

  /** The keys a per-property object supplies, `None` where it has no such own key.
      Keys that the default stage does not have are skipped by the merge, so an
      object's other keys have no counterpart here. */
  datatype Fields = Fields(
    value: Option<JsValue>,
    progress: Option<real>,
    startTime: Option<int>,
    ease: Option<string>,
    duration: Option<int>,
    yoyo: Option<bool>,
    repeat: Option<int>,
    loop: Option<bool>,
    delay: Option<int>,
    startAt: Option<JsValue>,
    elapsed: Option<int>)

  /** An object with none of the stage's keys: also what an array, a boolean, `null`
      or a function under a property key amounts to for the merge */
  const NoFields := Fields(None, None, None, None, None, None, None, None, None, None, None)

  /** The value found under one key of `config.props` */
  datatype PropValue = NumberProp(n: real) | StringProp(s: string) | ObjectProp(fields: Fields)

  /** The merge of an object over the default stage: a copy of the defaults in which
      every key the object has takes the object's value. */
  function MergeRight(d: Stage, f: Fields): (s: Stage)
    ensures s.value == if f.value.Some? then f.value.value else d.value
    ensures s.progress == if f.progress.Some? then Finite(f.progress.value) else d.progress
    ensures s.startTime == if f.startTime.Some? then f.startTime.value else d.startTime
    ensures s.ease == if f.ease.Some? then Given(f.ease.value) else d.ease
    ensures s.duration == if f.duration.Some? then f.duration.value else d.duration
    ensures s.yoyo == if f.yoyo.Some? then f.yoyo.value else d.yoyo
    ensures s.repeat == if f.repeat.Some? then f.repeat.value else d.repeat
    ensures s.loop == if f.loop.Some? then f.loop.value else d.loop
    ensures s.delay == if f.delay.Some? then f.delay.value else d.delay
    ensures s.startAt == if f.startAt.Some? then f.startAt.value else d.startAt
    ensures s.elapsed == if f.elapsed.Some? then f.elapsed.value else d.elapsed
  {
    Stage(
      f.value.GetOr(d.value),
      if f.progress.None? then d.progress else Finite(f.progress.value),
      f.startTime.GetOr(d.startTime),
      if f.ease.None? then d.ease else Given(f.ease.value),
      f.duration.GetOr(d.duration),
      f.yoyo.GetOr(d.yoyo),
      f.repeat.GetOr(d.repeat),
      f.loop.GetOr(d.loop),
      f.delay.GetOr(d.delay),
      f.startAt.GetOr(d.startAt),
      f.elapsed.GetOr(d.elapsed))
  }

  /** An object with no stage keys leaves the defaults as they are. */
  lemma MergeRightNoFields(d: Stage)
    ensures MergeRight(d, NoFields) == d
  {
  }

  /** Merging the same object twice is merging it once. */
  lemma MergeRightIdempotent(d: Stage, f: Fields)
    ensures MergeRight(MergeRight(d, f), f) == MergeRight(d, f)
  {
  }

  /** The stage queued for one property: a number becomes the defaults with that
      `value`, an object is merged over the defaults, and the duration is then
      multiplied by 1000. A string has no stage. */
  function StageFor(d: Stage, v: PropValue): (s: Stage)
    requires !v.StringProp?
    ensures v.NumberProp? ==> s == d.(value := Number(v.n), duration := 1000 * d.duration)
    ensures v.ObjectProp? ==>
      s == MergeRight(d, v.fields).(duration := 1000 * MergeRight(d, v.fields).duration)
  {
    var data := if v.NumberProp? then d.(value := Number(v.n)) else MergeRight(d, v.fields);
    data.(duration := data.duration * 1000)
  }

  /** An object supplying only `value` yields the same stage as that bare number. */
  lemma ValueObjectIsNumber(d: Stage, n: real)
    ensures StageFor(d, ObjectProp(NoFields.(value := Some(Number(n))))) == StageFor(d, NumberProp(n))
  {
  }

  /** Elapsed time within a valid range of a stage whose duration is positive */
  predicate Timed(s: Stage) {
    0 < s.duration && 0 <= s.elapsed <= s.duration
  }

  function Min(a: int, b: int): int {
    if a <= b then a else b
  }

  /** One tick for the current stage of a running track: `delta` is added to the
      elapsed time, which is clamped at the duration, and the progress is the
      elapsed time divided by the duration. */
  function Advance(s: Stage, delta: int): (r: Stage)
    ensures r.elapsed <= s.duration && r.elapsed <= s.elapsed + delta
    ensures r.elapsed == s.duration || r.elapsed == s.elapsed + delta
    ensures r.progress == Divide(r.elapsed, s.duration)
    ensures r.(elapsed := s.elapsed, progress := s.progress) == s
  {
    var elapsed := if s.elapsed + delta > s.duration then s.duration else s.elapsed + delta;
    s.(elapsed := elapsed, progress := Divide(elapsed, s.duration))
  }

  /** A tick with a non-negative delta keeps the elapsed time within the duration and
      yields a progress between 0 and 1. */
  lemma AdvanceBounds(s: Stage, delta: int)
    requires Timed(s) && 0 <= delta
    ensures Timed(Advance(s, delta))
    ensures Advance(s, delta).progress.Finite?
    ensures 0.0 <= Advance(s, delta).progress.r <= 1.0
  {
    var r := Advance(s, delta);
    var e, d := r.elapsed as real, s.duration as real;
    assert 0.0 <= e <= d && 0.0 < d;
    assert r.progress.r == e / d;
  }

  function Sum(ds: seq<int>): int {
    if ds == [] then 0 else ds[0] + Sum(ds[1..])
  }

  /** The stage after one tick per element of `deltas`, in order */
  function AdvanceAll(s: Stage, deltas: seq<int>): (r: Stage)
    ensures r.(elapsed := s.elapsed, progress := s.progress) == s
    ensures deltas != [] ==> r.progress == Divide(r.elapsed, s.duration)
    decreases |deltas|
  {
    if deltas == [] then s else AdvanceAll(Advance(s, deltas[0]), deltas[1..])
  }

  lemma {:induction false} SumNonNegative(ds: seq<int>)
    requires forall i :: 0 <= i < |ds| ==> 0 <= ds[i]
    ensures 0 <= Sum(ds)
  {
    if ds != [] {
      SumNonNegative(ds[1..]);
    }
  }

  /** Over several ticks with non-negative deltas the clamping composes: the elapsed
      time is the starting elapsed time plus all the deltas, capped at the duration,
      and nothing but the elapsed time and the progress changes. */
  lemma {:induction false} AdvanceAllElapsed(s: Stage, deltas: seq<int>)
    requires s.elapsed <= s.duration
    requires forall i :: 0 <= i < |deltas| ==> 0 <= deltas[i]
    ensures AdvanceAll(s, deltas).elapsed == Min(s.elapsed + Sum(deltas), s.duration)
    ensures AdvanceAll(s, deltas).(elapsed := s.elapsed, progress := s.progress) == s
    decreases |deltas|
  {
    if deltas != [] {
      var s' := Advance(s, deltas[0]);
      AdvanceAllElapsed(s', deltas[1..]);
      SumNonNegative(deltas[1..]);
    }
  }

  /** A stage's elapsed time reaches its duration exactly when the deltas fed to it
      add up to at least the time it had left. */
  lemma ReachesDuration(s: Stage, deltas: seq<int>)
    requires Timed(s)
    requires forall i :: 0 <= i < |deltas| ==> 0 <= deltas[i]
    ensures AdvanceAll(s, deltas).elapsed == s.duration <==> Sum(deltas) >= s.duration - s.elapsed
  {
    AdvanceAllElapsed(s, deltas);
  }
}
