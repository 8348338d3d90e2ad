/** The tween: its configuration defaults, target normalisation, the build of its
    property markers, the per-tick update and callback registration. */
module Tweens {
  import opened JsValues
  import opened Stages
  import opened Markers
  import opened Broadcasts

  /** What a config supplies under `targets`: one object or an array of objects, or
      a function; for a function, `result` is what calling it gives. */
  datatype Targets = One(target: Target) | Many(items: seq<Target>)
  datatype TargetsArg = Direct(value: Targets) | Factory(result: Targets)

  /** The configuration keys the tween reads; `None` where the key is absent.
      `props` lists the own keys of `config.props` with their values, in iteration
      order (an absent `props` is the empty list). */
  datatype Config = Config(
    targets: TargetsArg,
    ease: Option<string>,
    duration: Option<int>,
    yoyo: Option<bool>,
    repeat: Option<int>,
    delay: Option<int>,
    loop: Option<bool>,
    autoStart: Option<bool>,
    props: seq<(string, PropValue)>)

  /** The targets as a list: a function is called and its result used, and anything
      but an array becomes a list of one. */
  function SetTargets(a: TargetsArg): (r: seq<Target>)
    ensures var v := if a.Factory? then a.result else a.value;
      && (v.Many? ==> r == v.items)
      && (v.One? ==> r == [v.target])
  {
    var v := if a.Factory? then a.result else a.value;
    if v.Many? then v.items else [v.target]
  }

  /** A list that was already normalised is kept as it is. */
  lemma SetTargetsStable(a: TargetsArg)
    ensures SetTargets(Direct(Many(SetTargets(a)))) == SetTargets(a)
  {
  }

  /** The defaulting lookup: the object's own value for `key` if it has one, else the
      tween's own field of that name (`self`) if that is truthy, else `undefined`. */
  function GetV(obj: map<string, JsValue>, self: map<string, JsValue>, key: string): (r: JsValue)
    ensures key in obj ==> r == obj[key]
    ensures key !in obj && key in self && Truthy(self[key]) ==> r == self[key]
    ensures key !in obj && !(key in self && Truthy(self[key])) ==> r == Undefined
  {
    if key in obj then obj[key]
    else if key in self && Truthy(self[key]) then self[key]
    else Undefined
  }

  /** A falsy tween default is not a fallback: with `yoyo` false on the tween an
      object without `yoyo` yields `undefined`, not false. */
  lemma GetVSkipsFalsyDefault()
    ensures GetV(map[], map["yoyo" := Bool(false)], "yoyo") == Undefined
    ensures GetV(map[], map["duration" := Number(1000.0)], "duration") == Number(1000.0)
  {
  }

  /** The tween's loop flag: a repeat count of -1 forces it on, otherwise the
      configured `loop` stands. */
  function LoopFlag(repeat: int, loop: bool): (r: bool)
    ensures repeat == -1 ==> r
    ensures repeat != -1 ==> r == loop
  {
    if repeat == -1 then true else loop
  }

  /** The position of the first `x` in `xs`, or -1 */
  function IndexOf(xs: seq<string>, x: string): (r: int)
    ensures -1 <= r < |xs|
    ensures r == -1 <==> x !in xs
    ensures 0 <= r ==> xs[r] == x && forall j :: 0 <= j < r ==> xs[j] != x
    decreases |xs|
  {
    if xs == [] then -1
    else if xs[0] == x then 0
    else
      var k := IndexOf(xs[1..], x);
      if k == -1 then -1 else k + 1
  }

  /** The lifecycle events a callback can be registered for */
  const EventTypes: seq<string> := ["onStart", "onUpdate", "onRepeat", "onComplete"]

  /** A registered callback with its extra arguments and call scope */
  datatype Registration = Registration(callback: JsRef, params: JsRef, scope: JsRef)

  datatype BuildError = StringValue(key: string)

  /** What the source's `this.props` holds: it starts as a plain object `{}`,
      while the comments in the build describe an array of markers. */
  datatype PropsValue = PlainObject | ArrayOf(items: seq<Marker>)

  /** `props.push(m)`: appends to an array; a plain object has no `push`, so the
      call fails. */
  function Push(p: PropsValue, m: Marker): (r: Result<PropsValue, JsError>)
    ensures r.Failure? <==> p.PlainObject?
    ensures r.Success? ==> r.value == ArrayOf(p.items + [m])
  {
    match p
    case PlainObject => Failure(TypeError)
    case ArrayOf(items) => Success(ArrayOf(items + [m]))
  }

  /** The build loop as written, from one property on. `data` is the hoisted
      `var data`: `undefined` until a number or an object sets it, and left as it
      was by a string. Scaling the duration of an undefined `data` fails; otherwise
      the marker is built and pushed onto `props`. (The object shared by the two
      markers after a string is not modelled: each holds its own copy.) */
  function BuildLoopAsWritten(d: Stage, entries: seq<(string, PropValue)>, props: PropsValue, data: Option<Stage>): (r: Result<PropsValue, JsError>)
    ensures props.PlainObject? ==> (r.Success? <==> entries == [])
    decreases |entries|
  {
    if entries == [] then Success(props)
    else
      var (key, value) := entries[0];
      var current := match value
        case NumberProp(n) => Some(d.(value := Number(n)))
        case StringProp(_) => data
        case ObjectProp(f) => Some(MergeRight(d, f));
      if current.None? then Failure(TypeError)
      else
        var stage := current.value.(duration := current.value.duration * 1000);
        var marker := DefaultInstance.(key := key, queue := DefaultInstance.queue + [stage], totalDuration := stage.duration);
        var pushed := Push(props, marker);
        if pushed.Failure? then Failure(TypeError)
        else BuildLoopAsWritten(d, entries[1..], pushed.value, Some(stage))
  }

  /** The build as written, from `props = {}` and an undefined `data`. It fails on
      every config that has a property: the first one either is a string with
      `data` still undefined, or reaches the `push` onto a plain object. Only a
      config without properties gets through. */
  function BuildAsWritten(d: Stage, entries: seq<(string, PropValue)>): (r: Result<PropsValue, JsError>)
    ensures r.Success? <==> entries == []
    ensures r.Success? ==> r.value == PlainObject
  {
    BuildLoopAsWritten(d, entries, PlainObject, None)
  }

  /** Started from an array instead, the loop as written builds exactly the markers
      of the corrected build when no property is a string: the initial `{}` is the
      only fault on such configs. */
  lemma {:induction false} BuildLoopOnArray(d: Stage, entries: seq<(string, PropValue)>, ms: seq<Marker>, data: Option<Stage>)
    requires FirstString(entries) == |entries|
    ensures BuildLoopAsWritten(d, entries, ArrayOf(ms), data) == Success(ArrayOf(ms + BuildMarkers(d, entries)))
    decreases |entries|
  {
    if entries == [] {
      assert ms + BuildMarkers(d, entries) == ms;
    } else {
      var (key, value) := entries[0];
      assert !value.StringProp?;
      var m := MarkerFor(d, key, value);
      var current := if value.NumberProp? then d.(value := Number(value.n)) else MergeRight(d, value.fields);
      var stage := current.(duration := current.duration * 1000);
      assert stage == StageFor(d, value);
      BuildLoopOnArray(d, entries[1..], ms + [m], Some(StageFor(d, value)));
      assert BuildMarkers(d, entries) == [m] + BuildMarkers(d, entries[1..]);
      assert ms + [m] + BuildMarkers(d, entries[1..]) == ms + BuildMarkers(d, entries);
    }
  }

  /** A single numeric property: as written the build fails, while the intended
      build yields one marker for it. */
  lemma AsWrittenRejectsEveryProperty(d: Stage)
    ensures BuildAsWritten(d, [("x", NumberProp(100.0))]) == Failure(TypeError)
    ensures BuildMarkers(d, [("x", NumberProp(100.0))]) == [MarkerFor(d, "x", NumberProp(100.0))]
  {
    assert [("x", NumberProp(100.0))][1..] == [];
  }

  /** On a freshly built tween a tick changes nothing: no built marker is running. */
  lemma FreshMarkersIgnoreTicks(d: Stage, entries: seq<(string, PropValue)>, ts: seq<Target>, delta: int)
    ensures AllWellFormed(BuildMarkers(d, entries))
    ensures StepAll(BuildMarkers(d, entries), delta) == BuildMarkers(d, entries)
    ensures BroadcastAll(ts, BuildMarkers(d, entries)) == ts
  {
    BuiltMarkersIdle(d, entries);
    StepAllIdle(BuildMarkers(d, entries), delta);
    BroadcastAllIdle(ts, BuildMarkers(d, entries));
  }

  /** One more marker of the list ticked: the writes of the longer prefix extend
      those of the shorter one by that marker's. */
  lemma TickPrefix(ms: seq<Marker>, ts: seq<Target>, i: nat)
    requires AllWellFormed(ms) && i < |ms|
    ensures AllWellFormed(ms[..i]) && AllWellFormed(ms[..i + 1])
    ensures BroadcastAll(ts, ms[..i + 1]) == BroadcastTrack(BroadcastAll(ts, ms[..i]), ms[i])
  {
    assert ms[..i + 1][..i] == ms[..i];
    assert ms[..i + 1][i] == ms[i];
  }

  /** The inner loop of a tick: the stage value is written under `key` to each
      target in turn. Line 309 of the source indexes the targets with the marker's
      index instead; here the write goes to the target being iterated, as intended. */
  method WriteTargets(ts: seq<Target>, key: string, v: JsValue) returns (r: seq<Target>)
    ensures r == Broadcast(ts, key, v)
  {
    r := ts;
    var t := 0;
    while t < |r|
      invariant 0 <= t <= |r| == |ts|
      invariant forall j :: 0 <= j < t ==> r[j] == ts[j][key := v]
      invariant forall j :: t <= j < |r| ==> r[j] == ts[j]
    {
      r := r[t := r[t][key := v]];
      t := t + 1;
    }
  }

  /** The body of the build loop for one number or object property: the stage is
      the defaults with the number as `value`, or the object merged over them, with
      the duration converted to milliseconds; the marker is a copy of the template
      with the key and that one stage. */
  method NewMarker(d: Stage, key: string, value: PropValue) returns (propertyMarker: Marker)
    requires !value.StringProp?
    ensures propertyMarker == MarkerFor(d, key, value)
  {
    var data := if value.NumberProp? then d.(value := Number(value.n)) else MergeRight(d, value.fields);
    // durations are converted to milliseconds
    data := data.(duration := data.duration * 1000);
    propertyMarker := DefaultInstance.(key := key);
    propertyMarker := propertyMarker.(queue := propertyMarker.queue + [data]);
    propertyMarker := propertyMarker.(totalDuration := data.duration);
    assert data == StageFor(d, value);
  }

  /** The build loop: one marker per property of `entries`, appended in iteration
      order to `list0` with its total added to `total0`, up to the first
      string-valued property, which stops the loop and is reported by `ok`. */
  method BuildList(d: Stage, entries: seq<(string, PropValue)>, list0: seq<Marker>, total0: int)
    returns (list: seq<Marker>, total: int, ok: bool)
    requires AllWellFormed(list0)
    ensures ok <==> FirstString(entries) == |entries|
    ensures list == list0 + BuildMarkers(d, entries)
    ensures total == total0 + TotalOf(BuildMarkers(d, entries))
    ensures AllWellFormed(list)
  {
    list, total := list0, total0;
    ghost var built: seq<Marker> := [];
    var k := 0;
    while k < |entries|
      invariant 0 <= k <= FirstString(entries)
      invariant list == list0 + built && |built| == k
      invariant forall j :: 0 <= j < k ==> built[j] == MarkerFor(d, entries[j].0, entries[j].1)
      invariant total == total0 + TotalOf(built)
      invariant AllWellFormed(list)
    {
      var (key, value) := entries[k];
      if value.StringProp? {
        break;
      }
      var propertyMarker := NewMarker(d, key, value);
      assert (built + [propertyMarker])[..k] == built;
      built := built + [propertyMarker];
      list := list + [propertyMarker];
      total := total + propertyMarker.totalDuration;
      k := k + 1;
    }
    ok := k == |entries|;
    BuildMarkersAt(d, entries);
    assert built == BuildMarkers(d, entries);
  }

  class Tween {
    var targets: seq<Target>
    /** The property markers, in the order the properties were built */
    var props: seq<Marker>
    var ease: EaseRef
    var duration: int
    var yoyo: bool
    var repeat: int
    var delay: int
    var loop: bool
    /** The stage every property's stage is built from */
    var defaultTweenData: Stage
    var running: bool
    var progress: real
    var totalDuration: int
    /** The registered callbacks, by event type; an absent type has none */
    var callbacks: map<string, Registration>

    predicate Valid()
      reads this
    {
      && AllWellFormed(props)
      && (forall k :: k in callbacks ==> k in EventTypes)
    }

    /** The fields the constructor takes from the config or from their defaults:
        `Power0`, 1000 ms, no yoyo, no repeat, no delay, the loop flag (forced on by
        a repeat of -1), the stage every property starts from, and `autoStart`. */
    predicate Configured(config: Config)
      reads this`targets, this`ease, this`duration, this`yoyo, this`repeat, this`delay, this`loop,
        this`defaultTweenData, this`running
    {
      && targets == SetTargets(config.targets)
      && ease == Registry(config.ease.GetOr("Power0"))
      && duration == config.duration.GetOr(1000)
      && yoyo == config.yoyo.GetOr(false)
      && repeat == config.repeat.GetOr(0)
      && delay == config.delay.GetOr(0)
      && loop == LoopFlag(config.repeat.GetOr(0), config.loop.GetOr(false))
      && defaultTweenData == Stage(Undefined, Finite(0.0), 0, ease, duration, yoyo, repeat, loop, delay, Undefined, 0)
      && running == config.autoStart.GetOr(true)
    }

    /** The configuration defaults, before any property is built */
    constructor Init(config: Config)
      ensures Configured(config)
      ensures props == [] && progress == 0.0 && totalDuration == 0 && callbacks == map[]
      ensures Valid()
    {
      var e := Registry(config.ease.GetOr("Power0"));
      var dur := config.duration.GetOr(1000);
      var yo := config.yoyo.GetOr(false);
      var rep := config.repeat.GetOr(0);
      var del := config.delay.GetOr(0);
      var lp := config.loop.GetOr(false);
      if rep == -1 {
        lp := true;
      }
      targets := SetTargets(config.targets);
      props := [];
      ease, duration, yoyo, repeat, delay, loop := e, dur, yo, rep, del, lp;
      defaultTweenData := Stage(Undefined, Finite(0.0), 0, e, dur, yo, rep, lp, del, Undefined, 0);
      running := config.autoStart.GetOr(true);
      progress := 0.0;
      totalDuration := 0;
      callbacks := map[];
    }

    /** The whole construction: the defaults, then the markers. A string-valued
        property stops the build with an error. */
    static method Create(config: Config) returns (r: Result<Tween, BuildError>)
      ensures r.Success? <==> FirstString(config.props) == |config.props|
      ensures r.Failure? ==> r.error == StringValue(config.props[FirstString(config.props)].0)
      ensures r.Success? ==> fresh(r.value) && r.value.Valid()
      ensures r.Success? ==> r.value.Configured(config)
      ensures r.Success? ==> r.value.props == BuildMarkers(r.value.defaultTweenData, config.props)
      ensures r.Success? ==> r.value.totalDuration == TotalOf(r.value.props)
      ensures r.Success? ==> r.value.progress == 0.0 && r.value.callbacks == map[]
    {
      var t := new Tween.Init(config);
      ghost var built := BuildMarkers(t.defaultTweenData, config.props);
      var ok := t.BuildTweenData(config);
      assert t.props == built by {
        assert [] + built == built;
      }
      if ok {
        r := Success(t);
      } else {
        r := Failure(StringValue(config.props[FirstString(config.props)].0));
      }
    }

    /** Appends one marker per property of `config.props`, in iteration order, each
        with a one-stage queue, and adds their total durations to the tween's. It
        stops at the first string-valued property and reports it. */
    method BuildTweenData(config: Config) returns (ok: bool)
      requires Valid()
      modifies this`props, this`totalDuration
      ensures Valid()
      ensures ok <==> FirstString(config.props) == |config.props|
      ensures props == old(props) + BuildMarkers(defaultTweenData, config.props)
      ensures totalDuration == old(totalDuration) + TotalOf(BuildMarkers(defaultTweenData, config.props))
    {
      props, totalDuration, ok := BuildList(defaultTweenData, config.props, props, totalDuration);
    }

    /** One tick. Nothing happens unless the tween is running; then every running
        marker's current stage advances by `delta` (clamped at its duration, with
        the progress recomputed) and its value is written under the marker's key to
        every target. The tick's timestamp is not used. */
    method Update(timestep: int, delta: int)
      requires Valid()
      modifies this`props, this`targets
      ensures Valid()
      ensures !old(running) ==> props == old(props) && targets == old(targets)
      ensures old(running) ==> props == StepAll(old(props), delta)
      ensures old(running) ==> targets == BroadcastAll(old(targets), old(props))
      ensures 0 <= delta && Clocked(old(props)) ==> Clocked(props)
    {
      if !running {
        return;
      }
      var list := props;
      var ts := targets;
      ghost var list0, ts0 := list, ts;
      var i := 0;
      while i < |list|
        invariant 0 <= i <= |list| == |list0|
        invariant AllWellFormed(list0)
        invariant forall j :: 0 <= j < i ==> list[j] == StepTrack(list0[j], delta)
        invariant forall j :: i <= j < |list| ==> list[j] == list0[j]
        invariant ts == BroadcastAll(ts0, list0[..i])
      {
        var entry := list[i];
        assert entry == list0[i];
        TickPrefix(list0, ts0, i);
        if entry.running {
          var tweenData := entry.queue[entry.current];
          var elapsed := tweenData.elapsed + delta;
          if elapsed > tweenData.duration {
            elapsed := tweenData.duration;
          }
          tweenData := tweenData.(elapsed := elapsed, progress := Divide(elapsed, tweenData.duration));
          list := list[i := entry.(queue := entry.queue[entry.current := tweenData])];
          assert list[i] == StepTrack(entry, delta) by {
            assert tweenData == Advance(entry.queue[entry.current], delta);
          }
          ts := WriteTargets(ts, entry.key, tweenData.value);
        }
        i := i + 1;
      }
      assert list0[..|list0|] == list0;
      StepAllAt(list0, delta);
      assert list == StepAll(list0, delta);
      StepAllFrame(list0, delta);
      if 0 <= delta && Clocked(list0) {
        StepAllClocked(list0, delta);
      }
      props, targets := list, ts;
    }

    /** Registers `callback`, with its extra arguments and scope, for one of the four
        lifecycle events, replacing an earlier registration; any other type is
        ignored. Returns the tween itself. */
    method EventCallback(eventType: string, callback: JsRef, params: JsRef, scope: JsRef) returns (self: Tween)
      requires Valid()
      modifies this`callbacks
      ensures Valid() && self == this
      ensures eventType in EventTypes ==>
        callbacks == old(callbacks)[eventType := Registration(callback, params, scope)]
      ensures eventType !in EventTypes ==> callbacks == old(callbacks)
    {
      var types := EventTypes;
      if IndexOf(types, eventType) != -1 {
        callbacks := callbacks[eventType := Registration(callback, params, scope)];
      }
      self := this;
    }
  }

  /** What a tween's configuration means for the stages it builds: `repeat: -1`
      makes the tween and every stage loop, and a numeric property's stage is the
      defaults with that value and the configured duration in milliseconds. */
  lemma ConfiguredStage(t: Tween, config: Config, key: string, n: real)
    requires t.Configured(config)
    ensures config.repeat == Some(-1) ==> t.loop && t.defaultTweenData.loop
    ensures var s := MarkerFor(t.defaultTweenData, key, NumberProp(n)).queue[0];
      && s.value == Number(n) && s.duration == 1000 * config.duration.GetOr(1000)
      && s.(value := Undefined, duration := t.duration) == t.defaultTweenData
  {
  }
}
