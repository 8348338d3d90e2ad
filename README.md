# Early Phaser 3 Tween, modelled in Dafny

This project models `Tween`, a Phaser 3 tween at its earliest stage of development (`v3/src/tween/Tween.js`). A tween is built from a config object and holds a list of targets. For every key of `config.props` it builds one *property marker*, a track whose queue holds one stage record (a "TweenData"). On each tick, `update` advances the current stage of every running track and writes that stage's value to the targets. The tween can also register callbacks for four lifecycle events.

Modules:

- `JsValues` (`js.dfy`): the JavaScript values the tween stores and compares; truthiness; a division that can give a non-finite result.
- `Stages` (`stage.dfy`): the stage record; how a stage is built from the tween's defaults and a property's value (number, or an object merged over the defaults); one tick of a stage and many ticks in a row.
- `Markers` (`marker.dfy`): the property marker; the build of the marker list from `config.props`; the total duration; one tick over the whole list.
- `Broadcasts` (`broadcast.dfy`): how a tick writes values to the targets, once as the source writes it and once as intended.
- `Tweens` (`tween.dfy`): the config, the normalisation of `targets`, `getV`, the loop flag and `indexOf`, and the class `Tween`. The class has the constructor's defaults (`Init`), the whole construction (`Create`), `BuildTweenData`, `Update` and `EventCallback`.

The class keeps the source's mutable fields. `Update` is a loop over local copies that are written back at the end, with the inner loop over the targets in `WriteTargets`. `BuildTweenData` assigns what the build loop `BuildList` computes, and `NewMarker` is that loop's body for one property. Each loop is proved against a specification function: `StepAll` with `BroadcastAll` for `Update`, and `BuildMarkers` with `TotalOf` for `BuildList`. The lemmas about those functions carry the properties.

Where the code and its comments or the wider design disagree, the model follows the code:

- Stages are never eased or interpolated. A running track writes its stage's `value` unchanged.
- No track is ever started. Every marker is copied from a template whose `running` is false, and nothing in the core sets it. So on a built tween a tick changes nothing (`FreshMarkersIgnoreTicks`).
- `duration` is multiplied by 1000 at build time. This applies to the millisecond default as well, so a property that takes the default gets a duration of 1,000,000.
- `delay`, `yoyo`, `repeat` and `loop` are copied into each stage and never read.
- Only `config.props` is read for properties. A value that is an array is not expanded into a chain of stages. It is merged like any object, and the merge finds none of the stage's keys in it.

## Model

| member | source | states |
|---|---|---|
| JsValues.Divide | v3/src/tween/Tween.js:305 | elapsed / duration is finite exactly when the duration is non-zero, and then it times the duration gives the elapsed time |
| Stages.MergeRight | v3/src/tween/Tween.js:218 | every stage key the per-property object has takes the object's value, and every other key keeps the default |
| Stages.MergeRightNoFields | v3/src/tween/Tween.js:218 | an object with none of the stage's keys leaves the defaults unchanged |
| Stages.MergeRightIdempotent | v3/src/tween/Tween.js:218 | merging the same object twice equals merging it once |
| Stages.StageFor | v3/src/tween/Tween.js:206-233 | a number gives the defaults with that value; an object gives the defaults merged with it; either way the duration is then multiplied by 1000 |
| Stages.ValueObjectIsNumber | v3/src/tween/Tween.js:206-218 | `{ value: n }` and the bare number `n` give the same stage |
| Stages.Advance | v3/src/tween/Tween.js:295-305 | the new elapsed time is the old one plus delta, capped at the duration; the progress is that time divided by the duration; no other field changes |
| Stages.AdvanceBounds | v3/src/tween/Tween.js:297-305 | with a positive duration and a non-negative delta, the elapsed time stays within [0, duration] and the progress is finite and within [0, 1] |
| Stages.AdvanceAll | v3/src/tween/Tween.js:297-305 | the stage after one tick per delta, in order; only the elapsed time and the progress change, and after at least one tick the progress is the elapsed time over the duration |
| Stages.AdvanceAllElapsed | v3/src/tween/Tween.js:297-302 | over any number of ticks with non-negative deltas, the elapsed time is the start plus the sum of the deltas, capped at the duration; no other field changes |
| Stages.ReachesDuration | v3/src/tween/Tween.js:297-302 | a stage reaches its duration if and only if the deltas add up to at least the time it had left |
| Markers.MarkerFor | v3/src/tween/Tween.js:235-241 | a marker carries its property's key and a queue holding just that property's stage; its current index is 0; it is not running and not complete; its total is that stage's duration |
| Markers.FirstString | v3/src/tween/Tween.js:206-215 | the position of the first string-valued property (every earlier one is not a string), or the number of properties |
| Markers.BuildMarkers | v3/src/tween/Tween.js:198-243 | the markers for the properties in iteration order, stopping at the first string-valued one; there is one per property before it |
| Markers.BuildMarkersAt | v3/src/tween/Tween.js:198-243 | each property before the first string gets one marker, at the same position, and no other marker is built |
| Markers.BuiltMarkersIdle | v3/src/tween/Tween.js:110-117 | every built marker has a current stage and none is running |
| Markers.TotalOfAppend | v3/src/tween/Tween.js:245 | `TotalOf`, the sum of the markers' totals that line 245 accumulates, adds up over concatenation |
| Markers.TotalOfNonNegative | v3/src/tween/Tween.js:245 | markers whose totals are non-negative have a non-negative sum |
| Markers.TotalOfBuilt | v3/src/tween/Tween.js:241-245 | the tween's total duration is the sum of the durations of the built stages |
| Markers.BuiltKeysDistinct | v3/src/tween/Tween.js:198-243 | distinct property keys give markers with distinct keys |
| Markers.StepTrack | v3/src/tween/Tween.js:279-305 | one tick for one marker: a running one advances its current stage, keeping its key, flag and current index; an idle one is unchanged |
| Markers.StepTrackFrame | v3/src/tween/Tween.js:279-305 | one tick changes only a running marker's current stage, and advances it |
| Markers.StepAll | v3/src/tween/Tween.js:273-312 | one tick for every marker of the list, in order, keeping the list's length |
| Markers.StepAllAt | v3/src/tween/Tween.js:273-312 | a tick of the list ticks each marker in place and keeps the list's length |
| Markers.StepAllFrame | v3/src/tween/Tween.js:273-312 | a tick keeps every key, flag, current index, queue length, total and non-current stage; it advances each running marker's current stage; it leaves idle markers unchanged |
| Markers.StepAllClocked | v3/src/tween/Tween.js:295-305 | a tick with a non-negative delta keeps every running stage within its duration, with a progress in [0, 1] |
| Markers.StepAllIdle | v3/src/tween/Tween.js:279 | a list with no running marker is unchanged by a tick |
| Broadcasts.Broadcast | v3/src/tween/Tween.js:307-310 | every target gets the value under the key and gains only that key; every other key of every target keeps its value |
| Broadcasts.BroadcastTrack | v3/src/tween/Tween.js:279-310 | the writes one marker makes in a tick: its current stage value under its key to every target if it is running; nothing otherwise; the number of targets is kept |
| Broadcasts.BroadcastAll | v3/src/tween/Tween.js:273-312 | the writes of every marker in order; the number of targets is kept |
| Broadcasts.BroadcastAllAt | v3/src/tween/Tween.js:273-312 | after a tick, each target holds under each key the value of the last running marker with that key; keys no running marker has keep their own values |
| Broadcasts.LastWriteFound | v3/src/tween/Tween.js:279-310 | a key is written if and only if some running marker has that key |
| Broadcasts.LastWriteDistinct | v3/src/tween/Tween.js:307-310 | when keys are distinct, the value written under a running marker's key is that marker's current stage value |
| Broadcasts.BroadcastAllIdle | v3/src/tween/Tween.js:279 | with no running marker, no target is written |
| Broadcasts.TargetLoopAsWritten | v3/src/tween/Tween.js:307-310 | the inner loop as written, iteration by iteration: each one assigns to the target at the marker's index; it fails exactly when an iteration is left and that target is missing, and otherwise keeps the number of targets |
| Broadcasts.TargetLoopClosedForm | v3/src/tween/Tween.js:307-310 | the loop as written, from any iteration that has not finished, has the outcome `BroadcastAsWritten` states |
| Broadcasts.TargetLoopAsWrittenIs | v3/src/tween/Tween.js:307-310 | the whole loop as written has the outcome `BroadcastAsWritten` states |
| Broadcasts.BroadcastAsWritten | v3/src/tween/Tween.js:307-310 | the outcome of that loop: only the target at the marker's index is written, and the loop fails when there are targets but none at that index |
| Broadcasts.AsWrittenSkipsSecondTarget | v3/src/tween/Tween.js:309 | two targets, first marker: as written the second target is not written, while the intended write reaches both |
| Broadcasts.AsWrittenFailsOnSecondMarker | v3/src/tween/Tween.js:309 | one target, second marker: as written the loop fails, while the intended write succeeds |
| Tweens.SetTargets | v3/src/tween/Tween.js:316-329 | a function is replaced by what it returns; an array is kept as it is; anything else becomes a list of one |
| Tweens.SetTargetsStable | v3/src/tween/Tween.js:323-328 | normalising an already normalised list gives the same list |
| Tweens.GetV | v3/src/tween/Tween.js:172-182 | an own key of the object wins; otherwise the tween's field of that name, if truthy; otherwise `undefined` |
| Tweens.GetVSkipsFalsyDefault | v3/src/tween/Tween.js:178-181 | a falsy tween field is no fallback (`yoyo: false` gives `undefined`), while a truthy one is used |
| Tweens.LoopFlag | v3/src/tween/Tween.js:101-107 | a repeat of -1 forces loop on; any other repeat keeps the configured loop |
| Tweens.IndexOf | v3/src/tween/Tween.js:333-335 | -1 if and only if the event type is not listed; otherwise the index of its first occurrence |
| Tweens.Push | v3/src/tween/Tween.js:243 | `push` appends to an array and fails on a plain object |
| Tweens.BuildLoopAsWritten | v3/src/tween/Tween.js:198-246 | the build loop as written: a hoisted `data` that is undefined before a number or an object sets it, the scaling at line 233, the marker and the `push`; started on a plain object it succeeds exactly when no property is left |
| Tweens.BuildAsWritten | v3/src/tween/Tween.js:87-246 | as written, from `props = {}`, the build fails on every config that has a property and succeeds only for one that has none |
| Tweens.BuildLoopOnArray | v3/src/tween/Tween.js:198-246 | started on an array instead, the loop as written builds exactly the corrected markers when no property is a string, so the `{}` at line 87 is the only fault on such configs |
| Tweens.AsWrittenRejectsEveryProperty | v3/src/tween/Tween.js:243 | one numeric property: as written the build fails, while the intended build gives one marker |
| Tweens.FreshMarkersIgnoreTicks | v3/src/tween/Tween.js:184-314 | on freshly built markers, a tick changes neither the markers nor the targets |
| Tweens.NewMarker | v3/src/tween/Tween.js:203-241 | the loop body for one number or object property builds exactly `MarkerFor` of it |
| Tweens.BuildList | v3/src/tween/Tween.js:198-246 | the build loop appends `BuildMarkers` to the list and their `TotalOf` to the total, keeps every marker well formed, and reports whether no property is a string |
| Tweens.ConfiguredStage | v3/src/tween/Tween.js:101-142 | on a configured tween, `repeat: -1` makes the tween and its default stage loop, and a numeric property's stage holds that value and the configured duration times 1000, with every other field from the defaults |
| Tweens.WriteTargets | v3/src/tween/Tween.js:307-310 | the inner loop of a tick writes the value under the key to every target, as `Broadcast` describes |
| Tweens.Tween.Init | v3/src/tween/Tween.js:81-160 | `Configured`: the normalised targets, the config values or their defaults (`Power0`, 1000, false, 0, 0, autoStart true), loop forced by repeat -1, and the default stage built from them; also no props, progress and total 0, and no callbacks |
| Tweens.Tween.Create | v3/src/tween/Tween.js:72-164 | a tween is built if and only if no property is a string, and otherwise the key of the first string property is reported; a built tween is `Configured` by the config, its props are the built markers, its total is their total, its progress is 0 and it has no callbacks |
| Tweens.Tween.BuildTweenData | v3/src/tween/Tween.js:184-247 | appends the built markers to `props` and their total to `totalDuration`, changing no other field; succeeds if and only if no property is a string |
| Tweens.Tween.Update | v3/src/tween/Tween.js:249-314 | a tween that is not running changes nothing; a running one ticks every marker (`StepAll`) and writes their values to the targets (`BroadcastAll`); the tick keeps every running stage within its duration |
| Tweens.Tween.EventCallback | v3/src/tween/Tween.js:331-343 | a known event type gets the callback, its params and its scope, replacing any earlier registration; an unknown type changes nothing; the tween itself is returned |

## Left out

- Tweens.Tween.BuildTweenData: a string-valued property stops the build with an error. As written, a string as the first key throws at line 233, and any earlier property has already thrown at line 243, because `props` is `{}`. Only if `props` were an array would a string after an earlier property be reached; it would then reuse that property's stage object, multiply its duration by 1000 again and have a second marker share it. That object sharing is not modelled, and `Tweens.BuildLoopAsWritten` gives each marker its own copy.
- Tweens.Tween.BuildTweenData: `props` is a list of markers. The source starts with a plain object and pushes onto it; what that does as written is stated by `Tweens.BuildAsWritten`.
- Tweens.Tween.Update: the write goes to every target (the intended reading of line 309); the loop as written is `Broadcasts.BroadcastAsWritten`.
- `GetEaseFunction` and the easing registry are not part of this model. A tween-level ease is recorded by name as `Registry(name)`, and a per-property `ease` string is stored unchanged as `Given(name)`.
- `GetValue`, `CloneObject` and `MergeRight` are Phaser utilities outside this file. They are modelled as "config value or default", as a plain copy of a record with no shared parts, and as an override of the keys the defaults have.
- A per-property object is a record of optional stage fields whose values have the field's own type. Values of any other JavaScript type, and keys the defaults lack, are not modelled.
- Numbers: durations, delays, elapsed times and deltas are integers; values and progress are reals. Floating-point rounding, NaN and the infinities are not modelled; a division by zero gives `NotFinite`.
- `for…in` order over `config.props` is a given list of own keys. Inherited enumerable keys are not modelled.
- Targets are values (maps from property name to value). Two targets that are the same object, and aliasing between targets and the rest of the program, are not modelled.
- A config without `targets` (the source then tweens on a list holding `null`), and a target that is not an object, are not modelled.
- A target factory is represented by the result it returns; the call itself is not modelled.
- `getV` reads the tween's own fields through `this[key]`; the model passes those fields as a map parameter.
- Fields the constructor sets but the core never reads are not modelled: `manager`, `offset`, `onCompleteDelay`, `paused` and `useFrames`. Neither is `callbackScope`, which line 160 only mentions and never assigns, nor `timeScale`, an empty method. The tween-level `progress` is modelled; it is set to 0 and nothing changes it.
- Callbacks are only registered. Calling them, and the lifecycle that would, are not part of this core.
- Nothing starts, repeats, yoyos, delays, completes or moves to a track's next stage. The tick's `timestep` argument is never read.

## Findings

| source | as written | input that shows it | evidently intended | confidence | as-written member | corrected member |
|---|---|---|---|---|---|---|
| v3/src/tween/Tween.js:309 | the target loop assigns to `targets[i]`, where `i` is the marker's index, not the target's index `t` | two targets and the first marker running: only the first target is written; one target and the second marker running: `targets[1]` is undefined and the assignment throws | `targets[t][entry.key] = tweenData.value` for every target | high, not executed | Broadcasts.TargetLoopAsWritten | Tweens.WriteTargets |
| v3/src/tween/Tween.js:87 | `this.props` starts as `{}`, and line 243 calls `this.props.push` | a config with `props: { x: 100 }`: `push` is not a function on a plain object, so the constructor throws | `this.props = []`, as the comment at lines 221-230 shows | high, not executed | Tweens.BuildAsWritten | Tweens.Tween.BuildTweenData |
