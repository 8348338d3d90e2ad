/** Writing a running track's stage value to the tween's targets. */
module Broadcasts {
  import opened JsValues
  import opened Stages
  import opened Markers

  /** The properties of one target object */
  type Target = map<string, JsValue>

  /** Every target gets `v` under `key`; nothing else of any target changes. */
  function Broadcast(ts: seq<Target>, key: string, v: JsValue): (r: seq<Target>)
    ensures |r| == |ts|
    ensures forall t :: 0 <= t < |r| ==> key in r[t] && r[t][key] == v
    ensures forall t :: 0 <= t < |r| ==> r[t].Keys == ts[t].Keys + {key}
    ensures forall t, k :: 0 <= t < |r| && k in ts[t] && k != key ==> r[t][k] == ts[t][k]
  {
    seq(|ts|, t requires 0 <= t < |ts| => ts[t][key := v])
  }

  /** The writes one marker makes during a tick: its current stage's value, when it
      is running. (The value is read after the stage advanced; advancing never
      changes it.) */
  function BroadcastTrack(ts: seq<Target>, m: Marker): (r: seq<Target>)
    requires WellFormed(m)
    ensures |r| == |ts|
    ensures !m.running ==> r == ts
  {
    if m.running then Broadcast(ts, m.key, CurrentStage(m).value) else ts
  }

  /** The writes of all markers of the list, in order */
  function BroadcastAll(ts: seq<Target>, ms: seq<Marker>): (r: seq<Target>)
    requires AllWellFormed(ms)
    ensures |r| == |ts|
    decreases |ms|
  {
    if ms == [] then ts else BroadcastTrack(BroadcastAll(ts, ms[..|ms| - 1]), ms[|ms| - 1])
  }

  /** The value the last running marker with this key writes, if there is one */
  function LastWrite(ms: seq<Marker>, key: string): Option<JsValue>
    requires AllWellFormed(ms)
    decreases |ms|
  {
    if ms == [] then None
    else if ms[|ms| - 1].running && ms[|ms| - 1].key == key then Some(CurrentStage(ms[|ms| - 1]).value)
    else LastWrite(ms[..|ms| - 1], key)
  }

  /** After a tick every target holds, under each key, the value of the last running
      marker with that key, and keeps its own value under every key no running
      marker has. */
  lemma {:induction false} BroadcastAllAt(ts: seq<Target>, ms: seq<Marker>, t: nat, key: string)
    requires AllWellFormed(ms) && t < |ts|
    ensures |BroadcastAll(ts, ms)| == |ts|
    ensures key in BroadcastAll(ts, ms)[t] <==> key in ts[t] || LastWrite(ms, key).Some?
    ensures LastWrite(ms, key).Some? ==> BroadcastAll(ts, ms)[t][key] == LastWrite(ms, key).value
    ensures LastWrite(ms, key).None? && key in ts[t] ==> BroadcastAll(ts, ms)[t][key] == ts[t][key]
    decreases |ms|
  {
    if ms != [] {
      BroadcastAllAt(ts, ms[..|ms| - 1], t, key);
    }
  }

  /** Some running marker has the key exactly when a value is written under it. */
  lemma {:induction false} LastWriteFound(ms: seq<Marker>, key: string)
    requires AllWellFormed(ms)
    ensures LastWrite(ms, key).Some? <==> exists i :: 0 <= i < |ms| && ms[i].running && ms[i].key == key
    decreases |ms|
  {
    if ms != [] {
      LastWriteFound(ms[..|ms| - 1], key);
      assert forall i :: 0 <= i < |ms| - 1 ==> ms[..|ms| - 1][i] == ms[i];
    }
  }

  /** With distinct keys, the value written under a running marker's key is that
      marker's current stage value. */
  lemma {:induction false} LastWriteDistinct(ms: seq<Marker>, j: nat)
    requires AllWellFormed(ms) && DistinctKeys(ms)
    requires j < |ms| && ms[j].running
    ensures LastWrite(ms, ms[j].key) == Some(CurrentStage(ms[j]).value)
    decreases |ms|
  {
    if j < |ms| - 1 {
      var p := ms[..|ms| - 1];
      assert p[j] == ms[j];
      LastWriteDistinct(p, j);
    }
  }

  /** No running marker, no write. */
  lemma {:induction false} BroadcastAllIdle(ts: seq<Target>, ms: seq<Marker>)
    requires AllWellFormed(ms)
    requires forall i :: 0 <= i < |ms| ==> !ms[i].running
    ensures BroadcastAll(ts, ms) == ts
    decreases |ms|
  {
    if ms != [] {
      BroadcastAllIdle(ts, ms[..|ms| - 1]);
    }
  }

  datatype JsError = TypeError

  /** The inner loop of the tick as written, from target index `t` on: each
      iteration assigns `v` under `key` to `targets[i]`, where `i` is the index of
      the marker, not the loop's `t`. Assigning to a property of the missing target
      fails. */
  function TargetLoopAsWritten(ts: seq<Target>, i: nat, key: string, v: JsValue, t: nat): (r: Result<seq<Target>, JsError>)
    ensures r.Failure? <==> t < |ts| <= i
    ensures r.Success? ==> |r.value| == |ts|
    decreases |ts| - t
  {
    if t >= |ts| then Success(ts)
    else if i >= |ts| then Failure(TypeError)
    else TargetLoopAsWritten(ts[i := ts[i][key := v]], i, key, v, t + 1)
  }

  /** The loop as written, run from any iteration `t` that has not finished, has the
      outcome `BroadcastAsWritten` states: the repeated assignment is the same one. */
  lemma {:induction false} TargetLoopClosedForm(ts: seq<Target>, i: nat, key: string, v: JsValue, t: nat)
    requires t < |ts|
    ensures TargetLoopAsWritten(ts, i, key, v, t) == BroadcastAsWritten(ts, i, key, v)
    decreases |ts| - t
  {
    if i < |ts| {
      var ts' := ts[i := ts[i][key := v]];
      assert ts'[i][key := v] == ts'[i];
      assert ts'[i := ts'[i][key := v]] == ts';
      if t + 1 < |ts| {
        TargetLoopClosedForm(ts', i, key, v, t + 1);
      }
    }
  }

  /** The whole inner loop as written, from `t = 0` */
  lemma TargetLoopAsWrittenIs(ts: seq<Target>, i: nat, key: string, v: JsValue)
    ensures TargetLoopAsWritten(ts, i, key, v, 0) == BroadcastAsWritten(ts, i, key, v)
  {
    if 0 < |ts| {
      TargetLoopClosedForm(ts, i, key, v, 0);
    }
  }

  /** The outcome of that loop in closed form: it writes the one target at the
      marker's index (the same assignment once per target), and fails when there
      are targets but none at that index. */
  function BroadcastAsWritten(ts: seq<Target>, i: nat, key: string, v: JsValue): (r: Result<seq<Target>, JsError>)
    ensures r.Failure? <==> 0 < |ts| <= i
    ensures r.Success? ==> |r.value| == |ts|
    ensures r.Success? ==> forall t :: 0 <= t < |ts| && t != i ==> r.value[t] == ts[t]
    ensures r.Success? && i < |ts| ==> r.value[i] == ts[i][key := v]
  {
    if |ts| == 0 then Success(ts)
    else if i < |ts| then Success(ts[i := ts[i][key := v]])
    else Failure(TypeError)
  }

  /** Two targets and the first marker: the loop as written never writes the second
      target, while the intended write reaches both. */
  lemma AsWrittenSkipsSecondTarget()
    ensures TargetLoopAsWritten([map[], map[]], 0, "x", Number(1.0), 0) == Success([map["x" := Number(1.0)], map[]])
    ensures Broadcast([map[], map[]], "x", Number(1.0)) == [map["x" := Number(1.0)], map["x" := Number(1.0)]]
  {
    TargetLoopAsWrittenIs([map[], map[]], 0, "x", Number(1.0));
    var empty: Target := map[];
    assert empty["x" := Number(1.0)] == map["x" := Number(1.0)];
    assert [empty, empty][0 := empty["x" := Number(1.0)]] == [map["x" := Number(1.0)], empty];
    var r := Broadcast([empty, empty], "x", Number(1.0));
    assert r[0] == map["x" := Number(1.0)] && r[1] == map["x" := Number(1.0)];
  }

  /** One target and the second marker: the loop as written reads a target that does
      not exist and fails, while the intended write succeeds. */
  lemma AsWrittenFailsOnSecondMarker()
    ensures TargetLoopAsWritten([map[]], 1, "y", Number(2.0), 0) == Failure(TypeError)
    ensures Broadcast([map[]], "y", Number(2.0)) == [map["y" := Number(2.0)]]
  {
    var r := Broadcast([map[]], "y", Number(2.0));
    assert r[0] == map["y" := Number(2.0)];
  }
}
