/**
 * The configuration aggregator: the whole configuration as the getters read
 * it, the merge of an update into it, and the setters each library re-issues
 * afterwards.
 *
 * Settings are JSON-like values. The JavaScript libraries merge with
 * `deep_update`, which recurses into objects in place; the Python tool merges
 * with `updated_config`, which replaces top-level keys and merges only the
 * controllers one level deep.
 */
module Config {
  import opened Common

  datatype Scalar = Str(s: string) | Num(n: int) | Bool(b: bool) | Null | Undefined

  /** A settings value: a scalar, or an object of named values. */
  datatype Json = Leaf(value: Scalar) | Obj(fields: map<string, Json>)

  type Dict = map<string, Json>

  const USER_MODE: string := "user_mode"
  const MIDI_CHANNEL: string := "midi_channel"
  const THRESHOLD: string := "threshold"
  const VELOCITY: string := "velocity"
  const CONTROLLERS: string := "controllers"
  const EASY_CONNECT: string := "easy_connect"
  const MAINTAIN_NOTE: string := "maintain_note"
  const SMOOTH_ACC: string := "smooth_acc"

  /** What `get_re_corder_config` and the start of `update_settings` read from the device. */
  datatype Reading = Reading(userMode: Json, midiChannel: Json, threshold: Json, velocity: Json,
                             controllers: Json, easyConnect: Json, maintainNote: Json, smoothAcc: Json)

  /** The configuration object built from a reading, one key per setting. */
  function AsConfig(r: Reading): (d: Dict)
    ensures USER_MODE in d && d[USER_MODE] == r.userMode
    ensures MIDI_CHANNEL in d && d[MIDI_CHANNEL] == r.midiChannel
    ensures THRESHOLD in d && d[THRESHOLD] == r.threshold && VELOCITY in d && d[VELOCITY] == r.velocity
    ensures CONTROLLERS in d && d[CONTROLLERS] == r.controllers
    ensures EASY_CONNECT in d && d[EASY_CONNECT] == r.easyConnect
    ensures MAINTAIN_NOTE in d && d[MAINTAIN_NOTE] == r.maintainNote && SMOOTH_ACC in d && d[SMOOTH_ACC] == r.smoothAcc
  {
    map[USER_MODE := r.userMode, MIDI_CHANNEL := r.midiChannel, THRESHOLD := r.threshold,
        VELOCITY := r.velocity, CONTROLLERS := r.controllers, EASY_CONNECT := r.easyConnect,
        MAINTAIN_NOTE := r.maintainNote, SMOOTH_ACC := r.smoothAcc]
  }

  /** A key that is absent reads as `undefined` (inherited properties are not modelled). */
  function Get(d: Dict, key: string): Json
  {
    if key in d then d[key] else Leaf(Undefined)
  }

  // ---- deep_update ------------------------------------------------------------

  /**
   * deep_update of a target that is not an object with the object v
   * succeeds. Reading a property of `undefined` or `null` is a TypeError, so
   * only an empty object gets through there. Reading a property of a string,
   * number or boolean gives `undefined`, and assigning one is a TypeError in
   * strict code, so there only empty objects may sit below v.
   */
  predicate AppliesToScalar(target: Json, v: Dict)
  {
    if target == Leaf(Undefined) || target == Leaf(Null) then v == map[]
    else forall k :: k in v ==> v[k] == Obj(map[])
  }

  /**
   * deep_update succeeds: every object of the update either lands on an
   * object of the settings and merges into it, or applies to what is there.
   */
  predicate Mergeable(a: Dict, b: Dict)
    decreases Obj(b)
  {
    forall k :: k in b && b[k].Obj? ==>
      if k in a && a[k].Obj? then (assert b[k] in b.Values; Mergeable(a[k].fields, b[k].fields))
      else AppliesToScalar(Get(a, k), b[k].fields)
  }

  /** The keys an update adds: its scalar values. Object values only reach existing objects. */
  function LeafKeys(b: Dict): set<string>
  {
    set k | k in b && b[k].Leaf?
  }

  /**
   * `deep_update(obj1, obj2)`: keys absent from the update keep their values,
   * scalar values overwrite, object values are merged recursively into
   * objects, and an empty object, or one that reaches no object, changes
   * nothing.
   */
  function Merge(a: Dict, b: Dict): (r: Dict)
    requires Mergeable(a, b)
    ensures r.Keys == a.Keys + LeafKeys(b)
    decreases Obj(b)
  {
    map k | k in a.Keys + LeafKeys(b) ::
      if k !in b || (b[k].Obj? && (b[k].fields == map[] || !a[k].Obj?)) then a[k]
      else if b[k].Leaf? then b[k]
      else (assert b[k] in b.Values; Obj(Merge(a[k].fields, b[k].fields)))
  }

  function DeepMerged(a: Dict, b: Dict): (r: Result<Dict>)
    ensures r.Err? ==> r.error == ShapeMismatch
  {
    if Mergeable(a, b) then Ok(Merge(a, b)) else Err(ShapeMismatch)
  }

  /** The update restricted to the keys already applied (those not in todo). */
  function Applied(b: Dict, todo: set<string>): (r: Dict)
    ensures r.Keys == b.Keys - todo
    ensures forall k :: k in r ==> r[k] == b[k]
  {
    map k | k in b.Keys - todo :: b[k]
  }

  /** A key the update does not mention keeps its value through the merge. */
  lemma MergeUntouched(a: Dict, b: Dict, key: string)
    requires Mergeable(a, b) && key !in b
    ensures key in Merge(a, b) <==> key in a
    ensures key in a ==> Merge(a, b)[key] == a[key]
  {
  }

  /** One more key of the update keeps the update applicable when its value lands well. */
  lemma MergeableExtend(a: Dict, b: Dict, key: string, v: Json)
    requires Mergeable(a, b)
    requires v.Obj? ==> if key in a && a[key].Obj? then Mergeable(a[key].fields, v.fields)
                        else AppliesToScalar(Get(a, key), v.fields)
    ensures Mergeable(a, b[key := v])
  {
    var b' := b[key := v];
    forall k | k in b' && b'[k].Obj?
      ensures if k in a && a[k].Obj? then Mergeable(a[k].fields, b'[k].fields)
              else AppliesToScalar(Get(a, k), b'[k].fields)
    {
      if k != key {
        assert b'[k] == b[k];
      }
    }
  }

  /** One more key of the update leaves the merge of every other key as it was. */
  lemma MergeOthers(a: Dict, b: Dict, key: string, v: Json)
    requires Mergeable(a, b) && Mergeable(a, b[key := v])
    ensures forall k :: k != key ==> (k in Merge(a, b[key := v]) <==> k in Merge(a, b))
    ensures forall k :: k != key && k in Merge(a, b) ==> Merge(a, b[key := v])[k] == Merge(a, b)[k]
  {
    var b' := b[key := v];
    var m, m' := Merge(a, b), Merge(a, b');
    forall k | k != key
      ensures k in m' <==> k in m
      ensures k in m ==> m'[k] == m[k]
    {
      assert k in b' <==> k in b;
      if k in b {
        assert b'[k] == b[k];
      }
    }
  }

  /** Applying one more scalar of the update overwrites that key. */
  lemma MergeExtendLeaf(a: Dict, b: Dict, key: string, v: Json)
    requires Mergeable(a, b) && key !in b && v.Leaf?
    ensures Mergeable(a, b[key := v])
    ensures Merge(a, b[key := v]) == Merge(a, b)[key := v]
  {
    MergeableExtend(a, b, key, v);
    MergeOthers(a, b, key, v);
  }

  /** Applying one more object of the update to an object of the settings merges the two. */
  lemma MergeExtendObj(a: Dict, b: Dict, key: string, v: Json)
    requires Mergeable(a, b) && key !in b && v.Obj?
    requires key in a && a[key].Obj? && Mergeable(a[key].fields, v.fields)
    ensures Mergeable(a, b[key := v])
    ensures Merge(a, b[key := v]) == Merge(a, b)[key := Obj(Merge(a[key].fields, v.fields))]
  {
    MergeableExtend(a, b, key, v);
    MergeOthers(a, b, key, v);
    MergeAtObj(a, b[key := v], key);
    MapUpdated(Merge(a, b[key := v]), Merge(a, b), key, Obj(Merge(a[key].fields, v.fields)));
  }

  /** An object of the update that lands on an object of the settings is merged into it. */
  lemma MergeAtObj(a: Dict, b: Dict, key: string)
    requires Mergeable(a, b) && key in b && b[key].Obj?
    requires key in a && a[key].Obj? && Mergeable(a[key].fields, b[key].fields)
    ensures key in Merge(a, b) && Merge(a, b)[key] == Obj(Merge(a[key].fields, b[key].fields))
  {
    if b[key].fields == map[] {
      MergeEmpty(a[key].fields);
    }
  }

  /** Applying one more object where the settings hold no object, and which applies there, changes nothing. */
  lemma MergeExtendScalar(a: Dict, b: Dict, key: string, v: Json)
    requires Mergeable(a, b) && key !in b && v.Obj?
    requires !(key in a && a[key].Obj?) && AppliesToScalar(Get(a, key), v.fields)
    ensures Mergeable(a, b[key := v])
    ensures Merge(a, b[key := v]) == Merge(a, b)
  {
    MergeableExtend(a, b, key, v);
    MergeOthers(a, b, key, v);
    MergeUntouched(a, b, key);
  }

  /** Moving one key from todo to the applied part of the update. */
  lemma AppliedStep(b: Dict, todo: set<string>, key: string)
    requires key in todo && key in b
    ensures key !in Applied(b, todo)
    ensures Applied(b, todo - {key}) == Applied(b, todo)[key := b[key]]
  {
  }

  /** deep_update itself: the update's keys applied one at a time to the settings. */
  method DeepUpdate(obj1: Dict, obj2: Dict) returns (r: Result<Dict>)
    ensures r == DeepMerged(obj1, obj2)
    decreases Obj(obj2), 1
  {
    var conf := obj1;
    var todo := obj2.Keys;
    assert Applied(obj2, todo) == map[];
    while todo != {}
      invariant todo <= obj2.Keys
      invariant Mergeable(obj1, Applied(obj2, todo))
      invariant conf == Merge(obj1, Applied(obj2, todo))
      decreases |todo|
    {
      var key :| key in todo;
      var next := ApplyKey(obj1, obj2, todo, conf, key);
      if next.Err? {
        return next;
      }
      conf := next.value;
      todo := todo - {key};
    }
    assert Applied(obj2, todo) == obj2;
    r := Ok(conf);
  }

  /**
   * One turn of deep_update's loop: key of the update applied to conf, the
   * settings with the keys outside todo already applied. Fails exactly when
   * the key holds an object that neither lands on an object nor applies to
   * the value there.
   */
  method ApplyKey(obj1: Dict, obj2: Dict, todo: set<string>, conf: Dict, key: string) returns (next: Result<Dict>)
    requires key in todo && todo <= obj2.Keys
    requires Mergeable(obj1, Applied(obj2, todo)) && conf == Merge(obj1, Applied(obj2, todo))
    ensures next.Err? ==> next == Err(ShapeMismatch) && !Mergeable(obj1, obj2)
    ensures next.Ok? ==> Mergeable(obj1, Applied(obj2, todo - {key}))
    ensures next.Ok? ==> next.value == Merge(obj1, Applied(obj2, todo - {key}))
    decreases Obj(obj2), 0
  {
    var v := obj2[key];
    ghost var done := Applied(obj2, todo);
    AppliedStep(obj2, todo, key);
    MergeUntouched(obj1, done, key);
    if v.Obj? {
      if key in conf && conf[key].Obj? {
        assert v in obj2.Values;
        var inner := DeepUpdate(conf[key].fields, v.fields);
        if inner.Err? {
          return inner;
        }
        MergeExtendObj(obj1, done, key, v);
        next := Ok(conf[key := Obj(inner.value)]);
      } else if !AppliesToScalar(Get(conf, key), v.fields) {
        next := Err(ShapeMismatch);
      } else {
        MergeExtendScalar(obj1, done, key, v);
        next := Ok(conf);
      }
    } else {
      MergeExtendLeaf(obj1, done, key, v);
      next := Ok(conf[key := v]);
    }
  }

  /** An empty update changes nothing. */
  lemma MergeEmpty(a: Dict)
    ensures Mergeable(a, map[]) && Merge(a, map[]) == a
  {
  }

  /** An update without objects is a plain key-by-key overwrite (`Object.assign`, `dict.update`). */
  lemma MergeFlat(a: Dict, b: Dict)
    requires forall k :: k in b ==> b[k].Leaf?
    ensures Mergeable(a, b) && Merge(a, b) == a + b
  {
  }

  /**
   * An object of the update that reaches a scalar of the settings never
   * changes it. On `undefined` or `null` it gets through only when empty; on a
   * string, number or boolean, whenever it holds empty objects only.
   */
  lemma MergeOntoScalar(a: Dict, key: string, v: Dict)
    requires key in a && a[key].Leaf?
    ensures a[key] == Leaf(Undefined) || a[key] == Leaf(Null) ==>
              (Mergeable(a, map[key := Obj(v)]) <==> v == map[])
    ensures a[key] != Leaf(Undefined) && a[key] != Leaf(Null) ==>
              (Mergeable(a, map[key := Obj(v)]) <==> forall k :: k in v ==> v[k] == Obj(map[]))
    ensures Mergeable(a, map[key := Obj(v)]) ==> Merge(a, map[key := Obj(v)]) == a
  {
    var b := map[key := Obj(v)];
    assert b.Keys == {key};
    if Mergeable(a, b) {
      var m := Merge(a, b);
      assert m.Keys == a.Keys;
      forall k | k in a
        ensures m[k] == a[k]
      {
      }
    }
  }

  /** Applying the same update twice is applying it once. */
  lemma {:induction false} MergeIdempotent(a: Dict, b: Dict)
    requires Mergeable(a, b)
    ensures Mergeable(Merge(a, b), b)
    ensures Merge(Merge(a, b), b) == Merge(a, b)
    decreases Obj(b)
  {
    var m := Merge(a, b);
    forall k | k in b && b[k].Obj? && k in a && a[k].Obj?
      ensures k in m && m[k].Obj? && Mergeable(m[k].fields, b[k].fields)
      ensures Merge(m[k].fields, b[k].fields) == m[k].fields
    {
      assert b[k] in b.Values;
      MergeIdempotent(a[k].fields, b[k].fields);
    }
    var mm := Merge(m, b);
    forall k | k in mm
      ensures k in m && mm[k] == m[k]
    {
    }
  }

  // ---- setter plans -----------------------------------------------------------

  /** A setter call with the values it is given. */
  datatype Call =
    | SetUserModeCall(mode: Json)
    | SetMidiChannelCall(channel: Json)
    | SetEasyConnectCall(on: Json)
    | SetSensitivityCall(threshold: Json, velocity: Json)
    | SetSmoothingCall(maintainNote: Json, smoothAcc: Json)
    | SetControllersCall(controllers: Json)
    | SetChartCall(keyboard: bool)

  /** The call takes its values from the merged configuration conf. */
  predicate Carries(conf: Dict, c: Call)
  {
    match c
    case SetUserModeCall(m) => m == Get(conf, USER_MODE)
    case SetMidiChannelCall(ch) => ch == Get(conf, MIDI_CHANNEL)
    case SetEasyConnectCall(on) => on == Get(conf, EASY_CONNECT)
    case SetSensitivityCall(t, v) => t == Get(conf, THRESHOLD) && v == Get(conf, VELOCITY)
    case SetSmoothingCall(m, s) => m == Get(conf, MAINTAIN_NOTE) && s == Get(conf, SMOOTH_ACC)
    case SetControllersCall(c) => c == Get(conf, CONTROLLERS)
    case SetChartCall(kb) => kb <==> Get(conf, USER_MODE) == Leaf(Str("Keyboard"))
  }

  predicate AllCarry(conf: Dict, calls: seq<Call>)
  {
    forall i :: 0 <= i < |calls| ==> Carries(conf, calls[i])
  }

  /** Position of a setter in the JavaScript `set_re_corder_config` sequence. */
  function JsRank(c: Call): nat
  {
    match c
    case SetUserModeCall(_) => 0
    case SetMidiChannelCall(_) => 1
    case SetEasyConnectCall(_) => 2
    case SetSensitivityCall(_, _) => 3
    case SetSmoothingCall(_, _) => 4
    case SetControllersCall(_) => 5
    case SetChartCall(_) => 6
  }

  /** Position of a setter in the Python `update_settings` sequence. */
  function PyRank(c: Call): nat
  {
    match c
    case SetUserModeCall(_) => 0
    case SetMidiChannelCall(_) => 1
    case SetSensitivityCall(_, _) => 2
    case SetControllersCall(_) => 3
    case SetEasyConnectCall(_) => 4
    case SetSmoothingCall(_, _) => 5
    case SetChartCall(_) => 6
  }

  /**
   * The JavaScript setters, each with the condition under which it is
   * called: mode and channel only when they differ from what was read, then
   * always easy-connect, sensitivity, smoothing and controllers.
   */
  function JsSteps(conf: Dict, oldMode: Json, oldChannel: Json): seq<(bool, Call)>
  {
    [(Get(conf, USER_MODE) != oldMode, SetUserModeCall(Get(conf, USER_MODE))),
     (Get(conf, MIDI_CHANNEL) != oldChannel, SetMidiChannelCall(Get(conf, MIDI_CHANNEL))),
     (true, SetEasyConnectCall(Get(conf, EASY_CONNECT))),
     (true, SetSensitivityCall(Get(conf, THRESHOLD), Get(conf, VELOCITY))),
     (true, SetSmoothingCall(Get(conf, MAINTAIN_NOTE), Get(conf, SMOOTH_ACC))),
     (true, SetControllersCall(Get(conf, CONTROLLERS)))]
  }

  /** The setters `set_re_corder_config` calls once the configuration is merged. */
  function JsPlan(conf: Dict, oldMode: Json, oldChannel: Json): seq<Call>
  {
    Guarded(JsSteps(conf, oldMode, oldChannel))
  }

  /** Mode and channel are re-sent exactly when the merge changed them; the other four groups always are. */
  lemma JsPlanContents(conf: Dict, oldMode: Json, oldChannel: Json)
    ensures var ranks := Map(JsRank, JsPlan(conf, oldMode, oldChannel));
      (0 in ranks <==> Get(conf, USER_MODE) != oldMode) &&
      (1 in ranks <==> Get(conf, MIDI_CHANNEL) != oldChannel) &&
      2 in ranks && 3 in ranks && 4 in ranks && 5 in ranks && 6 !in ranks
  {
    GuardedMembers(JsSteps(conf, oldMode, oldChannel), JsRank, 0);
  }

  /** Each setter at most once, in the order of `set_re_corder_config`. */
  lemma JsPlanOrdered(conf: Dict, oldMode: Json, oldChannel: Json)
    ensures Increasing(Map(JsRank, JsPlan(conf, oldMode, oldChannel)))
  {
    GuardedIncreasing(JsSteps(conf, oldMode, oldChannel), JsRank, 0);
  }

  /** Every setter is given the merged values. */
  lemma JsPlanCarries(conf: Dict, oldMode: Json, oldChannel: Json)
    ensures AllCarry(conf, JsPlan(conf, oldMode, oldChannel))
  {
    GuardedAll(JsSteps(conf, oldMode, oldChannel), c => Carries(conf, c));
  }

  /**
   * `set_re_corder_config` (js/re_corder_utils.js, and docs/re_corder.js
   * around JSON text): read, deep-update, then the setters of JsPlan against
   * the mode and channel as read; the merged configuration is the result.
   */
  method JsSetConfig(read: Reading, update: Dict) returns (r: Result<(Dict, seq<Call>)>)
    ensures r.Err? <==> !Mergeable(AsConfig(read), update)
    ensures r.Err? ==> r.error == ShapeMismatch
    ensures r.Ok? ==> r.value.0 == Merge(AsConfig(read), update)
    ensures r.Ok? ==> r.value.1 == JsPlan(r.value.0, read.userMode, read.midiChannel)
  {
    var conf := AsConfig(read);
    var oldMode, oldChannel := conf[USER_MODE], conf[MIDI_CHANNEL];
    var merged := DeepUpdate(conf, update);
    if merged.Err? {
      return Err(merged.error);
    }
    conf := merged.value;
    r := Ok((conf, JsPlan(conf, oldMode, oldChannel)));
  }

  /** When neither mode nor channel changed, the JavaScript libraries send exactly the four groups. */
  lemma JsPlanUnchanged(conf: Dict)
    ensures JsPlan(conf, Get(conf, USER_MODE), Get(conf, MIDI_CHANNEL)) ==
              [SetEasyConnectCall(Get(conf, EASY_CONNECT)),
               SetSensitivityCall(Get(conf, THRESHOLD), Get(conf, VELOCITY)),
               SetSmoothingCall(Get(conf, MAINTAIN_NOTE), Get(conf, SMOOTH_ACC)),
               SetControllersCall(Get(conf, CONTROLLERS))]
  {
    var steps := JsSteps(conf, Get(conf, USER_MODE), Get(conf, MIDI_CHANNEL));
    assert steps[6..] == [];
    GuardedFrom(steps, 5);
    assert Guarded(steps[5..]) == [steps[5].1];
    GuardedFrom(steps, 4);
    assert Guarded(steps[4..]) == [steps[4].1, steps[5].1];
    GuardedFrom(steps, 3);
    assert Guarded(steps[3..]) == [steps[3].1, steps[4].1, steps[5].1];
    GuardedFrom(steps, 2);
    assert Guarded(steps[2..]) == [steps[2].1, steps[3].1, steps[4].1, steps[5].1];
    GuardedSkip(steps, 2);
  }

  /** With an empty update the JavaScript libraries re-send the four groups as read, and nothing else. */
  lemma JsEmptyUpdate(read: Reading)
    ensures Mergeable(AsConfig(read), map[])
    ensures JsPlan(Merge(AsConfig(read), map[]), read.userMode, read.midiChannel) ==
              [SetEasyConnectCall(read.easyConnect),
               SetSensitivityCall(read.threshold, read.velocity),
               SetSmoothingCall(read.maintainNote, read.smoothAcc),
               SetControllersCall(read.controllers)]
  {
    MergeEmpty(AsConfig(read));
    JsPlanUnchanged(AsConfig(read));
  }

  // ---- updated_config and update_settings ---------------------------------------

  /** The controllers of a settings dictionary, `config.get(CONTROLLERS, {})`. */
  function Controllers(d: Dict): Json
  {
    if CONTROLLERS in d then d[CONTROLLERS] else Obj(map[])
  }

  /**
   * What `ctrls.update(x)` adds to the controllers: a dictionary's entries.
   * An empty string is an empty iterable and adds nothing; every other value
   * raises (a non-empty string yields items of length 1 where pairs are
   * needed, and numbers, booleans and None are not iterable).
   */
  function ControllerEntries(v: Json): (r: Option<Dict>)
    ensures r.Some? <==> v.Obj? || v == Leaf(Str(""))
    ensures r.Some? && v.Obj? ==> r.value == v.fields
    ensures r.Some? && v.Leaf? ==> r.value == map[]
  {
    match v
    case Obj(fields) => Some(fields)
    case Leaf(Str(s)) => if s == "" then Some(map[]) else None
    case _ => None
  }

  /**
   * `updated_config(config, new_config)`: every top-level key of the update
   * takes its new value and every other key keeps its old one, except that
   * the controllers are merged one level deep (controller names the update
   * does not mention keep their entries; the ones it mentions are replaced
   * whole). When the merged controllers are empty, the controllers key is
   * left as `config.update` set it. Controllers of the settings that are not
   * a dictionary, or of the update that `dict.update` cannot take, raise.
   */
  function PyUpdatedConfig(config: Dict, update: Dict): (r: Result<Dict>)
    ensures r.Err? <==> !Controllers(config).Obj? || ControllerEntries(Controllers(update)).None?
    ensures r.Err? ==> r.error == ShapeMismatch
    ensures r.Ok? ==> forall k :: k != CONTROLLERS ==> (k in r.value <==> k in config || k in update)
    ensures r.Ok? ==> forall k :: k != CONTROLLERS && k in update ==> r.value[k] == update[k]
    ensures r.Ok? ==> forall k :: k != CONTROLLERS && k !in update && k in config ==> r.value[k] == config[k]
    ensures r.Ok? ==> (CONTROLLERS in r.value <==> CONTROLLERS in config || CONTROLLERS in update)
    ensures r.Ok? && CONTROLLERS in r.value ==>
              var merged := r.value[CONTROLLERS];
              var before, after := Controllers(config).fields, ControllerEntries(Controllers(update)).value;
              if before == map[] && after == map[] then
                merged == (if CONTROLLERS in update then update[CONTROLLERS] else config[CONTROLLERS])
              else
                merged.Obj? &&
                (forall name :: name in merged.fields <==> name in before || name in after) &&
                (forall name :: name in after ==> merged.fields[name] == after[name]) &&
                (forall name :: name in before && name !in after ==> merged.fields[name] == before[name])
  {
    var before, after := Controllers(config), ControllerEntries(Controllers(update));
    if !before.Obj? || after.None? then Err(ShapeMismatch)
    else
      var ctrls := before.fields + after.value;
      var merged := config + update;
      Ok(if ctrls != map[] then merged[CONTROLLERS := Obj(ctrls)] else merged)
  }

  /**
   * The Python setters, each with the condition under which it is called:
   * when the update names one of its keys, and the chart when one is given,
   * encoded for keyboard mode exactly when the merged mode is Keyboard.
   */
  function PySteps(conf: Dict, update: Dict, chart: bool): seq<(bool, Call)>
  {
    [(USER_MODE in update, SetUserModeCall(Get(conf, USER_MODE))),
     (MIDI_CHANNEL in update, SetMidiChannelCall(Get(conf, MIDI_CHANNEL))),
     (THRESHOLD in update || VELOCITY in update, SetSensitivityCall(Get(conf, THRESHOLD), Get(conf, VELOCITY))),
     (CONTROLLERS in update, SetControllersCall(Get(conf, CONTROLLERS))),
     (EASY_CONNECT in update, SetEasyConnectCall(Get(conf, EASY_CONNECT))),
     (MAINTAIN_NOTE in update || SMOOTH_ACC in update, SetSmoothingCall(Get(conf, MAINTAIN_NOTE), Get(conf, SMOOTH_ACC))),
     (chart, SetChartCall(Get(conf, USER_MODE) == Leaf(Str("Keyboard"))))]
  }

  /** The setters `update_settings` calls once the configuration is merged. */
  function PyPlan(conf: Dict, update: Dict, chart: bool): seq<Call>
  {
    Guarded(PySteps(conf, update, chart))
  }

  /** A setter is called exactly when the update names one of its keys; the chart exactly when one is given. */
  lemma PyPlanContents(conf: Dict, update: Dict, chart: bool)
    ensures var ranks := Map(PyRank, PyPlan(conf, update, chart));
      (0 in ranks <==> USER_MODE in update) &&
      (1 in ranks <==> MIDI_CHANNEL in update) &&
      (2 in ranks <==> THRESHOLD in update || VELOCITY in update) &&
      (3 in ranks <==> CONTROLLERS in update) &&
      (4 in ranks <==> EASY_CONNECT in update) &&
      (5 in ranks <==> MAINTAIN_NOTE in update || SMOOTH_ACC in update) &&
      (6 in ranks <==> chart)
  {
    GuardedMembers(PySteps(conf, update, chart), PyRank, 0);
  }

  /** Each setter at most once, in the order of `update_settings`. */
  lemma PyPlanOrdered(conf: Dict, update: Dict, chart: bool)
    ensures Increasing(Map(PyRank, PyPlan(conf, update, chart)))
  {
    GuardedIncreasing(PySteps(conf, update, chart), PyRank, 0);
  }

  /** Every setter is given the merged values, and the chart the encoding the merged mode calls for. */
  lemma PyPlanCarries(conf: Dict, update: Dict, chart: bool)
    ensures AllCarry(conf, PyPlan(conf, update, chart))
  {
    GuardedAll(PySteps(conf, update, chart), c => Carries(conf, c));
  }

  /**
   * `update_settings(r, new_conf, chart)`: read, merge with updated_config,
   * then the setters of PyPlan; the merged configuration is the result.
   */
  method PyUpdateSettings(read: Reading, update: Dict, chart: bool) returns (r: Result<(Dict, seq<Call>)>)
    ensures r.Err? <==> PyUpdatedConfig(AsConfig(read), update).Err?
    ensures r.Err? ==> r.error == ShapeMismatch
    ensures r.Ok? ==> r.value.0 == PyUpdatedConfig(AsConfig(read), update).value
    ensures r.Ok? ==> r.value.1 == PyPlan(r.value.0, update, chart)
  {
    var conf := AsConfig(read);
    var merged := PyUpdatedConfig(conf, update);
    if merged.Err? {
      return Err(merged.error);
    }
    conf := merged.value;
    r := Ok((conf, PyPlan(conf, update, chart)));
  }

  /** An update that names no setting calls no setter but the chart's. */
  lemma PyPlanEmpty(conf: Dict, chart: bool)
    ensures PyPlan(conf, map[], chart) == Opt(chart, SetChartCall(Get(conf, USER_MODE) == Leaf(Str("Keyboard"))))
  {
    var steps := PySteps(conf, map[], chart);
    GuardedSkip(steps, 6);
    GuardedFrom(steps, 6);
    assert steps[7..] == [];
  }

  /**
   * With an empty update the Python tool returns the configuration as read
   * (whose controllers, as read, are an object) and calls no setter but the
   * chart's.
   */
  lemma PyEmptyUpdate(read: Reading, chart: bool)
    requires read.controllers.Obj?
    ensures PyUpdatedConfig(AsConfig(read), map[]) == Ok(AsConfig(read))
    ensures PyPlan(AsConfig(read), map[], chart) == Opt(chart, SetChartCall(read.userMode == Leaf(Str("Keyboard"))))
  {
    var conf := AsConfig(read);
    assert read.controllers.fields + map[] == read.controllers.fields;
    assert conf + map[] == conf;
    assert conf[CONTROLLERS := Obj(read.controllers.fields)] == conf;
    PyPlanEmpty(conf, chart);
  }
}
