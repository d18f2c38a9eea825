/** The pose logic of the Python Kapandji demo: joint lists read from a
    YAML gesture table, converted from degrees to radians, flattened into
    the 20 hand positions, and the torque level looked up beside them. The
    YAML loader is foreign; its result is a `Value`. */
module KapandjiPy {
  import opened Outcomes
  import opened Documents

  datatype PoseError =
    | NotNumber        // float(v) raised
    | NotIterable      // `for v in values` raised TypeError
    | Malformed        // .get on something that is not a dict (AttributeError)
    | MissingHands     // ValueError: no 'hands' section
    | GestureNotFound  // ValueError: gesture absent
    | MissingKey(key: string)  // KeyError in _pose_to_hand_positions

  const FingerKeys: seq<string> := ["thumb", "index", "middle", "ring", "pinky"]

  /** float(v) for every element, all or nothing. */
  function Floats(vs: seq<Value>, parseFloat: string -> Option<real>): (r: Option<seq<real>>)
    ensures r.Some? <==> forall i :: 0 <= i < |vs| ==> PyFloat(vs[i], parseFloat).Some?
    ensures r.Some? ==> |r.value| == |vs| && forall i :: 0 <= i < |vs| ==> Some(r.value[i]) == PyFloat(vs[i], parseFloat)
  {
    if vs == [] then Some([])
    else
      match (PyFloat(vs[0], parseFloat), Floats(vs[1..], parseFloat))
      case (Some(x), Some(rest)) => Some([x] + rest)
      case _ =>
        assert forall i :: 1 <= i < |vs| ==> vs[i] == vs[1..][i - 1];
        None
  }

  /** The joint list _parse_joint_list returns: `n` entries. */
  function JointList(values: Value, n: nat, fill: real, parseFloat: string -> Option<real>): Result<seq<real>, PoseError>
  {
    if values.Null? then Ok(seq(n, _ => fill))
    else
      match PyIter(values)
      case None => Err(NotIterable)
      case Some(items) =>
        match Floats(items, parseFloat)
        case None => Err(NotNumber)
        case Some(all) =>
          var out := all[..Min(n, |all|)];
          Ok(out + seq(n - |out|, _ => fill))
  }

  /** None gives `n` fills; otherwise every element is converted, the first
      `n` are kept and fills pad the rest. One bad element anywhere fails the
      whole list, including elements past `n`. */
  lemma JointListShape(values: Value, n: nat, fill: real, parseFloat: string -> Option<real>)
    ensures values.Null? ==> JointList(values, n, fill, parseFloat) == Ok(seq(n, _ => fill))
    ensures JointList(values, n, fill, parseFloat).Ok? ==> |JointList(values, n, fill, parseFloat).value| == n
    ensures !values.Null? && PyIter(values).None? ==> JointList(values, n, fill, parseFloat) == Err(NotIterable)
    ensures !values.Null? && PyIter(values).Some? ==>
      var items := PyIter(values).value;
      (JointList(values, n, fill, parseFloat).Ok? <==> forall i :: 0 <= i < |items| ==> PyFloat(items[i], parseFloat).Some?)
      && (JointList(values, n, fill, parseFloat).Ok? ==>
            forall i :: 0 <= i < n ==>
              JointList(values, n, fill, parseFloat).value[i]
                == if i < |items| then PyFloat(items[i], parseFloat).value else fill)
  {
  }

  method ParseJointList(values: Value, n: nat, fill: real, parseFloat: string -> Option<real>)
    returns (r: Result<seq<real>, PoseError>)
    ensures r == JointList(values, n, fill, parseFloat)
  {
    if values.Null? {
      return Ok(seq(n, _ => fill));
    }
    var items := PyIter(values);
    if items.None? {
      return Err(NotIterable);
    }
    var all: seq<real> := [];
    var i := 0;
    while i < |items.value|
      invariant 0 <= i <= |items.value|
      invariant |all| == i
      invariant forall k :: 0 <= k < i ==> Some(all[k]) == PyFloat(items.value[k], parseFloat)
    {
      var x := PyFloat(items.value[i], parseFloat);
      if x.None? {
        return Err(NotNumber);
      }
      all := all + [x.value];
      i := i + 1;
    }
    assert forall k :: 0 <= k < |items.value| ==> PyFloat(items.value[k], parseFloat).Some?;
    var converted := Floats(items.value, parseFloat);
    assert converted.value == all;
    var out := all[..Min(n, |all|)];
    if |out| < n {
      out := out + seq(n - |out|, _ => fill);
    } else {
      assert out == out + seq(n - |out|, _ => fill);
    }
    r := Ok(out);
  }

  /** deg_to_rad_list. */
  function RadianList(values: Value, n: nat, parseFloat: string -> Option<real>): (r: Result<seq<real>, PoseError>)
    ensures r.Ok? ==> |r.value| == n
    ensures r.Ok? <==> JointList(values, n, 0.0, parseFloat).Ok?
    ensures r.Ok? ==> forall i :: 0 <= i < n ==> r.value[i] == Radians(JointList(values, n, 0.0, parseFloat).value[i])
  {
    JointListShape(values, n, 0.0, parseFloat);
    match JointList(values, n, 0.0, parseFloat)
    case Err(e) => Err(e)
    case Ok(vals) => Ok(seq(n, i requires 0 <= i < n => Radians(vals[i])))
  }

  /** `(cfg or {})` as a dict: the fields, or Malformed for a true non-dict. */
  function AsDict(v: Value): Result<seq<Field>, PoseError>
  {
    if !Truthy(v) then Ok([])
    else if v.Dict? then Ok(v.fields)
    else Err(Malformed)
  }

  /** The pose of `gesture`: five fingers of four radians, a wrist of two. */
  function PoseFromYaml(gesture: string, cfg: Value, parseFloat: string -> Option<real>)
    : (r: Result<map<string, seq<real>>, PoseError>)
    ensures r.Ok? ==> r.value.Keys == {"thumb", "index", "middle", "ring", "pinky", "wrist"}
    ensures r.Ok? ==> forall f :: 0 <= f < 5 ==> |r.value[FingerKeys[f]]| == 4
    ensures r.Ok? ==> |r.value["wrist"]| == 2
    ensures cfg.Dict? && LookupOr(cfg.fields, "hands", Dict([])).Dict? && Truthy(LookupOr(cfg.fields, "hands", Dict([])))
            && LookupOr(LookupOr(cfg.fields, "hands", Dict([])).fields, gesture, Null).Dict? ==>
      r == GesturePose(LookupOr(LookupOr(cfg.fields, "hands", Dict([])).fields, gesture, Null).fields, parseFloat)
  {
    match AsDict(cfg)
    case Err(e) => Err(e)
    case Ok(top) =>
      var hands := LookupOr(top, "hands", Dict([]));
      if !Truthy(hands) then Err(MissingHands)
      else if !hands.Dict? then Err(Malformed)
      else
        var g := LookupOr(hands.fields, gesture, Null);
        if g.Null? then Err(GestureNotFound)
        else if !g.Dict? then Err(Malformed)
        else
          GesturePose(g.fields, parseFloat)
  }

  /** The pose read from one gesture's dict; the first failing list wins. */
  function GesturePose(g: seq<Field>, parseFloat: string -> Option<real>)
    : (r: Result<map<string, seq<real>>, PoseError>)
    ensures r.Ok? ==> r.value.Keys == {"thumb", "index", "middle", "ring", "pinky", "wrist"}
    ensures r.Ok? ==> forall f :: 0 <= f < 5 ==> |r.value[FingerKeys[f]]| == 4
    ensures r.Ok? ==> |r.value["wrist"]| == 2
    ensures r.Ok? && !HasKey(g, "wrist") ==> r.value["wrist"] == [0.0, 0.0]
    ensures r.Ok? <==>
      RadianList(LookupOr(g, "thumb", List([])), 4, parseFloat).Ok? && RadianList(LookupOr(g, "index", List([])), 4, parseFloat).Ok?
      && RadianList(LookupOr(g, "middle", List([])), 4, parseFloat).Ok? && RadianList(LookupOr(g, "ring", List([])), 4, parseFloat).Ok?
      && RadianList(LookupOr(g, "pinky", List([])), 4, parseFloat).Ok?
      && (HasKey(g, "wrist") ==> RadianList(LookupOr(g, "wrist", List([])), 2, parseFloat).Ok?)
    ensures r.Ok? ==>
      && r.value["thumb"] == RadianList(LookupOr(g, "thumb", List([])), 4, parseFloat).value
      && r.value["index"] == RadianList(LookupOr(g, "index", List([])), 4, parseFloat).value
      && r.value["middle"] == RadianList(LookupOr(g, "middle", List([])), 4, parseFloat).value
      && r.value["ring"] == RadianList(LookupOr(g, "ring", List([])), 4, parseFloat).value
      && r.value["pinky"] == RadianList(LookupOr(g, "pinky", List([])), 4, parseFloat).value
    ensures r.Ok? && HasKey(g, "wrist") ==> r.value["wrist"] == RadianList(LookupOr(g, "wrist", List([])), 2, parseFloat).value
  {
    var thumb := RadianList(LookupOr(g, "thumb", List([])), 4, parseFloat);
    var index := RadianList(LookupOr(g, "index", List([])), 4, parseFloat);
    var middle := RadianList(LookupOr(g, "middle", List([])), 4, parseFloat);
    var ring := RadianList(LookupOr(g, "ring", List([])), 4, parseFloat);
    var pinky := RadianList(LookupOr(g, "pinky", List([])), 4, parseFloat);
    var wrist := if HasKey(g, "wrist") then RadianList(LookupOr(g, "wrist", List([])), 2, parseFloat)
                 else Ok([0.0, 0.0]);
    if thumb.Err? then Err(thumb.error)
    else if index.Err? then Err(index.error)
    else if middle.Err? then Err(middle.error)
    else if ring.Err? then Err(ring.error)
    else if pinky.Err? then Err(pinky.error)
    else if wrist.Err? then Err(wrist.error)
    else Pose(thumb.value, index.value, middle.value, ring.value, pinky.value, wrist.value)
  }

  function Pose(thumb: seq<real>, index: seq<real>, middle: seq<real>, ring: seq<real>, pinky: seq<real>, wrist: seq<real>)
    : (r: Result<map<string, seq<real>>, PoseError>)
    requires |thumb| == |index| == |middle| == |ring| == |pinky| == 4 && |wrist| == 2
    ensures r.Ok? && r.value.Keys == {"thumb", "index", "middle", "ring", "pinky", "wrist"}
    ensures forall f :: 0 <= f < 5 ==> |r.value[FingerKeys[f]]| == 4
    ensures r.value["thumb"] == thumb && r.value["index"] == index && r.value["middle"] == middle
    ensures r.value["ring"] == ring && r.value["pinky"] == pinky && r.value["wrist"] == wrist
  {
    var m := map["thumb" := thumb, "index" := index, "middle" := middle, "ring" := ring, "pinky" := pinky, "wrist" := wrist];
    assert forall f :: 0 <= f < 5 ==> m[FingerKeys[f]] in {thumb, index, middle, ring, pinky} by {
      assert FingerKeys == ["thumb", "index", "middle", "ring", "pinky"];
    }
    Ok(m)
  }

  /** The `hands` section is missing or empty, or the gesture is absent,
      and the pose is refused with the matching error. */
  lemma PoseFromYamlRefusals(gesture: string, cfg: Value, parseFloat: string -> Option<real>)
    ensures AsDict(cfg).Ok? && !Truthy(LookupOr(AsDict(cfg).value, "hands", Dict([]))) ==>
      PoseFromYaml(gesture, cfg, parseFloat) == Err(MissingHands)
    ensures AsDict(cfg).Ok? && LookupOr(AsDict(cfg).value, "hands", Dict([])).Dict?
            && Truthy(LookupOr(AsDict(cfg).value, "hands", Dict([])))
            && LookupOr(LookupOr(AsDict(cfg).value, "hands", Dict([])).fields, gesture, Null).Null? ==>
      PoseFromYaml(gesture, cfg, parseFloat) == Err(GestureNotFound)
    ensures !Truthy(cfg) ==> PoseFromYaml(gesture, cfg, parseFloat) == Err(MissingHands)
  {
  }

  /** Without a `wrist` entry the wrist is two zeros. */
  lemma PoseWristDefault(gesture: string, cfg: Value, parseFloat: string -> Option<real>)
    requires PoseFromYaml(gesture, cfg, parseFloat).Ok?
    requires cfg.Dict?
    requires !HasKey(LookupOr(LookupOr(cfg.fields, "hands", Dict([])).fields, gesture, Null).fields, "wrist")
    ensures PoseFromYaml(gesture, cfg, parseFloat).value["wrist"] == [0.0, 0.0]
  {
  }

  /** The finger lists back to back, or KeyError for the first missing one. */
  function HandPositions(pose: map<string, seq<real>>): Result<seq<real>, PoseError>
  {
    if "thumb" !in pose then Err(MissingKey("thumb"))
    else if "index" !in pose then Err(MissingKey("index"))
    else if "middle" !in pose then Err(MissingKey("middle"))
    else if "ring" !in pose then Err(MissingKey("ring"))
    else if "pinky" !in pose then Err(MissingKey("pinky"))
    else Ok(pose["thumb"] + pose["index"] + pose["middle"] + pose["ring"] + pose["pinky"])
  }

  method PoseToHandPositions(pose: map<string, seq<real>>) returns (r: Result<seq<real>, PoseError>)
    ensures r == HandPositions(pose)
  {
    var positions: seq<real> := [];
    var f := 0;
    while f < 5
      invariant 0 <= f <= 5
      invariant forall k :: 0 <= k < f ==> FingerKeys[k] in pose
      invariant positions == PrefixPositions(pose, f)
    {
      var key := FingerKeys[f];
      if key !in pose {
        HandPositionsMissing(pose, f);
        return Err(MissingKey(key));
      }
      positions := positions + pose[key];
      f := f + 1;
    }
    HandPositionsPresent(pose);
    r := Ok(positions);
  }

  lemma HandPositionsMissing(pose: map<string, seq<real>>, f: nat)
    requires f < 5 && FingerKeys[f] !in pose
    requires forall k :: 0 <= k < f ==> FingerKeys[k] in pose
    ensures HandPositions(pose) == Err(MissingKey(FingerKeys[f]))
  {
    var keys := FingerKeys;
    assert keys == ["thumb", "index", "middle", "ring", "pinky"];
    if f > 0 { assert keys[0] in pose; }
    if f > 1 { assert keys[1] in pose; }
    if f > 2 { assert keys[2] in pose; }
    if f > 3 { assert keys[3] in pose; }
  }

  lemma HandPositionsPresent(pose: map<string, seq<real>>)
    requires forall k :: 0 <= k < 5 ==> FingerKeys[k] in pose
    ensures HandPositions(pose) == Ok(PrefixPositions(pose, 5))
  {
    var keys := FingerKeys;
    assert keys == ["thumb", "index", "middle", "ring", "pinky"];
    assert keys[0] in pose && keys[1] in pose && keys[2] in pose && keys[3] in pose && keys[4] in pose;
    assert PrefixPositions(pose, 1) == pose["thumb"];
    assert PrefixPositions(pose, 2) == pose["thumb"] + pose["index"];
    assert PrefixPositions(pose, 3) == pose["thumb"] + pose["index"] + pose["middle"];
    assert PrefixPositions(pose, 4) == pose["thumb"] + pose["index"] + pose["middle"] + pose["ring"];
  }

  /** The first `n` fingers back to back. */
  function PrefixPositions(pose: map<string, seq<real>>, n: nat): seq<real>
    requires n <= 5 && forall k :: 0 <= k < n ==> FingerKeys[k] in pose
  {
    if n == 0 then [] else PrefixPositions(pose, n - 1) + pose[FingerKeys[n - 1]]
  }

  /** For a pose with four values per finger, position 4·f + j is joint j of
      finger f. */
  lemma {:induction false} HandPositionsIndexing(pose: map<string, seq<real>>)
    requires forall f :: 0 <= f < 5 ==> FingerKeys[f] in pose && |pose[FingerKeys[f]]| == 4
    ensures HandPositions(pose).Ok?
    ensures |HandPositions(pose).value| == 20
    ensures forall f, j :: 0 <= f < 5 && 0 <= j < 4 ==> HandPositions(pose).value[4 * f + j] == pose[FingerKeys[f]][j]
  {
    var p := HandPositions(pose).value;
    assert p == pose[FingerKeys[0]] + pose[FingerKeys[1]] + pose[FingerKeys[2]] + pose[FingerKeys[3]] + pose[FingerKeys[4]];
    forall f, j | 0 <= f < 5 && 0 <= j < 4
      ensures p[4 * f + j] == pose[FingerKeys[f]][j]
    {
      if f == 0 {} else if f == 1 {} else if f == 2 {} else if f == 3 {} else {}
    }
  }

  /** Every parsed pose flattens into 20 positions. */
  lemma PoseFlattens(gesture: string, cfg: Value, parseFloat: string -> Option<real>)
    requires PoseFromYaml(gesture, cfg, parseFloat).Ok?
    ensures HandPositions(PoseFromYaml(gesture, cfg, parseFloat).value).Ok?
    ensures |HandPositions(PoseFromYaml(gesture, cfg, parseFloat).value).value| == 20
  {
    HandPositionsIndexing(PoseFromYaml(gesture, cfg, parseFloat).value);
  }

  const DefaultTorque: real := 0.45

  /** `level in tmap`: a dict key, a list element, a substring; TypeError
      (None) otherwise. */
  function Contains(container: Value, level: string): Option<bool>
  {
    match container
    case Dict(fs) => Some(HasKey(fs, level))
    case List(items) => Some(Str(level) in items)
    case Str(s) => Some(exists i, j :: 0 <= i <= j <= |s| && s[i..j] == level)
    case _ => None
  }

  /** The torque level: the try block over `default_torque_level` and
      `torque_map`, with 0.45 kept on any exception. */
  function TorqueLevel(cfg: Value, parseFloat: string -> Option<real>): real
  {
    match AsDict(cfg)
    case Err(_) => DefaultTorque
    case Ok(top) =>
      var level := LookupOr(top, "default_torque_level", Null);
      var tmap0 := LookupOr(top, "torque_map", Dict([]));
      var tmap := if Truthy(tmap0) then tmap0 else Dict([]);
      if !level.Str? then DefaultTorque
      else
        match Contains(tmap, level.s)
        case None => DefaultTorque
        case Some(false) => DefaultTorque
        case Some(true) =>
          if !tmap.Dict? then DefaultTorque   // tmap[level] on a list or string raises
          else
            match PyFloat(LookupOr(tmap.fields, level.s, Null), parseFloat)
            case None => DefaultTorque
            case Some(x) => x
  }

  /** The level is taken from the map only when the config is a dict whose
      `default_torque_level` is a string naming a key of a dict `torque_map`
      whose entry is a number; every other case keeps 0.45. */
  lemma TorqueLevelFallback(cfg: Value, parseFloat: string -> Option<real>)
    ensures
      var chosen :=
        cfg.Dict? && LookupOr(cfg.fields, "default_torque_level", Null).Str?
        && LookupOr(cfg.fields, "torque_map", Null).Dict?
        && HasKey(LookupOr(cfg.fields, "torque_map", Null).fields, LookupOr(cfg.fields, "default_torque_level", Null).s)
        && PyFloat(LookupOr(LookupOr(cfg.fields, "torque_map", Null).fields,
                            LookupOr(cfg.fields, "default_torque_level", Null).s, Null), parseFloat).Some?;
      TorqueLevel(cfg, parseFloat) ==
        if chosen then
          PyFloat(LookupOr(LookupOr(cfg.fields, "torque_map", Null).fields,
                           LookupOr(cfg.fields, "default_torque_level", Null).s, Null), parseFloat).value
        else DefaultTorque
  {
  }
}
