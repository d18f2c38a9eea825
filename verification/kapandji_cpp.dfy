/** The pose logic of the C++ Kapandji demo over yaml-cpp nodes: joint lists
    converted to radians while they are read, the pose map, its flattening
    into 20 positions and the two wrist values streamed beside them. */
module KapandjiCpp {
  import opened Outcomes
  import opened Documents
  import KapandjiPy

  /** A yaml-cpp node: looking up an absent key gives an undefined node,
      which converts to false. */
  datatype Node = Undefined | Defined(v: Value)

  /** `node[key]` on a const node: the entry of a map, else undefined. */
  function Sub(node: Node, key: string): (r: Node)
    ensures r.Defined? ==> node.Defined? && node.v.Dict? && HasKey(node.v.fields, key)
  {
    match node
    case Defined(Dict(fs)) =>
      (match Lookup(fs, key)
       case Some(v) => Defined(v)
       case None => Undefined)
    case _ => Undefined
  }

  datatype YamlError =
    | BadConversion    // YAML::BadConversion from as<double>()
    | MissingHands     // runtime_error: no 'hands' section
    | GestureNotFound  // runtime_error: gesture absent

  /** `as<double>()` on a scalar: numbers, and text read by `parseDouble`. */
  function AsDouble(v: Value, parseDouble: string -> Option<real>): Option<real>
  {
    match v
    case Num(n) => Some(n)
    case Str(s) => parseDouble(s)
    case _ => None
  }

  /** The vector parseJointList returns: `n` entries, of which the first
      min(n, size) come from a sequence node in radians and the rest are
      `fill`; only those first entries are converted. */
  function JointList(node: Node, n: nat, fill: real, parseDouble: string -> Option<real>)
    : (r: Result<seq<real>, YamlError>)
    ensures r.Ok? ==> |r.value| == n
  {
    match node
    case Defined(List(items)) =>
      var k := Min(n, |items|);
      if forall i :: 0 <= i < k ==> AsDouble(items[i], parseDouble).Some? then
        Ok(seq(n, i requires 0 <= i < n => if i < k then Radians(AsDouble(items[i], parseDouble).value) else fill))
      else Err(BadConversion)
    case _ => Ok(seq(n, _ => fill))
  }

  /** parseJointList returns `n` entries: for a sequence node the first
      min(n, size) come from the node in radians and the rest are `fill`,
      and only those first entries are converted; any other node gives `n`
      fills. */
  lemma JointListShape(node: Node, n: nat, fill: real, parseDouble: string -> Option<real>)
    ensures !(node.Defined? && node.v.List?) ==> JointList(node, n, fill, parseDouble) == Ok(seq(n, _ => fill))
    ensures node.Defined? && node.v.List? ==>
      var items := node.v.items;
      var r := JointList(node, n, fill, parseDouble);
      (r.Ok? <==> forall i :: 0 <= i < Min(n, |items|) ==> AsDouble(items[i], parseDouble).Some?)
      && (r.Ok? ==> forall i :: 0 <= i < n ==>
            r.value[i] == if i < |items| then Radians(AsDouble(items[i], parseDouble).value) else fill)
  {
  }

  method ParseJointList(node: Node, n: nat, fill: real, parseDouble: string -> Option<real>)
    returns (r: Result<seq<real>, YamlError>)
    ensures r == JointList(node, n, fill, parseDouble)
  {
    var out := new real[n](_ => fill);
    if node.Defined? && node.v.List? {
      var items := node.v.items;
      var i := 0;
      while i < n && i < |items|
        invariant 0 <= i <= n && i <= |items|
        invariant forall j :: 0 <= j < i ==> AsDouble(items[j], parseDouble).Some?
        invariant forall j :: 0 <= j < n ==>
          out[j] == if j < i then Radians(AsDouble(items[j], parseDouble).value) else fill
      {
        var x := AsDouble(items[i], parseDouble);
        if x.None? {
          return Err(BadConversion);
        }
        out[i] := x.value * Pi / 180.0;
        i := i + 1;
      }
      assert out[..] == JointList(node, n, fill, parseDouble).value;
    } else {
      assert out[..] == seq(n, _ => fill);
    }
    r := Ok(out[..]);
  }

  const FingerKeys: seq<string> := ["thumb", "index", "middle", "ring", "pinky"]

  /** The pose a gesture node yields; the first failing list wins. */
  function GesturePose(g: Node, parseDouble: string -> Option<real>): Result<map<string, seq<real>>, YamlError>
  {
    PoseOf(JointList(Sub(g, "thumb"), 4, 0.0, parseDouble), JointList(Sub(g, "index"), 4, 0.0, parseDouble),
           JointList(Sub(g, "middle"), 4, 0.0, parseDouble), JointList(Sub(g, "ring"), 4, 0.0, parseDouble),
           JointList(Sub(g, "pinky"), 4, 0.0, parseDouble), JointList(Sub(g, "wrist"), 2, 0.0, parseDouble))
  }

  /** The pose built from its six lists, or the first list's failure. */
  function PoseOf(thumb: Result<seq<real>, YamlError>, index: Result<seq<real>, YamlError>,
                  middle: Result<seq<real>, YamlError>, ring: Result<seq<real>, YamlError>,
                  pinky: Result<seq<real>, YamlError>, wrist: Result<seq<real>, YamlError>)
    : Result<map<string, seq<real>>, YamlError>
  {
    if thumb.Err? then Err(thumb.error)
    else if index.Err? then Err(index.error)
    else if middle.Err? then Err(middle.error)
    else if ring.Err? then Err(ring.error)
    else if pinky.Err? then Err(pinky.error)
    else if wrist.Err? then Err(wrist.error)
    else Ok(map["thumb" := thumb.value, "index" := index.value, "middle" := middle.value,
                "ring" := ring.value, "pinky" := pinky.value, "wrist" := wrist.value])
  }

  /** What poseFromYaml returns or throws. */
  function PoseSpec(gesture: string, cfg: Node, parseDouble: string -> Option<real>): Result<map<string, seq<real>>, YamlError>
  {
    var hands := Sub(cfg, "hands");
    if !hands.Defined? then Err(MissingHands)
    else
      var g := Sub(hands, gesture);
      if !g.Defined? then Err(GestureNotFound)
      else GesturePose(g, parseDouble)
  }

  method PoseFromYaml(gesture: string, cfg: Node, parseDouble: string -> Option<real>)
    returns (r: Result<map<string, seq<real>>, YamlError>)
    ensures r == PoseSpec(gesture, cfg, parseDouble)
  {
    var hands := Sub(cfg, "hands");
    if !hands.Defined? {
      return Err(MissingHands);
    }
    var g := Sub(hands, gesture);
    if !g.Defined? {
      return Err(GestureNotFound);
    }
    var pose: map<string, seq<real>> := map[];
    var thumb := ParseJointList(Sub(g, "thumb"), 4, 0.0, parseDouble);
    if thumb.Err? { return Err(thumb.error); }
    pose := pose["thumb" := thumb.value];
    var index := ParseJointList(Sub(g, "index"), 4, 0.0, parseDouble);
    if index.Err? { return Err(index.error); }
    pose := pose["index" := index.value];
    var middle := ParseJointList(Sub(g, "middle"), 4, 0.0, parseDouble);
    if middle.Err? { return Err(middle.error); }
    pose := pose["middle" := middle.value];
    var ring := ParseJointList(Sub(g, "ring"), 4, 0.0, parseDouble);
    if ring.Err? { return Err(ring.error); }
    pose := pose["ring" := ring.value];
    var pinky := ParseJointList(Sub(g, "pinky"), 4, 0.0, parseDouble);
    if pinky.Err? { return Err(pinky.error); }
    pose := pose["pinky" := pinky.value];
    var wrist := ParseJointList(Sub(g, "wrist"), 2, 0.0, parseDouble);
    if wrist.Err? { return Err(wrist.error); }
    var w := wrist.value;
    if |w| < 2 {
      w := [0.0, 0.0];
    }
    pose := pose["wrist" := w];
    r := Ok(pose);
  }

  /** A missing `hands` section or gesture is refused, in that order. */
  lemma PoseRefusals(gesture: string, cfg: Node, parseDouble: string -> Option<real>)
    ensures !Sub(cfg, "hands").Defined? ==> PoseSpec(gesture, cfg, parseDouble) == Err(MissingHands)
    ensures Sub(cfg, "hands").Defined? && !Sub(Sub(cfg, "hands"), gesture).Defined? ==>
      PoseSpec(gesture, cfg, parseDouble) == Err(GestureNotFound)
    ensures Sub(cfg, "hands").Defined? && Sub(Sub(cfg, "hands"), gesture).Defined? ==>
      PoseSpec(gesture, cfg, parseDouble) == GesturePose(Sub(Sub(cfg, "hands"), gesture), parseDouble)
  {
  }

  /** A gesture's pose fails exactly when one of its six lists fails, and
      then holds the five fingers of four and a wrist of two, each read from
      the gesture's entry of that name. */
  lemma GesturePoseShape(g: Node, parseDouble: string -> Option<real>)
    ensures GesturePose(g, parseDouble).Ok? <==>
      JointList(Sub(g, "thumb"), 4, 0.0, parseDouble).Ok? && JointList(Sub(g, "index"), 4, 0.0, parseDouble).Ok?
      && JointList(Sub(g, "middle"), 4, 0.0, parseDouble).Ok? && JointList(Sub(g, "ring"), 4, 0.0, parseDouble).Ok?
      && JointList(Sub(g, "pinky"), 4, 0.0, parseDouble).Ok? && JointList(Sub(g, "wrist"), 2, 0.0, parseDouble).Ok?
    ensures GesturePose(g, parseDouble).Ok? ==>
      var pose := GesturePose(g, parseDouble).value;
      pose.Keys == {"thumb", "index", "middle", "ring", "pinky", "wrist"}
      && pose["thumb"] == JointList(Sub(g, "thumb"), 4, 0.0, parseDouble).value && |pose["thumb"]| == 4
      && pose["index"] == JointList(Sub(g, "index"), 4, 0.0, parseDouble).value && |pose["index"]| == 4
      && pose["middle"] == JointList(Sub(g, "middle"), 4, 0.0, parseDouble).value && |pose["middle"]| == 4
      && pose["ring"] == JointList(Sub(g, "ring"), 4, 0.0, parseDouble).value && |pose["ring"]| == 4
      && pose["pinky"] == JointList(Sub(g, "pinky"), 4, 0.0, parseDouble).value && |pose["pinky"]| == 4
      && pose["wrist"] == JointList(Sub(g, "wrist"), 2, 0.0, parseDouble).value && |pose["wrist"]| == 2
  {
    PoseOfShape(JointList(Sub(g, "thumb"), 4, 0.0, parseDouble), JointList(Sub(g, "index"), 4, 0.0, parseDouble),
                JointList(Sub(g, "middle"), 4, 0.0, parseDouble), JointList(Sub(g, "ring"), 4, 0.0, parseDouble),
                JointList(Sub(g, "pinky"), 4, 0.0, parseDouble), JointList(Sub(g, "wrist"), 2, 0.0, parseDouble));
  }

  lemma PoseOfShape(thumb: Result<seq<real>, YamlError>, index: Result<seq<real>, YamlError>,
                    middle: Result<seq<real>, YamlError>, ring: Result<seq<real>, YamlError>,
                    pinky: Result<seq<real>, YamlError>, wrist: Result<seq<real>, YamlError>)
    ensures PoseOf(thumb, index, middle, ring, pinky, wrist).Ok? <==>
      thumb.Ok? && index.Ok? && middle.Ok? && ring.Ok? && pinky.Ok? && wrist.Ok?
    ensures PoseOf(thumb, index, middle, ring, pinky, wrist).Ok? ==>
      var pose := PoseOf(thumb, index, middle, ring, pinky, wrist).value;
      pose.Keys == {"thumb", "index", "middle", "ring", "pinky", "wrist"}
      && pose["thumb"] == thumb.value && pose["index"] == index.value && pose["middle"] == middle.value
      && pose["ring"] == ring.value && pose["pinky"] == pinky.value && pose["wrist"] == wrist.value
  {
  }

  /** A finger's share of the positions: its values, or four zeros when the
      pose lacks it. */
  function FingerPart(pose: map<string, seq<real>>, key: string): seq<real>
  {
    if key in pose then pose[key] else [0.0, 0.0, 0.0, 0.0]
  }

  /** The first `n` fingers' shares back to back. */
  function Positions(pose: map<string, seq<real>>, n: nat): seq<real>
    requires n <= 5
  {
    if n == 0 then [] else Positions(pose, n - 1) + FingerPart(pose, FingerKeys[n - 1])
  }

  method PoseToHandPositions(pose: map<string, seq<real>>) returns (positions: seq<real>)
    ensures positions == Positions(pose, 5)
  {
    positions := [];
    var f := 0;
    while f < 5
      invariant 0 <= f <= 5
      invariant positions == Positions(pose, f)
    {
      var finger := FingerKeys[f];
      if finger in pose {
        var vals := pose[finger];
        var i := 0;
        while i < |vals|
          invariant 0 <= i <= |vals|
          invariant positions == Positions(pose, f) + vals[..i]
        {
          positions := positions + [vals[i]];
          i := i + 1;
        }
        assert vals[..i] == vals;
      } else {
        positions := positions + [0.0, 0.0, 0.0, 0.0];
      }
      f := f + 1;
    }
  }

  lemma {:induction false} PositionsLength(pose: map<string, seq<real>>, n: nat)
    requires n <= 5
    requires forall f :: 0 <= f < 5 && FingerKeys[f] in pose ==> |pose[FingerKeys[f]]| == 4
    ensures |Positions(pose, n)| == 4 * n
    ensures forall k :: 0 <= k < 4 * n ==> Positions(pose, n)[k] == FingerPart(pose, FingerKeys[k / 4])[k % 4]
  {
    if n > 0 {
      PositionsLength(pose, n - 1);
      var last := FingerPart(pose, FingerKeys[n - 1]);
      assert |last| == 4;
      forall k | 4 * (n - 1) <= k < 4 * n
        ensures Positions(pose, n)[k] == FingerPart(pose, FingerKeys[k / 4])[k % 4]
      {
        assert k / 4 == n - 1 && k % 4 == k - 4 * (n - 1);
      }
    }
  }

  /** Joint `j` of finger `f` as the positions carry it. */
  function Joint(pose: map<string, seq<real>>, f: nat, j: nat): real
    requires f < 5 && j < 4
    requires FingerKeys[f] in pose ==> |pose[FingerKeys[f]]| == 4
  {
    if FingerKeys[f] in pose then pose[FingerKeys[f]][j] else 0.0
  }

  /** With four values per finger present, position k is joint k % 4 of
      finger k / 4 in the order thumb, index, middle, ring, pinky; a missing
      finger reads as four zeros. */
  lemma HandPositionsLayout(pose: map<string, seq<real>>)
    requires forall f :: 0 <= f < 5 && FingerKeys[f] in pose ==> |pose[FingerKeys[f]]| == 4
    ensures |Positions(pose, 5)| == 20
    ensures forall k :: 0 <= k < 20 ==> Positions(pose, 5)[k] == Joint(pose, k / 4, k % 4)
  {
    PositionsLength(pose, 5);
    forall k | 0 <= k < 20
      ensures Positions(pose, 5)[k] == Joint(pose, k / 4, k % 4)
    {
      if FingerKeys[k / 4] !in pose {
        var zeros: seq<real> := [0.0, 0.0, 0.0, 0.0];
        assert FingerPart(pose, FingerKeys[k / 4]) == zeros;
        assert zeros[k % 4] == 0.0;
      }
    }
  }

  /** The wrist half of streamPose: at most two values copied, the rest 0. */
  method WristPositions(pose: map<string, seq<real>>) returns (w: seq<real>)
    ensures |w| == 2
    ensures forall i :: 0 <= i < 2 ==>
      w[i] == if "wrist" in pose && i < |pose["wrist"]| then pose["wrist"][i] else 0.0
  {
    var wristPositions := new real[2](_ => 0.0);
    if "wrist" in pose {
      var src := pose["wrist"];
      var i := 0;
      while i < |src| && i < 2
        invariant 0 <= i <= 2 && i <= |src|
        invariant forall j :: 0 <= j < 2 ==> wristPositions[j] == if j < i then src[j] else 0.0
      {
        wristPositions[i] := src[i];
        i := i + 1;
      }
    }
    w := wristPositions[..];
  }

  /** For joint values that are plain numbers, the two demos read the same
      list. */
  lemma JointListsAgree(items: seq<Value>, n: nat, parseFloat: string -> Option<real>, parseDouble: string -> Option<real>)
    requires forall i :: 0 <= i < |items| ==> items[i].Num?
    ensures KapandjiPy.RadianList(List(items), n, parseFloat).Ok?
    ensures JointList(Defined(List(items)), n, 0.0, parseDouble).Ok?
    ensures KapandjiPy.RadianList(List(items), n, parseFloat).value == JointList(Defined(List(items)), n, 0.0, parseDouble).value
  {
    KapandjiPy.JointListShape(List(items), n, 0.0, parseFloat);
    var py := KapandjiPy.RadianList(List(items), n, parseFloat);
    var cpp := JointList(Defined(List(items)), n, 0.0, parseDouble);
    assert py.Ok? && cpp.Ok?;
    assert py.value == cpp.value;
  }

  /** The demos differ: Python converts every element before cutting the
      list to `n`, so a bad element past `n` fails it while C++ never reads
      that element; and an empty `hands` section is missing to Python but
      only makes the gesture absent to C++. */
  lemma DemosDiverge(parse: string -> Option<real>)
    requires parse("x").None?
    ensures KapandjiPy.JointList(List([Num(10.0), Str("x")]), 1, 0.0, parse).Err?
    ensures JointList(Defined(List([Num(10.0), Str("x")])), 1, 0.0, parse) == Ok([Radians(10.0)])
    ensures KapandjiPy.PoseFromYaml("g", Dict([Field("hands", Dict([]))]), parse) == Err(KapandjiPy.MissingHands)
    ensures Sub(Defined(Dict([Field("hands", Dict([]))])), "hands").Defined?
    ensures !Sub(Sub(Defined(Dict([Field("hands", Dict([]))])), "hands"), "g").Defined?
  {
    var items := [Num(10.0), Str("x")];
    assert PyFloat(items[1], parse).None?;
    assert Min(1, |items|) == 1;
    assert forall i :: 0 <= i < 1 ==> AsDouble(items[i], parse).Some?;
    var r := JointList(Defined(List(items)), 1, 0.0, parse);
    assert r.Ok?;
    assert r.value[0] == Radians(10.0);
    assert r.value == [Radians(10.0)];
    assert !Truthy(Dict([]));
  }
}
