/** The glove-to-hand mapper of the UDP capture demo: it cuts the first JSON
    object out of a datagram, collects the named joint readings for one hand,
    and maps each reading from the glove's degree range onto the robot joint's
    range, in radians. `json.loads` is a parameter of the model. */
module UdcapMapper {
  import opened Outcomes
  import opened Documents

  datatype Hand = Left | Right

  /** The mapper keeps only its hand; the joint table follows from it. */
  datatype Mapper = Mapper(hand: Hand)

  datatype MapperError =
    | BadHand        // ValueError from the constructor
    | NameNotText    // AttributeError: a parameter name that is not a string
    | BadValue       // float() refused a parameter value

  function LowerChar(c: char): char
  {
    if 'A' <= c <= 'Z' then (c as int + 32) as char else c
  }

  /** str.lower on ASCII letters. */
  function Lower(s: string): (r: string)
    ensures |r| == |s|
    ensures forall i :: 0 <= i < |s| ==> r[i] == LowerChar(s[i])
  {
    if s == [] then [] else [LowerChar(s[0])] + Lower(s[1..])
  }

  /** GloveDataMapper(hand): accepts "left" and "right" in any letter case. */
  function NewMapper(hand: string): (r: Result<Mapper, MapperError>)
    ensures r.Ok? <==> Lower(hand) == "left" || Lower(hand) == "right"
    ensures r.Ok? ==> (r.value.hand == Left <==> Lower(hand) == "left")
    ensures r.Err? ==> r.error == BadHand
  {
    var h := Lower(hand);
    if h == "left" then Ok(Mapper(Left))
    else if h == "right" then Ok(Mapper(Right))
    else Err(BadHand)
  }

  /** Lowering twice is lowering once. */
  lemma {:induction false} LowerIdempotent(s: string)
    ensures Lower(Lower(s)) == Lower(s)
    decreases |s|
  {
    if s != [] {
      LowerIdempotent(s[1..]);
      assert Lower(s)[1..] == Lower(s[1..]);
    }
  }

  /** The hand argument is read without regard to letter case: any spelling
      and its lower-case form give the same mapper or the same refusal. */
  lemma NewMapperIgnoresCase(hand: string)
    ensures NewMapper(hand) == NewMapper(Lower(hand))
  {
    LowerIdempotent(hand);
  }

  // ---------------------------------------------------------------------
  // Cutting the JSON object out of a datagram

  /** An object opens at `j`: the two characters `{"`. */
  predicate OpensAt(msg: string, j: int)
  {
    0 <= j && j + 1 < |msg| && msg[j] == '{' && msg[j + 1] == '"'
  }

  /** msg.find('{"', k). */
  function FindFrom(msg: string, k: nat): (r: int)
    requires k <= |msg|
    ensures r == -1 || (k <= r && OpensAt(msg, r))
    ensures r == -1 ==> forall j :: k <= j < |msg| ==> !OpensAt(msg, j)
    ensures r != -1 ==> forall j :: k <= j < r ==> !OpensAt(msg, j)
    decreases |msg| - k
  {
    if k + 1 >= |msg| then -1
    else if OpensAt(msg, k) then k
    else FindFrom(msg, k + 1)
  }

  function FindOpen(msg: string): (r: int)
    ensures r == -1 <==> forall j :: 0 <= j < |msg| ==> !OpensAt(msg, j)
    ensures r != -1 ==> OpensAt(msg, r) && forall j :: 0 <= j < r ==> !OpensAt(msg, j)
  {
    FindFrom(msg, 0)
  }

  function Step(c: char): int
  {
    if c == '{' then 1 else if c == '}' then -1 else 0
  }

  /** Braces opened minus braces closed in `s`. */
  function Balance(s: string): int
  {
    if s == [] then 0 else Balance(s[..|s| - 1]) + Step(s[|s| - 1])
  }

  /** Where the brace scan started at `i` with depth `depth` stops: just past
      the `}` that brings the depth back to 0, or None at the end of text. */
  function ScanEnd(msg: string, i: nat, depth: int): (r: Option<nat>)
    requires i <= |msg|
    ensures r.Some? ==> i < r.value <= |msg|
    decreases |msg| - i
  {
    if i == |msg| then None
    else
      var d := depth + Step(msg[i]);
      if msg[i] == '}' && d == 0 then Some(i + 1) else ScanEnd(msg, i + 1, d)
  }

  /** json.loads as seen by the caller: None for a parse failure, and JSON
      null reads as None too. */
  function Loaded(loads: string -> Option<Value>, text: string): Option<Value>
  {
    match loads(text)
    case Some(Null) => None
    case other => other
  }

  /** What parse_udp_message returns; `decoded` is None when the datagram is
      not valid UTF-8. */
  function ParseSpec(decoded: Option<string>, loads: string -> Option<Value>): Option<Value>
  {
    match decoded
    case None => None
    case Some(msg) =>
      var start := FindOpen(msg);
      if start == -1 then None
      else
        match ScanEnd(msg, start, 0)
        case None => None
        case Some(end) => Loaded(loads, msg[start..end])
  }

  method ParseUdpMessage(decoded: Option<string>, loads: string -> Option<Value>) returns (r: Option<Value>)
    ensures r == ParseSpec(decoded, loads)
  {
    if decoded.None? {
      return None;
    }
    var msg := decoded.value;
    var start := FindOpen(msg);
    if start == -1 {
      return None;
    }
    var brace := 0;
    var end := -1;
    var i := start;
    while i < |msg|
      invariant start <= i <= |msg|
      invariant end == -1
      invariant ScanEnd(msg, start, 0) == ScanEnd(msg, i, brace)
      decreases |msg| - i
    {
      if msg[i] == '{' {
        brace := brace + 1;
      } else if msg[i] == '}' {
        brace := brace - 1;
        if brace == 0 {
          end := i + 1;
          break;
        }
      }
      i := i + 1;
    }
    if end == -1 {
      return None;
    }
    r := Loaded(loads, msg[start..end]);
  }

  lemma BalanceSnoc(msg: string, start: nat, i: nat)
    requires start <= i < |msg|
    ensures Balance(msg[start..i + 1]) == Balance(msg[start..i]) + Step(msg[i])
  {
    assert msg[start..i + 1][..i - start] == msg[start..i];
  }

  /** The scan from an opening brace stops at the first point where the
      running depth is back to 0, and the depth is positive before it. */
  lemma {:induction false} ScanEndFirstZero(msg: string, start: nat, i: nat, depth: int)
    requires start <= i <= |msg| && start < |msg| && msg[start] == '{'
    requires depth == Balance(msg[start..i])
    requires forall k :: start < k <= i ==> Balance(msg[start..k]) > 0
    ensures ScanEnd(msg, i, depth).Some? ==>
      var e := ScanEnd(msg, i, depth).value;
      Balance(msg[start..e]) == 0 && forall k :: start < k < e ==> Balance(msg[start..k]) > 0
    ensures ScanEnd(msg, i, depth).None? ==> forall k :: start < k <= |msg| ==> Balance(msg[start..k]) > 0
    decreases |msg| - i
  {
    if i < |msg| {
      var d := depth + Step(msg[i]);
      BalanceSnoc(msg, start, i);
      if msg[i] == '}' && d == 0 {
      } else {
        if i == start {
          assert msg[start..start] == [];
        } else {
          assert Balance(msg[start..i]) > 0;
        }
        assert Balance(msg[start..i + 1]) > 0;
        ScanEndFirstZero(msg, start, i + 1, d);
      }
    }
  }

  /** The slice handed to the JSON parser starts at the first `{"`, is
      balanced, and every shorter non-empty prefix of it has more `{` than
      `}`; with no `{"`, or when the braces never balance, nothing is parsed. */
  lemma ParseUdpShape(msg: string, loads: string -> Option<Value>)
    ensures (forall j :: 0 <= j < |msg| ==> !OpensAt(msg, j)) ==> ParseSpec(Some(msg), loads) == None
    ensures FindOpen(msg) != -1 ==>
      var start := FindOpen(msg);
      match ScanEnd(msg, start, 0)
      case Some(e) =>
        start < e <= |msg| && Balance(msg[start..e]) == 0
        && (forall k :: start < k < e ==> Balance(msg[start..k]) > 0)
        && ParseSpec(Some(msg), loads) == Loaded(loads, msg[start..e])
      case None =>
        (forall k :: start < k <= |msg| ==> Balance(msg[start..k]) > 0)
        && ParseSpec(Some(msg), loads) == None
  {
    var start := FindOpen(msg);
    if start != -1 {
      assert msg[start..start] == [];
      ScanEndFirstZero(msg, start, start, 0);
    }
  }

  // ---------------------------------------------------------------------
  // Collecting the joint readings

  /** One `{"Name": …, "Value": …}` entry met by the visitor. */
  datatype Param = Param(name: Value, value: Value)

  /** The entry a dict in a "Parameter" list contributes, if any. */
  function ParamOf(p: Value): (r: seq<Param>)
    ensures |r| <= 1
  {
    match p
    case Dict(fs) =>
      (match (Lookup(fs, "Name"), Lookup(fs, "Value"))
       case (Some(n), Some(v)) => [Param(n, v)]
       case _ => [])
    case _ => []
  }

  /** The entries the visitor meets, in visiting order: a dict holding a
      "Parameter" list yields the entries of that list; any other dict is
      searched value by value, a list item by item. */
  function Entries(v: Value): seq<Param>
    decreases v
  {
    match v
    case Dict(fs) =>
      (match Lookup(fs, "Parameter")
       case Some(List(ps)) => Concat(seq(|ps|, i requires 0 <= i < |ps| => ParamOf(ps[i])))
       case _ => Concat(seq(|fs|, i requires 0 <= i < |fs| => Entries(fs[i].value))))
    case List(items) => Concat(seq(|items|, i requires 0 <= i < |items| => Entries(items[i])))
    case _ => []
  }

  predicate StartsWith(s: string, prefix: string)
  {
    |prefix| <= |s| && s[..|prefix|] == prefix
  }

  /** The hand filter: `startswith("l") or not startswith("r")` for the left
      hand, mirrored for the right. */
  predicate Keep(hand: Hand, name: string)
    ensures Keep(hand, name) <==> !StartsWith(name, if hand == Left then "r" else "l")
  {
    if hand == Left then StartsWith(name, "l") || !StartsWith(name, "r")
    else StartsWith(name, "r") || !StartsWith(name, "l")
  }

  /** One entry folded into the collected readings. */
  function AbsorbOne(hand: Hand, params: map<string, real>, e: Param, parseFloat: string -> Option<real>)
    : Result<map<string, real>, MapperError>
  {
    if !e.name.Str? then Err(NameNotText)
    else if !Keep(hand, e.name.s) then Ok(params)
    else
      match PyFloat(e.value, parseFloat)
      case None => Err(BadValue)
      case Some(x) => Ok(params[e.name.s := x])
  }

  /** The entries folded in order; the first failure ends the fold. */
  function Absorb(hand: Hand, params: map<string, real>, es: seq<Param>, parseFloat: string -> Option<real>)
    : Result<map<string, real>, MapperError>
    decreases |es|
  {
    if es == [] then Ok(params)
    else
      match AbsorbOne(hand, params, es[0], parseFloat)
      case Err(e) => Err(e)
      case Ok(p) => Absorb(hand, p, es[1..], parseFloat)
  }

  function Then(hand: Hand, r: Result<map<string, real>, MapperError>, es: seq<Param>, parseFloat: string -> Option<real>)
    : Result<map<string, real>, MapperError>
  {
    match r
    case Err(e) => Err(e)
    case Ok(p) => Absorb(hand, p, es, parseFloat)
  }

  lemma {:induction false} AbsorbAppend(hand: Hand, params: map<string, real>, a: seq<Param>, b: seq<Param>, parseFloat: string -> Option<real>)
    ensures Absorb(hand, params, a + b, parseFloat) == Then(hand, Absorb(hand, params, a, parseFloat), b, parseFloat)
    decreases |a|
  {
    if a == [] {
      assert a + b == b;
    } else {
      assert (a + b)[0] == a[0];
      assert (a + b)[1..] == a[1..] + b;
      match AbsorbOne(hand, params, a[0], parseFloat)
      case Err(_) =>
      case Ok(p) => AbsorbAppend(hand, p, a[1..], b, parseFloat);
    }
  }

  /** The entry fails whatever was collected before it. */
  predicate Fails(hand: Hand, e: Param, parseFloat: string -> Option<real>)
  {
    !e.name.Str? || (Keep(hand, e.name.s) && PyFloat(e.value, parseFloat).None?)
  }

  /** Collecting fails exactly when some entry fails. */
  lemma {:induction false} AbsorbFails(hand: Hand, params: map<string, real>, es: seq<Param>, parseFloat: string -> Option<real>)
    ensures Absorb(hand, params, es, parseFloat).Err? <==> exists i :: 0 <= i < |es| && Fails(hand, es[i], parseFloat)
    decreases |es|
  {
    if es != [] {
      match AbsorbOne(hand, params, es[0], parseFloat)
      case Err(_) =>
      case Ok(p) =>
        AbsorbFails(hand, p, es[1..], parseFloat);
        assert forall i :: 1 <= i < |es| ==> es[i] == es[1..][i - 1];
    }
  }

  /** The value of the last entry named `k`. */
  function LastValue(es: seq<Param>, k: string): Option<Value>
    decreases |es|
  {
    if es == [] then None
    else
      match LastValue(es[1..], k)
      case Some(v) => Some(v)
      case None => if es[0].name == Str(k) then Some(es[0].value) else None
  }

  /** A successful collection holds a reading for exactly the kept names seen
      (beside those it started with), and each is the value of the last entry
      of that name. */
  lemma {:induction false} AbsorbLastWins(hand: Hand, params: map<string, real>, es: seq<Param>, parseFloat: string -> Option<real>, out: map<string, real>)
    requires Absorb(hand, params, es, parseFloat) == Ok(out)
    ensures forall k :: k in out <==> k in params || (Keep(hand, k) && LastValue(es, k).Some?)
    ensures forall k :: Keep(hand, k) && LastValue(es, k).Some? ==>
      k in out && PyFloat(LastValue(es, k).value, parseFloat) == Some(out[k])
    ensures forall k :: k in params && !(Keep(hand, k) && LastValue(es, k).Some?) ==> k in out && out[k] == params[k]
    decreases |es|
  {
    if es != [] {
      var p := AbsorbOne(hand, params, es[0], parseFloat).value;
      AbsorbLastWins(hand, p, es[1..], parseFloat, out);
      forall k | Keep(hand, k) && LastValue(es, k).Some?
        ensures k in out && PyFloat(LastValue(es, k).value, parseFloat) == Some(out[k])
      {
        if LastValue(es[1..], k).None? {
          assert es[0].name == Str(k);
        }
      }
    }
  }

  /** The loop over a "Parameter" list. */
  method VisitParameters(m: Mapper, ps: seq<Value>, params: map<string, real>, parseFloat: string -> Option<real>)
    returns (r: Result<map<string, real>, MapperError>)
    ensures r == Absorb(m.hand, params, Concat(seq(|ps|, i requires 0 <= i < |ps| => ParamOf(ps[i]))), parseFloat)
  {
    ghost var parts := seq(|ps|, i requires 0 <= i < |ps| => ParamOf(ps[i]));
    var cur := params;
    var j := 0;
    while j < |ps|
      invariant 0 <= j <= |ps|
      invariant Absorb(m.hand, cur, Concat(parts[j..]), parseFloat) == Absorb(m.hand, params, Concat(parts), parseFloat)
    {
      ConcatStep(parts, j);
      AbsorbAppend(m.hand, cur, parts[j], Concat(parts[j + 1..]), parseFloat);
      var param := ps[j];
      if param.Dict? && Lookup(param.fields, "Name").Some? && Lookup(param.fields, "Value").Some? {
        var name := Lookup(param.fields, "Name").value;
        var val := Lookup(param.fields, "Value").value;
        assert parts[j] == [Param(name, val)];
        if !name.Str? {
          return Err(NameNotText);
        }
        var keep := if m.hand == Left then StartsWith(name.s, "l") || !StartsWith(name.s, "r")
                    else StartsWith(name.s, "r") || !StartsWith(name.s, "l");
        if keep {
          var x := PyFloat(val, parseFloat);
          if x.None? {
            return Err(BadValue);
          }
          cur := cur[name.s := x.value];
        }
      } else {
        assert parts[j] == [];
      }
      j := j + 1;
    }
    assert parts[|ps|..] == [];
    r := Ok(cur);
  }

  /** The recursive visitor: `params` is what was collected so far. */
  method Visit(m: Mapper, obj: Value, params: map<string, real>, parseFloat: string -> Option<real>)
    returns (r: Result<map<string, real>, MapperError>)
    ensures r == Absorb(m.hand, params, Entries(obj), parseFloat)
    decreases obj
  {
    match obj {
      case Dict(fs) =>
        var p := Lookup(fs, "Parameter");
        if p.Some? && p.value.List? {
          r := VisitParameters(m, p.value.items, params, parseFloat);
        } else {
          ghost var parts := seq(|fs|, i requires 0 <= i < |fs| => Entries(fs[i].value));
          assert Entries(obj) == Concat(parts);
          var cur := params;
          var j := 0;
          while j < |fs|
            invariant 0 <= j <= |fs|
            invariant Absorb(m.hand, cur, Concat(parts[j..]), parseFloat) == Absorb(m.hand, params, Entries(obj), parseFloat)
          {
            ConcatStep(parts, j);
            AbsorbAppend(m.hand, cur, parts[j], Concat(parts[j + 1..]), parseFloat);
            var res := Visit(m, fs[j].value, cur, parseFloat);
            if res.Err? {
              return res;
            }
            cur := res.value;
            j := j + 1;
          }
          assert parts[|fs|..] == [];
          r := Ok(cur);
        }
      case List(items) =>
        ghost var parts := seq(|items|, i requires 0 <= i < |items| => Entries(items[i]));
        assert Entries(obj) == Concat(parts);
        var cur := params;
        var j := 0;
        while j < |items|
          invariant 0 <= j <= |items|
          invariant Absorb(m.hand, cur, Concat(parts[j..]), parseFloat) == Absorb(m.hand, params, Entries(obj), parseFloat)
        {
          ConcatStep(parts, j);
          AbsorbAppend(m.hand, cur, parts[j], Concat(parts[j + 1..]), parseFloat);
          var res := Visit(m, items[j], cur, parseFloat);
          if res.Err? {
            return res;
          }
          cur := res.value;
          j := j + 1;
        }
        assert parts[|items|..] == [];
        r := Ok(cur);
      case _ =>
        r := Ok(params);
    }
  }

  /** extract_parameters: every visited reading for this hand, last one wins. */
  method ExtractParameters(m: Mapper, message: Value, parseFloat: string -> Option<real>)
    returns (r: Result<map<string, real>, MapperError>)
    ensures r == Absorb(m.hand, map[], Entries(message), parseFloat)
  {
    r := Visit(m, message, map[], parseFloat);
  }

  // ---------------------------------------------------------------------
  // Mapping readings onto hand joints

  /** Finger order of the joint tables and of the command. */
  const FingerNames: seq<string> := ["thumb", "index", "middle", "ring", "pinky"]

  lemma FingerNamesDistinct()
    ensures forall f, g :: 0 <= f < 5 && 0 <= g < 5 && f != g ==> FingerNames[f] != FingerNames[g]
    ensures "wrist" !in FingerNames
  {
  }

  /** LEFT_JOINT_MAP / RIGHT_JOINT_MAP: the glove reading names feeding each
      finger's four joints. */
  function JointNames(hand: Hand, f: nat): (names: seq<string>)
    requires f < 5
    ensures |names| == 4
  {
    if hand == Left then
      if f == 0 then ["l20", "l2", "l1", "l0"]
      else if f == 1 then ["l7", "l6", "l5", "l4"]
      else if f == 2 then ["l11", "l10", "l9", "l8"]
      else if f == 3 then ["l15", "l14", "l13", "l12"]
      else ["l19", "l18", "l17", "l16"]
    else
      if f == 0 then ["r20", "r2", "r1", "r0"]
      else if f == 1 then ["r7", "r6", "r5", "r4"]
      else if f == 2 then ["r11", "r10", "r9", "r8"]
      else if f == 3 then ["r15", "r14", "r13", "r12"]
      else ["r19", "r18", "r17", "r16"]
  }

  /** A (low, high) range in degrees. */
  datatype Range = Range(lo: real, hi: real)

  predicate Ordered(rs: seq<Range>)
  {
    forall j :: 0 <= j < |rs| ==> rs[j].lo <= rs[j].hi
  }

  /** JOINT_RANGES_DEG: the glove's range per joint. */
  function InputRanges(f: nat): (rs: seq<Range>)
    requires f < 5
    ensures |rs| == 4 && Ordered(rs)
  {
    if f == 0 then [Range(0.0, 40.0), Range(-60.0, 0.0), Range(-60.0, 0.0), Range(-70.0, 10.0)]
    else if f == 1 then [Range(-25.0, 0.0), Range(-80.0, 0.0), Range(-100.0, 0.0), Range(-80.0, 0.0)]
    else if f == 2 then [Range(-4.5, 4.5), Range(-80.0, 0.0), Range(-100.0, 0.0), Range(-80.0, 0.0)]
    else if f == 3 then [Range(0.0, 15.0), Range(-80.0, 0.0), Range(-100.0, 0.0), Range(-80.0, 0.0)]
    else [Range(0.0, 35.0), Range(-80.0, 0.0), Range(-100.0, 0.0), Range(-80.0, 0.0)]
  }

  /** ROBOT_RANGES_DEG: the robot joint's range per joint. */
  function OutputRanges(f: nat): (rs: seq<Range>)
    requires f < 5
    ensures |rs| == 4 && Ordered(rs)
  {
    if f == 0 then [Range(0.0, 130.0), Range(-30.0, 60.0), Range(-20.0, 90.0), Range(-15.0, 90.0)]
    else if f == 1 then [Range(-15.0, 30.0), Range(-20.0, 90.0), Range(-15.0, 90.0), Range(0.0, 90.0)]
    else if f == 2 then [Range(-15.0, 15.0), Range(-20.0, 90.0), Range(-15.0, 90.0), Range(0.0, 90.0)]
    else if f == 3 then [Range(-15.0, 15.0), Range(-20.0, 90.0), Range(-15.0, 90.0), Range(0.0, 90.0)]
    else [Range(-30.0, 15.0), Range(-20.0, 90.0), Range(-15.0, 90.0), Range(0.0, 90.0)]
  }

  /** max(lo, min(hi, raw)). */
  function Clamp(raw: real, r: Range): (c: real)
    ensures r.lo <= r.hi ==> r.lo <= c <= r.hi
    ensures r.lo <= raw <= r.hi ==> c == raw
    ensures raw <= r.lo ==> c == r.lo
    ensures r.lo <= r.hi && r.hi <= raw ==> c == r.hi
  {
    MaxReal(r.lo, MinReal(r.hi, raw))
  }

  lemma FractionBounds(a: real, b: real)
    requires 0.0 <= a <= b && 0.0 < b
    ensures 0.0 <= a / b <= 1.0
  {
    assert (a / b) * b == a;
  }

  lemma ScaleBounds(s: real, w: real)
    requires 0.0 <= s <= 1.0 && 0.0 <= w
    ensures 0.0 <= s * w <= w
  {
    assert (1.0 - s) * w >= 0.0;
  }

  /** Position of `c` within the range as a fraction, 0 for an empty range. */
  function Unit(c: real, r: Range): (s: real)
    ensures r.lo == r.hi ==> s == 0.0
    ensures r.lo <= c <= r.hi ==> 0.0 <= s <= 1.0
  {
    if r.hi != r.lo then
      var q := (c - r.lo) / (r.hi - r.lo);
      assert r.lo <= c <= r.hi ==> 0.0 <= q <= 1.0 by {
        if r.lo <= c <= r.hi {
          FractionBounds(c - r.lo, r.hi - r.lo);
        }
      }
      q
    else 0.0
  }

  /** The degree angle a reading maps to; `invert` runs the output range
      backwards. */
  function JointDegrees(raw: real, input: Range, output: Range, invert: bool): (deg: real)
    requires input.lo <= input.hi && output.lo <= output.hi
    ensures output.lo <= deg <= output.hi
  {
    var s01 := Unit(Clamp(raw, input), input);
    var s := if invert then 1.0 - s01 else s01;
    var w := output.hi - output.lo;
    ScaleBounds(s, w);
    output.lo + s * w
  }

  /** The ends of the glove range land on the ends of the robot range, the
      other way round when inverted. */
  lemma JointDegreesEnds(input: Range, output: Range, invert: bool)
    requires input.lo < input.hi && output.lo <= output.hi
    ensures JointDegrees(input.lo, input, output, invert) == (if invert then output.hi else output.lo)
    ensures JointDegrees(input.hi, input, output, invert) == (if invert then output.lo else output.hi)
  {
    var w := input.hi - input.lo;
    assert w / w == 1.0;
    assert 0.0 / w == 0.0;
    assert Unit(Clamp(input.hi, input), input) == 1.0;
    assert Unit(Clamp(input.lo, input), input) == 0.0;
  }

  /** Readings beyond the glove range map as the range ends do. */
  lemma JointDegreesSaturate(raw: real, input: Range, output: Range, invert: bool)
    requires input.lo <= input.hi && output.lo <= output.hi
    ensures raw <= input.lo ==> JointDegrees(raw, input, output, invert) == JointDegrees(input.lo, input, output, invert)
    ensures raw >= input.hi ==> JointDegrees(raw, input, output, invert) == JointDegrees(input.hi, input, output, invert)
  {
  }

  /** Every joint is inverted except thumb joint 0. */
  predicate Inverted(f: nat, j: nat)
  {
    !(f == 0 && j == 0)
  }

  /** The angle, in radians, commanded for a joint read under `name`, with
      glove range `input` and robot range `output`: 0 when the reading is
      missing. */
  function JointAngleOf(name: string, input: Range, output: Range, invert: bool, params: map<string, real>): real
    requires input.lo <= input.hi && output.lo <= output.hi
  {
    if name in params then Radians(JointDegrees(params[name], input, output, invert)) else 0.0
  }

  /** The angle commanded for joint `j` of finger `f`. */
  function JointAngle(hand: Hand, params: map<string, real>, f: nat, j: nat): real
    requires f < 5 && j < 4
  {
    JointAngleOf(JointNames(hand, f)[j], InputRanges(f)[j], OutputRanges(f)[j], Inverted(f, j), params)
  }

  /** JointAngleOf of a present reading, computed as map_to_hand_command
      does: `s` is the fraction after the optional inversion. */
  lemma JointAngleSteps(name: string, input: Range, output: Range, invert: bool, params: map<string, real>, s: real)
    requires input.lo <= input.hi && output.lo <= output.hi && name in params
    requires var clamped := MaxReal(input.lo, MinReal(input.hi, params[name]));
      var s01 := if input.hi != input.lo then (clamped - input.lo) / (input.hi - input.lo) else 0.0;
      s == if invert then 1.0 - s01 else s01
    ensures JointAngleOf(name, input, output, invert, params) == Radians(output.lo + s * (output.hi - output.lo))
  {
  }

  lemma JointAngleRange(hand: Hand, params: map<string, real>, f: nat, j: nat)
    requires f < 5 && j < 4
    ensures JointNames(hand, f)[j] !in params ==> JointAngle(hand, params, f, j) == 0.0
    ensures JointNames(hand, f)[j] in params ==>
      Radians(OutputRanges(f)[j].lo) <= JointAngle(hand, params, f, j) <= Radians(OutputRanges(f)[j].hi)
  {
    var name := JointNames(hand, f)[j];
    if name in params {
      var deg := JointDegrees(params[name], InputRanges(f)[j], OutputRanges(f)[j], Inverted(f, j));
      RadiansMonotone(OutputRanges(f)[j].lo, deg);
      RadiansMonotone(deg, OutputRanges(f)[j].hi);
    }
  }

  function FingerAngles(hand: Hand, params: map<string, real>, f: nat): (angles: seq<real>)
    requires f < 5
    ensures |angles| == 4
    ensures forall j :: 0 <= j < 4 ==> angles[j] == JointAngle(hand, params, f, j)
  {
    seq(4, j requires 0 <= j < 4 => JointAngle(hand, params, f, j))
  }

  /** The command after the first `n` fingers were filled in. */
  function PartialCommand(hand: Hand, params: map<string, real>, n: nat): map<string, seq<real>>
    requires n <= 5
  {
    if n == 0 then map[]
    else PartialCommand(hand, params, n - 1)[FingerNames[n - 1] := FingerAngles(hand, params, n - 1)]
  }

  /** The command map_to_hand_command builds. */
  function Command(hand: Hand, params: map<string, real>): map<string, seq<real>>
  {
    PartialCommand(hand, params, 5)["wrist" := [0.0, 0.0]]
  }

  lemma {:induction false} PartialCommandShape(hand: Hand, params: map<string, real>, n: nat)
    requires n <= 5
    ensures PartialCommand(hand, params, n).Keys == set f | 0 <= f < n :: FingerNames[f]
    ensures forall f :: 0 <= f < n ==> PartialCommand(hand, params, n)[FingerNames[f]] == FingerAngles(hand, params, f)
  {
    FingerNamesDistinct();
    if n > 0 {
      PartialCommandShape(hand, params, n - 1);
      var prev := set f | 0 <= f < n - 1 :: FingerNames[f];
      assert (set f | 0 <= f < n :: FingerNames[f]) == prev + {FingerNames[n - 1]};
    }
  }

  /** The command holds the five fingers with four angles each, and a wrist
      of two zeros. */
  lemma CommandShape(hand: Hand, params: map<string, real>)
    ensures Command(hand, params).Keys == {"thumb", "index", "middle", "ring", "pinky", "wrist"}
    ensures Command(hand, params)["wrist"] == [0.0, 0.0]
    ensures forall f :: 0 <= f < 5 ==> |Command(hand, params)[FingerNames[f]]| == 4
    ensures forall f, j :: 0 <= f < 5 && 0 <= j < 4 ==> Command(hand, params)[FingerNames[f]][j] == JointAngle(hand, params, f, j)
  {
    PartialCommandShape(hand, params, 5);
    FingerNamesDistinct();
    assert (set f | 0 <= f < 5 :: FingerNames[f]) == {"thumb", "index", "middle", "ring", "pinky"} by {
      assert FingerNames[0] == "thumb" && FingerNames[1] == "index" && FingerNames[2] == "middle";
      assert FingerNames[3] == "ring" && FingerNames[4] == "pinky";
    }
  }

  /** The inner loop of map_to_hand_command: the angles of one finger whose
      joints are read under `jointNames`, with glove ranges `inputRanges` and
      robot ranges `outputRanges`. */
  method MapFinger(params: map<string, real>, f: nat, jointNames: seq<string>, inputRanges: seq<Range>, outputRanges: seq<Range>)
    returns (angles: seq<real>)
    requires |jointNames| == 4 && |inputRanges| == 4 && |outputRanges| == 4
    requires Ordered(inputRanges) && Ordered(outputRanges)
    ensures |angles| == 4
    ensures forall j :: 0 <= j < 4 ==>
      angles[j] == JointAngleOf(jointNames[j], inputRanges[j], outputRanges[j], Inverted(f, j), params)
  {
    angles := [];
    var i := 0;
    while i < 4
      invariant 0 <= i <= 4 && |angles| == i
      invariant forall j :: 0 <= j < i ==>
        angles[j] == JointAngleOf(jointNames[j], inputRanges[j], outputRanges[j], Inverted(f, j), params)
    {
      var joint := jointNames[i];
      if joint in params {
        var raw := params[joint];
        var minDeg, maxDeg := inputRanges[i].lo, inputRanges[i].hi;
        var clamped := MaxReal(minDeg, MinReal(maxDeg, raw));
        var outMin, outMax := outputRanges[i].lo, outputRanges[i].hi;
        var s01 := if maxDeg != minDeg then (clamped - minDeg) / (maxDeg - minDeg) else 0.0;
        if !(f == 0 && i == 0) {
          s01 := 1.0 - s01;
        }
        var angleDeg := outMin + s01 * (outMax - outMin);
        JointAngleSteps(joint, inputRanges[i], outputRanges[i], Inverted(f, i), params, s01);
        angles := angles + [Radians(angleDeg)];
      } else {
        angles := angles + [0.0];
      }
      i := i + 1;
    }
  }

  method MapToHandCommand(m: Mapper, params: map<string, real>) returns (cmd: map<string, seq<real>>)
    ensures cmd == Command(m.hand, params)
  {
    cmd := map[];
    var f := 0;
    while f < 5
      invariant 0 <= f <= 5
      invariant cmd == PartialCommand(m.hand, params, f)
    {
      var angles := MapFinger(params, f, JointNames(m.hand, f), InputRanges(f), OutputRanges(f));
      assert angles == FingerAngles(m.hand, params, f);
      cmd := cmd[FingerNames[f] := angles];
      f := f + 1;
    }
    cmd := cmd["wrist" := [0.0, 0.0]];
  }

  /** process_udp_data's result: None when nothing parses or no reading
      survives the hand filter, an error when collecting fails. */
  function Processed(hand: Hand, decoded: Option<string>, loads: string -> Option<Value>, parseFloat: string -> Option<real>)
    : Result<Option<map<string, seq<real>>>, MapperError>
  {
    match ParseSpec(decoded, loads)
    case None => Ok(None)
    case Some(msg) =>
      match Absorb(hand, map[], Entries(msg), parseFloat)
      case Err(e) => Err(e)
      case Ok(params) => if params == map[] then Ok(None) else Ok(Some(Command(hand, params)))
  }

  method ProcessUdpData(m: Mapper, decoded: Option<string>, loads: string -> Option<Value>, parseFloat: string -> Option<real>)
    returns (r: Result<Option<map<string, seq<real>>>, MapperError>)
    ensures r == Processed(m.hand, decoded, loads, parseFloat)
  {
    var msg := ParseUdpMessage(decoded, loads);
    if msg.None? {
      return Ok(None);
    }
    var params := ExtractParameters(m, msg.value, parseFloat);
    if params.Err? {
      return Err(params.error);
    }
    if params.value == map[] {
      return Ok(None);
    }
    var cmd := MapToHandCommand(m, params.value);
    r := Ok(Some(cmd));
  }

  /** A command comes out exactly when a message parses, every entry in it
      is usable, and some reading is for this hand; it then has the full
      shape with one angle per reading. */
  lemma ProcessedCommand(hand: Hand, decoded: Option<string>, loads: string -> Option<Value>, parseFloat: string -> Option<real>)
    ensures Processed(hand, decoded, loads, parseFloat).Ok? && Processed(hand, decoded, loads, parseFloat).value.Some? <==>
      ParseSpec(decoded, loads).Some?
      && (forall i :: 0 <= i < |Entries(ParseSpec(decoded, loads).value)| ==> !Fails(hand, Entries(ParseSpec(decoded, loads).value)[i], parseFloat))
      && (exists k :: Keep(hand, k) && LastValue(Entries(ParseSpec(decoded, loads).value), k).Some?)
    ensures Processed(hand, decoded, loads, parseFloat).Ok? && Processed(hand, decoded, loads, parseFloat).value.Some? ==>
      var cmd := Processed(hand, decoded, loads, parseFloat).value.value;
      cmd.Keys == {"thumb", "index", "middle", "ring", "pinky", "wrist"}
      && forall f :: 0 <= f < 5 ==> |cmd[FingerNames[f]]| == 4
  {
    match ParseSpec(decoded, loads)
    case None =>
    case Some(msg) =>
      var es := Entries(msg);
      AbsorbFails(hand, map[], es, parseFloat);
      match Absorb(hand, map[], es, parseFloat)
      case Err(_) =>
      case Ok(params) =>
        AbsorbLastWins(hand, map[], es, parseFloat, params);
        CommandShape(hand, params);
        if params != map[] {
          var k :| k in params;
        }
  }
}
