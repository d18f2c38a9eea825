/** Parsed JSON and YAML documents as the demos see them after the foreign
    parser has run: Python's None, bool, number, str, list and dict, with
    dicts kept in insertion order under string keys. */
module Documents {
  import opened Outcomes

  datatype Value =
    | Null
    | Bool(b: bool)
    | Num(n: real)
    | Str(s: string)
    | List(items: seq<Value>)
    | Dict(fields: seq<Field>)

  datatype Field = Field(key: string, value: Value)

  /** `key in d`. */
  predicate HasKey(fields: seq<Field>, key: string)
  {
    exists i :: 0 <= i < |fields| && fields[i].key == key
  }

  /** `d.get(key)`: the entry under `key`, the first one should a key repeat. */
  function Lookup(fields: seq<Field>, key: string): (r: Option<Value>)
    ensures r.None? <==> !HasKey(fields, key)
    ensures r.Some? ==> exists i :: 0 <= i < |fields| && fields[i] == Field(key, r.value)
  {
    if fields == [] then None
    else if fields[0].key == key then Some(fields[0].value)
    else
      var r := Lookup(fields[1..], key);
      assert forall i :: 0 <= i < |fields| - 1 ==> fields[1..][i] == fields[i + 1];
      r
  }

  /** `d.get(key, default)`. */
  function LookupOr(fields: seq<Field>, key: string, default: Value): (v: Value)
    ensures HasKey(fields, key) ==> Some(v) == Lookup(fields, key)
    ensures !HasKey(fields, key) ==> v == default
  {
    match Lookup(fields, key)
    case Some(v) => v
    case None => default
  }

  /** Python truthiness. */
  predicate Truthy(v: Value)
  {
    match v
    case Null => false
    case Bool(b) => b
    case Num(n) => n != 0.0
    case Str(s) => s != []
    case List(items) => items != []
    case Dict(fields) => fields != []
  }

  /** Python's float(v). The text of a string is read by `parseFloat`, which
      stands for Python's own number parser. */
  function PyFloat(v: Value, parseFloat: string -> Option<real>): Option<real>
  {
    match v
    case Num(n) => Some(n)
    case Bool(b) => Some(if b then 1.0 else 0.0)
    case Str(s) => parseFloat(s)
    case _ => None
  }

  /** What `for x in v` visits: a list's items, a string's characters, a
      dict's keys; None where Python raises TypeError. */
  function PyIter(v: Value): (r: Option<seq<Value>>)
    ensures v.List? ==> r == Some(v.items)
    ensures r.Some? <==> v.List? || v.Str? || v.Dict?
  {
    match v
    case List(items) => Some(items)
    case Str(s) => Some(seq(|s|, i requires 0 <= i < |s| => Str([s[i]])))
    case Dict(fields) => Some(seq(|fields|, i requires 0 <= i < |fields| => Str(fields[i].key)))
    case _ => None
  }

  /** Joins a sequence of sequences end to end. */
  function Concat<T>(parts: seq<seq<T>>): seq<T>
  {
    if parts == [] then [] else parts[0] + Concat(parts[1..])
  }

  lemma {:induction false} ConcatAppend<T>(a: seq<seq<T>>, b: seq<seq<T>>)
    ensures Concat(a + b) == Concat(a) + Concat(b)
  {
    if a != [] {
      assert (a + b)[0] == a[0];
      assert (a + b)[1..] == a[1..] + b;
      ConcatAppend(a[1..], b);
    } else {
      assert a + b == b;
    }
  }

  lemma ConcatStep<T>(parts: seq<seq<T>>, i: nat)
    requires i < |parts|
    ensures Concat(parts[i..]) == parts[i] + Concat(parts[i + 1..])
  {
    assert parts[i..][0] == parts[i];
    assert parts[i..][1..] == parts[i + 1..];
  }

  /** The degree-to-radian conversion of math.radians and `* M_PI / 180`,
      over exact reals. */
  const Pi: real := 3.141592653589793

  function Radians(deg: real): real
  {
    deg * Pi / 180.0
  }

  lemma RadiansMonotone(a: real, b: real)
    requires a <= b
    ensures Radians(a) <= Radians(b)
  {
  }

  function MinReal(a: real, b: real): real
  {
    if a <= b then a else b
  }

  function MaxReal(a: real, b: real): real
  {
    if a >= b then a else b
  }
}
