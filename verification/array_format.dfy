/** The glove demo's byte-array formatter: bytes written as unsigned
    decimals between brackets, separated by ", ". A parser for that text
    serves as its partner: it reads back exactly the bytes written. */
module ArrayFormat {
  import opened Outcomes
  import ProGloveLib

  type byte = ProGloveLib.byte

  predicate IsDigit(c: char)
  {
    '0' <= c <= '9'
  }

  predicate AllDigits(s: string)
  {
    forall i :: 0 <= i < |s| ==> IsDigit(s[i])
  }

  function DigitChar(d: nat): (c: char)
    requires d < 10
    ensures IsDigit(c)
  {
    ('0' as int + d) as char
  }

  /** The decimal text of `n`, as `<<` writes an int. */
  function Dec(n: nat): (s: string)
    ensures 1 <= |s| && AllDigits(s)
    ensures n < 10 <==> |s| == 1
    ensures n < 10 ==> s == [DigitChar(n)]
    ensures n >= 10 ==> s[0] != '0'
    decreases n
  {
    if n < 10 then [DigitChar(n)] else Dec(n / 10) + [DigitChar(n % 10)]
  }

  /** The number a digit string stands for. */
  function DecValue(s: string): nat
    requires AllDigits(s)
  {
    if s == [] then 0 else DecValue(s[..|s| - 1]) * 10 + (s[|s| - 1] as int - '0' as int)
  }

  lemma {:induction false} DecRoundTrip(n: nat)
    ensures DecValue(Dec(n)) == n
    decreases n
  {
    if n >= 10 {
      DecRoundTrip(n / 10);
      var s := Dec(n);
      assert s[..|s| - 1] == Dec(n / 10);
    }
  }

  /** A byte takes one to three digits. */
  lemma DecWidth(n: nat)
    requires n < 256
    ensures 1 <= |Dec(n)| <= 3
  {
    if n >= 10 {
      assert n / 10 < 26;
      if n / 10 >= 10 {
        assert n / 100 < 10;
      }
    }
  }

  /** The elements and their separators, without brackets. */
  function Body(d: seq<byte>): string
  {
    if d == [] then []
    else if |d| == 1 then Dec(d[0] as nat)
    else Dec(d[0] as nat) + ", " + Body(d[1..])
  }

  /** The text formatArray returns for the bytes `d`. */
  function Render(d: seq<byte>): string
  {
    "[" + Body(d) + "]"
  }

  lemma {:induction false} BodySnoc(d: seq<byte>, x: byte)
    ensures Body(d + [x]) == if d == [] then Dec(x as nat) else Body(d) + ", " + Dec(x as nat)
    decreases |d|
  {
    if |d| == 1 {
      assert (d + [x])[1..] == [x];
    } else if |d| > 1 {
      assert (d + [x])[1..] == d[1..] + [x];
      BodySnoc(d[1..], x);
    } else {
      assert d + [x] == [x];
    }
  }

  method FormatArray(data: array<byte>, size: nat) returns (s: string)
    requires size <= data.Length
    ensures s == Render(data[..size])
  {
    s := "[";
    var i := 0;
    while i < size
      invariant 0 <= i <= size
      invariant s == "[" + Body(data[..i])
    {
      assert "[" + Body(data[..i + 1]) == (if i > 0 then s + ", " else s) + Dec(data[i] as nat) by {
        assert data[..i + 1] == data[..i] + [data[i]];
        BodySnoc(data[..i], data[i]);
      }
      if i > 0 {
        s := s + ", ";
      }
      s := s + Dec(data[i] as nat);
      i := i + 1;
    }
    s := s + "]";
  }

  /** No bytes give exactly "[]"; any text opens with `[` and closes with `]`. */
  lemma RenderBrackets(d: seq<byte>)
    ensures d == [] ==> Render(d) == "[]"
    ensures |Render(d)| >= 2 && Render(d)[0] == '[' && Render(d)[|Render(d)| - 1] == ']'
  {
  }

  /** The first element follows the bracket directly. */
  lemma RenderFirst(d: seq<byte>)
    requires d != []
    ensures Render(d)[..1 + |Dec(d[0] as nat)|] == "[" + Dec(d[0] as nat)
  {
    if |d| == 1 {
      assert Render(d) == "[" + Dec(d[0] as nat) + "]";
    } else {
      assert Render(d) == "[" + Dec(d[0] as nat) + (", " + Body(d[1..]) + "]");
    }
  }

  function Count(s: string, c: char): nat
  {
    if s == [] then 0 else (if s[0] == c then 1 else 0) + Count(s[1..], c)
  }

  lemma {:induction false} CountAppend(a: string, b: string, c: char)
    ensures Count(a + b, c) == Count(a, c) + Count(b, c)
    decreases |a|
  {
    if a == [] {
      assert a + b == b;
    } else {
      assert (a + b)[0] == a[0];
      assert (a + b)[1..] == a[1..] + b;
      CountAppend(a[1..], b, c);
    }
  }

  lemma {:induction false} CountNone(s: string, c: char)
    requires forall i :: 0 <= i < |s| ==> s[i] != c
    ensures Count(s, c) == 0
    decreases |s|
  {
    if s != [] {
      CountNone(s[1..], c);
    }
  }

  /** There is one separator fewer than elements, none for no bytes. */
  lemma {:induction false} BodySeparators(d: seq<byte>)
    ensures Count(Body(d), ',') == if d == [] then 0 else |d| - 1
    decreases |d|
  {
    if d != [] {
      CountNone(Dec(d[0] as nat), ',');
      if |d| > 1 {
        BodySeparators(d[1..]);
        CountAppend(Dec(d[0] as nat), ", " + Body(d[1..]), ',');
        CountAppend(", ", Body(d[1..]), ',');
        assert Dec(d[0] as nat) + ", " + Body(d[1..]) == Dec(d[0] as nat) + (", " + Body(d[1..]));
      }
    }
  }

  lemma RenderSeparators(d: seq<byte>)
    ensures Count(Render(d), ',') == if d == [] then 0 else |d| - 1
  {
    BodySeparators(d);
    CountAppend("[", Body(d), ',');
    CountAppend("[" + Body(d), "]", ',');
  }

  /** The length of the run of digits at the front of `s`. */
  function DigitRun(s: string): (n: nat)
    ensures n <= |s| && (forall i :: 0 <= i < n ==> IsDigit(s[i]))
    ensures n == |s| || !IsDigit(s[n])
  {
    if s == [] || !IsDigit(s[0]) then 0 else 1 + DigitRun(s[1..])
  }

  /** The longest run of digits at the front of `s`, and what follows. */
  function TakeDigits(s: string): (r: (string, string))
    ensures r.0 + r.1 == s && AllDigits(r.0)
    ensures r.1 == [] || !IsDigit(r.1[0])
  {
    var n := DigitRun(s);
    assert s[..n] + s[n..] == s;
    (s[..n], s[n..])
  }

  lemma {:induction false} DigitRunExact(ds: string, t: string)
    requires AllDigits(ds)
    requires t == [] || !IsDigit(t[0])
    ensures DigitRun(ds + t) == |ds|
    decreases |ds|
  {
    if ds == [] {
      assert ds + t == t;
    } else {
      assert (ds + t)[0] == ds[0];
      assert (ds + t)[1..] == ds[1..] + t;
      DigitRunExact(ds[1..], t);
    }
  }

  lemma TakeDigitsExact(ds: string, t: string)
    requires AllDigits(ds)
    requires t == [] || !IsDigit(t[0])
    ensures TakeDigits(ds + t) == (ds, t)
  {
    DigitRunExact(ds, t);
    assert (ds + t)[..|ds|] == ds && (ds + t)[|ds|..] == t;
  }

  /** Reads elements separated by ", "; each must be a decimal below 256. */
  function ParseItems(s: string): Option<seq<byte>>
    decreases |s|
  {
    var (ds, rest) := TakeDigits(s);
    if ds == [] || DecValue(ds) >= 256 then None
    else
      var b := DecValue(ds) as byte;
      if rest == [] then Some([b])
      else if |rest| >= 2 && rest[..2] == ", " then
        match ParseItems(rest[2..])
        case Some(bs) => Some([b] + bs)
        case None => None
      else None
  }

  /** Reads back a bracketed list. */
  function ParseArray(s: string): Option<seq<byte>>
  {
    if |s| >= 2 && s[0] == '[' && s[|s| - 1] == ']' then
      var inner := s[1..|s| - 1];
      if inner == [] then Some([]) else ParseItems(inner)
    else None
  }

  /** One element read off the front. */
  lemma ParseItemsStep(x: byte, t: string)
    requires t == [] || (|t| >= 2 && t[..2] == ", ")
    ensures t == [] ==> ParseItems(Dec(x as nat) + t) == Some([x])
    ensures t != [] && ParseItems(t[2..]).Some? ==> ParseItems(Dec(x as nat) + t) == Some([x] + ParseItems(t[2..]).value)
    ensures t != [] && ParseItems(t[2..]).None? ==> ParseItems(Dec(x as nat) + t) == None
  {
    DecRoundTrip(x as nat);
    if t != [] {
      assert t[0] == ", "[0];
    }
    TakeDigitsExact(Dec(x as nat), t);
  }

  lemma ParseItemsOne(x: byte)
    ensures ParseItems(Dec(x as nat)) == Some([x])
  {
    ParseItemsStep(x, []);
    assert Dec(x as nat) + [] == Dec(x as nat);
  }

  lemma ParseItemsCons(x: byte, rest: string, bs: seq<byte>)
    requires ParseItems(rest) == Some(bs)
    ensures ParseItems(Dec(x as nat) + ", " + rest) == Some([x] + bs)
  {
    var tail := ", " + rest;
    assert tail[..2] == ", " && tail[2..] == rest;
    ParseItemsStep(x, tail);
    assert Dec(x as nat) + ", " + rest == Dec(x as nat) + tail;
  }

  lemma {:induction false} ParseBody(d: seq<byte>)
    requires d != []
    ensures ParseItems(Body(d)) == Some(d)
    decreases |d|
  {
    if |d| == 1 {
      assert Body(d) == Dec(d[0] as nat);
      ParseItemsOne(d[0]);
      assert d == [d[0]];
    } else {
      assert Body(d) == Dec(d[0] as nat) + ", " + Body(d[1..]);
      ParseBody(d[1..]);
      ParseItemsCons(d[0], Body(d[1..]), d[1..]);
      assert [d[0]] + d[1..] == d;
    }
  }

  /** Reading the formatted text gives back the bytes, in order. */
  lemma ParseRender(d: seq<byte>)
    ensures ParseArray(Render(d)) == Some(d)
  {
    var s := Render(d);
    assert s[1..|s| - 1] == Body(d);
    if d != [] {
      ParseBody(d);
    }
  }
}
