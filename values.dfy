/** Python values as they occur in BIDS metadata dictionaries, and the few
    Python conversions the incremental applies to them (`int()`, `str()`,
    assignment into a float array). */
module PyValues {
  import opened Wrappers

  /** A metadata value: `None`, a bool, an int, a float (as a real), a string
      or a list (slice timing, authors). */
  datatype Value =
    | Null
    | Bool(b: bool)
    | Int(i: int)
    | Real(r: real)
    | Str(s: string)
    | List(items: seq<Value>)

  predicate IsDigit(c: char) { '0' <= c <= '9' }

  predicate AllDigits(s: string) {
    forall i :: 0 <= i < |s| ==> IsDigit(s[i])
  }

  /** Value of a run of decimal digits, most significant first. */
  function DigitsValue(s: string): nat
    requires AllDigits(s)
  {
    if s == [] then 0
    else DigitsValue(s[..|s| - 1]) * 10 + (s[|s| - 1] as int - '0' as int)
  }

  /** Python's `str(n)` for a non-negative int: decimal, no leading zeros. */
  function NatToString(n: nat): (s: string)
    ensures |s| > 0 && AllDigits(s)
    ensures |s| > 1 ==> s[0] != '0'
  {
    if n < 10 then [('0' as int + n) as char]
    else NatToString(n / 10) + [('0' as int + n % 10) as char]
  }

  /** Python's `str(i)` for any int. */
  function IntToString(i: int): (s: string)
    ensures |s| > 0
    ensures (i < 0) <==> s[0] == '-'
  {
    if i < 0 then "-" + NatToString(-i) else NatToString(i)
  }

  /** Python's `int(s)` on a string: an optional sign followed by at least one
      decimal digit; anything else raises `ValueError` (here `None`). */
  function ParseInt(s: string): (r: Option<int>)
    ensures r.Some? ==> |s| > 0
  {
    if |s| > 0 && (s[0] == '-' || s[0] == '+') then
      var digits := s[1..];
      if |digits| > 0 && AllDigits(digits) then
        var n: int := DigitsValue(digits);
        Some(if s[0] == '-' then -n else n)
      else None
    else if |s| > 0 && AllDigits(s) then Some(DigitsValue(s))
    else None
  }

  lemma {:induction false} DigitsOfNat(n: nat)
    ensures DigitsValue(NatToString(n)) == n
  {
    var s := NatToString(n);
    if n >= 10 {
      DigitsOfNat(n / 10);
      assert s[..|s| - 1] == NatToString(n / 10);
    }
  }

  /** `ParseInt` inverts `IntToString`: `int(str(i)) == i` for every integer. */
  lemma {:induction false} ParseIntOfIntToString(i: int)
    ensures ParseInt(IntToString(i)) == Some(i)
  {
    var s := IntToString(i);
    if i < 0 {
      DigitsOfNat(-i);
      assert s[1..] == NatToString(-i);
    } else {
      DigitsOfNat(i);
      assert s[0] != '-' && s[0] != '+';
    }
  }

  /** Python's `int(x)` for a float: truncation toward zero. */
  function Truncate(x: real): (t: int)
    ensures x >= 0.0 ==> 0 <= t && t as real <= x < t as real + 1.0
    ensures x < 0.0 ==> t <= 0 && t as real - 1.0 < x <= t as real
  {
    if x >= 0.0 then x.Floor else -((-x).Floor)
  }

  /** Python's `int(v)`, `None` where Python raises `ValueError` or `TypeError`. */
  function PyInt(v: Value): (r: Option<int>)
    ensures v.Int? ==> r == Some(v.i)
    ensures v.Real? ==> r == Some(Truncate(v.r))
    ensures v.Bool? ==> r == Some(if v.b then 1 else 0)
    ensures v.Null? || v.List? ==> r.None?
    ensures v.Str? ==> r == ParseInt(v.s)
  {
    match v
    case Int(i) => Some(i)
    case Bool(b) => Some(if b then 1 else 0)
    case Real(x) => Some(Truncate(x))
    case Str(s) => ParseInt(s)
    case _ => None
  }

  /** The number an int, float or bool stands for; `None` for anything else. */
  function AsReal(v: Value): (r: Option<real>)
    ensures v.Int? ==> r == Some(v.i as real)
    ensures v.Real? ==> r == Some(v.r)
    ensures v.Bool? ==> r == Some(if v.b then 1.0 else 0.0)
    ensures v.Str? || v.Null? || v.List? ==> r.None?
  {
    match v
    case Int(i) => Some(i as real)
    case Real(x) => Some(x)
    case Bool(b) => Some(if b then 1.0 else 0.0)
    case _ => None
  }

  /** Python's `==` on metadata values: an int, float or bool equals any of
      them standing for the same number (`2 == 2.0`, `True == 1`), lists are
      equal element by element under the same rule, and anything else equals
      only itself. */
  predicate PyEq(a: Value, b: Value)
  {
    if AsReal(a).Some? || AsReal(b).Some? then AsReal(a) == AsReal(b)
    else if a.List? && b.List? then
      |a.items| == |b.items| && forall i :: 0 <= i < |a.items| ==> PyEq(a.items[i], b.items[i])
    else a == b
  }

  /** `==` holds between values of different kinds only when both are
      numbers; for `None` and strings it is plain equality. */
  lemma PyEqKinds(a: Value, b: Value)
    ensures (a.Null? || a.Str?) ==> (PyEq(a, b) <==> a == b)
    ensures AsReal(a).Some? ==> (PyEq(a, b) <==> AsReal(b) == AsReal(a))
    ensures a.List? ==>
      (PyEq(a, b) <==>
        (b.List? && |a.items| == |b.items| && forall i :: 0 <= i < |a.items| ==> PyEq(a.items[i], b.items[i])))
  {
  }

  /** Python's `==` on metadata values is reflexive, symmetric and
      transitive. */
  lemma {:induction false} PyEqIsEquivalence(a: Value, b: Value, c: Value)
    ensures PyEq(a, a)
    ensures PyEq(a, b) ==> PyEq(b, a)
    ensures PyEq(a, b) && PyEq(b, c) ==> PyEq(a, c)
  {
    if a.List? {
      forall i | 0 <= i < |a.items|
        ensures PyEq(a.items[i], a.items[i])
      {
        PyEqIsEquivalence(a.items[i], a.items[i], a.items[i]);
      }
    }
    if PyEq(a, b) && a.List? && b.List? && AsReal(a).None? {
      forall i | 0 <= i < |b.items|
        ensures PyEq(b.items[i], a.items[i])
      {
        PyEqIsEquivalence(a.items[i], b.items[i], b.items[i]);
      }
      if PyEq(b, c) && c.List? {
        forall i | 0 <= i < |a.items|
          ensures PyEq(a.items[i], c.items[i])
        {
          PyEqIsEquivalence(a.items[i], b.items[i], c.items[i]);
        }
      }
    }
  }

  /** Python's `==` on two dicts: the same keys, and `==` values under each. */
  predicate DictEq(m1: map<string, Value>, m2: map<string, Value>)
  {
    m1.Keys == m2.Keys && forall k :: k in m1 ==> PyEq(m1[k], m2[k])
  }

  /** Dict `==` is reflexive, symmetric and transitive, and holds between
      equal maps. */
  lemma DictEqIsEquivalence(m1: map<string, Value>, m2: map<string, Value>, m3: map<string, Value>)
    ensures DictEq(m1, m1)
    ensures DictEq(m1, m2) ==> DictEq(m2, m1)
    ensures DictEq(m1, m2) && DictEq(m2, m3) ==> DictEq(m1, m3)
  {
    forall k | k in m1
      ensures PyEq(m1[k], m1[k])
      ensures k in m2 ==> (PyEq(m1[k], m2[k]) ==> PyEq(m2[k], m1[k]))
      ensures k in m2 && k in m3 ==> (PyEq(m1[k], m2[k]) && PyEq(m2[k], m3[k]) ==> PyEq(m1[k], m3[k]))
    {
      var v2 := if k in m2 then m2[k] else m1[k];
      var v3 := if k in m3 then m3[k] else m1[k];
      PyEqIsEquivalence(m1[k], v2, v3);
    }
  }

  /** An element of a numpy float array: a number or NaN. */
  datatype Float = Finite(x: real) | NaN

  /** The element stored when `v` is written into a numpy float array: the
      number of an int, float or bool, NaN for `None`; `None` where numpy
      raises instead (a string, a list). */
  function AsFloat(v: Value): (r: Option<Float>)
    ensures v.Null? <==> r == Some(NaN)
    ensures AsReal(v).Some? ==> r == Some(Finite(AsReal(v).value))
    ensures v.Str? || v.List? ==> r.None?
  {
    if v.Null? then Some(NaN)
    else match AsReal(v)
      case Some(x) => Some(Finite(x))
      case None => None
  }

  /** Python's `str(v)` as it appears inside a BIDS path or file name label. */
  function Label(v: Value): string
  {
    match v
    case Str(s) => s
    case Int(i) => IntToString(i)
    case Bool(b) => if b then "True" else "False"
    case Null => "None"
    case Real(x) => if x == x.Floor as real then IntToString(x.Floor) + ".0" else ""
    case List(_) => ""
  }
}
