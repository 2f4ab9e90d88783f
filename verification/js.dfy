/** JavaScript values as the backend sees them in request bodies, query
    strings, SQL parameters and rows, with the coercions the code relies on:
    truthiness, `||`, `===`, `parseInt`, `Number(...)`, template-literal
    rendering, and the property operations on plain objects. */
module Js {
  import opened Text

  datatype Option<T> = None | Some(value: T)

  datatype Value =
    | Undefined
    | Null
    | Bool(b: bool)
    | Num(n: real)
    | NaN
    | Str(s: string)
    | Arr(items: seq<Value>)
    | Obj(fields: seq<Field>)

  /** One own property of a plain object; an object is its properties in insertion order. */
  datatype Field = Field(key: string, val: Value)

  /** false, 0, "", null, undefined and NaN are falsy; everything else is truthy. */
  predicate Truthy(v: Value)
  {
    match v
    case Undefined => false
    case Null => false
    case Bool(b) => b
    case Num(n) => n != 0.0
    case NaN => false
    case Str(s) => s != ""
    case _ => true
  }

  /** `a || b` */
  function Or(a: Value, b: Value): Value
  {
    if Truthy(a) then a else b
  }

  /** `a === b` on primitives: NaN equals nothing, not even itself. */
  predicate StrictEq(a: Value, b: Value)
  {
    a != NaN && a == b
  }

  function IntNum(n: int): Value
  {
    Num(n as real)
  }

  /** A database column that is NULL or holds an integer. */
  function NumOrNull(o: Option<int>): Value
  {
    match o
    case None => Null
    case Some(n) => IntNum(n)
  }

  // ---------------------------------------------------------------------
  // Plain objects

  /** `o[k]`: the value of the property, or undefined when there is none. */
  function Get(o: seq<Field>, k: string): Value
  {
    if o == [] then Undefined
    else if o[0].key == k then o[0].val
    else Get(o[1..], k)
  }

  /** `Object.keys(o)` */
  function Keys(o: seq<Field>): (ks: seq<string>)
    ensures |ks| == |o|
  {
    if o == [] then [] else [o[0].key] + Keys(o[1..])
  }

  /** `Object.values(o)` */
  function Values(o: seq<Field>): (vs: seq<Value>)
    ensures |vs| == |o|
  {
    if o == [] then [] else [o[0].val] + Values(o[1..])
  }

  /** `k in o` */
  predicate HasKey(o: seq<Field>, k: string)
  {
    k in Keys(o)
  }

  /** Property names of a JavaScript object are distinct. */
  predicate DistinctKeys(o: seq<Field>)
  {
    o == [] || (o[0].key !in Keys(o[1..]) && DistinctKeys(o[1..]))
  }

  lemma {:induction false} GetAbsent(o: seq<Field>, k: string)
    requires !HasKey(o, k)
    ensures Get(o, k) == Undefined
  {
    if o != [] {
      GetAbsent(o[1..], k);
    }
  }

  /** The i-th key is the key of the i-th field. */
  lemma {:induction false} KeysAt(o: seq<Field>)
    ensures forall i :: 0 <= i < |o| ==> Keys(o)[i] == o[i].key
  {
    if o != [] {
      KeysAt(o[1..]);
    }
  }

  /** The first field with a key gives its value. */
  lemma {:induction false} GetAt(o: seq<Field>, i: nat)
    requires i < |o| && forall j :: 0 <= j < i ==> o[j].key != o[i].key
    ensures Get(o, o[i].key) == o[i].val
  {
    if i > 0 {
      GetAt(o[1..], i - 1);
    }
  }

  /** `o[k] = v`: an existing property keeps its position, a new one goes last. */
  function Put(o: seq<Field>, k: string, v: Value): (r: seq<Field>)
    ensures Get(r, k) == v
    ensures forall k' :: k' != k ==> Get(r, k') == Get(o, k')
    ensures Keys(r) == if HasKey(o, k) then Keys(o) else Keys(o) + [k]
  {
    if o == [] then [Field(k, v)]
    else if o[0].key == k then [Field(k, v)] + o[1..]
    else [o[0]] + Put(o[1..], k, v)
  }

  /** Assigning one property leaves another as it was. */
  lemma PutOther(o: seq<Field>, k: string, v: Value, k': string)
    requires k' != k
    ensures Get(Put(o, k, v), k') == Get(o, k')
  {
  }

  lemma {:induction false} PutDistinct(o: seq<Field>, k: string, v: Value)
    requires DistinctKeys(o)
    ensures DistinctKeys(Put(o, k, v))
  {
    if o != [] && o[0].key != k {
      PutDistinct(o[1..], k, v);
    }
  }

  /** `delete o[k]` */
  function Remove(o: seq<Field>, k: string): (r: seq<Field>)
    ensures !HasKey(r, k)
    ensures forall k' :: k' != k ==> Get(r, k') == Get(o, k')
    ensures forall k' :: k' in Keys(r) ==> k' in Keys(o)
  {
    if o == [] then []
    else if o[0].key == k then Remove(o[1..], k)
    else
      var rest := Remove(o[1..], k);
      assert ([o[0]] + rest)[1..] == rest;
      assert Keys([o[0]] + rest) == [o[0].key] + Keys(rest);
      assert Keys(o) == [o[0].key] + Keys(o[1..]);
      [o[0]] + rest
  }

  /** A JavaScript object that the code mutates in place (a request body, a
      query object, an `updates` argument). */
  class JsObject {
    var fields: seq<Field>

    constructor (init: seq<Field>)
      ensures fields == init
    {
      fields := init;
    }

    /** `this[k] = v` */
    method Assign(k: string, v: Value)
      modifies this
      ensures fields == Put(old(fields), k, v)
    {
      fields := Put(fields, k, v);
    }

    /** `delete this[k]` */
    method Delete(k: string)
      modifies this
      ensures fields == Remove(old(fields), k)
    {
      fields := Remove(fields, k);
    }
  }

  // ---------------------------------------------------------------------
  // Conversions

  /** A real with no fractional part. */
  predicate IsWhole(x: real)
  {
    x == x.Floor as real
  }

  /** `x` with its point moved `p` places to the right. */
  function Shift(x: real, p: nat): real
  {
    if p == 0 then x else 10.0 * Shift(x, p - 1)
  }

  lemma {:induction false} ShiftIs(x: real, p: nat)
    ensures Shift(x, p) == x * Pow10(p) as real
  {
    if p > 0 {
      ShiftIs(x, p - 1);
    }
  }

  /** The most digits after the point a number is written with. */
  const MaxPlaces: nat := 20

  /** The fewest places, from `k` up to `MaxPlaces`, after which `x` is
      whole; `MaxPlaces + 1` when there are none. */
  function Places(x: real, k: nat): (p: nat)
    requires k <= MaxPlaces + 1
    ensures k <= p <= MaxPlaces + 1
    ensures p <= MaxPlaces ==> IsWhole(Shift(x, p))
    decreases MaxPlaces + 1 - k
  {
    if k > MaxPlaces then k
    else if IsWhole(Shift(x, k)) then k
    else Places(x, k + 1)
  }

  /** `x` has at most `MaxPlaces` digits after the point. */
  predicate Terminates(x: real)
  {
    IsWhole(x) || Places(x, 1) <= MaxPlaces
  }

  /** The magnitude of `x` in units of `10^-p`. */
  function Scaled(x: real, p: nat): nat
  {
    var m := Shift(x, p).Floor;
    if m < 0 then -m else m
  }

  /** The number of whole `d`s in `n`. */
  function Units(n: nat, d: nat): nat
    requires d >= 1
  {
    n / d
  }

  /** The digits before the point of `x` written with `p` places. */
  function WholeDigits(x: real, p: nat): string
  {
    NatToStr(Units(Scaled(x, p), Pow10(p)))
  }

  /** The `p` digits after the point, leading zeros kept. */
  function PlaceDigits(x: real, p: nat): string
  {
    PadLeft(NatToStr(Scaled(x, p) % Pow10(p)), p)
  }

  /** Fixed-point rendering of a number that is whole after `p` places:
      a minus sign for a negative number, the whole part, a point and the
      `p` digits after it. */
  function FixedStr(x: real, p: nat): string
  {
    var u := WholeDigits(x, p) + "." + PlaceDigits(x, p);
    if x < 0.0 then "-" + u else u
  }

  /** Dividing a whole number of units of `10^-p` by `10^p` splits it at the point. */
  lemma SplitDiv(n: nat, P: nat)
    requires P >= 1
    ensures (n / P) as real + (n % P) as real / P as real == n as real / P as real
  {
    var q, r := n / P, n % P;
    assert n == q * P + r;
    assert n as real == q as real * P as real + r as real;
  }

  lemma ScaleBack(y: real, z: real, P: real)
    requires P >= 1.0 && y == z * P
    ensures y / P == z
  {
  }

  /** `Math.abs` */
  function Mag(x: real): real
  {
    if x < 0.0 then -x else x
  }

  /** The magnitude of a multiple of `P` is the magnitude times `P`. */
  lemma AbsScale(y: real, x: real, P: real)
    requires P >= 1.0 && y == x * P
    ensures Mag(y) == Mag(x) * P
  {
    if x < 0.0 {
      assert x * P < 0.0;
      assert -(x * P) == (-x) * P;
    } else {
      assert x * P >= 0.0;
    }
  }

  /** The magnitude of `x * P`, divided by `P`, is that of `x`. */
  lemma UnscaleMag(n: real, y: real, x: real, P: real)
    requires P >= 1.0 && y == x * P && n == Mag(y)
    ensures n / P == Mag(x)
  {
    AbsScale(y, x, P);
    ScaleBack(n, Mag(x), P);
  }

  /** The floor of a whole number is the number, sign included. */
  lemma WholeAbs(y: real)
    requires IsWhole(y)
    ensures (if y.Floor < 0 then -y.Floor else y.Floor) as real == Mag(y)
  {
  }

  /** `Scaled` is the magnitude times `10^p` when that product is whole. */
  lemma ScaledValue(x: real, p: nat)
    requires IsWhole(Shift(x, p))
    ensures Scaled(x, p) as real / Pow10(p) as real == Mag(x)
  {
    var y := Shift(x, p);
    ShiftIs(x, p);
    WholeAbs(y);
    assert Scaled(x, p) as real == Mag(y);
    UnscaleMag(Scaled(x, p) as real, y, x, Pow10(p) as real);
  }

  /** The two digit runs of a fixed-point rendering read back as the
      magnitude of the number. */
  lemma FixedParts(x: real, p: nat)
    requires p >= 1 && IsWhole(Shift(x, p))
    ensures var a, b := WholeDigits(x, p), PlaceDigits(x, p);
      a != [] && AllDigits(a) && |b| == p && AllDigits(b)
      && DigitsValue(a) as real + DigitsValue(b) as real / Pow10(p) as real == Mag(x)
  {
    var P := Pow10(p);
    var n := Scaled(x, p);
    PaddedValue(n % P, p);
    NatToStrValue(Units(n, P));
    SplitDiv(n, P);
    ScaledValue(x, p);
  }

  /** Template-literal rendering `${v}`. A whole number is written with all
      its digits, any other number in fixed-point notation with the fewest
      places (at most `MaxPlaces`) that write it exactly. Arrays are joined
      with commas, with null and undefined elements rendered empty. */
  function ToStr(v: Value): string
  {
    match v
    case Undefined => "undefined"
    case Null => "null"
    case Bool(b) => if b then "true" else "false"
    case Num(n) =>
      if IsWhole(n) then IntToStr(n.Floor)
      else if Places(n, 1) <= MaxPlaces then FixedStr(n, Places(n, 1))
      else ""
    case NaN => "NaN"
    case Str(s) => s
    case Arr(items) =>
      Join(seq(|items|, i requires 0 <= i < |items| =>
        if items[i].Undefined? || items[i].Null? then "" else ToStr(items[i])), ",")
    case Obj(_) => "[object Object]"
  }

  predicate IsSpace(c: char)
  {
    c == ' ' || c == '\t' || c == '\n' || c == '\r' || c == '\U{000B}' || c == '\U{000C}'
    || c == '\U{00A0}' || c == '\U{FEFF}'
  }

  function TrimStart(s: string): (r: string)
    ensures |r| <= |s| && r == s[|s| - |r|..]
    ensures r != [] ==> !IsSpace(r[0])
  {
    if s != [] && IsSpace(s[0]) then TrimStart(s[1..]) else s
  }

  function TrimEnd(s: string): string
  {
    if s != [] && IsSpace(s[|s| - 1]) then TrimEnd(s[..|s| - 1]) else s
  }

  predicate IsHexDigit(c: char)
  {
    IsDigit(c) || 'a' <= c <= 'f' || 'A' <= c <= 'F'
  }

  function HexValue(c: char): nat
    requires IsHexDigit(c)
  {
    if IsDigit(c) then DigitValue(c)
    else if 'a' <= c <= 'f' then c as int - 'a' as int + 10
    else c as int - 'A' as int + 10
  }

  predicate IsRadixDigit(c: char, hex: bool)
  {
    if hex then IsHexDigit(c) else IsDigit(c)
  }

  /** Length of the longest prefix of `s` made of digits of the radix (10 or 16). */
  function DigitRun(s: string, hex: bool): (n: nat)
    ensures n <= |s| && forall i :: 0 <= i < n ==> IsRadixDigit(s[i], hex)
  {
    if s != [] && IsRadixDigit(s[0], hex) then 1 + DigitRun(s[1..], hex) else 0
  }

  /** Value of a string of digits of the radix. */
  function RunValue(t: string, hex: bool): nat
    requires forall i :: 0 <= i < |t| ==> IsRadixDigit(t[i], hex)
  {
    if t == [] then 0
    else
      var c := t[|t| - 1];
      assert IsRadixDigit(c, hex);
      RunValue(t[..|t| - 1], hex) * (if hex then 16 else 10) + (if hex then HexValue(c) else DigitValue(c))
  }

  /** `parseInt(s)` with no radix: leading white space skipped, an optional
      sign, a `0x` prefix switching to hexadecimal, then the longest run of
      digits; NaN when there is none. */
  function ParseIntStr(s: string): (r: Value)
    ensures r.Num? || r == NaN
  {
    var t := TrimStart(s);
    var neg := t != [] && t[0] == '-';
    var u := if t != [] && (t[0] == '-' || t[0] == '+') then t[1..] else t;
    var hex := |u| >= 2 && u[0] == '0' && (u[1] == 'x' || u[1] == 'X');
    var w := if hex then u[2..] else u;
    var n := DigitRun(w, hex);
    if n == 0 then NaN
    else
      var m := RunValue(w[..n], hex) as real;
      Num(if neg then -m else m)
  }

  /** `parseInt(v)`: the argument is first rendered as a string. */
  function ParseInt(v: Value): (r: Value)
    ensures r.Num? || r == NaN
  {
    ParseIntStr(ToStr(v))
  }

  /** `Number(s)`: surrounding white space ignored, "" is 0, a signed decimal is
      its value, anything else NaN. */
  function StrToNumber(s: string): (r: Value)
    ensures r.Num? || r == NaN
  {
    var t := TrimEnd(TrimStart(s));
    if t == "" then Num(0.0)
    else if IsSignedDecimal(t) then Num(SignedDecimalValue(t))
    else if |t| > 1 && t[0] == '+' && IsDecimal(t[1..]) then Num(DecimalValue(t[1..]))
    else NaN
  }

  /** A string that starts and ends with a non-blank character is not trimmed. */
  lemma Untrimmed(s: string)
    requires s != [] && !IsSpace(s[0]) && !IsSpace(s[|s| - 1])
    ensures TrimEnd(TrimStart(s)) == s
  {
  }

  /** A written-out integer reads back as itself. */
  lemma IntStrDecimal(k: int)
    ensures IsSignedDecimal(IntToStr(k)) && SignedDecimalValue(IntToStr(k)) == k as real
  {
    var m: nat := if k < 0 then -k else k;
    var t := NatToStr(m);
    NatToStrValue(m);
    assert '.' !in t by {
      assert forall i :: 0 <= i < |t| ==> IsDigit(t[i]);
    }
    if k < 0 {
      assert IntToStr(k)[1..] == t;
      assert !IsDecimal(IntToStr(k)) by {
        assert '.' !in IntToStr(k);
        assert !IsDigit(IntToStr(k)[0]);
      }
    }
  }

  /** A fixed-point rendering reads back as its number. */
  lemma FixedStrDecimal(x: real, p: nat)
    requires p >= 1 && IsWhole(Shift(x, p))
    ensures IsSignedDecimal(FixedStr(x, p)) && SignedDecimalValue(FixedStr(x, p)) == x
  {
    FixedParts(x, p);
    if x < 0.0 {
      MinusPoint(WholeDigits(x, p), PlaceDigits(x, p));
    } else {
      PointParts(WholeDigits(x, p), PlaceDigits(x, p));
    }
  }

  /** `Number` reads a written-out integer back. */
  lemma WholeRoundTrip(k: int)
    ensures StrToNumber(IntToStr(k)) == Num(k as real)
  {
    var s := IntToStr(k);
    IntStrDecimal(k);
    assert NatToStr(if k < 0 then -k else k)[0] == s[if k < 0 then 1 else 0];
    Untrimmed(s);
  }

  /** `Number` reads a fixed-point rendering back. */
  lemma FixedRoundTrip(x: real, p: nat)
    requires p >= 1 && IsWhole(Shift(x, p))
    ensures StrToNumber(FixedStr(x, p)) == Num(x)
  {
    FixedStrDecimal(x, p);
    FixedEnds(x, p);
    Untrimmed(FixedStr(x, p));
  }

  /** A fixed-point rendering starts with a sign or a digit and ends with a digit. */
  lemma FixedEnds(x: real, p: nat)
    requires p >= 1 && IsWhole(Shift(x, p))
    ensures var s := FixedStr(x, p);
      s != [] && (s[0] == '-' || IsDigit(s[0])) && IsDigit(s[|s| - 1])
  {
    FixedParts(x, p);
    var a, b := WholeDigits(x, p), PlaceDigits(x, p);
    var u := a + "." + b;
    assert u[0] == a[0] && u[|u| - 1] == b[|b| - 1];
  }

  /** `Number(String(x))` is `x` for every number with at most `MaxPlaces`
      digits after the point. */
  lemma NumberRoundTrip(x: real)
    requires Terminates(x)
    ensures StrToNumber(ToStr(Num(x))) == Num(x)
  {
    if IsWhole(x) {
      WholeRoundTrip(x.Floor);
    } else {
      FixedRoundTrip(x, Places(x, 1));
    }
  }

  /** `Number(v)`, the coercion applied by `*`, `-` and `>=`. */
  function ToNumber(v: Value): (r: Value)
    ensures r.Num? || r == NaN
  {
    match v
    case Undefined => NaN
    case Null => Num(0.0)
    case Bool(b) => Num(if b then 1.0 else 0.0)
    case Num(n) => v
    case NaN => NaN
    case _ => StrToNumber(ToStr(v))
  }

  /** `a * b` */
  function Mul(a: Value, b: Value): Value
  {
    var x, y := ToNumber(a), ToNumber(b);
    if x.Num? && y.Num? then Num(x.n * y.n) else NaN
  }
}
