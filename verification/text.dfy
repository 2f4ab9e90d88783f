/** String operations the backend relies on, written out with the semantics of
    the JavaScript built-ins they stand for (`Array.prototype.join`,
    `String.prototype.split`, `includes`, `replace`, `toUpperCase`, ...).
    Characters are treated as ASCII where case matters. */
module Text {

  /** `parts.join(sep)` */
  function Join(parts: seq<string>, sep: string): string
  {
    if |parts| == 0 then ""
    else if |parts| == 1 then parts[0]
    else parts[0] + sep + Join(parts[1..], sep)
  }

  /** Position of the first occurrence of `c` in `s` (`indexOf`, for a present character). */
  function IndexOf(s: string, c: char): (i: nat)
    requires c in s
    ensures i < |s| && s[i] == c && c !in s[..i]
  {
    if s[0] == c then 0 else 1 + IndexOf(s[1..], c)
  }

  /** `s.split(c)` for a one-character separator. */
  function Split(s: string, c: char): (parts: seq<string>)
    ensures |parts| >= 1
    ensures forall k :: 0 <= k < |parts| ==> c !in parts[k]
    decreases |s|
  {
    if c !in s then [s]
    else
      var i := IndexOf(s, c);
      [s[..i]] + Split(s[i + 1..], c)
  }

  lemma JoinCons(x: string, rest: seq<string>, sep: string)
    requires |rest| >= 1
    ensures Join([x] + rest, sep) == x + sep + Join(rest, sep)
  {
    assert ([x] + rest)[1..] == rest;
  }

  /** Splitting on a character and joining with it again gives back the string. */
  lemma {:induction false} SplitJoin(s: string, c: char)
    ensures Join(Split(s, c), [c]) == s
    decreases |s|
  {
    if c in s {
      var i := IndexOf(s, c);
      var rest := Split(s[i + 1..], c);
      SplitJoin(s[i + 1..], c);
      JoinCons(s[..i], rest, [c]);
      assert s == s[..i] + [c] + s[i + 1..];
    }
  }

  /** `sub` occurs in `s` starting at position `i`. */
  predicate OccursAt(s: string, sub: string, i: nat)
  {
    i + |sub| <= |s| && s[i..i + |sub|] == sub
  }

  /** `s.includes(sub)` */
  predicate Contains(s: string, sub: string)
  {
    exists i: nat :: i <= |s| && OccursAt(s, sub, i)
  }

  /** `a <= b` on strings: character codes compared left to right, a proper
      prefix ordered first. */
  predicate LexLe(a: string, b: string)
  {
    a == [] || (b != [] && (a[0] < b[0] || (a[0] == b[0] && LexLe(a[1..], b[1..]))))
  }

  predicate StartsWith(s: string, prefix: string)
  {
    |prefix| <= |s| && s[..|prefix|] == prefix
  }

  lemma ContainsAt(s: string, sub: string, i: nat)
    requires OccursAt(s, sub, i)
    ensures Contains(s, sub)
  {
  }

  /** `s.replace(pat, rep)` with a string pattern: only the first occurrence. */
  function ReplaceFirst(s: string, pat: string, rep: string): string
    requires |pat| > 0
    decreases |s|
  {
    if |s| < |pat| then s
    else if StartsWith(s, pat) then rep + s[|pat|..]
    else [s[0]] + ReplaceFirst(s[1..], pat, rep)
  }

  /** `s.replace(/pat/g, rep)`: every occurrence, scanning left to right without overlap. */
  function ReplaceAll(s: string, pat: string, rep: string): string
    requires |pat| > 0
    decreases |s|
  {
    if |s| < |pat| then s
    else if StartsWith(s, pat) then rep + ReplaceAll(s[|pat|..], pat, rep)
    else [s[0]] + ReplaceAll(s[1..], pat, rep)
  }

  /** A string that starts with the pattern contains it. */
  lemma StartsContains(s: string, pat: string)
    ensures StartsWith(s, pat) ==> Contains(s, pat)
  {
    if StartsWith(s, pat) {
      ContainsAt(s, pat, 0);
    }
  }

  /** A string whose tail contains the pattern contains it. */
  lemma TailContains(s: string, pat: string)
    requires s != []
    ensures Contains(s[1..], pat) ==> Contains(s, pat)
  {
    if Contains(s[1..], pat) {
      var i: nat :| i <= |s[1..]| && OccursAt(s[1..], pat, i);
      assert s[i + 1..i + 1 + |pat|] == pat;
      ContainsAt(s, pat, i + 1);
    }
  }

  /** A replacement changes nothing in a string that does not contain the pattern. */
  lemma {:induction false} ReplaceAllAbsent(s: string, pat: string, rep: string)
    requires |pat| > 0 && !Contains(s, pat)
    ensures ReplaceAll(s, pat, rep) == s
    decreases |s|
  {
    if |s| >= |pat| {
      StartsContains(s, pat);
      TailContains(s, pat);
      ReplaceAllAbsent(s[1..], pat, rep);
    }
  }


  function LowerChar(c: char): char
  {
    if 'A' <= c <= 'Z' then (c as int + 32) as char else c
  }

  function UpperChar(c: char): char
  {
    if 'a' <= c <= 'z' then (c as int - 32) as char else c
  }

  /** `s.toLowerCase()`, ASCII letters only. */
  function Lower(s: string): (r: string)
    ensures |r| == |s| && forall i :: 0 <= i < |s| ==> r[i] == LowerChar(s[i])
  {
    seq(|s|, i requires 0 <= i < |s| => LowerChar(s[i]))
  }

  /** `s.toUpperCase()`, ASCII letters only. */
  function Upper(s: string): (r: string)
    ensures |r| == |s| && forall i :: 0 <= i < |s| ==> r[i] == UpperChar(s[i])
  {
    seq(|s|, i requires 0 <= i < |s| => UpperChar(s[i]))
  }

  predicate IsDigit(c: char)
  {
    '0' <= c <= '9'
  }

  predicate AllDigits(s: string)
  {
    forall i :: 0 <= i < |s| ==> IsDigit(s[i])
  }

  function DigitValue(c: char): nat
    requires IsDigit(c)
  {
    c as int - '0' as int
  }

  /** The value of a string of decimal digits. */
  function DigitsValue(s: string): nat
    requires AllDigits(s)
  {
    if s == [] then 0 else DigitsValue(s[..|s| - 1]) * 10 + DigitValue(s[|s| - 1])
  }

  /** Decimal rendering of a natural number. */
  function NatToStr(n: nat): (r: string)
    ensures |r| >= 1 && AllDigits(r)
  {
    if n < 10 then ['0' + n as char] else NatToStr(n / 10) + ['0' + (n % 10) as char]
  }

  /** Rendering and reading a number back give the number. */
  lemma {:induction false} NatToStrValue(n: nat)
    ensures DigitsValue(NatToStr(n)) == n
  {
    if n >= 10 {
      NatToStrValue(n / 10);
      var r := NatToStr(n);
      assert r[..|r| - 1] == NatToStr(n / 10);
    }
  }

  function IntToStr(n: int): string
  {
    if n < 0 then "-" + NatToStr(-n) else NatToStr(n)
  }

  /** The regular-expression fragment `\d+(\.\d+)?`: digits, optionally a dot and more digits. */
  predicate IsDecimal(s: string)
  {
    if '.' in s then
      var i := IndexOf(s, '.');
      0 < i < |s| - 1 && AllDigits(s[..i]) && AllDigits(s[i + 1..])
    else
      |s| > 0 && AllDigits(s)
  }

  /** The value a string matching `\d+(\.\d+)?` denotes. */
  function DecimalValue(s: string): real
    requires IsDecimal(s)
  {
    if '.' in s then
      var i := IndexOf(s, '.');
      DigitsValue(s[..i]) as real + DigitsValue(s[i + 1..]) as real / Pow10(|s| - i - 1) as real
    else
      DigitsValue(s) as real
  }

  function Pow10(n: nat): (r: nat)
    ensures r >= 1
  {
    if n == 0 then 1 else 10 * Pow10(n - 1)
  }

  /** The regular-expression fragment `-?\d+(\.\d+)?`. */
  predicate IsSignedDecimal(s: string)
  {
    IsDecimal(s) || (|s| > 0 && s[0] == '-' && IsDecimal(s[1..]))
  }

  function SignedDecimalValue(s: string): real
    requires IsSignedDecimal(s)
  {
    if IsDecimal(s) then DecimalValue(s) else -DecimalValue(s[1..])
  }

  /** `k` zero digits. */
  function Zeros(k: nat): (r: string)
    ensures |r| == k && AllDigits(r)
  {
    seq(k, _ => '0')
  }

  /** `t.padStart(p, '0')` */
  function PadLeft(t: string, p: nat): (r: string)
  {
    if |t| < p then Zeros(p - |t|) + t else t
  }

  /** Leading zeros add nothing to the value of a string of digits. */
  lemma {:induction false} ZerosValue(k: nat, t: string)
    requires AllDigits(t)
    ensures AllDigits(Zeros(k) + t) && DigitsValue(Zeros(k) + t) == DigitsValue(t)
    decreases |t|
  {
    var z := Zeros(k);
    if t == [] {
      assert z + t == z;
      ZerosOnly(k);
    } else {
      var t' := t[..|t| - 1];
      assert (z + t)[..|z + t| - 1] == z + t';
      ZerosValue(k, t');
    }
  }

  lemma {:induction false} ZerosOnly(k: nat)
    ensures DigitsValue(Zeros(k)) == 0
  {
    if k > 0 {
      assert Zeros(k)[..k - 1] == Zeros(k - 1);
      ZerosOnly(k - 1);
    }
  }

  /** A number below `10^p` takes at most `p` digits. */
  lemma {:induction false} NatToStrShort(r: nat, p: nat)
    requires p >= 1 && r < Pow10(p)
    ensures |NatToStr(r)| <= p
  {
    if r >= 10 {
      assert Pow10(p) == 10 * Pow10(p - 1);
      assert 1 <= r / 10 < Pow10(p - 1);
      NatToStrShort(r / 10, p - 1);
    }
  }

  /** Padding a rendered number below `10^p` to `p` digits keeps its value. */
  lemma PaddedValue(r: nat, p: nat)
    requires p >= 1 && r < Pow10(p)
    ensures var f := PadLeft(NatToStr(r), p);
      |f| == p && AllDigits(f) && DigitsValue(f) == r
  {
    NatToStrShort(r, p);
    NatToStrValue(r);
    if |NatToStr(r)| < p {
      ZerosValue(p - |NatToStr(r)|, NatToStr(r));
    }
  }

  /** The first point after a run of digits is where the digits end. */
  lemma {:induction false} PointAfterDigits(a: string, rest: string)
    requires AllDigits(a) && rest != [] && rest[0] == '.'
    ensures '.' in a + rest && IndexOf(a + rest, '.') == |a|
  {
    if a == [] {
      assert a + rest == rest;
    } else {
      assert (a + rest)[1..] == a[1..] + rest;
      PointAfterDigits(a[1..], rest);
    }
  }

  /** Around the first point of digits, a point and more text. */
  lemma PointSplit(a: string, b: string)
    requires AllDigits(a)
    ensures var s := a + "." + b;
      '.' in s && IndexOf(s, '.') == |a| && s[..|a|] == a && s[|a| + 1..] == b
  {
    var s := a + "." + b;
    assert s == a + ("." + b);
    PointAfterDigits(a, "." + b);
  }

  /** Digits, a point and digits form a decimal whose value is read off
      either side of the point. */
  lemma PointParts(a: string, b: string)
    requires a != [] && b != [] && AllDigits(a) && AllDigits(b)
    ensures var s := a + "." + b;
      IsDecimal(s) && DecimalValue(s) == DigitsValue(a) as real + DigitsValue(b) as real / Pow10(|b|) as real
  {
    PointSplit(a, b);
  }

  /** A minus sign before a text with a point is not a bare decimal. */
  lemma MinusNotDecimal(u: string)
    requires '.' in u
    ensures !IsDecimal("-" + u)
  {
    var s := "-" + u;
    var j := IndexOf(u, '.');
    assert s[j + 1] == '.';
    var i := IndexOf(s, '.');
    assert s[0] == '-' && i != 0;
    assert s[..i][0] == '-';
  }

  /** A minus sign, digits, a point and digits: a signed decimal whose
      value is that of the unsigned part, negated. */
  lemma MinusPoint(a: string, b: string)
    requires a != [] && b != [] && AllDigits(a) && AllDigits(b)
    ensures var u := a + "." + b;
      IsSignedDecimal("-" + u)
      && SignedDecimalValue("-" + u) == -(DigitsValue(a) as real + DigitsValue(b) as real / Pow10(|b|) as real)
  {
    var u := a + "." + b;
    PointParts(a, b);
    PointSplit(a, b);
    MinusNotDecimal(u);
    assert ("-" + u)[1..] == u;
  }
}
