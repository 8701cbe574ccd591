/**
 * Character classes, digit filtering, trimming and integer rendering as the
 * JavaScript code uses them (`\d`, `\s`, `String.prototype.trim`, template
 * literals over integers).  Strings are sequences of Unicode scalar values.
 */
module Text {

  datatype Option<+T> = None | Some(value: T)

  /** `\d` in a JavaScript regular expression. */
  predicate IsDigit(c: char) {
    '0' <= c <= '9'
  }

  /** `\s` in a JavaScript regular expression; also what `trim` strips. */
  predicate IsSpace(c: char) {
    || c == ' ' || c == '\t' || c == '\n' || c == '\U{0B}' || c == '\U{0C}' || c == '\r'
    || c == '\U{A0}' || c == '\U{1680}' || ('\U{2000}' <= c <= '\U{200A}')
    || c == '\U{2028}' || c == '\U{2029}' || c == '\U{202F}' || c == '\U{205F}'
    || c == '\U{3000}' || c == '\U{FEFF}'
  }

  /** The characters `.` in a JavaScript regular expression does not match. */
  predicate IsLineTerminator(c: char) {
    c == '\n' || c == '\r' || c == '\U{2028}' || c == '\U{2029}'
  }

  predicate AllDigits(s: string) {
    forall i | 0 <= i < |s| :: IsDigit(s[i])
  }

  /** `s.replace(/\D/g, '')`: the digits of `s`, in order. */
  function Digits(s: string): (r: string)
    ensures |r| <= |s|
    ensures AllDigits(r)
  {
    if s == [] then [] else (if IsDigit(s[0]) then [s[0]] else []) + Digits(s[1..])
  }

  lemma {:induction false} DigitsOfDigits(s: string)
    requires AllDigits(s)
    ensures Digits(s) == s
  {
    if s != [] {
      DigitsOfDigits(s[1..]);
    }
  }

  lemma {:induction false} DigitsAppend(a: string, b: string)
    ensures Digits(a + b) == Digits(a) + Digits(b)
  {
    if a == [] {
      assert a + b == b;
    } else {
      assert (a + b)[1..] == a[1..] + b;
      DigitsAppend(a[1..], b);
    }
  }

  /** Filtering the digits a second time changes nothing. */
  lemma DigitsIdempotent(s: string)
    ensures Digits(Digits(s)) == Digits(s)
  {
    DigitsOfDigits(Digits(s));
  }

  /** `trimStart`: drop leading white space. */
  function TrimStart(s: string): (r: string)
    ensures |r| <= |s| && r == s[|s| - |r|..]
    ensures r == [] || !IsSpace(r[0])
    ensures forall i | 0 <= i < |s| - |r| :: IsSpace(s[i])
  {
    if s != [] && IsSpace(s[0]) then TrimStart(s[1..]) else s
  }

  /** `trimEnd`: drop trailing white space. */
  function TrimEnd(s: string): (r: string)
    ensures |r| <= |s| && r == s[..|r|]
    ensures r == [] || !IsSpace(r[|r| - 1])
    ensures forall i | |r| <= i < |s| :: IsSpace(s[i])
  {
    if s != [] && IsSpace(s[|s| - 1]) then TrimEnd(s[..|s| - 1]) else s
  }

  /** `String.prototype.trim`. */
  function Trim(s: string): (r: string)
  {
    TrimEnd(TrimStart(s))
  }

  /** Trimming keeps a contiguous slice, whose ends are not white space. */
  lemma TrimSlice(s: string)
    ensures exists i, j | 0 <= i <= j <= |s| :: Trim(s) == s[i..j]
    ensures Trim(s) == [] || (!IsSpace(Trim(s)[0]) && !IsSpace(Trim(s)[|Trim(s)| - 1]))
  {
    var t := TrimStart(s);
    var i := |s| - |t|;
    var r := TrimEnd(t);
    assert Trim(s) == r;
    assert t == s[i..] && r == t[..|r|];
    assert r == s[i..i + |r|] by {
      assert s[i..][..|r|] == s[i..i + |r|];
    }
  }

  /** Trimming never lengthens a string, and the result neither starts nor ends with white space. */
  lemma TrimEnds(s: string)
    ensures |Trim(s)| <= |s|
    ensures Trim(s) == [] || (!IsSpace(Trim(s)[0]) && !IsSpace(Trim(s)[|Trim(s)| - 1]))
  {
    var t := TrimStart(s);
    var r := TrimEnd(t);
    assert r != [] ==> r[0] == t[0];
  }

  /** Trimming a string that neither starts nor ends with white space changes nothing. */
  lemma TrimNoop(s: string)
    requires s == [] || (!IsSpace(s[0]) && !IsSpace(s[|s| - 1]))
    ensures Trim(s) == s
  {
  }

  /** A string of digits has no white space to trim. */
  lemma TrimDigits(s: string)
    requires AllDigits(s)
    ensures Trim(s) == s
  {
    if s != [] {
      assert IsDigit(s[0]) && IsDigit(s[|s| - 1]);
    }
    TrimNoop(s);
  }

  lemma TrimIdempotent(s: string)
    ensures Trim(Trim(s)) == Trim(s)
  {
    TrimSlice(s);
    TrimNoop(Trim(s));
  }

  predicate AllSpace(s: string) {
    forall i | 0 <= i < |s| :: IsSpace(s[i])
  }

  lemma {:induction false} TrimStartDrops(s: string) returns (p: string)
    ensures AllSpace(p) && s == p + TrimStart(s)
  {
    if s != [] && IsSpace(s[0]) {
      var p' := TrimStartDrops(s[1..]);
      p := [s[0]] + p';
      assert TrimStart(s) == TrimStart(s[1..]);
      assert s == [s[0]] + s[1..];
      assert [s[0]] + (p' + TrimStart(s[1..])) == p + TrimStart(s[1..]);
      forall i | 0 <= i < |p| ensures IsSpace(p[i]) {
        if i > 0 {
          assert p[i] == p'[i - 1];
        }
      }
    } else {
      p := [];
    }
  }

  lemma {:induction false} TrimEndDrops(s: string) returns (q: string)
    ensures AllSpace(q) && s == TrimEnd(s) + q
  {
    if s != [] && IsSpace(s[|s| - 1]) {
      var q' := TrimEndDrops(s[..|s| - 1]);
      q := q' + [s[|s| - 1]];
      assert s == s[..|s| - 1] + [s[|s| - 1]];
    } else {
      q := [];
    }
  }

  /** Every string is its trimmed core between two runs of white space. */
  lemma TrimParts(s: string) returns (p: string, q: string)
    ensures AllSpace(p) && AllSpace(q) && s == p + Trim(s) + q
  {
    p := TrimStartDrops(s);
    q := TrimEndDrops(TrimStart(s));
  }

  /** `s` is `r` with white space, and nothing else, added on either side. */
  ghost predicate Surrounds(s: string, r: string) {
    exists p, q | AllSpace(p) && AllSpace(q) :: s == p + r + q
  }

  /** Every string surrounds itself, with nothing added. */
  lemma SurroundsSelf(s: string)
    ensures Surrounds(s, s)
  {
    assert AllSpace([]);
    assert s == [] + s + [];
  }

  /** Trimming removes only white space, from the two ends. */
  lemma TrimSurrounds(s: string)
    ensures Surrounds(s, Trim(s))
  {
    var p, q := TrimParts(s);
  }

  /** Whatever every character of a text satisfies, every character of the trimmed text satisfies. */
  lemma TrimPreserves(s: string, P: char -> bool)
    requires forall i | 0 <= i < |s| :: P(s[i])
    ensures forall i | 0 <= i < |Trim(s)| :: P(Trim(s)[i])
  {
    var p, q := TrimParts(s);
    var t := Trim(s);
    forall i | 0 <= i < |t| ensures P(t[i]) {
      assert t[i] == s[|p| + i];
    }
  }

  lemma {:induction false} TrimStartSkips(p: string, y: string)
    requires AllSpace(p)
    requires y == [] || !IsSpace(y[0])
    ensures TrimStart(p + y) == y
  {
    if p == [] {
      assert p + y == y;
    } else {
      assert (p + y)[1..] == p[1..] + y;
      TrimStartSkips(p[1..], y);
    }
  }

  lemma {:induction false} TrimEndSkips(y: string, q: string)
    requires AllSpace(q)
    requires y == [] || !IsSpace(y[|y| - 1])
    ensures TrimEnd(y + q) == y
  {
    if q == [] {
      assert y + q == y;
    } else {
      assert (y + q)[..|y + q| - 1] == y + q[..|q| - 1];
      TrimEndSkips(y, q[..|q| - 1]);
    }
  }

  /** White space around a core that does not start or end with white space is exactly what trimming drops. */
  lemma TrimAround(p: string, x: string, q: string)
    requires AllSpace(p) && AllSpace(q)
    requires x == [] || (!IsSpace(x[0]) && !IsSpace(x[|x| - 1]))
    ensures Trim(p + x + q) == x
  {
    if x == [] {
      assert p + x + q == (p + q) + [];
      assert AllSpace(p + q);
      TrimStartSkips(p + q, []);
    } else {
      assert p + x + q == p + (x + q);
      TrimStartSkips(p, x + q);
      TrimEndSkips(x, q);
    }
  }

  function DigitChar(d: nat): (c: char)
    requires d < 10
    ensures IsDigit(c)
  {
    ['0', '1', '2', '3', '4', '5', '6', '7', '8', '9'][d]
  }

  function DigitValue(c: char): (d: nat)
    requires IsDigit(c)
    ensures d < 10 && DigitChar(d) == c
  {
    (c as int - '0' as int) as nat
  }

  /** The decimal rendering of a natural number, as `${n}` gives it. */
  function NatToString(n: nat): (r: string)
    ensures |r| >= 1 && AllDigits(r)
    ensures r[0] == '0' ==> n == 0
    decreases n
  {
    if n < 10 then [DigitChar(n)] else NatToString(n / 10) + [DigitChar(n % 10)]
  }

  /** `parseInt(s, 10)` on a string of decimal digits. */
  function ParseDigits(s: string): nat
    requires AllDigits(s)
  {
    if s == [] then 0 else 10 * ParseDigits(s[..|s| - 1]) + DigitValue(s[|s| - 1])
  }

  lemma {:induction false} ParseNatToString(n: nat)
    ensures ParseDigits(NatToString(n)) == n
    decreases n
  {
    var r := NatToString(n);
    if n >= 10 {
      ParseNatToString(n / 10);
      assert r[..|r| - 1] == NatToString(n / 10);
      DigitRoundTrip(n % 10);
    } else {
      DigitRoundTrip(n);
    }
  }

  /** Reading back a rendered digit gives the digit. */
  lemma DigitRoundTrip(d: nat)
    requires d < 10
    ensures DigitValue(DigitChar(d)) == d
  {
  }

  /** The decimal rendering of an integer, as `${i}` gives it (no exponent form). */
  function IntToString(i: int): (r: string)
  {
    if i < 0 then "-" + NatToString(-i) else NatToString(i)
  }

  lemma NatToStringInjective(a: nat, b: nat)
    requires NatToString(a) == NatToString(b)
    ensures a == b
  {
    ParseNatToString(a);
    ParseNatToString(b);
  }

  /** Different integers render differently. */
  lemma IntToStringInjective(a: int, b: int)
    requires IntToString(a) == IntToString(b)
    ensures a == b
  {
    IntToStringSign(a);
    IntToStringSign(b);
    if a < 0 {
      NatToStringInjective(-a, -b);
    } else {
      NatToStringInjective(a, b);
    }
  }

  /** The rendering starts with `-` exactly for a negative integer, followed by its magnitude. */
  lemma IntToStringSign(a: int)
    ensures |IntToString(a)| >= 1
    ensures (IntToString(a)[0] == '-') <==> a < 0
    ensures a < 0 ==> IntToString(a)[1..] == NatToString(-a)
    ensures a >= 0 ==> IntToString(a) == NatToString(a)
  {
    if a >= 0 {
      assert IsDigit(NatToString(a)[0]);
    } else {
      assert ("-" + NatToString(-a))[1..] == NatToString(-a);
    }
  }

  /** `Math.ceil(a / b)` for a positive divisor (Dafny's `/` floors for b > 0). */
  function CeilDiv(a: int, b: int): (q: int)
    requires b > 0
    ensures (q - 1) * b < a <= q * b
  {
    -((-a) / b)
  }

  /** `s.join(sep)`. */
  function Join(parts: seq<string>, sep: string): string
  {
    if parts == [] then "" else if |parts| == 1 then parts[0] else parts[0] + sep + Join(parts[1..], sep)
  }

  /** The joined text starts with the first part. */
  lemma JoinPrefix(parts: seq<string>, sep: string)
    requires parts != []
    ensures parts[0] <= Join(parts, sep)
  {
    if |parts| > 1 {
      assert Join(parts, sep) == parts[0] + (sep + Join(parts[1..], sep));
    }
  }
}
