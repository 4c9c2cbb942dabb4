/** The JavaScript string and number primitives the storefront's code leans on: the `\s`
    character class, `parseInt`, `parseFloat`, `String(n)` for integers, `toFixed`,
    `startsWith` and `replace` with a string pattern. Numbers are exact: a JavaScript double
    is modelled by an unbounded `int` or a `real`, so rounding and overflow are not modelled. */
module JsText {
  import opened Wrappers
  import Seqs

  /** The `\s` class: ECMAScript WhiteSpace and LineTerminator. `parseInt` and `parseFloat`
      skip the same characters at the front of their argument. */
  predicate IsWhiteSpace(c: char) {
    || c == '\t' || c == '\n' || c == '\U{000B}' || c == '\U{000C}' || c == '\r' || c == ' '
    || c == '\U{00A0}' || c == '\U{1680}' || ('\U{2000}' <= c <= '\U{200A}')
    || c == '\U{2028}' || c == '\U{2029}' || c == '\U{202F}' || c == '\U{205F}'
    || c == '\U{3000}' || c == '\U{FEFF}'
  }

  /** The `\d` class: ASCII decimal digits only. */
  predicate IsDigit(c: char) {
    '0' <= c <= '9'
  }

  predicate IsHexDigit(c: char) {
    IsDigit(c) || 'a' <= c <= 'f' || 'A' <= c <= 'F'
  }

  predicate AllDigits(s: string) {
    forall i :: 0 <= i < |s| ==> IsDigit(s[i])
  }

  /** `s.replace(/\s/g, "")`: every other character of `s`, each as often as in `s`, in
      their order. */
  function RemoveWhiteSpace(s: string): (r: string)
    ensures forall i :: 0 <= i < |r| ==> !IsWhiteSpace(r[i])
    ensures Seqs.IsSubsequence(r, s)
    ensures forall c :: !IsWhiteSpace(c) ==> multiset(r)[c] == multiset(s)[c]
  {
    var keep := c => !IsWhiteSpace(c);
    Seqs.FilterCounts(s, keep);
    Seqs.Filter(s, keep)
  }

  /** `s.replace(/[^\d.]/g, "")`: the digits and dots of `s`, each as often as in `s`, in
      their order. */
  function KeepDigitsAndDots(s: string): (r: string)
    ensures forall i :: 0 <= i < |r| ==> IsDigit(r[i]) || r[i] == '.'
    ensures Seqs.IsSubsequence(r, s)
    ensures forall c :: IsDigit(c) || c == '.' ==> multiset(r)[c] == multiset(s)[c]
  {
    var keep := c => IsDigit(c) || c == '.';
    Seqs.FilterCounts(s, keep);
    Seqs.Filter(s, keep)
  }

  /** `s` without its leading white space. */
  function TrimStart(s: string): (r: string)
    ensures |r| <= |s| && r == s[|s| - |r|..]
    ensures forall i :: 0 <= i < |s| - |r| ==> IsWhiteSpace(s[i])
    ensures r == [] || !IsWhiteSpace(r[0])
  {
    if s != [] && IsWhiteSpace(s[0]) then TrimStart(s[1..]) else s
  }

  /** The longest prefix of `s` whose characters all satisfy `p`. */
  function Span(s: string, p: char -> bool): (d: string)
    ensures |d| <= |s| && d == s[..|d|]
    ensures forall i :: 0 <= i < |d| ==> p(d[i])
    ensures |d| == |s| || !p(s[|d|])
  {
    if s != [] && p(s[0]) then [s[0]] + Span(s[1..], p) else []
  }

  function DigitValue(c: char): (v: nat)
    ensures v < 16
  {
    if '0' <= c <= '9' then c as int - '0' as int
    else if 'a' <= c <= 'f' then c as int - 'a' as int + 10
    else if 'A' <= c <= 'F' then c as int - 'A' as int + 10
    else 0
  }

  /** The number that digit string `d` denotes in base `radix`, most significant digit first. */
  function Value(d: string, radix: nat): nat {
    if d == [] then 0 else Value(d[..|d| - 1], radix) * radix + DigitValue(d[|d| - 1])
  }

  /** `parseInt(s)` without a radix argument; `None` is NaN. Leading white space is skipped, a
      sign is read, a `0x`/`0X` prefix switches to base 16, and the longest run of digits that
      follows is converted; anything after it is ignored. */
  function ParseInt(s: string): Option<int> {
    var t := TrimStart(s);
    var negative := |t| > 0 && t[0] == '-';
    var u := if |t| > 0 && (t[0] == '+' || t[0] == '-') then t[1..] else t;
    var hex := |u| >= 2 && u[0] == '0' && (u[1] == 'x' || u[1] == 'X');
    var digits := if hex then Span(u[2..], IsHexDigit) else Span(u, IsDigit);
    var magnitude: int := Value(digits, if hex then 16 else 10);
    if digits == [] then None else Some(if negative then -magnitude else magnitude)
  }

  /** A string whose first character is not white space, a sign or a digit is NaN to
      `parseInt`. */
  lemma ParseIntOfNonNumeric(s: string)
    requires |s| > 0 && !IsWhiteSpace(s[0]) && !IsDigit(s[0]) && s[0] != '+' && s[0] != '-'
    ensures ParseInt(s) == None
  {
    assert TrimStart(s) == s;
    assert Span(s, IsDigit) == [];
  }

  function DigitChar(d: nat): (c: char)
    requires d < 10
    ensures IsDigit(c) && DigitValue(c) == d
  {
    ('0' as int + d) as char
  }

  /** The decimal digits of `n`, without leading zeros. */
  function NatToString(n: nat): (s: string)
    ensures |s| >= 1 && AllDigits(s)
    ensures s[0] == '0' ==> n == 0
    ensures Value(s, 10) == n
  {
    if n < 10 then [DigitChar(n)]
    else
      var s := NatToString(n / 10) + [DigitChar(n % 10)];
      assert s[..|s| - 1] == NatToString(n / 10);
      s
  }

  /** `String(n)` for an integer-valued number (below 10^21, where JavaScript would switch to
      exponent notation). */
  function IntToString(n: int): string {
    if n < 0 then "-" + NatToString(-n) else NatToString(n)
  }

  lemma SpanOfAll(s: string, p: char -> bool)
    requires forall i :: 0 <= i < |s| ==> p(s[i])
    ensures Span(s, p) == s
  {
  }

  /** Reading back what `String(n)` wrote gives `n`: the stock counter survives the
      write-then-read cycle of the settings table. */
  lemma {:induction false} ParseIntOfIntToString(n: int)
    ensures ParseInt(IntToString(n)) == Some(n)
  {
    var s := IntToString(n);
    var m: nat := if n < 0 then -n else n;
    var u := NatToString(m);
    assert s[0] == '-' || IsDigit(s[0]);
    assert TrimStart(s) == s;
    if n < 0 {
      assert s[1..] == u;
    }
    assert |u| >= 2 ==> u[0] != '0';
    SpanOfAll(u, IsDigit);
  }

  /** A JavaScript number: NaN, a finite value (exact, so `-0` is `0`) or an infinity. */
  datatype JsNumber = NaN | Finite(value: real) | Infinity(negative: bool)

  /** `1 / x` on exact numbers: the reciprocal of zero is +Infinity (the sign of zero is not
      modelled) and that of an infinity is zero. */
  function Reciprocal(x: JsNumber): (r: JsNumber)
    ensures x.Finite? && x.value != 0.0 ==> r.Finite? && r.value * x.value == 1.0
    ensures x.NaN? <==> r.NaN?
  {
    match x
    case NaN => NaN
    case Finite(v) => if v == 0.0 then Infinity(false) else Finite(1.0 / v)
    case Infinity(_) => Finite(0.0)
  }

  /** `x * y` on exact numbers: NaN absorbs, an infinity times zero is NaN, and the sign of an
      infinite product follows the signs of the factors. */
  function Times(x: JsNumber, y: JsNumber): (r: JsNumber)
    ensures x.Finite? && y.Finite? ==> r == Finite(x.value * y.value)
    ensures (x.NaN? || y.NaN?) ==> r.NaN?
  {
    if x.NaN? || y.NaN? then NaN
    else if x.Finite? && y.Finite? then Finite(x.value * y.value)
    else if x.Infinity? && y.Infinity? then Infinity(x.negative != y.negative)
    else if x.Infinity? then (if y.value == 0.0 then NaN else Infinity(x.negative != (y.value < 0.0)))
    else if x.value == 0.0 then NaN else Infinity(y.negative != (x.value < 0.0))
  }

  /** A configuration value as JavaScript tests it: unset and empty are both falsy. */
  predicate IsTruthy(v: Option<string>) {
    v.Some? && v.value != ""
  }

  /** `String(v)` (or `${v}`) of a value that is a string or `undefined`. */
  function StringOf(v: Option<string>): string {
    match v
    case Some(t) => t
    case None => "undefined"
  }

  /** JavaScript truthiness of a number: NaN and zero are falsy. */
  predicate Truthy(x: JsNumber) {
    x.Infinity? || (x.Finite? && x.value != 0.0)
  }

  function Exp10(e: nat): (r: nat)
    ensures r >= 1
  {
    if e == 0 then 1 else 10 * Exp10(e - 1)
  }

  function Pow10(e: nat): (r: real)
    ensures r >= 1.0
  {
    Exp10(e) as real
  }

  /** `x` times 10 to the power `e`. */
  function Scale(x: real, e: int): (r: real)
    ensures x >= 0.0 ==> r >= 0.0
  {
    if e >= 0 then x * Pow10(e)
    else
      var p := Pow10(-e);
      assert x >= 0.0 ==> x / p >= 0.0 by {
        if x >= 0.0 {
          assert (x / p) * p == x;
        }
      }
      x / p
  }

  /** The value of the digits `whole`, a point, and the digits `frac`. */
  function DecimalValue(whole: string, frac: string): (r: real)
    ensures r >= 0.0
  {
    var p := Pow10(|frac|);
    var f := Value(frac, 10) as real;
    assert f / p >= 0.0 by {
      assert (f / p) * p == f;
    }
    Value(whole, 10) as real + f / p
  }

  /** The exponent of a decimal literal: `e`/`E`, an optional sign and at least one digit;
      without digits the `e` is not part of the literal and the exponent is 0. */
  function ExponentPart(s: string): int {
    if |s| > 0 && (s[0] == 'e' || s[0] == 'E') then
      var v := s[1..];
      var negative := |v| > 0 && v[0] == '-';
      var w := if |v| > 0 && (v[0] == '+' || v[0] == '-') then v[1..] else v;
      var value: int := Value(Span(w, IsDigit), 10);
      if negative then -value else value
    else 0
  }

  /** The value of the longest decimal literal at the front of `u` (digits, an optional
      fraction, an optional exponent, at least one digit in all); `None` when there is none. */
  function ParseUnsignedDecimal(u: string): (r: Option<real>)
    ensures r.Some? ==> r.value >= 0.0
  {
    var whole := Span(u, IsDigit);
    var afterWhole := u[|whole|..];
    var hasDot := |afterWhole| > 0 && afterWhole[0] == '.';
    var frac := if hasDot then Span(afterWhole[1..], IsDigit) else [];
    if whole == [] && frac == [] then None
    else
      var rest := if hasDot then afterWhole[1 + |frac|..] else afterWhole;
      Some(Scale(DecimalValue(whole, frac), ExponentPart(rest)))
  }

  /** `parseFloat(s)`: leading white space is skipped, a sign is read, then the longest prefix
      that is `Infinity` or a decimal literal is converted; otherwise NaN. */
  function ParseFloat(s: string): JsNumber {
    var t := TrimStart(s);
    var negative := |t| > 0 && t[0] == '-';
    var u := if |t| > 0 && (t[0] == '+' || t[0] == '-') then t[1..] else t;
    if |u| >= 8 && u[..8] == "Infinity" then Infinity(negative)
    else
      match ParseUnsignedDecimal(u)
      case None => NaN
      case Some(magnitude) => Finite(if negative then -magnitude else magnitude)
  }

  /** A string whose first character is not white space, a sign, a digit, a point or the `I`
      of `Infinity` is NaN to `parseFloat`. */
  lemma ParseFloatOfNonNumeric(s: string)
    requires |s| > 0 && !IsWhiteSpace(s[0]) && !IsDigit(s[0])
    requires s[0] != '+' && s[0] != '-' && s[0] != '.' && s[0] != 'I'
    ensures ParseFloat(s) == NaN
  {
    assert TrimStart(s) == s;
    if |s| >= 8 {
      assert s[..8][0] == s[0];
    }
    assert Span(s, IsDigit) == [];
  }

  /** A string made only of digits and '.' (what `replace(/[^\d.]/g, "")` leaves) parses to NaN
      or to a finite number that is not negative: no sign, exponent or `Infinity` survives. */
  lemma DigitsAndDotsParse(s: string)
    requires forall i :: 0 <= i < |s| ==> IsDigit(s[i]) || s[i] == '.'
    ensures ParseFloat(s).NaN? || (ParseFloat(s).Finite? && ParseFloat(s).value >= 0.0)
  {
    assert TrimStart(s) == s;
    if |s| >= 8 {
      assert s[..8][0] == s[0];
    }
  }

  /** `s.startsWith(p)`. */
  predicate StartsWith(s: string, p: string) {
    |p| <= |s| && s[..|p|] == p
  }

  /** `s.indexOf(pat)`: the first position at which `pat` occurs in `s`. */
  function IndexOf(s: string, pat: string): (r: Option<nat>)
    ensures r.Some? ==> r.value + |pat| <= |s| && s[r.value..r.value + |pat|] == pat
    ensures r.Some? ==> forall j :: 0 <= j < r.value ==> !StartsWith(s[j..], pat)
    ensures r.None? ==> forall j :: 0 <= j <= |s| ==> !StartsWith(s[j..], pat)
    decreases |s|
  {
    if StartsWith(s, pat) then Some(0)
    else if s == [] then None
    else
      match IndexOf(s[1..], pat)
      case None =>
        assert forall j :: 1 <= j <= |s| ==> s[j..] == s[1..][j - 1..];
        None
      case Some(k) =>
        assert forall j :: 1 <= j <= |s| ==> s[j..] == s[1..][j - 1..];
        assert s[k + 1..k + 1 + |pat|] == s[1..][k..k + |pat|];
        Some(k + 1)
  }

  /** `s.replace(pat, rep)` with a string pattern: only the first occurrence is replaced. */
  function ReplaceFirst(s: string, pat: string, rep: string): (r: string)
    ensures IndexOf(s, pat).None? ==> r == s
  {
    match IndexOf(s, pat)
    case None => s
    case Some(i) => s[..i] + rep + s[i + |pat|..]
  }

  /** When `s` starts with `pat`, replacing the first occurrence of `pat` by nothing removes
      exactly that prefix. */
  lemma ReplaceLeadingPrefix(s: string, pat: string)
    requires StartsWith(s, pat)
    ensures ReplaceFirst(s, pat, "") == s[|pat|..]
  {
  }

  /** `"0"` repeated `k` times. */
  function Zeros(k: nat): (z: string)
    ensures |z| == k && AllDigits(z) && Value(z, 10) == 0
  {
    if k == 0 then [] else
      var z := Zeros(k - 1) + "0";
      assert z[..|z| - 1] == Zeros(k - 1);
      z
  }

  /** The pieces of `x.toFixed(f)`: a sign, the integer digits and exactly `f` fraction
      digits. */
  datatype Fixed = Fixed(negative: bool, whole: string, frac: string) {
    function Text(): string {
      (if negative then "-" else "") + whole + (if frac == [] then "" else "." + frac)
    }
  }

  lemma {:induction false} ValueAppend(a: string, b: string)
    ensures Value(a + b, 10) == Value(a, 10) * Exp10(|b|) + Value(b, 10)
    decreases |b|
  {
    if b == [] {
      assert a + b == a;
    } else {
      var ab, b' := a + b, b[..|b| - 1];
      var d := DigitValue(b[|b| - 1]);
      assert ab[..|ab| - 1] == a + b' && ab[|ab| - 1] == b[|b| - 1];
      ValueAppend(a, b');
      var x, p, y := Value(a, 10), Exp10(|b'|), Value(b', 10);
      Regroup(Value(ab, 10), x, p, y, d, Exp10(|b|), Value(b, 10));
    }
  }

  lemma Regroup(v: int, x: int, p: int, y: int, d: int, e: int, w: int)
    requires v == (x * p + y) * 10 + d && e == p * 10 && w == y * 10 + d
    ensures v == x * e + w
  {
    assert (x * p) * 10 == x * (p * 10);
  }

  lemma NonNegativeProduct(a: real, b: real)
    requires a >= 0.0 && b >= 0.0
    ensures a * b >= 0.0
  {
  }

  /** The integer nearest to |x|·10^f, the larger one on a tie. */
  function RoundScaled(x: real, f: nat): (n: nat)
    ensures var y := (if x < 0.0 then -x else x) * Pow10(f);
            n as real - 0.5 <= y < n as real + 0.5
  {
    var m := if x < 0.0 then -x else x;
    var y := m * Pow10(f);
    assert y >= 0.0 by {
      NonNegativeProduct(m, Pow10(f));
    }
    var n := (y + 0.5).Floor;
    assert n as real <= y + 0.5 < n as real + 1.0;
    n
  }

  /** The digits of `n`, left-padded with zeros to at least f+1 characters. */
  function PaddedDigits(n: nat, f: nat): (padded: string)
    ensures |padded| >= f + 1 && AllDigits(padded) && Value(padded, 10) == n
  {
    var digits := NatToString(n);
    if |digits| <= f then
      var zeros := Zeros(f + 1 - |digits|);
      ValueAppend(zeros, digits);
      zeros + digits
    else digits
  }

  /** The digits of `n`, left-padded with zeros to at least f+1 characters and split before
      the last `f` of them. */
  function SplitDigits(n: nat, f: nat): (p: (string, string))
    ensures |p.0| >= 1 && AllDigits(p.0)
    ensures |p.1| == f && AllDigits(p.1)
    ensures Value(p.0, 10) * Exp10(f) + Value(p.1, 10) == n
  {
    var padded := PaddedDigits(n, f);
    var whole, frac := padded[..|padded| - f], padded[|padded| - f..];
    assert padded == whole + frac;
    ValueAppend(whole, frac);
    (whole, frac)
  }

  /** `x.toFixed(f)` split into its pieces, following ECMAScript's Number.prototype.toFixed on
      the exact value of `x`: the integer nearest to |x|·10^f (the larger one on a tie) is
      written with at least f+1 digits and a point is put before the last f of them; a
      negative `x` gets a leading '-'. Exponent notation for |x| >= 10^21 is not modelled. */
  function ToFixedParts(x: real, f: nat): (p: Fixed)
    ensures |p.frac| == f && AllDigits(p.frac)
    ensures |p.whole| >= 1 && AllDigits(p.whole)
    ensures p.negative <==> x < 0.0
    ensures var scaled := (Value(p.whole, 10) * Exp10(f) + Value(p.frac, 10)) as real;
            var m := if x < 0.0 then -x else x;
            scaled - 0.5 <= m * Pow10(f) < scaled + 0.5
  {
    var digits := SplitDigits(RoundScaled(x, f), f);
    Fixed(x < 0.0, digits.0, digits.1)
  }

  /** `x.toFixed(f)`. */
  function ToFixed(x: real, f: nat): string {
    ToFixedParts(x, f).Text()
  }
}
