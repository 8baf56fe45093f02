/**
 * The few PHP built-ins the core relies on, stated exactly: truthiness of strings,
 * `strtoupper` (ASCII only, as it is locale-insensitive since PHP 8.2), `trim`, `str_starts_with`, `str_contains`,
 * `round` (half away from zero) and `number_format`.
 */
module Php {
  import opened Wrappers

  // ---------------------------------------------------------------- truthiness

  /** A PHP string is falsy exactly when it is "" or "0". */
  predicate Truthy(s: string) {
    s != "" && s != "0"
  }

  /** A nullable string column: null is falsy too. */
  predicate TruthyOpt(p: Option<string>) {
    p.Some? && Truthy(p.value)
  }

  /** `empty($x)` on a nullable setting value: the negation of truthiness. */
  predicate IsEmpty(p: Option<string>) {
    !TruthyOpt(p)
  }

  /** A null string used in a string context reads as "". */
  function OrEmpty(p: Option<string>): string {
    p.GetOr("")
  }

  // ---------------------------------------------------------------- strings

  predicate StartsWith(s: string, prefix: string) {
    |prefix| <= |s| && s[..|prefix|] == prefix
  }

  predicate OccursAt(s: string, needle: string, i: int) {
    0 <= i <= |s| - |needle| && s[i..i + |needle|] == needle
  }

  /** `str_contains` */
  predicate Contains(s: string, needle: string) {
    exists i | 0 <= i <= |s| - |needle| :: OccursAt(s, needle, i)
  }

  function UpperChar(c: char): (u: char)
    ensures 'a' <= c <= 'z' ==> u as int == c as int - 32
    ensures !('a' <= c <= 'z') ==> u == c
  {
    if 'a' <= c <= 'z' then (c as int - 32) as char else c
  }

  /** `strtoupper`: ASCII letters only, every other character unchanged. */
  function Upper(s: string): (r: string)
    ensures |r| == |s|
    ensures forall i :: 0 <= i < |s| ==> r[i] == UpperChar(s[i])
  {
    seq(|s|, i requires 0 <= i < |s| => UpperChar(s[i]))
  }

  /** The characters `trim` strips by default: " \t\n\r\0\x0B". */
  predicate IsTrimmed(c: char) {
    c == ' ' || c == '\t' || c == '\n' || c == '\r' || c == '\0' || c == 11 as char
  }

  function TrimLeft(s: string): string {
    if s != [] && IsTrimmed(s[0]) then TrimLeft(s[1..]) else s
  }

  function TrimRight(s: string): string {
    if s != [] && IsTrimmed(s[|s| - 1]) then TrimRight(s[..|s| - 1]) else s
  }

  /** `trim`: strips the default characters from both ends. */
  function Trim(s: string): string {
    TrimRight(TrimLeft(s))
  }

  lemma {:induction false} TrimLeftSuffix(s: string)
    ensures |TrimLeft(s)| <= |s| && TrimLeft(s) == s[|s| - |TrimLeft(s)|..]
    ensures TrimLeft(s) == [] || !IsTrimmed(TrimLeft(s)[0])
    decreases |s|
  {
    if s != [] && IsTrimmed(s[0]) {
      TrimLeftSuffix(s[1..]);
    }
  }

  lemma {:induction false} TrimRightPrefix(s: string)
    ensures |TrimRight(s)| <= |s| && TrimRight(s) == s[..|TrimRight(s)|]
    ensures TrimRight(s) == [] || !IsTrimmed(TrimRight(s)[|TrimRight(s)| - 1])
    decreases |s|
  {
    if s != [] && IsTrimmed(s[|s| - 1]) {
      TrimRightPrefix(s[..|s| - 1]);
    }
  }

  /** `trim` gives a contiguous slice of its input with no strippable character at either end. */
  lemma TrimIsSlice(s: string)
    ensures OccursAt(s, Trim(s), |s| - |TrimLeft(s)|)
    ensures Trim(s) == [] || (!IsTrimmed(Trim(s)[0]) && !IsTrimmed(Trim(s)[|Trim(s)| - 1]))
  {
    var l := TrimLeft(s);
    TrimLeftSuffix(s);
    TrimRightPrefix(l);
    var r := TrimRight(l);
    assert r == s[|s| - |l|..][..|r|] == s[|s| - |l|..|s| - |l| + |r|];
    if r != [] {
      assert r[0] == l[0];
    }
  }

  /** `trim(strtoupper($x))`, the brand normalisation used against Digiflazz. */
  function Normalize(s: string): string {
    Trim(Upper(s))
  }

  /** Byte-wise ordering of `strcmp`, which `sort` uses on non-numeric strings. */
  predicate StrLe(a: string, b: string)
    decreases |a|
  {
    a == [] || (b != [] && (a[0] < b[0] || (a[0] == b[0] && StrLe(a[1..], b[1..]))))
  }

  lemma {:induction false} StrLeTotal(a: string, b: string)
    ensures StrLe(a, b) || StrLe(b, a)
    decreases |a|
  {
    if a != [] && b != [] && a[0] == b[0] {
      StrLeTotal(a[1..], b[1..]);
    }
  }

  lemma {:induction false} StrLeTransitive(a: string, b: string, c: string)
    requires StrLe(a, b) && StrLe(b, c)
    ensures StrLe(a, c)
    decreases |a|
  {
    if a != [] && b != [] && c != [] && a[0] == b[0] && b[0] == c[0] {
      StrLeTransitive(a[1..], b[1..], c[1..]);
    }
  }

  lemma {:induction false} StrLeAntisymmetric(a: string, b: string)
    requires StrLe(a, b) && StrLe(b, a)
    ensures a == b
    decreases |a|
  {
    if a != [] && b != [] {
      StrLeAntisymmetric(a[1..], b[1..]);
      assert a == [a[0]] + a[1..];
      assert b == [b[0]] + b[1..];
    }
  }

  // ---------------------------------------------------------------- numbers

  /** PHP `round($x)`: the nearest integer, halves rounded away from zero. */
  function Round(x: real): (r: int)
    ensures x >= 0.0 ==> r >= 0
    ensures x <= 0.0 ==> r <= 0
    ensures (r as real) - 0.5 <= x <= (r as real) + 0.5
    ensures x >= 0.0 ==> x < (r as real) + 0.5
    ensures x <= 0.0 ==> (r as real) - 0.5 < x
  {
    if x >= 0.0 then (x + 0.5).Floor else -((-x + 0.5).Floor)
  }

  lemma RoundOfInteger(n: int)
    ensures Round(n as real) == n
  {
  }

  lemma RoundMonotonic(x: real, y: real)
    requires x <= y
    ensures Round(x) <= Round(y)
  {
  }

  /**
   * PHP `round($x, 2)`: a whole number of hundredths, namely `x` in hundredths rounded as `Round`
   * rounds (halves away from zero).
   */
  function Round2(x: real): (r: real)
    ensures x >= 0.0 ==> r >= 0.0
    ensures x <= 0.0 ==> r <= 0.0
    ensures r - 0.005 <= x <= r + 0.005
    ensures r * 100.0 == Round(x * 100.0) as real
  {
    Round(x * 100.0) as real / 100.0
  }

  function DigitChar(d: int): char
    requires 0 <= d < 10
  {
    ('0' as int + d) as char
  }

  /** Decimal notation of a natural number, most significant digit first. */
  function NatToString(n: nat): (s: string)
    ensures |s| >= 1
    ensures forall i :: 0 <= i < |s| ==> '0' <= s[i] <= '9'
  {
    if n < 10 then [DigitChar(n)] else NatToString(n / 10) + [DigitChar(n % 10)]
  }

  /** PHP's string conversion of an integer. */
  function IntToString(n: int): string {
    if n < 0 then "-" + NatToString(-n) else NatToString(n)
  }

  /** Exactly three digits, leading zeros kept: one thousands group. */
  function Pad3(n: nat): (s: string)
    requires n < 1000
    ensures |s| == 3
  {
    [DigitChar(n / 100), DigitChar(n / 10 % 10), DigitChar(n % 10)]
  }

  /** Digits of `n` with a '.' between every group of three, as `number_format($n, 0, ',', '.')`. */
  function GroupThousands(n: nat): string {
    if n < 1000 then NatToString(n) else GroupThousands(n / 1000) + "." + Pad3(n % 1000)
  }

  /** `number_format($x, 0, ',', '.')`: rounded half away from zero, grouped by '.'. */
  function NumberFormat0(x: real): string {
    var r := Round(x);
    if r < 0 then "-" + GroupThousands(-r) else GroupThousands(r)
  }

  function WithoutDots(s: string): string {
    if s == [] then [] else (if s[0] == '.' then [] else [s[0]]) + WithoutDots(s[1..])
  }

  lemma {:induction false} WithoutDotsAppend(a: string, b: string)
    ensures WithoutDots(a + b) == WithoutDots(a) + WithoutDots(b)
    decreases |a|
  {
    if a == [] {
      assert a + b == b;
    } else {
      assert (a + b)[1..] == a[1..] + b;
      WithoutDotsAppend(a[1..], b);
    }
  }

  lemma {:induction false} WithoutDotsOfDigits(s: string)
    requires forall i :: 0 <= i < |s| ==> '0' <= s[i] <= '9'
    ensures WithoutDots(s) == s
    decreases |s|
  {
    if s != [] {
      WithoutDotsOfDigits(s[1..]);
      assert s == [s[0]] + s[1..];
    }
  }

  lemma NatToStringSplit(n: nat)
    requires n >= 1000
    ensures NatToString(n) == NatToString(n / 1000) + Pad3(n % 1000)
  {
    var a := n / 1000;
    var b := n % 1000;
    assert n == 1000 * a + b;
    assert n / 10 == 100 * a + b / 10 && n % 10 == b % 10;
    assert n / 10 / 10 == 10 * a + b / 100 && n / 10 % 10 == b / 10 % 10;
    assert n / 10 / 10 / 10 == a && n / 10 / 10 % 10 == b / 100;
    calc {
      NatToString(n);
      NatToString(n / 10) + [DigitChar(n % 10)];
      NatToString(n / 10 / 10) + [DigitChar(n / 10 % 10)] + [DigitChar(n % 10)];
      NatToString(a) + [DigitChar(n / 10 / 10 % 10)] + [DigitChar(n / 10 % 10)] + [DigitChar(n % 10)];
    }
  }

  /** Dropping the thousands separators from `number_format` gives back the plain decimal digits. */
  lemma {:induction false} GroupThousandsDigits(n: nat)
    ensures WithoutDots(GroupThousands(n)) == NatToString(n)
    decreases n
  {
    if n < 1000 {
      WithoutDotsOfDigits(NatToString(n));
    } else {
      GroupThousandsDigits(n / 1000);
      var p := Pad3(n % 1000);
      WithoutDotsAppend(GroupThousands(n / 1000) + ".", p);
      WithoutDotsAppend(GroupThousands(n / 1000), ".");
      WithoutDotsOfDigits(p);
      NatToStringSplit(n);
    }
  }
}
