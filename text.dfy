/**
 * The pieces of Go's `strings` and `strconv` packages that the installer
 * wizard relies on, over `string` (a sequence of Unicode characters).
 *
 * Go compares strings byte by byte in UTF-8; because UTF-8 is
 * self-synchronising, a byte-level prefix, suffix or substring match of
 * valid UTF-8 text is the same as a match on its characters, which is what
 * these definitions state.
 */
module Text {

  datatype Option<T> = None | Some(value: T)

  /** `strings.HasPrefix(s, p)` */
  predicate HasPrefix(s: string, p: string) {
    |p| <= |s| && s[..|p|] == p
  }

  /** `strings.HasSuffix(s, p)` */
  predicate HasSuffix(s: string, p: string) {
    |p| <= |s| && s[|s| - |p|..] == p
  }

  /** `strings.Contains(s, sub)`: `sub` starts at some position of `s`. */
  predicate Contains(s: string, sub: string)
    decreases |s|
  {
    HasPrefix(s, sub) || (|s| > 0 && Contains(s[1..], sub))
  }

  /** `strings.TrimPrefix(s, p)`: `s` without the leading `p`, or `s` itself. */
  function TrimPrefix(s: string, p: string): (r: string)
    ensures HasPrefix(s, p) ==> p + r == s
    ensures !HasPrefix(s, p) ==> r == s
  {
    if HasPrefix(s, p) then s[|p|..] else s
  }

  /** `strings.TrimSuffix(s, p)`: `s` without the trailing `p`, or `s` itself. */
  function TrimSuffix(s: string, p: string): (r: string)
    ensures HasSuffix(s, p) ==> r + p == s
    ensures !HasSuffix(s, p) ==> r == s
  {
    if HasSuffix(s, p) then s[..|s| - |p|] else s
  }

  /** Trimming a suffix that was just appended gives back the original text. */
  lemma TrimSuffixOfAppend(x: string, p: string)
    ensures TrimSuffix(x + p, p) == x
  {
    assert (x + p)[|x + p| - |p|..] == p;
    assert (x + p)[..|x + p| - |p|] == x;
  }

  /** Position of the first `sep` in `s`, if any. */
  function IndexOf(s: string, sep: char): (r: Option<nat>)
    ensures r.Some? ==> r.value < |s| && s[r.value] == sep
    ensures r.Some? ==> forall j :: 0 <= j < r.value ==> s[j] != sep
    ensures r.None? ==> forall j :: 0 <= j < |s| ==> s[j] != sep
  {
    if |s| == 0 then None
    else if s[0] == sep then Some(0)
    else match IndexOf(s[1..], sep)
      case None => None
      case Some(k) => Some(k + 1)
  }


  /**
   * `strings.Split(s, string(sep))`: the pieces of `s` between the
   * separators; a text with n separators has n + 1 pieces, and the empty
   * text has the single piece "".
   */
  function Split(s: string, sep: char): (parts: seq<string>)
    ensures |parts| >= 1
    ensures forall k :: 0 <= k < |parts| ==> sep !in parts[k]
    decreases |s|
  {
    match IndexOf(s, sep)
    case None => [s]
    case Some(i) =>
      assert forall j :: 0 <= j < i ==> s[..i][j] != sep;
      [s[..i]] + Split(s[i + 1..], sep)
  }

  /** `strings.Join(parts, string(sep))` */
  function Join(parts: seq<string>, sep: char): (r: string)
    decreases |parts|
  {
    if |parts| == 0 then ""
    else if |parts| == 1 then parts[0]
    else parts[0] + [sep] + Join(parts[1..], sep)
  }

  /** Joining the pieces of a split with the same separator restores the text. */
  lemma {:induction false} JoinSplit(s: string, sep: char)
    ensures Join(Split(s, sep), sep) == s
    decreases |s|
  {
    match IndexOf(s, sep)
    case None =>
    case Some(i) =>
      var rest := Split(s[i + 1..], sep);
      assert Split(s, sep) == [s[..i]] + rest;
      JoinSplit(s[i + 1..], sep);
      assert s == s[..i] + [sep] + s[i + 1..];
  }

  /** Joining splits at the boundary between two non-empty groups of pieces. */
  lemma {:induction false} JoinAppend(a: seq<string>, b: seq<string>, sep: char)
    requires |a| >= 1 && |b| >= 1
    ensures Join(a + b, sep) == Join(a, sep) + [sep] + Join(b, sep)
    decreases |a|
  {
    if |a| == 1 {
      assert (a + b)[1..] == b;
    } else {
      assert (a + b)[1..] == a[1..] + b;
      JoinAppend(a[1..], b, sep);
    }
  }

  /** A character is an ASCII decimal digit. */
  predicate IsDigit(c: char) {
    '0' <= c <= '9'
  }

  function DigitValue(c: char): (d: nat)
    requires IsDigit(c)
    ensures d < 10
  {
    (c as int - '0' as int) as nat
  }

  function DigitChar(d: nat): (c: char)
    requires d < 10
    ensures IsDigit(c) && DigitValue(c) == d
  {
    (d + '0' as int) as char
  }

  predicate AllDigits(s: string) {
    forall i :: 0 <= i < |s| ==> IsDigit(s[i])
  }

  /** The number a string of decimal digits denotes, most significant first. */
  function DigitsValue(s: string): (v: nat)
    requires AllDigits(s)
  {
    if |s| == 0 then 0 else DigitsValue(s[..|s| - 1]) * 10 + DigitValue(s[|s| - 1])
  }

  /** Bounds of Go's `int` on the 64-bit platforms the installer targets. */
  const MinInt: int := -0x8000_0000_0000_0000
  const MaxInt: int := 0x7fff_ffff_ffff_ffff

  /**
   * The texts `strconv.Atoi` can accept at all: decimal digits, at least one,
   * with at most a leading sign; a space, a unit or a second sign anywhere
   * makes the text fail.
   */
  predicate Numeral(s: string) {
    |s| >= 1 && IsDigit(s[|s| - 1]) &&
    forall i :: 0 <= i < |s| ==> IsDigit(s[i]) || (i == 0 && (s[i] == '+' || s[i] == '-'))
  }

  /**
   * `strconv.Atoi(s)`: an optional `+` or `-` followed by at least one
   * decimal digit and nothing else, whose value fits in a Go `int`;
   * anything else is an error (`None`).
   */
  function Atoi(s: string): (r: Option<int>)
    ensures r.Some? ==> MinInt <= r.value <= MaxInt
    ensures r.Some? ==> |s| >= 1
    ensures r.Some? ==> (s[0] == '-' ==> r.value <= 0) && (s[0] != '-' ==> r.value >= 0)
    ensures r.Some? ==> Numeral(s)
  {
    var body := if |s| > 0 && (s[0] == '+' || s[0] == '-') then s[1..] else s;
    if |body| == 0 || !AllDigits(body) then None
    else
      var magnitude: int := DigitsValue(body);
      var v: int := if |s| > 0 && s[0] == '-' then -magnitude else magnitude;
      if MinInt <= v <= MaxInt then Some(v) else None
  }

  /** `fmt.Sprintf("%d", n)` for a non-negative `n`: its decimal digits. */
  function Itoa(n: nat): (s: string)
    ensures |s| >= 1 && AllDigits(s)
    ensures n > 0 ==> s[0] != '0'
  {
    if n < 10 then [DigitChar(n)] else Itoa(n / 10) + [DigitChar(n % 10)]
  }

  /** The digits `Itoa` writes denote the number written. */
  lemma {:induction false} ItoaValue(n: nat)
    ensures DigitsValue(Itoa(n)) == n
  {
    if n >= 10 {
      var s := Itoa(n);
      assert s[..|s| - 1] == Itoa(n / 10);
      ItoaValue(n / 10);
    }
  }

  function Pow10(k: nat): (r: nat)
    ensures r >= 1
  {
    if k == 0 then 1 else 10 * Pow10(k - 1)
  }

  /** A number below 10^k has at most k digits; a Go `int` has at most 19. */
  lemma {:induction false} ItoaLength(n: nat, k: nat)
    requires k >= 1 && (n < Pow10(k) || (k == 19 && n <= MaxInt))
    ensures |Itoa(n)| <= k
  {
    if k == 19 && n <= MaxInt {
      assert Pow10(1) == 10;
      assert Pow10(2) == 100;
      assert Pow10(3) == 1000;
      assert Pow10(4) == 10000;
      assert Pow10(5) == 100000;
      assert Pow10(6) == 1000000;
      assert Pow10(7) == 10000000;
      assert Pow10(8) == 100000000;
      assert Pow10(9) == 1000000000;
      assert Pow10(10) == 10000000000;
      assert Pow10(11) == 100000000000;
      assert Pow10(12) == 1000000000000;
      assert Pow10(13) == 10000000000000;
      assert Pow10(14) == 100000000000000;
      assert Pow10(15) == 1000000000000000;
      assert Pow10(16) == 10000000000000000;
      assert Pow10(17) == 100000000000000000;
      assert Pow10(18) == 1000000000000000000;
      assert Pow10(19) == 10000000000000000000;
    }
    if n >= 10 {
      assert n / 10 < Pow10(k - 1);
      ItoaLength(n / 10, k - 1);
    }
  }

  /** Reading back a positive Go `int` written in decimal gives the same number. */
  lemma AtoiItoa(n: int)
    requires 0 < n <= MaxInt
    ensures Atoi(Itoa(n)) == Some(n)
  {
    ItoaValue(n);
    var s := Itoa(n);
    assert s[0] != '+' && s[0] != '-';
  }

  /**
   * The decimal rendering of any Go `int`, with a `-` for a negative one.
   * The wizard itself only renders positive ports; this wider rendering
   * states the round trip `AtoiReadsBack` over every value `Atoi` returns.
   */
  function Render(n: int): (s: string)
    ensures |s| >= 1
    ensures n < 0 <==> s[0] == '-'
  {
    if n < 0 then "-" + Itoa(-n) else Itoa(n)
  }

  /** Leading zeros do not change the number a string of digits denotes. */
  lemma {:induction false} LeadingZeroValue(d: string)
    requires AllDigits(d)
    ensures AllDigits("0" + d) && DigitsValue("0" + d) == DigitsValue(d)
    decreases |d|
  {
    if |d| > 0 {
      assert ("0" + d)[..|"0" + d| - 1] == "0" + d[..|d| - 1];
      LeadingZeroValue(d[..|d| - 1]);
    }
  }

  /** A run of `z` zeros. */
  function Zeros(z: nat): (s: string)
    ensures |s| == z && AllDigits(s)
  {
    if z == 0 then "" else "0" + Zeros(z - 1)
  }

  /** `z` zeros followed by the digits `d` denote what `d` denotes. */
  lemma {:induction false} LeadingZerosValue(z: nat, d: string)
    requires AllDigits(d)
    ensures AllDigits(Zeros(z) + d) && DigitsValue(Zeros(z) + d) == DigitsValue(d)
    decreases z
  {
    if z == 0 {
      assert Zeros(z) + d == d;
    } else {
      LeadingZerosValue(z - 1, d);
      assert Zeros(z) + d == "0" + (Zeros(z - 1) + d);
      LeadingZeroValue(Zeros(z - 1) + d);
    }
  }

  /**
   * A run of digits, bare or after a sign, reads as the number it denotes
   * when that fits in a Go `int`, and fails (Go's range error) otherwise.
   */
  lemma AtoiOfDigits(body: string)
    requires |body| > 0 && AllDigits(body)
    ensures Atoi(body) == if DigitsValue(body) <= MaxInt then Some(DigitsValue(body)) else None
    ensures Atoi("+" + body) == if DigitsValue(body) <= MaxInt then Some(DigitsValue(body)) else None
    ensures Atoi("-" + body) == if DigitsValue(body) <= -MinInt then Some(-(DigitsValue(body) as int)) else None
  {
    AtoiAfterSign(body, '+');
    AtoiAfterSign(body, '-');
  }

  lemma AtoiAfterSign(body: string, sign: char)
    requires |body| > 0 && AllDigits(body) && (sign == '+' || sign == '-')
    ensures var v: int := DigitsValue(body);
            var signed := if sign == '-' then -v else v;
            MinInt <= signed <= MaxInt ==> Atoi([sign] + body) == Some(signed)
  {
    assert ([sign] + body)[1..] == body;
  }

  /** Every Go `int` is read back from its rendering. */
  lemma AtoiReadsBack(n: int)
    requires MinInt <= n <= MaxInt
    ensures Atoi(Render(n)) == Some(n)
  {
    ItoaValue(if n < 0 then -n else n);
    AtoiOfDigits(Itoa(if n < 0 then -n else n));
  }

  /** A non-negative Go `int` is also read back when written with leading zeros. */
  lemma AtoiReadsPadded(n: int, z: nat)
    requires 0 <= n <= MaxInt
    ensures Atoi(Zeros(z) + Itoa(n)) == Some(n)
  {
    var body := Zeros(z) + Itoa(n);
    ItoaValue(n);
    LeadingZerosValue(z, Itoa(n));
    assert DigitsValue(body) == n;
    AtoiOfDigits(body);
  }
}
