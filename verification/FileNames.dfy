/**
  Names of spooled files: zero-padded milliseconds, then a zero-padded sequence
  number. Listing a directory sorts names as text; the point of the padding is
  that this puts them in order of arrival.
 */
module FileNames {

  /** Python's order on strings. */
  predicate Before(a: string, b: string) {
    b != [] && (a == [] || a[0] < b[0] || (a[0] == b[0] && Before(a[1..], b[1..])))
  }

  lemma {:induction false} BeforeIsIrreflexive(a: string)
    ensures !Before(a, a)
  {
    if a != [] {
      BeforeIsIrreflexive(a[1..]);
    }
  }

  lemma {:induction false} BeforeIsTransitive(a: string, b: string, c: string)
    requires Before(a, b) && Before(b, c)
    ensures Before(a, c)
  {
    if a != [] && b != [] && a[0] == b[0] && b[0] == c[0] {
      BeforeIsTransitive(a[1..], b[1..], c[1..]);
    }
  }

  lemma {:induction false} BeforeIsTotal(a: string, b: string)
    ensures Before(a, b) || a == b || Before(b, a)
  {
    if a != [] && b != [] && a[0] == b[0] {
      BeforeIsTotal(a[1..], b[1..]);
      assert a == [a[0]] + a[1..] && b == [b[0]] + b[1..];
    }
  }

  lemma BeforeIsAsymmetric(a: string, b: string)
    requires Before(a, b)
    ensures !Before(b, a) && a != b
  {
    BeforeIsIrreflexive(a);
    if Before(b, a) {
      BeforeIsTransitive(a, b, a);
    }
  }

  function Digit(d: nat): char
    requires d < 10
  {
    ('0' as int + d) as char
  }

  /** `{n:0<width>d}`: at least `width` digits, more when the number needs them. */
  function Pad(n: nat, width: nat): string
    decreases n, width
  {
    if n == 0 && width == 0 then ""
    else Pad(n / 10, if width == 0 then 0 else width - 1) + [Digit(n % 10)]
  }

  function Pow10(k: nat): (p: nat)
    ensures p > 0
  {
    if k == 0 then 1 else 10 * Pow10(k - 1)
  }

  lemma {:induction false} PadHasItsWidth(n: nat, width: nat)
    requires n < Pow10(width)
    ensures |Pad(n, width)| == width
  {
    if width > 0 {
      PadHasItsWidth(n / 10, width - 1);
    }
  }

  predicate AllDigits(s: string) {
    forall i | 0 <= i < |s| :: '0' <= s[i] <= '9'
  }

  lemma {:induction false} PadIsDigits(n: nat, width: nat)
    ensures AllDigits(Pad(n, width))
    decreases n, width
  {
    if n != 0 || width != 0 {
      PadIsDigits(n / 10, if width == 0 then 0 else width - 1);
    }
  }

  lemma {:induction false} PadIsInjective(m: nat, n: nat, width: nat)
    requires Pad(m, width) == Pad(n, width)
    ensures m == n
    decreases m, width
  {
    if (m == 0 && width == 0) || (n == 0 && width == 0) {
      assert |Pad(m, width)| == |Pad(n, width)|;
    } else {
      var w := if width == 0 then 0 else width - 1;
      var s, t := Pad(m, width), Pad(n, width);
      assert s[..|s| - 1] == Pad(m / 10, w) && t[..|t| - 1] == Pad(n / 10, w);
      assert s[|s| - 1] == Digit(m % 10) && t[|t| - 1] == Digit(n % 10);
      PadIsInjective(m / 10, n / 10, w);
    }
  }

  // ---------- numbers as text ----------

  function DigitValue(c: char): int {
    c as int - '0' as int
  }

  function Value(s: string): int {
    if s == "" then 0 else 10 * Value(s[..|s| - 1]) + DigitValue(s[|s| - 1])
  }

  lemma {:induction false} PadHasItsValue(n: nat, width: nat)
    ensures Value(Pad(n, width)) == n
    decreases n, width
  {
    if n != 0 || width != 0 {
      var w := if width == 0 then 0 else width - 1;
      PadHasItsValue(n / 10, w);
      assert Pad(n, width)[..|Pad(n, width)| - 1] == Pad(n / 10, w);
    }
  }

  lemma {:induction false} LastCharacterDecides(a: string, b: string, x: char, y: char)
    requires |a| == |b|
    ensures Before(a + [x], b + [y]) <==> Before(a, b) || (a == b && x < y)
  {
    if a == "" {
      assert a + [x] == [x] && b + [y] == [y];
    } else {
      assert (a + [x])[1..] == a[1..] + [x] && (b + [y])[1..] == b[1..] + [y];
      LastCharacterDecides(a[1..], b[1..], x, y);
      assert a == [a[0]] + a[1..] && b == [b[0]] + b[1..];
    }
  }

  lemma {:induction false} SameLengthSameValue(a: string, b: string)
    requires |a| == |b| && AllDigits(a) && AllDigits(b) && Value(a) == Value(b)
    ensures a == b
  {
    if a != "" {
      SplitAtLast(a);
      SplitAtLast(b);
      LastDigitStays(a, b);
      SameLengthSameValue(a[..|a| - 1], b[..|b| - 1]);
    }
  }

  lemma LastDigitStays(a: string, b: string)
    requires a != "" && b != "" && AllDigits(a) && AllDigits(b) && Value(a) == Value(b)
    ensures Value(a[..|a| - 1]) == Value(b[..|b| - 1]) && a[|a| - 1] == b[|b| - 1]
  {
    SameNumberSameDigit(Value(a[..|a| - 1]), a[|a| - 1], Value(b[..|b| - 1]), b[|b| - 1]);
  }

  lemma SplitAtLast(a: string)
    requires a != ""
    ensures a == a[..|a| - 1] + [a[|a| - 1]]
  {
  }

  lemma SameNumberSameDigit(m: int, x: char, n: int, y: char)
    requires '0' <= x <= '9' && '0' <= y <= '9' && 10 * m + DigitValue(x) == 10 * n + DigitValue(y)
    ensures m == n && x == y
  {
    LastDigitIsRemainder(m, DigitValue(x), n, DigitValue(y));
  }

  lemma LastDigitIsRemainder(m: int, d: int, n: int, e: int)
    requires 0 <= d < 10 && 0 <= e < 10 && 10 * m + d == 10 * n + e
    ensures m == n && d == e
  {
  }

  /** Digit texts of one length compare as their numbers do. */
  lemma {:induction false} SameLengthCompares(a: string, b: string)
    requires |a| == |b| && AllDigits(a) && AllDigits(b)
    ensures Before(a, b) <==> Value(a) < Value(b)
  {
    if a != "" {
      var n := |a| - 1;
      SameLengthCompares(a[..n], b[..n]);
      if Value(a[..n]) == Value(b[..n]) {
        SameLengthSameValue(a[..n], b[..n]);
      }
      LastCharacterDecides(a[..n], b[..n], a[n], b[n]);
      assert a == a[..n] + [a[n]] && b == b[..n] + [b[n]];
    }
  }

  lemma {:induction false} StartDecides(a: string, b: string)
    requires |a| <= |b| && a != b
    ensures Before(a, b) <==> a == b[..|a|] || Before(a, b[..|a|])
    ensures Before(b, a) <==> Before(b[..|a|], a)
  {
    if a != "" {
      assert a == [a[0]] + a[1..] && b == [b[0]] + b[1..];
      assert b[..|a|] == [b[0]] + b[1..][..|a| - 1];
      if a[0] == b[0] {
        StartDecides(a[1..], b[1..]);
      }
    }
  }

  /** Cutting digits off a text divides its number. */
  lemma {:induction false} CuttingDivides(s: string, k: nat)
    requires k <= |s| && AllDigits(s)
    ensures Value(s[..k]) == Value(s) / Pow10(|s| - k) && Value(s) >= 0
  {
    if k < |s| {
      var front := s[..|s| - 1];
      CuttingDivides(front, k);
      assert front[..k] == s[..k];
      DividingTwice(Value(front), DigitValue(s[|s| - 1]), Pow10(|s| - k - 1));
    } else {
      assert s[..k] == s;
      ValueIsNatural(s);
    }
  }

  lemma {:induction false} ValueIsNatural(s: string)
    requires AllDigits(s)
    ensures 0 <= Value(s) < Pow10(|s|)
  {
    if s != "" {
      ValueIsNatural(s[..|s| - 1]);
    }
  }

  lemma DividingTwice(n: nat, d: nat, p: nat)
    requires d < 10 && p > 0
    ensures 10 * p > 0 && (10 * n + d) / (10 * p) == n / p
  {
    var q, r := n / p, n % p;
    assert n == p * q + r;
    assert 10 * n + d == (10 * p) * q + (10 * r + d);
    QuotientIsUnique(10 * n + d, 10 * p, q, 10 * r + d);
  }

  lemma QuotientIsUnique(a: nat, b: nat, q: nat, r: nat)
    requires b > 0 && r < b && a == b * q + r
    ensures a / b == q
  {
    var k := a / b - q;
    assert b * k == r - a % b;
  }

  /** The text of a number is as wide as asked for, and wider only when the number needs it. */
  lemma {:induction false} PadIsAsWideAsNeeded(n: nat, width: nat)
    ensures |Pad(n, width)| >= width && n < Pow10(|Pad(n, width)|)
    ensures |Pad(n, width)| > width ==> Pow10(|Pad(n, width)| - 1) <= n
    decreases n, width
  {
    if n != 0 || width != 0 {
      var w := if width == 0 then 0 else width - 1;
      PadIsAsWideAsNeeded(n / 10, w);
      assert |Pad(n, width)| == |Pad(n / 10, w)| + 1;
    }
  }

  /** A padded number sorts before another: compared digit by digit over the shorter text. */
  predicate Precedes(n: nat, n': nat, width: nat) {
    var k, k' := |Pad(n, width)|, |Pad(n', width)|;
    if k <= k' then n <= n' / Pow10(k' - k) else n / Pow10(k - k') < n'
  }

  lemma ShorterTextCompares(a: string, b: string)
    requires AllDigits(a) && AllDigits(b) && a != b && |a| <= |b|
    ensures Before(a, b) <==> Value(a) <= Value(b) / Pow10(|b| - |a|)
    ensures Before(b, a) <==> Value(b) / Pow10(|b| - |a|) < Value(a)
  {
    StartDecides(a, b);
    SameLengthCompares(a, b[..|a|]);
    SameLengthCompares(b[..|a|], a);
    if Value(a) == Value(b[..|a|]) {
      SameLengthSameValue(a, b[..|a|]);
    }
    CuttingDivides(b, |a|);
  }

  lemma TextsCompare(a: string, b: string)
    requires AllDigits(a) && AllDigits(b) && a != b
    ensures Before(a, b) <==>
              if |a| <= |b| then Value(a) <= Value(b) / Pow10(|b| - |a|) else Value(a) / Pow10(|a| - |b|) < Value(b)
  {
    if |a| <= |b| {
      ShorterTextCompares(a, b);
    } else {
      ShorterTextCompares(b, a);
    }
  }

  lemma PaddedNumbersCompare(n: nat, n': nat, width: nat)
    requires n != n'
    ensures Before(Pad(n, width), Pad(n', width)) <==> Precedes(n, n', width)
  {
    PadIsDigits(n, width);
    PadIsDigits(n', width);
    PadHasItsValue(n, width);
    PadHasItsValue(n', width);
    TextsCompare(Pad(n, width), Pad(n', width));
  }

  /** Numbers that fit their width sort as numbers. */
  lemma FittingNumbersPrecede(n: nat, n': nat, width: nat)
    requires n < Pow10(width) && n' < Pow10(width) && n != n'
    ensures Precedes(n, n', width) <==> n < n'
  {
    PadHasItsWidth(n, width);
    PadHasItsWidth(n', width);
  }

  // ---------- names ----------

  const MILLIS_WIDTH := 13
  const SEQUENCE_WIDTH := 6

  function NameOf(millis: nat, sequence: nat, sink: string): string {
    Pad(millis, MILLIS_WIDTH) + ("-" + (Pad(sequence, SEQUENCE_WIDTH) + ("-" + (sink + ".json"))))
  }

  /** What follows two different numbers does not matter: a hyphen sorts before every digit. */
  lemma {:induction false} NumberDecides(a: string, b: string, x: string, y: string)
    requires AllDigits(a) && AllDigits(b) && a != b
    ensures Before(a + ("-" + x), b + ("-" + y)) <==> Before(a, b)
  {
    var s, t := a + ("-" + x), b + ("-" + y);
    if a != "" && b != "" && a[0] == b[0] {
      assert a == [a[0]] + a[1..] && b == [b[0]] + b[1..];
      assert s[1..] == a[1..] + ("-" + x) && t[1..] == b[1..] + ("-" + y);
      NumberDecides(a[1..], b[1..], x, y);
    }
  }

  lemma {:induction false} SameStart(start: string, x: string, y: string)
    ensures Before(start + x, start + y) <==> Before(x, y)
  {
    if start == "" {
      assert start + x == x && start + y == y;
    } else {
      assert (start + x)[1..] == start[1..] + x && (start + y)[1..] == start[1..] + y;
      SameStart(start[1..], x, y);
    }
  }

  /**
    Where one name sorts against another, whatever the sinks: by the clock, or by the sequence number
    when the milliseconds are the same, each compared digit by digit over the shorter text.
   */
  lemma NamesSortExactly(m: nat, s: nat, sink: string, m': nat, s': nat, sink': string)
    requires m != m' || s != s'
    ensures Before(NameOf(m, s, sink), NameOf(m', s', sink')) <==>
            if m != m' then Precedes(m, m', MILLIS_WIDTH) else Precedes(s, s', SEQUENCE_WIDTH)
  {
    var a, a' := Pad(m, MILLIS_WIDTH), Pad(m', MILLIS_WIDTH);
    var b, b' := Pad(s, SEQUENCE_WIDTH), Pad(s', SEQUENCE_WIDTH);
    var x, x' := sink + ".json", sink' + ".json";
    if m != m' {
      PadIsDigits(m, MILLIS_WIDTH);
      PadIsDigits(m', MILLIS_WIDTH);
      DifferentNumbersDiffer(m, m', MILLIS_WIDTH);
      NumberDecides(a, a', b + ("-" + x), b' + ("-" + x'));
      PaddedNumbersCompare(m, m', MILLIS_WIDTH);
    } else {
      SameStart(a, "-" + (b + ("-" + x)), "-" + (b' + ("-" + x')));
      SameStart("-", b + ("-" + x), b' + ("-" + x'));
      PadIsDigits(s, SEQUENCE_WIDTH);
      PadIsDigits(s', SEQUENCE_WIDTH);
      DifferentNumbersDiffer(s, s', SEQUENCE_WIDTH);
      NumberDecides(b, b', x, x');
      PaddedNumbersCompare(s, s', SEQUENCE_WIDTH);
    }
  }

  lemma DifferentNumbersDiffer(m: nat, n: nat, width: nat)
    requires m != n
    ensures Pad(m, width) != Pad(n, width)
  {
    if Pad(m, width) == Pad(n, width) {
      PadIsInjective(m, n, width);
    }
  }

  /** Later puts get later names, for any sinks, while the numbers fit their widths. */
  lemma NamesFollowArrival(m: nat, s: nat, sink: string, m': nat, s': nat, sink': string)
    requires m <= m' < Pow10(MILLIS_WIDTH)
    requires m < m' || s < s' < Pow10(SEQUENCE_WIDTH)
    ensures Before(NameOf(m, s, sink), NameOf(m', s', sink'))
  {
    NamesSortExactly(m, s, sink, m', s', sink');
    if m < m' {
      FittingNumbersPrecede(m, m', MILLIS_WIDTH);
    } else {
      FittingNumbersPrecede(s, s', SEQUENCE_WIDTH);
    }
  }

  /** Past a million puts in one millisecond the text order is no longer the arrival order. */
  lemma MillionthNameSortsEarly(millis: nat, sink: string)
    ensures Before(NameOf(millis, 1000000, sink), NameOf(millis, 999999, sink))
  {
    NamesSortExactly(millis, 1000000, sink, millis, 999999, sink);
    SevenDigits();
    assert Pow10(1) == 10;
  }

  lemma SevenDigits()
    ensures |Pad(1000000, 6)| == 7 && |Pad(999999, 6)| == 6
  {
    PadHasItsWidth(999999, 6);
    PadHasItsWidth(0, 0);
    assert |Pad(1, 0)| == 1;
    assert |Pad(100, 2)| == 3;
    assert |Pad(10000, 4)| == 5;
    assert Pad(1000000, 6) == Pad(100000, 5) + [Digit(0)];
  }

  /** A name gives back the number that made it, wherever it was cut. */
  lemma SplitAtFirstHyphen(p: string, x: string, q: string, y: string)
    requires AllDigits(p) && AllDigits(q) && p + ("-" + x) == q + ("-" + y)
    ensures p == q && x == y
  {
    var s := p + ("-" + x);
    assert s[|p|] == '-' && s[|q|] == '-';
    assert forall i | 0 <= i < |p| :: s[i] == p[i];
    assert forall i | 0 <= i < |q| :: s[i] == q[i];
    assert p == s[..|p|] == s[..|q|] == q;
    assert x == s[|p| + 1..] == s[|q| + 1..] == y;
  }

  /** Two puts share a name exactly when they share the millisecond, the sequence number and the sink. */
  lemma NamesCollideExactlyWhen(m: nat, s: nat, sink: string, m': nat, s': nat, sink': string)
    ensures NameOf(m, s, sink) == NameOf(m', s', sink') <==> m == m' && s == s' && sink == sink'
  {
    if NameOf(m, s, sink) == NameOf(m', s', sink') {
      var x, x' := sink + ".json", sink' + ".json";
      PadIsDigits(m, MILLIS_WIDTH);
      PadIsDigits(m', MILLIS_WIDTH);
      PadIsDigits(s, SEQUENCE_WIDTH);
      PadIsDigits(s', SEQUENCE_WIDTH);
      SplitAtFirstHyphen(Pad(m, MILLIS_WIDTH), Pad(s, SEQUENCE_WIDTH) + ("-" + x),
                         Pad(m', MILLIS_WIDTH), Pad(s', SEQUENCE_WIDTH) + ("-" + x'));
      SplitAtFirstHyphen(Pad(s, SEQUENCE_WIDTH), x, Pad(s', SEQUENCE_WIDTH), x');
      PadIsInjective(m, m', MILLIS_WIDTH);
      PadIsInjective(s, s', SEQUENCE_WIDTH);
      assert sink == x[..|x| - 5] && sink' == x'[..|x'| - 5];
    }
  }
}
