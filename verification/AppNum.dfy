// Fixed-point numbers of the app language: six decimals in a 64-bit integer.

module AppNum {
  import opened Basics

  const SCALE: int := 1_000_000
  const MAX: int := 9_000_000_000_000_000

  predicate Int64(v: int) { -0x8000_0000_0000_0000 <= v < 0x8000_0000_0000_0000 }

  // Variables of these types wrap nowhere: every step on them is in range.

  newtype I64 = v: int | -0x8000_0000_0000_0000 <= v < 0x8000_0000_0000_0000

  newtype U128 = v: int | 0 <= v < 0x1_0000_0000_0000_0000_0000_0000_0000_0000

  // ---- decimal text ------------------------------------------------------------

  predicate IsDigit(c: char) { '0' <= c <= '9' }

  function DigitOf(c: char): nat
    requires IsDigit(c)
  {
    c as int - '0' as int
  }

  function Digit(d: int): (c: char)
    requires 0 <= d < 10
    ensures IsDigit(c) && DigitOf(c) == d
  {
    ('0' as int + d) as char
  }

  predicate AllDigits(s: string) { forall i :: 0 <= i < |s| ==> IsDigit(s[i]) }

  /** The number a run of digits writes. */
  function Value(s: string): nat
    requires AllDigits(s)
  {
    if s == "" then 0 else 10 * Value(s[..|s| - 1]) + DigitOf(s[|s| - 1])
  }

  /** Digits after a point, the first worth scale / 10. */
  function Fraction(s: string, scale: nat): nat
    requires AllDigits(s)
  {
    if s == "" then 0 else DigitOf(s[0]) * (scale / 10) + Fraction(s[1..], scale / 10)
  }

  predicate IsBlank(c: char) { c == ' ' || c == '\t' }

  function SkipBlanks(s: string): string {
    if s != "" && IsBlank(s[0]) then SkipBlanks(s[1..]) else s
  }

  /** How many digits `s` starts with. */
  function Span(s: string): (n: nat)
    ensures n <= |s| && AllDigits(s[..n]) && (n < |s| ==> !IsDigit(s[n]))
  {
    if s != "" && IsDigit(s[0]) then
      assert s[..1 + Span(s[1..])] == [s[0]] + s[1..][..Span(s[1..])];
      1 + Span(s[1..])
    else 0
  }

  /** What a text means as a number: blanks, a sign, digits, a point and digits,
      blanks; at least one digit; a whole part of at most 9000000000. Decimals
      past the sixth are dropped. */
  function NumOf(text: string): Option<int> {
    var s := SkipBlanks(text);
    if s != "" && s[0] == '-' then
      var r := Unsigned(s[1..]);
      if r.Some? then Some(-r.value) else None
    else if s != "" && s[0] == '+' then Unsigned(s[1..])
    else Unsigned(s)
  }

  function Unsigned(t: string): Option<int> {
    var n := Span(t);
    var w := Value(t[..n]);
    if w > MAX / SCALE then None
    else if n < |t| && t[n] == '.' then AfterPoint(n > 0, w, t[n + 1..])
    else Finish(n > 0, w * SCALE, t[n..])
  }

  function AfterPoint(seen: bool, w: nat, u: string): Option<int> {
    var m := Span(u);
    Finish(seen || m > 0, w * SCALE + Fraction(u[..m], SCALE), u[m..])
  }

  function Finish(seen: bool, v: int, rest: string): Option<int> {
    if seen && SkipBlanks(rest) == "" then Some(v) else None
  }

  lemma {:induction false} FractionBound(s: string, scale: nat)
    requires AllDigits(s) && scale >= 1
    ensures Fraction(s, scale) < scale
    decreases |s|
  {
    if s != "" {
      if scale >= 10 {
        FractionBound(s[1..], scale / 10);
        BelowTen(DigitOf(s[0]), scale / 10, Fraction(s[1..], scale / 10), scale);
      } else {
        FractionZero(s[1..]);
      }
    }
  }

  lemma BelowTen(d: nat, q: nat, rest: nat, scale: nat)
    requires d <= 9 && q == scale / 10 && rest < q
    ensures d * q + rest < scale
  {
    TimesUpTo(q, d, 9);
    assert d * q == q * d;
  }

  lemma {:induction false} FractionZero(s: string)
    requires AllDigits(s)
    ensures Fraction(s, 0) == 0
    decreases |s|
  {
    if s != "" {
      FractionZero(s[1..]);
    }
  }

  /** Every number a literal can denote: a little beyond MAX, because the whole
      part and the fraction are checked apart. */
  lemma ParsedBound(text: string)
    ensures NumOf(text).Some? ==> -(MAX + SCALE) < NumOf(text).value < MAX + SCALE
  {
    hide SkipBlanks, Unsigned;
    var s := SkipBlanks(text);
    UnsignedBound(s);
    if s != "" {
      UnsignedBound(s[1..]);
    }
  }

  lemma UnsignedBound(t: string)
    ensures Unsigned(t).Some? ==> 0 <= Unsigned(t).value < MAX + SCALE
  {
    hide SkipBlanks, Span, Value, Fraction;
    var n := Span(t);
    if n < |t| && t[n] == '.' {
      var u := t[n + 1..];
      FractionBound(u[..Span(u)], SCALE);
    }
  }

  // ---- reading -------------------------------------------------------------------

  lemma {:induction false} ValueSnoc(s: string, c: char)
    requires AllDigits(s) && IsDigit(c)
    ensures AllDigits(s + [c]) && Value(s + [c]) == 10 * Value(s) + DigitOf(c)
  {
    assert (s + [c])[..|s|] == s;
  }

  lemma {:induction false} ValueGrows(s: string, n: nat)
    requires AllDigits(s) && n <= |s|
    ensures Value(s[..n]) <= Value(s)
    decreases |s|
  {
    if n < |s| {
      ValueGrows(s[..|s| - 1], n);
      assert s[..|s| - 1][..n] == s[..n];
    } else {
      assert s[..n] == s;
    }
  }

  lemma {:induction false} FractionSnoc(s: string, c: char, scale: nat)
    requires AllDigits(s) && IsDigit(c)
    ensures AllDigits(s + [c]) && Fraction(s + [c], scale) == Fraction(s, scale) + DigitOf(c) * Shrunk(scale, |s| + 1)
    decreases |s|
  {
    if s == "" {
      assert (s + [c])[1..] == "";
    } else {
      FractionSnoc(s[1..], c, scale / 10);
      assert (s + [c])[1..] == s[1..] + [c];
    }
  }

  /** The scale after `n` divisions by ten. */
  function Shrunk(scale: nat, n: nat): nat
    decreases n
  {
    if n == 0 then scale else Shrunk(scale / 10, n - 1)
  }

  lemma {:induction false} ShrunkNext(scale: nat, n: nat)
    ensures Shrunk(scale, n + 1) == Shrunk(scale, n) / 10
    decreases n
  {
    if n > 0 {
      ShrunkNext(scale / 10, n - 1);
    }
  }

  lemma {:induction false} SpanIs(s: string, n: nat)
    requires n <= |s| && AllDigits(s[..n]) && (n < |s| ==> !IsDigit(s[n]))
    ensures Span(s) == n
    decreases |s|
  {
    if n > 0 {
      assert IsDigit(s[..n][0]);
      assert s[1..][..n - 1] == s[..n][1..];
      SpanIs(s[1..], n - 1);
    }
  }

  method SkipFrom(s: string, from: nat) returns (pos: nat)
    requires from <= |s|
    ensures from <= pos <= |s| && s[pos..] == SkipBlanks(s[from..])
  {
    pos := from;
    while pos < |s| && IsBlank(s[pos])
      invariant from <= pos <= |s| && SkipBlanks(s[pos..]) == SkipBlanks(s[from..])
    {
      assert s[pos..][1..] == s[pos + 1..];
      pos := pos + 1;
    }
  }

  /** The whole digits from `from`; refused as soon as they exceed the limit. (The
      other limit, on what is about to be multiplied, is never met before.) */
  method ReadWhole(s: string, from: nat) returns (ok: bool, whole: I64, pos: nat)
    requires from <= |s|
    ensures ok <==> Value(s[from..][..Span(s[from..])]) <= MAX / SCALE
    ensures ok ==> pos == from + Span(s[from..]) && whole as int == Value(s[from..][..Span(s[from..])])
  {
    whole, pos := 0, from;
    ghost var t := s[from..];
    while pos < |s| && IsDigit(s[pos])
      invariant from <= pos <= |s| && AllDigits(t[..pos - from])
      invariant whole as int == Value(t[..pos - from]) <= MAX / SCALE
    {
      ghost var n := pos - from;
      assert t[..n + 1] == t[..n] + [t[n]];
      ValueSnoc(t[..n], t[n]);
      whole := whole * 10 + DigitOf(s[pos]) as I64;
      pos := pos + 1;
      if whole as int > MAX / SCALE {
        SpanAtLeast(t, n + 1);
        ValueGrows(t[..Span(t)], n + 1);
        assert t[..Span(t)][..n + 1] == t[..n + 1];
        return false, whole, pos;
      }
    }
    SpanIs(t, pos - from);
    return true, whole, pos;
  }

  lemma {:induction false} SpanAtLeast(s: string, n: nat)
    requires n <= |s| && AllDigits(s[..n])
    ensures Span(s) >= n
    decreases |s|
  {
    if n > 0 {
      assert IsDigit(s[..n][0]);
      assert s[1..][..n - 1] == s[..n][1..];
      SpanAtLeast(s[1..], n - 1);
    }
  }

  method ReadFraction(s: string, from: nat) returns (frac: I64, pos: nat)
    requires from <= |s|
    ensures pos == from + Span(s[from..]) && frac as int == Fraction(s[from..][..Span(s[from..])], SCALE)
  {
    frac, pos := 0, from;
    var scale: I64 := 1_000_000;
    ghost var t := s[from..];
    while pos < |s| && IsDigit(s[pos])
      invariant from <= pos <= |s| && AllDigits(t[..pos - from]) && scale as int == Shrunk(SCALE, pos - from)
      invariant scale <= 1_000_000 && frac as int == Fraction(t[..pos - from], SCALE)
    {
      ghost var n := pos - from;
      assert t[..n + 1] == t[..n] + [t[n]];
      FractionSnoc(t[..n], t[n], SCALE);
      ShrunkNext(SCALE, n);
      FractionBound(t[..n + 1], SCALE);
      scale := scale / 10;
      if scale > 0 {
        frac := frac + DigitOf(s[pos]) as I64 * scale;
      }
      pos := pos + 1;
    }
    SpanIs(t, pos - from);
  }

  /** Digits, point, digits, blanks, from `pos` on. */
  method ReadUnsigned(s: string, pos: nat) returns (ok: bool, v: I64)
    requires pos <= |s|
    ensures Unsigned(s[pos..]) == if ok then Some(v as int) else None
    ensures ok ==> 0 <= v
  {
    hide SkipBlanks, Span, Value, Fraction;
    ghost var t := s[pos..];
    var whole, mid;
    ok, whole, mid := ReadWhole(s, pos);
    if !ok {
      return false, 0;
    }
    v := whole * 1_000_000;
    var last, seen := mid, mid > pos;
    if mid < |s| && s[mid] == '.' {
      assert s[mid + 1..] == t[mid - pos + 1..];
      var frac;
      frac, last := ReadFraction(s, mid + 1);
      FractionBound(s[mid + 1..][..Span(s[mid + 1..])], SCALE);
      v, seen := v + frac, seen || last > mid + 1;
      assert s[last..] == t[mid - pos + 1..][last - mid - 1..];
    } else {
      assert s[mid..] == t[mid - pos..];
    }
    var stop := SkipFrom(s, last);
    return !(stop < |s| || !seen), v;
  }

  /** app_num_parse. */
  method Parse(s: string) returns (r: Option<int>)
    ensures r == NumOf(s)
  {
    hide SkipBlanks, Unsigned;
    var pos := SkipFrom(s, 0);
    assert s[0..] == s;
    ghost var a := s[pos..];
    var neg := pos < |s| && s[pos] == '-';
    if pos < |s| && (s[pos] == '-' || s[pos] == '+') {
      assert s[pos + 1..] == a[1..];
      pos := pos + 1;
    }
    var ok, v := ReadUnsigned(s, pos);
    if !ok {
      return None;
    }
    v := if neg then -v else v;
    return Some(v as int);
  }

  // ---- writing -------------------------------------------------------------------

  function NatText(n: nat): (s: string)
    ensures |s| >= 1
  {
    if n < 10 then [Digit(n)] else NatText(n / 10) + [Digit(n % 10)]
  }

  /** Exactly `k` digits of `n`, leading zeros kept. */
  function Padded(n: nat, k: nat): (s: string)
    ensures |s| == k && AllDigits(s)
    decreases k
  {
    if k == 0 then "" else Padded(n / 10, k - 1) + [Digit(n % 10)]
  }

  function Trimmed(s: string): string {
    if s != "" && s[|s| - 1] == '0' then Trimmed(s[..|s| - 1]) else s
  }

  /** The text of a value: sign, whole part, and the decimals that matter. */
  function TextOf(v: int): string {
    if v < 0 then "-" + MagText(-v) else MagText(v)
  }

  lemma {:induction false} NatTextDigits(n: nat)
    ensures AllDigits(NatText(n)) && Value(NatText(n)) == n
  {
    if n < 10 {
      assert NatText(n)[..0] == "";
    } else {
      NatTextDigits(n / 10);
      ValueSnoc(NatText(n / 10), Digit(n % 10));
    }
  }

  lemma {:induction false} TrimmedDigits(s: string, scale: nat)
    requires AllDigits(s)
    ensures AllDigits(Trimmed(s)) && Fraction(Trimmed(s), scale) == Fraction(s, scale)
    decreases |s|
  {
    if s != "" && s[|s| - 1] == '0' {
      var u := s[..|s| - 1];
      TrimmedDigits(u, scale);
      assert s == u + ['0'];
      FractionSnoc(u, '0', scale);
    }
  }

  function Ten(k: nat): (t: nat)
    ensures t >= 1
  {
    if k == 0 then 1 else 10 * Ten(k - 1)
  }

  lemma {:induction false} TenShrinks(k: nat, j: nat)
    requires j <= k
    ensures Shrunk(Ten(k), j) == Ten(k - j)
    decreases j
  {
    if j > 0 {
      TenShrinks(k - 1, j - 1);
    }
  }

  /** k digits written with a scale of ten to the k + extra are read back. */
  lemma {:induction false} PaddedFraction(n: nat, k: nat, extra: nat)
    requires n < Ten(k)
    ensures Fraction(Padded(n, k), Ten(k + extra)) == n * Ten(extra)
    decreases k
  {
    if k > 0 {
      PaddedFraction(n / 10, k - 1, extra + 1);
      FractionSnoc(Padded(n / 10, k - 1), Digit(n % 10), Ten(k + extra));
      TenShrinks(k + extra, k);
      assert Ten(extra + 1) == 10 * Ten(extra);
      Regroup(n / 10, n % 10, Ten(extra));
    }
  }

  lemma Regroup(q: int, r: int, t: int)
    ensures q * (10 * t) + r * t == (10 * q + r) * t
  {
  }

  /** The text of a magnitude, without sign. */
  function MagText(mag: nat): string {
    var frac := Trimmed(Padded(mag % SCALE, 6));
    NatText(mag / SCALE) + (if frac == "" then "" else "." + frac)
  }

  lemma MagRoundTrip(mag: nat)
    ensures Unsigned(MagText(mag)) == if mag < MAX + SCALE then Some(mag) else None
    ensures MagText(mag) != "" && IsDigit(MagText(mag)[0])
  {
    hide Span, Value, Fraction, NatText, Padded, Trimmed;
    var w, f := NatText(mag / SCALE), Trimmed(Padded(mag % SCALE, 6));
    var t := MagText(mag);
    NatTextDigits(mag / SCALE);
    SixDigits(mag % SCALE);
    assert t[..|w|] == w;
    assert IsDigit(w[0]);
    SpanIs(t, |w|);
    if f == "" {
      assert t[|w|..] == "";
      assert Fraction(f, SCALE) == 0;
    } else {
      assert t[|w| + 1..] == f;
      assert f[..|f|] == f && f[|f|..] == "";
      SpanIs(f, |f|);
    }
  }

  lemma SixDigits(n: nat)
    requires n < SCALE
    ensures var f := Trimmed(Padded(n, 6)); AllDigits(f) && Fraction(f, SCALE) == n && (f == "" ==> n == 0)
  {
    TrimmedDigits(Padded(n, 6), SCALE);
    assert Ten(6) == SCALE;
    PaddedFraction(n, 6, 0);
  }

  /** Formatting then parsing is the identity exactly below MAX + SCALE. */
  lemma RoundTrip(v: int)
    ensures NumOf(TextOf(v)) == if -(MAX + SCALE) < v < MAX + SCALE then Some(v) else None
  {
    hide Unsigned, MagText;
    var mag := if v < 0 then -v else v;
    MagRoundTrip(mag);
    var s := TextOf(v);
    assert !IsBlank(s[0]);
    assert v < 0 ==> s[1..] == MagText(mag);
  }

  /** The whole digits into a scratch array, least significant first. */
  method WholeDigits(whole: nat) returns (tmp: array<char>, n: nat)
    requires whole < 0x1_0000_0000_0000_0000
    ensures fresh(tmp) && tmp.Length == 24 && n == |NatText(whole)| <= 20
    ensures forall i :: 0 <= i < n ==> tmp[i] == NatText(whole)[n - 1 - i]
  {
    hide NatText;
    tmp := new char[24];
    n := 0;
    ghost var text := NatText(whole);
    TwentyDigits(whole);
    if whole == 0 {
      tmp[0] := '0';
      n := 1;
      NatStep(0);
      return;
    }
    var w := whole;
    while w > 0 && n < 24
      invariant n <= |text| && |text| - n == (if w > 0 then |NatText(w)| else 0)
      invariant w > 0 ==> NatText(w) == text[..|text| - n]
      invariant forall i :: 0 <= i < n ==> tmp[i] == text[|text| - 1 - i]
      decreases w
    {
      NatStep(w);
      tmp[n] := Digit(w % 10);
      n := n + 1;
      w := w / 10;
    }
  }

  lemma NatStep(n: nat)
    ensures NatText(n)[|NatText(n)| - 1] == Digit(n % 10)
    ensures n < 10 ==> |NatText(n)| == 1
    ensures n >= 10 ==> NatText(n / 10) == NatText(n)[..|NatText(n)| - 1]
  {
  }

  lemma TwentyDigits(n: nat)
    requires n < 0x1_0000_0000_0000_0000
    ensures 1 <= |NatText(n)| <= 20
  {
    hide NatText;
    assert Ten(10) == 10_000_000_000;
    assert Ten(20) == 100_000_000_000_000_000_000;
    NatLength(n, 20);
  }

  lemma {:induction false} NatLength(n: nat, k: nat)
    requires n < Ten(k) && k >= 1
    ensures |NatText(n)| <= k
    decreases k
  {
    if n >= 10 {
      NatLength(n / 10, k - 1);
    }
  }

  /** The fraction without its last `i` digits. */
  method Shortened(frac: nat, i: nat) returns (d: nat)
    ensures d == frac / Ten(i)
  {
    hide Ten;
    DivOne(frac);
    d := frac;
    var k := 0;
    while k < i
      invariant 0 <= k <= i && d == frac / Ten(k)
    {
      DivTen(frac, k);
      d := d / 10;
      k := k + 1;
    }
  }

  method SixOf(frac: nat) returns (f: string)
    requires frac < SCALE
    ensures f == Padded(frac, 6)
  {
    hide Ten;
    f := "";
    var i := 6;
    NoDigits(frac);
    while i > 0
      invariant 0 <= i <= 6 && f == Padded(frac / Ten(i), 6 - i)
    {
      i := i - 1;
      var d := Shortened(frac, i);
      DivTen(frac, i);
      f := f + [Digit(d % 10)];
    }
    DivOne(frac);
  }

  lemma NoDigits(frac: nat)
    ensures Padded(frac / Ten(6), 0) == ""
  {
    hide Ten;
  }

  /** The six decimals, then without trailing zeros. */
  method FractionDigits(frac: nat) returns (f: string)
    requires frac < SCALE
    ensures f == Trimmed(Padded(frac, 6))
  {
    hide Trimmed, Padded;
    f := SixOf(frac);
    while |f| > 0 && f[|f| - 1] == '0'
      invariant Trimmed(f) == Trimmed(Padded(frac, 6))
    {
      TrimStep(f);
      f := f[..|f| - 1];
    }
    TrimStep(f);
  }

  lemma TrimStep(f: string)
    ensures Trimmed(f) == if |f| > 0 && f[|f| - 1] == '0' then Trimmed(f[..|f| - 1]) else f
  {
  }

  lemma DivOne(n: nat)
    ensures n / Ten(0) == n
  {
  }

  lemma DivTen(n: nat, k: nat)
    ensures (n / Ten(k)) / 10 == n / Ten(k + 1)
  {
    assert Ten(k + 1) == 10 * Ten(k);
    DivAgain(n, Ten(k));
  }

  lemma DivAgain(n: nat, a: nat)
    requires a >= 1
    ensures (n / a) / 10 == n / (10 * a)
  {
    var b := n / a;
    var q, d := b / 10, b % 10;
    var r := a * d + n % a;
    assert n == a * b + n % a && b == 10 * q + d;
    assert a * (10 * q + d) == (10 * a) * q + a * d;
    TimesUpTo(a, d, 9);
    Quotient(n, 10 * a, q, r);
  }

  lemma TimesUpTo(a: nat, d: nat, m: nat)
    requires d <= m
    ensures 0 <= a * d <= a * m
  {
  }

  lemma Quotient(n: int, m: int, q: int, r: int)
    requires m > 0 && n == m * q + r && 0 <= r < m
    ensures n / m == q
  {
    var d := n / m - q;
    assert m * d == r - n % m;
    assert d >= 1 ==> m * d >= m;
    assert d <= -1 ==> m * d <= -m;
  }

  /** What fits of `s` in a buffer of `cap` with its terminator. */
  function Cut(s: string, cap: nat): string
    requires cap > 0
  {
    if |s| < cap then s else s[..cap - 1]
  }

  /** Appending stops for good at the first character that does not fit. */
  lemma CutMore(s: string, c: char, rest: string, cap: nat)
    requires cap > 0
    ensures |Cut(s, cap)| + 1 < cap ==> Cut(s + [c], cap) == Cut(s, cap) + [c]
    ensures |Cut(s, cap)| + 1 >= cap ==> Cut(s + rest, cap) == Cut(s, cap)
  {
  }

  /** app_num_format into a buffer of `cap` characters: the text, cut to fit. */
  method Format(v: int, cap: nat) returns (dst: string)
    requires Int64(v) && cap > 0
    ensures dst == Cut(TextOf(v), cap)
  {
    hide NatText, Trimmed, Padded, Cut, TextOf;
    var mag := if v < 0 then -v else v;
    var f := FractionDigits(mag % SCALE);
    var tmp, n := WholeDigits(mag / SCALE);
    ghost var w := NatText(mag / SCALE);
    ghost var sign := if v < 0 then "-" else "";
    CutShort(cap);
    CutMore("", '-', "-", cap);
    dst := "";
    if v < 0 && |dst| + 1 < cap {
      dst := dst + "-";
    }
    assert sign == "" + sign;
    dst := PutDigits(dst, tmp, n, cap, sign, w);
    dst := PutFraction(dst, f, cap, sign + w);
    TextParts(v, sign, w, f);
  }

  lemma TextParts(v: int, sign: string, w: string, f: string)
    requires var mag := if v < 0 then -v else v; w == NatText(mag / SCALE) && f == Trimmed(Padded(mag % SCALE, 6))
    requires sign == if v < 0 then "-" else ""
    ensures TextOf(v) == sign + w + (if f == "" then "" else "." + f)
  {
    hide NatText, Trimmed, Padded;
  }

  lemma CutShort(cap: nat)
    requires cap > 0
    ensures Cut("", cap) == ""
  {
  }

  method PutDigits(start: string, tmp: array<char>, n: nat, cap: nat, ghost sign: string,
                   ghost w: string) returns (dst: string)
    requires cap > 0 && start == Cut(sign, cap) && n == |w| <= tmp.Length
    requires forall i :: 0 <= i < n ==> tmp[i] == w[n - 1 - i]
    ensures dst == Cut(sign + w, cap)
  {
    hide Cut;
    dst := start;
    var i := n;
    assert sign + w[..0] == sign;
    while i > 0 && |dst| + 1 < cap
      invariant 0 <= i <= n && dst == Cut(sign + w[..n - i], cap)
    {
      i := i - 1;
      CutMore(sign + w[..n - i - 1], tmp[i], "", cap);
      assert sign + w[..n - i - 1] + [tmp[i]] == sign + w[..n - i];
      dst := dst + [tmp[i]];
    }
    CutMore(sign + w[..n - i], 'x', w[n - i..], cap);
    assert sign + w[..n - i] + w[n - i..] == sign + w;
    assert i == 0 ==> sign + w[..n - i] == sign + w;
  }

  method PutFraction(start: string, f: string, cap: nat, ghost whole: string) returns (dst: string)
    requires cap > 0 && start == Cut(whole, cap)
    ensures dst == Cut(whole + (if f == "" then "" else "." + f), cap)
  {
    hide Cut;
    dst := start;
    CutMore(whole, '.', "." + f, cap);
    assert f == "" ==> whole + "" == whole;
    if |f| > 0 && |dst| + 1 < cap {
      dst := dst + ".";
      var i := 0;
      assert whole + "." + f[..0] == whole + ".";
      while i < |f| && |dst| + 1 < cap
        invariant 0 <= i <= |f| && dst == Cut(whole + "." + f[..i], cap)
      {
        CutMore(whole + "." + f[..i], f[i], "", cap);
        assert whole + "." + f[..i] + [f[i]] == whole + "." + f[..i + 1];
        dst := dst + [f[i]];
        i := i + 1;
      }
      CutMore(whole + "." + f[..i], 'x', f[i..], cap);
      assert whole + "." + f[..i] + f[i..] == whole + ("." + f);
      assert i == |f| ==> whole + "." + f[..i] == whole + ("." + f);
    }
  }

  // ---- square root -----------------------------------------------------------------

  /** One Newton step from any positive guess is not below the root. */
  lemma NewtonAbove(n: nat, x: nat)
    requires x > 0
    ensures var y := (x + n / x) / 2; (y + 1) * (y + 1) > n
  {
    var q := n / x;
    var y := (x + q) / 2;
    assert n == x * q + n % x;
    assert n < x * (q + 1);
    var a := x + q + 1;
    assert 2 * (y + 1) >= a;
    assert 4 * ((y + 1) * (y + 1)) >= a * a by {
      SquareMono(a, 2 * (y + 1));
    }
    assert a * a - 4 * (x * (q + 1)) == (x - q - 1) * (x - q - 1);
    SquareNonNeg(x - q - 1);
  }

  lemma SquareMono(a: nat, b: nat)
    requires a <= b
    ensures a * a <= b * b
  {
  }

  lemma SquareNonNeg(a: int)
    ensures a * a >= 0
  {
  }

  /** The floor of the square root, by Newton's method from above, in 128 bits. */
  method Isqrt(n: nat) returns (r: nat)
    requires 0 < n < 0x8000_0000_0000_0000_0000_0000_0000_0000
    ensures r * r <= n < (r + 1) * (r + 1)
  {
    var m := n as U128;
    var s := m;
    QuotientUpTo(n, s as int);
    var s1 := (s + m / s) / 2;
    FirstAbove(n);
    NewtonAbove(n, n);
    while s1 < s
      invariant 0 < s <= m && (s as int + 1) * (s as int + 1) > n && s1 as int == (s as int + n / s as int) / 2
      decreases s
    {
      NewtonAbove(n, s as int);
      StepPositive(n, s as int);
      s := s1;
      QuotientUpTo(n, s as int);
      s1 := (s + m / s) / 2;
    }
    StopBelow(n, s as int);
    r := s as int;
  }

  lemma QuotientUpTo(n: nat, r: nat)
    requires r > 0
    ensures 0 <= n / r <= n
  {
    var q := n / r;
    assert n == r * q + n % r;
    TimesUpTo(q, 1, r);
    assert q * r == r * q;
  }

  lemma FirstAbove(n: nat)
    ensures (n + 1) * (n + 1) > n
  {
  }

  lemma StepPositive(n: nat, r: nat)
    requires n > 0 && r > 0
    ensures (r + n / r) / 2 > 0
  {
    if r == 1 {
      assert n / 1 == n;
    }
  }

  lemma StopBelow(n: nat, r: nat)
    requires r > 0 && (r + n / r) / 2 >= r
    ensures r * r <= n
  {
    assert n / r >= r;
    assert n == r * (n / r) + n % r;
    assert r * (n / r) >= r * r;
  }
}
