// What the app language's operators and functions give, said of numbers and texts
// themselves: exact sums, products and quotients within one unit toward zero, the
// order of numbers and of texts, first places and pieces of a text.

module AppLaws {
  import opened Basics
  import opened AppNum
  import opened AppValue
  import opened Division
  import Words

  // ---- arithmetic --------------------------------------------------------------------------------

  /** The number, unless it is out of range. */
  predicate OrErr(v: Val, r: int) { if -MAX <= r <= MAX then v == Num(r) else v.Err? }

  lemma Sums(x: int, y: int)
    ensures OrErr(Apply2(Add, Num(x), Num(y)), x + y) && OrErr(Apply2(Sub, Num(x), Num(y)), x - y)
  {
  }

  /** Taking away and adding back gives what there was, whenever the difference is in
      range. */
  lemma SubUndone(x: int, y: int)
    requires -MAX <= x <= MAX && -MAX <= x - y <= MAX
    ensures Apply2(Add, Apply2(Sub, Num(x), Num(y)), Num(y)) == Num(x)
  {
  }

  /** A product at six decimals: the exact one with what is beyond them dropped. */
  lemma Product(x: int, y: int)
    ensures exists r :: Truncated(r, x * y, SCALE) && OrErr(Apply2(Mul, Num(x), Num(y)), r)
  {
    hide Truncated;
    TDivIs(x * y, SCALE);
    var r := Words.TDiv(x * y, SCALE);
    assert Truncated(r, x * y, SCALE) && OrErr(Apply2(Mul, Num(x), Num(y)), r);
  }

  /** And a quotient; nothing is divided by zero. */
  lemma Ratio(x: int, y: int)
    ensures Apply2(Div, Num(x), Num(0)) == Err
    ensures y != 0 ==> exists r :: Truncated(r, x * SCALE, y) && OrErr(Apply2(Div, Num(x), Num(y)), r)
  {
    hide Truncated;
    if y != 0 {
      TDivIs(x * SCALE, y);
      var r := Words.TDiv(x * SCALE, y);
      assert Truncated(r, x * SCALE, y) && OrErr(Apply2(Div, Num(x), Num(y)), r);
    }
  }

  /** A remainder is smaller than the divisor, has the sign of the dividend, and
      leaves a multiple. */
  lemma Rest(x: int, y: int)
    ensures Apply2(Mod, Num(x), Num(0)) == Err
    ensures y != 0 ==> exists r :: Remainder(r, x, y) && OrErr(Apply2(Mod, Num(x), Num(y)), r)
  {
    hide Remainder;
    if y != 0 {
      TDivIs(x, y);
      var r := Words.TMod(x, y);
      assert Remainder(r, x, y) && OrErr(Apply2(Mod, Num(x), Num(y)), r);
    }
  }

  /** Multiplying by a whole number and dividing by it again changes nothing. */
  lemma TimesUndone(x: int, k: int)
    requires k != 0 && -MAX <= x * k <= MAX && -MAX <= x <= MAX
    ensures Apply2(Div, Apply2(Mul, Num(x), Num(k * SCALE)), Num(k * SCALE)) == Num(x)
  {
    Exactly(x * k, SCALE);
    assert x * (k * SCALE) == x * k * SCALE;
    Exactly(x, k * SCALE);
    assert x * k * SCALE == x * (k * SCALE);
  }

  lemma Exactly(x: int, y: int)
    requires y != 0
    ensures Words.TDiv(x * y, y) == x
  {
    var u, v := Size(x * y), Size(y);
    TDivSizes(x * y, y);
    hide Words.TDiv;
    assert u == v * Size(x) + 0 by {
      Signs(x, y);
      SizeTimes(x, y);
    }
    DivIs(u, v, Size(x), 0);
    SignOf(x, y);
  }

  lemma SizeTimes(x: int, y: int)
    ensures Size(x * y) == Size(y) * Size(x)
  {
    Signs(x, y);
    if x >= 0 && y >= 0 {
      assert x * y >= 0;
    } else if x < 0 && y < 0 {
      assert -x * -y >= 0;
    } else if x >= 0 {
      assert x * -y >= 0;
    } else {
      assert -x * y >= 0;
    }
  }

  lemma SignOf(x: int, y: int)
    requires y != 0
    ensures x != 0 ==> ((x * y >= 0) == (y > 0) <==> x > 0)
  {
    Signs(x, y);
    if x > 0 && y > 0 {
      assert x * y > 0;
    } else if x > 0 {
      assert x * -y > 0;
    } else if x < 0 && y > 0 {
      assert -x * y > 0;
    } else if x < 0 {
      assert -x * -y > 0;
    }
  }

  lemma Smaller(x: int, y: int)
    ensures var r := Apply2(Min, Num(x), Num(y)); r.Num? && (r.n == x || r.n == y) && r.n <= x && r.n <= y
    ensures var r := Apply2(Max, Num(x), Num(y)); r.Num? && (r.n == x || r.n == y) && r.n >= x && r.n >= y
  {
  }

  /** Negation undoes itself, and abs is the distance from zero. */
  lemma Negated(x: int, bits: int)
    ensures Apply1(Neg, Num(x), bits) == Num(-x) && Apply1(Neg, Apply1(Neg, Num(x), bits), bits) == Num(x)
    ensures var r := Apply1(Abs, Num(x), bits); r.Num? && r.n >= 0 && (r.n == x || r.n == -x)
  {
  }

  /** round is the nearest whole number, away from zero when two are as near. */
  lemma Nearest(x: int, bits: int)
    ensures var r := Apply1(Round, Num(x), bits);
            && (r.Num? ==> r.n % SCALE == 0 && -SCALE <= 2 * (r.n - x) <= SCALE)
            && (r.Num? && Size(2 * (r.n - x)) == SCALE ==> Size(r.n) > Size(x))
            && (r.Err? ==> Size(x) + SCALE / 2 > MAX)
  {
    var mag := Size(x);
    var k := (mag + SCALE / 2) / SCALE;
    DivSplit(mag + SCALE / 2, SCALE);
    MultipleOf(k);
    MultipleOf(-k);
    assert -(k * SCALE) == -k * SCALE;
  }

  /** rand scales 64 random bits down to the wanted range. */
  lemma Scaled(n: int, bits: int)
    requires 0 <= bits < 0x1_0000_0000_0000_0000
    ensures var r := Apply1(Rand, Num(n), bits);
            r.Num? ==> r.n % SCALE == 0 && exists k ::
              Truncated(k, n, SCALE) && 1 <= k <= RAND_MAX
              && r.n / SCALE * 0x1_0000_0000_0000_0000 <= bits * k < (r.n / SCALE + 1) * 0x1_0000_0000_0000_0000
  {
    hide Words.TDiv, Truncated;
    var k := Words.TDiv(n, SCALE);
    TDivIs(n, SCALE);
    if 1 <= k <= RAND_MAX {
      HighPart(bits, k);
      var v := bits * k / 0x1_0000_0000_0000_0000;
      DivSplit(bits * k, 0x1_0000_0000_0000_0000);
      MultipleOf(v);
      assert v * SCALE / SCALE == v;
      assert Truncated(k, n, SCALE);
    }
  }

  // ---- truth and order -----------------------------------------------------------------------------

  /** One for true, zero for false. */
  predicate Says(v: Val, b: bool) { v == Num(if b then SCALE else 0) }

  lemma NumbersCompare(x: int, y: int)
    ensures Says(Apply2(Eq, Num(x), Num(y)), x == y) && Says(Apply2(Ne, Num(x), Num(y)), x != y)
    ensures Says(Apply2(Lt, Num(x), Num(y)), x < y) && Says(Apply2(Le, Num(x), Num(y)), x <= y)
    ensures Says(Apply2(Gt, Num(x), Num(y)), x > y) && Says(Apply2(Ge, Num(x), Num(y)), x >= y)
  {
  }

  /** `a` comes before `b`: it is a proper prefix, or smaller where they first
      differ. */
  ghost predicate Before(a: string, b: string) {
    exists k: nat :: Splits(a, b, k)
  }

  predicate Splits(a: string, b: string, k: nat) {
    k <= |a| && k < |b| && a[..k] == b[..k] && (k == |a| || a[k] < b[k])
  }

  lemma {:induction false} OrderIs(a: string, b: string)
    ensures Order(a, b) < 0 <==> Before(a, b)
    ensures Order(a, b) == 0 <==> a == b
    ensures Order(a, b) > 0 <==> Before(b, a)
  {
    OneOf(a, b);
    if a != "" && b != "" && a[0] == b[0] {
      OrderIs(a[1..], b[1..]);
      SplitNext(a, b);
      SplitNext(b, a);
      assert a == [a[0]] + a[1..] && b == [b[0]] + b[1..];
    } else if b != "" && (a == "" || a[0] < b[0]) {
      assert Splits(a, b, 0);
    } else if a != "" {
      assert Splits(b, a, 0);
    }
  }

  lemma NotBoth(a: string, b: string, j: nat, k: nat)
    ensures !(Splits(a, b, j) && Splits(b, a, k))
  {
    if j < k <= |a| && k <= |b| && a[..k] == b[..k] {
      assert a[j] == a[..k][j] == b[..k][j] == b[j];
    } else if k < j <= |a| && j <= |b| && a[..j] == b[..j] {
      assert a[k] == a[..j][k] == b[..j][k] == b[k];
    }
  }

  /** Of two texts one comes first or they are equal, never two of the three. */
  lemma OneOf(a: string, b: string)
    ensures !(Before(a, b) && Before(b, a)) && !Before(a, a)
  {
    if Before(a, b) && Before(b, a) {
      var j: nat :| Splits(a, b, j);
      var k: nat :| Splits(b, a, k);
      NotBoth(a, b, j, k);
    }
  }

  lemma SplitNext(a: string, b: string)
    requires a != "" && b != "" && a[0] == b[0]
    ensures Before(a, b) <==> Before(a[1..], b[1..])
  {
    if Before(a, b) {
      var k: nat :| Splits(a, b, k);
      assert k > 0;
      assert a[1..][..k - 1] == a[..k][1..] && b[1..][..k - 1] == b[..k][1..];
      assert Splits(a[1..], b[1..], k - 1);
    }
    if Before(a[1..], b[1..]) {
      var k: nat :| Splits(a[1..], b[1..], k);
      assert a[..k + 1] == [a[0]] + a[1..][..k] && b[..k + 1] == [b[0]] + b[1..][..k];
      assert Splits(a, b, k + 1);
    }
  }

  lemma TextsCompare(a: string, b: string)
    ensures Says(Apply2(Eq, Str(a), Str(b)), a == b) && Says(Apply2(Ne, Str(a), Str(b)), a != b)
    ensures Says(Apply2(Lt, Str(a), Str(b)), Before(a, b)) && Says(Apply2(Gt, Str(a), Str(b)), Before(b, a))
    ensures Says(Apply2(Le, Str(a), Str(b)), !Before(b, a)) && Says(Apply2(Ge, Str(a), Str(b)), !Before(a, b))
  {
    OrderIs(a, b);
  }

  /** A number and a text are unequal, and neither comes first. */
  lemma MixedCompare(x: int, s: string)
    ensures forall a, b :: (a, b) == (Num(x), Str(s)) || (a, b) == (Str(s), Num(x)) ==>
              && Says(Apply2(Eq, a, b), false) && Says(Apply2(Ne, a, b), true)
              && Apply2(Lt, a, b) == Apply2(Le, a, b) == Apply2(Gt, a, b) == Apply2(Ge, a, b) == Err
  {
  }

  /** Zero and the empty text are false, everything else is true. */
  predicate Holds(v: Val) { v != Num(0) && v != Str("") }

  lemma Logic(a: Val, b: Val, bits: int)
    requires !a.Err? && !b.Err?
    ensures Says(Apply2(And, a, b), Holds(a) && Holds(b)) && Says(Apply2(Or, a, b), Holds(a) || Holds(b))
    ensures Says(Apply1(Not, a, bits), !Holds(a)) && Says(Apply1(IsErr, a, bits), false)
    ensures Says(Apply1(IsErr, Err, bits), true)
  {
  }

  // ---- texts -----------------------------------------------------------------------------------------
  // `s` is the text of a value: a number's is how it is written, a string's its own.

  predicate IsText(v: Val, s: string) {
    match v
    case Num(n) => s == TextOf(n) && |s| < TEXT_MAX
    case Str(t) => s == t && |t| < TEXT_MAX
    case Err => false
  }

  lemma TextIs(v: Val, s: string)
    requires IsText(v, s)
    ensures Text(v) == s && !v.Err? && |s| < TEXT_MAX
  {
    hide TextOf;
  }

  /** cat puts one after the other, if the result is short enough. */
  lemma Joined(a: Val, b: Val, s: string, t: string)
    requires IsText(a, s) && IsText(b, t)
    ensures Apply2(Cat, a, b) == if |s| + |t| < TEXT_MAX then Str(s + t) else Err
  {
    hide Text, Apply2, IsText;
    TextIs(a, s);
    TextIs(b, t);
    JoinOpens(a, b, s, t);
  }

  lemma JoinOpens(a: Val, b: Val, s: string, t: string)
    requires !a.Err? && !b.Err? && Text(a) == s && Text(b) == t
    ensures Apply2(Cat, a, b) == if |s| + |t| < TEXT_MAX then Str(s + t) else Err
  {
    hide Text;
    if |s| + |t| < TEXT_MAX {
      CutShort(s + t);
    }
  }

  predicate OccursAt(s: string, t: string, i: int) { 0 <= i && i + |t| <= |s| && s[i..i + |t|] == t }

  ghost predicate FirstAt(s: string, t: string, i: int) {
    OccursAt(s, t, i) && forall j :: 0 <= j < i ==> !OccursAt(s, t, j)
  }

  lemma {:induction false} IndexIs(s: string, t: string, i: nat)
    ensures var r := IndexFrom(s, t, i);
            && (r == -1 ==> forall j :: i <= j ==> !OccursAt(s, t, j))
            && (r != -1 ==> OccursAt(s, t, r) && i <= r && forall j :: i <= j < r ==> !OccursAt(s, t, j))
    decreases |s| - i
  {
    if i + |t| <= |s| && s[i..i + |t|] != t && i < |s| {
      IndexIs(s, t, i + 1);
    }
  }

  /** find gives the first place, has whether there is one; an empty text is nowhere
      for has and at the start for find. */
  lemma Found(a: Val, b: Val, s: string, t: string)
    requires IsText(a, s) && IsText(b, t)
    ensures var r := Apply2(Find, a, b);
            && (r.Err? ==> forall j :: !OccursAt(s, t, j))
            && (!r.Err? ==> r.Num? && exists i: nat :: r.n == i * SCALE && FirstAt(s, t, i))
    ensures Says(Apply2(Has, a, b), t != "" && exists j :: OccursAt(s, t, j))
  {
    FindOpens(a, b);
    hide Text, IndexFrom, Apply2, OccursAt;
    TextIs(a, s);
    TextIs(b, t);
    IndexIs(s, t, 0);
    var i := IndexFrom(s, t, 0);
    if i != -1 {
      assert FirstAt(s, t, i);
    }
  }

  lemma FindOpens(a: Val, b: Val)
    requires !a.Err? && !b.Err?
    ensures var i := IndexFrom(Text(a), Text(b), 0);
            && Apply2(Find, a, b) == (if i == -1 then Err else Num(i * SCALE))
            && Says(Apply2(Has, a, b), Text(b) != "" && i != -1)
  {
    hide Text, IndexFrom;
  }

  /** replace puts a text in place of the first occurrence of another, cut to what a
      value holds. */
  lemma Swapped(a: Val, b: Val, c: Val, s: string, was: string, now: string, i: int)
    requires IsText(a, s) && IsText(b, was) && IsText(c, now) && was != "" && FirstAt(s, was, i)
    ensures Apply3(Replace, a, b, c) == Str(Cut(s[..i] + now + s[i + |was|..], TEXT_MAX))
  {
    FirstIs(s, was, i);
    hide Text, IndexFrom, Apply3, Cut, OccursAt, FirstAt;
    TextIs(a, s);
    TextIs(b, was);
    TextIs(c, now);
    hide IsText;
    SwapOpens(a, b, c, s, was, now, i);
  }

  lemma FirstIs(s: string, t: string, i: int)
    requires FirstAt(s, t, i)
    ensures IndexFrom(s, t, 0) == i && 0 <= i
  {
    hide IndexFrom;
    IndexIs(s, t, 0);
  }

  /** Where there is none, nothing changes. */
  lemma Unswapped(a: Val, b: Val, c: Val, s: string, was: string, now: string)
    requires IsText(a, s) && IsText(b, was) && IsText(c, now) && (was == "" || forall j :: !OccursAt(s, was, j))
    ensures Apply3(Replace, a, b, c) == Str(s)
  {
    hide Text, IndexFrom, Apply3, IsText, Cut, OccursAt;
    TextIs(a, s);
    TextIs(b, was);
    TextIs(c, now);
    IndexIs(s, was, 0);
    SwapOpens(a, b, c, s, was, now, IndexFrom(s, was, 0));
    CutShort(s);
  }

  lemma CutShort(s: string)
    requires |s| < TEXT_MAX
    ensures Cut(s, TEXT_MAX) == s
  {
  }

  lemma SwapOpens(a: Val, b: Val, c: Val, s: string, was: string, now: string, i: int)
    requires !a.Err? && !b.Err? && !c.Err? && Text(a) == s && Text(b) == was && Text(c) == now
    requires i == IndexFrom(s, was, 0)
    ensures Apply3(Replace, a, b, c) ==
            Str(Cut(if was == "" || i == -1 then s else s[..i] + now + s[i + |was|..], TEXT_MAX))
  {
    hide Text, IndexFrom, Cut;
  }

  /** slice gives `n` characters from place `i` on, as far as there are any. */
  lemma Piece(a: Val, s: string, x: int, y: int, i: int, n: int)
    requires IsText(a, s) && Truncated(i, x, SCALE) && Truncated(n, y, SCALE)
    ensures Apply3(Slice, a, Num(x), Num(y)) ==
            Str(if 0 <= i < |s| && 0 < n then s[i..if i + n <= |s| then i + n else |s|] else "")
  {
    WholeIs(x, i);
    WholeIs(y, n);
    hide Words.TDiv, Truncated;
    SliceOpens(a, x, y);
    hide Text, IsText, Apply3;
    TextIs(a, s);
    CutShort(if 0 <= i < |s| && 0 < n then s[i..if i + n <= |s| then i + n else |s|] else "");
  }

  lemma SliceOpens(a: Val, x: int, y: int)
    requires !a.Err?
    ensures var s, i, n := Text(a), Words.TDiv(x, SCALE), Words.TDiv(y, SCALE);
            Apply3(Slice, a, Num(x), Num(y)) ==
            Str(Cut(if n <= 0 || i < 0 || i >= |s| then "" else if i + n > |s| then s[i..] else s[i..i + n], TEXT_MAX))
  {
    hide Text, Words.TDiv, Cut;
  }

  /** The whole part of a number. */
  lemma WholeIs(x: int, i: int)
    requires Truncated(i, x, SCALE)
    ensures Words.TDiv(x, SCALE) == i
  {
    TDivIs(x, SCALE);
    hide Words.TDiv;
    OneQuotient(Words.TDiv(x, SCALE), i, x);
  }

  lemma OneQuotient(p: int, q: int, x: int)
    requires Truncated(p, x, SCALE) && Truncated(q, x, SCALE)
    ensures p == q
  {
  }

  /** at gives the one character there. */
  lemma Letter(a: Val, s: string, x: int, i: int)
    requires IsText(a, s) && Truncated(i, x, SCALE)
    ensures Apply2(At, a, Num(x)) == if x >= 0 && i < |s| then Str([s[i]]) else Err
  {
    hide Apply2, Text, Words.TDiv, IsText;
    WholeIs(x, i);
    TextIs(a, s);
    AtOpens(a, s, x);
    assert x >= 0 ==> i >= 0;
  }

  lemma AtOpens(a: Val, s: string, x: int)
    requires Text(a) == s && !a.Err? && |s| < TEXT_MAX
    ensures var i := Words.TDiv(x, SCALE);
            Apply2(At, a, Num(x)) == if x < 0 || i < 0 || i >= |s| then Err else Str([s[i]])
  {
    hide Text, Words.TDiv;
  }

  predicate Blank(s: string) { forall i :: 0 <= i < |s| ==> s[i] == ' ' }

  lemma {:induction false} SpacesBlank(n: nat)
    ensures Blank(Spaces(n))
  {
    if n > 0 {
      SpacesBlank(n - 1);
    }
  }

  /** padl and padr fill up with blanks on one side, to a width of at most 39. */
  lemma Filled(a: Val, s: string, x: int, n: int)
    requires IsText(a, s) && Truncated(n, x, SCALE)
    ensures var width := Most(|s|, if n < 0 then 0 else if n < TEXT_MAX then n else TEXT_MAX - 1);
            var l, r := Apply2(PadL, a, Num(x)), Apply2(PadR, a, Num(x));
            && l.Str? && |l.s| == width && Blank(l.s[..width - |s|]) && l.s[width - |s|..] == s
            && r.Str? && |r.s| == width && r.s[..|s|] == s && Blank(r.s[|s|..])
  {
    hide Apply2, Text, IsText, Truncated, Width, Spaces, Cut;
    WidthIs(x, n);
    TextIs(a, s);
    PadOpens(a, x);
    var wide := Width(x);
    var gap := if |s| >= wide then "" else Spaces(wide - |s|);
    if |s| < wide {
      SpacesBlank(wide - |s|);
    }
    Around(gap, s);
  }

  lemma WidthIs(x: int, n: int)
    requires Truncated(n, x, SCALE)
    ensures Width(x) == if n < 0 then 0 else if n < TEXT_MAX then n else TEXT_MAX - 1
  {
    hide Words.TDiv;
    WholeIs(x, n);
  }

  lemma PadOpens(a: Val, x: int)
    requires !a.Err?
    ensures var s, wide := Text(a), Width(x);
            var gap := if |s| >= wide then "" else Spaces(wide - |s|);
            && Apply2(PadL, a, Num(x)) == Str(Cut(gap + s, TEXT_MAX))
            && Apply2(PadR, a, Num(x)) == Str(Cut(s + gap, TEXT_MAX)) && wide < TEXT_MAX
  {
    hide Text, Words.TDiv, Spaces, Cut;
    assert "" + Text(a) == Text(a) + "" == Text(a);
  }

  lemma Around(gap: string, s: string)
    requires |gap| + |s| < TEXT_MAX
    ensures Cut(gap + s, TEXT_MAX) == gap + s && Cut(s + gap, TEXT_MAX) == s + gap
    ensures (gap + s)[..|gap|] == gap && (gap + s)[|gap|..] == s && (s + gap)[..|s|] == s && (s + gap)[|s|..] == gap
  {
  }

  /** trim takes blanks off both ends and nothing else. */
  lemma Trimmed(a: Val, s: string, bits: int)
    requires IsText(a, s)
    ensures var r := Apply1(Trim, a, bits);
            && r.Str? && (r.s != "" ==> r.s[0] != ' ' && r.s[|r.s| - 1] != ' ')
            && exists i: nat, j: nat ::
                 i <= j <= |s| && r.s == s[i..j] && Blank(s[..i]) && Blank(s[j..])
  {
    TrimOpens(a, bits);
    hide Text, Apply1, DropLeft, DropRight, Blank, IsText;
    TextIs(a, s);
    var i := LeftOf(s);
    var t := DropLeft(s);
    var k := RightOf(t);
    Inner(s, t, i, k);
    CutShort(DropRight(t));
    assert i <= i + k <= |s| && DropRight(t) == s[i..i + k] && Blank(s[..i]) && Blank(s[i + k..]);
  }

  lemma TrimOpens(a: Val, bits: int)
    requires !a.Err?
    ensures Apply1(Trim, a, bits) == Str(Cut(DropRight(DropLeft(Text(a))), TEXT_MAX))
  {
    hide Text, DropLeft, DropRight, Cut;
  }

  lemma Inner(s: string, t: string, i: nat, k: nat)
    requires i <= |s| && t == s[i..] && k <= |t|
    ensures t[..k] == s[i..i + k] && t[k..] == s[i + k..]
  {
  }

  lemma {:induction false} LeftOf(s: string) returns (i: nat)
    ensures i <= |s| && DropLeft(s) == s[i..] && Blank(s[..i]) && (i < |s| ==> s[i] != ' ')
  {
    if s != "" && s[0] == ' ' {
      var k := LeftOf(s[1..]);
      i := k + 1;
      assert s[1..][k..] == s[i..] && s[..i] == [' '] + s[1..][..k];
    } else {
      i := 0;
    }
  }

  lemma {:induction false} RightOf(s: string) returns (k: nat)
    ensures k <= |s| && DropRight(s) == s[..k] && Blank(s[k..]) && (k > 0 ==> s[k - 1] != ' ')
  {
    if s != "" && s[|s| - 1] == ' ' {
      var most := s[..|s| - 1];
      k := RightOf(most);
      assert most[..k] == s[..k] && s[k..] == most[k..] + [' '];
    } else {
      k := |s|;
    }
  }

  /** upper and lower change the letters of the other case, each to its own, and
      nothing else. */
  lemma Cased(a: Val, s: string, bits: int)
    requires IsText(a, s)
    ensures var u, l := Apply1(Upper, a, bits), Apply1(Lower, a, bits);
            && u.Str? && l.Str? && |u.s| == |l.s| == |s|
            && forall i :: 0 <= i < |s| ==>
                 && u.s[i] as int == (if 'a' <= s[i] <= 'z' then s[i] as int - 'a' as int + 'A' as int else s[i] as int)
                 && l.s[i] as int == (if 'A' <= s[i] <= 'Z' then s[i] as int - 'A' as int + 'a' as int else s[i] as int)
  {
    hide Text;
    TextIs(a, s);
  }

  lemma {:induction false} DigitsLast(s: string, c: char)
    ensures CountDigits(s + [c]) == CountDigits(s) + if '0' <= c <= '9' then 1 else 0
  {
    if s != "" {
      assert (s + [c])[1..] == s[1..] + [c];
      DigitsLast(s[1..], c);
    } else {
      assert s + [c] == [c];
    }
  }

  function DigitPlaces(s: string): set<int> { set i | 0 <= i < |s| && '0' <= s[i] <= '9' }

  lemma {:induction false} DigitsAre(s: string)
    ensures CountDigits(s) == |DigitPlaces(s)|
  {
    if s != "" {
      var n := |s| - 1;
      var most, c := s[..n], s[n];
      DigitsAre(most);
      DigitsLast(most, c);
      assert s == most + [c];
      assert DigitPlaces(s) == DigitPlaces(most) + (if '0' <= c <= '9' then {n} else {});
    }
  }

  /** len counts the characters, digits those from 0 to 9. */
  lemma Counted(a: Val, s: string, bits: int)
    requires IsText(a, s)
    ensures Apply1(Len, a, bits) == Num(|s| * SCALE)
    ensures Apply1(Digits, a, bits) == Num(|DigitPlaces(s)| * SCALE)
  {
    hide Text;
    TextIs(a, s);
    DigitsAre(s);
  }

  /** A number written as text and read back is the number. */
  lemma TextAndBack(x: int, bits: int)
    requires -(MAX + SCALE) < x < MAX + SCALE && |TextOf(x)| < TEXT_MAX
    ensures Apply1(ToNum, Apply1(ToText, Num(x), bits), bits) == Num(x)
  {
    hide TextOf, NumOf;
    RoundTrip(x);
  }
}
