// Values of the app language and what its operators and functions give.

module AppValue {
  import opened Basics
  import Words
  import opened AppNum

  const TEXT_MAX: nat := 40
  const RAND_MAX: int := 1_000_000

  datatype Val = Num(n: int) | Str(s: string) | Err

  datatype Op1 =
    | Not | Neg | ToNum | ToText | Len | Digits | IsErr | Abs | Round | Rand
    | Trim | Upper | Lower | Floor | Ceil | Sqrt

  datatype Op2 =
    | Add | Sub | Mul | Div | Mod
    | Eq | Ne | Lt | Le | Gt | Ge
    | And | Or
    | Cat | Has | Min | Max | At | Find | PadL | PadR

  datatype Op3 = Slice | Replace

  /** A string value holds at most 39 characters. */
  function StrVal(s: string): (v: Val)
    ensures v.Str? && |v.s| < TEXT_MAX && (|s| < TEXT_MAX ==> v.s == s)
  {
    Str(Cut(s, TEXT_MAX))
  }

  function Bool(b: bool): Val { Num(if b then SCALE else 0) }

  function Text(v: Val): string {
    match v
    case Num(n) => Cut(TextOf(n), TEXT_MAX)
    case Str(s) => s
    case Err => "error"
  }

  predicate Truthy(v: Val)
    requires !v.Err?
  {
    if v.Num? then v.n != 0 else v.s != ""
  }

  /** In range or an error. */
  function Clamp(r: int): Val {
    if r > MAX || r < -MAX then Err else Num(r)
  }

  function Arith(op: Op2, a: int, b: int): Val {
    match op
    case Add => Clamp(a + b)
    case Sub => Clamp(a - b)
    case Mul => Clamp(Words.TDiv(a * b, SCALE))
    case Div => if b == 0 then Err else Clamp(Words.TDiv(a * SCALE, b))
    case Mod => if b == 0 then Err else Clamp(Words.TMod(a, b))
    case _ => Err
  }

  /** The sign of a - b in byte order; a prefix comes first. */
  function Order(a: string, b: string): int {
    if a == "" then (if b == "" then 0 else -1)
    else if b == "" then 1
    else if a[0] != b[0] then (if a[0] < b[0] then -1 else 1)
    else Order(a[1..], b[1..])
  }

  function Sign(a: Val, b: Val): int
    requires a.Num? == b.Num? && !a.Err? && !b.Err?
  {
    if a.Num? then (if a.n < b.n then -1 else if a.n > b.n then 1 else 0) else Order(a.s, b.s)
  }

  /** Equality across kinds is "unequal"; ordering across kinds is an error. */
  function Comparison(op: Op2, a: Val, b: Val): Val
    requires !a.Err? && !b.Err?
  {
    var same := a.Num? == b.Num?;
    match op
    case Eq => Bool(same && Sign(a, b) == 0)
    case Ne => Bool(!(same && Sign(a, b) == 0))
    case Lt => if same then Bool(Sign(a, b) < 0) else Err
    case Le => if same then Bool(Sign(a, b) <= 0) else Err
    case Gt => if same then Bool(Sign(a, b) > 0) else Err
    case Ge => if same then Bool(Sign(a, b) >= 0) else Err
    case _ => Err
  }

  /** The first place `needle` occurs at or after `i`, or -1. */
  function IndexFrom(s: string, needle: string, i: nat): (r: int)
    ensures r == -1 || (i <= r && r + |needle| <= |s| && s[r..r + |needle|] == needle)
    decreases |s| - i
  {
    if i + |needle| > |s| then -1
    else if s[i..i + |needle|] == needle then i
    else if i < |s| then IndexFrom(s, needle, i + 1)
    else -1
  }

  function Spaces(n: nat): (s: string)
    ensures |s| == n
  {
    if n == 0 then "" else " " + Spaces(n - 1)
  }

  function Width(n: int): nat {
    var w := Words.TDiv(n, SCALE);
    if w < 0 then 0 else if w >= TEXT_MAX then TEXT_MAX - 1 else w
  }

  function CharAt(s: string, n: int): Val {
    var i := Words.TDiv(n, SCALE);
    if n < 0 || i < 0 || i >= |s| then Err else StrVal([s[i]])
  }

  function Apply2(op: Op2, a: Val, b: Val): Val {
    match op
    case Add | Sub | Mul | Div | Mod => if a.Num? && b.Num? then Arith(op, a.n, b.n) else Err
    case Eq | Ne | Lt | Le | Gt | Ge => if a.Err? || b.Err? then Err else Comparison(op, a, b)
    case And => if a.Err? || b.Err? then Err else Bool(Truthy(a) && Truthy(b))
    case Or => if a.Err? || b.Err? then Err else Bool(Truthy(a) || Truthy(b))
    case Cat =>
      if a.Err? || b.Err? || |Text(a)| + |Text(b)| >= TEXT_MAX then Err else StrVal(Text(a) + Text(b))
    case Has =>
      if a.Err? || b.Err? then Err
      else Bool(Text(b) != "" && IndexFrom(Text(a), Text(b), 0) != -1)
    case Min => if a.Num? && b.Num? then Num(if a.n < b.n then a.n else b.n) else Err
    case Max => if a.Num? && b.Num? then Num(if a.n < b.n then b.n else a.n) else Err
    case At => if a.Err? || !b.Num? then Err else CharAt(Text(a), b.n)
    case Find =>
      if a.Err? || b.Err? then Err
      else
        var i := IndexFrom(Text(a), Text(b), 0);
        if i == -1 then Err else Num(i * SCALE)
    case PadL =>
      if a.Err? || !b.Num? then Err
      else if |Text(a)| >= Width(b.n) then StrVal(Text(a))
      else StrVal(Spaces(Width(b.n) - |Text(a)|) + Text(a))
    case PadR =>
      if a.Err? || !b.Num? then Err
      else if |Text(a)| >= Width(b.n) then StrVal(Text(a))
      else StrVal(Text(a) + Spaces(Width(b.n) - |Text(a)|))
  }

  function CountDigits(s: string): nat {
    if s == "" then 0 else (if IsDigit(s[0]) then 1 else 0) + CountDigits(s[1..])
  }

  function DropLeft(s: string): string { if s != "" && s[0] == ' ' then DropLeft(s[1..]) else s }

  function DropRight(s: string): string {
    if s != "" && s[|s| - 1] == ' ' then DropRight(s[..|s| - 1]) else s
  }

  function Shift(s: string, lo: char, hi: char, delta: int): string
    requires 'A' <= lo <= hi <= 'z' && -32 <= delta <= 32
  {
    seq(|s|, i requires 0 <= i < |s| => if lo <= s[i] <= hi then (s[i] as int + delta) as char else s[i])
  }

  /** Nearest whole number, halves away from zero. */
  function Rounded(n: int): Val {
    var mag := if n < 0 then -n else n;
    var r := (mag + SCALE / 2) / SCALE * SCALE;
    Clamp(if n < 0 then -r else r)
  }

  function FloorOf(n: int): int { (Words.TDiv(n, SCALE) - (if Words.TMod(n, SCALE) < 0 then 1 else 0)) * SCALE }

  function CeilOf(n: int): int { (Words.TDiv(n, SCALE) + (if Words.TMod(n, SCALE) > 0 then 1 else 0)) * SCALE }

  /** The largest k' <= k whose square is at most n. */
  function RootFrom(n: nat, k: nat): nat { if k * k <= n || k == 0 then k else RootFrom(n, k - 1) }

  function SqrtOf(n: int): Val {
    if n < 0 then Err
    else
      var r := RootFrom(n * SCALE, n * SCALE);
      if r > MAX then Err else Num(r)
  }

  /** A whole number in 0..n-1 from 64 random bits. */
  function Draw(n: int, bits: int): Val {
    var k := Words.TDiv(n, SCALE);
    if k < 1 || k > RAND_MAX then Err
    else
      var v := bits * k / 0x1_0000_0000_0000_0000;
      Num((if v >= k then k - 1 else v) * SCALE)
  }

  /** `bits` is used by rand alone. */
  function Apply1(op: Op1, a: Val, bits: int): Val {
    match op
    case IsErr => Bool(a.Err?)
    case ToText => StrVal(Text(a))
    case Not => if a.Err? then Err else Bool(!Truthy(a))
    case Neg => if a.Num? then Num(-a.n) else Err
    case ToNum =>
      if a.Num? then a
      else if a.Err? then Err
      else
        var r := NumOf(a.s);
        if r.Some? then Num(r.value) else Err
    case Len => if a.Err? then Err else Num(|Text(a)| * SCALE)
    case Digits => if a.Err? then Err else Num(CountDigits(Text(a)) * SCALE)
    case Abs => if a.Num? then Num(if a.n < 0 then -a.n else a.n) else Err
    case Round => if a.Num? then Rounded(a.n) else Err
    case Rand => if a.Num? then Draw(a.n, bits) else Err
    case Trim => if a.Err? then Err else StrVal(DropRight(DropLeft(Text(a))))
    case Upper => if a.Err? then Err else StrVal(Shift(Text(a), 'a', 'z', -32))
    case Lower => if a.Err? then Err else StrVal(Shift(Text(a), 'A', 'Z', 32))
    case Floor => if a.Num? then Num(FloorOf(a.n)) else Err
    case Ceil => if a.Num? then Num(CeilOf(a.n)) else Err
    case Sqrt => if a.Num? then SqrtOf(a.n) else Err
  }

  function Sliced(s: string, i: int, n: int): string {
    var from, count := Words.TDiv(i, SCALE), Words.TDiv(n, SCALE);
    if count <= 0 || from < 0 || from >= |s| then ""
    else if from + count > |s| then s[from..]
    else s[from..from + count]
  }

  function Replaced(s: string, was: string, now: string): string {
    var i := IndexFrom(s, was, 0);
    if was == "" || i == -1 then s else s[..i] + now + s[i + |was|..]
  }

  function Apply3(op: Op3, a: Val, b: Val, c: Val): Val {
    match op
    case Slice => if a.Err? || !b.Num? || !c.Num? then Err else StrVal(Sliced(Text(a), b.n, c.n))
    case Replace => if a.Err? || b.Err? || c.Err? then Err else StrVal(Replaced(Text(a), Text(b), Text(c)))
  }

  // ---- errors --------------------------------------------------------------------

  /** An error in any operand is the result, except under iserr and text. */
  lemma ErrSpreads(op1: Op1, op2: Op2, op3: Op3, a: Val, b: Val, c: Val, bits: int)
    ensures a.Err? && op1 != IsErr && op1 != ToText ==> Apply1(op1, a, bits) == Err
    ensures a.Err? || b.Err? ==> Apply2(op2, a, b) == Err
    ensures a.Err? || b.Err? || c.Err? ==> Apply3(op3, a, b, c) == Err
  {
  }

  // ---- range -----------------------------------------------------------------------

  /** What every value any expression can produce satisfies. */
  predicate InRange(v: Val) {
    && (v.Num? ==> -(MAX + SCALE) <= v.n <= MAX + SCALE)
    && (v.Str? ==> |v.s| < TEXT_MAX)
  }

  lemma TruncParts(n: int)
    ensures n == SCALE * Words.TDiv(n, SCALE) + Words.TMod(n, SCALE)
    ensures -SCALE < Words.TMod(n, SCALE) < SCALE
    ensures n >= 0 ==> Words.TMod(n, SCALE) >= 0 && Words.TDiv(n, SCALE) >= 0
    ensures n <= 0 ==> Words.TMod(n, SCALE) <= 0 && Words.TDiv(n, SCALE) <= 0
  {
  }

  /** floor and ceil are the neighbouring whole numbers, so they stay in range. */
  lemma WholeNeighbours(n: int)
    ensures FloorOf(n) % SCALE == 0 && FloorOf(n) <= n < FloorOf(n) + SCALE
    ensures CeilOf(n) % SCALE == 0 && CeilOf(n) - SCALE < n <= CeilOf(n)
  {
    hide Words.TDiv, Words.TMod;
    TruncParts(n);
    MultipleOf(Words.TDiv(n, SCALE) - (if Words.TMod(n, SCALE) < 0 then 1 else 0));
    MultipleOf(Words.TDiv(n, SCALE) + (if Words.TMod(n, SCALE) > 0 then 1 else 0));
  }

  lemma MultipleOf(k: int)
    ensures (k * SCALE) % SCALE == 0
  {
  }

  lemma WholeBound(m: int, b: int)
    requires m % SCALE == 0 && b % SCALE == 0 && m < b + SCALE
    ensures m <= b
  {
  }

  lemma DrawRange(n: int, bits: int)
    requires 0 <= bits < 0x1_0000_0000_0000_0000
    ensures InRange(Draw(n, bits)) && (Draw(n, bits).Num? ==> 0 <= Draw(n, bits).n < Words.TDiv(n, SCALE) * SCALE)
  {
    hide Words.TDiv;
    var k := Words.TDiv(n, SCALE);
    if 1 <= k <= RAND_MAX {
      HighPart(bits, k);
    }
  }

  lemma HighPart(bits: int, k: int)
    requires 0 <= bits < 0x1_0000_0000_0000_0000 && 1 <= k
    ensures 0 <= bits * k / 0x1_0000_0000_0000_0000 < k
  {
    assert 0 <= bits * k < 0x1_0000_0000_0000_0000 * k;
  }

  lemma {:induction false} CountBound(s: string)
    ensures CountDigits(s) <= |s|
  {
    if s != "" {
      CountBound(s[1..]);
    }
  }

  lemma TextBound(v: Val)
    requires InRange(v)
    ensures |Text(v)| < TEXT_MAX
  {
    hide TextOf;
  }

  lemma Range1(op: Op1, a: Val, bits: int)
    requires InRange(a) && 0 <= bits < 0x1_0000_0000_0000_0000
    ensures InRange(Apply1(op, a, bits))
  {
    hide Words.TDiv, Words.TMod, FloorOf, CeilOf, Draw, RootFrom, NumOf, TextOf, DropLeft, DropRight, Text;
    TextBound(a);
    match op
    case ToNum =>
      if a.Str? {
        ParsedBound(a.s);
      }
    case Digits => CountBound(Text(a));
    case Rand =>
      if a.Num? {
        DrawRange(a.n, bits);
      }
    case Floor =>
      if a.Num? {
        WholeNeighbours(a.n);
        WholeBound(-FloorOf(a.n), MAX + SCALE);
      }
    case Ceil =>
      if a.Num? {
        WholeNeighbours(a.n);
        WholeBound(CeilOf(a.n), MAX + SCALE);
      }
    case _ =>
  }

  lemma Range2(op: Op2, a: Val, b: Val)
    requires InRange(a) && InRange(b)
    ensures InRange(Apply2(op, a, b))
  {
    hide Words.TDiv, Words.TMod, TextOf, Order, Text, Comparison, CharAt, Width;
    TextBound(a);
    TextBound(b);
    if op.Eq? || op.Ne? || op.Lt? || op.Le? || op.Gt? || op.Ge? {
      ComparisonRange(op, a, b);
    } else if op.At? && b.Num? {
      CharRange(Text(a), b.n);
    }
  }

  lemma ComparisonRange(op: Op2, a: Val, b: Val)
    ensures !a.Err? && !b.Err? ==> InRange(Comparison(op, a, b))
  {
    hide Order;
  }

  lemma CharRange(s: string, n: int)
    ensures InRange(CharAt(s, n))
  {
    hide Words.TDiv;
  }

  lemma Range3(op: Op3, a: Val, b: Val, c: Val)
    ensures InRange(Apply3(op, a, b, c))
  {
    hide Words.TDiv, TextOf, Text, Sliced, Replaced;
  }

  predicate Int128(v: int) {
    -0x8000_0000_0000_0000_0000_0000_0000_0000 <= v < 0x8000_0000_0000_0000_0000_0000_0000_0000
  }

  predicate UInt64(v: int) { 0 <= v < 0x1_0000_0000_0000_0000 }

  predicate UInt128(v: int) { 0 <= v < 0x1_0000_0000_0000_0000_0000_0000_0000_0000 }

  /** With operands in range no step of any operator or function wraps: every
      intermediate result fits the type the source computes it in. (Parsing and the
      square root's loop compute in such types themselves.) */
  lemma NoWrap(a: int, b: int, bits: int, len: nat)
    requires InRange(Num(a)) && InRange(Num(b)) && UInt64(bits) && len < TEXT_MAX
    // the four operators, in 128 bits until they are clamped
    ensures Int128(a + b) && Int128(a - b) && Int128(a * b) && Int128(a * SCALE)
    ensures forall r :: Clamp(r).Num? ==> Int64(Clamp(r).n)
    // negation, abs, and round, which works on the magnitude
    ensures Int64(-a)
    ensures var mag := if a < 0 then -a else a; Int128(mag + SCALE / 2) && Int128((mag + SCALE / 2) / SCALE * SCALE)
    // floor and ceil, from the quotient
    ensures var q := Words.TDiv(a, SCALE); Int64(q - 1) && Int64(q + 1) && Int64(FloorOf(a)) && Int64(CeilOf(a))
    // slice, whose end is a sum
    ensures Int64(Words.TDiv(a, SCALE) + Words.TDiv(b, SCALE))
    // len, digits and find, which count characters
    ensures Int64(len * SCALE)
    // rand, whose product is taken in 128 bits
    ensures var k := Words.TDiv(a, SCALE);
            1 <= k <= RAND_MAX ==>
              UInt128(bits * k) && UInt64(bits * k / 0x1_0000_0000_0000_0000) && Int64((k - 1) * SCALE)
              && bits * k / 0x1_0000_0000_0000_0000 <= k - 1
    // sqrt, whose radicand leaves room for the loop's sum
    ensures 0 <= a ==> 0 <= a * SCALE < 0x8000_0000_0000_0000_0000_0000_0000_0000
  {
    hide FloorOf, CeilOf, Words.TDiv;
    WholeNeighbours(a);
    ProductBound(a, b, MAX + SCALE);
    TruncBound(a);
    TruncBound(b);
    var k := Words.TDiv(a, SCALE);
    if 1 <= k <= RAND_MAX {
      HighPart(bits, k);
      DrawProduct(bits, k);
    }
  }

  lemma DrawProduct(bits: int, k: int)
    requires UInt64(bits) && 1 <= k <= RAND_MAX
    ensures UInt128(bits * k)
  {
    assert 0 <= bits * k <= 0x1_0000_0000_0000_0000 * k;
  }

  lemma TruncBound(n: int)
    requires InRange(Num(n))
    ensures -(MAX / SCALE + 1) <= Words.TDiv(n, SCALE) <= MAX / SCALE + 1
  {
    hide Words.TDiv, Words.TMod;
    TruncParts(n);
  }

  lemma ProductBound(a: int, b: int, m: int)
    requires -m <= a <= m && -m <= b <= m
    ensures -(m * m) <= a * b <= m * m
  {
    var p, q := if a < 0 then -a else a, if b < 0 then -b else b;
    MagnitudeBound(p, q, m);
    if (a < 0) == (b < 0) {
      assert a * b == p * q;
    } else {
      assert a * b == -(p * q);
    }
  }

  lemma MagnitudeBound(p: nat, q: nat, m: nat)
    requires p <= m && q <= m
    ensures 0 <= p * q <= m * m
  {
    assert p * q <= m * q;
    assert m * q <= m * m;
  }

  // ---- square root -------------------------------------------------------------------

  lemma {:induction false} RootIs(n: nat, k: nat, r: nat)
    requires r * r <= n < (r + 1) * (r + 1) && r <= k
    ensures RootFrom(n, k) == r
    decreases k
  {
    if k > r {
      assert k * k >= (r + 1) * (r + 1) by {
        SquareMono(r + 1, k);
      }
      RootIs(n, k - 1, r);
    }
  }

  /** sqrt(x): the floor of the real root at six decimals. */
  method SquareRoot(n: int) returns (v: Val)
    requires Int64(n)
    ensures v == SqrtOf(n)
    ensures v.Num? ==> v.n * v.n <= n * SCALE < (v.n + 1) * (v.n + 1)
    ensures v.Err? && n >= 0 ==> n * SCALE >= MAX * MAX
  {
    if n < 0 {
      return Err;
    }
    if n == 0 {
      RootIs(0, 0, 0);
      return Num(0);
    }
    var r := Isqrt(n * SCALE);
    if r > n * SCALE {
      SquareMono(n * SCALE + 1, r);
    }
    RootIs(n * SCALE, n * SCALE, r);
    if r > MAX {
      SquareMono(MAX, r);
      return Err;
    }
    return Num(r);
  }
}
