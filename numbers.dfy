/**
 * Numbers as the pipelines see them: Python's str(int) and int(str), and
 * floats modelled as exact decimals (mantissa, scale) with the subset of
 * float() and repr() that the parsers exercise.
 */
module Numbers {
  import opened Wrappers
  import opened Text

  function Pow10(n: nat): (r: nat)
    ensures r >= 1
  {
    if n == 0 then 1 else 10 * Pow10(n - 1)
  }

  lemma {:induction false} Pow10Add(a: nat, b: nat)
    ensures Pow10(a + b) == Pow10(a) * Pow10(b)
    decreases b
  {
    if b > 0 {
      Pow10Add(a, b - 1);
      assert Pow10(a + b) == 10 * Pow10(a + b - 1);
    }
  }

  function DigitVal(c: char): (d: nat)
    requires IsDigit(c)
    ensures d < 10
  {
    c as int - '0' as int
  }

  function DigitChar(d: nat): (c: char)
    requires d < 10
    ensures IsDigit(c) && DigitVal(c) == d
  {
    ('0' as int + d) as char
  }

  /** int(s) for a non-empty string of ASCII digits (leading zeros allowed). */
  function DigitsValue(s: string): nat
    requires AllDigits(s)
    decreases |s|
  {
    if s == [] then 0 else DigitsValue(s[..|s| - 1]) * 10 + DigitVal(s[|s| - 1])
  }

  /** str(n) for a natural number: decimal digits, no leading zero. */
  function NatStr(n: nat): (r: string)
    ensures |r| >= 1 && AllDigits(r)
    ensures r[0] == '0' ==> n == 0 && |r| == 1
    decreases n
  {
    if n < 10 then [DigitChar(n)] else NatStr(n / 10) + [DigitChar(n % 10)]
  }

  /** Reading back the digits of str(n) gives n. */
  lemma {:induction false} NatStrValue(n: nat)
    ensures DigitsValue(NatStr(n)) == n
    decreases n
  {
    if n >= 10 {
      NatStrValue(n / 10);
      var s := NatStr(n);
      assert s[..|s| - 1] == NatStr(n / 10);
    }
  }

  lemma NatStrInjective(m: nat, n: nat)
    requires NatStr(m) == NatStr(n)
    ensures m == n
  {
    NatStrValue(m);
    NatStrValue(n);
  }

  /** A number below 10^k has at most k digits. */
  lemma {:induction false} NatStrLength(n: nat, k: nat)
    requires k >= 1 && n < Pow10(k)
    ensures |NatStr(n)| <= k
    decreases k
  {
    if n >= 10 {
      assert Pow10(k) == 10 * Pow10(k - 1);
      NatStrLength(n / 10, k - 1);
    }
  }

  /** Reading a + b as one number shifts the value of a by the length of b. */
  lemma {:induction false} DigitsValueAppend(a: string, b: string)
    requires AllDigits(a) && AllDigits(b)
    ensures AllDigits(a + b)
    ensures DigitsValue(a + b) == DigitsValue(a) * Pow10(|b|) + DigitsValue(b)
    decreases |b|
  {
    AllDigitsConcat(a, b);
    if b == [] {
      assert a + b == a;
    } else {
      var b' := b[..|b| - 1];
      assert (a + b)[..|a + b| - 1] == a + b';
      assert (a + b)[|a + b| - 1] == b[|b| - 1];
      AllDigitsConcat(a, b');
      DigitsValueAppend(a, b');
      ShiftDigit(DigitsValue(a), DigitsValue(b'), Pow10(|b'|), DigitVal(b[|b| - 1]));
    }
  }

  lemma ShiftDigit(va: int, vb: int, p: int, last: int)
    ensures (va * p + vb) * 10 + last == va * (10 * p) + (vb * 10 + last)
  {
  }

  lemma AllDigitsConcat(a: string, b: string)
    requires AllDigits(a) && AllDigits(b)
    ensures AllDigits(a + b)
  {
    forall i | 0 <= i < |a + b| ensures IsDigit((a + b)[i]) {
      if i < |a| { assert (a + b)[i] == a[i]; } else { assert (a + b)[i] == b[i - |a|]; }
    }
  }

  /** Leading zeros do not change the value of a digit string. */
  function Zeros(n: nat): (r: string)
    ensures |r| == n && AllDigits(r) && DigitsValue(r) == 0
  {
    if n == 0 then "" else Zeros(n - 1) + "0"
  }

  /** s left-padded with zeros to width w. */
  function ZeroPad(s: string, w: nat): (r: string)
    requires AllDigits(s)
    ensures AllDigits(r) && |r| == if |s| < w then w else |s|
    ensures DigitsValue(r) == DigitsValue(s)
  {
    if |s| < w then
      DigitsValueAppend(Zeros(w - |s|), s);
      Zeros(w - |s|) + s
    else s
  }

  /** str(i) for an integer. */
  function IntStr(i: int): (r: string)
    ensures |r| >= 1
  {
    if i < 0 then "-" + NatStr(-i) else NatStr(i)
  }

  /** Python's int(s) for strings: surrounding whitespace, an optional sign, then ASCII digits. */
  function ParseInt(s: string): Option<int>
  {
    ParseIntStripped(Strip(s))
  }

  function ParseIntStripped(t: string): Option<int>
  {
    if |t| > 0 && (t[0] == '-' || t[0] == '+') then
      (if |t| > 1 && AllDigits(t[1..]) then
         var v: int := DigitsValue(t[1..]);
         Some(if t[0] == '-' then -v else v)
       else None)
    else if |t| > 0 && AllDigits(t) then Some(DigitsValue(t))
    else None
  }

  /** int() reads back what str() wrote for every integer. */
  lemma IntStrRoundTrip(i: int)
    ensures ParseInt(IntStr(i)) == Some(i)
  {
    var s := IntStr(i);
    var digits := NatStr(Abs(i));
    assert s[|s| - 1] == digits[|digits| - 1];
    assert s[0] == '-' || s[0] == digits[0];
    StripClean(s);
    IntStrStripped(i);
  }

  lemma IntStrStripped(i: int)
    ensures ParseIntStripped(IntStr(i)) == Some(i)
  {
    var s := IntStr(i);
    var digits := NatStr(Abs(i));
    NatStrValue(Abs(i));
    if i < 0 {
      assert s[1..] == digits;
    } else {
      assert s == digits;
    }
  }

  // ---------------------------------------------------------------------
  // Floats as exact decimals

  /** A decimal number mant * 10^-scale; Python floats are modelled by these exact values. */
  datatype Decimal = Decimal(mant: int, scale: nat)

  /** Python's == on two floats: the two decimals denote the same number. */
  predicate SameValue(a: Decimal, b: Decimal) { a.mant * Pow10(b.scale) == b.mant * Pow10(a.scale) }

  lemma MulCancel(x: int, y: int, k: int)
    requires k > 0 && x * k == y * k
    ensures x == y
  {
    assert (x - y) * k == 0;
  }

  lemma MulNeg(x: int, y: int)
    ensures -(x * y) == (-x) * y
  {
  }

  lemma MulSwap(x: int, y: int, z: int)
    ensures (x * y) * z == (x * z) * y
  {
  }

  lemma SameValueTrans(a: Decimal, b: Decimal, c: Decimal)
    requires SameValue(a, b) && SameValue(b, c)
    ensures SameValue(a, c)
  {
    var pa, pb, pc := Pow10(a.scale), Pow10(b.scale), Pow10(c.scale);
    var x, y := a.mant * pb, b.mant * pc;
    assert x == b.mant * pa;
    assert y == c.mant * pb;
    MulSwap(a.mant, pc, pb);
    MulSwap(b.mant, pa, pc);
    MulSwap(c.mant, pb, pa);
    MulSwap(c.mant, pa, pb);
    assert (a.mant * pc) * pb == x * pc;
    assert x * pc == (b.mant * pa) * pc;
    assert (b.mant * pa) * pc == y * pa;
    assert y * pa == (c.mant * pb) * pa;
    MulCancel(a.mant * pc, c.mant * pa, pb);
  }

  /** Appending k zeros to the mantissa and k to the scale keeps the value. */
  lemma {:induction false} SameValueScaled(m: int, s: nat, k: nat)
    ensures SameValue(Decimal(m * Pow10(k), s + k), Decimal(m, s))
  {
    Pow10Add(s, k);
    MulSwap(m, Pow10(k), Pow10(s));
  }

  function FromInt(i: int): (d: Decimal)
    ensures d.scale == 0 && d.mant == i
  {
    Decimal(i, 0)
  }

  function Neg(d: Decimal): (r: Decimal)
    ensures r.scale == d.scale && r.mant == -d.mant
  {
    Decimal(-d.mant, d.scale)
  }

  /** x * 100 */
  function Mul100(d: Decimal): Decimal { Decimal(d.mant * 100, d.scale) }

  /** x / 100.0 */
  function Div100(d: Decimal): Decimal { Decimal(d.mant, d.scale + 2) }

  /** Dividing by 100 and multiplying by 100 gives the same value back. */
  lemma Div100Inverse(d: Decimal)
    ensures SameValue(Mul100(Div100(d)), d)
  {
    SameValueScaled(d.mant, d.scale, 2);
    assert Pow10(2) == 100;
  }

  /** The value is a whole number (Python: num == int(num)). */
  predicate IsIntegral(d: Decimal) { d.mant % Pow10(d.scale) == 0 }

  /** |x| > n */
  predicate AbsAbove(d: Decimal, n: nat) { d.mant > n * Pow10(d.scale) || d.mant < -(n * Pow10(d.scale)) }

  /** 0 < x <= 1 */
  predicate InUnitInterval(d: Decimal) { 0 < d.mant <= Pow10(d.scale) }

  /** The same value with trailing fractional zeros removed (see NormalizeSameValue). */
  function Normalize(d: Decimal): (r: Decimal)
    ensures r.scale <= d.scale
    ensures Canonical(r)
    ensures Canonical(d) ==> r == d
    decreases d.scale
  {
    if d.scale > 0 && d.mant % 10 == 0 then Normalize(Decimal(d.mant / 10, d.scale - 1)) else d
  }

  /** Normalising keeps the value. */
  lemma {:induction false} NormalizeSameValue(d: Decimal)
    ensures SameValue(Normalize(d), d)
    decreases d.scale
  {
    if d.scale > 0 && d.mant % 10 == 0 {
      var d' := Decimal(d.mant / 10, d.scale - 1);
      NormalizeSameValue(d');
      SameValueScaled(d.mant / 10, d.scale - 1, 1);
      assert d.mant / 10 * Pow10(1) == d.mant;
      SameValueTrans(Normalize(d'), d', d);
    }
  }

  /** A canonical decimal has no trailing fractional zero. */
  predicate Canonical(d: Decimal) { d.scale == 0 || d.mant % 10 != 0 }

  function Abs(i: int): nat { if i < 0 then -i else i }

  /**
   * repr(x) for a float in positional notation: an optional '-', the integer
   * digits, '.', and the fractional digits without trailing zeros (at least one).
   */
  function FloatStr(d: Decimal): (s: string)
  {
    Positional(Normalize(d))
  }

  /** The positional notation of a decimal, keeping its scale (at least one fractional digit). */
  function Positional(n: Decimal): (s: string)
  {
    (if n.mant < 0 then "-" else "") + UnsignedPositional(Abs(n.mant), n.scale)
  }

  /** The digits of a, zero-padded so that at least one precedes the point, with the point inserted. */
  function UnsignedPositional(a: nat, scale: nat): (s: string)
  {
    IntPart(a, scale) + "." + FracPart(a, scale)
  }

  /** The digits of a, zero-padded to more than scale digits. */
  function PaddedDigits(a: nat, scale: nat): (s: string)
    ensures AllDigits(s) && |s| > scale && DigitsValue(s) == a
  {
    NatStrValue(a);
    ZeroPad(NatStr(a), scale + 1)
  }

  function IntPart(a: nat, scale: nat): (s: string)
    ensures |s| > 0 && AllDigits(s)
  {
    var d := PaddedDigits(a, scale);
    d[..|d| - scale]
  }

  function FracPart(a: nat, scale: nat): (s: string)
    ensures |s| == (if scale == 0 then 1 else scale) && AllDigits(s)
  {
    if scale == 0 then "0"
    else
      var d := PaddedDigits(a, scale);
      d[|d| - scale..]
  }

  /** Read together, the integer and fractional digits give a, with a trailing 0 when the scale is 0. */
  lemma {:induction false} PartsValue(a: nat, scale: nat)
    ensures AllDigits(IntPart(a, scale) + FracPart(a, scale))
    ensures DigitsValue(IntPart(a, scale) + FracPart(a, scale)) == if scale == 0 then 10 * a else a
  {
    var ip, fp := IntPart(a, scale), FracPart(a, scale);
    DigitsValueAppend(ip, fp);
    if scale == 0 {
      assert ip == PaddedDigits(a, scale);
      assert DigitsValue(fp) == 0 && Pow10(1) == 10;
    } else {
      SplitAt(PaddedDigits(a, scale), |PaddedDigits(a, scale)| - scale);
      assert ip + fp == PaddedDigits(a, scale);
    }
  }

  /** The digits-and-point part of a float literal, without a sign. */
  function ParseUnsigned(t: string): (r: Option<Decimal>)
    ensures r.Some? ==> r.value.mant >= 0
  {
    if '.' in t then
      var i := IndexOf(t, '.');
      var a, b := t[..i], t[i + 1..];
      if AllDigits(a) && AllDigits(b) && |a| + |b| > 0 then
        DigitsValueAppend(a, b);
        Some(Decimal(DigitsValue(a + b), |b|))
      else None
    else if |t| > 0 && AllDigits(t) then Some(Decimal(DigitsValue(t), 0))
    else None
  }

  /**
   * float(s) for decimal literals: surrounding whitespace, an optional sign,
   * digits with at most one '.', and at least one digit.  None where Python raises.
   * The value is returned in canonical form, so equal floats are equal decimals.
   */
  function ParseFloat(s: string): (r: Option<Decimal>)
    ensures r.Some? ==> Canonical(r.value)
  {
    match ParseSigned(Strip(s))
    case None => None
    case Some(d) => Some(Normalize(d))
  }

  /** An optional sign followed by an unsigned literal. */
  function ParseSigned(t: string): Option<Decimal>
  {
    if |t| > 0 && (t[0] == '-' || t[0] == '+') then
      match ParseUnsigned(t[1..])
      case None => None
      case Some(d) => Some(if t[0] == '-' then Neg(d) else d)
    else ParseUnsigned(t)
  }

  /** float(repr(x)) == x: the printed form of a decimal parses back to the same value. */
  lemma FloatStrRoundTrip(d: Decimal)
    ensures ParseFloat(FloatStr(d)) == Some(Normalize(d))
  {
    var n := Normalize(d);
    PositionalParses(n);
    if n.scale == 0 {
      NormalizeTimesTen(n.mant);
    }
  }

  /** m with one trailing fractional zero normalises to m itself. */
  lemma NormalizeTimesTen(m: int)
    ensures Normalize(Decimal(m * 10, 1)) == Decimal(m, 0)
  {
    assert (m * 10) % 10 == 0 && (m * 10) / 10 == m;
  }

  /** repr() prints one fractional digit ('126.0') even for whole numbers: the digits read back with that digit. */
  function Widened(n: Decimal): (w: Decimal)
    ensures w.scale >= 1
  {
    if n.scale == 0 then Decimal(n.mant * 10, 1) else n
  }

  /** The positional notation parses back to the same mantissa, one digit longer when the scale is 0. */
  lemma PositionalParses(n: Decimal)
    ensures ParseSigned(Strip(Positional(n))) == Some(Widened(n))
  {
    var a := Abs(n.mant);
    var body := UnsignedPositional(a, n.scale);
    var u := Widened(Decimal(a, n.scale));
    UnsignedPositionalParses(a, n.scale);
    SignedLiteral(n.mant < 0, body, u);
    assert Positional(n) == (if n.mant < 0 then "-" else "") + body;
    assert (if n.mant < 0 then Neg(u) else u) == Widened(n);
  }

  lemma UnsignedPositionalParses(a: nat, scale: nat)
    ensures var body := UnsignedPositional(a, scale);
      |body| > 0 && IsDigit(body[0]) && IsDigit(body[|body| - 1])
    ensures ParseUnsigned(UnsignedPositional(a, scale)) == Some(Widened(Decimal(a, scale)))
  {
    var ip, fp := IntPart(a, scale), FracPart(a, scale);
    PointLiteral(ip, fp);
    PartsValue(a, scale);
    var body := UnsignedPositional(a, scale);
    assert body[0] == ip[0] && body[|body| - 1] == fp[|fp| - 1];
  }

  lemma SplitAt(s: string, k: nat)
    requires k <= |s|
    ensures s[..k] + s[k..] == s
  {
  }

  /** A sign in front of an unsigned literal negates what it parses to. */
  lemma SignedLiteral(neg: bool, body: string, u: Decimal)
    requires ParseUnsigned(body) == Some(u)
    requires |body| > 0 && IsDigit(body[0]) && IsDigit(body[|body| - 1])
    ensures ParseSigned(Strip((if neg then "-" else "") + body)) == Some(if neg then Neg(u) else u)
  {
    var s := (if neg then "-" else "") + body;
    assert s[|s| - 1] == body[|body| - 1];
    assert s[0] == '-' || s[0] == body[0];
    StripClean(s);
    if neg {
      assert s[1..] == body;
    } else {
      assert s == body;
    }
  }

  /** A literal "digits.digits" parses to its digits read as one integer, scaled by the fraction length. */
  lemma PointLiteral(ip: string, fp: string)
    requires AllDigits(ip) && AllDigits(fp) && |ip| > 0
    ensures AllDigits(ip + fp) && DigitsValue(ip + fp) == DigitsValue(ip) * Pow10(|fp|) + DigitsValue(fp)
    ensures ParseUnsigned(ip + "." + fp) == Some(Decimal(DigitsValue(ip + fp), |fp|))
  {
    var body := ip + "." + fp;
    assert '.' in body && body[|ip|] == '.';
    assert '.' !in ip;
    assert body[..|ip|] == ip;
    IndexOfAt(body, '.', |ip|);
    assert body[|ip| + 1..] == fp;
    DigitsValueAppend(ip, fp);
    assert ParseUnsigned(body) == Some(Decimal(DigitsValue(ip + fp), |fp|));
  }

  /**
   * round(x, 1): the nearest value with one decimal, ties to even.  Python
   * rounds the binary double; this rounds the exact decimal.
   */
  function Round1(d: Decimal): (r: Decimal)
    ensures r.scale <= 1
    ensures d.scale <= 1 ==> r == d
  {
    if d.scale <= 1 then d
    else
      var p := Pow10(d.scale - 1);
      var q, rem := d.mant / p, d.mant % p;
      var up := 2 * rem > p || (2 * rem == p && q % 2 != 0);
      Decimal(if up then q + 1 else q, 1)
  }

  /** round(x, 1) is within half a tenth of x, and a tie goes to the even tenth. */
  lemma Round1Nearest(d: Decimal)
    requires d.scale > 1
    ensures var r := Round1(d); var p := Pow10(d.scale - 1);
      r.scale == 1 && 2 * Abs(r.mant * p - d.mant) <= p &&
      (2 * (d.mant % p) == p ==> r.mant % 2 == 0)
  {
    var p := Pow10(d.scale - 1);
    var q, rem := d.mant / p, d.mant % p;
    assert d.mant == q * p + rem;
    var up := 2 * rem > p || (2 * rem == p && q % 2 != 0);
    var m := if up then q + 1 else q;
    assert m * p - d.mant == if up then p - rem else -rem;
  }

  /** For a canonical decimal, being a whole number means having scale 0. */
  lemma CanonicalIntegral(d: Decimal)
    requires Canonical(d)
    ensures IsIntegral(d) <==> d.scale == 0
  {
    if d.scale > 0 {
      ModTen(d.mant, Pow10(d.scale - 1));
    }
  }

  /** The last digit survives a reduction modulo a power of ten. */
  lemma ModTen(m: int, p: int)
    requires p > 0
    ensures (m % (10 * p)) % 10 == m % 10
  {
    var q, r := m / (10 * p), m % (10 * p);
    assert m == q * (10 * p) + r;
    var x := q * p;
    assert q * (10 * p) == x * 10;
    assert m == x * 10 + r;
  }

  /** m with two trailing fractional zeros normalises to m itself. */
  lemma NormalizeTimesHundred(m: int)
    ensures Normalize(Decimal(m * 100, 2)) == Decimal(m, 0)
  {
    assert (m * 100) % 10 == 0 && (m * 100) / 10 == m * 10;
    NormalizeTimesTen(m);
  }

  /** A literal starting and ending with a digit parses without stripping or a sign. */
  lemma ParsesDigitsFirst(t: string)
    requires |t| > 0 && IsDigit(t[0]) && IsDigit(t[|t| - 1])
    ensures ParseFloat(t) == match ParseUnsigned(t) { case None => None case Some(d) => Some(Normalize(d)) }
  {
    StripClean(t);
  }
}
