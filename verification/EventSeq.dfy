/** Event sequence strings `{millis:015d}-{counter:09d}` and their order. */
module EventSeq {
  import opened Ordering

  function Pow10(w: nat): (p: nat)
    ensures p > 0
  {
    if w == 0 then 1 else 10 * Pow10(w - 1)
  }

  function Digit(d: nat): char
    requires d < 10
  {
    '0' + d as char
  }

  function Decimal(n: nat): string {
    if n < 10 then [Digit(n)] else Decimal(n / 10) + [Digit(n % 10)]
  }

  /** `f"{n:0{w}d}"`: at least `w` characters, more if `n` needs them. */
  function ZeroPadded(n: nat, w: nat): string {
    var s := Decimal(n);
    if |s| < w then seq(w - |s|, _ => '0') + s else s
  }

  function SeqOf(millis: nat, counter: nat): string {
    ZeroPadded(millis, 15) + "-" + ZeroPadded(counter, 9)
  }

  /** The last `w` digits of `n`. */
  function Fixed(n: nat, w: nat): string {
    if w == 0 then "" else Fixed(n / 10, w - 1) + [Digit(n % 10)]
  }

  lemma {:induction false} FixedLength(n: nat, w: nat)
    ensures |Fixed(n, w)| == w
  {
    if w > 0 { FixedLength(n / 10, w - 1); }
  }

  lemma {:induction false} FixedZero(w: nat)
    ensures Fixed(0, w) == seq(w, _ => '0')
  {
    if w > 0 { FixedZero(w - 1); }
  }

  lemma {:induction false} DecimalIsFixed(n: nat, w: nat)
    requires w > 0 && n < Pow10(w)
    ensures |Decimal(n)| <= w && Fixed(n, w) == seq(w - |Decimal(n)|, _ => '0') + Decimal(n)
  {
    if n < 10 {
      FixedZero(w - 1);
      assert n / 10 == 0 && n % 10 == n;
    } else {
      assert w > 1;
      DecimalIsFixed(n / 10, w - 1);
    }
  }

  lemma ZeroPaddedIsFixed(n: nat, w: nat)
    requires w > 0 && n < Pow10(w)
    ensures ZeroPadded(n, w) == Fixed(n, w) && |ZeroPadded(n, w)| == w
  {
  }

  /** Strings that start with equally long parts compare by those parts first. */
  lemma {:induction false} StrLessByParts(p: string, q: string, u: string, v: string)
    requires |p| == |q|
    ensures StrLess(p + u, q + v) <==> StrLess(p, q) || (p == q && StrLess(u, v))
  {
    if p == "" {
      assert p + u == u && q + v == v;
    } else {
      assert (p + u)[1..] == p[1..] + u && (q + v)[1..] == q[1..] + v;
      StrLessByParts(p[1..], q[1..], u, v);
      assert p == [p[0]] + p[1..] && q == [q[0]] + q[1..];
    }
  }

  lemma DigitOrder(a: nat, b: nat)
    requires a < 10 && b < 10
    ensures StrLess([Digit(a)], [Digit(b)]) <==> a < b
    ensures Digit(a) == Digit(b) <==> a == b
  {
  }

  lemma {:induction false} FixedOrder(n: nat, m: nat, w: nat)
    requires n < Pow10(w) && m < Pow10(w)
    ensures StrLess(Fixed(n, w), Fixed(m, w)) <==> n < m
    ensures Fixed(n, w) == Fixed(m, w) <==> n == m
  {
    if w > 0 {
      FixedOrder(n / 10, m / 10, w - 1);
      FixedLength(n / 10, w - 1);
      FixedLength(m / 10, w - 1);
      StrLessByParts(Fixed(n / 10, w - 1), Fixed(m / 10, w - 1), [Digit(n % 10)], [Digit(m % 10)]);
      DigitOrder(n % 10, m % 10);
      var x, y := Fixed(n, w), Fixed(m, w);
      assert x[..w - 1] == Fixed(n / 10, w - 1) && y[..w - 1] == Fixed(m / 10, w - 1);
      assert x[w - 1] == Digit(n % 10) && y[w - 1] == Digit(m % 10);
      assert n < m <==> n / 10 < m / 10 || (n / 10 == m / 10 && n % 10 < m % 10);
    }
  }

  predicate InRange(millis: nat, counter: nat) {
    millis < Pow10(15) && counter < Pow10(9)
  }

  /** In range, sequence strings compare as their `(millis, counter)` pairs do. */
  lemma SeqOrder(m: nat, c: nat, m': nat, c': nat)
    requires InRange(m, c) && InRange(m', c')
    ensures StrLess(SeqOf(m, c), SeqOf(m', c')) <==> m < m' || (m == m' && c < c')
    ensures SeqOf(m, c) == SeqOf(m', c') <==> m == m' && c == c'
    ensures |SeqOf(m, c)| == 25
  {
    ZeroPaddedIsFixed(m, 15);
    ZeroPaddedIsFixed(m', 15);
    ZeroPaddedIsFixed(c, 9);
    ZeroPaddedIsFixed(c', 9);
    FixedOrder(m, m', 15);
    FixedOrder(c, c', 9);
    var a, b := Fixed(m, 15) + "-", Fixed(m', 15) + "-";
    StrLessByParts(Fixed(m, 15), Fixed(m', 15), "-", "-");
    StrLessByParts(a, b, Fixed(c, 9), Fixed(c', 9));
    assert a[..15] == Fixed(m, 15) && b[..15] == Fixed(m', 15);
    assert SeqOf(m, c)[..16] == a && SeqOf(m', c')[..16] == b;
    assert SeqOf(m, c)[16..] == Fixed(c, 9) && SeqOf(m', c')[16..] == Fixed(c', 9);
    StrLessConnected("-", "-");
  }

  lemma {:induction false} DecimalLength(n: nat, w: nat)
    requires w > 0 && Pow10(w - 1) <= n < Pow10(w)
    ensures |Decimal(n)| == w
  {
    if w > 1 {
      assert n >= 10 by { assert Pow10(w - 1) == 10 * Pow10(w - 2); }
      DecimalLength(n / 10, w - 1);
    }
  }

  /** Out of range the order breaks: a counter of one digit too many compares by its first digits,
      so that it sorts before every larger number of `w` digits. */
  lemma WideCounterOrder(p: string, wide: nat, c: nat, w: nat)
    requires w > 0 && Pow10(w) <= wide < Pow10(w + 1) && c < Pow10(w)
    ensures StrLess(p + ZeroPadded(wide, w), p + ZeroPadded(c, w)) <==> wide / 10 < c
  {
    DecimalLength(wide, w + 1);
    DecimalLength(wide / 10, w);
    assert Pow10(w - 1) * 10 == Pow10(w);
    ZeroPaddedIsFixed(wide / 10, w);
    ZeroPaddedIsFixed(c, w);
    FixedOrder(wide / 10, c, w);
    var last := [Digit(wide % 10)];
    assert wide >= 10;
    assert ZeroPadded(wide, w) == Fixed(wide / 10, w) + last;
    assert Fixed(c, w) == Fixed(c, w) + "";
    StrLessByParts(Fixed(wide / 10, w), Fixed(c, w), last, "");
    StrLessByParts(p, p, ZeroPadded(wide, w), ZeroPadded(c, w));
    StrLessConnected(p, p);
  }

  lemma CounterOverflowBreaksOrder(millis: nat, wide: nat, c: nat)
    requires Pow10(9) <= wide < Pow10(10) && c < Pow10(9)
    ensures StrLess(SeqOf(millis, wide), SeqOf(millis, c)) <==> wide / 10 < c
  {
    WideCounterOrder(ZeroPadded(millis, 15) + "-", wide, c, 9);
  }
}
