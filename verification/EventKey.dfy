/** The key of an event is its sequence number in twenty zero-padded decimal digits, so that the byte order of keys,
    which the store's iterator follows, is the order of the numbers. */
module EventKey {
  import opened Prelude

  const PREFIX := "events/"
  const WIDTH := 20

  function Digit(d: nat): char
    requires d < 10
  {
    '0' + d as char
  }

  /** The digits of a number, most significant first. */
  function Decimal(n: nat): (s: string)
    ensures |s| > 0
  {
    if n < 10 then [Digit(n)] else Decimal(n / 10) + [Digit(n % 10)]
  }

  function Zeros(k: nat): (s: string)
    ensures |s| == k
  {
    if k == 0 then "" else Zeros(k - 1) + "0"
  }

  function ZeroPad(s: string, width: nat): string {
    if |s| >= width then s else Zeros(width - |s|) + s
  }

  /** `events/%020d` */
  function Key(sequence: uint64): string {
    PREFIX + ZeroPad(Decimal(sequence), WIDTH)
  }

  // ---- byte-wise lexicographic order ----

  predicate Less(a: string, b: string) {
    b != "" && (a == "" || a[0] < b[0] || (a[0] == b[0] && Less(a[1..], b[1..])))
  }

  lemma {:induction false} LessIrreflexive(a: string)
    ensures !Less(a, a)
  {
    if a != "" { LessIrreflexive(a[1..]); }
  }

  lemma {:induction false} LessTotal(a: string, b: string)
    ensures Less(a, b) || a == b || Less(b, a)
  {
    if a != "" && b != "" {
      LessTotal(a[1..], b[1..]);
      assert a == [a[0]] + a[1..] && b == [b[0]] + b[1..];
    }
  }

  lemma {:induction false} LessTransitive(a: string, b: string, c: string)
    requires Less(a, b) && Less(b, c)
    ensures Less(a, c)
  {
    if a != "" && a[0] == b[0] && b[0] == c[0] { LessTransitive(a[1..], b[1..], c[1..]); }
  }

  /** The iterator's order is a strict total order of all keys. */
  lemma LessIsStrictOrder(a: string, b: string, c: string)
    ensures !Less(a, a)
    ensures Less(a, b) && Less(b, c) ==> Less(a, c)
    ensures if a == b then !Less(a, b) else Less(a, b) != Less(b, a)
  {
    LessIrreflexive(a);
    LessTotal(a, b);
    if Less(a, b) && Less(b, c) { LessTransitive(a, b, c); }
    if Less(a, b) && Less(b, a) { LessTransitive(a, b, a); }
  }

  /** A common prefix does not matter. */
  lemma {:induction false} LessUnderPrefix(p: string, a: string, b: string)
    ensures Less(p + a, p + b) <==> Less(a, b)
  {
    if p == "" {
      assert p + a == a && p + b == b;
    } else {
      assert (p + a)[1..] == p[1..] + a && (p + b)[1..] == p[1..] + b;
      LessUnderPrefix(p[1..], a, b);
    }
  }

  predicate HasPrefix(k: string, p: string) {
    p <= k
  }

  /** The strings with a given prefix are an interval of the order. */
  lemma {:induction false} PrefixesConvex(p: string, a: string, k: string, b: string)
    requires HasPrefix(a, p) && HasPrefix(b, p) && Less(a, k) && Less(k, b)
    ensures HasPrefix(k, p)
  {
    if p != "" {
      assert p[0] == a[0] == b[0] == k[0];
      assert p[1..] <= a[1..] && p[1..] <= b[1..];
      PrefixesConvex(p[1..], a[1..], k[1..], b[1..]);
    }
  }

  /** The last byte decides between strings of one length only when the rest is equal. */
  lemma {:induction false} LessAtEnd(a: string, b: string, x: char, y: char)
    requires |a| == |b|
    ensures Less(a + [x], b + [y]) <==> Less(a, b) || (a == b && x < y)
  {
    if a == "" {
      assert a + [x] == [x] && b + [y] == [y];
    } else {
      assert (a + [x])[1..] == a[1..] + [x] && (b + [y])[1..] == b[1..] + [y];
      LessAtEnd(a[1..], b[1..], x, y);
      assert a == b <==> a[0] == b[0] && a[1..] == b[1..] by {
        assert a == [a[0]] + a[1..] && b == [b[0]] + b[1..];
      }
    }
  }

  // ---- fixed-width digits ----

  function Pow10(w: nat): nat {
    if w == 0 then 1 else 10 * Pow10(w - 1)
  }

  function Fixed(n: nat, w: nat): (s: string)
    ensures |s| == w
  {
    if w == 0 then "" else Fixed(n / 10, w - 1) + [Digit(n % 10)]
  }

  lemma {:induction false} FixedZero(w: nat)
    ensures Fixed(0, w) == Zeros(w)
  {
    if w > 0 { FixedZero(w - 1); }
  }

  /** Padding the produced digits gives the fixed-width digits. */
  lemma {:induction false} PadIsFixed(n: nat, w: nat)
    requires w > 0 && n < Pow10(w)
    ensures |Decimal(n)| <= w && ZeroPad(Decimal(n), w) == Fixed(n, w)
  {
    if n < 10 {
      FixedZero(w - 1);
      assert n / 10 == 0 && n % 10 == n;
      assert Zeros(0) + Decimal(n) == Decimal(n);
    } else {
      assert Pow10(1) == 10;
      assert w > 1;
      PadIsFixed(n / 10, w - 1);
      var front, d := Decimal(n / 10), [Digit(n % 10)];
      if |front| < w - 1 {
        assert Zeros(w - |front + d|) + (front + d) == Zeros(w - 1 - |front|) + front + d;
      }
    }
  }

  /** Byte order of fixed-width digits is numeric order, and no two numbers share their digits. */
  lemma {:induction false} FixedInOrder(n: nat, m: nat, w: nat)
    requires n < Pow10(w) && m < Pow10(w)
    ensures Less(Fixed(n, w), Fixed(m, w)) <==> n < m
    ensures Fixed(n, w) == Fixed(m, w) <==> n == m
  {
    if w > 0 {
      FixedInOrder(n / 10, m / 10, w - 1);
      LessAtEnd(Fixed(n / 10, w - 1), Fixed(m / 10, w - 1), Digit(n % 10), Digit(m % 10));
      assert Fixed(n, w)[..w - 1] == Fixed(n / 10, w - 1) && Fixed(m, w)[..w - 1] == Fixed(m / 10, w - 1);
      assert Fixed(n, w)[w - 1] == Digit(n % 10) && Fixed(m, w)[w - 1] == Digit(m % 10);
    }
  }

  lemma WidthSuffices()
    ensures U64 < Pow10(WIDTH)
  {
    assert Pow10(5) == 100000;
    assert Pow10(10) == 10000000000;
    assert Pow10(15) == 1000000000000000;
    assert Pow10(20) == 100000000000000000000;
  }

  /** For every pair of uint64 sequences: distinct keys, of equal length, ordered as the numbers. */
  lemma KeysInOrder(a: uint64, b: uint64)
    ensures |Key(a)| == |PREFIX| + WIDTH && HasPrefix(Key(a), PREFIX)
    ensures Less(Key(a), Key(b)) <==> a < b
    ensures Key(a) == Key(b) <==> a == b
  {
    WidthSuffices();
    PadIsFixed(a, WIDTH);
    PadIsFixed(b, WIDTH);
    FixedInOrder(a, b, WIDTH);
    LessUnderPrefix(PREFIX, Fixed(a, WIDTH), Fixed(b, WIDTH));
    assert Key(a)[|PREFIX|..] == Fixed(a, WIDTH) && Key(b)[|PREFIX|..] == Fixed(b, WIDTH);
  }
}
