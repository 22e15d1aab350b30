/**
 * The `YYYY-MM` bucket key of a transaction's date (src/lib/store.js:75):
 * the year as JavaScript prints a number, a dash, and the 1-based month
 * padded to two digits with `'0'`. Keys are ordered as `localeCompare`
 * orders them; for keys made of ASCII digits and `-` that is the plain
 * character-by-character order `StrLess`.
 */
module MonthKeys {
  import opened Transactions

  function Digit(d: nat): (c: char)
    requires d < 10
    ensures '0' <= c <= '9'
  {
    ('0' as int + d) as char
  }

  /** Decimal text of `n` without leading zeros, as `String(n)` prints it. */
  function Decimal(n: nat): (s: string)
    ensures |s| >= 1
    decreases n
  {
    if n < 10 then [Digit(n)] else Decimal(n / 10) + [Digit(n % 10)]
  }

  /** `s.padStart(2, '0')`. */
  function PadStart2(s: string): (p: string)
  {
    if |s| >= 2 then s else seq(2 - |s|, _ => '0') + s
  }

  /** The bucket key of a date: `${year}-${String(month).padStart(2, '0')}`. */
  function MonthKey(d: Date): string
  {
    Decimal(d.year) + "-" + PadStart2(Decimal(d.month))
  }

  /** Lexicographic order on strings, by character code. */
  predicate StrLess(a: string, b: string)
  {
    if |a| == 0 then |b| > 0
    else if |b| == 0 then false
    else if a[0] != b[0] then a[0] < b[0]
    else StrLess(a[1..], b[1..])
  }

  lemma {:induction false} StrLessIrreflexive(a: string)
    ensures !StrLess(a, a)
  {
    if |a| > 0 {
      StrLessIrreflexive(a[1..]);
    }
  }

  lemma {:induction false} StrLessTransitive(a: string, b: string, c: string)
    requires StrLess(a, b) && StrLess(b, c)
    ensures StrLess(a, c)
  {
    if |a| > 0 && |b| > 0 && |c| > 0 && a[0] == b[0] && b[0] == c[0] {
      StrLessTransitive(a[1..], b[1..], c[1..]);
    }
  }

  lemma {:induction false} StrLessTotal(a: string, b: string)
    ensures a == b || StrLess(a, b) || StrLess(b, a)
  {
    if |a| > 0 && |b| > 0 && a[0] == b[0] {
      StrLessTotal(a[1..], b[1..]);
      if a[1..] == b[1..] {
        assert a == [a[0]] + a[1..] && b == [b[0]] + b[1..];
      }
    }
  }

  lemma StrLessAsymmetric(a: string, b: string)
    requires StrLess(a, b)
    ensures !StrLess(b, a)
  {
    if StrLess(b, a) {
      StrLessTransitive(a, b, a);
      StrLessIrreflexive(a);
    }
  }

  /** Comparing two strings that start with equally long parts compares those parts first. */
  lemma {:induction false} StrLessConcat(x: string, y: string, s: string, t: string)
    requires |x| == |y|
    ensures StrLess(x + s, y + t) <==> StrLess(x, y) || (x == y && StrLess(s, t))
  {
    if |x| == 0 {
      assert x + s == s && y + t == t;
    } else {
      assert (x + s)[0] == x[0] && (y + t)[0] == y[0];
      assert (x + s)[1..] == x[1..] + s && (y + t)[1..] == y[1..] + t;
      StrLessConcat(x[1..], y[1..], s, t);
      if x[0] == y[0] {
        assert x == [x[0]] + x[1..] && y == [y[0]] + y[1..];
      } else {
        assert x != y;
      }
    }
  }

  function Pow10(w: nat): (p: nat)
    ensures p >= 1
  {
    if w == 0 then 1 else 10 * Pow10(w - 1)
  }

  /** The last `w` decimal digits of `n`, with leading zeros. */
  function Fixed(n: nat, w: nat): (s: string)
    ensures |s| == w
  {
    if w == 0 then [] else Fixed(n / 10, w - 1) + [Digit(n % 10)]
  }

  /** Fixed-width digit strings compare as their numbers do. */
  lemma {:induction false} FixedOrder(x: nat, y: nat, w: nat)
    requires x < Pow10(w) && y < Pow10(w)
    ensures StrLess(Fixed(x, w), Fixed(y, w)) <==> x < y
    ensures Fixed(x, w) == Fixed(y, w) <==> x == y
  {
    if w == 0 {
      StrLessIrreflexive([]);
    } else {
      FixedOrder(x / 10, y / 10, w - 1);
      var a, b := Fixed(x / 10, w - 1), Fixed(y / 10, w - 1);
      var c, d := Digit(x % 10), Digit(y % 10);
      StrLessConcat(a, b, [c], [d]);
      assert StrLess([c], [d]) <==> c < d by {
        assert [c][1..] == [] && [d][1..] == [];
        StrLessIrreflexive([]);
      }
      if Fixed(x, w) == Fixed(y, w) {
        assert (a + [c])[..w - 1] == a && (b + [d])[..w - 1] == b;
        assert (a + [c])[w - 1] == c && (b + [d])[w - 1] == d;
      }
    }
  }

  lemma {:induction false} DecimalIsFixed(n: nat, w: nat)
    requires 1 <= w && Pow10(w - 1) <= n < Pow10(w)
    ensures Decimal(n) == Fixed(n, w)
  {
    if w == 1 {
      assert Fixed(n, 1) == Fixed(n / 10, 0) + [Digit(n % 10)];
    } else {
      DecimalIsFixed(n / 10, w - 1);
    }
  }

  lemma PaddedMonthIsFixed(m: nat)
    requires m < 100
    ensures PadStart2(Decimal(m)) == Fixed(m, 2)
  {
    if m < 10 {
      assert Fixed(m, 2) == Fixed(0, 1) + [Digit(m)];
      assert Fixed(0, 1) == [] + [Digit(0)];
    } else {
      DecimalIsFixed(m, 2);
    }
  }

  /** A date whose year has four digits and whose month is a calendar month. */
  predicate FourDigitYear(d: Date)
  {
    1000 <= d.year <= 9999 && 1 <= d.month <= 12
  }

  /**
   * For four-digit years the key order is the chronological order of
   * months, and two dates share a key exactly when they share year and month.
   */
  lemma MonthKeyChronological(a: Date, b: Date)
    requires FourDigitYear(a) && FourDigitYear(b)
    ensures StrLess(MonthKey(a), MonthKey(b)) <==>
              a.year < b.year || (a.year == b.year && a.month < b.month)
    ensures MonthKey(a) == MonthKey(b) <==> a.year == b.year && a.month == b.month
  {
    assert Pow10(2) == 100 && Pow10(3) == 1000 && Pow10(4) == 10000 by {
      assert Pow10(1) == 10;
    }
    DecimalIsFixed(a.year, 4);
    DecimalIsFixed(b.year, 4);
    PaddedMonthIsFixed(a.month);
    PaddedMonthIsFixed(b.month);
    FixedOrder(a.year, b.year, 4);
    FixedOrder(a.month, b.month, 2);
    var ya, yb := Fixed(a.year, 4), Fixed(b.year, 4);
    var ma, mb := Fixed(a.month, 2), Fixed(b.month, 2);
    assert MonthKey(a) == ya + ("-" + ma);
    assert MonthKey(b) == yb + ("-" + mb);
    StrLessConcat(ya, yb, "-" + ma, "-" + mb);
    StrLessConcat("-", "-", ma, mb);
    StrLessIrreflexive("-");
    if MonthKey(a) == MonthKey(b) {
      assert (ya + ("-" + ma))[..4] == ya && (yb + ("-" + mb))[..4] == yb;
      assert (ya + ("-" + ma))[5..] == ma && (yb + ("-" + mb))[5..] == mb;
    }
  }
}
