/** Six-digit generation directory names: sorting them as text sorts them as numbers. */
module GenerationNames {

  function Ten(w: nat): (t: nat)
    ensures t >= 1
  {
    if w == 0 then 1 else 10 * Ten(w - 1)
  }

  predicate IsDigit(c: char)
  {
    '0' <= c <= '9'
  }

  predicate AllDigits(s: string)
  {
    forall i :: 0 <= i < |s| ==> IsDigit(s[i])
  }

  /** int(s) for a string of digits. */
  function Value(s: string): (v: nat)
    requires AllDigits(s)
    ensures v < Ten(|s|)
  {
    if s == "" then 0 else
      assert (s[0] as int - '0' as int) <= 9;
      DigitTimes(s[0] as int - '0' as int, Ten(|s| - 1));
      (s[0] as int - '0' as int) * Ten(|s| - 1) + Value(s[1..])
  }

  lemma DigitTimes(d: int, t: nat)
    requires 0 <= d <= 9
    ensures 0 <= d * t <= 9 * t
  {
  }

  /** The last w decimal digits of g. */
  function Digits(g: nat, w: nat): (s: string)
    requires g < Ten(w)
    ensures |s| == w && AllDigits(s)
  {
    if w == 0 then ""
    else
      Leading(g, Ten(w - 1));
      [(g / Ten(w - 1) + '0' as int) as char] + Digits(g % Ten(w - 1), w - 1)
  }

  lemma Leading(g: nat, t: nat)
    requires t >= 1 && g < 10 * t
    ensures 0 <= g / t <= 9
  {
  }

  lemma LeadingDigit(g: nat, w: nat)
    requires g < Ten(w) && w > 0
    ensures Digits(g, w)[0] as int - '0' as int == g / Ten(w - 1)
    ensures Digits(g, w)[1..] == Digits(g % Ten(w - 1), w - 1)
  {
    Leading(g, Ten(w - 1));
  }

  lemma Quotient(g: nat, t: nat)
    requires t > 0
    ensures (g / t) * t + g % t == g
  {
  }

  lemma {:induction false} ValueOfDigits(g: nat, w: nat)
    requires g < Ten(w)
    ensures Value(Digits(g, w)) == g
  {
    if w > 0 {
      LeadingDigit(g, w);
      ValueOfDigits(g % Ten(w - 1), w - 1);
      Quotient(g, Ten(w - 1));
    }
  }

  predicate Less(a: string, b: string)
  {
    b != "" && (a == "" || a[0] < b[0] || (a[0] == b[0] && Less(a[1..], b[1..])))
  }

  lemma Ahead(d: int, e: int, t: int, x: int, y: int)
    requires 0 <= x < t && 0 <= y && d < e
    ensures d * t + x < e * t + y
  {
    NextMultiple(d, e, t);
  }

  lemma NextMultiple(d: int, e: int, t: int)
    requires d < e && t >= 0
    ensures d * t + t <= e * t
  {
    NonNegative(e - d - 1, t);
    assert (e - d - 1) * t == e * t - d * t - t;
  }

  lemma NonNegative(a: int, b: int)
    requires a >= 0 && b >= 0
    ensures a * b >= 0
  {
  }

  /** Text order is number order, and no two names have the same number. */
  lemma {:induction false} TextOrderIsNumberOrder(a: string, b: string)
    requires AllDigits(a) && AllDigits(b) && |a| == |b|
    ensures Less(a, b) <==> Value(a) < Value(b)
    ensures Value(a) == Value(b) ==> a == b
  {
    if a != "" {
      TextOrderIsNumberOrder(a[1..], b[1..]);
      var t, x, y := Ten(|a| - 1), Value(a[1..]), Value(b[1..]);
      var d, e := a[0] as int - '0' as int, b[0] as int - '0' as int;
      if d < e {
        Ahead(d, e, t, x, y);
      } else if e < d {
        Ahead(e, d, t, y, x);
      }
      if Value(a) == Value(b) {
        assert a[0] == b[0];
        assert a == [a[0]] + a[1..] && b == [b[0]] + b[1..];
      }
    }
  }

  // ------------------------------------------------------------ directory names

  const LIMIT: nat := 1_000_000

  lemma SixDigits()
    ensures Ten(6) == LIMIT
  {
    assert Ten(3) == 10 * Ten(2) == 100 * Ten(1) == 1000 * Ten(0) == 1000;
    assert Ten(6) == 10 * Ten(5) == 100 * Ten(4) == 1000 * Ten(3);
  }

  /** The names the glob [0-9][0-9][0-9][0-9][0-9][0-9] finds. */
  predicate Globbed(name: string)
  {
    |name| == 6 && AllDigits(name)
  }

  function Width(g: nat): (w: nat)
    ensures g < Ten(w)
  {
    if g == 0 then 0 else 1 + Width(g / 10)
  }

  lemma {:induction false} WiderFits(w: nat, v: nat)
    requires w <= v
    ensures Ten(w) <= Ten(v)
  {
    if w < v {
      WiderFits(w, v - 1);
    }
  }

  /** f"{g:06d}" */
  function Name(g: nat): (s: string)
    ensures g < LIMIT ==> Globbed(s) && Value(s) == g
    ensures g >= LIMIT ==> !Globbed(s)
  {
    SixDigits();
    var wide := if Width(g) <= 7 then 7 else Width(g);
    WiderFits(Width(g), wide);
    if g < LIMIT then
      ValueOfDigits(g, 6);
      Digits(g, 6)
    else
      Digits(g, wide)
  }

  lemma NameOfValue(s: string)
    requires Globbed(s)
    ensures Value(s) < LIMIT && Name(Value(s)) == s
  {
    SixDigits();
    TextOrderIsNumberOrder(Name(Value(s)), s);
  }

  /** m is the last of the names in text order. */
  predicate Last(names: set<string>, m: string)
  {
    m in names && forall x :: x in names ==> x == m || Less(x, m)
  }

  /** The directory names of generations 1 to n. */
  function Names(n: nat): set<string>
  {
    if n == 0 then {} else Names(n - 1) + {Name(n)}
  }

  lemma {:induction false} NamesMembers(n: nat, x: string)
    requires n < LIMIT
    ensures x in Names(n) <==> Globbed(x) && 1 <= Value(x) <= n
  {
    if n > 0 {
      NamesMembers(n - 1, x);
      if Globbed(x) && Value(x) == n {
        NameOfValue(x);
      }
    }
  }

  /** The last name in text order carries the largest number. */
  lemma LastIsLargest(n: nat, m: string)
    requires 1 <= n < LIMIT && Last(Names(n), m)
    ensures m == Name(n)
  {
    NamesMembers(n, m);
    NamesMembers(n, Name(n));
    TextOrderIsNumberOrder(m, Name(n));
    TextOrderIsNumberOrder(Name(n), m);
  }

  lemma LargestIsLast(n: nat)
    requires 1 <= n < LIMIT
    ensures Last(Names(n), Name(n))
  {
    NamesMembers(n, Name(n));
    forall x | x in Names(n) ensures x == Name(n) || Less(x, Name(n)) {
      NamesMembers(n, x);
      TextOrderIsNumberOrder(x, Name(n));
    }
  }
}
