/** The synthetic provider's probabilistic primality test. */
module Primality {
  import opened NumberTheory

  // The trial-division table, cut into rows of sixty consecutive integers.
  const ROW_0: seq<int> := [2, 3, 5, 7, 11, 13, 17, 19, 23, 29]
  const ROW_1: seq<int> := [31, 37, 41, 43, 47, 53, 59, 61, 67, 71, 73, 79, 83, 89]
  const ROW_2: seq<int> := [97, 101, 103, 107, 109, 113, 127, 131, 137, 139, 149]
  const ROW_3: seq<int> := [151, 157, 163, 167, 173, 179, 181, 191, 193, 197, 199]
  const ROW_4: seq<int> := [211, 223, 227, 229, 233, 239, 241, 251, 257, 263, 269]
  const ROW_5: seq<int> := [271, 277, 281, 283, 293, 307, 311, 313, 317]
  const ROW_6: seq<int> := [331, 337, 347, 349, 353, 359, 367, 373, 379, 383, 389]
  const ROW_7: seq<int> := [397, 401, 409, 419, 421, 431, 433, 439, 443, 449]
  const ROW_8: seq<int> := [457, 461, 463, 467, 479, 487, 491, 499, 503, 509]
  const ROW_9: seq<int> := [521, 523, 541, 547, 557, 563, 569]
  const ROW_10: seq<int> := [571, 577, 587, 593, 599, 601, 607]
  const SMALL_PRIMES: seq<int> :=
    ROW_0 + ROW_1 + ROW_2 + ROW_3 + ROW_4 + ROW_5 + ROW_6 + ROW_7 + ROW_8 + ROW_9 + ROW_10

  // ------------------------------------------------------------ n - 1 = 2^r * d

  function TwoExponent(m: int): nat
    requires m > 0
  {
    if m % 2 == 0 then 1 + TwoExponent(m / 2) else 0
  }

  function OddPart(m: int): nat
    requires m > 0
  {
    if m % 2 == 0 then OddPart(m / 2) else m
  }

  lemma {:induction false} SplitExact(m: int)
    requires m > 0
    ensures Pow(2, TwoExponent(m)) * OddPart(m) == m
    ensures OddPart(m) % 2 == 1
    ensures TwoExponent(m) >= 1 <==> m % 2 == 0
  {
    if m % 2 == 0 {
      SplitExact(m / 2);
      AssociateFactors(2, Pow(2, TwoExponent(m / 2)), OddPart(m / 2));
    }
  }

  // ------------------------------------------------------------ one base

  /** The j-th entry of the sequence a^d, a^(2d), a^(4d), ... modulo n. */
  function Entry(a: int, d: nat, j: nat, n: int): int
    requires n > 0
  {
    Pow(a, d * Pow2(j)) % n
  }

  function Pow2(j: nat): (p: nat)
    ensures p == Pow(2, j) && p >= 1
  {
    if j == 0 then 1 else 2 * Pow2(j - 1)
  }

  lemma EntrySquares(a: int, d: nat, j: nat, n: int)
    requires n > 0
    ensures Entry(a, d, j + 1, n) == (Entry(a, d, j, n) * Entry(a, d, j, n)) % n
  {
    var e := d * Pow2(j);
    assert d * Pow2(j + 1) == e + e;
    PowAdd(a, e, e);
    MulResidue(Pow(a, e), Pow(a, e), n);
  }

  /** What one random base a must show: a^d is 1, or -1 appears among the first r entries. */
  ghost predicate StrongFor(a: int, n: int, r: nat, d: nat)
    requires n > 0
  {
    Entry(a, d, 0, n) == 1 || exists j :: 0 <= j < r && Entry(a, d, j, n) == n - 1
  }

  /** Every base passes for a prime: walk back from a^(n-1) = 1 to the first entry that is not 1. */
  lemma {:induction false} PrimeStrongFrom(a: int, n: int, r: nat, d: nat, j: nat)
    requires Prime(n) && j <= r && Entry(a, d, j, n) == 1
    ensures StrongFor(a, n, r, d)
  {
    if j > 0 {
      var x := Pow(a, d * Pow2(j - 1));
      EntrySquares(a, d, j - 1, n);
      MulResidue(x, x, n);
      SquareRootsOfOne(x, n);
      if x % n == 1 {
        PrimeStrongFrom(a, n, r, d, j - 1);
      } else {
        assert Entry(a, d, j - 1, n) == n - 1;
      }
    }
  }

  lemma Commute(x: int, y: int)
    ensures x * y == y * x
  {
  }

  lemma PrimeStrong(a: int, n: int)
    requires Prime(n) && a % n != 0
    ensures StrongFor(a, n, TwoExponent(n - 1), OddPart(n - 1))
  {
    var r, d := TwoExponent(n - 1), OddPart(n - 1);
    SplitExact(n - 1);
    Fermat(a, n);
    assert Pow2(r) * d == n - 1;
    assert Entry(a, d, r, n) == 1 by { Commute(d, Pow2(r)); }
    PrimeStrongFrom(a, n, r, d, r);
  }

  // ------------------------------------------------------------ the table

  predicate NineTrials(m: int)
  {
    && (m == 2 || m % 2 != 0) && (m == 3 || m % 3 != 0) && (m == 5 || m % 5 != 0)
    && (m == 7 || m % 7 != 0) && (m == 11 || m % 11 != 0) && (m == 13 || m % 13 != 0)
    && (m == 17 || m % 17 != 0) && (m == 19 || m % 19 != 0) && (m == 23 || m % 23 != 0)
  }

  lemma WheelResidue(r: int)
    requires 0 <= r < 30 && r % 2 != 0 && r % 3 != 0 && r % 5 != 0
    ensures r in {1, 7, 11, 13, 17, 19, 23, 29}
  {
  }

  lemma ThirtyFold(q: int, r: int)
    ensures (30 * q + r) % 2 == r % 2 && (30 * q + r) % 3 == r % 3 && (30 * q + r) % 5 == r % 5
  {
    ModUnique(30 * q + r, 2, 15 * q + r / 2, r % 2);
    ModUnique(30 * q + r, 3, 10 * q + r / 3, r % 3);
    ModUnique(30 * q + r, 5, 6 * q + r / 5, r % 5);
  }

  lemma Wheel(m: int, q: int)
    requires 30 * q <= m < 30 * q + 30 && m % 2 != 0 && m % 3 != 0 && m % 5 != 0
    ensures m - 30 * q in {1, 7, 11, 13, 17, 19, 23, 29}
  {
    ThirtyFold(q, m - 30 * q);
    WheelResidue(m - 30 * q);
  }

  lemma Row0(m: int)
    requires 2 <= m < 30
    ensures NineTrials(m) <==> m in ROW_0
  {
  }

  lemma Row1(m: int, q: int)
    requires 1 <= q <= 2 && 30 * q <= m < 30 * q + 30 && m < 613
    ensures NineTrials(m) <==> m in ROW_1
  {
    if NineTrials(m) {
      Wheel(m, q);
    }
  }

  lemma Row2(m: int, q: int)
    requires 3 <= q <= 4 && 30 * q <= m < 30 * q + 30 && m < 613
    ensures NineTrials(m) <==> m in ROW_2
  {
    if NineTrials(m) {
      Wheel(m, q);
    }
  }

  lemma Row3(m: int, q: int)
    requires 5 <= q <= 6 && 30 * q <= m < 30 * q + 30 && m < 613
    ensures NineTrials(m) <==> m in ROW_3
  {
    if NineTrials(m) {
      Wheel(m, q);
    }
  }

  lemma Row4(m: int, q: int)
    requires 7 <= q <= 8 && 30 * q <= m < 30 * q + 30 && m < 613
    ensures NineTrials(m) <==> m in ROW_4
  {
    if NineTrials(m) {
      Wheel(m, q);
    }
  }

  lemma Row5(m: int, q: int)
    requires 9 <= q <= 10 && 30 * q <= m < 30 * q + 30 && m < 613
    ensures NineTrials(m) <==> m in ROW_5
  {
    if NineTrials(m) {
      Wheel(m, q);
    }
  }

  lemma Row6(m: int, q: int)
    requires 11 <= q <= 12 && 30 * q <= m < 30 * q + 30 && m < 613
    ensures NineTrials(m) <==> m in ROW_6
  {
    if NineTrials(m) {
      Wheel(m, q);
    }
  }

  lemma Row7(m: int, q: int)
    requires 13 <= q <= 14 && 30 * q <= m < 30 * q + 30 && m < 613
    ensures NineTrials(m) <==> m in ROW_7
  {
    if NineTrials(m) {
      Wheel(m, q);
    }
  }

  lemma Row8(m: int, q: int)
    requires 15 <= q <= 16 && 30 * q <= m < 30 * q + 30 && m < 613
    ensures NineTrials(m) <==> m in ROW_8
  {
    if NineTrials(m) {
      Wheel(m, q);
    }
  }

  lemma Row9(m: int, q: int)
    requires 17 <= q <= 18 && 30 * q <= m < 30 * q + 30 && m < 613
    ensures NineTrials(m) <==> m in ROW_9
  {
    if NineTrials(m) {
      Wheel(m, q);
    }
  }

  lemma Row10(m: int, q: int)
    requires 19 <= q <= 20 && 30 * q <= m < 30 * q + 30 && m < 613
    ensures NineTrials(m) <==> m in ROW_10
  {
    if NineTrials(m) {
      Wheel(m, q);
    }
  }

  lemma InSmallPrimes(m: int)
    ensures m in SMALL_PRIMES <==>
              || m in ROW_0 || m in ROW_1 || m in ROW_2 || m in ROW_3 || m in ROW_4 || m in ROW_5
              || m in ROW_6 || m in ROW_7 || m in ROW_8 || m in ROW_9 || m in ROW_10
  {
  }

  // ------------------------------------------------------------ least factors

  lemma {:induction false} LeastFactorFrom(n: int, d: int) returns (q: int)
    requires 2 <= d <= n && forall e :: 2 <= e < d ==> !Divides(e, n)
    ensures d <= q <= n && Divides(q, n) && forall e :: 2 <= e < q ==> !Divides(e, n)
    decreases n - d
  {
    if Divides(d, n) {
      q := d;
    } else {
      assert Divides(n, n);
      q := LeastFactorFrom(n, d + 1);
    }
  }

  lemma DividesTransitive(e: int, q: int, n: int)
    requires e > 0 && q > 0 && Divides(e, q) && Divides(q, n)
    ensures Divides(e, n)
  {
    var i, j := q / e, n / q;
    assert q == i * e && n == j * q;
    assert j * (i * e) == (j * i) * e;
    MultipleIsZero(j * i, e);
  }

  /** The least factor of n is prime, and at most the square root unless n is prime. */
  lemma LeastFactor(n: int) returns (q: int)
    requires n >= 2
    ensures Prime(q) && Divides(q, n) && q <= n
    ensures q < n ==> q * q <= n && !Prime(n)
  {
    q := LeastFactorFrom(n, 2);
    forall e | 2 <= e < q ensures !Divides(e, q) {
      if Divides(e, q) {
        DividesTransitive(e, q, n);
      }
    }
    if q < n {
      CofactorAtLeast(n, q);
    }
  }

  lemma CofactorAtLeast(n: int, q: int)
    requires 2 <= q < n && Divides(q, n) && forall e :: 2 <= e < q ==> !Divides(e, n)
    ensures q * q <= n
  {
    var k := n / q;
    assert n == k * q == q * k;
    assert k >= 2 by {
      assert n > q;
    }
    MultipleIsZero(q, k);
    assert Divides(k, n);
    ProductBounds(q, k);
  }

  lemma ProductBounds(q: int, k: int)
    requires 0 <= q <= k
    ensures q * q <= k * q
  {
  }

  lemma SquareBound(q: int, b: int)
    requires q >= b >= 0
    ensures q * q >= b * b
  {
  }

  lemma SmallPrimeFactor(q: int)
    requires Prime(q) && q < 29
    ensures q in {2, 3, 5, 7, 11, 13, 17, 19, 23}
  {
    assert q > 2 ==> !Divides(2, q);
    assert q > 3 ==> !Divides(3, q);
    assert q > 5 ==> !Divides(5, q);
  }

  lemma NineTrialsExact(m: int)
    requires 2 <= m < 29 * 29
    ensures NineTrials(m) <==> Prime(m)
  {
    if Prime(m) {
      forall p | p in {2, 3, 5, 7, 11, 13, 17, 19, 23} && p < m ensures m % p != 0 {
        assert !Divides(p, m);
      }
    }
    var q := LeastFactor(m);
    if q < m {
      if q >= 29 {
        SquareBound(q, 29);
      }
      SmallPrimeFactor(q);
    }
  }

  /** The trial-division table lists every prime below 613 and nothing else. */
  lemma SmallPrimesComplete(m: int)
    requires 2 <= m < 613
    ensures m in SMALL_PRIMES <==> Prime(m)
  {
    NineTrialsExact(m);
    InSmallPrimes(m);
    TableRow(m);
  }

  lemma TableRow(m: int)
    requires 2 <= m < 613
    ensures NineTrials(m) <==>
              || m in ROW_0 || m in ROW_1 || m in ROW_2 || m in ROW_3 || m in ROW_4 || m in ROW_5
              || m in ROW_6 || m in ROW_7 || m in ROW_8 || m in ROW_9 || m in ROW_10
  {
    var q := m / 30;
    if q == 0 {
      Row0(m);
    } else if q <= 2 {
      Row1(m, q);
    } else if q <= 4 {
      Row2(m, q);
    } else if q <= 6 {
      Row3(m, q);
    } else if q <= 8 {
      Row4(m, q);
    } else if q <= 10 {
      Row5(m, q);
    } else if q <= 12 {
      Row6(m, q);
    } else if q <= 14 {
      Row7(m, q);
    } else if q <= 16 {
      Row8(m, q);
    } else if q <= 18 {
      Row9(m, q);
    } else {
      Row10(m, q);
    }
  }

  lemma TableRange(p: int)
    requires p in SMALL_PRIMES
    ensures 2 <= p < 613
  {
    InSmallPrimes(p);
  }

  ghost predicate NoFactorIn(n: int, table: seq<int>)
  {
    forall i :: 0 <= i < |table| ==> table[i] > 0 && n % table[i] != 0
  }

  ghost predicate NoSmallFactor(n: int)
  {
    NoFactorIn(n, SMALL_PRIMES)
  }

  /** Below 613 squared, having no factor in the table is the same as being an unlisted prime. */
  lemma TrialDivisionDecides(n: int)
    requires 2 <= n < 613 * 613 && NoSmallFactor(n)
    ensures Prime(n) && n >= 613
  {
    var q := LeastFactor(n);
    if q < 613 {
      SmallPrimesComplete(q);
    }
    if q < n {
      SquareBound(q, 613);
    }
  }

  lemma PrimeHasNoSmallFactor(n: int)
    requires Prime(n) && n !in SMALL_PRIMES
    ensures NoSmallFactor(n) && n >= 613
  {
    if n < 613 {
      SmallPrimesComplete(n);
    }
    forall i | 0 <= i < |SMALL_PRIMES| ensures 0 < SMALL_PRIMES[i] && n % SMALL_PRIMES[i] != 0 {
      TableRange(SMALL_PRIMES[i]);
      assert !Divides(SMALL_PRIMES[i], n);
    }
  }

  /** Listed numbers are positive, and none divides another. */
  ghost predicate Independent(table: seq<int>)
  {
    && (forall i :: 0 <= i < |table| ==> table[i] > 0)
    && (forall i, j :: 0 <= i < |table| && 0 <= j < |table| && table[i] != table[j] ==>
          table[j] > 0 && table[i] % table[j] != 0)
  }

  lemma ListedIndivisible(n: int, p: int)
    requires n in SMALL_PRIMES && p in SMALL_PRIMES && p != n
    ensures p > 0 && n % p != 0
  {
    TableRange(p);
    TableRange(n);
    SmallPrimesComplete(n);
    if p < n {
      assert !Divides(p, n);
    } else {
      SmallResidue(n, p);
    }
  }

  lemma TableIndependent(table: seq<int>)
    requires table == SMALL_PRIMES
    ensures Independent(table)
  {
    forall i, j | 0 <= i < |table| && 0 <= j < |table| && table[i] != table[j]
      ensures table[j] > 0 && table[i] % table[j] != 0
    {
      ListedIndivisible(table[i], table[j]);
    }
    forall i | 0 <= i < |table| ensures table[i] > 0 {
      TableRange(table[i]);
    }
  }

  // ------------------------------------------------------------ the test

  /** Where a draw below n - 4 lands: a base in 2 .. n - 3. */
  function Base(n: int, drawn: nat): (a: int)
    requires n >= 613
    ensures 2 <= a <= n - 3
  {
    drawn % (n - 4) + 2
  }

  datatype Verdict = Listed | Divisible | Open

  /** Trial division stops at the first listed number that equals n or divides it. */
  ghost function Trial(n: int, table: seq<int>): Verdict
  {
    if table == [] then Open
    else if n == table[0] then Listed
    else if table[0] > 0 && n % table[0] == 0 then Divisible
    else Trial(n, table[1..])
  }

  lemma {:induction false} TrialMeaning(n: int, table: seq<int>)
    requires Independent(table)
    ensures Trial(n, table) == Listed <==> n in table
    ensures Trial(n, table) == Open <==> n !in table && NoFactorIn(n, table)
  {
    if table != [] {
      var rest := table[1..];
      assert table == [table[0]] + rest;
      assert forall i :: 0 <= i < |rest| ==> rest[i] == table[i + 1];
      TrialMeaning(n, rest);
      if n == table[0] {
        SmallestMultiple(n);
      }
      assert NoFactorIn(n, table) <==> table[0] > 0 && n % table[0] != 0 && NoFactorIn(n, rest);
    }
  }

  lemma SmallestMultiple(n: int)
    ensures n > 0 ==> n % n == 0
  {
  }

  /** Trial division does not throw n out. */
  ghost predicate Undivided(n: int)
  {
    n >= 2 && Trial(n, SMALL_PRIMES) != Divisible
  }

  /** The first k rounds over a given sequence of random draws all pass; listed primes skip them. */
  ghost predicate RoundsPass(n: int, k: nat, draw: nat -> nat)
  {
    k == 0 ||
    (&& RoundsPass(n, k - 1, draw)
     && (n < 613 || StrongFor(Base(n, draw(k - 1)), n, TwoExponent(n - 1), OddPart(n - 1))))
  }

  /** What the answer True means. */
  ghost predicate ProbablePrime(n: int, k: nat, draw: nat -> nat)
  {
    Undivided(n) && RoundsPass(n, k, draw)
  }

  lemma TrialOfTable(n: int)
    ensures Trial(n, SMALL_PRIMES) == Listed <==> n in SMALL_PRIMES
    ensures Trial(n, SMALL_PRIMES) == Open <==> n !in SMALL_PRIMES && NoSmallFactor(n)
  {
    TableIndependent(SMALL_PRIMES);
    TrialMeaning(n, SMALL_PRIMES);
  }

  lemma PrimeUndivided(n: int)
    requires Prime(n)
    ensures Undivided(n)
  {
    TrialOfTable(n);
    if n !in SMALL_PRIMES {
      PrimeHasNoSmallFactor(n);
    }
  }

  lemma {:induction false} PrimePassesRounds(n: int, k: nat, draw: nat -> nat)
    requires Prime(n)
    ensures RoundsPass(n, k, draw)
  {
    if k > 0 {
      PrimePassesRounds(n, k - 1, draw);
      if n >= 613 {
        SmallResidue(Base(n, draw(k - 1)), n);
        PrimeStrong(Base(n, draw(k - 1)), n);
      }
    }
  }

  /** A prime passes, whatever is drawn. */
  lemma PrimeIsProbablePrime(n: int, k: nat, draw: nat -> nat)
    requires Prime(n)
    ensures ProbablePrime(n, k, draw)
  {
    PrimeUndivided(n);
    PrimePassesRounds(n, k, draw);
  }

  lemma {:induction false} FailedRound(n: int, k: nat, i: nat, draw: nat -> nat)
    requires n >= 613 && i < k
    requires !StrongFor(Base(n, draw(i)), n, TwoExponent(n - 1), OddPart(n - 1))
    ensures !RoundsPass(n, k, draw)
  {
    if i < k - 1 {
      FailedRound(n, k - 1, i, draw);
    }
  }

  lemma ListedIsPrime(n: int)
    requires n in SMALL_PRIMES
    ensures Prime(n)
  {
    TableRange(n);
    SmallPrimesComplete(n);
  }

  lemma UndividedIsPrime(n: int)
    requires Undivided(n) && n < 613 * 613
    ensures Prime(n)
  {
    TrialOfTable(n);
    if n in SMALL_PRIMES {
      ListedIsPrime(n);
    } else {
      TrialDivisionDecides(n);
    }
  }

  /** Below 613 squared the test is exact, whatever is drawn. */
  lemma ExactBelowTableSquare(n: int, k: nat, draw: nat -> nat)
    requires n < 613 * 613
    ensures ProbablePrime(n, k, draw) <==> Prime(n)
  {
    if Undivided(n) {
      UndividedIsPrime(n);
    }
    if Prime(n) {
      PrimeIsProbablePrime(n, k, draw);
    }
  }

  method TrialDivision(n: int, table: seq<int>) returns (verdict: Verdict)
    requires forall i :: 0 <= i < |table| ==> table[i] > 0
    ensures verdict == Trial(n, table)
  {
    for i := 0 to |table|
      invariant Trial(n, table) == Trial(n, table[i..])
    {
      if n == table[i] {
        return Listed;
      }
      if n % table[i] == 0 {
        return Divisible;
      }
      assert table[i..][1..] == table[i + 1..];
    }
    return Open;
  }

  method SplitOffTwos(m: int) returns (r: nat, d: nat)
    requires m > 0
    ensures r == TwoExponent(m) && d == OddPart(m)
    ensures Pow(2, r) * d == m && d % 2 == 1
  {
    r, d := 0, m;
    while d % 2 == 0
      invariant d > 0
      invariant r + TwoExponent(d) == TwoExponent(m) && OddPart(d) == OddPart(m)
      decreases d
    {
      r := r + 1;
      d := d / 2;
    }
    SplitExact(m);
  }

  /** One round of the test for base a. */
  method Round(a: int, n: int, r: nat, d: nat) returns (passed: bool)
    requires n >= 3 && r >= 1
    ensures passed <==> StrongFor(a, n, r, d)
  {
    var x := Pow(a, d) % n;
    assert x == Entry(a, d, 0, n);
    if x == 1 || x == n - 1 {
      return true;
    }
    for j := 1 to r
      invariant x == Entry(a, d, j - 1, n)
      invariant forall i :: 0 <= i < j ==> Entry(a, d, i, n) != n - 1
    {
      EntrySquares(a, d, j - 1, n);
      x := (x * x) % n;
      if x == n - 1 {
        return true;
      }
    }
    return false;
  }

  /** The rounds for a number that survived trial division. */
  method Rounds(n: int, k: nat, draw: nat -> nat) returns (ok: bool)
    requires n >= 613 && n % 2 == 1
    ensures ok <==> RoundsPass(n, k, draw)
  {
    var r, d := SplitOffTwos(n - 1);
    SplitExact(n - 1);
    for i := 0 to k
      invariant RoundsPass(n, i, draw)
    {
      var passed := Round(Base(n, draw(i)), n, r, d);
      if !passed {
        FailedRound(n, k, i, draw);
        return false;
      }
    }
    return true;
  }

  lemma Survivor(n: int)
    requires n >= 2 && Trial(n, SMALL_PRIMES) == Open
    ensures n >= 613 && n % 2 == 1
  {
    TrialOfTable(n);
    if n < 613 {
      TrialDivisionDecides(n);
    }
    assert SMALL_PRIMES[0] == 2;
  }

  lemma ListedPasses(n: int, k: nat, draw: nat -> nat)
    requires Trial(n, SMALL_PRIMES) == Listed
    ensures ProbablePrime(n, k, draw)
  {
    TrialOfTable(n);
    ListedIsPrime(n);
    PrimeIsProbablePrime(n, k, draw);
  }

  lemma TablePositive(table: seq<int>)
    requires table == SMALL_PRIMES
    ensures forall i :: 0 <= i < |table| ==> table[i] > 0
  {
    TableIndependent(table);
  }

  method Test(n: int, k: nat, draw: nat -> nat) returns (ok: bool)
    ensures ok <==> ProbablePrime(n, k, draw)
  {
    if n < 2 {
      return false;
    }
    var table := SMALL_PRIMES;
    TablePositive(table);
    var verdict := TrialDivision(n, table);
    if verdict == Listed {
      ListedPasses(n, k, draw);
      return true;
    }
    if verdict == Divisible {
      return false;
    }
    Survivor(n);
    ok := Rounds(n, k, draw);
  }

  /** The primality test over an arbitrary stream of random draws. */
  method IsProbablePrime(n: int, k: nat, draw: nat -> nat) returns (ok: bool)
    ensures ok <==> ProbablePrime(n, k, draw)
    ensures Prime(n) ==> ok
    ensures n < 613 * 613 ==> (ok <==> Prime(n))
  {
    if Prime(n) {
      PrimeIsProbablePrime(n, k, draw);
    }
    if n < 613 * 613 {
      ExactBelowTableSquare(n, k, draw);
    }
    ok := Test(n, k, draw);
  }
}
