/** Modular arithmetic, primes and the theorems the signing and primality code rests on. */
module NumberTheory {

  function Pow(b: int, e: nat): int
  {
    if e == 0 then 1 else b * Pow(b, e - 1)
  }

  predicate Divides(d: int, n: int)
    requires d > 0
  {
    n % d == 0
  }

  ghost predicate Prime(n: int)
  {
    n >= 2 && forall d :: 2 <= d < n ==> !Divides(d, n)
  }

  // ------------------------------------------------------------ residues

  lemma ModUnique(x: int, n: int, q: int, r: int)
    requires n > 0 && 0 <= r < n && x == q * n + r
    ensures x % n == r && x / n == q
  {
    QuotientGap(x / n - q, n, r - x % n);
  }

  lemma QuotientGap(k: int, n: int, gap: int)
    requires -n < gap < n && gap == k * n
    ensures k == 0
  {
    if k >= 1 {
      ProductAtLeast(k, n);
    } else if k <= -1 {
      ProductAtLeast(-k, n);
    }
  }

  lemma ProductAtLeast(k: int, n: int)
    requires k >= 1 && n >= 0
    ensures k * n >= n
  {
  }

  lemma MultipleIsZero(k: int, n: int)
    requires n > 0
    ensures (k * n) % n == 0
  {
    ModUnique(k * n, n, k, 0);
  }

  lemma SameResidue(x: int, y: int, n: int)
    requires n > 0
    ensures x % n == y % n <==> (x - y) % n == 0
  {
    var qx, qy, qd := x / n, y / n, (x - y) / n;
    assert x == qx * n + x % n && y == qy * n + y % n && x - y == qd * n + (x - y) % n;
    if x % n == y % n {
      assert x - y == (qx - qy) * n;
      MultipleIsZero(qx - qy, n);
    }
    if (x - y) % n == 0 {
      assert x == (qy + qd) * n + y % n;
      ModUnique(x, n, qy + qd, y % n);
    }
  }

  lemma MulResidue(a: int, b: int, n: int)
    requires n > 0
    ensures ((a % n) * b) % n == (a * b) % n
    ensures ((a % n) * (b % n)) % n == (a * b) % n
  {
    MulResidueLeft(a, b, n);
    MulResidueLeft(b, a % n, n);
  }

  lemma MulResidueLeft(a: int, b: int, n: int)
    requires n > 0
    ensures ((a % n) * b) % n == (a * b) % n
  {
    var q := a / n;
    assert a == q * n + a % n;
    assert a * b - (a % n) * b == (q * b) * n by {
      assert a * b == (q * n + a % n) * b == q * n * b + (a % n) * b;
      assert q * n * b == (q * b) * n;
    }
    MultipleIsZero(q * b, n);
    SameResidue(a * b, (a % n) * b, n);
  }

  lemma MulCongruent(a: int, b: int, c: int, n: int)
    requires n > 0 && a % n == b % n
    ensures (a * c) % n == (b * c) % n && (c * a) % n == (c * b) % n
  {
    MulResidueLeft(a, c, n);
    MulResidueLeft(b, c, n);
  }

  // ------------------------------------------------------------ powers

  lemma {:induction false} PowAdd(b: int, i: nat, j: nat)
    ensures Pow(b, i + j) == Pow(b, i) * Pow(b, j)
  {
    if i > 0 {
      PowAdd(b, i - 1, j);
      assert b * (Pow(b, i - 1) * Pow(b, j)) == (b * Pow(b, i - 1)) * Pow(b, j);
    }
  }

  lemma {:induction false} PowMul(b: int, i: nat, j: nat)
    ensures Pow(b, i * j) == Pow(Pow(b, i), j)
    decreases j
  {
    if j == 0 {
      assert i * j == 0;
    } else {
      PowMul(b, i, j - 1);
      assert i * j == i + i * (j - 1);
      PowAdd(b, i, i * (j - 1));
    }
  }

  lemma {:induction false} PowResidue(b: int, e: nat, n: int)
    requires n > 0
    ensures Pow(b % n, e) % n == Pow(b, e) % n
  {
    if e > 0 {
      PowResidue(b, e - 1, n);
      MulResidueLeft(b, Pow(b % n, e - 1), n);
      MulCongruent(Pow(b % n, e - 1), Pow(b, e - 1), b, n);
    }
  }

  lemma {:induction false} PowOneResidue(b: int, e: nat, n: int)
    requires n > 1 && b % n == 1
    ensures Pow(b, e) % n == 1
  {
    if e > 0 {
      PowOneResidue(b, e - 1, n);
      MulResidue(b, Pow(b, e - 1), n);
    }
  }

  lemma {:induction false} PowZeroResidue(b: int, e: nat, n: int)
    requires n > 1 && b % n == 0 && e > 0
    ensures Pow(b, e) % n == 0
  {
    MulResidueLeft(b, Pow(b, e - 1), n);
  }

  lemma {:induction false} PowPositive(b: int, e: nat)
    requires b >= 1
    ensures Pow(b, e) >= 1
  {
    if e > 0 {
      PowPositive(b, e - 1);
      assert b * Pow(b, e - 1) >= 1;
    }
  }

  lemma {:induction false} PowMonotone(b: int, i: nat, j: nat)
    requires b >= 1 && i <= j
    ensures Pow(b, i) <= Pow(b, j)
  {
    if i < j {
      PowMonotone(b, i, j - 1);
      PowPositive(b, j - 1);
      assert b * Pow(b, j - 1) >= Pow(b, j - 1);
    }
  }

  // ------------------------------------------------------------ primes

  /** Euclid's lemma, by descent on a: replace a by p mod a until it is 1. */
  lemma {:induction false} Euclid(a: int, b: int, p: int)
    requires Prime(p) && 0 < a < p && (a * b) % p == 0
    ensures b % p == 0
    decreases a
  {
    if a > 1 {
      var r, q := p % a, p / a;
      assert !Divides(a, p);
      assert p == q * a + r;
      assert r * b == b * p - q * (a * b) by {
        assert (p - q * a) * b == p * b - q * a * b;
        assert q * a * b == q * (a * b);
      }
      var k := (a * b) / p;
      assert a * b == k * p;
      assert r * b == (b - q * k) * p by {
        assert q * (k * p) == (q * k) * p;
      }
      MultipleIsZero(b - q * k, p);
      Euclid(r, b, p);
    }
  }

  lemma EuclidAny(a: int, b: int, p: int)
    requires Prime(p) && (a * b) % p == 0
    ensures a % p == 0 || b % p == 0
  {
    if a % p != 0 {
      MulResidueLeft(a, b, p);
      Euclid(a % p, b, p);
    }
  }

  lemma EuclidNonzero(a: int, b: int, p: int)
    requires Prime(p) && a % p != 0 && b % p != 0
    ensures (a * b) % p != 0
  {
    if (a * b) % p == 0 {
      EuclidAny(a, b, p);
    }
  }

  lemma SmallResidue(i: int, p: int)
    requires 0 < i < p
    ensures i % p != 0
  {
  }

  /** The only square roots of 1 modulo a prime are 1 and -1. */
  lemma SquareRootsOfOne(x: int, p: int)
    requires Prime(p) && (x * x) % p == 1
    ensures x % p == 1 || x % p == p - 1
  {
    SameResidue(x * x, 1, p);
    assert (x - 1) * (x + 1) == x * x - 1;
    EuclidAny(x - 1, x + 1, p);
    if (x - 1) % p == 0 {
      SameResidue(x, 1, p);
    } else {
      assert x + 1 == x - (-1);
      SameResidue(x, -1, p);
      ModUnique(-1, p, -1, p - 1);
    }
  }

  // ------------------------------------------------------------ Fermat

  ghost function Choose<T>(s: set<T>): (x: T)
    requires s != {}
    ensures x in s
  {
    var x :| x in s;
    x
  }

  ghost function Product(s: set<int>): int
  {
    if s == {} then 1 else
      Choose(s) * Product(s - {Choose(s)})
  }

  lemma {:induction false} ProductRemove(s: set<int>, x: int)
    requires x in s
    ensures Product(s) == x * Product(s - {x})
    decreases |s|
  {
    var y := Choose(s);
    if y != x {
      ProductRemove(s - {y}, x);
      ProductRemove(s - {x}, y);
      assert s - {y} - {x} == s - {x} - {y};
      SwapFactors(x, y, Product(s - {x} - {y}));
    }
  }

  lemma SwapFactors(x: int, y: int, z: int)
    ensures y * (x * z) == x * (y * z)
  {
  }

  function Upto(n: nat): set<int>
  {
    if n == 0 then {} else Upto(n - 1) + {n}
  }

  lemma {:induction false} UptoMembers(n: nat)
    ensures |Upto(n)| == n
    ensures forall i :: i in Upto(n) <==> 1 <= i <= n
  {
    if n > 0 {
      UptoMembers(n - 1);
    }
  }

  lemma UptoProduct(n: nat)
    requires n > 0
    ensures Product(Upto(n)) == n * Product(Upto(n - 1))
  {
    UptoMembers(n);
    UptoMembers(n - 1);
    ProductRemove(Upto(n), n);
    assert Upto(n) - {n} == Upto(n - 1);
  }

  /** The multiples a*1, ..., a*k modulo p. */
  function Multiples(a: int, k: nat, p: int): set<int>
    requires p > 0
  {
    if k == 0 then {} else Multiples(a, k - 1, p) + {(a * k) % p}
  }

  lemma {:induction false} MultiplesMembers(a: int, k: nat, p: int, x: int)
    requires p > 0 && x in Multiples(a, k, p)
    ensures exists i :: 1 <= i <= k && Residue(a, i, p) == x
  {
    if x == (a * k) % p {
      assert Residue(a, k, p) == x;
    } else {
      MultiplesMembers(a, k - 1, p, x);
    }
  }

  function Residue(a: int, i: int, p: int): int
    requires p > 0
  {
    (a * i) % p
  }

  lemma MultiplesDistinct(a: int, i: int, k: int, p: int)
    requires Prime(p) && a % p != 0 && 1 <= i < k < p
    ensures Residue(a, i, p) != Residue(a, k, p)
  {
    SameResidue(a * k, a * i, p);
    assert a * k - a * i == a * (k - i);
    SmallResidue(k - i, p);
    EuclidNonzero(a, k - i, p);
  }

  lemma {:induction false} MultiplesSize(a: int, k: nat, p: int)
    requires Prime(p) && a % p != 0 && k < p
    ensures |Multiples(a, k, p)| == k
    ensures k > 0 ==> (a * k) % p !in Multiples(a, k - 1, p)
  {
    if k > 0 {
      MultiplesSize(a, k - 1, p);
      if (a * k) % p in Multiples(a, k - 1, p) {
        MultiplesMembers(a, k - 1, p, (a * k) % p);
        var i :| 1 <= i <= k - 1 && Residue(a, i, p) == (a * k) % p;
        MultiplesDistinct(a, i, k, p);
      }
    }
  }

  lemma {:induction false} MultiplesProduct(a: int, k: nat, p: int)
    requires Prime(p) && a % p != 0 && k < p
    ensures Product(Multiples(a, k, p)) % p == (Pow(a, k) * Product(Upto(k))) % p
  {
    if k > 0 {
      MultiplesProduct(a, k - 1, p);
      MultiplesSize(a, k, p);
      UptoProduct(k);
      var m, small := (a * k) % p, Multiples(a, k - 1, p);
      ProductRemove(Multiples(a, k, p), m);
      assert Multiples(a, k, p) - {m} == small;
      MultiplesStep(a, k, Product(small), Pow(a, k - 1), Product(Upto(k - 1)), p);
    }
  }

  lemma MultiplesStep(a: int, k: int, product: int, power: int, factorial: int, p: int)
    requires p > 0 && product % p == (power * factorial) % p
    ensures (((a * k) % p) * product) % p == ((a * power) * (k * factorial)) % p
  {
    MulResidueLeft(a * k, product, p);
    MulCongruent(product, power * factorial, a * k, p);
    FourFactors(a, k, power, factorial);
  }

  lemma FourFactors(a: int, k: int, w: int, f: int)
    ensures (a * k) * (w * f) == (a * w) * (k * f)
  {
    SwapFactors(k, w, f);
    assert (a * k) * (w * f) == a * (k * (w * f));
    assert (a * w) * (k * f) == a * (w * (k * f));
  }

  lemma SubsetSameSize(a: set<int>, b: set<int>)
    requires a <= b && |a| == |b|
    ensures a == b
  {
    assert b == a + (b - a);
    assert |b - a| == 0;
  }

  lemma {:induction false} FactorialCoprime(k: nat, p: int)
    requires Prime(p) && k < p
    ensures Product(Upto(k)) % p != 0
  {
    if k > 0 {
      FactorialCoprime(k - 1, p);
      UptoProduct(k);
      SmallResidue(k, p);
      EuclidNonzero(k, Product(Upto(k - 1)), p);
    }
  }

  lemma MultiplesInRange(a: int, p: int, x: int)
    requires Prime(p) && a % p != 0 && x in Multiples(a, p - 1, p)
    ensures 1 <= x <= p - 1
  {
    MultiplesMembers(a, p - 1, p, x);
    var i :| 1 <= i <= p - 1 && Residue(a, i, p) == x;
    SmallResidue(i, p);
    EuclidNonzero(a, i, p);
  }

  lemma MultiplesAreAll(a: int, p: int)
    requires Prime(p) && a % p != 0
    ensures Multiples(a, p - 1, p) == Upto(p - 1)
  {
    UptoMembers(p - 1);
    MultiplesSize(a, p - 1, p);
    var ms, all := Multiples(a, p - 1, p), Upto(p - 1);
    forall x | x in ms
      ensures x in all
    {
      MultiplesInRange(a, p, x);
    }
    SubsetSameSize(ms, all);
  }

  lemma Fermat(a: int, p: int)
    requires Prime(p) && a % p != 0
    ensures Pow(a, p - 1) % p == 1
  {
    MultiplesProduct(a, p - 1, p);
    MultiplesAreAll(a, p);
    FactorialCoprime(p - 1, p);
    CancelFactor(Pow(a, p - 1), Product(Upto(p - 1)), p);
  }

  lemma CancelFactor(w: int, f: int, p: int)
    requires Prime(p) && f % p != 0 && f % p == (w * f) % p
    ensures w % p == 1
  {
    SameResidue(w * f, f, p);
    assert w * f - f == (w - 1) * f;
    EuclidAny(w - 1, f, p);
    SameResidue(w, 1, p);
  }

  // ------------------------------------------------------------ two primes

  /** Agreement modulo two distinct primes is agreement modulo their product. */
  lemma ChineseRemainder(x: int, y: int, p: int, q: int)
    requires Prime(p) && Prime(q) && p != q
    requires x % p == y % p && x % q == y % q
    ensures p * q > 0 && x % (p * q) == y % (p * q)
  {
    SameResidue(x, y, p);
    SameResidue(x, y, q);
    BothDivide(x - y, p, q);
    SameResidue(x, y, p * q);
  }

  lemma BothDivide(z: int, p: int, q: int)
    requires Prime(p) && Prime(q) && p != q && z % p == 0 && z % q == 0
    ensures p * q > 0 && z % (p * q) == 0
  {
    PrimeIndivisible(p, q);
    var k := z / p;
    assert z == p * k;
    EuclidAny(p, k, q);
    var j := k / q;
    assert k == q * j;
    AssociateFactors(p, q, j);
    ProductAtLeast(p, q);
    MultipleIsZero(j, p * q);
  }

  lemma AssociateFactors(p: int, q: int, j: int)
    ensures p * (q * j) == j * (p * q)
  {
  }

  lemma PrimeIndivisible(p: int, q: int)
    requires Prime(p) && Prime(q) && p != q
    ensures p % q != 0
  {
    if q < p {
      assert !Divides(q, p);
    } else {
      SmallResidue(p, q);
    }
  }

  /** Raising to 1 + t(p-1) changes nothing modulo a prime, also for multiples of p. */
  lemma FermatExponent(m: int, t: nat, p: int)
    requires Prime(p)
    ensures Pow(m, 1 + (p - 1) * t) % p == m % p
  {
    if m % p == 0 {
      PowZeroResidue(m, 1 + (p - 1) * t, p);
    } else {
      Fermat(m, p);
      PowMul(m, p - 1, t);
      PowOneResidue(Pow(m, p - 1), t, p);
      var w := Pow(m, (p - 1) * t);
      PowAdd(m, 1, (p - 1) * t);
      assert Pow(m, 1) == m * Pow(m, 0) == m;
      MulCongruent(w, 1, m, p);
    }
  }
}
