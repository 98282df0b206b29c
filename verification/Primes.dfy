/**
 Number theory behind double hashing: the table sizes are prime, and every nonzero stride modulo a prime
 walks through all residues.
 */
module Primes {

  ghost predicate IsPrime(n: nat) {
    n >= 2 && forall d :: 2 <= d < n ==> n % d != 0
  }

  // ----- Trial division by odd numbers -----

  /** None of the twelve odd numbers from lo on divides n. */
  predicate Block(n: nat, lo: nat)
    requires lo >= 1
  {
    && n % lo != 0 && n % (lo + 2) != 0 && n % (lo + 4) != 0 && n % (lo + 6) != 0
    && n % (lo + 8) != 0 && n % (lo + 10) != 0 && n % (lo + 12) != 0 && n % (lo + 14) != 0
    && n % (lo + 16) != 0 && n % (lo + 18) != 0 && n % (lo + 20) != 0 && n % (lo + 22) != 0
  }

  predicate Blocks(n: nat, lo: nat, count: nat)
    requires lo >= 1
    decreases count
  {
    count == 0 || (Block(n, lo) && Blocks(n, lo + 24, count - 1))
  }

  lemma {:induction false} BlocksJoin(n: nat, lo: nat, a: nat, b: nat)
    requires lo >= 1 && Blocks(n, lo, a) && Blocks(n, lo + 24 * a, b)
    ensures Blocks(n, lo, a + b)
    decreases a
  {
    if a > 0 { BlocksJoin(n, lo + 24, a - 1, b); }
  }

  lemma FactorDivides(n: nat, d: nat, q: nat)
    requires d >= 1 && q >= 1 && d % q == 0 && n % d == 0
    ensures n % q == 0
  {
    var a, b := n / d, d / q;
    assert n == (a * b) * q by {
      assert n == a * d && d == b * q;
      assert a * (b * q) == (a * b) * q;
    }
    MultipleMod(a * b, q);
  }

  lemma MultipleMod(k: int, m: nat)
    requires m > 0
    ensures (k * m) % m == 0
  {
    assert k * m == m * k + 0;
    ModUnique(k * m, m, k, 0);
  }

  /** Division with remainder has only one answer. */
  lemma ModUnique(x: int, m: nat, q: int, r: nat)
    requires m > 0 && x == m * q + r && r < m
    ensures x / m == q && x % m == r
  {
    var d := x / m - q;
    assert x == m * (x / m) + x % m;
    assert m * d == r - x % m by { assert m * (x / m) - m * q == m * d; }
    NonzeroMultiple(m, d);
  }

  lemma NonzeroMultiple(m: int, d: int)
    requires m > 0
    ensures d >= 1 ==> m * d >= m
    ensures d <= -1 ==> m * d <= -m
  {
  }

  lemma BlockCovers(n: nat, lo: nat, j: nat)
    requires lo >= 1 && Block(n, lo) && j < 12
    ensures n % (lo + 2 * j) != 0
  {
  }

  lemma {:induction false} BlocksCover(n: nat, lo: nat, count: nat, j: nat)
    requires lo >= 1 && Blocks(n, lo, count) && j < 12 * count
    ensures n % (lo + 2 * j) != 0
    decreases count
  {
    if j < 12 {
      BlockCovers(n, lo, j);
    } else {
      BlocksCover(n, lo + 24, count - 1, j - 12);
    }
  }

  lemma NoSmallDivisor(n: nat, count: nat, d: nat)
    requires n % 2 != 0 && Blocks(n, 3, count) && 2 <= d < 3 + 24 * count
    ensures n % d != 0
  {
    if d % 2 == 0 {
      if n % d == 0 { FactorDivides(n, d, 2); }
    } else {
      BlocksCover(n, 3, count, (d - 3) / 2);
      assert d == 3 + 2 * ((d - 3) / 2);
    }
  }

  lemma Cofactor(n: nat, d: nat, bound: nat)
    requires 2 <= d < n && n % d == 0 && bound * bound > n && d >= bound
    ensures 2 <= n / d < bound && n % (n / d) == 0
  {
    var q := n / d;
    assert n == d * q;
    ProductOrder(d, q, bound);
    MultipleMod(d, q);
  }

  lemma ProductOrder(d: nat, q: nat, bound: nat)
    requires 2 <= d < d * q < bound * bound && d >= bound
    ensures 2 <= q < bound
  {
    ProductMonotone(bound, bound, d, q);
    ProductMonotone(d, q, d, 1);
  }

  lemma ProductMonotone(a: nat, b: nat, c: nat, d: nat)
    ensures a <= c && b <= d ==> a * b <= c * d
  {
    if a <= c && b <= d {
      assert a * b <= c * b;
      assert c * b <= c * d;
    }
  }

  lemma TrialDivision(n: nat, count: nat)
    requires n >= 2 && n % 2 != 0 && Blocks(n, 3, count)
    requires (3 + 24 * count) * (3 + 24 * count) > n
    ensures IsPrime(n)
  {
    forall d | 2 <= d < n ensures n % d != 0 {
      if n % d == 0 {
        if d >= 3 + 24 * count {
          Cofactor(n, d, 3 + 24 * count);
          NoSmallDivisor(n, count, n / d);
        } else {
          NoSmallDivisor(n, count, d);
        }
      }
    }
  }

  // ----- Strides modulo a prime -----

  /** A prime divides no product of two smaller positive numbers (Euclid's lemma, by descent on a). */
  lemma {:induction false} PrimeDividesNoProduct(p: nat, a: nat, b: nat)
    requires IsPrime(p) && 0 < a < p && 0 < b < p
    ensures (a * b) % p != 0
    decreases a
  {
    if a == 1 {
      assert a * b == b;
    } else {
      assert p % a != 0;
      PrimeDividesNoProduct(p, p % a, b);
      if (a * b) % p == 0 { RemainderProduct(p, a, b); }
    }
  }

  lemma RemainderProduct(p: nat, a: nat, b: nat)
    requires 0 < a && 0 < p && (a * b) % p == 0
    ensures ((p % a) * b) % p == 0
  {
    var q, m := p / a, (a * b) / p;
    assert p % a == p - q * a && a * b == m * p;
    calc {
      (p % a) * b;
      (p - q * a) * b;
      p * b - q * (a * b);
      p * b - q * (m * p);
      (b - q * m) * p;
    }
    MultipleMod(b - q * m, p);
  }

  lemma SameResidue(a: int, b: int, m: nat)
    requires m > 0
    ensures a % m == b % m <==> (b - a) % m == 0
  {
    var qa, qb := a / m, b / m;
    assert a == m * qa + a % m && b == m * qb + b % m;
    assert b - a == m * (qb - qa) + (b % m - a % m) by { assert m * qb - m * qa == m * (qb - qa); }
    if a % m == b % m {
      ModUnique(b - a, m, qb - qa, 0);
    } else if b % m > a % m {
      ModUnique(b - a, m, qb - qa, b % m - a % m);
    } else {
      assert m * (qb - qa) == m * (qb - qa - 1) + m;
      ModUnique(b - a, m, qb - qa - 1, m + b % m - a % m);
    }
  }

  /** Steps of a nonzero stride from any start are pairwise different modulo a prime. */
  lemma StrideIsInjective(p: nat, c: int, h: nat, i: nat, j: nat)
    requires IsPrime(p) && 0 < h < p && i < j < p
    ensures (c + i * h) % p != (c + j * h) % p
  {
    PrimeDividesNoProduct(p, j - i, h);
    assert (c + j * h) - (c + i * h) == (j - i) * h;
    SameResidue(c + i * h, c + j * h, p);
  }

  // ----- Pigeonhole, on sequences of slot numbers -----

  ghost predicate Distinct<T>(s: seq<T>) {
    forall i, j :: 0 <= i < j < |s| ==> s[i] != s[j]
  }

  ghost predicate Covers(s: seq<nat>, n: nat) {
    forall x :: 0 <= x < n ==> x in s
  }

  lemma {:induction false} DistinctSize<T>(s: seq<T>)
    ensures |set x | x in s| <= |s|
    ensures |set x | x in s| == |s| <==> Distinct(s)
  {
    if s == [] {
      assert (set x | x in s) == {};
    } else {
      var last, rest := s[|s| - 1], s[..|s| - 1];
      assert s == rest + [last];
      DistinctSize(rest);
      assert (set x | x in s) == (set x | x in rest) + {last};
      if last in rest {
        assert (set x | x in s) == (set x | x in rest);
      } else {
        assert Distinct(rest) ==> Distinct(s);
      }
      assert Distinct(s) ==> Distinct(rest) && last !in rest;
    }
  }

  ghost function Range(n: nat): (r: set<nat>)
    ensures |r| == n && forall x: nat :: x in r <==> x < n
  {
    if n == 0 then {} else Range(n - 1) + {n - 1}
  }

  lemma SubsetSize<T>(a: set<T>, b: set<T>)
    requires a <= b
    ensures |a| <= |b| && (|a| == |b| ==> a == b)
  {
    assert |b| == |a| + |b - a| by { assert b == a + (b - a); }
    if |b - a| == 0 { assert b - a == {}; }
  }

  /** n slot numbers below n cover all slots exactly when no slot is repeated. */
  lemma CoverIffDistinct(s: seq<nat>, n: nat)
    requires |s| == n && forall i :: 0 <= i < n ==> s[i] < n
    ensures Covers(s, n) <==> Distinct(s)
  {
    var hit, all := (set x | x in s), Range(n);
    DistinctSize(s);
    SubsetSize(hit, all);
    if Covers(s, n) { assert hit == all; }
    if Distinct(s) {
      assert hit == all;
      forall x | 0 <= x < n ensures x in s { assert x in all; }
    }
  }
}
