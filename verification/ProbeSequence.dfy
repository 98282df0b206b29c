/**
 The probe sequence of the completer table: table sizes, the stride hash, and which keys' probes reach
 every slot. Keys are 64-bit words and the probe position is computed modulo 2^64 before it is reduced
 modulo the table size.
 */
module ProbeSequence {
  import opened Primes

  const TWO64: int := 0x1_0000_0000_0000_0000
  type Word = x: int | 0 <= x < TWO64

  /** The sizes a table can have, smallest first. */
  const TABLE_SIZES: seq<nat> :=
    [53, 97, 193, 389, 769, 1543, 3079, 6151, 12289, 24593, 49157, 98317, 196613]

  predicate TableSize(n: nat) {
    n in TABLE_SIZES
  }

  lemma TableSizesArePrime(n: nat)
    requires TableSize(n)
    ensures IsPrime(n) && TWO64 % n != 0 && 53 <= n <= 196613
  {
    assert TABLE_SIZES == [53, 97, 193, 389, 769] + [1543, 3079, 6151, 12289, 24593] + [49157, 98317, 196613];
    if n in [53, 97, 193, 389, 769] {
      SmallSizesArePrime(n);
    } else if n in [1543, 3079, 6151, 12289, 24593] {
      MiddleSizesArePrime(n);
    } else {
      LargeSizesArePrime(n);
    }
  }

  lemma SmallSizesArePrime(n: nat)
    requires n in [53, 97, 193, 389, 769]
    ensures IsPrime(n) && TWO64 % n != 0
  {
    TrialSmall();
    TrialDivision(n, if n == 769 then 2 else 1);
  }

  lemma TrialSmall()
    ensures Blocks(53, 3, 1) && Blocks(97, 3, 1) && Blocks(193, 3, 1) && Blocks(389, 3, 1) && Blocks(769, 3, 2)
  {
  }

  lemma MiddleSizesArePrime(n: nat)
    requires n in [1543, 3079, 6151, 12289, 24593]
    ensures IsPrime(n) && TWO64 % n != 0
  {
    TrialMiddle();
    Trial24593();
    TrialDivision(n, if n == 1543 then 2 else if n == 3079 then 3 else if n == 6151 then 4
                     else if n == 12289 then 5 else 7);
  }

  lemma TrialMiddle()
    ensures Blocks(1543, 3, 2) && Blocks(3079, 3, 3) && Blocks(6151, 3, 4) && Blocks(12289, 3, 5)
  {
  }

  lemma Trial24593()
    ensures Blocks(24593, 3, 7)
  {
  }

  lemma LargeSizesArePrime(n: nat)
    requires n in [49157, 98317, 196613]
    ensures IsPrime(n) && TWO64 % n != 0
  {
    Trial49157();
    Trial98317();
    Trial196613Low();
    Trial196613High();
    if n == 196613 { BlocksJoin(n, 3, 10, 9); }
    TrialDivision(n, if n == 49157 then 10 else if n == 98317 then 13 else 19);
  }

  lemma Trial49157()
    ensures Blocks(49157, 3, 10)
  {
  }

  lemma Trial98317()
    ensures Blocks(98317, 3, 13)
  {
  }

  lemma Trial196613Low()
    ensures Blocks(196613, 3, 10)
  {
  }

  lemma Trial196613High()
    ensures Blocks(196613, 243, 9)
  {
  }

  /** Any function from keys to words can hash the keys; the source uses SplitMix64. */
  type Hash = Word -> Word

  function SplitMix64(key: Word): Word { Mixed(key as bv64) as int }

  function Mixed(x: bv64): bv64 { Shift31(Factor2(Shift27(Factor1(Shift30(x))))) }

  function Shift30(x: bv64): bv64 { x ^ (x >> 30) }
  function Factor1(x: bv64): bv64 { x * 0xbf58476d1ce4e5b9 }
  function Shift27(x: bv64): bv64 { x ^ (x >> 27) }
  function Factor2(x: bv64): bv64 { x * 0x94d049bb133111eb }
  function Shift31(x: bv64): bv64 { x ^ (x >> 31) }

  /** The way back: the shifts undone, and the inverses of the two factors modulo 2^64. */
  function Unmixed(x: bv64): bv64 { Undo30(UndoFactor1(Undo27(UndoFactor2(Undo31(x))))) }

  function Undo31(x: bv64): bv64 { x ^ (x >> 31) ^ (x >> 62) }
  function UndoFactor2(x: bv64): bv64 { x * 0x319642b2d24d8ec3 }
  function Undo27(x: bv64): bv64 { x ^ (x >> 27) ^ (x >> 54) }
  function UndoFactor1(x: bv64): bv64 { x * 0x96de1b173f119089 }
  function Undo30(x: bv64): bv64 { x ^ (x >> 30) ^ (x >> 60) }

  lemma Undo30Unfolds(x: bv64)
    ensures Shift30(Undo30(x)) == Shift30(x ^ (x >> 30) ^ (x >> 60))
  {
  }

  lemma Shift30Inverts(x: bv64)
    ensures Shift30(x ^ (x >> 30) ^ (x >> 60)) == x
  {
  }

  lemma Shift30Undone(x: bv64)
    ensures Shift30(Undo30(x)) == x
  {
    hide Shift30, Undo30;
    Undo30Unfolds(x);
    Shift30Inverts(x);
  }

  lemma Undo27Unfolds(x: bv64)
    ensures Shift27(Undo27(x)) == Shift27(x ^ (x >> 27) ^ (x >> 54))
  {
  }

  lemma Shift27Inverts(x: bv64)
    ensures Shift27(x ^ (x >> 27) ^ (x >> 54)) == x
  {
  }

  lemma Shift27Undone(x: bv64)
    ensures Shift27(Undo27(x)) == x
  {
    hide Shift27, Undo27;
    Undo27Unfolds(x);
    Shift27Inverts(x);
  }

  lemma Undo31Unfolds(x: bv64)
    ensures Shift31(Undo31(x)) == Shift31(x ^ (x >> 31) ^ (x >> 62))
  {
  }

  lemma Shift31Inverts(x: bv64)
    ensures Shift31(x ^ (x >> 31) ^ (x >> 62)) == x
  {
  }

  lemma Shift31Undone(x: bv64)
    ensures Shift31(Undo31(x)) == x
  {
    hide Shift31, Undo31;
    Undo31Unfolds(x);
    Shift31Inverts(x);
  }

  lemma UndoFactor1Unfolds(x: bv64)
    ensures Factor1(UndoFactor1(x)) == Factor1(x * 0x96de1b173f119089)
  {
  }

  lemma Factor1Inverts(x: bv64)
    ensures Factor1(x * 0x96de1b173f119089) == x
  {
  }

  lemma Factor1Undone(x: bv64)
    ensures Factor1(UndoFactor1(x)) == x
  {
    hide Factor1, UndoFactor1;
    UndoFactor1Unfolds(x);
    Factor1Inverts(x);
  }

  lemma UndoFactor2Unfolds(x: bv64)
    ensures Factor2(UndoFactor2(x)) == Factor2(x * 0x319642b2d24d8ec3)
  {
  }

  lemma Factor2Inverts(x: bv64)
    ensures Factor2(x * 0x319642b2d24d8ec3) == x
  {
  }

  lemma Factor2Undone(x: bv64)
    ensures Factor2(UndoFactor2(x)) == x
  {
    hide Factor2, UndoFactor2;
    UndoFactor2Unfolds(x);
    Factor2Inverts(x);
  }

  /** Every word is the hash of some key, and so, as there are as many keys as words, of exactly one. */
  lemma HashIsReversible(x: bv64)
    ensures SplitMix64(Unmixed(x) as int) == x as int
  {
    hide Shift30, Factor1, Shift27, Factor2, Shift31, Undo31, UndoFactor2, Undo27, UndoFactor1, Undo30;
    var y1 := Undo31(x);
    var y2 := UndoFactor2(y1);
    var y3 := Undo27(y2);
    Shift31Undone(x);
    Factor2Undone(y1);
    Shift27Undone(y2);
    Factor1Undone(y3);
    Shift30Undone(UndoFactor1(y3));
    assert Mixed(Unmixed(x)) == x;
    hide Mixed, Unmixed;
  }

  function Stride(hash: Hash, key: Word, n: nat): (h: nat)
    requires n >= 2
    ensures 1 <= h < n
  {
    hash(key) % (n - 1) + 1
  }

  /** The second hash really varies: over all keys, strides are spread like the words are modulo n - 1. */
  lemma StridesAreSpread(x: bv64, n: nat)
    requires n >= 2
    ensures Stride(SplitMix64, Unmixed(x) as int, n) == x as int % (n - 1) + 1
  {
    HashIsReversible(x);
  }

  /** The slot of the i-th probe of a key whose stride is h; the sum wraps around at 2^64. */
  function Probe(key: Word, h: nat, i: nat, n: nat): (slot: nat)
    requires n >= 2
    ensures slot < n
  {
    (key + i * h) % TWO64 % n
  }

  /** The slots of the first `count` probes, in order. */
  function ProbesFor(key: Word, h: nat, n: nat, count: nat): (path: seq<nat>)
    requires n >= 2
    ensures |path| == count && forall i :: 0 <= i < count ==> path[i] < n
  {
    if count == 0 then [] else ProbesFor(key, h, n, count - 1) + [Probe(key, h, count - 1, n)]
  }

  lemma {:induction false} ProbeAt(key: Word, h: nat, n: nat, count: nat, i: nat)
    requires n >= 2 && i < count
    ensures ProbesFor(key, h, n, count)[i] == Probe(key, h, i, n)
  {
    if i < count - 1 { ProbeAt(key, h, n, count - 1, i); }
  }

  function Path(hash: Hash, key: Word, n: nat): (path: seq<nat>)
    requires n >= 2
    ensures |path| == n && forall i :: 0 <= i < n ==> path[i] < n
  {
    ProbesFor(key, Stride(hash, key, n), n, n)
  }

  lemma PathAt(hash: Hash, key: Word, n: nat, i: nat)
    requires n >= 2 && i < n
    ensures Path(hash, key, n)[i] == Probe(key, Stride(hash, key, n), i, n)
  {
    ProbeAt(key, Stride(hash, key, n), n, n, i);
  }

  /** A small key is probed first at the slot of its own number. */
  lemma HomeSlot(hash: Hash, key: Word, n: nat)
    requires n >= 2 && key < n
    ensures Path(hash, key, n)[0] == key
  {
    PathAt(hash, key, n, 0);
    assert key + 0 * Stride(hash, key, n) == key;
    ModUnique(key, TWO64, 0, key);
    ModUnique(key, n, 0, key);
  }

  /** No probe of this key passes 2^64. */
  predicate NoWrap(key: Word, h: nat, n: nat) {
    key + (n - 1) * h < TWO64
  }

  lemma StepBound(i: nat, h: nat, n: nat)
    requires i < n && h < n <= 196613
    ensures i * h <= (n - 1) * h < TWO64
  {
    ProductMonotone(i, h, n - 1, h);
    ProductMonotone(n - 1, h, 196613, 196613);
  }

  /** The value reduced modulo n in a probe: the sum, less 2^64 if the sum passed it. */
  function Position(key: Word, h: nat, i: nat): (x: int) {
    var sum := key + i * h;
    if sum < TWO64 then sum else sum - TWO64
  }

  lemma WrapOnce(x: nat)
    requires x < TWO64 + TWO64
    ensures x % TWO64 == if x < TWO64 then x else x - TWO64
  {
  }

  lemma ProbeValue(key: Word, h: nat, i: nat, n: nat)
    requires i < n && h < n && 2 <= n <= 196613
    ensures Probe(key, h, i, n) == Position(key, h, i) % n
  {
    StepBound(i, h, n);
    WrapOnce(key + i * h);
  }

  lemma UnwrappedProbesAreDistinct(key: Word, h: nat, n: nat)
    requires IsPrime(n) && n <= 196613 && 0 < h < n && NoWrap(key, h, n)
    ensures Distinct(ProbesFor(key, h, n, n))
  {
    var path := ProbesFor(key, h, n, n);
    forall i, j | 0 <= i < j < n ensures path[i] != path[j] {
      ProbeAt(key, h, n, n, i);
      ProbeAt(key, h, n, n, j);
      StepBound(i, h, n);
      StepBound(j, h, n);
      ProbeValue(key, h, i, n);
      ProbeValue(key, h, j, n);
      StrideIsInjective(n, key, h, i, j);
    }
  }

  function Multiple(i: nat, h: nat, n: nat): nat
    requires n > 0
  {
    (i * h) % n
  }

  lemma MultiplesDiffer(i: nat, j: nat, h: nat, n: nat)
    requires IsPrime(n) && 0 < h < n && i < j < n
    ensures Multiple(i, h, n) != Multiple(j, h, n)
  {
    StrideIsInjective(n, 0, h, i, j);
  }

  /** The multiples of a stride modulo a prime are pairwise different. */
  lemma Multiples(h: nat, n: nat) returns (m: seq<nat>)
    requires IsPrime(n) && 0 < h < n
    ensures |m| == n && Distinct(m)
    ensures forall i :: 0 <= i < n ==> 0 <= m[i] < n && m[i] == Multiple(i, h, n)
  {
    m := seq(n, i requires 0 <= i < n => Multiple(i, h, n));
    hide Multiple, IsPrime;
    forall i, j | 0 <= i < j < n ensures m[i] != m[j] {
      MultiplesDiffer(i, j, h, n);
    }
    forall i | 0 <= i < n ensures m[i] < n {
      MultipleIsSmall(i, h, n);
    }
  }

  lemma MultipleIsSmall(i: nat, h: nat, n: nat)
    requires n > 0
    ensures Multiple(i, h, n) < n && Multiple(0, h, n) == 0
  {
    assert 0 * h == 0;
  }

  /** Every residue but 0 is reached by some positive number of strides. */
  lemma StridesTo(r: nat, h: nat, n: nat) returns (d: nat)
    requires IsPrime(n) && 0 < h < n && 0 < r < n
    ensures 0 < d < n && (d * h) % n == r
  {
    var multiples := Multiples(h, n);
    MultipleIsSmall(0, h, n);
    CoverIffDistinct(multiples, n);
    assert r in multiples;
    d :| 0 <= d < n && multiples[d] == r;
  }

  /** The first probe that passes 2^64. */
  lemma {:induction false} FirstWrap(key: Word, h: nat, i: nat) returns (j: nat)
    requires key + i * h >= TWO64
    ensures 0 < j <= i && key + j * h >= TWO64 && key + (j - 1) * h < TWO64
  {
    assert i != 0;
    if key + (i - 1) * h < TWO64 {
      j := i;
    } else {
      j := FirstWrap(key, h, i - 1);
    }
  }

  /** Two probes, one before the wrap and one from it on, whose distance is 2^64 modulo n. */
  lemma ProbesAcrossWrap(key: Word, h: nat, n: nat) returns (a: nat, d: nat)
    requires IsPrime(n) && 0 < h < n && TWO64 % n != 0 && !NoWrap(key, h, n)
    ensures 0 < d && a + d < n && (d * h) % n == TWO64 % n
    ensures key + a * h < TWO64 <= key + (a + d) * h
  {
    d := StridesTo(TWO64 % n, h, n);
    var j := FirstWrap(key, h, n - 1);
    a := if d >= j then 0 else j - d;
    ProductMonotone(a, h, j - 1, h);
    ProductMonotone(j, h, a + d, h);
  }

  lemma SamePosition(key: Word, h: nat, n: nat, a: nat, d: nat)
    requires n > 0 && (d * h) % n == TWO64 % n && key + a * h < TWO64 <= key + (a + d) * h
    ensures Position(key, h, a) % n == Position(key, h, a + d) % n
  {
    var x, y := Position(key, h, a), Position(key, h, a + d);
    assert x - y == TWO64 - d * h by { assert (a + d) * h == a * h + d * h; }
    SameResidue(d * h, TWO64, n);
    SameResidue(y, x, n);
  }

  lemma WrappedProbesCollide(key: Word, h: nat, n: nat)
    requires IsPrime(n) && n <= 196613 && 0 < h < n && TWO64 % n != 0
    requires !NoWrap(key, h, n)
    ensures !Distinct(ProbesFor(key, h, n, n))
  {
    var a, d := ProbesAcrossWrap(key, h, n);
    SamePosition(key, h, n, a, d);
    ProbeValue(key, h, a, n);
    ProbeValue(key, h, a + d, n);
    hide NoWrap, Position, Probe, IsPrime;
    ProbeAt(key, h, n, n, a);
    ProbeAt(key, h, n, n, a + d);
  }

  /** The exact condition for a probe sequence to reach every slot: it does not wrap around. */
  lemma ProbesCoverIffNoWrap(key: Word, h: nat, n: nat)
    requires TableSize(n) && 0 < h < n
    ensures Covers(ProbesFor(key, h, n, n), n) <==> NoWrap(key, h, n)
    ensures Distinct(ProbesFor(key, h, n, n)) <==> NoWrap(key, h, n)
  {
    TableSizesArePrime(n);
    CoverIffDistinct(ProbesFor(key, h, n, n), n);
    if NoWrap(key, h, n) {
      UnwrappedProbesAreDistinct(key, h, n);
    } else {
      WrappedProbesCollide(key, h, n);
    }
  }
}
