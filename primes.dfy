/**
 * The prime list used by the game statistics: a sieve of Eratosthenes over
 * [0, max] whose surviving indices are collected in ascending order.
 */
module Primes {

  predicate IsPrime(p: int)
  {
    p >= 2 && forall d :: 2 <= d < p ==> p % d != 0
  }

  /** The primes in [2, max], ascending. */
  function PrimesUpTo(max: int): (r: seq<int>)
    ensures forall p :: p in r <==> 2 <= p <= max && IsPrime(p)
    ensures forall i, j :: 0 <= i < j < |r| ==> r[i] < r[j]
    ensures forall i :: 0 <= i < |r| ==> r[i] <= max
    decreases max
  {
    if max < 2 then []
    else PrimesUpTo(max - 1) + (if IsPrime(max) then [max] else [])
  }

  // ---------------------------------------------------------------------------
  // Arithmetic facts about divisibility

  lemma MulAtLeast(i: int, m: int)
    requires i >= 1 && m >= 1
    ensures i * m >= i
  {
    assert i * m == i * (m - 1) + i;
  }

  lemma MulAtMost(i: int, m: int)
    requires i >= 1 && m <= -1
    ensures i * m <= -i
  {
    assert i * m == i * (m + 1) - i;
  }

  /** A multiple of i strictly between -i and i is 0. */
  lemma SmallMultiple(i: int, m: int)
    requires i >= 1 && -i < i * m < i
    ensures m == 0
  {
    if m >= 1 { MulAtLeast(i, m); }
    if m <= -1 { MulAtMost(i, m); }
  }

  lemma MultipleMod(d: int, m: int)
    requires d >= 1
    ensures (d * m) % d == 0
  {
    var q, r := (d * m) / d, (d * m) % d;
    assert d * m == d * q + r;
    assert d * (m - q) == r;
    SmallMultiple(d, m - q);
  }

  lemma ModZeroMeansMultiple(x: int, d: int)
    requires d >= 1 && x % d == 0
    ensures x == d * (x / d)
  {
  }

  /** Divisibility is transitive. */
  lemma DivisorOfDivisor(x: int, i: int, d: int)
    requires d >= 1 && i >= 1 && i % d == 0 && x % i == 0
    ensures x % d == 0
  {
    var a, b := x / i, i / d;
    ModZeroMeansMultiple(x, i);
    ModZeroMeansMultiple(i, d);
    assert x == d * (b * a) by {
      calc {
        x;
        i * a;
        (d * b) * a;
        d * (b * a);
      }
    }
    MultipleMod(d, b * a);
  }

  /** Two multiples of i less than i apart are equal. */
  lemma MultiplesApart(i: int, j: int, x: int)
    requires i >= 1 && j % i == 0 && x % i == 0 && j <= x < j + i
    ensures x == j
  {
    ModZeroMeansMultiple(j, i);
    ModZeroMeansMultiple(x, i);
    assert x - j == i * (x / i - j / i);
    SmallMultiple(i, x / i - j / i);
  }

  lemma SquareMonotone(a: int, b: int)
    requires 0 <= a <= b
    ensures a * a <= b * b
  {
    assert a * a <= a * b by { MulNonNeg(a, b - a); assert a * b == a * a + a * (b - a); }
    assert a * b <= b * b by { MulNonNeg(b, b - a); assert b * b == a * b + b * (b - a); }
  }

  lemma MulNonNeg(a: int, b: int)
    requires a >= 0 && b >= 0
    ensures a * b >= 0
  {
  }

  /** A composite number has a divisor whose square does not exceed it. */
  lemma SmallDivisor(x: int, d: int) returns (e: int)
    requires 2 <= d < x && x % d == 0
    ensures 2 <= e && e * e <= x && x % e == 0
  {
    var q := x / d;
    ModZeroMeansMultiple(x, d);
    assert q >= 2 by {
      if q <= 0 { MulNonNeg(d, -q); }
    }
    assert x == q * d;
    MultipleMod(q, d);
    if d <= q {
      e := d;
      assert e * e <= x by { assert d * q == d * d + d * (q - d); MulNonNeg(d, q - d); }
    } else {
      e := q;
      assert e * e <= x by { assert q * d == q * q + q * (d - q); MulNonNeg(q, d - q); }
    }
  }

  // ---------------------------------------------------------------------------
  // The sieve

  /** x >= 2 and no d in [2, i) below x divides x: what the sieve keeps after round i. */
  ghost predicate Survives(x: int, i: int)
  {
    x >= 2 && forall d :: 2 <= d < i && d < x ==> x % d != 0
  }

  /** Once i * i exceeds x, surviving means being prime. */
  lemma SurvivorIsPrime(x: int, i: int)
    requires 2 <= i && x < i * i
    ensures Survives(x, i) <==> IsPrime(x)
  {
    if x >= 2 && !IsPrime(x) {
      var d :| 2 <= d < x && x % d == 0;
      var e := SmallDivisor(x, d);
      if e >= i { SquareMonotone(i, e); }
      assert e * e == 2 * e + e * (e - 2);
      MulNonNeg(e, e - 2);
      assert 2 <= e < i && e < x && x % e == 0;
    }
  }

  /** Crossing out the multiples of a survivor i from i * i on leaves the survivors of round i + 1. */
  lemma CrossOutPrime(x: int, i: int)
    requires i >= 2 && Survives(i, i)
    ensures Survives(x, i + 1) <==> Survives(x, i) && !(x % i == 0 && i * i <= x)
  {
    if Survives(x, i) && x % i == 0 && i < x {
      var q := x / i;
      ModZeroMeansMultiple(x, i);
      assert q >= 2 by { if q <= 0 { MulNonNeg(i, -q); } }
      MultipleMod(q, i);
      assert x == q * i && q < x;
      assert q >= i;
      assert i * q == i * i + i * (q - i);
      MulNonNeg(i, q - i);
    }
    if x % i == 0 && i * i <= x {
      assert i * i == 2 * i + i * (i - 2);
      MulNonNeg(i, i - 2);
    }
  }

  /** A composite i crosses out nothing new. */
  lemma SkipComposite(x: int, i: int)
    requires i >= 2 && !Survives(i, i)
    ensures Survives(x, i + 1) <==> Survives(x, i)
  {
    if i < x && x % i == 0 {
      var d :| 2 <= d < i && i % d == 0;
      DivisorOfDivisor(x, i, d);
      assert 2 <= d < i && d < x && x % d == 0;
    }
  }

  /** The inner loop of the sieve: cross out i * i, i * i + i, ... up to the end. */
  method CrossOut(sieve: array<bool>, i: int)
    requires 2 <= i
    modifies sieve
    ensures forall x :: 0 <= x < sieve.Length ==>
      (sieve[x] <==> old(sieve[x]) && !(x % i == 0 && i * i <= x))
  {
    var j := i * i;
    MultipleMod(i, i);
    while j < sieve.Length
      invariant i * i <= j && j % i == 0
      invariant forall x :: 0 <= x < sieve.Length ==>
        (sieve[x] <==> old(sieve[x]) && !(x % i == 0 && i * i <= x < j))
      decreases sieve.Length - j
    {
      sieve[j] := false;
      forall x | 0 <= x < sieve.Length && x % i == 0 && j <= x < j + i
        ensures x == j
      {
        MultiplesApart(i, j, x);
      }
      MultipleMod(i, j / i + 1);
      assert j + i == i * (j / i + 1);
      j := j + i;
    }
  }

  /** generatePrimes: the primes in [2, max], in ascending order. */
  method GeneratePrimes(max: nat) returns (primes: seq<int>)
    ensures primes == PrimesUpTo(max)
  {
    var sieve := new bool[max + 1](_ => true);
    sieve[0] := false;
    if max >= 1 { sieve[1] := false; }
    var i := 2;
    while i * i <= max
      invariant 2 <= i
      invariant forall x :: 0 <= x <= max ==> (sieve[x] <==> Survives(x, i))
      decreases max + 1 - i
    {
      MulAtLeast(i, i);
      if sieve[i] {
        CrossOut(sieve, i);
        forall x | 0 <= x <= max
          ensures sieve[x] <==> Survives(x, i + 1)
        {
          CrossOutPrime(x, i);
        }
      } else {
        forall x | 0 <= x <= max
          ensures sieve[x] <==> Survives(x, i + 1)
        {
          SkipComposite(x, i);
        }
      }
      i := i + 1;
    }
    primes := [];
    var x := 0;
    while x <= max
      invariant 0 <= x <= max + 1
      invariant primes == PrimesUpTo(x - 1)
      invariant forall y :: 0 <= y <= max ==> (sieve[y] <==> Survives(y, i))
    {
      SurvivorIsPrime(x, i);
      assert sieve[x] <==> IsPrime(x);
      if sieve[x] {
        primes := primes + [x];
      }
      x := x + 1;
    }
  }

  // ---------------------------------------------------------------------------
  // The prime list of the Quina universe

  /** Trial division by d, d + 1, ... while the square does not exceed p. */
  function NoDivisorFrom(p: nat, d: nat): bool
    requires d >= 2
    decreases p + 1 - d
  {
    d * d > p || (p % d != 0 && NoDivisorFrom(p, d + 1))
  }

  /** Trial division from d decides primality of a number that survived round d. */
  lemma {:induction false} NoDivisorFromSound(p: nat, d: nat)
    requires 2 <= d && Survives(p, d)
    ensures NoDivisorFrom(p, d) <==> IsPrime(p)
    decreases p + 1 - d
  {
    if d * d > p {
      SurvivorIsPrime(p, d);
    } else {
      assert d * d == 2 * d + d * (d - 2);
      MulNonNeg(d, d - 2);
      if p % d != 0 {
        NoDivisorFromSound(p, d + 1);
      }
    }
  }

  /** The primes in [2, max] by trial division: evaluable on literals. */
  function TrialPrimes(max: int): seq<int>
    decreases max
  {
    if max < 2 then []
    else TrialPrimes(max - 1) + (if NoDivisorFrom(max, 2) then [max] else [])
  }

  lemma {:induction false} TrialPrimesCorrect(max: int)
    ensures TrialPrimes(max) == PrimesUpTo(max)
    decreases max
  {
    if max >= 2 {
      TrialPrimesCorrect(max - 1);
      NoDivisorFromSound(max, 2);
    }
  }

  lemma TrialPrimesUpTo10()
    ensures TrialPrimes(10) == [2, 3, 5, 7]
  {
  }

  lemma TrialPrimesUpTo20()
    ensures TrialPrimes(20) == [2, 3, 5, 7, 11, 13, 17, 19]
  {
    TrialPrimesUpTo10();
    assert NoDivisorFrom(11, 2) && TrialPrimes(11) == TrialPrimes(10) + [11];
    assert 12 % 2 == 0 && TrialPrimes(12) == TrialPrimes(11);
    assert NoDivisorFrom(13, 2) && TrialPrimes(13) == TrialPrimes(12) + [13];
    assert 14 % 2 == 0 && TrialPrimes(14) == TrialPrimes(13);
    assert 15 % 3 == 0 && TrialPrimes(15) == TrialPrimes(14);
    assert 16 % 2 == 0 && TrialPrimes(16) == TrialPrimes(15);
    assert NoDivisorFrom(17, 2) && TrialPrimes(17) == TrialPrimes(16) + [17];
    assert 18 % 2 == 0 && TrialPrimes(18) == TrialPrimes(17);
    assert NoDivisorFrom(19, 2) && TrialPrimes(19) == TrialPrimes(18) + [19];
    assert 20 % 2 == 0 && TrialPrimes(20) == TrialPrimes(19);
  }

  lemma TrialPrimesUpTo30()
    ensures TrialPrimes(30) == [2, 3, 5, 7, 11, 13, 17, 19, 23, 29]
  {
    TrialPrimesUpTo20();
    assert 21 % 3 == 0 && TrialPrimes(21) == TrialPrimes(20);
    assert 22 % 2 == 0 && TrialPrimes(22) == TrialPrimes(21);
    assert NoDivisorFrom(23, 2) && TrialPrimes(23) == TrialPrimes(22) + [23];
    assert 24 % 2 == 0 && TrialPrimes(24) == TrialPrimes(23);
    assert 25 % 5 == 0 && TrialPrimes(25) == TrialPrimes(24);
    assert 26 % 2 == 0 && TrialPrimes(26) == TrialPrimes(25);
    assert 27 % 3 == 0 && TrialPrimes(27) == TrialPrimes(26);
    assert 28 % 2 == 0 && TrialPrimes(28) == TrialPrimes(27);
    assert NoDivisorFrom(29, 2) && TrialPrimes(29) == TrialPrimes(28) + [29];
    assert 30 % 2 == 0 && TrialPrimes(30) == TrialPrimes(29);
  }

  lemma TrialPrimesUpTo40()
    ensures TrialPrimes(40) == [2, 3, 5, 7, 11, 13, 17, 19, 23, 29, 31, 37]
  {
    TrialPrimesUpTo30();
    assert NoDivisorFrom(31, 2) && TrialPrimes(31) == TrialPrimes(30) + [31];
    assert 32 % 2 == 0 && TrialPrimes(32) == TrialPrimes(31);
    assert 33 % 3 == 0 && TrialPrimes(33) == TrialPrimes(32);
    assert 34 % 2 == 0 && TrialPrimes(34) == TrialPrimes(33);
    assert 35 % 5 == 0 && TrialPrimes(35) == TrialPrimes(34);
    assert 36 % 2 == 0 && TrialPrimes(36) == TrialPrimes(35);
    assert NoDivisorFrom(37, 2) && TrialPrimes(37) == TrialPrimes(36) + [37];
    assert 38 % 2 == 0 && TrialPrimes(38) == TrialPrimes(37);
    assert 39 % 3 == 0 && TrialPrimes(39) == TrialPrimes(38);
    assert 40 % 2 == 0 && TrialPrimes(40) == TrialPrimes(39);
  }

  lemma TrialPrimesUpTo45()
    ensures TrialPrimes(45) == [2, 3, 5, 7, 11, 13, 17, 19, 23, 29, 31, 37, 41, 43]
  {
    TrialPrimesUpTo40();
    assert NoDivisorFrom(41, 2) && TrialPrimes(41) == TrialPrimes(40) + [41];
    assert 42 % 2 == 0 && TrialPrimes(42) == TrialPrimes(41);
    assert NoDivisorFrom(43, 2) && TrialPrimes(43) == TrialPrimes(42) + [43];
    assert 44 % 2 == 0 && TrialPrimes(44) == TrialPrimes(43);
    assert 45 % 3 == 0 && TrialPrimes(45) == TrialPrimes(44);
  }

  lemma TrialPrimesUpTo50()
    ensures TrialPrimes(50) == [2, 3, 5, 7, 11, 13, 17, 19, 23, 29, 31, 37, 41, 43, 47]
  {
    TrialPrimesUpTo45();
    assert 46 % 2 == 0 && TrialPrimes(46) == TrialPrimes(45);
    assert NoDivisorFrom(47, 2) && TrialPrimes(47) == TrialPrimes(46) + [47];
    assert 48 % 2 == 0 && TrialPrimes(48) == TrialPrimes(47);
    assert 49 % 7 == 0 && TrialPrimes(49) == TrialPrimes(48);
    assert 50 % 2 == 0 && TrialPrimes(50) == TrialPrimes(49);
  }

  lemma TrialPrimesUpTo55()
    ensures TrialPrimes(55) == [2, 3, 5, 7, 11, 13, 17, 19, 23, 29, 31, 37, 41, 43, 47, 53]
  {
    TrialPrimesUpTo50();
    assert 51 % 3 == 0 && TrialPrimes(51) == TrialPrimes(50);
    assert 52 % 2 == 0 && TrialPrimes(52) == TrialPrimes(51);
    assert NoDivisorFrom(53, 2) && TrialPrimes(53) == TrialPrimes(52) + [53];
    assert 54 % 2 == 0 && TrialPrimes(54) == TrialPrimes(53);
    assert 55 % 5 == 0 && TrialPrimes(55) == TrialPrimes(54);
  }

  lemma TrialPrimesUpTo60()
    ensures TrialPrimes(60) == [2, 3, 5, 7, 11, 13, 17, 19, 23, 29, 31, 37, 41, 43, 47, 53, 59]
  {
    TrialPrimesUpTo55();
    assert 56 % 2 == 0 && TrialPrimes(56) == TrialPrimes(55);
    assert 57 % 3 == 0 && TrialPrimes(57) == TrialPrimes(56);
    assert 58 % 2 == 0 && TrialPrimes(58) == TrialPrimes(57);
    assert NoDivisorFrom(59, 2) && TrialPrimes(59) == TrialPrimes(58) + [59];
    assert 60 % 2 == 0 && TrialPrimes(60) == TrialPrimes(59);
  }

  lemma TrialPrimesUpTo65()
    ensures TrialPrimes(65) == [2, 3, 5, 7, 11, 13, 17, 19, 23, 29, 31, 37, 41, 43, 47, 53, 59, 61]
  {
    TrialPrimesUpTo60();
    assert NoDivisorFrom(61, 2) && TrialPrimes(61) == TrialPrimes(60) + [61];
    assert 62 % 2 == 0 && TrialPrimes(62) == TrialPrimes(61);
    assert 63 % 3 == 0 && TrialPrimes(63) == TrialPrimes(62);
    assert 64 % 2 == 0 && TrialPrimes(64) == TrialPrimes(63);
    assert 65 % 5 == 0 && TrialPrimes(65) == TrialPrimes(64);
  }

  lemma TrialPrimesUpTo70()
    ensures TrialPrimes(70) == [2, 3, 5, 7, 11, 13, 17, 19, 23, 29, 31, 37, 41, 43, 47, 53, 59, 61, 67]
  {
    TrialPrimesUpTo65();
    assert 66 % 2 == 0 && TrialPrimes(66) == TrialPrimes(65);
    assert NoDivisorFrom(67, 2) && TrialPrimes(67) == TrialPrimes(66) + [67];
    assert 68 % 2 == 0 && TrialPrimes(68) == TrialPrimes(67);
    assert 69 % 3 == 0 && TrialPrimes(69) == TrialPrimes(68);
    assert 70 % 2 == 0 && TrialPrimes(70) == TrialPrimes(69);
  }

  lemma TrialPrimesUpTo75()
    ensures TrialPrimes(75) == [2, 3, 5, 7, 11, 13, 17, 19, 23, 29, 31, 37, 41, 43, 47, 53, 59, 61, 67, 71, 73]
  {
    TrialPrimesUpTo70();
    assert NoDivisorFrom(71, 2) && TrialPrimes(71) == TrialPrimes(70) + [71];
    assert 72 % 2 == 0 && TrialPrimes(72) == TrialPrimes(71);
    assert NoDivisorFrom(73, 2) && TrialPrimes(73) == TrialPrimes(72) + [73];
    assert 74 % 2 == 0 && TrialPrimes(74) == TrialPrimes(73);
    assert 75 % 3 == 0 && TrialPrimes(75) == TrialPrimes(74);
  }

  lemma TrialPrimesUpTo80()
    ensures TrialPrimes(80) == [2, 3, 5, 7, 11, 13, 17, 19, 23, 29, 31, 37, 41, 43, 47, 53, 59, 61, 67, 71, 73, 79]
  {
    TrialPrimesUpTo75();
    assert 76 % 2 == 0 && TrialPrimes(76) == TrialPrimes(75);
    assert 77 % 7 == 0 && TrialPrimes(77) == TrialPrimes(76);
    assert 78 % 2 == 0 && TrialPrimes(78) == TrialPrimes(77);
    assert NoDivisorFrom(79, 2) && TrialPrimes(79) == TrialPrimes(78) + [79];
    assert 80 % 2 == 0 && TrialPrimes(80) == TrialPrimes(79);
  }

  /** The primes up to 80 are the fixed list of the prime-count statistics table. */
  lemma QuinaPrimes()
    ensures PrimesUpTo(80) == [2, 3, 5, 7, 11, 13, 17, 19, 23, 29, 31, 37, 41, 43, 47, 53, 59, 61, 67, 71, 73, 79]
  {
    TrialPrimesCorrect(80);
    TrialPrimesUpTo80();
  }
}
