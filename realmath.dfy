/** Exact arithmetic the moment table is written in: integer powers of reals,
    factorials, double factorials, binomial coefficients, rising products
    and binomial expansions. */
module RealMath {

  /** x^n for a natural exponent, with x^0 = 1 (also for x = 0, as in Python). */
  function Pow(x: real, n: nat): real
  {
    if n == 0 then 1.0 else x * Pow(x, n - 1)
  }

  /** a × b as a function: proofs that regroup long products state their
      steps over Times, which the verifier matches by congruence. */
  function Times(a: real, b: real): real
  {
    a * b
  }

  /** Division, as a named operation for statements that divide by a
      quantity known to be nonzero. */
  function Ratio(a: real, b: real): real
    requires b != 0.0
  {
    a / b
  }

  // Arithmetic steps over Times, stated as lemmas so that the proofs below
  // can use them one at a time; they say nothing about the engine.

  lemma TimesRearrange(p: real, q: real, r: real, s: real)
    ensures Times(Times(p, q), Times(r, s)) == Times(Times(p, r), Times(q, s))
  {
  }

  lemma TimesDistributes(a: real, b: real, c: real)
    ensures Times(a + b, c) == Times(a, c) + Times(b, c)
  {
  }

  lemma {:induction false} PowAdd(x: real, a: nat, b: nat)
    ensures Pow(x, a + b) == Times(Pow(x, a), Pow(x, b))
  {
    if a > 0 {
      PowAdd(x, a - 1, b);
      assert Pow(x, a + b) == x * Pow(x, (a - 1) + b);
    }
  }

  lemma {:induction false} PowOfZero(n: nat)
    ensures Pow(0.0, n) == if n == 0 then 1.0 else 0.0
  {
  }

  lemma {:induction false} PowNonzero(x: real, n: nat)
    requires x != 0.0
    ensures Pow(x, n) != 0.0
  {
    if n > 0 {
      PowNonzero(x, n - 1);
    }
  }

  function Factorial(n: nat): nat
  {
    if n == 0 then 1 else n * Factorial(n - 1)
  }

  /** n!! = n (n-2) (n-4) ..., with n!! = 1 for n <= 0 (so (-1)!! = 1, as
      sympy's factorial2 gives). */
  function DoubleFactorial(n: int): nat
    decreases if n < 0 then 0 else n
  {
    if n <= 0 then 1 else n * DoubleFactorial(n - 2)
  }

  /** Binomial coefficient C(n, k) by Pascal's rule; 0 when k > n. */
  function Binomial(n: nat, k: nat): nat
  {
    if k == 0 then 1
    else if n == 0 then 0
    else Binomial(n - 1, k - 1) + Binomial(n - 1, k)
  }

  lemma {:induction false} BinomialPositive(n: nat, k: nat)
    requires k <= n
    ensures Binomial(n, k) > 0
  {
    if k > 0 {
      BinomialPositive(n - 1, k - 1);
    }
  }

  lemma {:induction false} BinomialAbove(n: nat, k: nat)
    requires k > n
    ensures Binomial(n, k) == 0
  {
    if n > 0 {
      BinomialAbove(n - 1, k - 1);
      BinomialAbove(n - 1, k);
    }
  }

  lemma {:induction false} BinomialTop(n: nat)
    ensures Binomial(n, n) == 1
  {
    if n > 0 {
      BinomialTop(n - 1);
      BinomialAbove(n - 1, n);
    }
  }

  /** The j-th factor b + j of a rising product. */
  function Shift(b: real, j: nat): real
  {
    b + j as real
  }

  /** The rising product b (b+1) ... (b+k-1). */
  function Rising(b: real, k: nat): real
  {
    if k == 0 then 1.0 else Rising(b, k - 1) * Shift(b, k - 1)
  }

  /** A rising product vanishes exactly when one of its factors does. */
  lemma {:induction false} RisingZero(b: real, k: nat)
    ensures Rising(b, k) == 0.0 <==> exists j: nat :: j < k && Shift(b, j) == 0.0
  {
    if k > 0 {
      RisingZero(b, k - 1);
      if Rising(b, k) == 0.0 {
        if Rising(b, k - 1) != 0.0 {
          assert Shift(b, k - 1) == 0.0;
        }
      }
    }
  }

  /** Once a rising product is zero it stays zero. */
  lemma RisingZeroPersists(b: real, k: nat, m: nat)
    requires k <= m && Rising(b, k) == 0.0
    ensures Rising(b, m) == 0.0
  {
    RisingZero(b, k);
    RisingZero(b, m);
  }

  /** Σ_{j = i..m} C(m, j) t^j A(m - j): the binomial expansion of
      E[(t + X)^m] given A(k) = E[X^k], from index i on. */
  function BinomialSum(m: nat, t: real, A: nat -> real, i: nat): real
    decreases m + 1 - i
  {
    if i > m then 0.0 else A(m - i) * (Binomial(m, i) as real * Pow(t, i)) + BinomialSum(m, t, A, i + 1)
  }

  /** The expansions of orders 1 to 4 written out. */
  lemma BinomialSumOne(t: real, A: nat -> real)
    ensures BinomialSum(1, t, A, 0) == A(1) + t * A(0)
  {
    assert Binomial(1, 0) == 1 && Binomial(1, 1) == 1;
    assert BinomialSum(1, t, A, 2) == 0.0;
  }

  lemma BinomialSumTwo(t: real, A: nat -> real)
    ensures BinomialSum(2, t, A, 0) == A(2) + 2.0 * t * A(1) + t * t * A(0)
  {
    SmallBinomials();
    SmallPowers(t);
    assert BinomialSum(2, t, A, 3) == 0.0;
    assert BinomialSum(2, t, A, 2) == A(0) * Pow(t, 2);
  }

  lemma BinomialSumThree(t: real, A: nat -> real)
    ensures BinomialSum(3, t, A, 0) == A(3) + 3.0 * t * A(2) + 3.0 * t * t * A(1) + t * t * t * A(0)
  {
    SmallBinomials();
    SmallPowers(t);
    var p2, p3 := Pow(t, 2), Pow(t, 3);
    assert BinomialSum(3, t, A, 4) == 0.0;
    assert BinomialSum(3, t, A, 3) == A(0) * p3;
    assert BinomialSum(3, t, A, 2) == A(1) * (3.0 * p2) + A(0) * p3;
    assert BinomialSum(3, t, A, 1) == A(2) * (3.0 * t) + A(1) * (3.0 * p2) + A(0) * p3;
  }

  lemma BinomialSumFour(t: real, A: nat -> real)
    ensures BinomialSum(4, t, A, 0)
         == A(4) + 4.0 * t * A(3) + 6.0 * Pow(t, 2) * A(2) + 4.0 * Pow(t, 3) * A(1) + Pow(t, 4) * A(0)
  {
    BinomialSumFourHead(t, A);
    BinomialSumFourTail(t, A);
  }

  /** The first two terms of the expansion of order 4. */
  lemma BinomialSumFourHead(t: real, A: nat -> real)
    ensures BinomialSum(4, t, A, 0) == A(4) + A(3) * (4.0 * t) + BinomialSum(4, t, A, 2)
  {
    assert Binomial(4, 0) == 1 && Binomial(4, 1) == 4;
    assert Pow(t, 0) == 1.0 && Pow(t, 1) == t;
  }

  /** The last three terms of the expansion of order 4. */
  lemma BinomialSumFourTail(t: real, A: nat -> real)
    ensures BinomialSum(4, t, A, 2) == A(2) * (6.0 * Pow(t, 2)) + A(1) * (4.0 * Pow(t, 3)) + A(0) * Pow(t, 4)
  {
    SmallBinomials();
    var p3, p4 := Pow(t, 3), Pow(t, 4);
    assert BinomialSum(4, t, A, 5) == 0.0;
    assert BinomialSum(4, t, A, 4) == A(0) * p4;
    assert BinomialSum(4, t, A, 3) == A(1) * (4.0 * p3) + A(0) * p4;
  }

  lemma SmallBinomials()
    ensures Binomial(2, 0) == 1 && Binomial(2, 1) == 2 && Binomial(2, 2) == 1
    ensures Binomial(3, 0) == 1 && Binomial(3, 1) == 3 && Binomial(3, 2) == 3 && Binomial(3, 3) == 1
    ensures Binomial(4, 0) == 1 && Binomial(4, 1) == 4 && Binomial(4, 2) == 6 && Binomial(4, 3) == 4 && Binomial(4, 4) == 1
  {
  }

  lemma SmallPowers(t: real)
    ensures Pow(t, 0) == 1.0 && Pow(t, 1) == t && Pow(t, 2) == t * t
    ensures Pow(t, 3) == t * t * t && Pow(t, 4) == t * t * t * t
  {
  }

  lemma SquareIs(x: real)
    ensures Pow(x, 2) == x * x
  {
    SmallPowers(x);
  }

  lemma CubeIs(x: real)
    ensures Pow(x, 3) == x * x * x
  {
    SmallPowers(x);
  }

  lemma ScaledSquareNonzero(b: real, s: real, v: real)
    requires b != 0.0 && s != 0.0 && v == b * (s * s)
    ensures v != 0.0
  {
    assert v / b == s * s;
    assert v / b / s == s;
  }

  /** The powers of orders 3 and 4 split into lower ones. */
  lemma PowSplits(x: real)
    ensures Pow(x, 1) == x && Pow(x, 3) == Times(x, Pow(x, 2))
    ensures Pow(x, 4) == Times(Pow(x, 2), Pow(x, 2)) && Pow(x, 4) == Times(x, Pow(x, 3))
  {
    SmallPowers(x);
  }

  /** A power of a product is the product of the powers. */
  lemma {:induction false} PowOfProduct(a: real, b: real, n: nat)
    ensures Pow(Times(a, b), n) == Times(Pow(a, n), Pow(b, n))
  {
    if n > 0 {
      PowOfProduct(a, b, n - 1);
      TimesRearrange(a, b, Pow(a, n - 1), Pow(b, n - 1));
    }
  }

  // More arithmetic steps over Times and Ratio for the closed-form proofs;
  // they say nothing about the engine.

  lemma TimesSwap(a: real, b: real, c: real)
    ensures Times(Times(a, b), c) == Times(Times(a, c), b)
  {
  }

  lemma TimesRotate(a: real, b: real, c: real, d: real)
    ensures Times(a, Times(b, Times(c, d))) == Times(Times(a, Times(b, d)), c)
  {
  }

  lemma TimesSubtracts(a: real, b: real, c: real)
    ensures Times(a, b) - Times(a, c) == Times(a, b - c)
  {
  }

  /** Multiplying a quotient by its divisor gives back the dividend. */
  lemma RatioCancels(a: real, d: real)
    requires d != 0.0
    ensures Times(Ratio(a, d), d) == a
  {
  }

  lemma SquareOfSquare(s: real)
    ensures Pow(Pow(s, 2), 2) == Pow(s, 4)
  {
    SmallPowers(s);
    SmallPowers(Pow(s, 2));
  }

  /** The fourth power vanishes only at zero. */
  lemma PowFourZero(s: real)
    ensures Pow(s, 4) == 0.0 <==> s == 0.0
  {
    SmallPowers(s);
    if s != 0.0 {
      assert s * s > 0.0;
      assert s * s * s * s == (s * s) * (s * s);
    }
  }
}
