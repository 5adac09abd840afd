/**
 Integers through IEEE 754 binary64: encoding/json reads a JSON number into an
 interface{} as a float64 (roundTiesToEven), and "%.0f" prints the result exactly.
 Exponents are unbounded here, which int64 inputs never notice.
 */
module Float64 {
  const P53: nat := 0x20_0000_0000_0000

  function Abs(n: int): nat { if n < 0 then -n else n }

  function Pow2(e: nat): (p: nat)
    ensures p >= 1
  {
    if e == 0 then 1 else 2 * Pow2(e - 1)
  }

  // n is m * 2^e for a significand m of at most 53 bits.
  predicate HasForm(n: int, m: nat, e: nat) {
    m < P53 && Abs(n) == m * Pow2(e)
  }

  ghost predicate Representable(n: int) {
    exists m: nat, e: nat :: HasForm(n, m, e)
  }

  // The weight of the last kept bit is 2^UlpExp(n): the least that leaves 53 bits.
  function UlpExp(n: nat): (e: nat)
    ensures n / Pow2(e) < P53
    ensures e > 0 ==> n / Pow2(e) >= P53 / 2
  {
    if n < P53 then 0
    else
      DivTwice(n, Pow2(UlpExp(n / 2)));
      UlpExp(n / 2) + 1
  }

  // n rounded to a multiple of p, ties to an even multiple.
  function RoundTo(n: nat, p: nat): nat
    requires p > 0
  {
    var q, r := n / p, n % p;
    (if 2 * r > p || (2 * r == p && q % 2 == 1) then q + 1 else q) * p
  }

  // roundTiesToEven, section 4.3.1 of IEEE 754
  function Round(n: int): int {
    var a: int := RoundTo(Abs(n), Pow2(UlpExp(Abs(n))));
    if n < 0 then -a else a
  }

  lemma MulOrder(a: int, b: int, p: nat)
    requires a <= b
    ensures a * p <= b * p
  {}

  lemma DivUnique(n: int, d: int, q: int, r: int)
    requires d > 0 && n == q * d + r && 0 <= r < d
    ensures n / d == q && n % d == r
  {
    var q', r' := n / d, n % d;
    assert n == q' * d + r';
    if q' < q {
      MulOrder(q' + 1, q, d);
    } else if q' > q {
      MulOrder(q + 1, q', d);
    }
  }

  lemma DivTwice(n: nat, p: nat)
    requires p > 0
    ensures n / (2 * p) == n / 2 / p
  {
    var q, r := n / 2 / p, n / 2 % p;
    assert n / 2 == q * p + r;
    assert n == q * (2 * p) + (2 * r + n % 2);
    DivUnique(n, 2 * p, q, 2 * r + n % 2);
  }

  lemma Pow2Add(i: nat, j: nat)
    ensures Pow2(i + j) == Pow2(i) * Pow2(j)
  {
    if i > 0 {
      Pow2Add(i - 1, j);
      assert Pow2(i) * Pow2(j) == 2 * (Pow2(i - 1) * Pow2(j));
    }
  }

  // The distance RoundTo moves n.
  function Slack(n: nat, p: nat): nat
    requires p > 0
  {
    if 2 * (n % p) > p then p - n % p else n % p
  }

  lemma RoundToError(n: nat, p: nat)
    requires p > 0
    ensures Abs(RoundTo(n, p) - n) == Slack(n, p)
    ensures 2 * (n % p) == p ==> exists h: nat :: RoundTo(n, p) == 2 * h * p
  {
    var q, r := n / p, n % p;
    assert n == q * p + r;
    assert (q + 1) * p == q * p + p;
    if 2 * r == p {
      var h := (q + 1) / 2;
      assert RoundTo(n, p) == 2 * h * p;
    }
  }

  // Nothing on the grid of multiples of p is closer.
  lemma NearestOnGrid(n: nat, j: nat, p: nat)
    requires p > 0
    ensures Abs(j * p - n) >= Slack(n, p)
  {
    var q, r := n / p, n % p;
    assert n == q * p + r;
    if j <= q {
      MulOrder(j, q, p);
    } else {
      MulOrder(q + 1, j, p);
      assert (q + 1) * p == q * p + p;
    }
  }

  lemma SlackBelow(n: nat, p: nat)
    requires p > 0
    ensures Slack(n, p) + n / p * p <= n
  {
    assert n == n / p * p + n % p;
  }

  // A 53-bit significand on a finer grid stays at or below q * p.
  lemma BelowBinade(m: nat, w: nat, q: nat, p: nat)
    requires m < P53 && q >= P53 / 2
    requires 2 * w <= p
    ensures m * w <= q * p
  {
    MulOrder(m, P53, w);
    MulOrder(P53 / 2, q, p);
  }

  lemma NearestCoarse(n: nat, m: nat, e: nat, u: nat)
    requires e >= u
    ensures Abs(m * Pow2(e) - n) >= Slack(n, Pow2(u))
  {
    var p, c := Pow2(u), Pow2(e - u);
    Pow2Add(e - u, u);
    MulAssoc(m, c, p);
    NearestOnGrid(n, m * c, p);
  }

  lemma MulAssoc(a: int, b: int, c: int)
    ensures a * (b * c) == (a * b) * c
  {}

  lemma Pow2Half(e: nat, u: nat)
    requires e < u
    ensures 2 * Pow2(e) <= Pow2(u)
  {
    if e + 1 < u {
      Pow2Half(e, u - 1);
    }
  }

  lemma NearestNat(n: nat, m: nat, e: nat)
    requires m < P53
    ensures Abs(m * Pow2(e) - n) >= Slack(n, Pow2(UlpExp(n)))
  {
    var u := UlpExp(n);
    if e >= u {
      NearestCoarse(n, m, e, u);
    } else {
      Pow2Half(e, u);
      BelowBinade(m, Pow2(e), n / Pow2(u), Pow2(u));
      SlackBelow(n, Pow2(u));
    }
  }

  lemma RoundRepresentable(n: int)
    ensures Representable(Round(n))
  {
    var a, u := Abs(n), UlpExp(Abs(n));
    var p := Pow2(u);
    var q := if RoundTo(a, p) == (a / p + 1) * p then a / p + 1 else a / p;
    assert RoundTo(a, p) == q * p;
    if q < P53 {
      assert HasForm(Round(n), q, u);
    } else {
      assert q * p == P53 / 2 * (2 * p);
      assert HasForm(Round(n), P53 / 2, u + 1);
    }
  }

  // Round is the rounding IEEE 754 asks for: representable, nearest, ties to even.
  lemma RoundIsNearestEven(n: int)
    ensures Representable(Round(n))
    ensures forall x: int :: Representable(x) ==> Abs(Round(n) - n) <= Abs(x - n)
    ensures var p := Pow2(UlpExp(Abs(n)));
            2 * (Abs(n) % p) == p ==> exists h: nat :: Abs(Round(n)) == 2 * h * p
  {
    RoundRepresentable(n);
    RoundToError(Abs(n), Pow2(UlpExp(Abs(n))));
    forall x: int | Representable(x)
      ensures Abs(Round(n) - n) <= Abs(x - n)
    {
      var m: nat, e: nat :| HasForm(x, m, e);
      NearestNat(Abs(n), m, e);
    }
  }

  // A number survives the trip through a float64 exactly when it is representable.
  lemma RoundExactIff(n: int)
    ensures Round(n) == n <==> Representable(n)
  {
    RoundIsNearestEven(n);
  }

  // Every integer up to 2^53 does, and 2^53 + 1 is the first positive one that does not.
  lemma SmallIntegersExact(n: int)
    ensures Abs(n) <= P53 ==> Representable(n)
    ensures n == P53 + 1 ==> !Representable(n)
  {
    if Abs(n) < P53 {
      assert HasForm(n, Abs(n), 0);
    } else if Abs(n) == P53 {
      assert HasForm(n, P53 / 2, 1);
    } else if n == P53 + 1 {
      assert UlpExp(n / 2) == 0;
      RoundExactIff(n);
    }
  }
}
