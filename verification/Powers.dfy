/** Powers of two and remainders, apart from the 64-bit arithmetic. */
module Powers {

  const PERIOD: nat := 0x1_0000_0000_0000_0000

  function Power(i: nat): (p: nat)
    ensures p > 0
  {
    if i == 0 then 1 else 2 * Power(i - 1)
  }

  lemma {:induction false} PowerSum(i: nat, j: nat)
    ensures Power(i + j) == Power(i) * Power(j)
  {
    if j > 0 {
      PowerSum(i, j - 1);
      Doubles(Power(i), Power(j - 1));
    }
  }

  lemma Doubles(x: nat, y: nat)
    ensures x * (2 * y) == 2 * (x * y)
  {
  }

  lemma PowerIsPeriod()
    ensures Power(64) == PERIOD
  {
    assert Power(1) == 2;
    PowerSum(1, 1);
    PowerSum(2, 2);
    PowerSum(4, 4);
    PowerSum(8, 8);
    PowerSum(16, 16);
    PowerSum(32, 32);
  }

  lemma Multiple(d: nat, q: nat)
    requires d > 0
    ensures d * q % d == 0
  {
    var k, r := d * q / d, d * q % d;
    assert d * q == d * k + r;
    Apart(d, k, q);
    Apart(d, q, k);
  }

  lemma Apart(d: nat, k: nat, q: nat)
    ensures k < q ==> d * k + d <= d * q
  {
    if k < q { assert d * q == d * k + d + d * (q - k - 1); }
  }

  lemma DoubledRemainder(j: nat, p: nat)
    requires p > 0
    ensures (j + j) % (2 * p) == 0 <==> j % p == 0
  {
    if j % p == 0 {
      assert j + j == (2 * p) * (j / p);
      Multiple(2 * p, j / p);
    }
    if (j + j) % (2 * p) == 0 {
      var q := (j + j) / (2 * p);
      assert j == p * q;
      Multiple(p, q);
    }
  }

  lemma OddRemainder(k: nat, p: nat)
    requires p > 0 && k % 2 == 1
    ensures k % (2 * p) != 0
  {
    var q := k / (2 * p);
    assert k == 2 * (p * q) + k % (2 * p);
  }

  lemma DivisionIsMonotone(a: nat, b: nat, d: nat)
    requires a <= b && d > 0
    ensures a / d <= b / d
  {
    Apart(d, b / d, a / d);
  }

  lemma DivisionSplits(a: nat, d: nat)
    requires d > 0
    ensures a == a / d * d + a % d && a % d < d
  {
  }

  lemma QuotientBelow(i: nat, n: nat, d: nat)
    requires d > 0 && i < n * d
    ensures i / d < n
  {
  }

  lemma QuotientIs(a: nat, d: nat, q: nat)
    requires d > 0 && q * d <= a < q * d + d
    ensures a / d == q && a % d == a - q * d
  {
    DivisionSplits(a, d);
    Apart(d, a / d, q);
    Apart(d, q, a / d);
  }
}
