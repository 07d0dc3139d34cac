/** The few facts about multiples that the block arithmetic needs. */
module Divisibility {

  lemma MultipleVanishes(i: nat, n: nat, m: int)
    requires i < n
    ensures (i + n * m) % n == i
  {
    var v := i + n * m;
    var d := v / n - m;
    assert n * d + v % n == i;
    MultipleGrows(n, d);
  }

  lemma MultipleGrows(n: nat, d: int)
    ensures d >= 1 ==> n * d >= n
    ensures d <= -1 ==> n * d + n <= 0
  {
  }

  lemma TailIsWhole(n: nat, bs: nat)
    requires bs > 0 && n > 0 && n % bs == 0
    ensures n >= bs && (n - bs) % bs == 0
  {
    var m := n / bs;
    assert n - bs == bs * (m - 1);
    MultipleVanishes(0, bs, m - 1);
  }

  lemma SumIsWhole(m: nat, n: nat, bs: nat)
    requires bs > 0 && m % bs == 0 && n % bs == 0
    ensures (m + n) % bs == 0
  {
    assert m + n == bs * (m / bs + n / bs);
    MultipleVanishes(0, bs, m / bs + n / bs);
  }

  lemma NextBlockFits(i: nat, n: nat, bs: nat)
    requires bs > 0 && i < n / bs
    ensures i * bs + bs <= n && (i + 1) * bs == i * bs + bs
  {
    assert (i + 1) * bs <= n / bs * bs <= n;
  }

  lemma WholeQuotient(n: nat, bs: nat)
    requires bs > 0 && n % bs == 0
    ensures n / bs * bs == n
  {
  }
}
