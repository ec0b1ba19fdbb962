// Indices i, i + k, i + 2k, ... of thread i among k.
module Strides {

  lemma Multiple(q: int, k: nat)
    requires 0 < k
    ensures q <= 0 ==> k * q <= 0
    ensures q > 0 ==> k * q >= k
  {
  }

  lemma Monotone(a: nat, b: nat, k: nat)
    requires a <= b
    ensures a * k <= b * k
  {
    assert b * k == a * k + (b - a) * k;
  }

  lemma DivisionIsUnique(k: nat, q: int, r: nat, q': int, r': nat)
    requires r < k && r' < k && k * q + r == k * q' + r'
    ensures q == q' && r == r'
  {
    Multiple(q - q', k);
    Multiple(q' - q, k);
    assert k * (q - q') == r' - r && k * (q' - q) == r - r';
  }

  lemma ModIs(x: nat, k: nat, q: nat, r: nat)
    requires r < k && x == k * q + r
    ensures x / k == q && x % k == r
  {
    DivisionIsUnique(k, x / k, x % k, q, r);
  }

  lemma NextStride(j: nat, k: nat)
    requires 0 < k
    ensures (j + k) % k == j % k
  {
    ModIs(j + k, k, j / k + 1, j % k);
  }

  // Two indices of one thread are at least a stride apart.
  lemma StrideGap(a: nat, b: nat, k: nat)
    requires 0 < k && a % k == b % k && a < b
    ensures a + k <= b
  {
    Multiple(b / k - a / k, k);
  }
}
