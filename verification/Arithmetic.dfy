/** Products: the few facts about multiplication that the other modules need. */
module Arithmetic {
  lemma NonNegative(x: nat, y: nat)
    ensures x * y >= 0
  {
  }

  lemma Distribute(x: int, y: int, m: int)
    ensures (x + y) * m == x * m + y * m
    ensures (x - y) * m == x * m - y * m
  {
  }

  lemma Below(x: int, y: int, m: nat)
    requires x < y
    ensures x * m + m <= y * m
  {
    NonNegative(y - x - 1, m);
    assert (y - x - 1) * m == y * m - x * m - m;
  }

  lemma AtMost(x: int, y: int, m: nat)
    requires x <= y
    ensures x * m <= y * m
  {
    NonNegative(y - x, m);
    Distribute(y, x, m);
  }
}
