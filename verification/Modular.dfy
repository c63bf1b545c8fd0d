/** Facts about remainders that the ring buffer and the batches need. */
module Modular {
  lemma ProductAtLeast(c: nat, d: nat)
    requires d >= 1
    ensures c * d >= c
  {
  }

  lemma SameDivision(c: nat, q: int, r: nat, q': int, r': nat)
    requires c * q + r == c * q' + r' && r < c && r' < c
    ensures q == q' && r == r'
  {
    assert c * (q - q') == c * q - c * q' && c * (q' - q) == c * q' - c * q;
    if q > q' {
      ProductAtLeast(c, q - q');
    } else if q < q' {
      ProductAtLeast(c, q' - q);
    }
  }

  /** Remainder and quotient of a number given as a multiple and a rest. */
  lemma RemainderOf(c: nat, q: nat, r: nat)
    requires r < c
    ensures (c * q + r) % c == r && (c * q + r) / c == q
  {
    var x := c * q + r;
    assert x == c * (x / c) + x % c;
    SameDivision(c, q, r, x / c, x % c);
  }

  /** Advancing an index around the ring follows the count it stands for. */
  lemma RemainderNext(x: nat, c: nat)
    requires c > 0
    ensures (x % c + 1) % c == (x + 1) % c
  {
    var q, r := x / c, x % c;
    assert x == c * q + r;
    if r + 1 < c {
      RemainderOf(c, q, r + 1);
      RemainderOf(c, 0, r + 1);
    } else {
      assert c * (q + 1) == c * q + c;
      RemainderOf(c, q + 1, 0);
      RemainderOf(c, 1, 0);
    }
  }

  /** Counts less than a full turn apart have different places in the ring. */
  lemma DifferentRemainders(x: nat, y: nat, c: nat)
    requires x < y < x + c
    ensures x % c != y % c
  {
    if x % c == y % c {
      var q, q' := x / c, y / c;
      assert x == c * q + x % c && y == c * q' + y % c;
      assert c * (q' - q) == c * q' - c * q;
      if q' > q {
        ProductAtLeast(c, q' - q);
      } else {
        ProductAtMost(c, q, q');
      }
    }
  }

  lemma ProductAtMost(c: nat, q: int, q': int)
    requires q' <= q
    ensures c * q' <= c * q
  {
  }

  lemma Distribute(a: nat, b: nat, k: nat)
    ensures (a + b) * k == a * k + b * k
  {
  }
}
