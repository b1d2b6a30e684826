/** 64-bit machine integers and powers of two. */
module Words {

  const TWO_63 := 0x8000_0000_0000_0000
  const TWO_64 := 0x1_0000_0000_0000_0000

  predicate IsInt64(x: int) {
    -TWO_63 <= x < TWO_63
  }

  /** Two's-complement wrap-around of an int64 result. */
  function Wrap(x: int): (r: int)
    ensures IsInt64(r)
    ensures IsInt64(x) ==> r == x
  {
    (x + TWO_63) % TWO_64 - TWO_63
  }

  function Pow2(n: nat): (p: nat)
    ensures p >= 1
  {
    if n == 0 then 1 else 2 * Pow2(n - 1)
  }

  lemma {:induction false} Pow2Sum(a: nat, b: nat)
    ensures Pow2(a + b) == Pow2(a) * Pow2(b)
    decreases b
  {
    if b > 0 {
      Pow2Sum(a, b - 1);
    }
  }

  lemma {:induction false} Pow2Monotone(a: nat, b: nat)
    requires a <= b
    ensures Pow2(a) <= Pow2(b)
    decreases b
  {
    if a < b {
      Pow2Monotone(a, b - 1);
    }
  }

  lemma Pow2Of16()
    ensures Pow2(16) == 0x1_0000
  {
    assert Pow2(4) == 16;
    Pow2Sum(4, 4);
    Pow2Sum(8, 8);
  }

  lemma Pow2Of64()
    ensures Pow2(64) == TWO_64
  {
    Pow2Of16();
    Pow2Sum(16, 16);
    Pow2Sum(32, 32);
  }

  lemma Pow2Of30()
    ensures Pow2(30) == 0x4000_0000
  {
    assert Pow2(10) == 1024;
    Pow2Sum(10, 10);
    Pow2Sum(20, 10);
  }

  lemma WrapDiffers(x: int) returns (m: int)
    ensures x == Wrap(x) + m * TWO_64
  {
    m := (x + TWO_63) / TWO_64;
  }

  lemma MultiplesVanish(x: int, m: int)
    ensures (x + m * TWO_64) % TWO_64 == x % TWO_64
  {
  }

  lemma SameResidueSameWrap(x: int, y: int, m: int)
    requires x == y + m * TWO_64
    ensures Wrap(x) == Wrap(y)
  {
    MultiplesVanish(y + TWO_63, m);
  }

  lemma Distribute(a: int, m: int, k: int)
    ensures (a + m * TWO_64) * k == a * k + (m * k) * TWO_64
  {
  }

  /** A wrap between two products is invisible behind the last one. */
  lemma WrapOfProduct(x: int, k: int)
    ensures Wrap(Wrap(x) * k) == Wrap(x * k)
  {
    var m := WrapDiffers(x);
    Distribute(Wrap(x), m, k);
    SameResidueSameWrap(x * k, Wrap(x) * k, m * k);
  }
}
