/** Powers of two and multiples of them. */
module Powers {

  function Pow2(k: nat): (r: nat)
    ensures r >= 1
  {
    if k == 0 then 1 else 2 * Pow2(k - 1)
  }

  /** The exponent of the least power of two that is at least `s`. */
  function LogUp(s: int): nat
    decreases s
  {
    if s <= 1 then 0 else 1 + LogUp((s + 1) / 2)
  }

  /** `Pow2(LogUp(s))` holds `s`, wastes less than half, and is the least power of two that does. */
  lemma {:induction false} LogUpIsLeast(s: int, k: nat)
    requires s >= 1
    ensures s <= Pow2(LogUp(s)) <= 2 * s - 1
    ensures s <= Pow2(k) <==> LogUp(s) <= k
  {
    if s > 1 {
      LogUpIsLeast((s + 1) / 2, if k == 0 then 0 else k - 1);
    }
  }

  lemma MultipleSign(x: int, r: int)
    requires r >= 1
    ensures x >= 1 ==> x * r >= r
    ensures x <= 0 ==> x * r <= 0
    ensures x <= -1 ==> x * r <= -r
  {
  }

  lemma MultipleMod(q: int, r: int)
    requires r >= 1
    ensures (q * r) % r == 0
  {
    var a, d := q * r, (q * r) / r;
    var x := q - d;
    assert a == d * r + a % r;
    assert a % r == x * r;
    MultipleSign(x, r);
  }

  /** The halves of an aligned range of 2h bytes are aligned to h. */
  lemma HalvesAligned(a: int, h: int)
    requires h >= 1
    requires a % (2 * h) == 0
    ensures a % h == 0 && (a + h) % h == 0
  {
    var q := a / (2 * h);
    assert a == (2 * q) * h;
    assert a + h == (2 * q + 1) * h;
    MultipleMod(2 * q, h);
    MultipleMod(2 * q + 1, h);
  }

  lemma {:induction false} AlignedToSmaller(a: int, j: nat, k: nat)
    requires j <= k
    requires a % Pow2(k) == 0
    ensures a % Pow2(j) == 0
  {
    if j < k {
      HalvesAligned(a, Pow2(k - 1));
      AlignedToSmaller(a, j, k - 1);
    }
  }

  /** Between two multiples of r there is room for r. */
  lemma MultiplesApart(a: int, b: int, r: int)
    requires r >= 1
    requires a % r == 0 && b % r == 0 && a < b
    ensures a + r <= b
  {
    var x := b / r - a / r;
    assert a == (a / r) * r && b == (b / r) * r;
    assert b - a == x * r;
    MultipleSign(x, r);
  }
}
