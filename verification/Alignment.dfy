/** Rounding to multiples of an alignment, as QEMU_ALIGN_DOWN and QEMU_ALIGN_UP do. */
module Alignment {

  function AlignDown(x: nat, u: nat): (r: nat)
    requires u > 0
    ensures r <= x < r + u && r % u == 0
  {
    Euclid(x, u);
    x / u * u
  }

  function AlignUp(x: nat, u: nat): (r: nat)
    requires u > 0
    ensures x <= r < x + u && r % u == 0
  {
    AlignDown(x + (u - 1), u)
  }

  lemma Euclid(x: nat, u: nat)
    requires u > 0
    ensures 0 <= x / u * u <= x < x / u * u + u && (x / u * u) % u == 0
  {
  }

  lemma MulBounds(d: int, u: nat)
    ensures d >= 1 ==> d * u >= u
    ensures d <= -1 ==> d * u <= 0 - u
  {
  }

  lemma MultipleMod(k: nat, u: nat)
    requires u > 0
    ensures (k * u) % u == 0
  {
    var r, q := (k * u) % u, (k * u) / u;
    assert k * u == q * u + r;
    assert (k - q) * u == r;
    MulBounds(k - q, u);
  }

  lemma AlignedQuotient(a: nat, u: nat)
    requires u > 0 && a % u == 0
    ensures a == a / u * u
  {
  }

  /** Two multiples of `u` are equal or at least `u` apart. */
  lemma AlignedGap(a: nat, b: nat, u: nat)
    requires u > 0 && a % u == 0 && b % u == 0 && a < b
    ensures a + u <= b
  {
    AlignedQuotient(a, u);
    AlignedQuotient(b, u);
    var d := b / u - a / u;
    assert b - a == d * u;
    MulBounds(d, u);
  }

  /** The multiple of `u` within `u` below `x` is its AlignDown. */
  lemma AlignDownUnique(x: nat, a: nat, u: nat)
    requires u > 0 && a % u == 0 && a <= x < a + u
    ensures AlignDown(x, u) == a
  {
    var b := AlignDown(x, u);
    if a < b { AlignedGap(a, b, u); }
    if b < a { AlignedGap(b, a, u); }
  }

  lemma AlignedSum(a: nat, b: nat, u: nat)
    requires u > 0 && a % u == 0 && b % u == 0
    ensures (a + b) % u == 0
  {
    AlignedQuotient(a, u);
    AlignedQuotient(b, u);
    assert a + b == (a / u + b / u) * u;
    MultipleMod(a / u + b / u, u);
  }
}
