/** Integer division as C++ has it, and `div_round`: to the nearest integer, ties away from zero. */
module Rounding {

  function Abs(x: int): nat {
    if x < 0 then -x else x
  }

  /** Division that truncates toward zero. */
  function TruncDiv(a: int, b: int): int
    requires b != 0
  {
    var q := Abs(a) / Abs(b);
    if (a < 0) == (b < 0) then q else -q
  }

  function TruncMod(a: int, b: int): int
    requires b != 0
  {
    a - TruncDiv(a, b) * b
  }

  lemma TruncBounds(a: int, b: int)
    requires b > 0
    ensures Abs(TruncMod(a, b)) < b
    ensures a >= 0 ==> TruncMod(a, b) >= 0 && TruncDiv(a, b) >= 0
    ensures a <= 0 ==> TruncMod(a, b) <= 0 && TruncDiv(a, b) <= 0
  {
  }

  lemma MulGap(x: int, y: int, d: nat)
    requires x < y
    ensures x * d + d <= y * d
  {
    var k := y - x - 1;
    assert k * d >= 0;
    assert y * d == x * d + d + k * d;
  }

  lemma MulLe(x: int, y: int, d: nat)
    requires x <= y
    ensures x * d <= y * d
  {
  }

  /** A quotient and a remainder of the right sign and size are the truncating ones. */
  lemma TruncUnique(a: int, b: int, q: int, m: int)
    requires b > 0 && a == q * b + m && Abs(m) < b
    requires a >= 0 ==> m >= 0
    requires a <= 0 ==> m <= 0
    ensures TruncDiv(a, b) == q && TruncMod(a, b) == m
  {
    TruncBounds(a, b);
    var q' := TruncDiv(a, b);
    assert TruncMod(a, b) == a - q' * b;
    hide TruncDiv, TruncMod;
    if q < q' { MulGap(q, q', b); }
    if q' < q { MulGap(q', q, b); }
  }

  /** `div_round`, on integers of any size. */
  function Rounded(num: int, den: int): int
    requires den != 0
  {
    var half := TruncDiv(den, 2);
    if (num >= 0) == (den >= 0) then TruncDiv(num + half, den) else TruncDiv(num - half, den)
  }

  // ---- nearest, ties away ------------------------------------------------------------------

  /** The same on naturals. */
  function RoundNat(n: nat, d: nat): nat
    requires d > 0
  {
    (n + d / 2) / d
  }

  lemma RoundNatNearest(n: nat, d: nat)
    requires d > 0
    ensures var p := RoundNat(n, d) * d; 2 * (p - n) <= d && 2 * (n - p) < d
  {
  }

  lemma RoundNatUnique(n: nat, d: nat, r: int)
    requires d > 0 && 2 * (r * d - n) <= d && 2 * (n - r * d) < d
    ensures RoundNat(n, d) == r
  {
    RoundNatNearest(n, d);
    hide RoundNat;
    if r < RoundNat(n, d) { MulGap(r, RoundNat(n, d), d); }
    if RoundNat(n, d) < r { MulGap(RoundNat(n, d), r, d); }
  }

  function Signed(negative: bool, x: nat): int {
    if negative then 0 - x else x
  }

  lemma RoundedIsRoundNat(num: int, den: int)
    requires den != 0
    ensures Rounded(num, den) == Signed((num >= 0) != (den >= 0), RoundNat(Abs(num), Abs(den)))
  {
  }

  /** `r` is a nearest integer to `num / den`, and the one away from zero if there are two. */
  predicate NearestAway(num: int, den: int, r: int) {
    && 2 * Abs(num - r * den) <= Abs(den)
    && (2 * Abs(num - r * den) == Abs(den) ==> Abs(num) < Abs(r * den))
  }

  lemma SignedProduct(negative: bool, r: nat, den: int)
    ensures Signed(negative, r) * den == if negative == (den < 0) then r * Abs(den) else 0 - r * Abs(den)
  {
  }

  /** `div_round` rounds to nearest, ties away from zero, whatever the signs. */
  lemma RoundedNearest(num: int, den: int)
    requires den != 0
    ensures NearestAway(num, den, Rounded(num, den))
  {
    var n, d := Abs(num), Abs(den);
    RoundedIsRoundNat(num, den);
    RoundNatNearest(n, d);
    SignedProduct((num >= 0) != (den >= 0), RoundNat(n, d), den);
    hide Rounded, RoundNat;
    var p := RoundNat(n, d) * d;
  }

  lemma NoTwoNearest(num: int, den: int, r: int, r': int)
    requires den != 0 && NearestAway(num, den, r) && NearestAway(num, den, r')
    ensures !(r < r')
  {
    var d := Abs(den);
    SignedMultiple(r, den);
    SignedMultiple(r', den);
    var x, y := r * d, r' * d;
    Straddle(r, r', d);
    Squeezed(if den >= 0 then num else -num, d, x, y);
    if r < r' { MulGap(r, r', d); }
  }

  /** Zero does not lie strictly between multiples less than two steps apart. */
  lemma Straddle(r: int, r': int, d: nat)
    ensures r * d >= 0 || r' * d <= 0 || r * d + 2 * d <= r' * d
  {
  }

  lemma Squeezed(num: int, d: nat, x: int, y: int)
    requires d > 0 && (x >= 0 || y <= 0 || x + 2 * d <= y)
    requires 2 * Abs(num - x) <= d && 2 * Abs(num - y) <= d
    requires 2 * Abs(num - x) == d ==> Abs(num) < Abs(x)
    requires 2 * Abs(num - y) == d ==> Abs(num) < Abs(y)
    ensures x + d > y
  {
  }

  /** And nothing else does: the two conditions determine the result. */
  lemma NearestAwayUnique(num: int, den: int, r: int, r': int)
    requires den != 0 && NearestAway(num, den, r) && NearestAway(num, den, r')
    ensures r == r'
  {
    NoTwoNearest(num, den, r, r');
    NoTwoNearest(num, den, r', r);
  }

  lemma SignedMultiple(r: int, den: int)
    ensures r * den == if den >= 0 then r * Abs(den) else 0 - r * Abs(den)
  {
  }

  /** `div_round` is odd in each argument. */
  lemma RoundedOdd(num: int, den: int)
    requires den != 0
    ensures Rounded(-num, den) == -Rounded(num, den)
    ensures Rounded(num, -den) == -Rounded(num, den)
  {
    hide Rounded;
    RoundedIsRoundNat(num, den);
    RoundedIsRoundNat(-num, den);
    RoundedIsRoundNat(num, -den);
    if num == 0 { RoundNatUnique(0, Abs(den), 0); }
  }

  lemma RoundNatMonotone(m: nat, n: nat, d: nat)
    requires d > 0 && m <= n
    ensures RoundNat(m, d) <= RoundNat(n, d)
  {
    hide RoundNat;
    RoundNatNearest(m, d);
    RoundNatNearest(n, d);
    if RoundNat(m, d) > RoundNat(n, d) { MulGap(RoundNat(n, d), RoundNat(m, d), d); }
  }

  // ---- scaling up and back ---------------------------------------------------------------------

  /** Scale by big/small with rounding, then back by small/big with rounding. */
  function UpDown(a: nat, big: nat, small: nat): nat
    requires big > 0 && small > 0
  {
    RoundNat(RoundNat(a * big, small) * small, big)
  }

  /** Scaling by a factor of at least one can be undone. */
  lemma UpDownIsIdentity(a: nat, big: nat, small: nat)
    requires 0 < small <= big
    ensures UpDown(a, big, small) == a
  {
    hide RoundNat;
    var p := RoundNat(a * big, small);
    RoundNatNearest(a * big, small);
    var up, back := a * big, p * small;
    if small == big { RoundNatUnique(up, big, a); }
    RoundNatUnique(back, big, a);
  }

  /** If scaling could be undone up to `n`, the scaled values would grow at least as fast as the originals. */
  lemma {:induction false} ScaledGrows(n: nat, big: nat, small: nat)
    requires big > 0 && small > 0
    requires forall a: nat :: a <= n ==> UpDown(a, big, small) == a
    ensures RoundNat(n * big, small) >= n
  {
    hide RoundNat;
    if n > 0 {
      ScaledGrows(n - 1, big, small);
      var p, q := RoundNat((n - 1) * big, small), RoundNat(n * big, small);
      assert RoundNat(p * small, big) == n - 1 by { assert UpDown(n - 1, big, small) == n - 1; }
      assert RoundNat(q * small, big) == n by { assert UpDown(n, big, small) == n; }
      if q < p { MulGap(q, p, small); }
      if q <= p { RoundNatMonotone(q * small, p * small, big); }
    }
  }

  /** Scaling by a factor below one cannot always be undone: some value up to `small` is lost. */
  lemma UpDownLoses(big: nat, small: nat)
    requires 0 < big < small
    ensures exists a: nat :: a <= small && UpDown(a, big, small) != a
  {
    hide RoundNat, UpDown;
    RoundNatUnique(small * big, small, big);
    if forall a: nat :: a <= small ==> UpDown(a, big, small) == a {
      ScaledGrows(small, big, small);
      assert false;
    }
  }

  /** Values up to `small` stay within bounds on the way up and back. */
  lemma UpDownBounded(n: nat, big: nat, small: nat)
    requires n <= small && big > 0 && small > 0
    ensures n * big <= small * big
    ensures RoundNat(n * big, small) <= big
    ensures UpDown(n, big, small) <= small
  {
    hide RoundNat;
    var p := RoundNat(n * big, small);
    MulLe(n, small, big);
    RoundNatMonotone(n * big, small * big, small);
    RoundNatUnique(small * big, small, big);
    MulLe(p, big, small);
    RoundNatMonotone(p * small, big * small, big);
    RoundNatUnique(big * small, big, small);
  }
}
