/**
 * Fixed-point decimals: whole units and billionths, computed through 128-bit totals.
 *
 * A signed overflow and a division by zero have no defined result; operations yield `Undefined` there.
 * Narrowing a 128-bit quotient to 64 bits wraps.
 */
module Decimals {
  import opened Rounding

  const NANO: int := 1_000_000_000
  const TWO_31: int := 0x8000_0000
  const TWO_63: int := 0x8000_0000_0000_0000
  const TWO_127: int := 0x8000_0000_0000_0000_0000_0000_0000_0000

  predicate Fits32(x: int) { -TWO_31 <= x < TWO_31 }
  predicate Fits64(x: int) { -TWO_63 <= x < TWO_63 }
  predicate Fits128(x: int) { -TWO_127 <= x < TWO_127 }

  datatype Checked<+T> = Value(value: T) | Undefined

  datatype Decimal = Decimal(units: int, nano: int)

  /** What the operators leave in the fields: 64-bit units and under a billion billionths, of any signs. */
  predicate Stored(d: Decimal) {
    Fits64(d.units) && -NANO < d.nano < NANO
  }

  /** The class invariant: besides, signs that do not clash. */
  predicate Canonical(d: Decimal) {
    && Stored(d)
    && (d.units > 0 ==> d.nano >= 0) && (d.units < 0 ==> d.nano <= 0)
  }

  function Total(d: Decimal): int {
    d.units * NANO + d.nano
  }

  function Narrow64(x: int): int {
    (x + TWO_63) % (2 * TWO_63) - TWO_63
  }

  function FromTotal(t: int): Decimal {
    Decimal(Narrow64(TruncDiv(t, NANO)), TruncMod(t, NANO))
  }

  /** The total is that of some decimal. */
  predicate Representable(t: int) {
    Fits64(TruncDiv(t, NANO))
  }

  function DivRound(num: int, den: int): Checked<int> {
    if den == 0 then Undefined
    else
      var half := TruncDiv(den, 2);
      var sum := if (num >= 0) == (den >= 0) then num + half else num - half;
      if !Fits128(sum) then Undefined
      else if !Fits128(TruncDiv(sum, den)) then Undefined
      else Value(TruncDiv(sum, den))
  }

  function OfTotal(t: int): Checked<Decimal> {
    if Fits128(t) then Value(FromTotal(t)) else Undefined
  }

  function OfRounded(num: int, den: int): Checked<Decimal> {
    if !Fits128(num) then Undefined
    else match DivRound(num, den)
      case Value(t) => Value(FromTotal(t))
      case Undefined => Undefined
  }

  function Add(a: Decimal, b: Decimal): Checked<Decimal> { OfTotal(Total(a) + Total(b)) }
  function Sub(a: Decimal, b: Decimal): Checked<Decimal> { OfTotal(Total(a) - Total(b)) }
  function Neg(a: Decimal): Checked<Decimal> { OfTotal(-Total(a)) }
  function Mul(a: Decimal, b: Decimal): Checked<Decimal> { OfRounded(Total(a) * Total(b), NANO) }
  function MulInt(a: Decimal, k: int): Checked<Decimal> { OfTotal(Total(a) * k) }
  function DivInt(a: Decimal, k: int): Checked<Decimal> { OfRounded(Total(a), k) }
  function Div(a: Decimal, b: Decimal): Checked<Decimal> { OfRounded(Total(a) * NANO, Total(b)) }

  // ---- canonical form ------------------------------------------------------------------------

  /** A total becomes a canonical decimal of that total if and only if it is representable. */
  lemma FromTotalExact(t: int)
    ensures Representable(t) <==> Total(FromTotal(t)) == t
    ensures Representable(t) ==> Canonical(FromTotal(t))
  {
    TruncBounds(t, NANO);
  }

  /** No billionths, or a number of whole units that, modulo 2^64, is in the 64-bit range on its side of zero. */
  predicate StaysCanonical(t: int) {
    t % NANO == 0 || Abs(t) / NANO % (2 * TWO_63) < if t < 0 then TWO_63 + 1 else TWO_63
  }

  /** Exactly which totals become canonical: the narrowing to 64 bits wraps, and may turn the units' sign. */
  lemma FromTotalCanonicalIff(t: int)
    ensures Canonical(FromTotal(t)) <==> StaysCanonical(t)
  {
    TruncBounds(t, NANO);
    WholeIff(t);
    var q := Abs(t) / NANO;
    assert TruncDiv(t, NANO) == if t < 0 then -q else q;
    hide TruncDiv, TruncMod;
    NarrowSign(q);
  }

  /** The wrapped number keeps to its side of zero exactly if its residue is in that side's range. */
  lemma NarrowSign(q: int)
    requires q >= 0
    ensures Fits64(Narrow64(q)) && Fits64(Narrow64(-q))
    ensures Narrow64(q) >= 0 <==> q % (2 * TWO_63) < TWO_63
    ensures Narrow64(-q) <= 0 <==> q % (2 * TWO_63) <= TWO_63
  {
    var k, r := q / (2 * TWO_63), q % (2 * TWO_63);
    Residue(q + TWO_63, if r < TWO_63 then k else k + 1, if r < TWO_63 then r + TWO_63 else r - TWO_63);
    Residue(-q + TWO_63, if r <= TWO_63 then -k else -k - 1, if r <= TWO_63 then TWO_63 - r else 3 * TWO_63 - r);
  }

  lemma Residue(a: int, k: int, r: int)
    requires a == 2 * TWO_63 * k + r && 0 <= r < 2 * TWO_63
    ensures a % (2 * TWO_63) == r
  {
  }

  /** Whatever the total, its decimal is within the fields' ranges. */
  lemma FromTotalStored(t: int)
    ensures Stored(FromTotal(t))
  {
    TruncBounds(t, NANO);
  }

  lemma WholeIff(t: int)
    ensures TruncMod(t, NANO) == 0 <==> t % NANO == 0
    ensures TruncMod(t, NANO) > 0 ==> t > 0
    ensures TruncMod(t, NANO) < 0 ==> t < 0
  {
  }

  /** Canonical decimals are equal field by field exactly when their totals are; the total determines them. */
  lemma CanonicalByTotal(d: Decimal)
    requires Canonical(d)
    ensures Representable(Total(d)) && FromTotal(Total(d)) == d
  {
    TruncUnique(Total(d), NANO, d.units, d.nano);
  }

  lemma EqualIffSameTotal(a: Decimal, b: Decimal)
    requires Canonical(a) && Canonical(b)
    ensures a == b <==> Total(a) == Total(b)
  {
  }

  /** Off the invariant `==` and `<` disagree: a sum that is neither equal to, nor below, nor above a decimal. */
  lemma EqualTotalsDiffer()
    ensures var sum := Add(Decimal(TWO_63 - 1, NANO - 1), Decimal(0, 2));
      var d := Decimal(-TWO_63 + 1, -NANO + 1);
      Canonical(d) && sum.Value? && sum.value != d && Total(sum.value) == Total(d)
  {
    SumLosesInvariant();
  }

  lemma TotalBound(d: Decimal)
    requires Stored(d)
    ensures Abs(Total(d)) <= TWO_63 * NANO + NANO - 1
  {
  }

  /** `normalize`, as the constructor runs it on the fields it was given. */
  method Normalize(u: int, n: int) returns (r: Checked<Decimal>)
    requires Fits64(u) && Fits32(n)
    ensures r.Value? ==> Canonical(r.value) && Total(r.value) == u * NANO + n
    ensures r.Undefined? <==> !Representable(u * NANO + n)
  {
    var units, nano := u, n;
    TruncBounds(n, NANO);
    if nano <= -NANO || nano >= NANO {
      units := units + TruncDiv(nano, NANO);
      if !Fits64(units) {
        return Undefined;
      }
      nano := TruncMod(nano, NANO);
    }
    if units > 0 && nano < 0 {
      units := units - 1;
      nano := nano + NANO;
    } else if units < 0 && nano > 0 {
      units := units + 1;
      nano := nano - NANO;
    }
    r := Value(Decimal(units, nano));
    CanonicalByTotal(r.value);
  }

  // ---- definedness and meaning -----------------------------------------------------------------

  lemma DivRoundDefined(num: int, den: int)
    requires den != 0 && Abs(num) + Abs(den) < TWO_127
    ensures DivRound(num, den) == Value(Rounded(num, den))
  {
  }

  lemma SumsDefined(a: Decimal, b: Decimal)
    requires Stored(a) && Stored(b)
    ensures Add(a, b) == Value(FromTotal(Total(a) + Total(b)))
    ensures Sub(a, b) == Value(FromTotal(Total(a) - Total(b)))
    ensures Neg(a) == Value(FromTotal(-Total(a)))
  {
    TotalBound(a);
    TotalBound(b);
    hide Total, FromTotal, TruncDiv;
  }

  predicate StoredIfDefined(r: Checked<Decimal>) {
    r.Value? ==> Stored(r.value)
  }

  lemma RoundedIsStored(num: int, den: int)
    ensures StoredIfDefined(OfRounded(num, den)) && StoredIfDefined(OfTotal(num))
  {
    hide FromTotal, Stored;
    forall t ensures Stored(FromTotal(t)) { FromTotalStored(t); }
  }

  /** Every operator's result is within the fields' ranges, so that operators can be chained. */
  lemma ResultsAreStored(a: Decimal, b: Decimal, k: int)
    ensures StoredIfDefined(Add(a, b)) && StoredIfDefined(Sub(a, b)) && StoredIfDefined(Neg(a))
    ensures StoredIfDefined(Mul(a, b)) && StoredIfDefined(Div(a, b))
    ensures StoredIfDefined(MulInt(a, k)) && StoredIfDefined(DivInt(a, k))
  {
    hide StoredIfDefined, OfRounded, OfTotal;
    forall num, den ensures StoredIfDefined(OfRounded(num, den)) { RoundedIsStored(num, den); }
    forall t ensures StoredIfDefined(OfTotal(t)) { RoundedIsStored(t, 1); }
  }

  /** Sum, difference and negation are always defined, on whatever operators return; quotients by nonzero too. */
  lemma OnlyProductsOverflow(a: Decimal, b: Decimal)
    requires Stored(a) && Stored(b)
    ensures Add(a, b) == Value(FromTotal(Total(a) + Total(b)))
    ensures Sub(a, b) == Value(FromTotal(Total(a) - Total(b)))
    ensures Neg(a) == Value(FromTotal(-Total(a)))
    ensures Total(b) != 0 ==> Div(a, b) == Value(FromTotal(Rounded(Total(a) * NANO, Total(b))))
    ensures Total(b) == 0 ==> Div(a, b) == Undefined
  {
    SumsDefined(a, b);
    TotalBound(a);
    TotalBound(b);
    hide Total, Rounded, DivRound, TruncDiv, Add, Sub, Neg;
    if Total(b) != 0 { DivRoundDefined(Total(a) * NANO, Total(b)); }
  }

  /** A product is defined, and its exact value rounded, if and only if it is half a billion inside 128 bits. */
  lemma ProductDefined(a: Decimal, b: Decimal)
    ensures Mul(a, b) != Undefined <==>
              -TWO_127 + NANO / 2 <= Total(a) * Total(b) < TWO_127 - NANO / 2
    ensures Mul(a, b) != Undefined ==>
              Mul(a, b) == Value(FromTotal(Rounded(Total(a) * Total(b), NANO)))
  {
  }

  /** Defined, canonical, and of total `t`. */
  predicate Exactly(r: Checked<Decimal>, t: int) {
    r.Value? && Canonical(r.value) && Total(r.value) == t
  }

  /** Defined, canonical, and the rounding of `num / den`. */
  predicate Rounds(r: Checked<Decimal>, num: int, den: int) {
    r.Value? && Canonical(r.value) && NearestAway(num, den, Total(r.value))
  }

  lemma ExactlyIff(t: int)
    ensures Exactly(Value(FromTotal(t)), t) <==> Representable(t)
  {
    FromTotalExact(t);
  }

  /** Sums, differences and negations are exact and canonical if and only if the exact result is representable. */
  lemma SumsAreExact(a: Decimal, b: Decimal)
    requires Stored(a) && Stored(b)
    ensures Exactly(Add(a, b), Total(a) + Total(b)) <==> Representable(Total(a) + Total(b))
    ensures Exactly(Sub(a, b), Total(a) - Total(b)) <==> Representable(Total(a) - Total(b))
    ensures Exactly(Neg(a), -Total(a)) <==> Representable(-Total(a))
    ensures Canonical(a) ==> (Representable(-Total(a)) <==> a.units > -TWO_63)
  {
    hide Canonical, Stored, Total, FromTotal, Representable, Add, Sub, Neg, Exactly;
    if Canonical(a) { NegRepresentable(a); }
    SumsDefined(a, b);
    ExactlyIff(Total(a) + Total(b));
    ExactlyIff(Total(a) - Total(b));
    ExactlyIff(-Total(a));
  }

  lemma NegRepresentable(a: Decimal)
    requires Canonical(a)
    ensures Representable(-Total(a)) <==> a.units > -TWO_63
    ensures -Total(a) % NANO == 0 <==> a.nano == 0
    ensures Abs(Total(a)) < 2 * TWO_63 * NANO
  {
    TruncUnique(-Total(a), NANO, -a.units, -a.nano);
    WholeIff(-Total(a));
  }

  /** A rounded total is the rounding, canonical, if and only if it is representable. */
  lemma RoundsIff(num: int, den: int)
    requires den != 0
    ensures Rounds(Value(FromTotal(Rounded(num, den))), num, den) <==> Representable(Rounded(num, den))
  {
    hide FromTotal, Representable, Canonical, Rounded, NearestAway, Total;
    var t := Rounded(num, den);
    FromTotalExact(t);
    RoundedNearest(num, den);
    if Rounds(Value(FromTotal(t)), num, den) { NearestAwayUnique(num, den, t, Total(FromTotal(t))); }
  }

  /**
   * Products and quotients are canonical and correctly rounded if and only if they are defined and the rounded
   * result is representable.
   */
  lemma ProductsRound(a: Decimal, b: Decimal)
    requires Stored(a) && Stored(b)
    ensures Rounds(Div(a, b), Total(a) * NANO, Total(b)) <==> DivFits(a, b)
    ensures Rounds(Mul(a, b), Total(a) * Total(b), NANO) <==> MulFits(a, b)
  {
    hide Canonical, Total, FromTotal, Representable, Div, Mul, Rounds, Rounded;
    OnlyProductsOverflow(a, b);
    ProductDefined(a, b);
    var x, y := Total(a), Total(b);
    UndefinedRoundsNothing(x * NANO, y);
    UndefinedRoundsNothing(x * y, NANO);
    if y != 0 { RoundsIff(x * NANO, y); }
    RoundsIff(x * y, NANO);
  }

  lemma UndefinedRoundsNothing(num: int, den: int)
    ensures !Rounds(Undefined, num, den)
  {
  }

  /** By a 64-bit integer: exact products and nearest quotients exactly while they fit; undefined only by zero. */
  lemma IntegerOperands(a: Decimal, k: int)
    requires Stored(a) && Fits64(k)
    ensures MulInt(a, k).Value? <==> Fits128(Total(a) * k)
    ensures Exactly(MulInt(a, k), Total(a) * k) <==> Fits128(Total(a) * k) && Representable(Total(a) * k)
    ensures Rounds(DivInt(a, k), Total(a), k) <==> k != 0 && Representable(Rounded(Total(a), k))
    ensures DivInt(a, k).Undefined? <==> k == 0
  {
    TotalBound(a);
    var x := Total(a);
    assert !Exactly(Undefined, x * k);
    UndefinedRoundsNothing(x, k);
    hide Canonical, Total, FromTotal, Representable, Rounded, DivRound, Rounds, Exactly;
    ExactlyIff(x * k);
    assert DivRound(x, 0) == Undefined by { DivisionByZero(x); }
    if k != 0 {
      DivRoundDefined(x, k);
      RoundsIff(x, k);
    }
  }

  // ---- when the class invariant survives ---------------------------------------------------------

  predicate KeepsInvariant(r: Checked<Decimal>) {
    r.Value? && Canonical(r.value)
  }

  /** Representable, whole, or so large that the units wrap past zero. */
  predicate SumStaysCanonical(t: int) {
    Representable(t) || t % NANO == 0 || Abs(t) >= 2 * TWO_63 * NANO
  }

  lemma SumWraps(t: int)
    requires Abs(t) <= 2 * (TWO_63 * NANO + NANO - 1)
    ensures StaysCanonical(t) <==> SumStaysCanonical(t)
  {
    TruncBounds(t, NANO);
    var q, m := TruncDiv(t, NANO), TruncMod(t, NANO);
    assert t == q * NANO + m;
    hide TruncDiv, TruncMod;
  }

  /**
   * Exactly when a sum, difference or negation of decimals is canonical. Past the largest decimal
   * the units wrap to the other sign and the billionths keep theirs.
   */
  lemma SumsCanonicalIff(a: Decimal, b: Decimal)
    requires Stored(a) && Stored(b)
    ensures KeepsInvariant(Add(a, b)) <==> SumStaysCanonical(Total(a) + Total(b))
    ensures KeepsInvariant(Sub(a, b)) <==> SumStaysCanonical(Total(a) - Total(b))
    ensures KeepsInvariant(Neg(a)) <==> SumStaysCanonical(-Total(a))
    ensures Canonical(a) ==> (SumStaysCanonical(-Total(a)) <==> a.units > -TWO_63 || a.nano == 0)
  {
    hide Canonical, Stored, FromTotal, Add, Sub, Neg, Total, StaysCanonical, SumStaysCanonical;
    if Canonical(a) { NegStaysIff(a); }
    SumsStayIff(a, b);
    SumsDefined(a, b);
    FromTotalCanonicalIff(Total(a) + Total(b));
    FromTotalCanonicalIff(Total(a) - Total(b));
    FromTotalCanonicalIff(-Total(a));
  }

  /** Exactly when a product or quotient of decimals is canonical. */
  lemma ProductsCanonicalIff(a: Decimal, b: Decimal)
    requires Stored(a) && Stored(b)
    ensures KeepsInvariant(Mul(a, b)) <==> Mul(a, b).Value? && StaysCanonical(Times(Total(a), Total(b)))
    ensures KeepsInvariant(Div(a, b)) <==> Total(b) != 0 && StaysCanonical(Over(Total(a), Total(b)))
  {
    hide Canonical, FromTotal, Add, Sub, Neg, Mul, Div, Rounded, Total, StaysCanonical;
    OnlyProductsOverflow(a, b);
    ProductDefined(a, b);
    FromTotalCanonicalIff(Times(Total(a), Total(b)));
    if Total(b) != 0 { FromTotalCanonicalIff(Over(Total(a), Total(b))); }
  }

  /** And exactly when a product or quotient by a 64-bit integer is. */
  lemma IntegersCanonicalIff(a: Decimal, k: int)
    requires Stored(a) && Fits64(k)
    ensures KeepsInvariant(MulInt(a, k)) <==> Fits128(Total(a) * k) && StaysCanonical(Total(a) * k)
    ensures KeepsInvariant(DivInt(a, k)) <==> k != 0 && StaysCanonical(Rounded(Total(a), k))
  {
    TotalBound(a);
    hide Canonical, FromTotal, Rounded, Total, StaysCanonical, DivRound;
    FromTotalCanonicalIff(Total(a) * k);
    assert DivRound(Total(a), 0) == Undefined by { DivisionByZero(Total(a)); }
    if k != 0 {
      DivRoundDefined(Total(a), k);
      FromTotalCanonicalIff(Rounded(Total(a), k));
    }
  }

  lemma SumsStayIff(a: Decimal, b: Decimal)
    requires Stored(a) && Stored(b)
    ensures StaysCanonical(Total(a) + Total(b)) <==> SumStaysCanonical(Total(a) + Total(b))
    ensures StaysCanonical(Total(a) - Total(b)) <==> SumStaysCanonical(Total(a) - Total(b))
    ensures StaysCanonical(-Total(a)) <==> SumStaysCanonical(-Total(a))
  {
    hide Stored, Total, StaysCanonical, SumStaysCanonical;
    TotalBound(a);
    TotalBound(b);
    SumWraps(Total(a) + Total(b));
    SumWraps(Total(a) - Total(b));
    SumWraps(-Total(a));
  }

  lemma NegStaysIff(a: Decimal)
    requires Canonical(a)
    ensures SumStaysCanonical(-Total(a)) <==> a.units > -TWO_63 || a.nano == 0
  {
    hide Canonical, Total, Representable;
    NegRepresentable(a);
  }

  /** The invariant can be lost: one billionth past the largest decimal is the smallest units and one billionth. */
  lemma SumLosesInvariant()
    ensures var a, b := Decimal(TWO_63 - 1, NANO - 1), Decimal(0, 2);
      Canonical(a) && Canonical(b) && Add(a, b) == Value(Decimal(-TWO_63, 1)) && !Canonical(Decimal(-TWO_63, 1))
  {
    TruncUnique(TWO_63 * NANO + 1, NANO, TWO_63, 1);
  }

  lemma DivisionByZero(x: int)
    ensures DivRound(x, 0) == Undefined
  {
  }

  // ---- product and quotient undo each other ------------------------------------------------------

  function Times(x: int, y: int): int { Rounded(x * y, NANO) }

  function Over(x: int, y: int): int
    requires y != 0
  {
    Rounded(x * NANO, y)
  }

  lemma TimesOdd(x: int, y: int)
    ensures Times(-x, y) == -Times(x, y) && Times(x, -y) == -Times(x, y)
  {
  }

  lemma OverOdd(x: int, y: int)
    requires y != 0
    ensures Over(-x, y) == -Over(x, y) && Over(x, -y) == -Over(x, y)
  {
    hide Rounded;
    RoundedOdd(x * NANO, y);
    assert -x * NANO == -(x * NANO);
  }

  lemma NatScales(x: nat, y: nat)
    requires y > 0
    ensures Times(x, y) == RoundNat(x * y, NANO) && Over(x, y) == RoundNat(x * NANO, y)
  {
  }

  lemma OverTimesNat(x: nat, y: nat)
    requires y > 0
    ensures Over(Times(x, y), y) == UpDown(x, y, NANO)
    ensures Times(Over(x, y), y) == UpDown(x, NANO, y)
  {
  }

  /** The totals undo each other, for all signs. */
  lemma OverTimes(x: int, y: int)
    requires y != 0
    ensures Abs(y) >= NANO ==> Over(Times(x, y), y) == x
    ensures Abs(y) <= NANO ==> Times(Over(x, y), y) == x
    decreases x < 0, y < 0
  {
    hide Times, Over, UpDown;
    if x < 0 {
      OverTimes(-x, y);
      TimesOdd(x, y);
      OverOdd(x, y);
      OverOdd(Times(-x, y), y);
      TimesOdd(Over(-x, y), y);
    } else if y < 0 {
      OverTimes(x, -y);
      TimesOdd(x, y);
      OverOdd(x, y);
      OverOdd(Times(x, -y), y);
      TimesOdd(Over(x, -y), y);
    } else {
      OverTimesNat(x, y);
      if y >= NANO { UpDownIsIdentity(x, y, NANO); }
      if y <= NANO { UpDownIsIdentity(x, NANO, y); }
    }
  }

  /** The product of `a` by `b` is defined and representable. */
  predicate MulFits(a: Decimal, b: Decimal) {
    Mul(a, b).Value? && Representable(Times(Total(a), Total(b)))
  }

  predicate DivFits(a: Decimal, b: Decimal) {
    Total(b) != 0 && Representable(Over(Total(a), Total(b)))
  }

  lemma MulValue(a: Decimal, b: Decimal)
    requires Mul(a, b).Value?
    ensures Mul(a, b).value == FromTotal(Times(Total(a), Total(b)))
  {
  }

  /** Multiplying by `b` and dividing again gives the total of the rounding in between. */
  lemma MulThenDiv(a: Decimal, b: Decimal)
    requires Canonical(a) && Canonical(b) && MulFits(a, b) && Total(b) != 0
    ensures Div(Mul(a, b).value, b) == Value(FromTotal(Over(Times(Total(a), Total(b)), Total(b))))
  {
    assert Stored(a) && Stored(b);
    hide Rounded, FromTotal, Total, Mul, Div, Canonical, Representable;
    MulValue(a, b);
    FromTotalExact(Times(Total(a), Total(b)));
    OnlyProductsOverflow(Mul(a, b).value, b);
  }

  /** Dividing by `b` and multiplying again never overflows, and gives the total of the rounding in between. */
  lemma DivThenMul(a: Decimal, b: Decimal)
    requires Canonical(a) && Canonical(b) && DivFits(a, b)
    ensures Div(a, b).Value?
    ensures Mul(Div(a, b).value, b) == Value(FromTotal(Times(Over(Total(a), Total(b)), Total(b))))
  {
    assert Stored(a) && Stored(b);
    hide Rounded, FromTotal, Total, Mul, Div, Canonical, Representable;
    OnlyProductsOverflow(a, b);
    var x, y := Total(a), Total(b);
    var q := Over(x, y);
    FromTotalExact(q);
    RoundedNearest(x * NANO, y);
    TotalBound(a);
    TotalBound(b);
    ProductDefined(Div(a, b).value, b);
  }

  /** (a * b) / b == a whenever |b| >= 1 and the product fits. */
  lemma MulDivUndo(a: Decimal, b: Decimal)
    requires Canonical(a) && Canonical(b) && MulFits(a, b) && Abs(Total(b)) >= NANO
    ensures Div(Mul(a, b).value, b) == Value(a)
  {
    hide Times, Over, FromTotal, Total, Mul, Div, Canonical, Representable;
    MulThenDiv(a, b);
    OverTimes(Total(a), Total(b));
    CanonicalByTotal(a);
  }

  /** (a / b) * b == a whenever 0 < |b| <= 1 and the quotient fits. */
  lemma DivMulUndo(a: Decimal, b: Decimal)
    requires Canonical(a) && Canonical(b) && DivFits(a, b) && Abs(Total(b)) <= NANO
    ensures Div(a, b).Value? && Mul(Div(a, b).value, b) == Value(a)
  {
    hide Times, Over, FromTotal, Total, Mul, Div, Canonical, Representable;
    DivThenMul(a, b);
    OverTimes(Total(a), Total(b));
    CanonicalByTotal(a);
  }

  // ---- and exactly when they do --------------------------------------------------------------------

  lemma SmallIsRepresentable(t: int)
    requires Abs(t) < TWO_63 * NANO
    ensures Representable(t)
  {
  }

  lemma BetweenIsRepresentable(x: int, y: int)
    requires Representable(y) && (0 <= x <= y || y <= x <= 0)
    ensures Representable(x)
  {
  }

  lemma OverTimesFlip(x: int, y: int)
    requires y != 0
    ensures Over(Times(x, -y), -y) == Over(Times(x, y), y)
    ensures Times(Over(-x, -y), -y) == -Times(Over(x, y), y)
  {
    hide Times, Over;
    TimesOdd(x, y);
    OverOdd(Times(x, y), y);
    OverOdd(Times(x, y), -y);
    OverOdd(x, y);
    OverOdd(x, -y);
    TimesOdd(Over(x, y), y);
  }

  lemma AbsProduct(x: nat, y: int)
    ensures Abs(x * y) == x * Abs(y)
  {
  }

  lemma MulLoses(b: Decimal)
    requires Canonical(b) && 0 < Abs(Total(b)) < NANO
    ensures exists a :: Canonical(a) && MulFits(a, b) && Div(Mul(a, b).value, b) != Value(a)
  {
    hide Rounded, RoundNat, FromTotal, Total, Mul, Div, Canonical, Representable, UpDown, Times, Over;
    var y := Total(b);
    var m := Abs(y);
    UpDownLoses(m, NANO);
    var x: nat :| x <= NANO && UpDown(x, m, NANO) != x;
    UpDownBounded(x, m, NANO);
    SmallIsRepresentable(x);
    FromTotalExact(x);
    var a := FromTotal(x);
    AbsProduct(x, y);
    MulLe(m, NANO, NANO);
    ProductDefined(a, b);
    assert Abs(Times(x, y)) == RoundNat(x * m, NANO) by { NatScales(x, m); TimesOdd(x, m); }
    SmallIsRepresentable(Times(x, y));
    assert Mul(a, b).Value? by { MulOfFromTotal(a, b); }
    assert MulFits(a, b);
    MulThenDiv(a, b);
    OverTimesNat(x, m);
    OverTimesFlip(x, y);
    var z := Over(Times(x, y), y);
    assert z == UpDown(x, m, NANO);
    SmallIsRepresentable(z);
    FromTotalExact(z);
    assert Div(Mul(a, b).value, b) != Value(a);
  }

  lemma MulOfFromTotal(a: Decimal, b: Decimal)
    requires Abs(Total(a) * Total(b)) <= NANO * NANO
    ensures Mul(a, b).Value?
  {
  }

  lemma DivLoses(b: Decimal)
    requires Canonical(b) && Abs(Total(b)) > NANO
    ensures exists a :: Canonical(a) && DivFits(a, b) && Div(a, b).Value? && Mul(Div(a, b).value, b) != Value(a)
  {
    hide Rounded, RoundNat, FromTotal, Total, Mul, Div, Canonical, Representable, UpDown, Times, Over;
    var y := Total(b);
    var m := Abs(y);
    UpDownLoses(NANO, m);
    var n: nat :| n <= m && UpDown(n, NANO, m) != n;
    UpDownBounded(n, NANO, m);
    var x := if y < 0 then 0 - n else n;
    CanonicalByTotal(b);
    BetweenIsRepresentable(x, y);
    FromTotalExact(x);
    var a := FromTotal(x);
    assert Over(x, y) == RoundNat(n * NANO, m) by {
      NatScales(n, m);
      OverOdd(n, m);
      OverOdd(n, y);
    }
    SmallIsRepresentable(Over(x, y));
    assert DivFits(a, b);
    DivThenMul(a, b);
    OverTimesNat(n, m);
    OverTimesFlip(x, y);
    var z := Times(Over(x, y), y);
    assert z == if y < 0 then 0 - UpDown(n, NANO, m) else UpDown(n, NANO, m);
    BetweenIsRepresentable(z, y);
    FromTotalExact(z);
    assert Mul(Div(a, b).value, b) != Value(a);
  }

  /** Dividing undoes multiplying by `b`, for every `a` that fits, if and only if |b| >= 1. */
  lemma MulUndoneIff(b: Decimal)
    requires Canonical(b) && Total(b) != 0
    ensures (forall a :: Canonical(a) && MulFits(a, b) ==> Div(Mul(a, b).value, b) == Value(a))
       <==> Abs(Total(b)) >= NANO
  {
    hide Mul, Div, Canonical, Representable, Total;
    if Abs(Total(b)) < NANO { MulLoses(b); }
    else {
      forall a | Canonical(a) && MulFits(a, b) ensures Div(Mul(a, b).value, b) == Value(a) { MulDivUndo(a, b); }
    }
  }

  /** Multiplying undoes dividing by `b`, for every `a` that fits, if and only if |b| <= 1. */
  lemma DivUndoneIff(b: Decimal)
    requires Canonical(b) && Total(b) != 0
    ensures (forall a :: Canonical(a) && DivFits(a, b) ==> Div(a, b).Value? && Mul(Div(a, b).value, b) == Value(a))
       <==> Abs(Total(b)) <= NANO
  {
    hide Mul, Div, Canonical, Representable, Total;
    if Abs(Total(b)) > NANO { DivLoses(b); }
    else {
      forall a | Canonical(a) && DivFits(a, b)
        ensures Div(a, b).Value? && Mul(Div(a, b).value, b) == Value(a)
      {
        DivMulUndo(a, b);
      }
    }
  }
}
