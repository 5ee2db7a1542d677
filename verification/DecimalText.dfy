/** Printing decimals and reading them back. */
module DecimalText {
  import opened Digits
  import opened Rounding
  import opened Decimals

  /** What `from_string` comes to; an integer part past 63 bits overflows and has no defined result. */
  datatype Parsed = Accepted(value: Decimal) | Rejected | Overflows

  function Pow10(n: nat): nat {
    if n == 0 then 1 else 10 * Pow10(n - 1)
  }

  // ---- what a numeral means ------------------------------------------------------------------

  predicate IsSign(sign: string) {
    sign == "" || sign == "-" || sign == "+"
  }

  /** Nothing, or a point or comma followed by digits. */
  predicate IsTail(tail: string) {
    tail == "" || ((tail[0] == '.' || tail[0] == ',') && AllDigits(tail[1..]))
  }

  /** An optional sign, digits, and an optional fraction, with a digit somewhere. */
  predicate IsNumeral(sign: string, ip: string, tail: string) {
    IsSign(sign) && AllDigits(ip) && IsTail(tail) && (ip != "" || |tail| > 1)
  }

  function Fraction(tail: string): string {
    if tail == "" then "" else tail[1..]
  }

  /** Billionths of a fraction; digits past the ninth are dropped. */
  function Billionths(f: string): nat
    requires AllDigits(f)
  {
    if |f| <= 9 then DigitsValue(f) * Pow10(9 - |f|) else DigitsValue(f[..9])
  }

  /** The decimal a numeral denotes, if its integer part fits. */
  function Meaning(sign: string, ip: string, tail: string): Parsed
    requires IsNumeral(sign, ip, tail)
  {
    var u, n := DigitsValue(ip), Billionths(Fraction(tail));
    if u >= TWO_63 then Overflows
    else if sign == "-" then Accepted(Decimal(0 - u, 0 - n))
    else Accepted(Decimal(u, n))
  }

  // ---- from_string, as a function ------------------------------------------------------------

  function DigitRun(s: string, i: nat): (j: nat)
    requires i <= |s|
    ensures i <= j <= |s| && AllDigits(s[i..j]) && (j < |s| ==> !IsDigit(s[j]))
    decreases |s| - i
  {
    if i < |s| && IsDigit(s[i]) then
      var j := DigitRun(s, i + 1);
      assert s[i..j] == [s[i]] + s[i + 1..j];
      j
    else i
  }

  function SignLength(s: string): (n: nat)
    ensures n <= |s| && IsSign(s[..n])
  {
    if s != "" && (s[0] == '-' || s[0] == '+') then 1 else 0
  }

  function FromText(s: string): Parsed {
    var i := SignLength(s);
    var j := DigitRun(s, i);
    Assemble(s[..i], s[i..j], s[j..])
  }

  function Assemble(sign: string, ip: string, tail: string): Parsed
    requires AllDigits(ip)
  {
    if DigitsValue(ip) >= TWO_63 then Overflows
    else if IsNumeral(sign, ip, tail) then Meaning(sign, ip, tail)
    else Rejected
  }

  // ---- the accepted language --------------------------------------------------------------------

  lemma DigitRunStops(s: string, i: nat, j: nat)
    requires i <= j <= |s| && AllDigits(s[i..j]) && (j < |s| ==> !IsDigit(s[j]))
    ensures DigitRun(s, i) == j
  {
    var k := DigitRun(s, i);
    assert forall x :: i <= x < j ==> s[x] == s[i..j][x - i];
    assert forall x :: i <= x < k ==> s[x] == s[i..k][x - i];
  }

  /** Every numeral is read as what it denotes. */
  lemma NumeralIsRead(sign: string, ip: string, tail: string)
    requires IsNumeral(sign, ip, tail)
    ensures FromText(sign + ip + tail) == Meaning(sign, ip, tail)
  {
    var s := sign + ip + tail;
    var i, j := |sign|, |sign| + |ip|;
    assert sign == "" && s != "" ==> s[0] == if ip != "" then ip[0] else tail[0];
    assert SignLength(s) == i;
    assert s[..i] == sign && s[i..j] == ip && s[j..] == tail;
    assert j < |s| ==> s[j] == tail[0];
    DigitRunStops(s, i, j);
  }

  /**
   * Said of characters: with an optional sign, digits alone, and digits around a point or comma with a digit on at
   * least one side, are read as sign, units and billionths, overflowing exactly from 2^63.
   */
  lemma PlainNumeralsAreRead(sign: string, ip: string, sep: char, f: string)
    requires sign == "" || sign == "-" || sign == "+"
    requires AllDigits(ip) && AllDigits(f) && (sep == '.' || sep == ',')
    ensures ip != "" ==>
      FromText(sign + ip) == if DigitsValue(ip) >= TWO_63 then Overflows
                             else if sign == "-" then Accepted(Decimal(0 - DigitsValue(ip), 0))
                             else Accepted(Decimal(DigitsValue(ip), 0))
    ensures ip != "" || f != "" ==>
      FromText(sign + ip + ([sep] + f)) == if DigitsValue(ip) >= TWO_63 then Overflows
                                   else if sign == "-" then Accepted(Decimal(0 - DigitsValue(ip), 0 - Billionths(f)))
                                   else Accepted(Decimal(DigitsValue(ip), Billionths(f)))
  {
    hide FromText, DigitsValue, Billionths;
    EmptyIsRejected();
    if ip != "" {
      assert sign + ip + "" == sign + ip;
      NumeralIsRead(sign, ip, "");
    }
    if ip != "" || f != "" {
      assert ([sep] + f)[1..] == f;
      NumeralIsRead(sign, ip, [sep] + f);
    }
  }

  /** An accepted text has at most one sign, in front, at most one separator, a digit, and nothing but these. */
  lemma AcceptedCharacters(s: string)
    requires FromText(s).Accepted?
    ensures forall i :: 0 <= i < |s| ==> '0' <= s[i] <= '9' || s[i] == '.' || s[i] == ',' || (i == 0 && s[i] in "+-")
    ensures forall i, j :: 0 <= i < j < |s| && s[i] in ".," ==> s[j] !in ".,"
    ensures exists i :: 0 <= i < |s| && '0' <= s[i] <= '9'
  {
    hide DigitsValue, Meaning;
    var a := SignLength(s);
    var b := DigitRun(s, a);
    hide DigitRun;
    var ip, tail := s[a..b], s[b..];
    assert IsNumeral(s[..a], ip, tail);
    assert a <= 1 && (a == 1 ==> s[0] in "+-");
    forall i | a <= i < b ensures IsDigit(s[i]) { assert s[i] == ip[i - a]; }
    forall i | b < i < |s| ensures IsDigit(s[i]) { assert s[i] == tail[1..][i - b - 1]; }
    assert b < |s| ==> s[b] == tail[0];
    assert ip != "" ==> IsDigit(s[a]);
    assert ip == "" ==> IsDigit(s[b + 1]);
  }

  /** The example of the header. */
  lemma ReadsTheExample()
    ensures FromText("-123.456") == Accepted(Decimal(-123, -456000000))
  {
    assert Pow10(6) == 1000000;
    hide FromText, DigitsValue, Pow10;
    assert "-" + "123" + (['.'] + "456") == "-123.456";
    PlainNumeralsAreRead("-", "123", '.', "456");
    DigitsOf3('1', '2', '3');
    DigitsOf3('4', '5', '6');
  }

  lemma DigitsOf3(a: char, b: char, c: char)
    requires IsDigit(a) && IsDigit(b) && IsDigit(c)
    ensures DigitsValue([a, b, c]) == 100 * DigitValue(a) + 10 * DigitValue(b) + DigitValue(c)
  {
    SingleDigit(a);
    assert [a, b][..1] == [a];
    assert DigitsValue([a, b]) == DigitsValue([a]) * 10 + DigitValue(b);
    assert [a, b, c][..2] == [a, b];
    assert DigitsValue([a, b, c]) == DigitsValue([a, b]) * 10 + DigitValue(c);
  }

  /** Nothing else is accepted. */
  lemma AcceptedIsNumeral(s: string)
    requires FromText(s).Accepted?
    ensures exists sign, ip, tail :: IsNumeral(sign, ip, tail) && s == sign + ip + tail
  {
    hide DigitsValue, Meaning, IsNumeral;
    var i := SignLength(s);
    var j := DigitRun(s, i);
    hide DigitRun, SignLength;
    assert IsNumeral(s[..i], s[i..j], s[j..]);
    assert s == s[..i] + s[i..j] + s[j..];
  }

  /** Whatever is accepted is canonical, and its total is the numeral's value truncated to billionths. */
  lemma MeaningIsExact(sign: string, ip: string, tail: string)
    requires IsNumeral(sign, ip, tail) && Meaning(sign, ip, tail).Accepted?
    ensures var d := Meaning(sign, ip, tail).value;
      && Canonical(d)
      && Abs(Total(d)) == DigitsValue(ip) * NANO + Billionths(Fraction(tail))
      && (sign == "-" ==> Total(d) <= 0) && (sign != "-" ==> Total(d) >= 0)
  {
    BillionthsBound(Fraction(tail));
  }

  lemma {:induction false} ValueBound(f: string)
    requires AllDigits(f)
    ensures DigitsValue(f) < Pow10(|f|)
  {
    if f != [] { ValueBound(f[..|f| - 1]); }
  }

  lemma {:induction false} Pow10Adds(m: nat, n: nat)
    ensures Pow10(m + n) == Pow10(m) * Pow10(n)
  {
    if m > 0 {
      var p, q, r := Pow10(m - 1), Pow10(n), Pow10(m - 1 + n);
      assert Pow10(m) == 10 * p && Pow10(m + n) == 10 * r;
      hide Pow10;
      Pow10Adds(m - 1, n);
      TenTimes(p, q);
    }
  }

  lemma TenTimes(p: nat, q: nat)
    ensures 10 * (p * q) == (10 * p) * q
  {
  }

  lemma Pow10Nine()
    ensures Pow10(9) == NANO
  {
  }

  lemma {:induction false} Pow10Positive(n: nat)
    ensures Pow10(n) > 0
  {
    if n > 0 { Pow10Positive(n - 1); }
  }

  lemma BillionthsBound(f: string)
    requires AllDigits(f)
    ensures Billionths(f) < NANO
  {
    Pow10Nine();
    hide DigitsValue, Pow10;
    if |f| <= 9 {
      ValueBound(f);
      Pow10Adds(|f|, 9 - |f|);
      Pow10Positive(9 - |f|);
      MulGap(DigitsValue(f), Pow10(|f|), Pow10(9 - |f|));
    } else {
      ValueBound(f[..9]);
    }
  }

  lemma {:induction false} ConcatValue(a: string, b: string)
    requires AllDigits(a) && AllDigits(b)
    ensures AllDigits(a + b) && DigitsValue(a + b) == DigitsValue(a) * Pow10(|b|) + DigitsValue(b)
  {
    if b == [] {
      assert a + b == a;
    } else {
      var b', c, p := b[..|b| - 1], b[|b| - 1], Pow10(|b| - 1);
      assert Pow10(|b|) == 10 * p;
      hide Pow10, DigitValue;
      ConcatValue(a, b');
      assert (a + b)[..|a + b| - 1] == a + b';
      OneDigitMore(DigitsValue(a), p, DigitsValue(b'), DigitValue(c));
    }
  }

  lemma OneDigitMore(v: nat, p: nat, w: nat, d: nat)
    ensures (v * p + w) * 10 + d == v * (10 * p) + (w * 10 + d)
  {
  }

  lemma ShortFraction(v: nat, p: nat, q: nat)
    requires p > 0
    ensures v * q * p == v * (p * q) && (v * q + 1) * p > v * (p * q)
  {
  }

  lemma LongFraction(h: nat, p: nat, r: nat, k: nat)
    requires r < p && k > 0
    ensures h * (k * p) <= (h * p + r) * k < (h + 1) * (k * p)
  {
  }

  /** Digits past the ninth are cut toward zero: the billionths are the whole part of fraction times 10^9. */
  lemma BillionthsTruncate(f: string)
    requires AllDigits(f)
    ensures Billionths(f) * Pow10(|f|) <= DigitsValue(f) * NANO < (Billionths(f) + 1) * Pow10(|f|)
  {
    Pow10Nine();
    hide DigitsValue, Pow10;
    if |f| <= 9 {
      Pow10Adds(|f|, 9 - |f|);
      Pow10Positive(|f|);
      ShortFraction(DigitsValue(f), Pow10(|f|), Pow10(9 - |f|));
    } else {
      var a, b := f[..9], f[9..];
      assert f == a + b;
      ConcatValue(a, b);
      ValueBound(b);
      Pow10Adds(9, |b|);
      LongFraction(DigitsValue(a), Pow10(|b|), DigitsValue(b), NANO);
    }
  }

  // ---- from_string, as the loops it is ------------------------------------------------------------

  lemma {:induction false} PrefixValue(s: string, n: nat)
    requires AllDigits(s) && n <= |s|
    ensures DigitsValue(s[..n]) <= DigitsValue(s)
  {
    if n < |s| {
      PrefixValue(s[..|s| - 1], n);
      assert s[..|s| - 1][..n] == s[..n];
    } else {
      assert s[..n] == s;
    }
  }

  /** What one more fraction digit is worth after `k` of them. */
  function Scale(k: nat): nat {
    if k < 9 then Pow10(8 - k) else 0
  }

  lemma BillionthsStep(f: string, c: char)
    requires AllDigits(f) && IsDigit(c)
    ensures AllDigits(f + [c])
    ensures Billionths(f + [c]) == Billionths(f) + DigitValue(c) * Scale(|f|)
  {
    var g := f + [c];
    assert g[..|f|] == f;
    assert DigitsValue(g) == DigitsValue(f) * 10 + DigitValue(c);
    hide DigitsValue;
    if |f| < 9 {
      assert Pow10(9 - |f|) == 10 * Pow10(8 - |f|);
      hide Pow10, DigitValue;
      ShiftDigit(DigitsValue(f), DigitValue(c), Pow10(8 - |f|));
    } else {
      assert g[..9] == f[..9];
      assert |f| == 9 ==> f[..9] == f;
      assert Pow10(0) == 1;
    }
  }

  lemma ShiftDigit(v: nat, x: nat, p: nat)
    ensures (v * 10 + x) * p == v * (10 * p) + x * p
  {
  }

  /** The first loop: accumulate whole units from `start`, stopping at the first other character. */
  method ReadUnits(s: string, start: nat) returns (units: nat, i: nat, overflows: bool)
    requires start <= |s|
    ensures overflows <==> DigitsValue(s[start..DigitRun(s, start)]) >= TWO_63
    ensures !overflows ==> i == DigitRun(s, start) && units == DigitsValue(s[start..i])
  {
    i := start;
    units, overflows := 0, false;
    while i < |s| && '0' <= s[i] <= '9'
      invariant start <= i <= |s| && AllDigits(s[start..i])
      invariant units == DigitsValue(s[start..i]) < TWO_63
    {
      assert s[start..i + 1] == s[start..i] + [s[i]];
      units := units * 10 + DigitValue(s[i]);
      i := i + 1;
      if units >= TWO_63 {
        ghost var ip := s[start..DigitRun(s, start)];
        DigitRunReaches(s, start, i);
        PrefixValue(ip, i - start);
        assert ip[..i - start] == s[start..i];
        return units, i, true;
      }
    }
    DigitRunStops(s, start, i);
  }

  /** The second loop: accumulate billionths from `start`, each digit worth a tenth of the one before. */
  method ReadFraction(s: string, start: nat) returns (nano: nat, i: nat)
    requires start <= |s|
    ensures i == DigitRun(s, start) && nano == Billionths(s[start..i])
  {
    Pow10Nine();
    i := start;
    nano := 0;
    var scale := NANO / 10;
    while i < |s| && '0' <= s[i] <= '9'
      invariant start <= i <= |s| && AllDigits(s[start..i])
      invariant nano == Billionths(s[start..i]) && scale == Scale(i - start)
    {
      assert s[start..i + 1] == s[start..i] + [s[i]];
      BillionthsStep(s[start..i], s[i]);
      nano := nano + DigitValue(s[i]) * scale;
      scale := scale / 10;
      i := i + 1;
    }
    DigitRunStops(s, start, i);
  }

  lemma FromTextSplits(s: string, start: nat)
    requires start == SignLength(s)
    ensures var j := DigitRun(s, start);
      && FromText(s) == Assemble(s[..start], s[start..j], s[j..])
      && (DigitsValue(s[start..j]) >= TWO_63 ==> FromText(s) == Overflows)
  {
    hide DigitsValue, DigitRun, Meaning, IsNumeral;
  }

  method FromString(s: string) returns (r: Parsed)
    ensures r == FromText(s)
  {
    hide DigitsValue, Billionths, DigitRun, FromText, Assemble;
    EmptyIsRejected();
    if s == "" { return Rejected; }
    var neg, start := false, 0;
    if s[0] == '-' || s[0] == '+' {
      neg := s[0] == '-';
      start := 1;
    }
    FromTextSplits(s, start);
    var units, i, overflows := ReadUnits(s, start);
    if overflows { return Overflows; }
    r := ReadRest(s, neg, start, units, i);
  }

  /** After the whole units: an optional separator and fraction, then the sign. */
  method ReadRest(s: string, neg: bool, start: nat, units: nat, stop: nat) returns (r: Parsed)
    requires start <= stop <= |s| && AllDigits(s[start..stop]) && (stop < |s| ==> !IsDigit(s[stop]))
    requires units == DigitsValue(s[start..stop]) < TWO_63
    requires IsSign(s[..start]) && neg == (s[..start] == "-")
    ensures r == Assemble(s[..start], s[start..stop], s[stop..])
  {
    hide DigitsValue, Billionths, DigitRun;
    EmptyIsRejected();
    ghost var tail := s[stop..];
    var any, i, nano: nat := stop > start, stop, 0;
    if i < |s| {
      if s[i] != '.' && s[i] != ',' { return Rejected; }
      nano, i := ReadFraction(s, stop + 1);
      any := any || i > stop + 1;
      if i != |s| {
        assert tail[1..][i - stop - 1] == s[i];
        return Rejected;
      }
      assert tail[1..] == s[stop + 1..i];
    }
    if !any { return Rejected; }
    BillionthsBound(Fraction(tail));
    var u: int, n: int := units, nano;
    var d := Construct(if neg then -u else u, if neg then -n else n);
    r := Accepted(d);
  }

  /** The constructor leaves a canonical pair as it is. */
  method Construct(units: int, nano: int) returns (d: Decimal)
    requires Canonical(Decimal(units, nano))
    ensures d == Decimal(units, nano)
  {
    CanonicalByTotal(Decimal(units, nano));
    var c := Normalize(units, nano);
    EqualIffSameTotal(c.value, Decimal(units, nano));
    d := c.value;
  }

  lemma EmptyIsRejected()
    ensures FromText("") == Rejected && Billionths("") == 0
  {
  }

  lemma DigitRunReaches(s: string, i: nat, j: nat)
    requires i <= j <= |s| && AllDigits(s[i..j])
    ensures DigitRun(s, i) >= j
  {
    assert forall x :: i <= x < j ==> s[x] == s[i..j][x - i];
  }

  // ---- to_string ------------------------------------------------------------------------------------

  predicate Negative(d: Decimal) {
    d.units < 0 || d.nano < 0
  }

  /** A shortest fraction of up to nine digits worth exactly `n` billionths. */
  predicate FractionOf(f: string, n: nat) {
    1 <= |f| <= 9 && AllDigits(f) && f[|f| - 1] != '0' && Billionths(f) == n
  }

  /** The text shows the decimal: sign, whole units, and a fraction without trailing zeros unless it is zero. */
  ghost predicate Shows(d: Decimal, s: string) {
    exists f :: ShowsAs(d, s, f)
  }

  predicate ShowsAs(d: Decimal, s: string, f: string) {
    && (d.nano == 0 ==> f == "")
    && (d.nano != 0 ==> FractionOf(f, Abs(d.nano)))
    && s == (if Negative(d) then "-" else "") + Print(Abs(d.units)) + (if d.nano == 0 then "" else "." + f)
  }

  lemma DigitSplit(n: nat, p: nat)
    ensures n * p == (n / 10) * (10 * p) + (n % 10) * p
  {
  }

  /** Fill the first nine places of the buffer, from the right, with the digits of `n`. */
  method FillDigits(buf: array<char>, n: nat)
    requires buf.Length == 10 && n < NANO
    modifies buf
    ensures AllDigits(buf[..9]) && DigitsValue(buf[..9]) == n
  {
    hide DigitsValue;
    var frac: nat, i: int := n, 8;
    Pow10Nine();
    assert DigitsValue(buf[9..9]) == 0 by { NoDigits(buf[9..9]); }
    while i >= 0
      invariant -1 <= i <= 8 && AllDigits(buf[i + 1..9])
      invariant frac < Pow10(i + 1)
      invariant n == frac * Pow10(8 - i) + DigitsValue(buf[i + 1..9])
    {
      ghost var rest, was := buf[i + 1..9], frac;
      buf[i] := DigitChar(frac % 10);
      assert buf[i..9] == [buf[i]] + rest;
      ConcatValue([buf[i]], rest);
      SingleDigit(buf[i]);
      DigitSplit(frac, Pow10(8 - i));
      frac := frac / 10;
      assert frac < Pow10(i) by { assert was < 10 * Pow10(i); }
      i := i - 1;
      assert n == frac * Pow10(8 - i) + DigitsValue(buf[i + 1..9]);
    }
    assert frac == 0;
    assert buf[0..9] == buf[..9];
  }

  lemma SingleDigit(c: char)
    requires IsDigit(c)
    ensures DigitsValue([c]) == DigitValue(c)
  {
  }

  lemma NoDigits(s: string)
    requires s == []
    ensures DigitsValue(s) == 0
  {
  }

  /** The fraction digits of `to_string`: nine of them, leading zeros kept, trailing zeros cut. */
  method FractionDigits(n: nat) returns (f: string)
    requires 0 < n < NANO
    ensures FractionOf(f, n)
  {
    var buf := new char[10];
    FillDigits(buf, n);
    var len := 9;
    while len > 0 && buf[len - 1] == '0'
      invariant 0 <= len <= 9 && AllDigits(buf[..len]) && Billionths(buf[..len]) == n
    {
      assert buf[..len] == buf[..len - 1] + ['0'];
      BillionthsStep(buf[..len - 1], '0');
      len := len - 1;
    }
    f := buf[..len];
  }

  method ToString(d: Decimal) returns (s: string)
    requires Stored(d)
    ensures Shows(d, s)
  {
    hide Print, FractionOf;
    s := "";
    if d.units < 0 || d.nano < 0 { s := s + "-"; }
    var u := if d.units < 0 then -(d.units + 1) + 1 else d.units;
    s := s + Print(u);
    var frac := if d.nano < 0 then -d.nano else d.nano;
    ghost var f := "";
    if frac != 0 {
      var digits := FractionDigits(frac);
      f := digits;
      s := s + "." + digits;
    }
    assert ShowsAs(d, s, f);
  }

  /**
   * The text is as short as it can be: a minus exactly for negative decimals and never a plus, no leading zero but a
   * lone one, a point exactly if there are billionths, and then no trailing zero.
   */
  lemma PrintedIsShortest(d: Decimal, s: string)
    requires Stored(d) && Shows(d, s)
    ensures s != "" && (s[0] == '-' <==> d.units < 0 || d.nano < 0) && '+' !in s && ',' !in s
    ensures d.units == 0 && d.nano == 0 ==> s == "0"
    ensures d.units != 0 ==> var i := if s[0] == '-' then 1 else 0; i < |s| && s[i] != '0'
    ensures '.' in s <==> d.nano != 0
    ensures d.nano != 0 ==> s[|s| - 1] != '0'
  {
    hide DigitsValue, Billionths, Print;
    var f :| ShowsAs(d, s, f);
    var sign, ip := if Negative(d) then "-" else "", Print(Abs(d.units));
    PrintIsShortest(Abs(d.units));
    var tail := if d.nano == 0 then "" else "." + f;
    assert s == sign + ip + tail;
    assert s[|sign|] == ip[0];
    assert d.nano != 0 ==> s[|sign| + |ip|] == '.';
    forall i | 0 <= i < |s| ensures s[i] != '+' && s[i] != ',' && (d.nano == 0 ==> s[i] != '.') {
      if i < |sign| { assert s[i] == '-'; }
      else if i < |sign| + |ip| { assert s[i] == ip[i - |sign|]; }
      else { assert s[i] == tail[i - |sign| - |ip|]; }
    }
  }

  // ---- round trip -------------------------------------------------------------------------------------

  /** Reading back what was printed gives the same decimal, if and only if it is canonical with units above -2^63. */
  lemma PrintedIsReadBack(d: Decimal, s: string)
    requires Stored(d) && Shows(d, s)
    ensures FromText(s) == Accepted(d) <==> Canonical(d) && d.units > -TWO_63
    ensures d.units == -TWO_63 ==> FromText(s) == Overflows
  {
    hide Print, DigitsValue, FromText, Billionths;
    var f :| ShowsAs(d, s, f);
    var sign := if Negative(d) then "-" else "";
    var ip := Print(Abs(d.units));
    var tail := if d.nano == 0 then "" else "." + f;
    assert d.nano != 0 ==> tail[1..] == f;
    assert IsNumeral(sign, ip, tail);
    NumeralIsRead(sign, ip, tail);
    EmptyIsRejected();
  }
}
