/** Positional notation, most significant digit first, for any base of at least two. */
module Radix {

  function Pow(base: nat, n: nat): nat {
    if n == 0 then 1 else Pow(base, n - 1) * base
  }

  /** The number a digit sequence stands for. */
  function Value(ds: seq<nat>, base: nat): nat {
    if ds == [] then 0 else Value(ds[..|ds| - 1], base) * base + ds[|ds| - 1]
  }

  /** The shortest digit sequence for a number; zero has no digits. */
  function Digits(v: nat, base: nat): seq<nat>
    requires base >= 2
  {
    if v == 0 then [] else
      DivShrinks(v, base);
      Digits(v / base, base) + [v % base]
  }

  /** The n low-order digits of a number, in complement form when it is negative. */
  function FixedDigits(v: int, n: nat, base: nat): (ds: seq<nat>)
    requires base >= 2
    ensures |ds| == n
    ensures Bounded(ds, base)
    decreases n, v
  {
    if n == 0 then [] else
      DivMod(v, base);
      FixedDigits(v / base, n - 1, base) + [v % base]
  }

  predicate Bounded(ds: seq<nat>, base: nat) {
    forall i :: 0 <= i < |ds| ==> ds[i] < base
  }

  /** How many zeros a digit sequence starts with. */
  function LeadingZeros(ds: seq<nat>): (z: nat)
    ensures z <= |ds|
    ensures forall i :: 0 <= i < z ==> ds[i] == 0
    ensures z < |ds| ==> ds[z] != 0
  {
    if ds == [] || ds[0] != 0 then 0 else 1 + LeadingZeros(ds[1..])
  }

  function Zeros(n: nat): (ds: seq<nat>)
    ensures |ds| == n
    ensures forall i :: 0 <= i < n ==> ds[i] == 0
  {
    seq(n, _ => 0)
  }

  /** Changes the base of a digit sequence and keeps its leading zeros one for one. */
  function Recode(ds: seq<nat>, from: nat, to: nat): seq<nat>
    requires to >= 2
  {
    Zeros(LeadingZeros(ds)) + Digits(Value(ds, from), to)
  }

  /** Dictionary order: the first difference decides, and a proper prefix is smaller. */
  predicate LexLess(a: seq<int>, b: seq<int>) {
    b != [] && (a == [] || a[0] < b[0] || (a[0] == b[0] && LexLess(a[1..], b[1..])))
  }

  // ---------- arithmetic ----------

  lemma MulLe(a: int, b: int, c: nat)
    ensures a <= b ==> a * c <= b * c
  {
  }

  lemma MulSucc(a: int, c: int)
    ensures (a + 1) * c == a * c + c
  {
  }

  lemma MulAssoc(a: int, b: int, c: int)
    ensures a * b * c == a * (b * c)
  {
  }

  lemma DivMod(v: int, base: nat)
    requires base >= 1
    ensures v == (v / base) * base + v % base
    ensures 0 <= v % base < base
    ensures v >= 0 ==> v / base >= 0
  {
  }

  lemma DivShrinks(v: nat, base: nat)
    requires v > 0 && base >= 2
    ensures 0 <= v / base < v && 0 <= v % base < base
  {
    DivMod(v, base);
    MulLe(2, base, v / base);
  }

  /** A digit below the base never carries a smaller multiple up to a larger one. */
  lemma NoCarry(x: int, y: int, d: int, base: nat)
    requires x < y && d < base
    ensures x * base + d < y * base
  {
    MulLe(x + 1, y, base);
  }

  /** Quotient and remainder are determined by the division identity. */
  lemma DivModUnique(q: int, r: nat, base: nat)
    requires r < base
    ensures (q * base + r) / base == q && (q * base + r) % base == r
  {
    var v := q * base + r;
    DivMod(v, base);
    SameQuotient(q, r, v / base, v % base, base);
  }

  lemma SameQuotient(q: int, r: int, d: int, m: int, base: nat)
    requires 0 <= r < base && 0 <= m < base
    requires q * base + r == d * base + m
    ensures q == d && r == m
  {
    MulLe(q + 1, d, base);
    MulLe(d + 1, q, base);
  }

  lemma PowPositive(base: nat, n: nat)
    requires base >= 1
    ensures Pow(base, n) >= 1
  {
    if n > 0 {
      PowPositive(base, n - 1);
      MulLe(1, Pow(base, n - 1), base);
    }
  }

  lemma {:induction false} PowAdd(base: nat, m: nat, n: nat)
    ensures Pow(base, m + n) == Pow(base, m) * Pow(base, n)
  {
    if n > 0 {
      PowAdd(base, m, n - 1);
      MulAssoc(Pow(base, m), Pow(base, n - 1), base);
    }
  }

  lemma {:induction false} PowMonotone(base: nat, m: nat, n: nat)
    requires base >= 1
    ensures m <= n ==> Pow(base, m) <= Pow(base, n)
  {
    if m < n {
      PowMonotone(base, m, n - 1);
      PowPositive(base, n - 1);
      MulLe(1, base, Pow(base, n - 1));
    }
  }

  // ---------- value of a digit sequence ----------

  lemma ValueSnoc(ds: seq<nat>, d: nat, base: nat)
    ensures Value(ds + [d], base) == Value(ds, base) * base + d
  {
    assert (ds + [d])[..|ds|] == ds;
  }

  /** The first digit weighs base to the power of the number of digits after it. */
  lemma {:induction false} ValueFront(ds: seq<nat>, base: nat)
    requires ds != []
    ensures Value(ds, base) == ds[0] * Pow(base, |ds| - 1) + Value(ds[1..], base)
  {
    if |ds| == 1 {
      assert ds[..0] == [] && ds[1..] == [];
    } else {
      var init := ds[..|ds| - 1];
      ValueFront(init, base);
      assert init[1..] == ds[1..][..|ds| - 2];
      MulSplit(ds[0], Pow(base, |ds| - 2), Value(init[1..], base), base);
    }
  }

  lemma {:induction false} ValueBound(ds: seq<nat>, base: nat)
    requires Bounded(ds, base) && base >= 1
    ensures Value(ds, base) < Pow(base, |ds|)
  {
    if ds != [] {
      var init := ds[..|ds| - 1];
      ValueBound(init, base);
      NoCarry(Value(init, base), Pow(base, |ds| - 1), ds[|ds| - 1], base);
    }
  }

  lemma {:induction false} ValueZeroIff(ds: seq<nat>, base: nat)
    requires base >= 1
    ensures Value(ds, base) == 0 <==> LeadingZeros(ds) == |ds|
  {
    if ds != [] {
      ValueFront(ds, base);
      ValueZeroIff(ds[1..], base);
      PowPositive(base, |ds| - 1);
      MulLe(1, ds[0], Pow(base, |ds| - 1));
    }
  }

  lemma {:induction false} ValueSkipsZeros(k: nat, ds: seq<nat>, base: nat)
    ensures Value(Zeros(k) + ds, base) == Value(ds, base)
  {
    if k == 0 {
      assert Zeros(0) + ds == ds;
    } else {
      var all := Zeros(k) + ds;
      ValueFront(all, base);
      assert all[1..] == Zeros(k - 1) + ds;
      ValueSkipsZeros(k - 1, ds, base);
    }
  }

  /** Among equally long sequences of true digits, dictionary order is numeric order. */
  lemma {:induction false} LexIsNumeric(a: seq<nat>, b: seq<nat>, base: nat)
    requires |a| == |b| && Bounded(a, base) && Bounded(b, base) && base >= 1
    ensures LexLess(a, b) <==> Value(a, base) < Value(b, base)
    ensures Value(a, base) == Value(b, base) ==> a == b
  {
    if a != [] {
      LexIsNumeric(a[1..], b[1..], base);
      if a[0] < b[0] {
        FirstDigitDecides(a, b, base);
      } else if b[0] < a[0] {
        FirstDigitDecides(b, a, base);
      } else {
        ValueFront(a, base);
        ValueFront(b, base);
        assert a == [a[0]] + a[1..] && b == [b[0]] + b[1..];
      }
    }
  }

  lemma FirstDigitDecides(a: seq<nat>, b: seq<nat>, base: nat)
    requires |a| == |b| > 0 && Bounded(a, base) && Bounded(b, base) && base >= 1
    requires a[0] < b[0]
    ensures Value(a, base) < Value(b, base)
  {
    ValueFront(a, base);
    ValueFront(b, base);
    ValueBound(a[1..], base);
    NoCarry(a[0], b[0], Value(a[1..], base), Pow(base, |a| - 1));
  }

  /** A digit sequence lies between two neighbouring multiples of its first digit's weight. */
  lemma FirstDigitWeighs(ds: seq<nat>, base: nat)
    requires ds != [] && Bounded(ds, base) && base >= 1
    ensures ds[0] * Pow(base, |ds| - 1) <= Value(ds, base) < (ds[0] + 1) * Pow(base, |ds| - 1)
  {
    ValueFront(ds, base);
    ValueBound(ds[1..], base);
    MulSucc(ds[0], Pow(base, |ds| - 1));
  }

  lemma {:induction false} ValueConcat(a: seq<nat>, b: seq<nat>, base: nat)
    ensures Value(a + b, base) == Value(a, base) * Pow(base, |b|) + Value(b, base)
  {
    if b == [] {
      assert a + b == a;
    } else {
      var init, last := b[..|b| - 1], b[|b| - 1];
      assert a + b == (a + init) + [last];
      ValueSnoc(a + init, last, base);
      ValueConcat(a, init, base);
      MulSplit(Value(a, base), Pow(base, |init|), Value(init, base), base);
    }
  }

  lemma MulSplit(x: nat, p: nat, y: nat, base: nat)
    ensures (x * p + y) * base == x * (p * base) + y * base
  {
  }

  // ---------- digits of a number ----------

  /** The digits of a number are true digits, have no leading zero and stand for it. */
  lemma {:induction false} DigitsValue(v: nat, base: nat)
    requires base >= 2
    ensures Value(Digits(v, base), base) == v
    ensures Bounded(Digits(v, base), base)
    ensures LeadingZeros(Digits(v, base)) == 0
  {
    if v > 0 {
      DivShrinks(v, base);
      DigitsValue(v / base, base);
      var q := Digits(v / base, base);
      ValueSnoc(q, v % base, base);
      DivMod(v, base);
      assert Bounded(q + [v % base], base);
      assert q != [] ==> (q + [v % base])[0] == q[0];
    }
  }

  /** Every sequence of true digits without leading zero is the digits of its value. */
  lemma {:induction false} DigitsUnique(ds: seq<nat>, base: nat)
    requires base >= 2 && Bounded(ds, base) && LeadingZeros(ds) == 0
    ensures Digits(Value(ds, base), base) == ds
  {
    if ds != [] {
      var init, last := ds[..|ds| - 1], ds[|ds| - 1];
      ValueZeroIff(ds, base);
      DivModUnique(Value(init, base), last, base);
      assert init != [] ==> init[0] == ds[0];
      DigitsUnique(init, base);
      assert ds == init + [last];
    }
  }

  /** A positive number has n digits exactly when it lies in [base^(n-1), base^n). */
  lemma DigitsLength(v: nat, n: nat, base: nat)
    requires base >= 2 && v > 0 && n > 0
    ensures |Digits(v, base)| == n <==> Pow(base, n - 1) <= v < Pow(base, n)
  {
    var ds := Digits(v, base);
    DigitsValue(v, base);
    ValueBound(ds, base);
    ValueFront(ds, base);
    MulLe(1, ds[0], Pow(base, |ds| - 1));
    PowMonotone(base, |ds|, n - 1);
    PowMonotone(base, n, |ds| - 1);
  }

  /** Dividing twice divides by the product. */
  lemma DivTwice(v: int, p: nat, base: nat)
    requires p >= 1 && base >= 1
    ensures p * base >= 1 && v / base / p == v / (p * base)
  {
    MulLe(1, p, base);
    DivMod(v, base);
    DivMod(v / base, p);
    var q, r := v / base / p, v / base % p;
    NoCarry(r, p, v % base, base);
    assert (q * p + r) * base == q * (p * base) + r * base;
    MulLe(0, r, base);
    DivModUnique(q, r * base + v % base, p * base);
  }

  /** Dividing then reducing is reducing then dividing. */
  lemma DivOfMod(v: int, p: nat, base: nat)
    requires p >= 1 && base >= 1
    ensures p * base >= 1
    ensures (v % (p * base)) / base == (v / base) % p && (v % (p * base)) % base == v % base
  {
    MulLe(1, p, base);
    DivTwice(v, p, base);
    var q := v / (p * base);
    DivMod(v, p * base);
    DivMod(v, base);
    DivMod(v / base, p);
    var r := v / base % p;
    assert (q * p + r) * base == q * (p * base) + r * base;
    assert v % (p * base) == r * base + v % base;
    DivModUnique(r, v % base, base);
  }

  /** The k-th digit from the right is found by shifting k digits out. */
  lemma {:induction false} FixedDigitsAt(v: int, n: nat, k: nat, base: nat)
    requires base >= 2 && k < n
    ensures Pow(base, k) >= 1 && FixedDigits(v, n, base)[n - 1 - k] == v / Pow(base, k) % base
    decreases k
  {
    PowPositive(base, k);
    var w := v / base;
    var high := FixedDigits(w, n - 1, base);
    assert FixedDigits(v, n, base) == high + [v % base];
    if k > 0 {
      var p := Pow(base, k - 1);
      FixedDigitsAt(w, n - 1, k - 1, base);
      assert high[n - 1 - k] == w / p % base;
      DivTwice(v, p, base);
    }
  }

  /** Low-order digits stand for the number modulo the base to their count. */
  lemma {:induction false} FixedDigitsValue(v: int, n: nat, base: nat)
    requires base >= 2
    ensures Pow(base, n) >= 1 && Value(FixedDigits(v, n, base), base) == v % Pow(base, n)
    decreases n
  {
    PowPositive(base, n);
    if n > 0 {
      var p, w := Pow(base, n - 1), v / base;
      var high := FixedDigits(w, n - 1, base);
      assert FixedDigits(v, n, base) == high + [v % base];
      FixedDigitsValue(w, n - 1, base);
      ValueSnoc(high, v % base, base);
      JoinMod(v, p, base);
    }
  }

  /** Low-order digits forget everything above them. */
  lemma FixedDigitsOfMod(v: int, n: nat, base: nat)
    requires base >= 2
    ensures Pow(base, n) >= 1
    ensures FixedDigits(v % Pow(base, n), n, base) == FixedDigits(v, n, base)
  {
    FixedDigitsValue(v, n, base);
    FixedDigitsValue(v % Pow(base, n), n, base);
    ModTwice(v, Pow(base, n));
    LexIsNumeric(FixedDigits(v % Pow(base, n), n, base), FixedDigits(v, n, base), base);
  }

  lemma ModTwice(v: int, m: nat)
    requires m >= 1
    ensures v % m % m == v % m
  {
    DivMod(v, m);
    DivModUnique(0, v % m, m);
  }

  lemma FixedDigitsExact(v: nat, n: nat, base: nat)
    requires base >= 2 && v < Pow(base, n)
    ensures Value(FixedDigits(v, n, base), base) == v
  {
    FixedDigitsValue(v, n, base);
    DivModUnique(0, v, Pow(base, n));
  }

  /** n true digits are the n low-order digits of their value. */
  lemma FixedDigitsUnique(ds: seq<nat>, base: nat)
    requires base >= 2 && Bounded(ds, base)
    ensures Value(ds, base) < Pow(base, |ds|)
    ensures FixedDigits(Value(ds, base), |ds|, base) == ds
  {
    ValueBound(ds, base);
    FixedDigitsExact(Value(ds, base), |ds|, base);
    LexIsNumeric(FixedDigits(Value(ds, base), |ds|, base), ds, base);
  }

  lemma JoinMod(v: int, p: nat, base: nat)
    requires p >= 1 && base >= 1
    ensures p * base >= 1 && (v / base % p) * base + v % base == v % (p * base)
  {
    DivOfMod(v, p, base);
    DivMod(v % (p * base), base);
  }

  // ---------- change of base ----------

  lemma {:induction false} LeadingZerosOf(k: nat, ds: seq<nat>)
    requires LeadingZeros(ds) == 0
    ensures LeadingZeros(Zeros(k) + ds) == k
  {
    if k == 0 {
      assert Zeros(0) + ds == ds;
    } else {
      assert (Zeros(k) + ds)[1..] == Zeros(k - 1) + ds;
      LeadingZerosOf(k - 1, ds);
    }
  }

  lemma RecodeBounded(ds: seq<nat>, from: nat, to: nat)
    requires to >= 2
    ensures Bounded(Recode(ds, from, to), to)
  {
    DigitsValue(Value(ds, from), to);
  }

  /** Changing the base and changing it back gives the original digits, leading zeros included. */
  lemma RecodeInverse(ds: seq<nat>, from: nat, to: nat)
    requires from >= 2 && to >= 2 && Bounded(ds, from)
    ensures Recode(Recode(ds, from, to), to, from) == ds
  {
    var z := LeadingZeros(ds);
    var rest := ds[z..];
    var v := Value(ds, from);
    assert ds == Zeros(z) + rest;
    ValueSkipsZeros(z, rest, from);
    DigitsUnique(rest, from);
    DigitsValue(v, to);
    LeadingZerosOf(z, Digits(v, to));
    ValueSkipsZeros(z, Digits(v, to), to);
  }
}
