/** Unsigned numbers as digits, the most significant first. */
module BigEndian {
  import opened Quotients
  import opened Words

  function Times(a: nat, b: nat): nat {
    a * b
  }

  lemma TimesGrows(a: nat, b: nat, c: nat)
    requires a <= b
    ensures Times(a, c) <= Times(b, c)
  {}

  lemma TimesPlus(a: nat, b: nat, c: nat)
    ensures Times(a + b, c) == Times(a, c) + Times(b, c)
  {}

  lemma TimesOrder(a: nat, b: nat, c: nat)
    ensures Times(Times(a, b), c) == Times(a, Times(c, b))
  {
    assert (a * b) * c == a * (c * b);
  }

  lemma TimesSwap(a: nat, b: nat)
    ensures Times(a, b) == Times(b, a)
  {}

  lemma Division(value: nat, base: nat)
    requires base > 0
    ensures value == Times(Quotient(value, base), base) + Rest(value, base)
  {}

  lemma DivisionUnique(base: nat, q: nat, r: nat, q': nat, r': nat)
    requires r < base && r' < base && Times(q, base) + r == Times(q', base) + r'
    ensures q == q' && r == r'
  {
    hide Times;
    OneTimes(base);
    if q < q' {
      TimesGrows(q + 1, q', base);
      TimesPlus(q, 1, base);
    } else if q' < q {
      TimesGrows(q' + 1, q, base);
      TimesPlus(q', 1, base);
    }
  }

  lemma OneTimes(base: nat)
    ensures Times(1, base) == base && Times(0, base) == 0
  {}

  function Pow(base: nat, n: nat): (p: nat) {
    if n == 0 then 1 else Times(base, Pow(base, n - 1))
  }

  predicate Digits(base: nat, digits: seq<nat>) {
    forall i :: 0 <= i < |digits| ==> digits[i] < base
  }

  function Value(base: nat, digits: seq<nat>): nat {
    if digits == [] then 0 else Times(Value(base, digits[..|digits|-1]), base) + digits[|digits|-1]
  }

  /** The last n digits of a number. */
  function Spell(base: nat, value: nat, n: nat): (digits: seq<nat>)
    requires base > 0
    ensures |digits| == n && Digits(base, digits)
    decreases n
  {
    if n == 0 then [] else Spell(base, Quotient(value, base), n - 1) + [Rest(value, base)]
  }

  lemma {:induction false} ValueBound(base: nat, digits: seq<nat>)
    requires base > 0 && Digits(base, digits)
    ensures Value(base, digits) < Pow(base, |digits|)
  {
    hide Times;
    if digits != [] {
      var n := |digits| - 1;
      ValueBound(base, digits[..n]);
      var v, p := Value(base, digits[..n]), Pow(base, n);
      TimesGrows(v + 1, p, base);
      TimesPlus(v, 1, base);
      OneTimes(base);
      TimesSwap(p, base);
    }
  }

  lemma QuotientIs(base: nat, q: nat, r: nat)
    requires r < base
    ensures Quotient(Times(q, base) + r, base) == q && Rest(Times(q, base) + r, base) == r
  {
    hide Times, Quotient, Rest;
    var value := Times(q, base) + r;
    Division(value, base);
    DivisionUnique(base, Quotient(value, base), Rest(value, base), q, r);
  }

  lemma SpellMore(base: nat, q: nat, r: nat, n: nat)
    requires r < base
    ensures Spell(base, Times(q, base) + r, n + 1) == Spell(base, q, n) + [r]
  {
    hide Times, Quotient, Rest;
    QuotientIs(base, q, r);
  }

  lemma ValueMore(base: nat, digits: seq<nat>)
    requires digits != []
    ensures Value(base, digits) == Times(Value(base, digits[..|digits|-1]), base) + digits[|digits|-1]
  {
    hide Times;
  }

  /** Spelling the value of some digits gives them back. */
  lemma {:induction false} SpellValue(base: nat, digits: seq<nat>)
    requires base > 0 && Digits(base, digits)
    ensures Spell(base, Value(base, digits), |digits|) == digits
  {
    hide Times, Value, Spell;
    if digits != [] {
      var n := |digits| - 1;
      SpellValue(base, digits[..n]);
      ValueMore(base, digits);
      SpellMore(base, Value(base, digits[..n]), digits[n], n);
      assert digits == digits[..n] + [digits[n]];
    }
  }

  /** The digits of a number small enough spell it. */
  lemma {:induction false} ValueSpell(base: nat, value: nat, n: nat)
    requires base > 0 && value < Pow(base, n)
    ensures Value(base, Spell(base, value, n)) == value
    decreases n
  {
    hide Times, Quotient, Rest;
    if n > 0 {
      var q, p := Quotient(value, base), Pow(base, n - 1);
      Division(value, base);
      assert q < p by {
        if p <= q {
          TimesGrows(p, q, base);
          TimesSwap(p, base);
          assert false;
        }
      }
      ValueSpell(base, q, n - 1);
      assert Spell(base, value, n)[..n - 1] == Spell(base, q, n - 1);
    }
  }

  lemma {:induction false} ValueJoin(base: nat, a: seq<nat>, b: seq<nat>)
    ensures Value(base, a + b) == Times(Value(base, a), Pow(base, |b|)) + Value(base, b)
  {
    hide Times;
    var va := Value(base, a);
    if b == [] {
      assert a + b == a;
      OneTimes(va);
      TimesSwap(va, 1);
    } else {
      var n := |b| - 1;
      assert (a + b)[..|a| + n] == a + b[..n];
      ValueJoin(base, a, b[..n]);
      var p := Pow(base, n);
      TimesPlus(Times(va, p), Value(base, b[..n]), base);
      TimesOrder(va, p, base);
    }
  }

  /** The last digits of a number spell what is left of it after whole multiples. */
  lemma {:induction false} SpellSplits(base: nat, value: nat, n: nat) returns (x: nat)
    requires base > 0
    ensures value == Times(x, Pow(base, n)) + Value(base, Spell(base, value, n))
    decreases n
  {
    hide Times, Quotient, Rest, Value, Spell;
    if n == 0 {
      x := value;
      NoDigits(base, value);
    } else {
      var q := Quotient(value, base);
      x := SpellSplits(base, q, n - 1);
      Division(value, base);
      SpellLast(base, value, n);
      Regroup(x, Pow(base, n - 1), Value(base, Spell(base, q, n - 1)), base, Rest(value, base));
    }
  }

  lemma NoDigits(base: nat, value: nat)
    requires base > 0
    ensures value == Times(value, Pow(base, 0)) + Value(base, Spell(base, value, 0))
  {}

  lemma SpellLast(base: nat, value: nat, n: nat)
    requires base > 0 && n > 0
    ensures Value(base, Spell(base, value, n)) ==
      Times(Value(base, Spell(base, Quotient(value, base), n - 1)), base) + Rest(value, base)
  {
    hide Times, Quotient, Rest;
    assert Spell(base, value, n)[..n - 1] == Spell(base, Quotient(value, base), n - 1);
  }

  lemma Regroup(x: nat, p: nat, v: nat, base: nat, r: nat)
    ensures Times(Times(x, p) + v, base) + r == Times(x, Times(base, p)) + (Times(v, base) + r)
  {
    hide Times;
    TimesPlus(Times(x, p), v, base);
    TimesOrder(x, p, base);
  }

  lemma TimesIs(a: nat, b: nat)
    ensures Times(a, b) == a * b
  {}

  lemma Powers()
    ensures Pow(256, 7) == 0x0100_0000_0000_0000 && Pow(256, 8) == TWO_64
  {
    assert Pow(256, 1) == 256;
    assert Pow(256, 2) == 65536;
    assert Pow(256, 3) == 0x0100_0000;
    assert Pow(256, 4) == 0x1_0000_0000;
    assert Pow(256, 5) == 0x0100_0000_0000;
    assert Pow(256, 6) == 0x1_0000_0000_0000;
  }
}
