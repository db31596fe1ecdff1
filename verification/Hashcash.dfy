/** The login challenge: a suffix whose hash ends in enough zero bits. */
module HashcashModel {
  import opened Quotients
  import opened BigEndian

  /** The number is a multiple of 2^bits. */
  predicate Divides(bits: nat, value: nat) {
    bits == 0 || (value % 2 == 0 && Divides(bits - 1, value / 2))
  }

  /** What it means: there is a number of which it is that multiple. */
  lemma {:induction false} DividesMeans(bits: nat, value: nat)
    ensures Divides(bits, value) <==> exists k: nat :: value == Times(k, Pow(2, bits))
    decreases bits
  {
    hide Times;
    if bits == 0 {
      TimesSwap(value, 1);
      OneTimes(value);
      assert value == Times(value, Pow(2, 0));
    } else {
      DividesMeans(bits - 1, value / 2);
      if Divides(bits, value) {
        var k: nat :| value / 2 == Times(k, Pow(2, bits - 1));
        Doubled(k, bits);
        assert value == Times(k, Pow(2, bits));
      }
      if k: nat :| value == Times(k, Pow(2, bits)) {
        Doubled(k, bits);
        assert value / 2 == Times(k, Pow(2, bits - 1));
      }
    }
  }

  lemma Doubled(k: nat, bits: nat)
    requires bits > 0
    ensures Times(k, Pow(2, bits)) == 2 * Times(k, Pow(2, bits - 1))
  {
    var p := Pow(2, bits - 1);
    assert k * (2 * p) == 2 * (k * p);
  }

  /** Only the low bits of a number matter. */
  lemma {:induction false} DividesLow(bits: nat, m: nat, high: nat, low: nat)
    requires bits <= m
    ensures Divides(bits, Times(high, Pow(2, m)) + low) <==> Divides(bits, low)
    decreases bits
  {
    hide Times;
    if bits > 0 {
      Doubled(high, m);
      var half := Times(high, Pow(2, m - 1));
      assert (2 * half + low) / 2 == half + low / 2;
      DividesLow(bits - 1, m - 1, high, low / 2);
    }
  }

  /** Dropping m zero bits. */
  lemma {:induction false} DividesHigh(bits: nat, m: nat, high: nat)
    requires bits >= m
    ensures Divides(bits, Times(high, Pow(2, m))) <==> Divides(bits - m, high)
    decreases m
  {
    hide Times;
    if m > 0 {
      Doubled(high, m);
      DividesHigh(bits - 1, m - 1, high);
    } else {
      TimesSwap(high, 1);
      OneTimes(high);
    }
  }

  /** The zero bits a byte ends in. */
  function TrailingZeros(b: nat): nat {
    if b == 0 then 8 else if b % 2 == 1 then 0 else 1 + TrailingZeros(b / 2)
  }

  lemma {:induction false} ZerosDivide(b: nat, bits: nat)
    requires 0 < b
    ensures TrailingZeros(b) >= bits <==> Divides(bits, b)
    decreases b
  {
    if b % 2 == 0 && bits > 0 {
      ZerosDivide(b / 2, bits - 1);
    }
  }

  lemma {:induction false} ZeroDivides(bits: nat)
    ensures Divides(bits, 0)
  {
    if bits > 0 {
      ZeroDivides(bits - 1);
    }
  }

  lemma {:induction false} FewZeros(b: nat, n: nat)
    requires 0 < b < Pow(2, n)
    ensures TrailingZeros(b) < n
    decreases n
  {
    if b % 2 == 0 {
      FewZeros(b / 2, n - 1);
    }
  }

  lemma TwoToEight()
    ensures Pow(2, 8) == 256
  {
    assert Pow(2, 1) == 2 && Pow(2, 2) == 4 && Pow(2, 3) == 8 && Pow(2, 4) == 16;
    assert Pow(2, 5) == 32 && Pow(2, 6) == 64 && Pow(2, 7) == 128;
  }

  /** The hash, as a number, is a multiple of 2^length: it ends in that many zero
      bits. It has to have that many bits; an empty one never does. */
  predicate Solved(hash: seq<nat>, length: int) {
    hash != [] && (length <= 0 || (length <= 8 * |hash| && Divides(length, Value(256, hash))))
  }

  /** Looking at the last byte decides, or leaves eight bits fewer to look for. */
  lemma SolvedByLast(hash: seq<nat>, length: int)
    requires hash != [] && Digits(256, hash)
    ensures var n := |hash| - 1; var zeros := TrailingZeros(hash[n]);
      Solved(hash, length) ==
        if zeros >= length then true else if zeros < 8 then false else Solved(hash[..n], length - 8)
  {
    hide Times, Pow, TrailingZeros, Divides;
    var n := |hash| - 1;
    var b, high := hash[n], Value(256, hash[..n]);
    TwoToEight();
    if length > 0 {
      if b > 0 {
        ByteZeros(b, length);
        if length <= 8 {
          DividesLow(length, 8, high, b);
        } else {
          DividesLow(8, 8, high, b);
          DividesFewer(length, 8, Value(256, hash));
        }
      } else {
        ZeroByte(b);
        if length <= 8 {
          DividesLow(length, 8, high, 0);
          ZeroDivides(length);
        } else {
          DividesHigh(length, 8, high);
        }
      }
    } else {
      ZerosNonNegative(b);
    }
  }

  lemma ByteZeros(b: nat, length: nat)
    requires 0 < b < 256
    ensures TrailingZeros(b) < 8 && (TrailingZeros(b) >= length <==> Divides(length, b)) && !Divides(8, b)
  {
    hide TrailingZeros, Divides;
    TwoToEight();
    FewZeros(b, 8);
    ZerosDivide(b, length);
    ZerosDivide(b, 8);
  }

  lemma ZeroByte(b: nat)
    requires b == 0
    ensures TrailingZeros(b) == 8
  {}

  lemma ZerosNonNegative(b: nat)
    ensures TrailingZeros(b) >= 0
  {}

  lemma {:induction false} DividesFewer(bits: nat, fewer: nat, value: nat)
    requires fewer <= bits
    ensures Divides(bits, value) ==> Divides(fewer, value)
    decreases fewer
  {
    if fewer > 0 {
      DividesFewer(bits - 1, fewer - 1, value / 2);
    }
  }

  /** Adding one to the last digits of a number gives the last digits of the next. */
  lemma {:induction false} SpellNext(base: nat, value: nat, n: nat)
    requires base > 0
    ensures Spell(base, Value(base, Spell(base, value, n)) + 1, n) == Spell(base, value + 1, n)
    decreases n
  {
    hide Times, Quotient, Rest, Value, Spell;
    if n > 0 {
      var q, r := Quotient(value, base), Rest(value, base);
      var low := Spell(base, q, n - 1);
      SpellLast(base, value, n);
      Division(value, base);
      NextDigit(base, q, r);
      NextDigit(base, Value(base, low), r);
      SpellFirst(base, value + 1, n);
      SpellFirst(base, Value(base, Spell(base, value, n)) + 1, n);
      if r + 1 < base {
        SpellValue(base, low);
      } else {
        SpellNext(base, q, n - 1);
      }
    }
  }

  lemma SpellFirst(base: nat, value: nat, n: nat)
    requires base > 0 && n > 0
    ensures Spell(base, value, n) == Spell(base, Quotient(value, base), n - 1) + [Rest(value, base)]
  {
    hide Quotient, Rest;
  }

  /** The next number's last digit and what is before it. */
  lemma NextDigit(base: nat, q: nat, r: nat)
    requires r < base
    ensures var next := Times(q, base) + r + 1;
      && Quotient(next, base) == (if r + 1 < base then q else q + 1)
      && Rest(next, base) == (if r + 1 < base then r + 1 else 0)
  {
    hide Times, Quotient, Rest;
    var next := Times(q, base) + r + 1;
    Division(next, base);
    if r + 1 < base {
      DivisionUnique(base, Quotient(next, base), Rest(next, base), q, r + 1);
    } else {
      TimesPlus(q, 1, base);
      OneTimes(base);
      DivisionUnique(base, Quotient(next, base), Rest(next, base), q + 1, 0);
    }
  }
}

module Hashcash {
  import opened Quotients
  import opened BigEndian
  import opened Words
  import opened HashcashModel

  /** A hash function; any will do. */
  type Hash = seq<nat> -> seq<nat>

  ghost predicate Hashes(hash: Hash) {
    forall data: seq<nat> :: Digits(256, hash(data))
  }

  method CheckHashcash(hash: seq<nat>, bits: int) returns (ok: bool)
    requires Digits(256, hash)
    ensures ok == Solved(hash, bits)
  {
    hide Solved, TrailingZeros;
    var idx, length := |hash| - 1, bits;
    assert hash[..idx + 1] == hash;
    while idx >= 0
      invariant -1 <= idx < |hash| && Solved(hash[..idx + 1], length) == Solved(hash, bits)
    {
      SolvedByLast(hash[..idx + 1], length);
      assert hash[..idx + 1][..idx] == hash[..idx];
      var zeros := TrailingZeros(hash[idx]);
      if zeros >= length {
        return true;
      } else if zeros < 8 {
        return false;
      }
      length := length - 8;
      idx := idx - 1;
    }
    NothingSolved(length);
    ok := false;
  }

  lemma NothingSolved(length: int)
    ensures !Solved([], length)
  {}

  /** Adds one to the big-endian number in data[from..from + idx + 1], in place; on
      overflow it starts again at zero. */
  method IncrementHashcash(data: array<nat>, from: nat, idx: nat)
    requires from + idx < data.Length && Digits(256, data[from..from + idx + 1])
    modifies data
    ensures data[from..from + idx + 1] == Spell(256, Value(256, old(data[from..from + idx + 1])) + 1, idx + 1)
    ensures data[..from] == old(data[..from]) && data[from + idx + 1..] == old(data[from + idx + 1..])
    decreases idx
  {
    hide Value, Spell, Digits;
    ghost var was := data[from..from + idx + 1];
    ghost var before := data[from..from + idx];
    assert was[..idx] == before;
    LastDigit(was);
    NextNumber(was);
    data[from + idx] := (data[from + idx] + 1) % 256;
    assert data[from..from + idx] == before;
    if data[from + idx] == 0 && idx > 0 {
      IncrementHashcash(data, from, idx - 1);
      assert data[from + idx..][0] == 0;
    }
    assert data[from..from + idx + 1] == data[from..from + idx] + [data[from + idx]];
  }

  lemma LastDigit(digits: seq<nat>)
    requires digits != [] && Digits(256, digits)
    ensures digits[|digits|-1] < 256 && Digits(256, digits[..|digits|-1])
  {}

  /** The digits of the next number: the last one goes up, and carries if it was the
      greatest. */
  lemma NextNumber(digits: seq<nat>)
    requires digits != [] && Digits(256, digits)
    ensures var n := |digits| - 1; var before, last := digits[..n], digits[n];
      Spell(256, Value(256, digits) + 1, n + 1) ==
        if last < 255 then before + [last + 1]
        else (if n == 0 then [] else Spell(256, Value(256, before) + 1, n)) + [0]
  {
    hide Times, Quotient, Rest;
    var n := |digits| - 1;
    NextDigit(256, Value(256, digits[..n]), digits[n]);
    SpellValue(256, digits[..n]);
  }

  /** The suffix tried in round k: the last word of the context's digest plus k, then
      k, each a 64-bit number. */
  function Suffix(word: seq<nat>, k: nat): seq<nat> {
    Spell(256, Value(256, word) + k, 8) + Spell(256, k, 8)
  }

  /** Each half of the suffix is its number modulo 2^64. */
  lemma SuffixWords(word: seq<nat>, k: nat)
    ensures Value(256, Suffix(word, k)[..8]) == (Value(256, word) + k) % TWO_64
    ensures Value(256, Suffix(word, k)[8..]) == k % TWO_64
  {
    hide Value, Spell;
    WordIs(Value(256, word) + k);
    WordIs(k);
    assert Suffix(word, k)[..8] == Spell(256, Value(256, word) + k, 8);
  }

  lemma WordIs(value: nat)
    ensures Value(256, Spell(256, value, 8)) == value % TWO_64
  {
    hide Value, Spell, Times, Pow;
    Powers();
    ValueBound(256, Spell(256, value, 8));
    var x := SpellSplits(256, value, 8);
    TimesIs(x, TWO_64);
  }

  ghost predicate Tried(hash: Hash, prefix: seq<nat>, word: seq<nat>, length: int, k: nat) {
    Solved(hash(prefix + Suffix(word, k)), length)
  }

  /** The first round that solves the challenge. */
  ghost predicate FirstSolved(hash: Hash, prefix: seq<nat>, word: seq<nat>, length: int, k: nat) {
    Tried(hash, prefix, word, length, k) && forall j :: 0 <= j < k ==> !Tried(hash, prefix, word, length, j)
  }

  /** Two numbers that are the same modulo 2^64 spell the same word. */
  lemma SameWord(a: nat, b: nat)
    requires a % TWO_64 == b % TWO_64
    ensures Spell(256, a, 8) == Spell(256, b, 8)
  {
    hide Value, Spell;
    WordIs(a);
    WordIs(b);
    SpellValue(256, Spell(256, a, 8));
    SpellValue(256, Spell(256, b, 8));
  }

  /** The suffixes begin again after 2^64 rounds. */
  lemma SuffixRepeats(word: seq<nat>, k: nat)
    ensures Suffix(word, k) == Suffix(word, k % TWO_64)
  {
    hide Value, Spell;
    SameWord(Value(256, word) + k, Value(256, word) + k % TWO_64);
    SameWord(k, k % TWO_64);
  }

  /** So no round solves the challenge if none of the first 2^64 does. */
  lemma NeverSolved(hash: Hash, prefix: seq<nat>, word: seq<nat>, length: int)
    requires forall j :: 0 <= j < TWO_64 ==> !Tried(hash, prefix, word, length, j)
    ensures forall k: nat :: !Tried(hash, prefix, word, length, k)
  {
    forall k: nat ensures !Tried(hash, prefix, word, length, k) {
      hide Suffix, Solved;
      SuffixRepeats(word, k);
      assert !Tried(hash, prefix, word, length, k % TWO_64);
    }
  }

  /** Tries one suffix after the other and returns the first that solves the
      challenge. It gives up when they begin again, and then none ever would. */
  method SolveHashcash(hash: Hash, sum: seq<nat>, prefix: seq<nat>, length: int)
    returns (found: bool, suffix: array<nat>)
    requires Hashes(hash) && |sum| == 20 && Digits(256, sum)
    ensures found ==>
      exists k: nat :: FirstSolved(hash, prefix, sum[12..20], length, k) && suffix[..] == Suffix(sum[12..20], k)
    ensures found <==> exists k: nat :: Tried(hash, prefix, sum[12..20], length, k)
  {
    hide Value, Spell, Solved;
    ghost var word := sum[12..20];
    suffix := new nat[16](i requires 0 <= i < 16 => if i < 8 then sum[12 + i] else 0);
    FirstSuffix(word);
    assert suffix[..] == Suffix(word, 0) by {
      assert suffix[..8] == word && suffix[8..] == [0, 0, 0, 0, 0, 0, 0, 0];
      assert suffix[..] == suffix[..8] + suffix[8..];
    }
    var round := 0;
    while round < TWO_64
      invariant round <= TWO_64 && fresh(suffix) && suffix.Length == 16 && suffix[..] == Suffix(word, round)
      invariant forall j :: 0 <= j < round ==> !Tried(hash, prefix, word, length, j)
    {
      var solved := CheckHashcash(hash(prefix + suffix[..]), length);
      if solved {
        assert FirstSolved(hash, prefix, word, length, round);
        return true, suffix;
      }
      NextSuffix(suffix, word, round);
      round := round + 1;
    }
    NeverSolved(hash, prefix, word, length);
    found := false;
  }

  lemma FirstSuffix(word: seq<nat>)
    requires |word| == 8 && Digits(256, word)
    ensures Suffix(word, 0) == word + [0, 0, 0, 0, 0, 0, 0, 0]
  {
    hide Times, Quotient, Rest, Value;
    SpellValue(256, word);
    Zeros(8);
    assert Spell(256, 0, 8) == [0, 0, 0, 0, 0, 0, 0, 0];
  }

  lemma {:induction false} Zeros(n: nat)
    ensures forall i :: 0 <= i < n ==> Spell(256, 0, n)[i] == 0
  {
    if n > 0 {
      Zeros(n - 1);
    }
  }

  method NextSuffix(suffix: array<nat>, ghost word: seq<nat>, ghost k: nat)
    requires suffix.Length == 16 && suffix[..] == Suffix(word, k)
    modifies suffix
    ensures suffix[..] == Suffix(word, k + 1)
  {
    hide Value, Spell;
    ghost var a, b := Spell(256, Value(256, word) + k, 8), Spell(256, k, 8);
    assert suffix[0..8] == a && suffix[8..16] == b && suffix[8..] == b;
    IncrementHashcash(suffix, 0, 7);
    assert suffix[8..16] == b;
    IncrementHashcash(suffix, 8, 7);
    SpellNext(256, Value(256, word) + k, 8);
    SpellNext(256, k, 8);
    assert suffix[..] == suffix[..8] + suffix[8..16];
  }
}
