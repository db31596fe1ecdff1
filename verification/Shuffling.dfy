/** The seeded shuffle and its undoing by replaying the seed backwards. */
module Shuffling {
  import opened Quotients
  import opened Paging

  /** A random source: the value drawn with a seed after asking for numbers below
      each of the given bounds, the last being the one asked for now. It may be
      any function, so all that is known of a draw is that it can be replayed. */
  type Rng = (nat, seq<nat>) -> nat

  /** The bounds a shuffle of n items has asked for up to the draw for index i:
      n, n-1, ..., i+1. */
  function Bounds(n: nat, i: nat): (bounds: seq<nat>)
    requires i < n
    ensures |bounds| == n - i
    decreases n - i
  {
    if i == n - 1 then [n] else Bounds(n, i + 1) + [i + 1]
  }

  function Draw(rng: Rng, seed: nat, n: nat, i: nat): (j: nat)
    requires i < n
    ensures j <= i
  {
    Rest(rng(seed, Bounds(n, i)), i + 1)
  }

  /** A list and the cursor on it, which may not be on any item. */
  datatype Deck = Deck(list: seq<Item>, pos: int)

  predicate Placed(d: Deck) {
    -1 <= d.pos < |d.list|
  }

  /** Exchanges two items; a cursor on one of them follows it. */
  function Swap(d: Deck, i: nat, j: nat): (d': Deck)
    requires i < |d.list| && j < |d.list|
    ensures |d'.list| == |d.list|
  {
    Deck(d.list[i := d.list[j]][j := d.list[i]],
         if d.pos == i then j else if d.pos == j then i else d.pos)
  }

  function ShuffleFrom(rng: Rng, seed: nat, d: Deck, i: nat): (d': Deck)
    requires i < |d.list|
    ensures |d'.list| == |d.list|
    decreases i
  {
    if i == 0 then d
    else ShuffleFrom(rng, seed, Swap(d, i, Draw(rng, seed, |d.list|, i)), i - 1)
  }

  function UnshuffleTo(rng: Rng, seed: nat, d: Deck, i: nat): (d': Deck)
    requires i < |d.list|
    ensures |d'.list| == |d.list|
  {
    if i == 0 then d
    else Swap(UnshuffleTo(rng, seed, d, i - 1), i, Draw(rng, seed, |d.list|, i))
  }

  function Shuffle(rng: Rng, seed: nat, d: Deck): Deck {
    if |d.list| <= 1 then d else ShuffleFrom(rng, seed, d, |d.list| - 1)
  }

  function Unshuffle(rng: Rng, seed: nat, d: Deck): Deck {
    if |d.list| <= 1 then d else UnshuffleTo(rng, seed, d, |d.list| - 1)
  }

  lemma BoundsStep(n: nat, i: nat)
    requires i < n
    ensures Bounds(n, i) == (if i == n - 1 then [] else Bounds(n, i + 1)) + [i + 1]
  {}

  lemma ShuffleStep(rng: Rng, seed: nat, d: Deck, i: nat)
    requires 0 < i < |d.list|
    ensures var j := Rest(rng(seed, Bounds(|d.list|, i)), i + 1);
      ShuffleFrom(rng, seed, d, i) == ShuffleFrom(rng, seed, Swap(d, i, j), i - 1)
  {
    hide Swap, Rest;
  }

  lemma ShuffleDone(rng: Rng, seed: nat, d: Deck)
    requires d.list != []
    ensures ShuffleFrom(rng, seed, d, 0) == d
  {}

  lemma UnshuffleStep(rng: Rng, seed: nat, d: Deck, i: nat)
    requires 0 < i < |d.list|
    ensures UnshuffleTo(rng, seed, d, i) == Swap(UnshuffleTo(rng, seed, d, i - 1), i, Draw(rng, seed, |d.list|, i))
  {
    hide Swap, Draw;
  }

  lemma UnshuffleStart(rng: Rng, seed: nat, d: Deck)
    requires d.list != []
    ensures UnshuffleTo(rng, seed, d, 0) == d
  {}

  lemma SwapTwice(d: Deck, i: nat, j: nat)
    requires i < |d.list| && j < |d.list|
    ensures Swap(Swap(d, i, j), i, j) == d
  {}

  /** A swap neither moves the cursor off its item nor loses an item, and what it
      does to the list does not depend on the cursor. */
  lemma SwapKeeps(d: Deck, i: nat, j: nat)
    requires i < |d.list| && j < |d.list| && Placed(d)
    ensures Placed(Swap(d, i, j)) && (Swap(d, i, j).pos < 0 <==> d.pos < 0)
    ensures d.pos >= 0 ==> Swap(d, i, j).list[Swap(d, i, j).pos] == d.list[d.pos]
    ensures multiset(Swap(d, i, j).list) == multiset(d.list)
  {}

  lemma {:induction false} UnshuffleShuffle(rng: Rng, seed: nat, d: Deck, i: nat)
    requires i < |d.list|
    ensures UnshuffleTo(rng, seed, ShuffleFrom(rng, seed, d, i), i) == d
    decreases i
  {
    if i > 0 {
      var j := Draw(rng, seed, |d.list|, i);
      UnshuffleShuffle(rng, seed, Swap(d, i, j), i - 1);
      SwapTwice(d, i, j);
    }
  }

  /** Replaying the seed undoes a shuffle: list and cursor are what they were. */
  lemma ShuffleRoundTrip(rng: Rng, seed: nat, d: Deck)
    ensures Unshuffle(rng, seed, Shuffle(rng, seed, d)) == d
  {
    if |d.list| > 1 {
      UnshuffleShuffle(rng, seed, d, |d.list| - 1);
    }
  }

  lemma {:induction false} UnshuffleToKeeps(rng: Rng, seed: nat, d: Deck, i: nat)
    requires i < |d.list| && Placed(d)
    ensures var d' := UnshuffleTo(rng, seed, d, i);
      && Placed(d') && (d'.pos < 0 <==> d.pos < 0) && (d.pos >= 0 ==> d'.list[d'.pos] == d.list[d.pos])
      && d'.list == UnshuffleTo(rng, seed, Deck(d.list, -1), i).list
  {
    if i > 0 {
      UnshuffleToKeeps(rng, seed, d, i - 1);
      SwapKeeps(UnshuffleTo(rng, seed, d, i - 1), i, Draw(rng, seed, |d.list|, i));
    }
  }

  lemma {:induction false} ShuffleFromKeeps(rng: Rng, seed: nat, d: Deck, i: nat)
    requires i < |d.list| && Placed(d)
    ensures var d' := ShuffleFrom(rng, seed, d, i);
      && Placed(d') && (d'.pos < 0 <==> d.pos < 0) && (d.pos >= 0 ==> d'.list[d'.pos] == d.list[d.pos])
      && multiset(d'.list) == multiset(d.list)
    decreases i
  {
    if i > 0 {
      var j := Draw(rng, seed, |d.list|, i);
      SwapKeeps(d, i, j);
      ShuffleFromKeeps(rng, seed, Swap(d, i, j), i - 1);
    }
  }

  /** Shuffling permutes the list and keeps the cursor on its item. */
  lemma ShuffleKeeps(rng: Rng, seed: nat, d: Deck)
    requires Placed(d)
    ensures var d' := Shuffle(rng, seed, d);
      && Placed(d') && (d'.pos < 0 <==> d.pos < 0) && (d.pos >= 0 ==> d'.list[d'.pos] == d.list[d.pos])
      && |d'.list| == |d.list| && multiset(d'.list) == multiset(d.list)
  {
    if |d.list| > 1 {
      ShuffleFromKeeps(rng, seed, d, |d.list| - 1);
    }
  }

  /** Unshuffling keeps the cursor on its item, and restores the same list
      wherever the cursor was moved to. */
  lemma UnshuffleKeeps(rng: Rng, seed: nat, d: Deck)
    requires Placed(d)
    ensures var d' := Unshuffle(rng, seed, d);
      && Placed(d') && (d'.pos < 0 <==> d.pos < 0) && (d.pos >= 0 ==> d'.list[d'.pos] == d.list[d.pos])
      && |d'.list| == |d.list| && d'.list == Unshuffle(rng, seed, Deck(d.list, -1)).list
  {
    if |d.list| > 1 {
      UnshuffleToKeeps(rng, seed, d, |d.list| - 1);
    }
  }

  /** The items past the ones still to be exchanged stay where they are. */
  lemma {:induction false} ShuffleFromLeaves(rng: Rng, seed: nat, d: Deck, i: nat, k: nat)
    requires i < k < |d.list|
    ensures ShuffleFrom(rng, seed, d, i).list[k] == d.list[k]
    decreases i
  {
    if i > 0 {
      ShuffleFromLeaves(rng, seed, Swap(d, i, Draw(rng, seed, |d.list|, i)), i - 1, k);
    }
  }

  /** The first draw decides which item comes last. */
  lemma ShuffledLast(rng: Rng, seed: nat, d: Deck)
    requires |d.list| > 1
    ensures var n := |d.list|; Shuffle(rng, seed, d).list[n - 1] == d.list[rng(seed, [n]) % n]
  {
    var n := |d.list|;
    var j := Draw(rng, seed, n, n - 1);
    ShuffleFromLeaves(rng, seed, Swap(d, n - 1, j), n - 2, n - 1);
  }

  /** The draws are js[i] for each index i. */
  function Drawing(n: nat, js: seq<nat>): Rng {
    (seed: nat, bounds: seq<nat>) => if |bounds| <= n && n - |bounds| < |js| then js[n - |bounds|] else 0
  }

  lemma DrawsThese(seed: nat, n: nat, js: seq<nat>, i: nat)
    requires i < n && i < |js| && js[i] <= i
    ensures Draw(Drawing(n, js), seed, n, i) == js[i]
  {
    hide Bounds;
    assert n - |Bounds(n, i)| == i;
    RestSmall(js[i], i + 1);
  }

  lemma RestSmall(x: nat, n: nat)
    requires x < n
    ensures Rest(x, n) == x
  {}

  lemma Finds(a: seq<Item>, b: seq<Item>, i: nat) returns (j: nat)
    requires multiset(a) == multiset(b) && i < |b|
    ensures j < |a| && a[j] == b[i]
  {
    assert b[i] in multiset(a);
    j :| j < |a| && a[j] == b[i];
  }

  /** Draws that lead from one order of the first i + 1 items to any other. */
  lemma {:induction false} Rearranges(seed: nat, d: Deck, perm: seq<Item>, i: nat, after: seq<nat>)
    returns (js: seq<nat>)
    requires i < |d.list| == |perm| && i + 1 + |after| == |perm|
    requires multiset(d.list[..i + 1]) == multiset(perm[..i + 1]) && d.list[i + 1..] == perm[i + 1..]
    ensures |js| == |perm| && js[i + 1..] == after
    ensures ShuffleFrom(Drawing(|perm|, js), seed, d, i).list == perm
    decreases i
  {
    hide Draw, Drawing, Swap;
    var j := Finds(d.list[..i + 1], perm[..i + 1], i);
    if i == 0 {
      js := [0] + after;
      assert d.list == [d.list[0]] + d.list[1..] && perm == [perm[0]] + perm[1..];
    } else {
      SwappedFirst(d, perm, i, j);
      js := Rearranges(seed, Swap(d, i, j), perm, i - 1, [j] + after);
      assert js[i] == js[i..][0] == j && js[i + 1..] == js[i..][1..] == after;
      DrawsThese(seed, |perm|, js, i);
    }
  }

  lemma SwappedFirst(d: Deck, perm: seq<Item>, i: nat, j: nat)
    requires 0 < i < |d.list| == |perm| && j <= i && d.list[j] == perm[i]
    requires multiset(d.list[..i + 1]) == multiset(perm[..i + 1]) && d.list[i + 1..] == perm[i + 1..]
    ensures var list := Swap(d, i, j).list; multiset(list[..i]) == multiset(perm[..i]) && list[i..] == perm[i..]
  {
    var list, was := Swap(d, i, j).list, Deck(d.list[..i + 1], -1);
    SwapKeeps(was, i, j);
    assert list[..i + 1] == Swap(was, i, j).list;
    SameBut(list[..i + 1], perm[..i + 1]);
    assert list[..i + 1][..i] == list[..i] && perm[..i + 1][..i] == perm[..i];
    forall k | i <= k < |perm| ensures list[k] == perm[k] {
      if k > i {
        assert list[k] == d.list[i + 1..][k - i - 1] == perm[i + 1..][k - i - 1];
      }
    }
  }

  /** Two orders of the same items with the same last one are orders of the same rest. */
  lemma SameBut(a: seq<Item>, b: seq<Item>)
    requires |a| == |b| > 0 && multiset(a) == multiset(b) && a[|a|-1] == b[|b|-1]
    ensures multiset(a[..|a|-1]) == multiset(b[..|b|-1])
  {
    var x := a[|a|-1];
    assert a == a[..|a|-1] + [x] && b == b[..|b|-1] + [x];
    assert multiset(a[..|a|-1]) == multiset(a) - multiset{x};
  }

  /** Every order of the items can come out of a shuffle. */
  lemma EveryOrder(seed: nat, d: Deck, perm: seq<Item>) returns (rng: Rng)
    requires multiset(perm) == multiset(d.list)
    ensures Shuffle(rng, seed, d).list == perm
  {
    SameLength(d.list, perm);
    var js := [];
    var n := |perm|;
    if n == 1 {
      var _ := Finds(d.list, perm, 0);
    } else if n > 1 {
      assert d.list[..n] == d.list && perm[..n] == perm;
      js := Rearranges(seed, d, perm, n - 1, []);
    }
    rng := Drawing(n, js);
  }

  lemma SameLength(a: seq<Item>, b: seq<Item>)
    requires multiset(a) == multiset(b)
    ensures |a| == |b|
  {
    assert |multiset(a)| == |a| && |multiset(b)| == |b|;
  }

  /** A seeded generator, fresh until the first number is drawn. */
  class Rand {
    const rng: Rng
    const seed: nat
    var asked: seq<nat>

    constructor (rng: Rng, seed: nat)
      ensures this.rng == rng && this.seed == seed && asked == []
    {
      this.rng, this.seed, asked := rng, seed, [];
    }

    method Intn(bound: nat) returns (j: nat)
      requires bound > 0
      modifies `asked
      ensures j == Rest(rng(seed, asked), bound) && asked == old(asked) + [bound]
    {
      asked := asked + [bound];
      j := Rest(rng(seed, asked), bound);
    }
  }
}
