/** Multisets collected over the elements of a sequence. */
module Bags {

  ghost function Gather<T, X>(xs: seq<T>, hand: T -> multiset<X>): multiset<X> {
    if xs == [] then multiset{}
    else Gather(xs[..|xs| - 1], hand) + hand(xs[|xs| - 1])
  }

  lemma {:induction false} GatherAppend<T, X>(xs: seq<T>, x: T, hand: T -> multiset<X>)
    ensures Gather(xs + [x], hand) == Gather(xs, hand) + hand(x)
  {
    assert (xs + [x])[..|xs|] == xs;
  }

  /** Replacing one element exchanges its contribution. */
  lemma {:induction false} GatherUpdate<T, X>(xs: seq<T>, i: nat, x: T, hand: T -> multiset<X>)
    requires i < |xs|
    ensures hand(xs[i]) <= Gather(xs, hand)
    ensures Gather(xs[i := x], hand) == Gather(xs, hand) - hand(xs[i]) + hand(x)
  {
    var n := |xs| - 1;
    if i == n {
      assert xs[i := x][..n] == xs[..n];
    } else {
      GatherUpdate(xs[..n], i, x, hand);
      assert xs[i := x][..n] == xs[..n][i := x];
    }
  }

  /** Elements that contribute nothing gather nothing. */
  lemma {:induction false} GatherNothing<T, X>(xs: seq<T>, hand: T -> multiset<X>)
    requires forall i :: 0 <= i < |xs| ==> hand(xs[i]) == multiset{}
    ensures Gather(xs, hand) == multiset{}
  {
    if xs != [] {
      GatherNothing(xs[..|xs| - 1], hand);
    }
  }

  lemma TakeFirst<X>(xs: seq<X>)
    requires xs != []
    ensures multiset(xs) == multiset(xs[1..]) + multiset{xs[0]}
  {
    assert xs == [xs[0]] + xs[1..];
  }

  lemma TakeLast<X>(xs: seq<X>)
    requires xs != []
    ensures multiset(xs) == multiset(xs[..|xs| - 1]) + multiset{xs[|xs| - 1]}
  {
    assert xs == xs[..|xs| - 1] + [xs[|xs| - 1]];
  }

  lemma AddLast<X>(xs: seq<X>, x: X)
    ensures multiset(xs + [x]) == multiset(xs) + multiset{x}
  {
  }

  /** An element counted in any of four (five) parts of a sum can be counted at its end. */
  lemma InFourParts<X>(a: multiset<X>, b: multiset<X>, c: multiset<X>, d: multiset<X>, x: multiset<X>)
    ensures (a + x) + b + c + d == a + b + c + d + x
    ensures a + (b + x) + c + d == a + b + c + d + x
    ensures a + b + (c + x) + d == a + b + c + d + x
    ensures a + b + c + (d + x) == a + b + c + d + x
  {
  }

  lemma InFiveParts<X>(a: multiset<X>, b: multiset<X>, c: multiset<X>, d: multiset<X>, e: multiset<X>, x: multiset<X>)
    ensures (a + x) + b + c + d + e == a + b + c + d + e + x
    ensures a + (b + x) + c + d + e == a + b + c + d + e + x
    ensures a + b + (c + x) + d + e == a + b + c + d + e + x
    ensures a + b + c + (d + x) + e == a + b + c + d + e + x
    ensures a + b + c + d + (e + x) == a + b + c + d + e + x
  {
    InFourParts(a, b, c, d, x);
    assert a + b + c + d + x + e == a + b + c + d + e + x;
  }

  lemma InTwoParts<X>(a: multiset<X>, b: multiset<X>, x: multiset<X>)
    ensures a + (b + x) == a + b + x
    ensures (a + x) + b == a + b + x
  {
  }
}
