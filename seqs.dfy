/**
 * Two list shapes the source uses for many item types, written once: the
 * list that a loop of the form `for x in xs: out.append(f(x))` builds, with
 * the fact that its i-th item is `f` of the i-th input, and the position
 * of the first item with a given key, which every "scan and return at the
 * first match" lookup and every insertion-ordered dict lookup relies on.
 */
module Seqs {

  /** `[f(x) for x in s]`, grown at the end as the loops grow it. */
  function Map<A, B>(f: A -> B, s: seq<A>): (r: seq<B>)
    ensures |r| == |s|
    decreases |s|
  {
    if s == [] then [] else Map(f, s[..|s| - 1]) + [f(s[|s| - 1])]
  }

  /** The item at position `i` comes from the input at position `i`. */
  lemma {:induction false} MapAt<A, B>(f: A -> B, s: seq<A>, i: nat)
    requires i < |s|
    ensures Map(f, s)[i] == f(s[i])
    decreases |s|
  {
    if i < |s| - 1 {
      MapAt(f, s[..|s| - 1], i);
      assert s[..|s| - 1][i] == s[i];
    }
  }

  /** Mapping a longer prefix adds the image of one more input. */
  lemma MapPrefix<A, B>(f: A -> B, s: seq<A>, i: nat)
    requires i < |s|
    ensures Map(f, s[..i + 1]) == Map(f, s[..i]) + [f(s[i])]
  {
    assert s[..i + 1][..i] == s[..i];
  }

  /** Mapping a concatenation maps each part. */
  lemma {:induction false} MapAppend<A, B>(f: A -> B, a: seq<A>, b: seq<A>)
    ensures Map(f, a + b) == Map(f, a) + Map(f, b)
    decreases |b|
  {
    if b == [] {
      assert a + b == a;
    } else {
      var init := b[..|b| - 1];
      assert (a + b)[..|a + b| - 1] == a + init;
      MapAppend(f, a, init);
    }
  }

  /** Mapping one element. */
  lemma MapOne<A, B>(f: A -> B, x: A)
    ensures Map(f, [x]) == [f(x)]
  {
    assert [x][..0] == [];
  }

  /** Position of the first item of `s` whose key is `key`, or `|s|` when there is none. */
  function FirstWith<T, K(==)>(s: seq<T>, keyOf: T -> K, key: K): (i: nat)
    ensures i <= |s|
    ensures i < |s| ==> keyOf(s[i]) == key
    ensures forall j :: 0 <= j < i ==> keyOf(s[j]) != key
  {
    if s == [] then 0
    else if keyOf(s[0]) == key then 0
    else 1 + FirstWith(s[1..], keyOf, key)
  }
}
