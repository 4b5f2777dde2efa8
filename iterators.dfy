/** The three iterator adaptors the controller path chains together
    (`enumerate`, `zip`, `map`), written as functions over sequences. A
    collected iterator is the sequence of the items it yields, in order. */
module Iterators {

  /** `iter.enumerate()`, counting from `from`: every item paired with its
      position. */
  function Enumerate<T>(s: seq<T>, from: nat): (r: seq<(nat, T)>)
    ensures |r| == |s|
    decreases |s|
  {
    if s == [] then [] else [(from, s[0])] + Enumerate(s[1..], from + 1)
  }

  /** Item `k` of an enumeration is the `k`-th input tagged with `from + k`. */
  lemma {:induction false} EnumerateAt<T>(s: seq<T>, from: nat, k: nat)
    requires k < |s|
    ensures Enumerate(s, from)[k] == (from + k, s[k])
    decreases |s|
  {
    if k > 0 {
      EnumerateAt(s[1..], from + 1, k - 1);
    }
  }

  /** `a.zip(b)`: pairs items by position and stops at the end of the
      shorter side. */
  function Zip<A, B>(a: seq<A>, b: seq<B>): (r: seq<(A, B)>)
    ensures |r| == if |a| <= |b| then |a| else |b|
    decreases |a|
  {
    if a == [] || b == [] then [] else [(a[0], b[0])] + Zip(a[1..], b[1..])
  }

  /** Pair `k` of a zip holds the `k`-th item of each side. */
  lemma {:induction false} ZipAt<A, B>(a: seq<A>, b: seq<B>, k: nat)
    requires k < |a| && k < |b|
    ensures Zip(a, b)[k] == (a[k], b[k])
    decreases |a|
  {
    if k > 0 {
      ZipAt(a[1..], b[1..], k - 1);
    }
  }

  /** `iter.map(f)`: applies `f` to every item, keeping the order. */
  function Map<A, B>(f: A -> B, s: seq<A>): (r: seq<B>)
    ensures |r| == |s|
    ensures forall k :: 0 <= k < |s| ==> r[k] == f(s[k])
    decreases |s|
  {
    if s == [] then [] else [f(s[0])] + Map(f, s[1..])
  }
}
