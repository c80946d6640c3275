/** `Array.prototype.filter` on sequences, with the facts the views rely on. */
module Seqs {

  /** The elements of `s` that satisfy `p`, in their original order. */
  function Keep<T>(s: seq<T>, p: T -> bool): (r: seq<T>)
    ensures |r| <= |s|
    ensures forall x :: x in r ==> x in s && p(x)
  {
    if s == [] then [] else (if p(s[0]) then [s[0]] else []) + Keep(s[1..], p)
  }

  /** Nothing that satisfies `p` is dropped. */
  lemma {:induction false} KeepComplete<T>(s: seq<T>, p: T -> bool, x: T)
    requires x in s && p(x)
    ensures x in Keep(s, p)
  {
    if s[0] != x {
      KeepComplete(s[1..], p, x);
    }
  }

  /** Filtering distributes over concatenation: relative order is preserved. */
  lemma {:induction false} KeepAppend<T>(a: seq<T>, b: seq<T>, p: T -> bool)
    ensures Keep(a + b, p) == Keep(a, p) + Keep(b, p)
  {
    if a == [] {
      assert a + b == b;
    } else {
      assert (a + b)[0] == a[0];
      assert (a + b)[1..] == a[1..] + b;
      KeepAppend(a[1..], b, p);
    }
  }

  /** When every element passes, the filter returns the list unchanged. */
  lemma {:induction false} KeepAll<T>(s: seq<T>, p: T -> bool)
    requires forall x :: x in s ==> p(x)
    ensures Keep(s, p) == s
  {
    if s != [] {
      assert s == [s[0]] + s[1..];
      KeepAll(s[1..], p);
    }
  }

  /** The elements that pass and the elements that fail together account for the whole list. */
  lemma {:induction false} KeepPartition<T>(s: seq<T>, p: T -> bool, q: T -> bool)
    requires forall x :: x in s ==> (q(x) <==> !p(x))
    ensures |Keep(s, p)| + |Keep(s, q)| == |s|
  {
    if s != [] {
      KeepPartition(s[1..], p, q);
    }
  }

  /** Two filters that never both accept an element select at most the whole list between them. */
  lemma {:induction false} KeepDisjoint<T>(s: seq<T>, p: T -> bool, q: T -> bool)
    requires forall x :: x in s ==> !(p(x) && q(x))
    ensures |Keep(s, p)| + |Keep(s, q)| <= |s|
  {
    if s != [] {
      KeepDisjoint(s[1..], p, q);
    }
  }
}
