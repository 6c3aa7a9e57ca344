/** Sums over a sequence, as the source's loops accumulate them, and why their order does not matter. */
module Sums {

  /** `f(s[0]) + ... + f(s[|s|-1])`. */
  function Total<T>(s: seq<T>, f: T -> nat): nat {
    if s == [] then 0 else f(s[0]) + Total(s[1..], f)
  }

  lemma {:induction false} TotalAppend<T>(a: seq<T>, b: seq<T>, f: T -> nat)
    ensures Total(a + b, f) == Total(a, f) + Total(b, f)
  {
    if a == [] {
      assert a + b == b;
    } else {
      assert (a + b)[0] == a[0] && (a + b)[1..] == a[1..] + b;
      TotalAppend(a[1..], b, f);
    }
  }

  /** Adding one more element, as one more loop iteration does. */
  lemma TotalSnoc<T>(s: seq<T>, i: nat, f: T -> nat)
    requires i < |s|
    ensures Total(s[..i + 1], f) == Total(s[..i], f) + f(s[i])
  {
    assert s[..i + 1] == s[..i] + [s[i]];
    TotalAppend(s[..i], [s[i]], f);
  }

  /** Taking one element out of the middle takes its term out of the sum. */
  lemma TotalRemove<T>(s: seq<T>, j: nat, f: T -> nat)
    requires j < |s|
    ensures Total(s, f) == f(s[j]) + Total(s[..j] + s[j + 1..], f)
  {
    assert s == s[..j] + ([s[j]] + s[j + 1..]);
    TotalAppend(s[..j], [s[j]] + s[j + 1..], f);
    TotalAppend(s[..j], s[j + 1..], f);
  }

  /** Reordering the elements leaves the sum unchanged. */
  lemma {:induction false} TotalPermutation<T>(a: seq<T>, b: seq<T>, f: T -> nat)
    requires multiset(a) == multiset(b)
    ensures Total(a, f) == Total(b, f)
    decreases |a|
  {
    if a == [] {
      assert |b| == |multiset(b)| == 0;
    } else {
      var x := a[0];
      assert x in multiset(b);
      var j :| 0 <= j < |b| && b[j] == x;
      var b' := b[..j] + b[j + 1..];
      MultisetRemove(b, j);
      assert multiset(a[1..]) == multiset(a) - multiset{x} by {
        assert a == [x] + a[1..];
      }
      TotalPermutation(a[1..], b', f);
      TotalRemove(b, j, f);
    }
  }

  lemma MultisetRemove<T>(s: seq<T>, j: nat)
    requires j < |s|
    ensures multiset(s[..j] + s[j + 1..]) == multiset(s) - multiset{s[j]}
  {
    assert s == s[..j] + [s[j]] + s[j + 1..];
  }

  /** Sums of sequences that agree element by element under `f` are equal. */
  lemma {:induction false} TotalPointwise<T>(a: seq<T>, b: seq<T>, f: T -> nat)
    requires |a| == |b|
    requires forall i :: 0 <= i < |a| ==> f(a[i]) == f(b[i])
    ensures Total(a, f) == Total(b, f)
  {
    if a != [] {
      assert f(a[0]) == f(b[0]);
      TotalPointwise(a[1..], b[1..], f);
    }
  }
}
