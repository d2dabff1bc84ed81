/**
 * The array operations every callback registry of the SDK is built from:
 * `indexOf`, `splice(index, 1)` and the insertion-ordered set used for rooms.
 */
module Sequences {

  /** `Array.prototype.indexOf` under strict equality: the first position of `x` in `s`, or -1. */
  function IndexOf<T(==)>(s: seq<T>, x: T): (i: int)
    ensures -1 <= i < |s|
    ensures i == -1 <==> x !in s
    ensures 0 <= i ==> s[i] == x && x !in s[..i]
  {
    if s == [] then -1
    else if s[0] == x then 0
    else
      var j := IndexOf(s[1..], x);
      if j == -1 then -1
      else
        assert s[..j + 1] == [s[0]] + s[1..][..j];
        j + 1
  }

  /**
   * The unsubscribe closure of a registry: look the callback up with `indexOf`
   * and, when found, `splice` that one position out.
   */
  function RemoveFirst<T(==)>(s: seq<T>, x: T): (r: seq<T>)
    ensures x !in s ==> r == s
    ensures |r| == if x in s then |s| - 1 else |s|
  {
    var i := IndexOf(s, x);
    if i > -1 then s[..i] + s[i + 1..] else s
  }

  /** The `indexOf` and `splice(index, 1)` pair every unsubscribe closure runs on its registry. */
  method SpliceOut<T(==)>(registry: seq<T>, x: T) returns (r: seq<T>)
    ensures r == RemoveFirst(registry, x)
  {
    r := registry;
    var index := IndexOf(registry, x);
    if index > -1 {
      r := registry[..index] + registry[index + 1..];
    }
  }

  /** `s` with every occurrence of `x` dropped, the rest in their order. */
  function Without<T(==)>(s: seq<T>, x: T): (r: seq<T>)
    ensures x !in r
    ensures forall i :: 0 <= i < |r| ==> r[i] in s
    ensures forall i :: 0 <= i < |s| && s[i] != x ==> s[i] in r
    ensures |r| <= |s|
  {
    if s == [] then []
    else if s[0] == x then Without(s[1..], x)
    else [s[0]] + Without(s[1..], x)
  }

  /** No element occurs twice: the sequence is the iteration order of a JavaScript `Set`. */
  predicate Distinct<T(==)>(s: seq<T>) {
    forall i, j :: 0 <= i < j < |s| ==> s[i] != s[j]
  }

  /** How many times `x` occurs in `s`. */
  function Occurrences<T(==)>(s: seq<T>, x: T): nat {
    multiset(s)[x]
  }

  /** Unsubscribing removes exactly one registration of the callback, if it has any. */
  lemma RemoveFirstRemovesOne<T>(s: seq<T>, x: T)
    ensures Occurrences(RemoveFirst(s, x), x) == if x in s then Occurrences(s, x) - 1 else 0
    ensures forall y :: y != x ==> Occurrences(RemoveFirst(s, x), y) == Occurrences(s, y)
  {
    if x in s {
      var i := IndexOf(s, x);
      assert s == s[..i] + [s[i]] + s[i + 1..];
      assert multiset(s) == multiset(s[..i]) + multiset{x} + multiset(s[i + 1..]);
    }
  }

  /**
   * The registration removed is the earliest one: `x` occurs at some position
   * with no `x` before it, and the result is the sequence with that position cut out.
   */
  lemma RemoveFirstIsFirst<T>(s: seq<T>, x: T)
    requires x in s
    ensures exists i :: 0 <= i < |s| && s[i] == x && x !in s[..i] && RemoveFirst(s, x) == s[..i] + s[i + 1..]
  {
    var i := IndexOf(s, x);
    assert s[i] == x && x !in s[..i];
  }

  /** Past a head that is not `x`, unsubscribing works on the tail. */
  lemma RemoveFirstCons<T>(s: seq<T>, x: T)
    requires s != [] && s[0] != x
    ensures RemoveFirst(s, x) == [s[0]] + RemoveFirst(s[1..], x)
  {
    var t := s[1..];
    var j := IndexOf(t, x);
    if j != -1 {
      assert IndexOf(s, x) == j + 1;
      calc {
        RemoveFirst(s, x);
        s[..j + 1] + s[j + 2..];
        { assert s[..j + 1] == [s[0]] + t[..j]; assert s[j + 2..] == t[j + 1..]; }
        [s[0]] + (t[..j] + t[j + 1..]);
      }
    } else {
      assert IndexOf(s, x) == -1;
      assert [s[0]] + t == s;
    }
  }

  /** Unsubscribing keeps every other registration, in its order. */
  lemma {:induction false} RemoveFirstKeepsOthers<T>(s: seq<T>, x: T)
    ensures Without(RemoveFirst(s, x), x) == Without(s, x)
  {
    if s != [] && s[0] != x {
      RemoveFirstCons(s, x);
      var r := RemoveFirst(s[1..], x);
      assert ([s[0]] + r)[1..] == r;
      RemoveFirstKeepsOthers(s[1..], x);
    } else if s != [] {
      assert RemoveFirst(s, x) == s[1..] by {
        assert IndexOf(s, x) == 0;
        assert s[..0] + s[1..] == s[1..];
      }
    }
  }

  /** `indexOf` on a concatenation looks in the left part first. */
  lemma {:induction false} IndexOfAppend<T>(s: seq<T>, t: seq<T>, x: T)
    ensures x in s ==> IndexOf(s + t, x) == IndexOf(s, x)
    ensures x !in s && x in t ==> IndexOf(s + t, x) == |s| + IndexOf(t, x)
  {
    if s != [] {
      assert (s + t)[0] == s[0];
      if s[0] != x {
        assert (s + t)[1..] == s[1..] + t;
        IndexOfAppend(s[1..], t, x);
      }
    } else {
      assert s + t == t;
    }
  }

  /**
   * Registering a callback that is already registered and then calling the
   * second registration's unsubscribe removes the EARLIER registration: the
   * closure finds the callback by reference, not by registration.
   */
  lemma UnsubscribeHitsEarliest<T>(s: seq<T>, x: T)
    ensures x in s ==> RemoveFirst(s + [x], x) == RemoveFirst(s, x) + [x]
    ensures x !in s ==> RemoveFirst(s + [x], x) == s
  {
    IndexOfAppend(s, [x], x);
    if x in s {
      var j := IndexOf(s, x);
      assert (s + [x])[..j] == s[..j];
      assert (s + [x])[j + 1..] == s[j + 1..] + [x];
    } else {
      assert (s + [x])[..|s|] == s;
    }
  }

  /** A callback registered once is gone after one unsubscribe, so a second call changes nothing. */
  lemma UnsubscribeTwiceIsNoOp<T>(s: seq<T>, x: T)
    requires Occurrences(s, x) <= 1
    ensures x !in RemoveFirst(s, x)
    ensures RemoveFirst(RemoveFirst(s, x), x) == RemoveFirst(s, x)
  {
    RemoveFirstRemovesOne(s, x);
    assert Occurrences(RemoveFirst(s, x), x) == 0;
  }

  /** Dropping an element from a distinct sequence keeps it distinct and removes exactly that member. */
  lemma {:induction false} WithoutDistinct<T>(s: seq<T>, x: T)
    requires Distinct(s)
    ensures Distinct(Without(s, x))
    ensures |Without(s, x)| == if x in s then |s| - 1 else |s|
  {
    if s != [] {
      WithoutDistinct(s[1..], x);
      if s[0] != x {
        assert s[0] !in s[1..];
        assert s[0] !in Without(s[1..], x);
      } else {
        assert x !in s[1..];
      }
    }
  }

  /** Dropping an absent element changes nothing. */
  lemma {:induction false} WithoutAbsent<T>(s: seq<T>, x: T)
    requires x !in s
    ensures Without(s, x) == s
  {
    if s != [] {
      WithoutAbsent(s[1..], x);
    }
  }

  /** Dropping the one occurrence of `x` from the middle of a sequence splices it out. */
  lemma {:induction false} WithoutSplice<T>(a: seq<T>, x: T, b: seq<T>)
    requires x !in a && x !in b
    ensures Without(a + [x] + b, x) == a + b
  {
    if a == [] {
      assert a + [x] + b == [x] + b;
      assert ([x] + b)[1..] == b;
      WithoutAbsent(b, x);
    } else {
      assert (a + [x] + b)[1..] == a[1..] + [x] + b;
      WithoutSplice(a[1..], x, b);
      assert a + b == [a[0]] + (a[1..] + b);
    }
  }
}
