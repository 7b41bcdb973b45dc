/** Sequence helpers shared by the string and scanner modules. */
module Seqs {

  /** All but the last element. */
  function Front<T>(s: seq<T>): (r: seq<T>)
    requires |s| > 0
    ensures |r| == |s| - 1 && s == r + [s[|s| - 1]]
  {
    s[..|s| - 1]
  }

  /** The last element. */
  function Last<T>(s: seq<T>): T
    requires |s| > 0
  {
    s[|s| - 1]
  }

  predicate IsPrefix<T(==)>(p: seq<T>, s: seq<T>)
  {
    |p| <= |s| && p == s[..|p|]
  }

  function Reverse<T>(s: seq<T>): (r: seq<T>)
    ensures |r| == |s|
  {
    if |s| == 0 then [] else Reverse(s[1..]) + [s[0]]
  }

  lemma {:induction false} ReverseAt<T>(s: seq<T>, k: nat)
    requires k < |s|
    ensures Reverse(s)[k] == s[|s| - 1 - k]
  {
    if k < |s| - 1 {
      ReverseAt(s[1..], k);
    }
  }

  lemma {:induction false} ReverseConcat<T>(a: seq<T>, b: seq<T>)
    ensures Reverse(a + b) == Reverse(b) + Reverse(a)
  {
    var r, r' := Reverse(a + b), Reverse(b) + Reverse(a);
    forall k | 0 <= k < |r| ensures r[k] == r'[k] {
      ReverseAt(a + b, k);
      if k < |b| {
        ReverseAt(b, k);
      } else {
        ReverseAt(a, k - |b|);
      }
    }
  }

  /** The pieces `f` gives for each element, concatenated in order. */
  function MapConcat<T, U>(s: seq<T>, f: T -> seq<U>): (r: seq<U>)
    ensures |s| == 1 ==> r == f(s[0])
  {
    if |s| == 0 then [] else MapConcat(Front(s), f) + f(Last(s))
  }

  /** When `f` gives at most one piece per element, there are at most as many pieces as elements. */
  lemma {:induction false} MapConcatAtMostOne<T, U>(s: seq<T>, f: T -> seq<U>)
    requires forall x :: |f(x)| <= 1
    ensures |MapConcat(s, f)| <= |s|
  {
    if |s| > 0 {
      MapConcatAtMostOne(Front(s), f);
    }
  }

  /** Reversing a buffer with at most one element appended puts that element first. */
  lemma ReverseAppendShort<T>(a: seq<T>, b: seq<T>)
    requires |b| <= 1
    ensures Reverse(a + b) == b + Reverse(a)
  {
    ReverseConcat(a, b);
    assert Reverse(b) == b;
  }

  /**
   * The parts separated by `sep`, as PHP's `implode` would put them together;
   * `Join([], sep)` is empty.
   */
  function Join<T>(parts: seq<seq<T>>, sep: seq<T>): seq<T>
  {
    if |parts| == 0 then []
    else if |parts| == 1 then parts[0]
    else Join(Front(parts), sep) + sep + Last(parts)
  }

  lemma {:induction false} JoinCons<T>(a: seq<T>, rest: seq<seq<T>>, sep: seq<T>)
    requires |rest| > 0
    ensures Join([a] + rest, sep) == a + sep + Join(rest, sep)
  {
    if |rest| > 1 {
      assert Front([a] + rest) == [a] + Front(rest);
      JoinCons(a, Front(rest), sep);
    } else {
      assert Front([a] + rest) == [a];
    }
  }
}
