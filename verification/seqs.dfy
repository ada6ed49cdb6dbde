/** Order-preserving filter and map over sequences, and the "is a subsequence of"
    relation between their results and their inputs. */
module Seqs {

  /** The elements of `s` that satisfy `p`, in the order they have in `s`. */
  function Filter<T(==,!new)>(s: seq<T>, p: T -> bool): (r: seq<T>)
    ensures |r| <= |s|
    ensures forall x :: x in r <==> x in s && p(x)
  {
    if s == [] then []
    else
      assert s == [s[0]] + s[1..];
      if p(s[0]) then [s[0]] + Filter(s[1..], p) else Filter(s[1..], p)
  }

  /** `f` applied to every element of `s`, in order. */
  function Map<T, U>(s: seq<T>, f: T -> U): (r: seq<U>)
    ensures |r| == |s|
    ensures forall i :: 0 <= i < |s| ==> r[i] == f(s[i])
  {
    if s == [] then [] else [f(s[0])] + Map(s[1..], f)
  }

  /** `a` is obtained from `b` by dropping elements, keeping the order of the rest. */
  predicate Subseq<T(==)>(a: seq<T>, b: seq<T>)
    decreases |b|
  {
    if a == [] then true
    else if b == [] then false
    else (a[0] == b[0] && Subseq(a[1..], b[1..])) || Subseq(a, b[1..])
  }

  lemma {:induction false} FilterConcat<T(!new)>(a: seq<T>, b: seq<T>, p: T -> bool)
    ensures Filter(a + b, p) == Filter(a, p) + Filter(b, p)
  {
    if a != [] {
      assert (a + b)[0] == a[0] && (a + b)[1..] == a[1..] + b;
      FilterConcat(a[1..], b, p);
      assert Filter(a, p) == (if p(a[0]) then [a[0]] else []) + Filter(a[1..], p);
    } else {
      assert a + b == b;
    }
  }

  lemma MapConcat<T, U>(a: seq<T>, b: seq<T>, f: T -> U)
    ensures Map(a + b, f) == Map(a, f) + Map(b, f)
  {
  }

  lemma {:induction false} SubseqMembers<T>(a: seq<T>, b: seq<T>)
    requires Subseq(a, b)
    ensures |a| <= |b|
    ensures forall x :: x in a ==> x in b
    decreases |b|
  {
    if a != [] {
      assert b != [];
      assert b == [b[0]] + b[1..];
      if a[0] == b[0] && Subseq(a[1..], b[1..]) {
        SubseqMembers(a[1..], b[1..]);
        assert a == [a[0]] + a[1..];
      } else {
        SubseqMembers(a, b[1..]);
      }
    }
  }

  /** Putting an element in front of `b` keeps `a` a subsequence of it. */
  lemma SubseqCons<T>(a: seq<T>, x: T, b: seq<T>)
    requires Subseq(a, b)
    ensures Subseq(a, [x] + b)
  {
  }

  lemma {:induction false} FilterIsSubseq<T(!new)>(s: seq<T>, p: T -> bool)
    ensures Subseq(Filter(s, p), s)
  {
    if s != [] {
      FilterIsSubseq(s[1..], p);
      if p(s[0]) {
        assert Filter(s, p)[1..] == Filter(s[1..], p);
      } else {
        SubseqCons(Filter(s[1..], p), s[0], s[1..]);
        assert [s[0]] + s[1..] == s;
      }
    }
  }

  /** Filtering with a test every element passes changes nothing. */
  lemma {:induction false} FilterAll<T(!new)>(s: seq<T>, p: T -> bool)
    requires forall x :: x in s ==> p(x)
    ensures Filter(s, p) == s
  {
    if s != [] {
      assert s == [s[0]] + s[1..];
      FilterAll(s[1..], p);
    }
  }

  /** Filtering with a test no element passes leaves nothing. */
  lemma {:induction false} FilterNone<T(!new)>(s: seq<T>, p: T -> bool)
    requires forall x :: x in s ==> !p(x)
    ensures Filter(s, p) == []
  {
    if s != [] {
      assert s[0] in s;
      FilterNone(s[1..], p);
    }
  }

  /** Filtering with a weaker test keeps at least the same elements, in the same order. */
  lemma {:induction false} FilterMonotone<T(!new)>(s: seq<T>, p: T -> bool, q: T -> bool)
    requires forall x :: x in s && p(x) ==> q(x)
    ensures Subseq(Filter(s, p), Filter(s, q))
  {
    if s != [] {
      assert s == [s[0]] + s[1..];
      FilterMonotone(s[1..], p, q);
      var fp, fq := Filter(s[1..], p), Filter(s[1..], q);
      if p(s[0]) {
        assert Filter(s, p) == [s[0]] + fp && Filter(s, q) == [s[0]] + fq;
        assert ([s[0]] + fp)[1..] == fp && ([s[0]] + fq)[1..] == fq;
      } else if q(s[0]) {
        SubseqCons(fp, s[0], fq);
      }
    }
  }

  lemma {:induction false} SubseqMap<T, U>(a: seq<T>, b: seq<T>, f: T -> U)
    requires Subseq(a, b)
    ensures Subseq(Map(a, f), Map(b, f))
    decreases |b|
  {
    if a != [] {
      var ma, mb := Map(a, f), Map(b, f);
      assert mb == [f(b[0])] + Map(b[1..], f);
      if a[0] == b[0] && Subseq(a[1..], b[1..]) {
        SubseqMap(a[1..], b[1..], f);
        assert ma[0] == mb[0] && ma[1..] == Map(a[1..], f) && mb[1..] == Map(b[1..], f);
      } else {
        SubseqMap(a, b[1..], f);
        SubseqCons(ma, f(b[0]), Map(b[1..], f));
      }
    }
  }
}
