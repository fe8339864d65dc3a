/** Order-preserving filtering and mapping over sequences, as `Array.prototype.filter` and `map`. */
module Seqs {

  /** `a` is `b` with some elements left out, the rest in their original order. */
  predicate IsSubseq<T(==)>(a: seq<T>, b: seq<T>)
    decreases |b|
  {
    if |a| == 0 then true
    else if |b| == 0 then false
    else if a[0] == b[0] then IsSubseq(a[1..], b[1..])
    else IsSubseq(a, b[1..])
  }

  /** The elements of `s` that satisfy `p`, in order. */
  function Filter<T(==)>(p: T -> bool, s: seq<T>): (r: seq<T>)
    ensures |r| <= |s|
    ensures forall i :: 0 <= i < |r| ==> p(r[i])
    ensures forall i :: 0 <= i < |r| ==> r[i] in s
    ensures forall i :: 0 <= i < |s| && p(s[i]) ==> s[i] in r
    ensures IsSubseq(r, s)
    ensures (forall i :: 0 <= i < |s| ==> p(s[i])) ==> r == s
    decreases |s|
  {
    if |s| == 0 then []
    else
      var rest := Filter(p, s[1..]);
      assert forall i :: 1 <= i < |s| ==> s[i] == s[1..][i - 1];
      if p(s[0]) then
        assert ([s[0]] + rest)[1..] == rest;
        [s[0]] + rest
      else rest
  }

  /** Filtering distributes over concatenation. */
  lemma {:induction false} FilterAppend<T>(p: T -> bool, a: seq<T>, b: seq<T>)
    ensures Filter(p, a + b) == Filter(p, a) + Filter(p, b)
    decreases |a|
  {
    if |a| > 0 {
      var ab := a + b;
      assert ab[0] == a[0];
      assert ab[1..] == a[1..] + b;
      FilterAppend(p, a[1..], b);
      if p(a[0]) {
        calc {
          Filter(p, ab);
          [a[0]] + Filter(p, a[1..] + b);
          [a[0]] + (Filter(p, a[1..]) + Filter(p, b));
          ([a[0]] + Filter(p, a[1..])) + Filter(p, b);
        }
      }
    } else {
      assert a + b == b;
    }
  }

  /** An element the predicate rejects leaves no trace in the filter. */
  lemma FilterSkips<T>(p: T -> bool, a: seq<T>, x: T, b: seq<T>)
    requires !p(x)
    ensures Filter(p, a + [x] + b) == Filter(p, a + b)
  {
    FilterAppend(p, a, [x] + b);
    FilterAppend(p, a, b);
    assert a + [x] + b == a + ([x] + b);
    assert ([x] + b)[1..] == b;
  }

  /** The number of elements of `s` that satisfy `p`. */
  function Count<T>(p: T -> bool, s: seq<T>): nat
    decreases |s|
  {
    if |s| == 0 then 0 else (if p(s[0]) then 1 else 0) + Count(p, s[1..])
  }

  /** A filter keeps exactly as many elements as satisfy the predicate. */
  lemma {:induction false} FilterLength<T>(p: T -> bool, s: seq<T>)
    ensures |Filter(p, s)| == Count(p, s)
    decreases |s|
  {
    if |s| > 0 {
      FilterLength(p, s[1..]);
    }
  }

  /** `f` applied to every element of `s`, in order. */
  function Map<T, U>(f: T -> U, s: seq<T>): (r: seq<U>)
    ensures |r| == |s|
    ensures forall i :: 0 <= i < |s| ==> r[i] == f(s[i])
  {
    seq(|s|, i requires 0 <= i < |s| => f(s[i]))
  }

  /** Mapping distributes over concatenation. */
  lemma MapAppend<T, U>(f: T -> U, a: seq<T>, b: seq<T>)
    ensures Map(f, a + b) == Map(f, a) + Map(f, b)
  {
  }

  /** Encoding every element with `enc` and keeping those `p` accepts reads back, through `dec`,
      as the original sequence when every encoding is accepted and decodes to its element. */
  lemma ReadBack<T, U>(enc: T -> U, p: U -> bool, dec: U -> T, s: seq<T>)
    requires forall i :: 0 <= i < |s| ==> p(enc(s[i])) && dec(enc(s[i])) == s[i]
    ensures Map(dec, Filter(p, Map(enc, s))) == s
  {
    var encoded := Map(enc, s);
    assert forall i :: 0 <= i < |encoded| ==> p(encoded[i]);
    assert Filter(p, encoded) == encoded;
  }

  /** Filtering after mapping is mapping after filtering with the pulled-back predicate. */
  lemma {:induction false} FilterMap<T, U>(p: U -> bool, f: T -> U, q: T -> bool, s: seq<T>)
    requires forall x :: q(x) == p(f(x))
    ensures Filter(p, Map(f, s)) == Map(f, Filter(q, s))
    decreases |s|
  {
    if |s| > 0 {
      var ms := Map(f, s);
      assert ms[0] == f(s[0]);
      assert ms[1..] == Map(f, s[1..]);
      FilterMap(p, f, q, s[1..]);
      if q(s[0]) {
        assert Filter(p, ms) == [f(s[0])] + Filter(p, ms[1..]);
        assert Filter(q, s) == [s[0]] + Filter(q, s[1..]);
        assert Map(f, [s[0]] + Filter(q, s[1..])) == [f(s[0])] + Map(f, Filter(q, s[1..]));
      } else {
        assert Filter(p, ms) == Filter(p, ms[1..]);
        assert Filter(q, s) == Filter(q, s[1..]);
      }
    }
  }
}
