/** Error kinds of the service layer and the sequence operations (Array.prototype
    filter, map and findIndex) that the stores are written with. */
module Common {

  /** The three client-visible exception classes (NotFoundError, AuthorizationError
      and InvariantError), and `Fault` for any other exception, such as a TypeError,
      which is not a ClientError and so becomes a server fault. */
  datatype Error = NotFound | Authorization | Invariant | Fault

  /** The result of a call that either returns nothing or throws. */
  datatype Outcome = Pass | Fail(error: Error)

  /** The result of a call that either returns a value or throws. */
  datatype Result<T> = Ok(value: T) | Err(error: Error)

  /** A field that may be undefined (or NULL in a table). */
  datatype Option<T> = None | Some(value: T)

  /** `s.filter(p)`: the elements of `s` that satisfy `p`, in the order of `s`. */
  function Filter<T(!new)>(p: T -> bool, s: seq<T>): (r: seq<T>)
    ensures |r| <= |s|
    ensures forall x :: x in r <==> x in s && p(x)
  {
    if s == [] then []
    else if p(s[0]) then [s[0]] + Filter(p, s[1..])
    else Filter(p, s[1..])
  }

  /** `s.map(f)`: one image per element, position by position. */
  function MapSeq<T, U>(f: T -> U, s: seq<T>): (r: seq<U>)
    ensures |r| == |s|
    ensures forall i :: 0 <= i < |s| ==> r[i] == f(s[i])
  {
    if s == [] then [] else [f(s[0])] + MapSeq(f, s[1..])
  }

  /** `s.findIndex(p)`: the index of the first element satisfying `p`, or -1. */
  function FindIndex<T>(p: T -> bool, s: seq<T>): (k: int)
    ensures -1 <= k < |s|
    ensures k == -1 <==> forall i :: 0 <= i < |s| ==> !p(s[i])
    ensures k >= 0 ==> p(s[k]) && forall i :: 0 <= i < k ==> !p(s[i])
  {
    if s == [] then -1
    else if p(s[0]) then 0
    else
      var k := FindIndex(p, s[1..]);
      if k == -1 then -1 else k + 1
  }

  /** Filtering distributes over concatenation: it keeps the order of `s`. */
  lemma {:induction false} FilterAppend<T(!new)>(p: T -> bool, a: seq<T>, b: seq<T>)
    ensures Filter(p, a + b) == Filter(p, a) + Filter(p, b)
  {
    if a == [] {
      assert a + b == b;
    } else {
      assert (a + b)[0] == a[0];
      assert (a + b)[1..] == a[1..] + b;
      FilterAppend(p, a[1..], b);
    }
  }

  /** A filter that every element passes returns the sequence unchanged. */
  lemma {:induction false} FilterAllPass<T(!new)>(p: T -> bool, s: seq<T>)
    requires forall i :: 0 <= i < |s| ==> p(s[i])
    ensures Filter(p, s) == s
  {
    if s != [] {
      FilterAllPass(p, s[1..]);
    }
  }

  /** Two filters in a row are one filter on the conjunction. */
  lemma {:induction false} FilterConjunction<T(!new)>(p: T -> bool, q: T -> bool, pq: T -> bool, s: seq<T>)
    requires forall x :: pq(x) == (p(x) && q(x))
    ensures Filter(q, Filter(p, s)) == Filter(pq, s)
  {
    if s != [] {
      FilterConjunction(p, q, pq, s[1..]);
      if p(s[0]) {
        assert Filter(p, s) == [s[0]] + Filter(p, s[1..]);
        assert Filter(p, s)[1..] == Filter(p, s[1..]);
      }
    }
  }

  /** The head of a non-empty filter is the element `findIndex` finds. */
  lemma {:induction false} FilterHeadIsFirst<T(!new)>(p: T -> bool, s: seq<T>)
    requires FindIndex(p, s) >= 0
    ensures Filter(p, s) != [] && Filter(p, s)[0] == s[FindIndex(p, s)]
  {
    if !p(s[0]) {
      FilterHeadIsFirst(p, s[1..]);
    }
  }

  /** Filtering the images is projecting the filtered elements, when `q` holds of
      an image exactly when `p` holds of its source. */
  lemma {:induction false} FilterMapSeq<T(!new), U(!new)>(p: T -> bool, f: T -> U, q: U -> bool, s: seq<T>)
    requires forall x :: q(f(x)) == p(x)
    ensures Filter(q, MapSeq(f, s)) == MapSeq(f, Filter(p, s))
  {
    if s != [] {
      assert MapSeq(f, s)[0] == f(s[0]);
      assert MapSeq(f, s)[1..] == MapSeq(f, s[1..]);
      FilterMapSeq(p, f, q, s[1..]);
    }
  }

  /** Projection distributes over concatenation. */
  lemma {:induction false} MapSeqAppend<T, U>(f: T -> U, a: seq<T>, b: seq<T>)
    ensures MapSeq(f, a + b) == MapSeq(f, a) + MapSeq(f, b)
  {
    if a == [] {
      assert a + b == b;
    } else {
      assert (a + b)[1..] == a[1..] + b;
      MapSeqAppend(f, a[1..], b);
    }
  }

  /** Filtering keeps every copy of an element that passes and no copy of one
      that fails. */
  lemma {:induction false} FilterMultiplicity<T(!new)>(p: T -> bool, s: seq<T>, x: T)
    ensures multiset(Filter(p, s))[x] == if p(x) then multiset(s)[x] else 0
  {
    if s != [] {
      FilterMultiplicity(p, s[1..], x);
      assert s == [s[0]] + s[1..];
      assert multiset(s) == multiset([s[0]]) + multiset(s[1..]);
    }
  }
}
