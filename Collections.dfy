/** Queries over sequences that the store and the sanitisers share: the first element
    satisfying a predicate, and the sub-sequence of the elements that satisfy it. */
module Collections {
  import opened Wrappers

  /** The first element satisfying `p`, as a `findUnique` query returns it. */
  function Find<T>(s: seq<T>, p: T -> bool): (r: Option<T>)
    ensures r.Some? ==> r.value in s && p(r.value)
    ensures r.None? <==> forall x | x in s :: !p(x)
  {
    if s == [] then None
    else if p(s[0]) then Some(s[0])
    else Find(s[1..], p)
  }

  /** Appending to a sequence does not change what a query already finds in it. */
  lemma {:induction false} FindAppend<T>(s: seq<T>, x: T, p: T -> bool)
    requires Find(s, p).Some?
    ensures Find(s + [x], p) == Find(s, p)
  {
    if !p(s[0]) {
      assert (s + [x])[1..] == s[1..] + [x];
      FindAppend(s[1..], x, p);
    }
  }

  /** The elements of `s` that satisfy `p`, in their order: each such element keeps its
      number of occurrences and every other element disappears. */
  function Keep<T(!new)>(s: seq<T>, p: T -> bool): (r: seq<T>)
    ensures |r| <= |s|
    ensures forall i :: 0 <= i < |r| ==> p(r[i])
    ensures forall x :: multiset(r)[x] == if p(x) then multiset(s)[x] else 0
  {
    if s == [] then []
    else
      assert s == [s[0]] + s[1..];
      (if p(s[0]) then [s[0]] else []) + Keep(s[1..], p)
  }

  /** Keeping distributes over concatenation: what is kept from each part stays in its
      place, so the kept elements keep their input order. */
  lemma {:induction false} KeepAppend<T(!new)>(a: seq<T>, b: seq<T>, p: T -> bool)
    ensures Keep(a + b, p) == Keep(a, p) + Keep(b, p)
  {
    if a == [] {
      assert a + b == b;
    } else {
      assert (a + b)[0] == a[0] && (a + b)[1..] == a[1..] + b;
      KeepAppend(a[1..], b, p);
    }
  }

  /** A sequence whose elements all satisfy `p` is kept whole. */
  lemma {:induction false} KeepAll<T(!new)>(s: seq<T>, p: T -> bool)
    requires forall i :: 0 <= i < |s| ==> p(s[i])
    ensures Keep(s, p) == s
  {
    if s != [] {
      KeepAll(s[1..], p);
    }
  }

  /** Keeping twice is keeping once. */
  lemma KeepIdempotent<T(!new)>(s: seq<T>, p: T -> bool)
    ensures Keep(Keep(s, p), p) == Keep(s, p)
  {
    KeepAll(Keep(s, p), p);
  }
}
