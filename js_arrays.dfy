/** The JavaScript array operations the reader relies on: `filter` and `find`. */
module JsArrays {
  import opened Wrappers

  /** Index of the first element satisfying `p`, if any. */
  function FirstIndex<T>(s: seq<T>, p: T -> bool): (r: Option<nat>)
    ensures r.Some? ==> r.value < |s| && p(s[r.value])
    ensures r.Some? ==> forall j :: 0 <= j < r.value ==> !p(s[j])
    ensures r.None? <==> forall j :: 0 <= j < |s| ==> !p(s[j])
  {
    if |s| == 0 then None
    else if p(s[0]) then Some(0)
    else match FirstIndex(s[1..], p)
      case Some(i) => Some(i + 1)
      case None => None
  }

  /** `s.find(p)`: the first element satisfying `p`, or `undefined`. */
  function Find<T>(s: seq<T>, p: T -> bool): Option<T> {
    match FirstIndex(s, p)
    case Some(i) => Some(s[i])
    case None => None
  }

  /** `s.filter(p)`: the elements satisfying `p`, in their original order. */
  function Filter<T>(s: seq<T>, p: T -> bool): (r: seq<T>)
    ensures |r| <= |s|
  {
    if |s| == 0 then []
    else (if p(s[0]) then [s[0]] else []) + Filter(s[1..], p)
  }

  /** Searching past an element that fails `p` is searching the rest. */
  lemma FindSkip<T>(s: seq<T>, p: T -> bool)
    requires |s| > 0 && !p(s[0])
    ensures Find(s, p) == Find(s[1..], p)
  {
  }

  /**
   * Searching the filtered array for `q` finds the same element as searching
   * the whole array for "`p` and `q`": filtering keeps the order.
   */
  lemma {:induction false} FindInFilter<T>(s: seq<T>, p: T -> bool, q: T -> bool, both: T -> bool)
    requires forall x :: both(x) == (p(x) && q(x))
    ensures Find(Filter(s, p), q) == Find(s, both)
  {
    if |s| > 0 {
      FindInFilter(s[1..], p, q, both);
      var rest := Filter(s[1..], p);
      if p(s[0]) {
        assert Filter(s, p) == [s[0]] + rest;
        assert ([s[0]] + rest)[1..] == rest;
        if !q(s[0]) {
          FindSkip(Filter(s, p), q);
          FindSkip(s, both);
        }
      } else {
        assert Filter(s, p) == rest;
        FindSkip(s, both);
      }
    }
  }

  /** The filtered array is empty exactly when nothing satisfies `p`. */
  lemma {:induction false} FilterEmptyIff<T>(s: seq<T>, p: T -> bool)
    ensures Filter(s, p) == [] <==> Find(s, p) == None
  {
    if |s| > 0 {
      FilterEmptyIff(s[1..], p);
    }
  }

  /** The head of the filtered array is the first element satisfying `p`. */
  lemma {:induction false} FilterHead<T>(s: seq<T>, p: T -> bool)
    requires Filter(s, p) != []
    ensures Find(s, p) == Some(Filter(s, p)[0])
  {
    assert |s| > 0;
    if !p(s[0]) {
      assert Filter(s, p) == Filter(s[1..], p);
      FilterHead(s[1..], p);
    }
  }
}
