/** `Array.prototype.filter` and the paginated-response normalisation shared by the list views. */
module Lists {
  import opened Wrappers

  /** `s.filter(p)`: the elements satisfying `p`, in their original order. */
  function Filter<T>(s: seq<T>, p: T -> bool): (r: seq<T>)
    ensures |r| <= |s|
    ensures forall i :: 0 <= i < |r| ==> p(r[i]) && r[i] in s
    ensures forall i :: 0 <= i < |s| && p(s[i]) ==> s[i] in r
  {
    if s == [] then []
    else if p(s[0]) then [s[0]] + Filter(s[1..], p)
    else Filter(s[1..], p)
  }

  /** Filtering distributes over concatenation, so the relative order of kept elements is preserved. */
  lemma {:induction false} FilterAppend<T>(a: seq<T>, b: seq<T>, p: T -> bool)
    ensures Filter(a + b, p) == Filter(a, p) + Filter(b, p)
    decreases |a|
  {
    if a != [] {
      assert (a + b)[0] == a[0] && (a + b)[1..] == a[1..] + b;
      FilterAppend(a[1..], b, p);
    } else {
      assert a + b == b;
    }
  }

  /** A predicate that holds of every element keeps the whole sequence. */
  lemma {:induction false} FilterKeepsAll<T>(s: seq<T>, p: T -> bool)
    requires forall i :: 0 <= i < |s| ==> p(s[i])
    ensures Filter(s, p) == s
    decreases |s|
  {
    if s != [] {
      FilterKeepsAll(s[1..], p);
    }
  }

  /** Filters by two predicates that never hold together keep at most the whole sequence between them. */
  lemma {:induction false} FilterDisjointLength<T>(s: seq<T>, p: T -> bool, q: T -> bool)
    requires forall x :: !(p(x) && q(x))
    ensures |Filter(s, p)| + |Filter(s, q)| <= |s|
    decreases |s|
  {
    if s != [] {
      FilterDisjointLength(s[1..], p, q);
    }
  }

  /**
   * A list endpoint answers either with a plain JSON array or with a
   * paginated object whose `results` may be missing.
   */
  datatype ListResponse<T> = PlainArray(items: seq<T>) | Paginated(results: Option<seq<T>>)

  /** `Array.isArray(data) ? data : data.results || []`. */
  function Normalize<T>(data: ListResponse<T>): (r: seq<T>)
    ensures data.PlainArray? ==> r == data.items
    ensures data.Paginated? && data.results.Some? ==> r == data.results.value
    ensures data.Paginated? && data.results.None? ==> r == []
  {
    match data
    case PlainArray(items) => items
    case Paginated(results) => results.GetOr([])
  }
}
