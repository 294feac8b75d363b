/** The left-to-right scan over positions that re.search performs. */
module Search {
  import opened Wrappers

  /**
   * The first position q with p <= q < n at which f has a result, or n if
   * there is none (p itself when p >= n).
   */
  function FirstPos<T>(f: nat -> Option<T>, p: nat, n: nat): (k: nat)
    ensures p <= k && (p <= n ==> k <= n)
    ensures forall q: nat :: p <= q < k ==> f(q).None?
    ensures k < n ==> f(k).Some?
    decreases n - p
  {
    if p >= n || f(p).Some? then p else FirstPos(f, p + 1, n)
  }

  /** The result at the first position that has one. */
  function FirstFrom<T>(f: nat -> Option<T>, p: nat, n: nat): Option<T> {
    var k := FirstPos(f, p, n);
    if k < n then f(k) else None
  }

  /** FirstFrom is absent exactly when every position in range is absent. */
  lemma FirstFromNone<T>(f: nat -> Option<T>, p: nat, n: nat)
    ensures FirstFrom(f, p, n).None? <==> forall q: nat :: p <= q < n ==> f(q).None?
  {
  }
}
