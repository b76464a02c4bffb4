/** Helpers over a table held as a map from autoincrement id to row. */
module Tables {
  import opened Wrappers

  /** Every key is an id the autoincrement counter has already handed out. */
  ghost predicate KeysBelow<T>(m: map<int, T>, next: int)
  {
    1 <= next && forall k :: k in m ==> 1 <= k < next
  }

  /**
    * The smallest key in [lo, hi) whose row satisfies `p`: a scan in id order
    * that stops at the first hit, as a `select ... where ... limit 1` without
    * an `order by` does over a rowid table.
    */
  function FirstKeyWhere<T>(m: map<int, T>, p: T -> bool, lo: int, hi: int): (r: Option<int>)
    decreases hi - lo
    ensures r.Some? ==> lo <= r.value < hi && r.value in m && p(m[r.value])
    ensures r.Some? ==> forall k :: lo <= k < r.value && k in m ==> !p(m[k])
    ensures r.None? ==> forall k :: lo <= k < hi && k in m ==> !p(m[k])
  {
    if lo >= hi then None
    else if lo in m && p(m[lo]) then Some(lo)
    else FirstKeyWhere(m, p, lo + 1, hi)
  }

  /** All rows satisfying `p` (a `select ... where` without a limit). */
  function RowsWhere<T>(m: map<int, T>, p: T -> bool): set<T>
  {
    set r | r in m.Values && p(r)
  }
}
