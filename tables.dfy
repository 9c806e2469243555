/**
 * Generic facts about a table kept as a map from primary key to row: the store hands out
 * ids 1, 2, 3, ... from a per-table counter. A `filter_by(...).first()` query returns some
 * matching row, in no order the query fixes; the model picks the one with the least id. Every
 * such query in the handlers is on a unique column, so at most one row matches and the choice
 * cannot be observed.
 */
module Tables {
  import opened Wrappers

  /** Every primary key of `m` was handed out by a counter that started at 1 and now stands at `nextId`. */
  predicate IdsBelow<T>(m: map<int, T>, nextId: int)
  {
    1 <= nextId && forall id :: id in m ==> 1 <= id < nextId
  }

  /** The least id in [lo, hi) whose row satisfies `p`, if there is one. */
  function FindFirst<T>(m: map<int, T>, p: T -> bool, lo: int, hi: int): (r: Option<int>)
    decreases hi - lo
    ensures r.Some? ==> lo <= r.value < hi && r.value in m && p(m[r.value])
    ensures r.Some? ==> forall id :: lo <= id < r.value && id in m ==> !p(m[id])
    ensures r.None? ==> forall id :: lo <= id < hi && id in m ==> !p(m[id])
  {
    if hi <= lo then None
    else if lo in m && p(m[lo]) then Some(lo)
    else FindFirst(m, p, lo + 1, hi)
  }

  /** `filter_by(...).first()` over a whole table, resolved to the matching row with the least id. */
  function First<T>(m: map<int, T>, nextId: int, p: T -> bool): (r: Option<int>)
    requires IdsBelow(m, nextId)
    ensures r.Some? ==> r.value in m && p(m[r.value])
    ensures r.Some? ==> forall id :: id in m && id < r.value ==> !p(m[id])
    ensures r.None? <==> forall id :: id in m ==> !p(m[id])
  {
    FindFirst(m, p, 1, nextId)
  }
}
