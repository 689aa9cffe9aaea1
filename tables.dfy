/**
 * Queries over a table: a map from primary key to record. An unordered Django queryset is
 * ordered by primary key, so `.first()` is the least matching key and a listing is the
 * matching keys in ascending order. Every table's keys lie below the database's next id,
 * which bounds the scans.
 */
module Tables {
  import opened Common

  /** Every key of `m` lies below `bound`. */
  predicate KeysBelow<T>(m: map<nat, T>, bound: nat) {
    forall k :: k in m ==> k < bound
  }

  /** The least key in `from..bound` whose record satisfies `p`. */
  function FirstFrom<T>(m: map<nat, T>, p: T -> bool, from: nat, bound: nat): (r: Option<nat>)
    ensures r.Some? ==> from <= r.value < bound && r.value in m && p(m[r.value])
    ensures r.Some? ==> forall k :: k in m && from <= k < r.value ==> !p(m[k])
    ensures r.None? ==> forall k :: k in m && from <= k < bound ==> !p(m[k])
    decreases bound - from
  {
    if from >= bound then None
    else if from in m && p(m[from]) then Some(from)
    else FirstFrom(m, p, from + 1, bound)
  }

  /** `filter(p).first()`: the matching record with the least key, if any. */
  function FirstMatch<T>(m: map<nat, T>, p: T -> bool, bound: nat): (r: Option<nat>)
    ensures r.Some? ==> r.value in m && p(m[r.value])
    ensures r.Some? ==> forall k :: k in m && k < r.value ==> !p(m[k])
    ensures r.None? && KeysBelow(m, bound) ==> forall k :: k in m ==> !p(m[k])
  {
    FirstFrom(m, p, 0, bound)
  }

  /** The keys in `from..bound` whose records satisfy `p`, ascending. */
  function KeysFrom<T>(m: map<nat, T>, p: T -> bool, from: nat, bound: nat): (r: seq<nat>)
    ensures forall k :: k in r <==> k in m && from <= k < bound && p(m[k])
    ensures forall i, j :: 0 <= i < j < |r| ==> r[i] < r[j]
    ensures forall i :: 0 <= i < |r| ==> from <= r[i]
    decreases bound - from
  {
    if from >= bound then []
    else if from in m && p(m[from]) then [from] + KeysFrom(m, p, from + 1, bound)
    else KeysFrom(m, p, from + 1, bound)
  }

  /** `filter(p)` listed in primary-key order. */
  function KeysWhere<T>(m: map<nat, T>, p: T -> bool, bound: nat): (r: seq<nat>)
    requires KeysBelow(m, bound)
    ensures forall k :: k in r <==> k in m && p(m[k])
    ensures forall i, j :: 0 <= i < j < |r| ==> r[i] < r[j]
  {
    KeysFrom(m, p, 0, bound)
  }

  /**
   * A query answers the same on two tables with the same keys on which the filter agrees
   * record by record (for example after a write that leaves the filtered field alone).
   */
  lemma {:induction false} FirstMatchAgrees<T>(m: map<nat, T>, m': map<nat, T>, p: T -> bool, bound: nat)
    requires m.Keys == m'.Keys
    requires forall k :: k in m ==> p(m[k]) == p(m'[k])
    ensures FirstMatch(m, p, bound) == FirstMatch(m', p, bound)
  {
    FirstFromAgrees(m, m', p, 0, bound);
  }

  lemma {:induction false} FirstFromAgrees<T>(m: map<nat, T>, m': map<nat, T>, p: T -> bool, from: nat, bound: nat)
    requires m.Keys == m'.Keys
    requires forall k :: k in m ==> p(m[k]) == p(m'[k])
    ensures FirstFrom(m, p, from, bound) == FirstFrom(m', p, from, bound)
    decreases bound - from
  {
    if from < bound {
      FirstFromAgrees(m, m', p, from + 1, bound);
    }
  }

  /** When exactly one record matches, `.first()` finds it. */
  lemma FirstMatchUnique<T>(m: map<nat, T>, p: T -> bool, bound: nat, k: nat)
    requires KeysBelow(m, bound)
    requires k in m && p(m[k])
    requires forall j :: j in m && j != k ==> !p(m[j])
    ensures FirstMatch(m, p, bound) == Some(k)
  {
  }
}
