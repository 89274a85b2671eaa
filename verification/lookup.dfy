/** The `.eq(column, key).single()` query of the hosted database client, taken
    here as an explicit assumption about that library: it succeeds with the one
    row whose column equals the key, and fails when no row or more than one row
    matches. A table is a sequence of rows; a query sees one column of it. */
module Lookup {
  import opened Wrappers

  /** Row `i` is the only row whose column value is `key`. */
  ghost predicate UniqueMatch<K>(col: seq<K>, key: K, i: int) {
    && 0 <= i < |col|
    && col[i] == key
    && forall j :: 0 <= j < |col| && col[j] == key ==> j == i
  }

  /** The index of the single row matching `key`, or `None` when zero or
      several rows match. */
  function SingleIndex<K(==)>(col: seq<K>, key: K): (r: Option<nat>)
    ensures r.Some? ==> UniqueMatch(col, key, r.value)
    ensures r.None? ==> forall i :: !UniqueMatch(col, key, i)
  {
    if |col| == 0 then None
    else if col[0] == key then
      if key in col[1..] then
        var j :| 0 <= j < |col[1..]| && col[1..][j] == key;
        assert !UniqueMatch(col, key, 0) by { assert col[j + 1] == key; }
        None
      else
        Some(0)
    else
      match SingleIndex(col[1..], key)
      case None =>
        assert forall i :: UniqueMatch(col, key, i) ==> UniqueMatch(col[1..], key, i - 1);
        None
      case Some(i) => Some(i + 1)
  }

  /** With exactly one match the lookup succeeds whatever else the table
      holds. */
  lemma SingleIndexFinds<K>(col: seq<K>, key: K, i: nat)
    requires UniqueMatch(col, key, i)
    ensures SingleIndex(col, key) == Some(i)
  {
  }
}
