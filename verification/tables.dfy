/**
 * Database tables as sequences of rows. `First` with a `Where` filter
 * returns the earliest matching row; columns indexed without a unique
 * constraint may hold several matching rows.
 */
module Tables {
  import opened Wrappers

  /** The position of the first row satisfying `matches`, or None when no row does. */
  function FindFirst<T>(rows: seq<T>, matches: T -> bool): (r: Option<nat>)
    ensures r.Some? ==> r.value < |rows| && matches(rows[r.value])
    ensures r.Some? ==> forall j :: 0 <= j < r.value ==> !matches(rows[j])
    ensures r.None? <==> forall j :: 0 <= j < |rows| ==> !matches(rows[j])
    decreases |rows|
  {
    if |rows| == 0 then None
    else if matches(rows[0]) then Some(0)
    else
      match FindFirst(rows[1..], matches)
      case None => None
      case Some(i) => Some(i + 1)
  }

  /** `Where(...).Find(&rows)`: every matching row, in table order. */
  function FilterRows<T>(rows: seq<T>, matches: T -> bool): (r: seq<T>)
    ensures |r| <= |rows|
    ensures forall i :: 0 <= i < |r| ==> r[i] in rows && matches(r[i])
    ensures forall j :: 0 <= j < |rows| && matches(rows[j]) ==> rows[j] in r
    decreases |rows|
  {
    if |rows| == 0 then []
    else if matches(rows[0]) then [rows[0]] + FilterRows(rows[1..], matches)
    else FilterRows(rows[1..], matches)
  }
}
