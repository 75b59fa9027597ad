/**
 * The nullable-column helpers of backend/pkg/utils/utils.go. A nullable
 * SQL column arrives as a value and a validity flag; the helpers turn it
 * into the value or nothing (Go's `nil`), which JSON renders as `null`.
 */
module Utils {
  import opened Wrappers

  /** `sql.NullString`. */
  datatype NullString = NullString(str: string, valid: bool)

  /** `sql.NullInt64`. */
  datatype NullInt64 = NullInt64(int64: int, valid: bool)

  /** What scanning a column into a `sql.NullString` stores: NULL leaves the string empty. */
  function ScanString(column: Option<string>): NullString
  {
    if column.Some? then NullString(column.value, true) else NullString("", false)
  }

  /** What scanning a column into a `sql.NullInt64` stores: NULL leaves the number zero. */
  function ScanInt64(column: Option<int>): NullInt64
  {
    if column.Some? then NullInt64(column.value, true) else NullInt64(0, false)
  }

  function NullableString(ns: NullString): (r: Option<string>)
    ensures r.Some? <==> ns.valid
  {
    if ns.valid then Some(ns.str) else None
  }

  function NullableInt64(ni: NullInt64): (r: Option<int>)
    ensures r.Some? <==> ni.valid
  {
    if ni.valid then Some(ni.int64) else None
  }

  /** The helpers give back exactly the column that was scanned, NULL included. */
  lemma NullableRoundTrip(s: Option<string>, i: Option<int>)
    ensures NullableString(ScanString(s)) == s
    ensures NullableInt64(ScanInt64(i)) == i
  {
  }

  /** A valid value is passed through; an invalid one is dropped whatever it holds. */
  lemma NullableIgnoresInvalid(a: NullString, b: NullString, x: NullInt64, y: NullInt64)
    ensures a.valid ==> NullableString(a) == Some(a.str)
    ensures !a.valid && !b.valid ==> NullableString(a) == NullableString(b) == None
    ensures x.valid ==> NullableInt64(x) == Some(x.int64)
    ensures !x.valid && !y.valid ==> NullableInt64(x) == NullableInt64(y) == None
  {
  }
}
