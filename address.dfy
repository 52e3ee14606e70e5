/**
 * Cell and range addresses and their validation (`validateAddress`, `isNNI`).
 * An address is 0-based; a range carries both counts, a single cell neither.
 */
module Addresses {
  import opened Wrappers

  datatype Address = Address(rowIndex: int, columnIndex: int, rowCount: Option<int>, columnCount: Option<int>)

  /** The error `validateAddress` throws ("Invalid address: ..."). */
  datatype AddressError = InvalidAddress(address: Address)

  const TWO_31: int := 0x8000_0000
  const TWO_32: int := 0x1_0000_0000

  /** JavaScript's `value | 0` on an integer: wrap to a signed 32-bit integer. */
  function ToInt32(v: int): (r: int)
    ensures -TWO_31 <= r < TWO_31
    ensures (v - r) % TWO_32 == 0
  {
    var m := v % TWO_32;
    if m >= TWO_31 then m - TWO_32 else m
  }

  /** `isNNI`: `value === (value | 0) && value >= 0`. */
  predicate IsNNI(v: int)
  {
    v == ToInt32(v) && v >= 0
  }

  /** A non-negative integer that fits in 31 bits. */
  predicate InRange(v: int) { 0 <= v < TWO_31 }

  /** isNNI accepts exactly the integers 0 .. 2^31 - 1. */
  lemma IsNNIRange(v: int)
    ensures IsNNI(v) <==> InRange(v)
  {
    if InRange(v) {
      assert v % TWO_32 == v;
    }
  }

  /** An address `validateAddress` accepts. */
  predicate ValidAddress(a: Address)
  {
    && InRange(a.rowIndex) && InRange(a.columnIndex)
    && (a.rowCount.Some? ==> InRange(a.rowCount.value))
    && (a.columnCount.Some? ==> InRange(a.columnCount.value))
    && (a.rowCount.Some? <==> a.columnCount.Some?)
  }

  /**
   * `validateAddress`: throws unless both indices and every present count
   * pass isNNI and the two counts are both present or both absent.
   */
  function ValidateAddress(a: Address): (r: Result<(), AddressError>)
    ensures r.Ok? <==> ValidAddress(a)
    ensures r.Err? ==> r.error == InvalidAddress(a)
  {
    IsNNIRange(a.rowIndex);
    IsNNIRange(a.columnIndex);
    IsNNIRange(a.rowCount.GetOr(0));
    IsNNIRange(a.columnCount.GetOr(0));
    var isRowIndexValid := IsNNI(a.rowIndex);
    var isColumnIndexValid := IsNNI(a.columnIndex);
    var hasRowCount := a.rowCount.Some?;
    var hasColumnCount := a.columnCount.Some?;
    var isRowCountValid := !hasRowCount || IsNNI(a.rowCount.value);
    var isColumnCountValid := !hasColumnCount || IsNNI(a.columnCount.value);
    if !isRowIndexValid || !isColumnIndexValid || !isRowCountValid || !isColumnCountValid
      || hasRowCount != hasColumnCount
    then Err(InvalidAddress(a))
    else Ok(())
  }
}
