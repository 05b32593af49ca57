/** Shared value types: an Option wrapper and the machine integer widths the Go code uses. */
module Base {

  datatype Option<+T> = None | Some(value: T)

  /** Go's int64 and uint64, as subset types of the unbounded integers. */
  const Int64Min: int := -0x8000_0000_0000_0000
  const Int64Max: int := 0x7fff_ffff_ffff_ffff
  const Uint64Bound: int := 0x1_0000_0000_0000_0000

  type int64 = x: int | Int64Min <= x <= Int64Max
  type uint64 = x: int | 0 <= x < Uint64Bound

  type byte = bv8

  /** Go's conversion `int64(u)` of a uint64: the same 64 bits read as two's complement. */
  function Int64OfUint64(u: uint64): (r: int64)
    ensures r % Uint64Bound == u
    ensures r == 0 <==> u == 0
    ensures 0 <= r <==> u <= Int64Max
  {
    if u <= Int64Max then u else u - Uint64Bound
  }

  function Min(a: int, b: int): int { if a <= b then a else b }
}
