/** Shared vocabulary: identities, bounded machine arithmetic and result types. */
module Base {

  /** An endpoint identity, in the one canonical form that parsing and printing agree on. */
  type Id = string

  datatype Option<+T> = None | Some(value: T)

  datatype Result<+T, +E> = Ok(value: T) | Err(error: E)

  const I64_MAX: int := 0x7fff_ffff_ffff_ffff
  const U64_MAX: int := 0xffff_ffff_ffff_ffff

  /** `i64::saturating_add` for a non-negative second operand. */
  function SatAdd(a: int, b: nat): (r: int)
    ensures a <= I64_MAX ==> a <= r <= I64_MAX
    ensures r != I64_MAX ==> r - a == b
  {
    if a + b > I64_MAX then I64_MAX else a + b
  }

  function Max(a: int, b: int): (r: int)
    ensures r >= a && r >= b && (r == a || r == b)
  {
    if a < b then b else a
  }

  function Abs(a: int): (r: int)
    ensures r >= 0 && (r == a || r == -a)
  {
    if a < 0 then -a else a
  }
}
