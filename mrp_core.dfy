/** The vocabulary shared by every crate: identifiers, quantities and the
    error type of the engine (`MrpError`). */
module MrpCore {

  /** A component (material) identifier. */
  type ComponentId = string

  /** An exact decimal quantity, counted in the smallest unit of a common
      scale, so that sums, minima, remainders and ceilings are exact. */
  type Quantity = int

  /** A record identifier; the source draws random UUIDs, the model draws
      fresh numbers from a counter supplied by the caller. */
  type Uuid = nat

  /** The 8-bit unsigned integer of the source (`u8`). */
  type U8 = x: int | 0 <= x < 256

  /** The 32-bit unsigned integer of the source (`u32`). */
  const U32_MAX: int := 0xFFFF_FFFF

  datatype MrpError =
    | ConfigNotFound(componentId: ComponentId)
    | BomExplosionError(message: string)
    | TopologicalSortError(message: string)
    | MissingLotSize
    | InvalidDate(message: string)
    | CalculationError(message: string)
    | Other(message: string)

  /** Decimal digits of a natural number, as `format!("{}", n)` prints it. */
  function NatToString(n: nat): (s: string)
    ensures |s| > 0
    ensures forall i :: 0 <= i < |s| ==> '0' <= s[i] <= '9'
  {
    if n < 10 then [Digit(n)] else NatToString(n / 10) + [Digit(n % 10)]
  }

  function Digit(d: nat): (c: char)
    requires d < 10
    ensures '0' <= c <= '9'
  {
    ['0', '1', '2', '3', '4', '5', '6', '7', '8', '9'][d]
  }
}
