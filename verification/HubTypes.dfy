/** Values shared by the hub's components: protocol enums, records and time. */
module HubTypes {

  datatype Option<+T> = None | Some(value: T)

  type Id = string

  /** SHA-256 of a text, taken to be injective. */
  datatype Digest = Digest(text: string)

  /** Go durations and instants, in nanoseconds. */
  const SECOND: nat := 1_000_000_000

  /** Largest and smallest values of Go's 64-bit `int`. */
  const MAX_INT: int := 0x7FFF_FFFF_FFFF_FFFF
  const MIN_INT: int := -0x8000_0000_0000_0000

  /** The two's complement value that 64-bit arithmetic stores for `x`. */
  function Wrap(x: int): (r: int)
    ensures MIN_INT <= r <= MAX_INT
    ensures MIN_INT <= x <= MAX_INT ==> r == x
  {
    (x + 0x8000_0000_0000_0000) % 0x1_0000_0000_0000_0000 - 0x8000_0000_0000_0000
  }

  const MAX_INT32: int := 0x7FFF_FFFF

  /** Go's conversion to a 32-bit integer. */
  function Int32(x: int): (r: int)
    ensures -MAX_INT32 - 1 <= r <= MAX_INT32
    ensures -MAX_INT32 - 1 <= x <= MAX_INT32 <==> r == x
  {
    (x + 0x8000_0000) % 0x1_0000_0000 - 0x8000_0000
  }

  /** Go's integer division, which truncates toward zero. */
  function TruncDiv(a: int, b: int): int
    requires b > 0
  {
    if a >= 0 then a / b else -((-a) / b)
  }

  /** What an agent reports, and what the runner records for an instance. */
  datatype DeploymentState = Unknown | Pending | InProgress | Validating | Completed | Failed | RolledBack

  /** Status of a deployment row. */
  datatype DeploymentStatus = RowPending | RowInProgress | RowCompleted | RowFailed | RowCancelled

  /** The strategy string of a deployment row; anything not recognised is run as rolling. */
  datatype Strategy = AllAtOnce | Rolling | Canary | Unrecognised(name: string)
}
