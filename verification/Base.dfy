/** Small shared vocabulary: the machine width the daemon counts in, and the
    usual success and absence datatypes. */
module Base {
  const U64_MAX: nat := 0xFFFF_FFFF_FFFF_FFFF

  type u64 = x: nat | x <= 0xFFFF_FFFF_FFFF_FFFF

  datatype Option<+T> = None | Some(value: T)
  {
    function GetOr(default: T): T {
      match this
      case None => default
      case Some(v) => v
    }
  }

  datatype Result<+T, +E> = Ok(value: T) | Err(error: E)

  datatype Outcome<+E> = Pass | Fail(error: E)

  function Max(a: nat, b: nat): nat { if a < b then b else a }

  function Min(a: nat, b: nat): nat { if a < b then a else b }

  /** `saturating_sub` on unsigned counters. */
  function SatSub(a: nat, b: nat): nat { if a < b then 0 else a - b }
}

/** Audio samples as ordered abstract values: rounding plays no part in any
    property proved here, but a non-finite sample has its own branches. */
module Audio {
  datatype Sample = Finite(v: real) | NonFinite

  /** One frame holds one sample for every channel. */
  type Frame = seq<Sample>
}
