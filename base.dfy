/** Failure-carrying wrappers and the stand-ins for the Go standard-library calls that the
    model does not re-implement (url.Parse, the %q verb of fmt). */
module Base {

  datatype Option<+T> = None | Some(value: T) {
    function GetOr(default: T): T {
      if Some? then value else default
    }
  }

  datatype Result<+R, +E> = Success(value: R) | Failure(error: E)

  /** What url.Parse reports: success, or the text of the error it returns. */
  datatype ParseOutcome = Parsed | ParseFailed(cause: string)

  /** The foreign pure functions the Go code calls: url.Parse and strconv.Quote (the %q verb).
      They are inputs of the model, not re-implemented. */
  datatype Foreign = Foreign(urlParse: string -> ParseOutcome, quote: string -> string)

  /** A Go `uint` / `uint64` on a 64-bit platform. */
  const UintLimit: int := 0x1_0000_0000_0000_0000
  type Uint = n: nat | n < UintLimit

  /** Go's conversion int(u) of a uint on a 64-bit platform: two's-complement reinterpretation. */
  function GoInt(u: Uint): (i: int)
    ensures -0x8000_0000_0000_0000 <= i < 0x8000_0000_0000_0000
    ensures u < 0x8000_0000_0000_0000 <==> i == u
    ensures i < 0 <==> u >= 0x8000_0000_0000_0000
  {
    if u < 0x8000_0000_0000_0000 then u else u - UintLimit
  }
}
