/** Handler payloads (Go's `any`) and internal/conv/dataconv.go. */
module Conv {
  import opened Wrappers
  import opened Template
  import opened Errors

  /** A Go string or byte slice, read as its bytes: each char of the model
      stands for one byte. */
  type Bytes = string

  /** The payload of a response. `Structured` stands for any other Go value
      (a struct or a map), known to the model only by an identity. */
  datatype Data =
    | Nil
    | Str(s: string)
    | ByteSlice(b: Bytes)
    | Envelope(t: Template)
    | Structured(id: nat)

  /** `DataToString`: strings give their bytes, byte slices themselves, and
      every other value, nil included, an error. */
  function DataToString(data: Data): (r: Result<Bytes, Error>)
    ensures r.Ok? <==> data.Str? || data.ByteSlice?
    ensures data.Str? ==> r == Ok(data.s)
    ensures data.ByteSlice? ==> r == Ok(data.b)
  {
    match data
    case Str(s) => Ok(s)
    case ByteSlice(b) => Ok(b)
    case _ => Err(DataIsNotStringable)
  }
}
