/** Decoded JSON, as far as tag values need it. */
module JsonValues {
  import opened Machine

  /** A decoded JSON value; numbers keep whether they were written as integers. */
  datatype Json =
    | Null
    | JsonBool(b: bool)
    | JsonInt(i: int)
    | JsonReal(r: real)
    | JsonString(s: string)
    | JsonOther(text: string)
  {
    function AsI64(): int {
      if JsonInt? && FitsI64(i) then i else 0
    }

    function AsF64(): real {
      if JsonInt? then i as real else if JsonReal? then r else 0.0
    }
  }
}
