/** The value types of the lamp bank: bytes and R:G:B colours. */
module Colors {

  /** An unsigned 8-bit value, the `Byte` of the bus library. */
  type Byte = x: int | 0 <= x < 256

  /** A lamp colour: exactly three bytes, in the order red, green, blue.
      The channels are also addressed by position, as `color[k]`. */
  datatype Color = Color(r: Byte, g: Byte, b: Byte) {

    /** Channel `k` of the colour: 0 is red, 1 is green, 2 is blue. */
    function Channel(k: nat): Byte
      requires k < 3
    {
      if k == 0 then r else if k == 1 then g else b
    }
  }

  /** The colour of a lamp that is switched off. */
  const BLACK: Color := Color(0, 0, 0)
}
