/** Integer widths of the AVR target the firmware runs on, where `int` is
    16 bits wide, and an Option type for parses that can fail. */
module Common {

  type u8 = x: int | 0 <= x < 0x100
  type u16 = x: int | 0 <= x < 0x1_0000
  type u32 = x: int | 0 <= x < 0x1_0000_0000

  datatype Option<T> = None | Some(value: T)

  /** The value `printf("%d", x)` prints for an `unsigned int` argument on
      AVR: the same 16-bit pattern read as a signed `int`. */
  function AsInt16(x: int): (r: int)
    ensures -0x8000 <= r < 0x8000
    ensures (x - r) % 0x1_0000 == 0
    ensures 0 <= x < 0x8000 ==> r == x
  {
    var bits := x % 0x1_0000;
    if bits < 0x8000 then bits else bits - 0x1_0000
  }
}
