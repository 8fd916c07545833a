/**
  Machine integers, optional values and the byte-order helpers shared by the
  whole model. A `Word` is the C `uint16_t`, a `Byte` the C `uint8_t`.
  */
module Words {

  type Byte = x: int | 0 <= x < 0x100

  type Word = x: int | 0 <= x < 0x1_0000

  datatype Option<+T> = None | Some(value: T)

  /** The value of an integer after it is stored in a `uint16_t`. */
  function Wrap16(x: int): Word {
    x % 0x1_0000
  }

  /** The value of an integer after it is stored in a `uint8_t`. */
  function Wrap8(x: int): Byte {
    x % 0x100
  }

  function HighByte(w: Word): Byte {
    w / 0x100
  }

  function LowByte(w: Word): Byte {
    w % 0x100
  }

  /** Disk images store words low byte first. */
  function Le16(buf: seq<Byte>, i: nat): Word
    requires i + 1 < |buf|
  {
    buf[i] as int + 0x100 * buf[i + 1] as int
  }

  /** Virtual machine memory stores words high byte first. */
  function Be16(buf: seq<Byte>, i: nat): Word
    requires i + 1 < |buf|
  {
    0x100 * buf[i] as int + buf[i + 1] as int
  }

  function Min(a: int, b: int): int {
    if a < b then a else b
  }
}
