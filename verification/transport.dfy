/**
 The I2C transport as seen by the driver: an oracle that answers readiness
 probes and two-byte memory reads and writes, plus the record of the
 transactions the driver issues.
 */
module Transport {

  import opened Status

  /** An unsigned 8-bit value. */
  type Byte = x: int | 0 <= x < 256

  /** Settle time, in milliseconds, after erasing or writing an EEPROM cell. */
  const EraseOrWriteCellTimeMs: nat := 1000
  /** Size in bytes of every memory read and write this driver issues. */
  const TransferSize: nat := 2

  /** `b << 1` stored back into an 8-bit variable: the shift truncated to eight bits. */
  function Shl1(b: Byte): (r: Byte)
    ensures r % 2 == 0
    ensures b <= 0x7F ==> r == 2 * b
    ensures b > 0x7F ==> r == 2 * b - 256
  {
    (b * 2) % 256
  }

  /** The answer to one two-byte memory read: the HAL status and the bytes in bus order. */
  datatype ReadReply = ReadReply(status: HalStatus, lo: Byte, hi: Byte)

  /**
   The bus. Every function receives the left-shifted ("wire") slave address;
   the memory operations also receive the register address, and writes the payload.
   */
  datatype Bus = Bus(
    isReady: Byte -> HalStatus,
    memWrite: (Byte, Byte, seq<Byte>) -> HalStatus,
    memRead: (Byte, Byte) -> ReadReply)

  /** One transaction or delay issued by the driver, in the order it was issued. */
  datatype Event =
    | Probe(wire: Byte)
    | MemWrite(wire: Byte, register: Byte, payload: seq<Byte>)
    | MemRead(wire: Byte, register: Byte, size: nat)
    | Delay(ms: nat)
}
