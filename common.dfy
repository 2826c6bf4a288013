/** Values shared by every part of the GridClash model. */
module Common {

  datatype Option<+T> = None | Some(value: T)

  /** One octet of a datagram. */
  type byte = b: int | 0 <= b < 256

  /** A millisecond wall-clock reading, `int(time.time() * 1000)`; it fits the
      header's unsigned 64-bit timestamp field. */
  type Millis = t: int | 0 <= t < 0x1_0000_0000_0000_0000

  /** A UDP endpoint as `recvfrom` reports it. */
  datatype Addr = Addr(host: string, port: int)

  function Min(a: int, b: int): int { if a <= b then a else b }

  function Max(a: int, b: int): int { if a <= b then b else a }
}
