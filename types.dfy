/** Value types shared by the serial transport: raw bytes, an optional value,
    and the outbound write unit `ioData_t` with the batches built from it. */
module IoTypes {

  /** A C `char` as it travels over the wire. */
  newtype Byte = b: int | 0 <= b < 256

  datatype Option<T> = None | Some(value: T)

  /** One outbound write unit: the bytes at `buf` and the count `len` that
      is handed to write(2) with them. */
  datatype IoData = IoData(buf: seq<Byte>, len: nat)

  /** The unit pushed onto the outbound queue in one operation. */
  type Batch = seq<IoData>
}
