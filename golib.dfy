/** The pieces of Go and of its libraries that the core relies on:
    fixed-width integers and the conversion between them, `bytes.Buffer`,
    and the outcome of reading a configuration struct from the environment. */
module GoLib {
  import opened Errors

  newtype byte = b: int | 0 <= b < 0x100

  type Bytes = seq<byte>

  newtype int64 = x: int | -0x8000_0000_0000_0000 <= x < 0x8000_0000_0000_0000

  newtype uint32 = x: int | 0 <= x < 0x1_0000_0000

  const TwoTo32: int := 0x1_0000_0000

  /** Go's conversion `uint32(x)` of a wider integer: keeps the low 32 bits,
      so the result is the one value in range congruent to x modulo 2^32. */
  function ToUint32(x: int): (r: uint32)
    ensures (x - r as int) % TwoTo32 == 0
    ensures 0 <= x < TwoTo32 ==> r as int == x
  {
    var r := x % TwoTo32;
    assert x == TwoTo32 * (x / TwoTo32) + r;
    assert x - r == TwoTo32 * (x / TwoTo32);
    r as uint32
  }

  /** What `config.ReadConfigEnv(&conf)` leaves behind: the struct as filled
      from the environment (with its defaults) and the error it reported. */
  datatype EnvRead<C> = EnvRead(conf: C, err: Option<Error>)

  /** `bytes.Buffer`: a growable byte buffer written in place. */
  class Buffer {
    var data: Bytes

    constructor ()
      ensures data == []
    {
      data := [];
    }

    /** `Write(p)` appends all of p; a bytes.Buffer write reports no error. */
    method Write(p: Bytes)
      modifies this
      ensures data == old(data) + p
    {
      data := data + p;
    }
  }
}
