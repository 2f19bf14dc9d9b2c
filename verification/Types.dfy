/** Machine integers and the small value types shared by the whole model. */
module Types {

  type u8 = x: int | 0 <= x < 0x100
  type u32 = x: int | 0 <= x < 0x1_0000_0000
  type i32 = x: int | -0x8000_0000 <= x < 0x8000_0000
  type i16 = x: int | -0x8000 <= x < 0x8000

  /** A request for at least one byte or element. */
  type positive = x: nat | 0 < x witness 1

  /** One more than the greatest `usize`, on 64-bit targets. */
  const USIZE: nat := 0x1_0000_0000_0000_0000

  /** The contents of a byte slice, which is shorter than the address space. */
  type Bytes = b: seq<u8> | |b| < USIZE witness []

  /** What integer arithmetic that leaves its range does: panic, or wrap around. */
  datatype Build = Checked | Wrapping

  datatype Option<+T> = None | Some(value: T)

  datatype Result<+T, +E> = Ok(value: T) | Err(error: E)

  datatype TunerGainMode = Manual | Auto

  datatype DirectSamplingMode = BranchI | BranchQ

  datatype SampleType = IqSamples | ISamples | QSamples

  /** One sample: two bytes, in this order. */
  datatype Iq = Iq(i: u8, q: u8)

  function Min(a: nat, b: nat): nat {
    if a <= b then a else b
  }

  function Max(a: nat, b: nat): nat {
    if a <= b then b else a
  }
}
