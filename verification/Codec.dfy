/** The rtl_tcp command codec: one opcode byte and four big-endian argument bytes. */
module Codec {
  import opened Types

  const COMMAND_LENGTH: nat := 5

  datatype Command =
    | SetCenterFrequency(frequency: u32)
    | SetSampleRate(sampleRate: u32)
    | SetTunerGainMode(mode: TunerGainMode)
    | SetTunerGain(gain: i32)
    | SetFrequencyCorrection(ppm: i32)
    | SetTunerIfGain(stage: i16, ifGain: i16)
    | SetTestMode(enable: bool)
    | SetAgcMode(enable: bool)
    | SetDirectSampling(sampling: Option<DirectSamplingMode>)
    | SetOffsetTuning(enable: bool)
    | SetRtlXtal(frequency: u32)
    | SetTunerXtal(frequency: u32)
    | SetTunerGainIndex(index: u32)
    | SetBiasT(enable: bool)

  datatype InvalidCommand = InvalidCommand(opcode: u8, arguments: seq<u8>)

  // ---------- big-endian fields ----------

  function U32Bytes(x: u32): (b: seq<u8>)
    ensures |b| == 4
  {
    [x / 0x100 / 0x100 / 0x100, x / 0x100 / 0x100 % 0x100, x / 0x100 % 0x100, x % 0x100]
  }

  function BytesU32(b: seq<u8>): u32
    requires |b| >= 4
  {
    ((b[0] as int * 0x100 + b[1]) * 0x100 + b[2]) * 0x100 + b[3]
  }

  function U16Bytes(x: int): (b: seq<u8>)
    requires 0 <= x < 0x1_0000
    ensures |b| == 2
  {
    [x / 0x100, x % 0x100]
  }

  function BytesU16(b: seq<u8>): (x: int)
    requires |b| >= 2
    ensures 0 <= x < 0x1_0000
  {
    b[0] as int * 0x100 + b[1]
  }

  /** Two's complement reinterpretation, as the casts between i32 and u32 do it. */
  function I32AsU32(x: i32): u32 { if x < 0 then x + 0x1_0000_0000 else x }

  function U32AsI32(x: u32): i32 { if x < 0x8000_0000 then x else x - 0x1_0000_0000 }

  function I16AsU16(x: i16): (u: int)
    ensures 0 <= u < 0x1_0000
  { if x < 0 then x + 0x1_0000 else x }

  function U16AsI16(x: int): i16
    requires 0 <= x < 0x1_0000
  { if x < 0x8000 then x else x - 0x1_0000 }

  lemma U32RoundTrip(x: u32)
    ensures BytesU32(U32Bytes(x)) == x
  {
  }

  lemma U16RoundTrip(x: int)
    requires 0 <= x < 0x1_0000
    ensures BytesU16(U16Bytes(x)) == x
  {
  }

  lemma BytesRoundTrip(b: seq<u8>)
    requires |b| == 4
    ensures U32Bytes(BytesU32(b)) == b
  {
    var x: int := BytesU32(b);
    assert x / 0x100 == (b[0] as int * 0x100 + b[1]) * 0x100 + b[2];
    assert x / 0x100 / 0x100 == b[0] as int * 0x100 + b[1];
    assert x / 0x100 / 0x100 / 0x100 == b[0];
  }

  lemma HalvesRoundTrip(b: seq<u8>)
    requires |b| == 4
    ensures U16Bytes(BytesU16(b[..2])) + U16Bytes(BytesU16(b[2..])) == b
  {
    assert BytesU16(b[..2]) / 0x100 == b[0] && BytesU16(b[..2]) % 0x100 == b[1];
    assert BytesU16(b[2..]) / 0x100 == b[2] && BytesU16(b[2..]) % 0x100 == b[3];
  }

  // ---------- encode ----------

  function Flag(enable: bool): u32 { if enable then 1 else 0 }

  function ModeArgument(mode: TunerGainMode): u32 { if mode == Auto then 0 else 1 }

  function SamplingArgument(mode: Option<DirectSamplingMode>): u32 {
    match mode
    case None => 0
    case Some(BranchI) => 1
    case Some(BranchQ) => 2
  }

  function Opcode(c: Command): u8 {
    match c
    case SetCenterFrequency(_) => 0x01
    case SetSampleRate(_) => 0x02
    case SetTunerGainMode(_) => 0x03
    case SetTunerGain(_) => 0x04
    case SetFrequencyCorrection(_) => 0x05
    case SetTunerIfGain(_, _) => 0x06
    case SetTestMode(_) => 0x07
    case SetAgcMode(_) => 0x08
    case SetDirectSampling(_) => 0x09
    case SetOffsetTuning(_) => 0x0a
    case SetRtlXtal(_) => 0x0b
    case SetTunerXtal(_) => 0x0c
    case SetTunerGainIndex(_) => 0x0d
    case SetBiasT(_) => 0x0e
  }

  function Arguments(c: Command): (b: seq<u8>)
    ensures |b| == 4
  {
    match c
    case SetCenterFrequency(frequency) => U32Bytes(frequency)
    case SetSampleRate(sampleRate) => U32Bytes(sampleRate)
    case SetTunerGainMode(mode) => U32Bytes(ModeArgument(mode))
    case SetTunerGain(gain) => U32Bytes(I32AsU32(gain))
    case SetFrequencyCorrection(ppm) => U32Bytes(I32AsU32(ppm))
    case SetTunerIfGain(stage, ifGain) => U16Bytes(I16AsU16(stage)) + U16Bytes(I16AsU16(ifGain))
    case SetTestMode(enable) => U32Bytes(Flag(enable))
    case SetAgcMode(enable) => U32Bytes(Flag(enable))
    case SetDirectSampling(sampling) => U32Bytes(SamplingArgument(sampling))
    case SetOffsetTuning(enable) => U32Bytes(Flag(enable))
    case SetRtlXtal(frequency) => U32Bytes(frequency)
    case SetTunerXtal(frequency) => U32Bytes(frequency)
    case SetTunerGainIndex(index) => U32Bytes(index)
    case SetBiasT(enable) => U32Bytes(Flag(enable))
  }

  function Encode(c: Command): (b: seq<u8>)
    ensures |b| == COMMAND_LENGTH
  {
    [Opcode(c)] + Arguments(c)
  }

  // ---------- decode ----------

  /** Reading from fewer than five bytes panics in the source, so callers supply five. */
  function Decode(b: seq<u8>): (r: Result<Command, InvalidCommand>)
    requires |b| >= COMMAND_LENGTH
  {
    var a := b[1..5];
    var x := BytesU32(a);
    match b[0]
    case 0x01 => Ok(SetCenterFrequency(x))
    case 0x02 => Ok(SetSampleRate(x))
    case 0x03 => Ok(SetTunerGainMode(if x == 0 then Auto else Manual))
    case 0x04 => Ok(SetTunerGain(U32AsI32(x)))
    case 0x05 => Ok(SetFrequencyCorrection(U32AsI32(x)))
    case 0x06 => Ok(SetTunerIfGain(U16AsI16(BytesU16(a[..2])), U16AsI16(BytesU16(a[2..]))))
    case 0x07 => Ok(SetTestMode(x != 0))
    case 0x08 => Ok(SetAgcMode(x != 0))
    case 0x09 => Ok(SetDirectSampling(if x == 1 then Some(BranchI) else if x == 2 then Some(BranchQ) else None))
    case 0x0a => Ok(SetOffsetTuning(x != 0))
    case 0x0b => Ok(SetRtlXtal(x))
    case 0x0c => Ok(SetTunerXtal(x))
    case 0x0d => Ok(SetTunerGainIndex(x))
    case 0x0e => Ok(SetBiasT(x != 0))
    case opcode => Err(InvalidCommand(opcode, a))
  }

  // ---------- laws ----------

  lemma RoundTrip(c: Command)
    ensures Decode(Encode(c)) == Ok(c)
  {
    hide U32Bytes, BytesU32, U16Bytes, BytesU16;
    var a := Encode(c)[1..5];
    assert a == Arguments(c);
    match c {
      case SetCenterFrequency(x) => U32RoundTrip(x);
      case SetSampleRate(x) => U32RoundTrip(x);
      case SetTunerGainMode(mode) => U32RoundTrip(ModeArgument(mode));
      case SetTunerGain(x) => U32RoundTrip(I32AsU32(x));
      case SetFrequencyCorrection(x) => U32RoundTrip(I32AsU32(x));
      case SetTunerIfGain(stage, ifGain) =>
        assert a[..2] == U16Bytes(I16AsU16(stage)) && a[2..] == U16Bytes(I16AsU16(ifGain));
        U16RoundTrip(I16AsU16(stage));
        U16RoundTrip(I16AsU16(ifGain));
      case SetTestMode(enable) => U32RoundTrip(Flag(enable));
      case SetAgcMode(enable) => U32RoundTrip(Flag(enable));
      case SetDirectSampling(mode) => U32RoundTrip(SamplingArgument(mode));
      case SetOffsetTuning(enable) => U32RoundTrip(Flag(enable));
      case SetRtlXtal(x) => U32RoundTrip(x);
      case SetTunerXtal(x) => U32RoundTrip(x);
      case SetTunerGainIndex(x) => U32RoundTrip(x);
      case SetBiasT(enable) => U32RoundTrip(Flag(enable));
    }
  }

  /** The argument values that `Encode` can produce for this opcode. */
  predicate Canonical(b: seq<u8>)
    requires |b| == COMMAND_LENGTH
  {
    match b[0]
    case 0x03 => BytesU32(b[1..5]) <= 1
    case 0x07 => BytesU32(b[1..5]) <= 1
    case 0x08 => BytesU32(b[1..5]) <= 1
    case 0x09 => BytesU32(b[1..5]) <= 2
    case 0x0a => BytesU32(b[1..5]) <= 1
    case 0x0e => BytesU32(b[1..5]) <= 1
    case _ => true
  }

  lemma SameArgument(x: u32, a: seq<u8>)
    requires |a| == 4
    ensures U32Bytes(x) == a <==> x == BytesU32(a)
  {
    U32RoundTrip(x);
    BytesRoundTrip(a);
  }

  lemma ReencodedArguments(b: seq<u8>)
    requires |b| == COMMAND_LENGTH && Decode(b).Ok?
    ensures Opcode(Decode(b).value) == b[0]
    ensures Arguments(Decode(b).value) == b[1..5] <==> Canonical(b)
  {
    hide U32Bytes, BytesU32, U16Bytes, BytesU16;
    var a := b[1..5];
    match Decode(b).value {
      case SetCenterFrequency(x) => SameArgument(x, a);
      case SetSampleRate(x) => SameArgument(x, a);
      case SetTunerGainMode(mode) => SameArgument(ModeArgument(mode), a);
      case SetTunerGain(x) => SameArgument(I32AsU32(x), a);
      case SetFrequencyCorrection(x) => SameArgument(I32AsU32(x), a);
      case SetTunerIfGain(_, _) => HalvesRoundTrip(a);
      case SetTestMode(enable) => SameArgument(Flag(enable), a);
      case SetAgcMode(enable) => SameArgument(Flag(enable), a);
      case SetDirectSampling(mode) => SameArgument(SamplingArgument(mode), a);
      case SetOffsetTuning(enable) => SameArgument(Flag(enable), a);
      case SetRtlXtal(x) => SameArgument(x, a);
      case SetTunerXtal(x) => SameArgument(x, a);
      case SetTunerGainIndex(x) => SameArgument(x, a);
      case SetBiasT(enable) => SameArgument(Flag(enable), a);
    }
  }

  /**
   * Five bytes are rejected exactly for an unknown opcode, and then reported unchanged. Otherwise
   * re-encoding gives a form that decodes to the same command, and gives the very same bytes
   * exactly when the arguments were canonical.
   */
  lemma DecodeEncode(b: seq<u8>)
    requires |b| == COMMAND_LENGTH
    ensures Decode(b).Err? <==> !(0x01 <= b[0] <= 0x0e)
    ensures Decode(b).Err? ==> Decode(b).error == InvalidCommand(b[0], b[1..])
    ensures Decode(b).Ok? ==> Decode(Encode(Decode(b).value)) == Decode(b)
    ensures Decode(b).Ok? ==> (Encode(Decode(b).value) == b <==> Canonical(b))
  {
    assert b[1..5] == b[1..];
    if Decode(b).Ok? {
      var c := Decode(b).value;
      ReencodedArguments(b);
      assert b == [b[0]] + b[1..];
      assert Encode(c)[1..] == Arguments(c) && b[1..] == b[1..5];
      RoundTrip(c);
    }
  }

  /** Distinct commands never share an encoding. */
  lemma EncodeInjective(c: Command, d: Command)
    requires Encode(c) == Encode(d)
    ensures c == d
  {
    RoundTrip(c);
    RoundTrip(d);
  }

  // ---------- the bytes on the wire ----------

  /** The number that bytes stand for in network order, most significant first. */
  function BigEndian(b: seq<u8>): nat {
    if b == [] then 0 else BigEndian(b[..|b| - 1]) * 0x100 + b[|b| - 1]
  }

  lemma FourBytes(b: seq<u8>)
    requires |b| == 4
    ensures BigEndian(b) == BytesU32(b)
  {
    assert b[..3][..2] == b[..2] && b[..2][..1] == b[..1] && b[..1][..0] == [];
    assert BigEndian(b[..1]) == b[0];
    assert BigEndian(b[..2]) == BigEndian(b[..2][..1]) * 0x100 + b[1];
    assert BigEndian(b[..3]) == BigEndian(b[..3][..2]) * 0x100 + b[2];
  }

  lemma TwoBytes(b: seq<u8>)
    requires |b| == 2
    ensures BigEndian(b) == BytesU16(b)
  {
    assert b[..1][..0] == [];
    assert BigEndian(b[..1]) == b[0];
  }

  /** The protocol's number for each command. */
  lemma FirstByte(c: Command)
    ensures Encode(c)[0] ==
      match c
      case SetCenterFrequency(_) => 1
      case SetSampleRate(_) => 2
      case SetTunerGainMode(_) => 3
      case SetTunerGain(_) => 4
      case SetFrequencyCorrection(_) => 5
      case SetTunerIfGain(_, _) => 6
      case SetTestMode(_) => 7
      case SetAgcMode(_) => 8
      case SetDirectSampling(_) => 9
      case SetOffsetTuning(_) => 10
      case SetRtlXtal(_) => 11
      case SetTunerXtal(_) => 12
      case SetTunerGainIndex(_) => 13
      case SetBiasT(_) => 14
  {
    hide Arguments;
  }

  /** Modulo 2^32, as a negative number is sent. */
  function Unsigned(x: int, bits: nat): int {
    if x >= 0 then x else if bits == 16 then x + 0x1_0000 else x + 0x1_0000_0000
  }

  /** The argument of every command in network order, as the protocol lays it out. */
  lemma ArgumentBytes(c: Command)
    ensures var a := Encode(c)[1..];
            match c
            case SetTunerIfGain(stage, ifGain) =>
              BigEndian(a[..2]) == Unsigned(stage, 16) && BigEndian(a[2..]) == Unsigned(ifGain, 16)
            case SetCenterFrequency(frequency) => BigEndian(a) == frequency
            case SetSampleRate(sampleRate) => BigEndian(a) == sampleRate
            case SetTunerGainMode(mode) => BigEndian(a) == if mode == Manual then 1 else 0
            case SetTunerGain(gain) => BigEndian(a) == Unsigned(gain, 32)
            case SetFrequencyCorrection(ppm) => BigEndian(a) == Unsigned(ppm, 32)
            case SetTestMode(enable) => BigEndian(a) == if enable then 1 else 0
            case SetAgcMode(enable) => BigEndian(a) == if enable then 1 else 0
            case SetDirectSampling(sampling) =>
              BigEndian(a) == if sampling == Some(BranchI) then 1 else if sampling == Some(BranchQ) then 2 else 0
            case SetOffsetTuning(enable) => BigEndian(a) == if enable then 1 else 0
            case SetRtlXtal(frequency) => BigEndian(a) == frequency
            case SetTunerXtal(frequency) => BigEndian(a) == frequency
            case SetTunerGainIndex(index) => BigEndian(a) == index
            case SetBiasT(enable) => BigEndian(a) == if enable then 1 else 0
  {
    hide BigEndian, U32Bytes, BytesU32, U16Bytes, BytesU16;
    var a := Encode(c)[1..];
    assert a == Arguments(c);
    FourBytes(a);
    match c {
      case SetTunerIfGain(stage, ifGain) =>
        assert a[..2] == U16Bytes(I16AsU16(stage)) && a[2..] == U16Bytes(I16AsU16(ifGain));
        TwoBytes(a[..2]);
        TwoBytes(a[2..]);
        U16RoundTrip(I16AsU16(stage));
        U16RoundTrip(I16AsU16(ifGain));
      case SetCenterFrequency(x) => U32RoundTrip(x);
      case SetSampleRate(x) => U32RoundTrip(x);
      case SetTunerGainMode(mode) => U32RoundTrip(ModeArgument(mode));
      case SetTunerGain(x) => U32RoundTrip(I32AsU32(x));
      case SetFrequencyCorrection(x) => U32RoundTrip(I32AsU32(x));
      case SetTestMode(enable) => U32RoundTrip(Flag(enable));
      case SetAgcMode(enable) => U32RoundTrip(Flag(enable));
      case SetDirectSampling(mode) => U32RoundTrip(SamplingArgument(mode));
      case SetOffsetTuning(enable) => U32RoundTrip(Flag(enable));
      case SetRtlXtal(x) => U32RoundTrip(x);
      case SetTunerXtal(x) => U32RoundTrip(x);
      case SetTunerGainIndex(x) => U32RoundTrip(x);
      case SetBiasT(enable) => U32RoundTrip(Flag(enable));
    }
  }

  /**
   * How arguments that `Encode` never sends are read: any flag but zero is on, any mode but
   * zero is manual, and any sampling number but one and two is off. A field that is sent in
   * full is read in full.
   */
  lemma LenientArguments(b: seq<u8>)
    requires |b| == COMMAND_LENGTH && Decode(b).Ok?
    ensures var x := BigEndian(b[1..]);
            match Decode(b).value
            case SetTunerGainMode(mode) => mode == Auto <==> x == 0
            case SetTestMode(enable) => enable <==> x != 0
            case SetAgcMode(enable) => enable <==> x != 0
            case SetOffsetTuning(enable) => enable <==> x != 0
            case SetBiasT(enable) => enable <==> x != 0
            case SetDirectSampling(sampling) =>
              (sampling == Some(BranchI) <==> x == 1) && (sampling == Some(BranchQ) <==> x == 2)
            case _ => Encode(Decode(b).value) == b
  {
    hide BigEndian, BytesU32, BytesU16, U32Bytes, U16Bytes;
    FourBytes(b[1..]);
    assert b[1..] == b[1..5];
    DecodeEncode(b);
  }

  // ---------- the in-place writer ----------

  /** `encode` appends to the front of the buffer it is given and leaves the rest alone. */
  method EncodeInto(c: Command, buffer: array<u8>)
    requires buffer.Length >= COMMAND_LENGTH
    modifies buffer
    ensures buffer[..COMMAND_LENGTH] == Encode(c)
    ensures buffer[COMMAND_LENGTH..] == old(buffer[COMMAND_LENGTH..])
  {
    hide U32Bytes, U16Bytes, I16AsU16, Opcode;
    buffer[0] := Opcode(c);
    match c {
      case SetTunerIfGain(stage, ifGain) =>
        PutBytes(buffer, 1, U16Bytes(I16AsU16(stage)));
        PutBytes(buffer, 3, U16Bytes(I16AsU16(ifGain)));
      case _ =>
        PutBytes(buffer, 1, Arguments(c));
    }
    assert buffer[..COMMAND_LENGTH] == [buffer[0], buffer[1], buffer[2], buffer[3], buffer[4]];
  }

  method PutBytes(buffer: array<u8>, at: nat, bytes: seq<u8>)
    requires at + |bytes| <= buffer.Length
    modifies buffer
    ensures forall k :: 0 <= k < buffer.Length ==>
      buffer[k] == if at <= k < at + |bytes| then bytes[k - at] else old(buffer[k])
  {
    for n := 0 to |bytes|
      invariant forall k :: 0 <= k < buffer.Length ==>
        buffer[k] == if at <= k < at + n then bytes[k - at] else old(buffer[k])
    {
      buffer[at + n] := bytes[n];
    }
  }
}
