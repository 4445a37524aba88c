/** CRC-16/CCITT-FALSE as `crc16_ccitt` in ui.c computes it over the
    static VietQR payload: initial value 0xFFFF, polynomial 0x1021, input
    bytes fed most significant bit first, no reflection, no final XOR. */
module Crc {

  const INIT: bv16 := 0xFFFF
  const POLY: bv16 := 0x1021

  /** The byte each C `char` stands for: the `(uint8_t)` cast keeps the low
      eight bits of the character code. */
  function Octets(s: seq<char>): (r: seq<bv8>)
    ensures |r| == |s|
  {
    seq(|s|, i requires 0 <= i < |s| => ((s[i] as int) % 256) as bv8)
  }

  // ---------------------------------------------------------------------
  // Byte-wise specification (the shape of the C loop)
  // ---------------------------------------------------------------------

  /** One pass of the inner loop: shift left, folding the polynomial in
      when the bit shifted out was set. */
  function Shift(c: bv16): bv16
  {
    if c & 0x8000 != 0 then (c << 1) ^ POLY else c << 1
  }

  /** `n` passes of the inner loop. */
  function ShiftN(c: bv16, n: nat): bv16
  {
    if n == 0 then c else Shift(ShiftN(c, n - 1))
  }

  /** One pass of the outer loop: the byte is XORed into the high byte of
      the register, then eight shifts follow. */
  function Update(c: bv16, b: bv8): bv16
  {
    ShiftN(c ^ ((b as bv16) << 8), 8)
  }

  /** The CRC of `data`: the register after every byte has gone through
      `Update`, starting from 0xFFFF. */
  function Crc16(data: seq<bv8>): bv16
  {
    if data == [] then INIT else Update(Crc16(data[..|data| - 1]), data[|data| - 1])
  }

  lemma OctetsSnoc(s: seq<char>)
    requires s != []
    ensures Octets(s) == Octets(s[..|s| - 1]) + [((s[|s| - 1] as int) % 256) as bv8]
  {
  }

  lemma CrcSnoc(data: seq<bv8>, b: bv8)
    ensures Crc16(data + [b]) == Update(Crc16(data), b)
  {
    assert (data + [b])[..|data|] == data;
  }

  // ---------------------------------------------------------------------
  // Bit-serial reference: the textbook shift register that takes one
  // message bit at a time and feeds back the polynomial whenever the bit
  // leaving the register differs from the incoming message bit.
  // ---------------------------------------------------------------------

  function BitStep(c: bv16, bit: bool): bv16
  {
    if (c & 0x8000 != 0) != bit then (c << 1) ^ POLY else c << 1
  }

  /** The message bits of `b` not yet consumed after `n` steps, kept
      aligned so that the next one sits in bit 15. */
  function Pending(b: bv8, n: nat): bv16
  {
    if n == 0 then (b as bv16) << 8 else Pending(b, n - 1) << 1
  }

  /** The register after the first `n` bits of `b` (most significant bit
      first) have been clocked in one at a time. */
  function Serial(c: bv16, b: bv8, n: nat): bv16
  {
    if n == 0 then c else BitStep(Serial(c, b, n - 1), Pending(b, n - 1) & 0x8000 != 0)
  }

  /** The reference CRC: every bit of every byte through `BitStep`. */
  function BitSerialCrc(data: seq<bv8>): bv16
  {
    if data == [] then INIT else Serial(BitSerialCrc(data[..|data| - 1]), data[|data| - 1], 8)
  }

  lemma ShiftXor(y: bv16, z: bv16)
    ensures (y ^ z) << 1 == (y << 1) ^ (z << 1)
  {
  }

  lemma TopBitXor(y: bv16, z: bv16)
    ensures ((y ^ z) & 0x8000 != 0) == ((y & 0x8000 != 0) != (z & 0x8000 != 0))
  {
  }

  lemma PolyXor(a: bv16, b: bv16)
    ensures (a ^ POLY) ^ b == (a ^ b) ^ POLY
  {
  }

  /** Shifting a register that still holds unconsumed message bits `z`
      equals one bit-serial step on the register without them, with the
      message bits moved along. */
  lemma ShiftSplits(y: bv16, z: bv16)
    ensures Shift(y ^ z) == BitStep(y, z & 0x8000 != 0) ^ (z << 1)
  {
    ShiftXor(y, z);
    TopBitXor(y, z);
    if (y & 0x8000 != 0) != (z & 0x8000 != 0) {
      PolyXor(y << 1, z << 1);
    }
  }

  lemma ShiftNStep(x: bv16, n: nat)
    requires n > 0
    ensures ShiftN(x, n) == Shift(ShiftN(x, n - 1))
  {
  }

  lemma SerialStep(c: bv16, b: bv8, n: nat)
    requires n > 0
    ensures Serial(c, b, n) == BitStep(Serial(c, b, n - 1), Pending(b, n - 1) & 0x8000 != 0)
  {
  }

  lemma PendingStep(b: bv8, n: nat)
    requires n > 0
    ensures Pending(b, n) == Pending(b, n - 1) << 1
  {
  }

  /** After `n` inner-loop shifts the byte-wise register is the bit-serial
      register XOR the message bits still waiting. */
  lemma {:induction false} ShiftsTrackSerial(c: bv16, b: bv8, n: nat)
    ensures ShiftN(c ^ ((b as bv16) << 8), n) == Serial(c, b, n) ^ Pending(b, n)
  {
    if n > 0 {
      var x := c ^ ((b as bv16) << 8);
      var y, z := Serial(c, b, n - 1), Pending(b, n - 1);
      ShiftsTrackSerial(c, b, n - 1);
      ShiftNStep(x, n);
      ShiftSplits(y, z);
      SerialStep(c, b, n);
      PendingStep(b, n);
    }
  }

  /** After eight steps every message bit has been consumed. */
  lemma PendingDrained(b: bv8)
    ensures Pending(b, 8) == 0
  {
    var x := (b as bv16) << 8;
    assert Pending(b, 1) == x << 1;
    assert Pending(b, 2) == x << 1 << 1;
    assert Pending(b, 3) == x << 1 << 1 << 1;
    assert Pending(b, 4) == x << 1 << 1 << 1 << 1;
    assert Pending(b, 5) == x << 1 << 1 << 1 << 1 << 1;
    assert Pending(b, 6) == x << 1 << 1 << 1 << 1 << 1 << 1;
    assert Pending(b, 7) == x << 1 << 1 << 1 << 1 << 1 << 1 << 1;
    assert Pending(b, 8) == x << 1 << 1 << 1 << 1 << 1 << 1 << 1 << 1;
  }

  /** One outer-loop pass equals clocking the byte in bit by bit. */
  lemma UpdateIsSerial(c: bv16, b: bv8)
    ensures Update(c, b) == Serial(c, b, 8)
  {
    ShiftsTrackSerial(c, b, 8);
    PendingDrained(b);
  }

  /** The byte-wise loop computes the bit-serial CRC-16/CCITT-FALSE. */
  lemma {:induction false} Crc16IsBitSerial(data: seq<bv8>)
    ensures Crc16(data) == BitSerialCrc(data)
  {
    if data != [] {
      Crc16IsBitSerial(data[..|data| - 1]);
      UpdateIsSerial(Crc16(data[..|data| - 1]), data[|data| - 1]);
    }
  }

  lemma UpdateUnrolled(c: bv16, b: bv8)
    ensures Update(c, b) == Shift(Shift(Shift(Shift(Shift(Shift(Shift(Shift(c ^ ((b as bv16) << 8)))))))))
  {
    var x := c ^ ((b as bv16) << 8);
    assert ShiftN(x, 1) == Shift(x);
    assert ShiftN(x, 2) == Shift(Shift(x));
    assert ShiftN(x, 3) == Shift(Shift(Shift(x)));
    assert ShiftN(x, 4) == Shift(Shift(Shift(Shift(x))));
    assert ShiftN(x, 5) == Shift(Shift(Shift(Shift(Shift(x)))));
    assert ShiftN(x, 6) == Shift(Shift(Shift(Shift(Shift(Shift(x))))));
    assert ShiftN(x, 7) == Shift(Shift(Shift(Shift(Shift(Shift(Shift(x)))))));
  }

  /** The catalogue check values of CRC-16/CCITT-FALSE: 0xFFFF for no
      input and 0x29B1 for the nine ASCII codes of "123456789". */
  lemma CheckValues()
    ensures Crc16([]) == 0xFFFF
    ensures Crc16([0x31, 0x32, 0x33, 0x34, 0x35, 0x36, 0x37, 0x38, 0x39]) == 0x29B1
  {
    var s: seq<bv8> := [0x31, 0x32, 0x33, 0x34, 0x35, 0x36, 0x37, 0x38, 0x39];
    assert s[..0] == [];
    UpdateUnrolled(0xFFFF, 0x31);
    CrcSnoc(s[..0], s[0]);
    assert s[..1] == s[..0] + [s[0]];
    assert Crc16(s[..1]) == 0xC782;
    UpdateUnrolled(0xC782, 0x32);
    CrcSnoc(s[..1], s[1]);
    assert s[..2] == s[..1] + [s[1]];
    assert Crc16(s[..2]) == 0x3DBA;
    UpdateUnrolled(0x3DBA, 0x33);
    CrcSnoc(s[..2], s[2]);
    assert s[..3] == s[..2] + [s[2]];
    assert Crc16(s[..3]) == 0x5BCE;
    UpdateUnrolled(0x5BCE, 0x34);
    CrcSnoc(s[..3], s[3]);
    assert s[..4] == s[..3] + [s[3]];
    assert Crc16(s[..4]) == 0x5349;
    UpdateUnrolled(0x5349, 0x35);
    CrcSnoc(s[..4], s[4]);
    assert s[..5] == s[..4] + [s[4]];
    assert Crc16(s[..5]) == 0x4560;
    UpdateUnrolled(0x4560, 0x36);
    CrcSnoc(s[..5], s[5]);
    assert s[..6] == s[..5] + [s[5]];
    assert Crc16(s[..6]) == 0x2EF4;
    UpdateUnrolled(0x2EF4, 0x37);
    CrcSnoc(s[..6], s[6]);
    assert s[..7] == s[..6] + [s[6]];
    assert Crc16(s[..7]) == 0x7718;
    UpdateUnrolled(0x7718, 0x38);
    CrcSnoc(s[..7], s[7]);
    assert s[..8] == s[..7] + [s[7]];
    assert Crc16(s[..8]) == 0xA12B;
    UpdateUnrolled(0xA12B, 0x39);
    CrcSnoc(s[..8], s[8]);
    assert s[..9] == s[..8] + [s[8]];
    assert s[..9] == s;
  }

  // ---------------------------------------------------------------------
  // The C function
  // ---------------------------------------------------------------------

  /** `crc16_ccitt(data, len)`: the nested loop over the first `len`
      characters of `data`. */
  method Crc16Ccitt(data: array<char>, len: nat) returns (crc: bv16)
    requires len <= data.Length
    ensures crc == Crc16(Octets(data[..len]))
  {
    crc := INIT;
    var i := 0;
    while i < len
      invariant i <= len
      invariant crc == Crc16(Octets(data[..i]))
    {
      var b := ((data[i] as int) % 256) as bv8;
      crc := crc ^ ((b as bv16) << 8);
      ghost var start := crc;
      var j := 0;
      while j < 8
        invariant j <= 8
        invariant crc == ShiftN(start, j)
      {
        crc := if crc & 0x8000 != 0 then (crc << 1) ^ POLY else crc << 1;
        j := j + 1;
      }
      OctetsSnoc(data[..i + 1]);
      assert data[..i + 1][..i] == data[..i];
      CrcSnoc(Octets(data[..i]), b);
      i := i + 1;
    }
  }
}
