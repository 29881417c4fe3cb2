/** The packet checksum: bzrtp_CRC32 and its lookup table in src/cryptoUtils.cc, its
    writing in bzrtp_packetSetSequenceNumber and its test in bzrtp_packetCheck, both
    in src/packetParser.c. */
module Crc32 {
  import opened Octets

  // ---------------------------------------------------------------------
  // Repetition

  function Times<W>(f: W -> W, x: W, n: nat): W {
    if n == 0 then x else f(Times(f, x, n - 1))
  }

  function Folded<W, B>(step: (W, B) -> W, start: W, items: seq<B>): W {
    if items == [] then start else step(Folded(step, start, items[..|items| - 1]), items[|items| - 1])
  }

  function Unrolled<W>(low: W -> bool, drop: W -> W, w: W, n: nat): (bits: seq<bool>)
    ensures |bits| == n
  {
    if n == 0 then [] else Unrolled(low, drop, w, n - 1) + [low(Times(drop, w, n - 1))]
  }

  lemma {:induction false} FoldAppends<W, B>(step: (W, B) -> W, start: W, a: seq<B>, b: seq<B>)
    ensures Folded(step, start, a + b) == Folded(step, Folded(step, start, a), b)
  {
    if b == [] {
      assert a + b == a;
    } else {
      assert (a + b)[..|a + b| - 1] == a + b[..|b| - 1];
      FoldAppends(step, start, a, b[..|b| - 1]);
    }
  }

  /** Bits shifted in one at a time, or added to the register at once: the two are
      one when they are for a single bit. */
  lemma {:induction false} BitsAtOnce<W(!new)>(shiftIn: (W, bool) -> W, shift: W -> W, low: W -> bool, drop: W -> W,
                                               xor: (W, W) -> W, sum: W, w: W, n: nat)
    requires forall s, v :: shiftIn(xor(s, v), low(v)) == xor(shift(s), drop(v))
    ensures Folded(shiftIn, xor(sum, w), Unrolled(low, drop, w, n)) == xor(Times(shift, sum, n), Times(drop, w, n))
  {
    if n > 0 {
      BitsAtOnce(shiftIn, shift, low, drop, xor, sum, w, n - 1);
      var bits := Unrolled(low, drop, w, n);
      assert bits[..n - 1] == Unrolled(low, drop, w, n - 1);
    }
  }

  lemma EightTimes<W>(f: W -> W, x: W)
    ensures Times(f, x, 8) == f(f(f(f(f(f(f(f(x))))))))
  {
    assert Times(f, x, 2) == f(f(x));
    assert Times(f, x, 4) == f(f(Times(f, x, 2)));
    assert Times(f, x, 6) == f(f(Times(f, x, 4)));
  }

  // ---------------------------------------------------------------------
  // Bit by bit

  /** The polynomial 0x1EDC6F41 of Appendix B of RFC 4960, bits reversed. */
  const POLYNOMIAL: bv32 := 0x82F63B78

  /** The register once the next bit of the input has been added to it. */
  function ShiftIn(register: bv32, bit: bool): bv32 {
    if (register & 1 == 1) != bit then (register >> 1) ^ POLYNOMIAL else register >> 1
  }

  predicate LowBit(word: bv32) {
    word & 1 == 1
  }

  function Halved(word: bv32): bv32 {
    word >> 1
  }

  /** The n low bits of a word, lowest first: the order the checksum takes the bits
      of an octet in. */
  function LowBits(word: bv32, n: nat): seq<bool> {
    Unrolled(LowBit, Halved, word, n)
  }

  function Bits(input: seq<bv8>): seq<bool> {
    if input == [] then [] else Bits(input[..|input| - 1]) + LowBits(input[|input| - 1] as bv32, 8)
  }

  /** Division of a string of bits by the polynomial, one bit at a time. */
  function BitwiseRegister(start: bv32, bits: seq<bool>): bv32 {
    Folded(ShiftIn, start, bits)
  }

  // ---------------------------------------------------------------------
  // By octets, with the table

  function Lines0(index: bv8): bv32 {
    match index
    case 0x00 => 0x00000000 case 0x01 => 0xf26b8303 case 0x02 => 0xe13b70f7 case 0x03 => 0x1350f3f4
    case 0x04 => 0xc79a971f case 0x05 => 0x35f1141c case 0x06 => 0x26a1e7e8 case 0x07 => 0xd4ca64eb
    case 0x08 => 0x8ad958cf case 0x09 => 0x78b2dbcc case 0x0a => 0x6be22838 case 0x0b => 0x9989ab3b
    case 0x0c => 0x4d43cfd0 case 0x0d => 0xbf284cd3 case 0x0e => 0xac78bf27 case 0x0f => 0x5e133c24
    case 0x10 => 0x105ec76f case 0x11 => 0xe235446c case 0x12 => 0xf165b798 case 0x13 => 0x030e349b
    case 0x14 => 0xd7c45070 case 0x15 => 0x25afd373 case 0x16 => 0x36ff2087 case 0x17 => 0xc494a384
    case 0x18 => 0x9a879fa0 case 0x19 => 0x68ec1ca3 case 0x1a => 0x7bbcef57 case 0x1b => 0x89d76c54
    case 0x1c => 0x5d1d08bf case 0x1d => 0xaf768bbc case 0x1e => 0xbc267848 case _ => 0x4e4dfb4b
  }

  function Lines1(index: bv8): bv32 {
    match index
    case 0x20 => 0x20bd8ede case 0x21 => 0xd2d60ddd case 0x22 => 0xc186fe29 case 0x23 => 0x33ed7d2a
    case 0x24 => 0xe72719c1 case 0x25 => 0x154c9ac2 case 0x26 => 0x061c6936 case 0x27 => 0xf477ea35
    case 0x28 => 0xaa64d611 case 0x29 => 0x580f5512 case 0x2a => 0x4b5fa6e6 case 0x2b => 0xb93425e5
    case 0x2c => 0x6dfe410e case 0x2d => 0x9f95c20d case 0x2e => 0x8cc531f9 case 0x2f => 0x7eaeb2fa
    case 0x30 => 0x30e349b1 case 0x31 => 0xc288cab2 case 0x32 => 0xd1d83946 case 0x33 => 0x23b3ba45
    case 0x34 => 0xf779deae case 0x35 => 0x05125dad case 0x36 => 0x1642ae59 case 0x37 => 0xe4292d5a
    case 0x38 => 0xba3a117e case 0x39 => 0x4851927d case 0x3a => 0x5b016189 case 0x3b => 0xa96ae28a
    case 0x3c => 0x7da08661 case 0x3d => 0x8fcb0562 case 0x3e => 0x9c9bf696 case _ => 0x6ef07595
  }

  function Lines2(index: bv8): bv32 {
    match index
    case 0x40 => 0x417b1dbc case 0x41 => 0xb3109ebf case 0x42 => 0xa0406d4b case 0x43 => 0x522bee48
    case 0x44 => 0x86e18aa3 case 0x45 => 0x748a09a0 case 0x46 => 0x67dafa54 case 0x47 => 0x95b17957
    case 0x48 => 0xcba24573 case 0x49 => 0x39c9c670 case 0x4a => 0x2a993584 case 0x4b => 0xd8f2b687
    case 0x4c => 0x0c38d26c case 0x4d => 0xfe53516f case 0x4e => 0xed03a29b case 0x4f => 0x1f682198
    case 0x50 => 0x5125dad3 case 0x51 => 0xa34e59d0 case 0x52 => 0xb01eaa24 case 0x53 => 0x42752927
    case 0x54 => 0x96bf4dcc case 0x55 => 0x64d4cecf case 0x56 => 0x77843d3b case 0x57 => 0x85efbe38
    case 0x58 => 0xdbfc821c case 0x59 => 0x2997011f case 0x5a => 0x3ac7f2eb case 0x5b => 0xc8ac71e8
    case 0x5c => 0x1c661503 case 0x5d => 0xee0d9600 case 0x5e => 0xfd5d65f4 case _ => 0x0f36e6f7
  }

  function Lines3(index: bv8): bv32 {
    match index
    case 0x60 => 0x61c69362 case 0x61 => 0x93ad1061 case 0x62 => 0x80fde395 case 0x63 => 0x72966096
    case 0x64 => 0xa65c047d case 0x65 => 0x5437877e case 0x66 => 0x4767748a case 0x67 => 0xb50cf789
    case 0x68 => 0xeb1fcbad case 0x69 => 0x197448ae case 0x6a => 0x0a24bb5a case 0x6b => 0xf84f3859
    case 0x6c => 0x2c855cb2 case 0x6d => 0xdeeedfb1 case 0x6e => 0xcdbe2c45 case 0x6f => 0x3fd5af46
    case 0x70 => 0x7198540d case 0x71 => 0x83f3d70e case 0x72 => 0x90a324fa case 0x73 => 0x62c8a7f9
    case 0x74 => 0xb602c312 case 0x75 => 0x44694011 case 0x76 => 0x5739b3e5 case 0x77 => 0xa55230e6
    case 0x78 => 0xfb410cc2 case 0x79 => 0x092a8fc1 case 0x7a => 0x1a7a7c35 case 0x7b => 0xe811ff36
    case 0x7c => 0x3cdb9bdd case 0x7d => 0xceb018de case 0x7e => 0xdde0eb2a case _ => 0x2f8b6829
  }

  function Lines4(index: bv8): bv32 {
    match index
    case 0x80 => 0x82f63b78 case 0x81 => 0x709db87b case 0x82 => 0x63cd4b8f case 0x83 => 0x91a6c88c
    case 0x84 => 0x456cac67 case 0x85 => 0xb7072f64 case 0x86 => 0xa457dc90 case 0x87 => 0x563c5f93
    case 0x88 => 0x082f63b7 case 0x89 => 0xfa44e0b4 case 0x8a => 0xe9141340 case 0x8b => 0x1b7f9043
    case 0x8c => 0xcfb5f4a8 case 0x8d => 0x3dde77ab case 0x8e => 0x2e8e845f case 0x8f => 0xdce5075c
    case 0x90 => 0x92a8fc17 case 0x91 => 0x60c37f14 case 0x92 => 0x73938ce0 case 0x93 => 0x81f80fe3
    case 0x94 => 0x55326b08 case 0x95 => 0xa759e80b case 0x96 => 0xb4091bff case 0x97 => 0x466298fc
    case 0x98 => 0x1871a4d8 case 0x99 => 0xea1a27db case 0x9a => 0xf94ad42f case 0x9b => 0x0b21572c
    case 0x9c => 0xdfeb33c7 case 0x9d => 0x2d80b0c4 case 0x9e => 0x3ed04330 case _ => 0xccbbc033
  }

  function Lines5(index: bv8): bv32 {
    match index
    case 0xa0 => 0xa24bb5a6 case 0xa1 => 0x502036a5 case 0xa2 => 0x4370c551 case 0xa3 => 0xb11b4652
    case 0xa4 => 0x65d122b9 case 0xa5 => 0x97baa1ba case 0xa6 => 0x84ea524e case 0xa7 => 0x7681d14d
    case 0xa8 => 0x2892ed69 case 0xa9 => 0xdaf96e6a case 0xaa => 0xc9a99d9e case 0xab => 0x3bc21e9d
    case 0xac => 0xef087a76 case 0xad => 0x1d63f975 case 0xae => 0x0e330a81 case 0xaf => 0xfc588982
    case 0xb0 => 0xb21572c9 case 0xb1 => 0x407ef1ca case 0xb2 => 0x532e023e case 0xb3 => 0xa145813d
    case 0xb4 => 0x758fe5d6 case 0xb5 => 0x87e466d5 case 0xb6 => 0x94b49521 case 0xb7 => 0x66df1622
    case 0xb8 => 0x38cc2a06 case 0xb9 => 0xcaa7a905 case 0xba => 0xd9f75af1 case 0xbb => 0x2b9cd9f2
    case 0xbc => 0xff56bd19 case 0xbd => 0x0d3d3e1a case 0xbe => 0x1e6dcdee case _ => 0xec064eed
  }

  function Lines6(index: bv8): bv32 {
    match index
    case 0xc0 => 0xc38d26c4 case 0xc1 => 0x31e6a5c7 case 0xc2 => 0x22b65633 case 0xc3 => 0xd0ddd530
    case 0xc4 => 0x0417b1db case 0xc5 => 0xf67c32d8 case 0xc6 => 0xe52cc12c case 0xc7 => 0x1747422f
    case 0xc8 => 0x49547e0b case 0xc9 => 0xbb3ffd08 case 0xca => 0xa86f0efc case 0xcb => 0x5a048dff
    case 0xcc => 0x8ecee914 case 0xcd => 0x7ca56a17 case 0xce => 0x6ff599e3 case 0xcf => 0x9d9e1ae0
    case 0xd0 => 0xd3d3e1ab case 0xd1 => 0x21b862a8 case 0xd2 => 0x32e8915c case 0xd3 => 0xc083125f
    case 0xd4 => 0x144976b4 case 0xd5 => 0xe622f5b7 case 0xd6 => 0xf5720643 case 0xd7 => 0x07198540
    case 0xd8 => 0x590ab964 case 0xd9 => 0xab613a67 case 0xda => 0xb831c993 case 0xdb => 0x4a5a4a90
    case 0xdc => 0x9e902e7b case 0xdd => 0x6cfbad78 case 0xde => 0x7fab5e8c case _ => 0x8dc0dd8f
  }

  function Lines7(index: bv8): bv32 {
    match index
    case 0xe0 => 0xe330a81a case 0xe1 => 0x115b2b19 case 0xe2 => 0x020bd8ed case 0xe3 => 0xf0605bee
    case 0xe4 => 0x24aa3f05 case 0xe5 => 0xd6c1bc06 case 0xe6 => 0xc5914ff2 case 0xe7 => 0x37faccf1
    case 0xe8 => 0x69e9f0d5 case 0xe9 => 0x9b8273d6 case 0xea => 0x88d28022 case 0xeb => 0x7ab90321
    case 0xec => 0xae7367ca case 0xed => 0x5c18e4c9 case 0xee => 0x4f48173d case 0xef => 0xbd23943e
    case 0xf0 => 0xf36e6f75 case 0xf1 => 0x0105ec76 case 0xf2 => 0x12551f82 case 0xf3 => 0xe03e9c81
    case 0xf4 => 0x34f4f86a case 0xf5 => 0xc69f7b69 case 0xf6 => 0xd5cf889d case 0xf7 => 0x27a40b9e
    case 0xf8 => 0x79b737ba case 0xf9 => 0x8bdcb4b9 case 0xfa => 0x988c474d case 0xfb => 0x6ae7c44e
    case 0xfc => 0xbe2da0a5 case 0xfd => 0x4c4623a6 case 0xfe => 0x5f16d052 case _ => 0xad7d5351
  }

  /** CRC32LookupTable. */
  function LookupTable(index: bv8): bv32 {
    if index < 0x20 then Lines0(index)
    else if index < 0x40 then Lines1(index)
    else if index < 0x60 then Lines2(index)
    else if index < 0x80 then Lines3(index)
    else if index < 0xa0 then Lines4(index)
    else if index < 0xc0 then Lines5(index)
    else if index < 0xe0 then Lines6(index)
    else Lines7(index)
  }

  function Shifted(register: bv32): bv32 {
    if register & 1 == 1 then (register >> 1) ^ POLYNOMIAL else register >> 1
  }

  function Shifted8(register: bv32): bv32 {
    Shifted(Shifted(Shifted(Shifted(Shifted(Shifted(Shifted(Shifted(register))))))))
  }

  lemma Lines0AreRemainders(index: bv8)
    requires 0x00 <= index <= 0x1f
    ensures Lines0(index) == Shifted8(index as bv32)
  {
    match index
    case 0x00 => case 0x01 => case 0x02 => case 0x03 => case 0x04 => case 0x05 => case 0x06 => case 0x07 =>
    case 0x08 => case 0x09 => case 0x0a => case 0x0b => case 0x0c => case 0x0d => case 0x0e => case 0x0f =>
    case 0x10 => case 0x11 => case 0x12 => case 0x13 => case 0x14 => case 0x15 => case 0x16 => case 0x17 =>
    case 0x18 => case 0x19 => case 0x1a => case 0x1b => case 0x1c => case 0x1d => case 0x1e => case _ =>
  }

  lemma Lines1AreRemainders(index: bv8)
    requires 0x20 <= index <= 0x3f
    ensures Lines1(index) == Shifted8(index as bv32)
  {
    match index
    case 0x20 => case 0x21 => case 0x22 => case 0x23 => case 0x24 => case 0x25 => case 0x26 => case 0x27 =>
    case 0x28 => case 0x29 => case 0x2a => case 0x2b => case 0x2c => case 0x2d => case 0x2e => case 0x2f =>
    case 0x30 => case 0x31 => case 0x32 => case 0x33 => case 0x34 => case 0x35 => case 0x36 => case 0x37 =>
    case 0x38 => case 0x39 => case 0x3a => case 0x3b => case 0x3c => case 0x3d => case 0x3e => case _ =>
  }

  lemma Lines2AreRemainders(index: bv8)
    requires 0x40 <= index <= 0x5f
    ensures Lines2(index) == Shifted8(index as bv32)
  {
    match index
    case 0x40 => case 0x41 => case 0x42 => case 0x43 => case 0x44 => case 0x45 => case 0x46 => case 0x47 =>
    case 0x48 => case 0x49 => case 0x4a => case 0x4b => case 0x4c => case 0x4d => case 0x4e => case 0x4f =>
    case 0x50 => case 0x51 => case 0x52 => case 0x53 => case 0x54 => case 0x55 => case 0x56 => case 0x57 =>
    case 0x58 => case 0x59 => case 0x5a => case 0x5b => case 0x5c => case 0x5d => case 0x5e => case _ =>
  }

  lemma Lines3AreRemainders(index: bv8)
    requires 0x60 <= index <= 0x7f
    ensures Lines3(index) == Shifted8(index as bv32)
  {
    match index
    case 0x60 => case 0x61 => case 0x62 => case 0x63 => case 0x64 => case 0x65 => case 0x66 => case 0x67 =>
    case 0x68 => case 0x69 => case 0x6a => case 0x6b => case 0x6c => case 0x6d => case 0x6e => case 0x6f =>
    case 0x70 => case 0x71 => case 0x72 => case 0x73 => case 0x74 => case 0x75 => case 0x76 => case 0x77 =>
    case 0x78 => case 0x79 => case 0x7a => case 0x7b => case 0x7c => case 0x7d => case 0x7e => case _ =>
  }

  lemma Lines4AreRemainders(index: bv8)
    requires 0x80 <= index <= 0x9f
    ensures Lines4(index) == Shifted8(index as bv32)
  {
    match index
    case 0x80 => case 0x81 => case 0x82 => case 0x83 => case 0x84 => case 0x85 => case 0x86 => case 0x87 =>
    case 0x88 => case 0x89 => case 0x8a => case 0x8b => case 0x8c => case 0x8d => case 0x8e => case 0x8f =>
    case 0x90 => case 0x91 => case 0x92 => case 0x93 => case 0x94 => case 0x95 => case 0x96 => case 0x97 =>
    case 0x98 => case 0x99 => case 0x9a => case 0x9b => case 0x9c => case 0x9d => case 0x9e => case _ =>
  }

  lemma Lines5AreRemainders(index: bv8)
    requires 0xa0 <= index <= 0xbf
    ensures Lines5(index) == Shifted8(index as bv32)
  {
    match index
    case 0xa0 => case 0xa1 => case 0xa2 => case 0xa3 => case 0xa4 => case 0xa5 => case 0xa6 => case 0xa7 =>
    case 0xa8 => case 0xa9 => case 0xaa => case 0xab => case 0xac => case 0xad => case 0xae => case 0xaf =>
    case 0xb0 => case 0xb1 => case 0xb2 => case 0xb3 => case 0xb4 => case 0xb5 => case 0xb6 => case 0xb7 =>
    case 0xb8 => case 0xb9 => case 0xba => case 0xbb => case 0xbc => case 0xbd => case 0xbe => case _ =>
  }

  lemma Lines6AreRemainders(index: bv8)
    requires 0xc0 <= index <= 0xdf
    ensures Lines6(index) == Shifted8(index as bv32)
  {
    match index
    case 0xc0 => case 0xc1 => case 0xc2 => case 0xc3 => case 0xc4 => case 0xc5 => case 0xc6 => case 0xc7 =>
    case 0xc8 => case 0xc9 => case 0xca => case 0xcb => case 0xcc => case 0xcd => case 0xce => case 0xcf =>
    case 0xd0 => case 0xd1 => case 0xd2 => case 0xd3 => case 0xd4 => case 0xd5 => case 0xd6 => case 0xd7 =>
    case 0xd8 => case 0xd9 => case 0xda => case 0xdb => case 0xdc => case 0xdd => case 0xde => case _ =>
  }

  lemma Lines7AreRemainders(index: bv8)
    requires 0xe0 <= index <= 0xff
    ensures Lines7(index) == Shifted8(index as bv32)
  {
    match index
    case 0xe0 => case 0xe1 => case 0xe2 => case 0xe3 => case 0xe4 => case 0xe5 => case 0xe6 => case 0xe7 =>
    case 0xe8 => case 0xe9 => case 0xea => case 0xeb => case 0xec => case 0xed => case 0xee => case 0xef =>
    case 0xf0 => case 0xf1 => case 0xf2 => case 0xf3 => case 0xf4 => case 0xf5 => case 0xf6 => case 0xf7 =>
    case 0xf8 => case 0xf9 => case 0xfa => case 0xfb => case 0xfc => case 0xfd => case 0xfe => case _ =>
  }

  /** Each stored entry is what eight shifts make of its index. */
  lemma TableHoldsRemainders(index: bv8)
    ensures LookupTable(index) == Shifted8(index as bv32)
  {
    if index < 0x20 {
      Lines0AreRemainders(index);
    } else if index < 0x40 {
      Lines1AreRemainders(index);
    } else if index < 0x60 {
      Lines2AreRemainders(index);
    } else if index < 0x80 {
      Lines3AreRemainders(index);
    } else if index < 0xa0 {
      Lines4AreRemainders(index);
    } else if index < 0xc0 {
      Lines5AreRemainders(index);
    } else if index < 0xe0 {
      Lines6AreRemainders(index);
    } else {
      Lines7AreRemainders(index);
    }
  }

  /** One turn of the loop of bzrtp_CRC32. */
  function TableStep(table: bv8 -> bv32, register: bv32, octet: bv8): bv32 {
    (register >> 8) ^ table(LowOctet(register) ^ octet)
  }

  function LowOctet(register: bv32): bv8 {
    (register & 0xFF) as bv8
  }

  function Turn(table: bv8 -> bv32): (bv32, bv8) -> bv32 {
    (register, octet) => TableStep(table, register, octet)
  }

  function TableRegister(table: bv8 -> bv32, start: bv32, input: seq<bv8>): bv32 {
    Folded(Turn(table), start, input)
  }

  // ---------------------------------------------------------------------
  // The two forms agree

  lemma XorShifts(a: bv32, b: bv32)
    ensures (a ^ b) >> 1 == (a >> 1) ^ (b >> 1)
    ensures a & 1 == 0 || a & 1 == 1
    ensures a & 1 == b & 1 ==> (a ^ b) & 1 == 0
    ensures a & 1 != b & 1 ==> (a ^ b) & 1 == 1
  {
  }

  lemma XorAssociates(x: bv32, y: bv32, p: bv32)
    ensures (x ^ p) ^ (y ^ p) == x ^ y
    ensures (x ^ p) ^ y == (x ^ y) ^ p
    ensures x ^ (y ^ p) == (x ^ y) ^ p
  {
  }

  lemma ShiftIsLinear(a: bv32, b: bv32, c: bv32, x: bv32, y: bv32, z: bv32)
    requires c == a ^ b && x == Shifted(a) && y == Shifted(b) && z == Shifted(c)
    ensures z == x ^ y
  {
    XorShifts(a, b);
    XorAssociates(a >> 1, b >> 1, POLYNOMIAL);
  }

  lemma Shift8IsLinear(a: bv32, b: bv32, c: bv32, x: bv32, y: bv32, z: bv32)
    requires c == a ^ b && x == Shifted8(a) && y == Shifted8(b) && z == Shifted8(c)
    ensures z == x ^ y
  {
    var a1, b1, c1 := Shifted(a), Shifted(b), Shifted(c);
    var a2, b2, c2 := Shifted(a1), Shifted(b1), Shifted(c1);
    var a3, b3, c3 := Shifted(a2), Shifted(b2), Shifted(c2);
    var a4, b4, c4 := Shifted(a3), Shifted(b3), Shifted(c3);
    var a5, b5, c5 := Shifted(a4), Shifted(b4), Shifted(c4);
    var a6, b6, c6 := Shifted(a5), Shifted(b5), Shifted(c5);
    var a7, b7, c7 := Shifted(a6), Shifted(b6), Shifted(c6);
    ShiftIsLinear(a, b, c, a1, b1, c1);
    ShiftIsLinear(a1, b1, c1, a2, b2, c2);
    ShiftIsLinear(a2, b2, c2, a3, b3, c3);
    ShiftIsLinear(a3, b3, c3, a4, b4, c4);
    ShiftIsLinear(a4, b4, c4, a5, b5, c5);
    ShiftIsLinear(a5, b5, c5, a6, b6, c6);
    ShiftIsLinear(a6, b6, c6, a7, b7, c7);
    ShiftIsLinear(a7, b7, c7, x, y, z);
  }

  /** Bits known to be zero are shifted out without adding the polynomial. */
  lemma ShiftOfEven(a: bv32, mask: bv32) returns (b: bv32)
    requires a & mask == 0 && mask & 1 == 1
    ensures b == Shifted(a) && b == a >> 1 && b & (mask >> 1) == 0
  {
    EvenShifts(a, mask);
    b := a >> 1;
  }

  lemma EvenShifts(a: bv32, mask: bv32)
    requires a & mask == 0 && mask & 1 == 1
    ensures a & 1 == 0 && (a >> 1) & (mask >> 1) == 0
  {
  }

  lemma EightHalves(a: bv32, a1: bv32, a2: bv32, a3: bv32, a4: bv32, a5: bv32, a6: bv32, a7: bv32, a8: bv32)
    requires a1 == a >> 1 && a2 == a1 >> 1 && a3 == a2 >> 1 && a4 == a3 >> 1
    requires a5 == a4 >> 1 && a6 == a5 >> 1 && a7 == a6 >> 1 && a8 == a7 >> 1
    ensures a8 == a >> 8
  {
  }

  lemma Shift8OfHigh(a: bv32)
    requires a & 0xFF == 0
    ensures Shifted8(a) == a >> 8
  {
    var a1 := ShiftOfEven(a, 0xFF);
    var a2 := ShiftOfEven(a1, 0x7F);
    var a3 := ShiftOfEven(a2, 0x3F);
    var a4 := ShiftOfEven(a3, 0x1F);
    var a5 := ShiftOfEven(a4, 0x0F);
    var a6 := ShiftOfEven(a5, 0x07);
    var a7 := ShiftOfEven(a6, 0x03);
    var a8 := ShiftOfEven(a7, 0x01);
    EightHalves(a, a1, a2, a3, a4, a5, a6, a7, a8);
  }

  lemma SplitLow(register: bv32, octet: bv8)
    ensures register ^ (octet as bv32) == (register & 0xFFFF_FF00) ^ ((((register & 0xFF) as bv8) ^ octet) as bv32)
    ensures (register & 0xFFFF_FF00) & 0xFF == 0 && (register & 0xFFFF_FF00) >> 8 == register >> 8
  {
  }

  predicate Splits(low: bv8, high: bv32, sum: bv32, highShifted: bv32) {
    sum == high ^ (low as bv32) && high & 0xFF == 0 && highShifted == high >> 8
  }

  lemma RegisterSplits(register: bv32, octet: bv8)
    ensures Splits(LowOctet(register) ^ octet, register & 0xFFFF_FF00, register ^ (octet as bv32), register >> 8)
  {
    SplitLow(register, octet);
  }

  lemma ShiftOfSplit(low: bv8, high: bv32, sum: bv32, lowShifted: bv32, highShifted: bv32)
    requires Splits(low, high, sum, highShifted) && lowShifted == Shifted8(low as bv32)
    ensures Shifted8(sum) == highShifted ^ lowShifted
  {
    Shift8OfHigh(high);
    Shift8IsLinear(high, low as bv32, sum, highShifted, lowShifted, Shifted8(sum));
  }

  lemma ShiftOfSum(register: bv32, octet: bv8, lowShifted: bv32)
    requires lowShifted == Shifted8((LowOctet(register) ^ octet) as bv32)
    ensures Shifted8(register ^ (octet as bv32)) == (register >> 8) ^ lowShifted
  {
    RegisterSplits(register, octet);
    ShiftOfSplit(LowOctet(register) ^ octet, register & 0xFFFF_FF00, register ^ (octet as bv32), lowShifted, register >> 8);
  }

  ghost predicate HoldsRemainders(table: bv8 -> bv32) {
    forall index :: table(index) == Shifted8(index as bv32)
  }

  lemma TableEntry(table: bv8 -> bv32, index: bv8)
    requires HoldsRemainders(table)
    ensures table(index) == Shifted8(index as bv32)
  {
  }

  /** A turn of the table loop is the octet added to the register and eight shifts. */
  lemma TableStepShifts(table: bv8 -> bv32, register: bv32, octet: bv8)
    requires HoldsRemainders(table)
    ensures TableStep(table, register, octet) == Shifted8(register ^ (octet as bv32))
  {
    TableEntry(table, LowOctet(register) ^ octet);
    ShiftOfSum(register, octet, table(LowOctet(register) ^ octet));
  }

  function Xor(a: bv32, b: bv32): bv32 {
    a ^ b
  }

  /** s is the register with the octet added, w what is left of the octet. */
  lemma ShiftInKeeps(s: bv32, w: bv32)
    ensures ShiftIn(Xor(s, w), LowBit(w)) == Xor(Shifted(s), Halved(w))
  {
    XorShifts(s, w);
    XorAssociates(s >> 1, w >> 1, POLYNOMIAL);
  }

  lemma OctetShiftsOut(w: bv32)
    requires w & 0xFFFF_FF00 == 0
    ensures Times(Halved, w, 8) == 0
  {
    EightTimes(Halved, w);
    EightHalves(w, w >> 1, (w >> 1) >> 1, ((w >> 1) >> 1) >> 1, (((w >> 1) >> 1) >> 1) >> 1, ((((w >> 1) >> 1) >> 1) >> 1) >> 1,
                (((((w >> 1) >> 1) >> 1) >> 1) >> 1) >> 1, ((((((w >> 1) >> 1) >> 1) >> 1) >> 1) >> 1) >> 1,
                (((((((w >> 1) >> 1) >> 1) >> 1) >> 1) >> 1) >> 1) >> 1);
    OctetHasEightBits(w);
  }

  lemma OctetHasEightBits(w: bv32)
    requires w & 0xFFFF_FF00 == 0
    ensures w >> 8 == 0
  {
  }

  lemma OctetIsLow(register: bv32, octet: bv8)
    ensures (octet as bv32) & 0xFFFF_FF00 == 0
    ensures register == Xor(register ^ (octet as bv32), octet as bv32)
  {
  }

  lemma XorZero(a: bv32)
    ensures Xor(a, 0) == a
  {
  }

  lemma OctetAtOnce(register: bv32, octet: bv8)
    ensures BitwiseRegister(register, LowBits(octet as bv32, 8)) == Shifted8(register ^ (octet as bv32))
  {
    var sum := register ^ (octet as bv32);
    OctetIsLow(register, octet);
    forall s, w ensures ShiftIn(Xor(s, w), LowBit(w)) == Xor(Shifted(s), Halved(w)) {
      ShiftInKeeps(s, w);
    }
    BitsAtOnce(ShiftIn, Shifted, LowBit, Halved, Xor, sum, octet as bv32, 8);
    EightTimes(Shifted, sum);
    OctetShiftsOut(octet as bv32);
    XorZero(Times(Shifted, sum, 8));
  }

  /** The loop over the table divides by the polynomial, bit by bit, on every
      input. */
  lemma {:induction false} TableFormIsBitwiseForm(table: bv8 -> bv32, start: bv32, input: seq<bv8>)
    requires HoldsRemainders(table)
    ensures TableRegister(table, start, input) == BitwiseRegister(start, Bits(input))
  {
    if input != [] {
      var front, octet := input[..|input| - 1], input[|input| - 1];
      TableFormIsBitwiseForm(table, start, front);
      FoldAppends(ShiftIn, start, Bits(front), LowBits(octet as bv32, 8));
      OctetAtOnce(TableRegister(table, start, front), octet);
      TableStepShifts(table, TableRegister(table, start, front), octet);
    }
  }

  // ---------------------------------------------------------------------
  // What the checksum catches

  function Unshifted(register: bv32): bv32 {
    if register & 0x8000_0000 == 0 then register << 1 else ((register ^ POLYNOMIAL) << 1) | 1
  }

  /** A shift of the register can be undone. */
  lemma ShiftIsUndone(a: bv32)
    ensures Unshifted(Shifted(a)) == a
  {
  }

  lemma {:induction false} TimesIsInjective<W>(f: W -> W, g: W -> W, a: W, b: W, n: nat)
    requires forall x {:trigger f(x)} :: g(f(x)) == x
    requires Times(f, a, n) == Times(f, b, n)
    ensures a == b
  {
    if n > 0 {
      assert g(f(Times(f, a, n - 1))) == g(f(Times(f, b, n - 1)));
      TimesIsInjective(f, g, a, b, n - 1);
    }
  }

  lemma Shift8IsInjective(a: bv32, b: bv32)
    requires Shifted8(a) == Shifted8(b)
    ensures a == b
  {
    forall x ensures Unshifted(Shifted(x)) == x {
      ShiftIsUndone(x);
    }
    EightTimes(Shifted, a);
    EightTimes(Shifted, b);
    TimesIsInjective(Shifted, Unshifted, a, b, 8);
  }

  function Raised(word: bv32): bv32 {
    word << 8
  }

  predicate IsRaised(w: bv32, raised: bv32) {
    raised & 0xFF == 0 && raised >> 8 == w
  }

  lemma RaisedOctets(w: bv32)
    requires w & 0xFFFF_FF00 == 0
    ensures IsRaised(w, Raised(w)) && IsRaised(Raised(w), Raised(Raised(w)))
    ensures IsRaised(Raised(Raised(w)), Raised(Raised(Raised(w))))
  {
  }

  /** Adding an octet after eight shifts, or one place higher before them. */
  lemma AddEarlier(x: bv32, w: bv32, raised: bv32)
    requires IsRaised(w, raised)
    ensures Xor(Shifted8(x), w) == Shifted8(Xor(x, raised))
  {
    Shift8OfHigh(raised);
    Shift8IsLinear(x, raised, Xor(x, raised), Shifted8(x), w, Shifted8(Xor(x, raised)));
  }

  /** Four octets, each added and shifted away, or all added at once. */
  lemma FourAtOnce<W>(f: W -> W, xor: (W, W) -> W, x0: W, x1: W, x2: W, x3: W, w1: W, w2: W, w3: W, r2: W, r3: W, rr3: W)
    requires xor(f(x0), w1) == f(x1)
    requires xor(f(x1), r2) == f(x2) && xor(f(f(x1)), w2) == f(xor(f(x1), r2))
    requires xor(f(x2), rr3) == f(x3) && xor(f(f(x2)), r3) == f(xor(f(x2), rr3))
    requires xor(f(f(f(x2))), w3) == f(xor(f(f(x2)), r3))
    ensures f(xor(f(xor(f(xor(f(x0), w1)), w2)), w3)) == f(f(f(f(x3))))
  {
  }

  function FourTurns(c: bv32, o0: bv8, o1: bv8, o2: bv8, o3: bv8): bv32 {
    Shifted8(Xor(Shifted8(Xor(Shifted8(Xor(Shifted8(Xor(c, o0 as bv32)), o1 as bv32)), o2 as bv32)), o3 as bv32))
  }

  function Added(c: bv32, o0: bv8, o1: bv8, o2: bv8, o3: bv8): bv32 {
    Xor(Xor(Xor(Xor(c, o0 as bv32), Raised(o1 as bv32)), Raised(Raised(o2 as bv32))), Raised(Raised(Raised(o3 as bv32))))
  }

  lemma FourTurnsAddFour(c: bv32, o0: bv8, o1: bv8, o2: bv8, o3: bv8)
    ensures FourTurns(c, o0, o1, o2, o3) == Shifted8(Shifted8(Shifted8(Shifted8(Added(c, o0, o1, o2, o3)))))
  {
    var w1, w2, w3 := o1 as bv32, o2 as bv32, o3 as bv32;
    OctetIsLow(0, o1);
    OctetIsLow(0, o2);
    OctetIsLow(0, o3);
    AddFourEarlier(c, o0 as bv32, w1, w2, w3);
  }

  lemma AddFourEarlier(c: bv32, w0: bv32, w1: bv32, w2: bv32, w3: bv32)
    requires w1 & 0xFFFF_FF00 == 0 && w2 & 0xFFFF_FF00 == 0 && w3 & 0xFFFF_FF00 == 0
    ensures Shifted8(Xor(Shifted8(Xor(Shifted8(Xor(Shifted8(Xor(c, w0)), w1)), w2)), w3))
            == Shifted8(Shifted8(Shifted8(Shifted8(
                 Xor(Xor(Xor(Xor(c, w0), Raised(w1)), Raised(Raised(w2))), Raised(Raised(Raised(w3))))))))
  {
    RaisedOctets(w1);
    RaisedOctets(w2);
    RaisedOctets(w3);
    AddRaised(Xor(c, w0), w1, Raised(w1), w2, Raised(w2), Raised(Raised(w2)), w3, Raised(w3), Raised(Raised(w3)),
              Raised(Raised(Raised(w3))));
  }

  lemma AddRaised(x0: bv32, w1: bv32, r1: bv32, w2: bv32, r2: bv32, rr2: bv32, w3: bv32, r3: bv32, rr3: bv32, rrr3: bv32)
    requires IsRaised(w1, r1) && IsRaised(w2, r2) && IsRaised(r2, rr2)
    requires IsRaised(w3, r3) && IsRaised(r3, rr3) && IsRaised(rr3, rrr3)
    ensures Shifted8(Xor(Shifted8(Xor(Shifted8(Xor(Shifted8(x0), w1)), w2)), w3))
            == Shifted8(Shifted8(Shifted8(Shifted8(Xor(Xor(Xor(x0, r1), rr2), rrr3)))))
  {
    var x1 := Xor(x0, r1);
    var x2 := Xor(x1, rr2);
    AddEarlier(x0, w1, r1);
    AddEarlier(x1, r2, rr2);
    AddEarlier(Shifted8(x1), w2, r2);
    AddEarlier(x2, rr3, rrr3);
    AddEarlier(Shifted8(x2), r3, rr3);
    AddEarlier(Shifted8(Shifted8(x2)), w3, r3);
    FourAtOnce(Shifted8, Xor, x0, x1, x2, Xor(x2, rrr3), w1, w2, w3, r2, r3, rr3);
  }

  function Octet0(sum: bv32): bv8 {
    (sum & 0xFF) as bv8
  }

  function Octet1(sum: bv32): bv8 {
    ((sum >> 8) & 0xFF) as bv8
  }

  function Octet2(sum: bv32): bv8 {
    ((sum >> 16) & 0xFF) as bv8
  }

  function Octet3(sum: bv32): bv8 {
    ((sum >> 24) & 0xFF) as bv8
  }

  lemma SumWithoutStart(c: bv32, w0: bv32, w1: bv32, w2: bv32, w3: bv32)
    ensures ((((c ^ w0) ^ w1) ^ w2) ^ w3) ^ c == ((w0 ^ w1) ^ w2) ^ w3
  {
  }

  lemma WordHoldsOctets(o0: bv8, o1: bv8, o2: bv8, o3: bv8, word: bv32)
    requires word == (((o0 as bv32) ^ ((o1 as bv32) << 8)) ^ (((o2 as bv32) << 8) << 8)) ^ ((((o3 as bv32) << 8) << 8) << 8)
    ensures Octet0(word) == o0 && Octet1(word) == o1 && Octet2(word) == o2 && Octet3(word) == o3
  {
  }

  lemma AddedHoldsOctets(c: bv32, o0: bv8, o1: bv8, o2: bv8, o3: bv8)
    ensures Octet0(Xor(Added(c, o0, o1, o2, o3), c)) == o0
    ensures Octet1(Xor(Added(c, o0, o1, o2, o3), c)) == o1
    ensures Octet2(Xor(Added(c, o0, o1, o2, o3), c)) == o2
    ensures Octet3(Xor(Added(c, o0, o1, o2, o3), c)) == o3
  {
    SumWithoutStart(c, o0 as bv32, Raised(o1 as bv32), Raised(Raised(o2 as bv32)), Raised(Raised(Raised(o3 as bv32))));
    WordHoldsOctets(o0, o1, o2, o3, Xor(Added(c, o0, o1, o2, o3), c));
  }

  /** Four octets leave different registers unless they are the same. */
  lemma FourTurnsAreInjective(c: bv32, a: seq<bv8>, b: seq<bv8>)
    requires |a| == |b| == 4
    requires FourTurns(c, a[0], a[1], a[2], a[3]) == FourTurns(c, b[0], b[1], b[2], b[3])
    ensures a == b
  {
    var x, y := Added(c, a[0], a[1], a[2], a[3]), Added(c, b[0], b[1], b[2], b[3]);
    FourTurnsAddFour(c, a[0], a[1], a[2], a[3]);
    FourTurnsAddFour(c, b[0], b[1], b[2], b[3]);
    FourShift8sAreInjective(x, y);
    AddedHoldsOctets(c, a[0], a[1], a[2], a[3]);
    AddedHoldsOctets(c, b[0], b[1], b[2], b[3]);
  }

  lemma FourShift8sAreInjective(x: bv32, y: bv32)
    requires Shifted8(Shifted8(Shifted8(Shifted8(x)))) == Shifted8(Shifted8(Shifted8(Shifted8(y))))
    ensures x == y
  {
    Shift8IsInjective(Shifted8(Shifted8(Shifted8(x))), Shifted8(Shifted8(Shifted8(y))));
    Shift8IsInjective(Shifted8(Shifted8(x)), Shifted8(Shifted8(y)));
    Shift8IsInjective(Shifted8(x), Shifted8(y));
    Shift8IsInjective(x, y);
  }

  lemma {:induction false} FoldIsInjective<W, B>(step: (W, B) -> W, s: W, t: W, items: seq<B>)
    requires forall x, y, b :: step(x, b) == step(y, b) ==> x == y
    requires Folded(step, s, items) == Folded(step, t, items)
    ensures s == t
  {
    if items != [] {
      var front := items[..|items| - 1];
      assert step(Folded(step, s, front), items[|items| - 1]) == step(Folded(step, t, front), items[|items| - 1]);
      FoldIsInjective(step, s, t, front);
    }
  }

  lemma XorIsInjective(x: bv32, y: bv32, w: bv32)
    requires x ^ w == y ^ w
    ensures x == y
  {
    assert (x ^ w) ^ w == x && (y ^ w) ^ w == y;
  }

  lemma TurnIsInjective(table: bv8 -> bv32, x: bv32, y: bv32, octet: bv8)
    requires HoldsRemainders(table) && TableStep(table, x, octet) == TableStep(table, y, octet)
    ensures x == y
  {
    TableStepShifts(table, x, octet);
    TableStepShifts(table, y, octet);
    SumsAreInjective(x, y, octet as bv32);
  }

  lemma SumsAreInjective(x: bv32, y: bv32, w: bv32)
    requires Shifted8(x ^ w) == Shifted8(y ^ w)
    ensures x == y
  {
    Shift8IsInjective(x ^ w, y ^ w);
    XorIsInjective(x, y, w);
  }

  lemma FourOfFold<W, B>(step: (W, B) -> W, s: W, items: seq<B>)
    requires |items| == 4
    ensures Folded(step, s, items) == step(step(step(step(s, items[0]), items[1]), items[2]), items[3])
  {
    assert items[..3][..2] == items[..2] && items[..2][..1] == items[..1] && items[..1][..0] == [];
    assert Folded(step, s, items[..1]) == step(s, items[0]);
    assert Folded(step, s, items[..2]) == step(Folded(step, s, items[..1]), items[1]);
    assert Folded(step, s, items[..3]) == step(Folded(step, s, items[..2]), items[2]);
  }

  lemma RegisterOfFour(table: bv8 -> bv32, c: bv32, a: seq<bv8>)
    requires HoldsRemainders(table) && |a| == 4
    ensures TableRegister(table, c, a) == FourTurns(c, a[0], a[1], a[2], a[3])
  {
    FourOfFold(Turn(table), c, a);
    TurnShifts(table);
    FourTurnsOf(Turn(table), c, a[0], a[1], a[2], a[3]);
  }

  lemma TurnShifts(table: bv8 -> bv32)
    requires HoldsRemainders(table)
    ensures forall register, octet {:trigger Turn(table)(register, octet)} ::
              Turn(table)(register, octet) == Shifted8(Xor(register, octet as bv32))
  {
    forall register, octet ensures Turn(table)(register, octet) == Shifted8(Xor(register, octet as bv32)) {
      TableStepShifts(table, register, octet);
    }
  }

  lemma FourTurnsOf(turn: (bv32, bv8) -> bv32, c: bv32, o0: bv8, o1: bv8, o2: bv8, o3: bv8)
    requires forall register, octet {:trigger turn(register, octet)} :: turn(register, octet) == Shifted8(Xor(register, octet as bv32))
    ensures turn(turn(turn(turn(c, o0), o1), o2), o3) == FourTurns(c, o0, o1, o2, o3)
  {
  }

  /** A change confined to four consecutive octets changes the register. */
  lemma BurstsChangeTheRegister(table: bv8 -> bv32, start: bv32, prefix: seq<bv8>, a: seq<bv8>, b: seq<bv8>, suffix: seq<bv8>)
    requires HoldsRemainders(table) && |a| == |b| == 4
    requires TableRegister(table, start, prefix + a + suffix) == TableRegister(table, start, prefix + b + suffix)
    ensures a == b
  {
    var turn := Turn(table);
    var c := TableRegister(table, start, prefix);
    FoldAppends(turn, start, prefix + a, suffix);
    FoldAppends(turn, start, prefix + b, suffix);
    FoldAppends(turn, start, prefix, a);
    FoldAppends(turn, start, prefix, b);
    forall x, y, octet | turn(x, octet) == turn(y, octet) ensures x == y {
      TurnIsInjective(table, x, y, octet);
    }
    FoldIsInjective(turn, TableRegister(table, c, a), TableRegister(table, c, b), suffix);
    RegisterOfFour(table, c, a);
    RegisterOfFour(table, c, b);
    FourTurnsAreInjective(c, a, b);
  }

  // ---------------------------------------------------------------------
  // The checksum of a packet

  const CRC_START: bv32 := 0xFFFF_FFFF
  const CRC_LENGTH := 4

  function Swapped(crc: bv32): bv32 {
    ((crc & 0xFF00_0000) >> 24) | ((crc & 0x00FF_0000) >> 8) | ((crc & 0x0000_FF00) << 8) | ((crc & 0x0000_00FF) << 24)
  }

  function Finished(register: bv32): bv32 {
    Swapped(!register)
  }

  function Checksum(input: seq<bv8>): bv32 {
    Finished(TableRegister(LookupTable, CRC_START, input))
  }

  /** bzrtp_CRC32. */
  method Crc32(input: seq<bv8>) returns (crc: bv32)
    ensures crc == Checksum(input)
  {
    crc := CRC_START;
    for i := 0 to |input|
      invariant crc == TableRegister(LookupTable, CRC_START, input[..i])
    {
      assert input[..i + 1][..i] == input[..i];
      crc := TableStep(LookupTable, crc, input[i]);
    }
    assert input[..|input|] == input;
    crc := Finished(crc);
  }

  /** The checksum is that of the bits divided by the polynomial. */
  lemma ChecksumIsBitwise(input: seq<bv8>)
    ensures Checksum(input) == Finished(BitwiseRegister(CRC_START, Bits(input)))
  {
    StoredTableHoldsRemainders();
    TableFormIsBitwiseForm(LookupTable, CRC_START, input);
  }

  lemma StoredTableHoldsRemainders()
    ensures HoldsRemainders(LookupTable)
  {
    forall index ensures LookupTable(index) == Shifted8(index as bv32) {
      TableHoldsRemainders(index);
    }
  }

  /** The checksum as written at the end of a packet. */
  function Field(crc: bv32): (field: seq<bv8>)
    ensures |field| == CRC_LENGTH
  {
    [Octet3(crc), Octet2(crc), Octet1(crc), Octet0(crc)]
  }

  /** The checksum as read there. */
  function Word(field: seq<bv8>): bv32
    requires |field| == CRC_LENGTH
  {
    (((field[0] as bv32) << 24) & 0xFF00_0000) | (((field[1] as bv32) << 16) & 0x00FF_0000)
    | (((field[2] as bv32) << 8) & 0x0000_FF00) | ((field[3] as bv32) & 0x0000_00FF)
  }

  /** The receiver's test, for any way to compute and to read a checksum. */
  predicate Accepts(checksum: seq<bv8> -> bv32, word: seq<bv8> --> bv32, packet: seq<bv8>)
    requires |packet| >= CRC_LENGTH && word.requires(packet[|packet| - CRC_LENGTH..])
  {
    checksum(packet[..|packet| - CRC_LENGTH]) == word(packet[|packet| - CRC_LENGTH..])
  }

  /** The test of bzrtp_packetCheck. */
  predicate Passes(packet: seq<bv8>)
    requires |packet| >= CRC_LENGTH
  {
    Accepts(Checksum, Word, packet)
  }

  lemma FieldReadsBack(crc: bv32)
    ensures Word(Field(crc)) == crc
  {
  }

  lemma WordReadsBack(field: seq<bv8>)
    requires |field| == CRC_LENGTH
    ensures Field(Word(field)) == field
  {
  }

  /** A packet string with its sequence number set. */
  function Numbered(packet: seq<bv8>, sequenceNumber: bv16): (r: seq<bv8>)
    requires |packet| >= 28
    ensures |r| == |packet|
  {
    packet[..2] + NumberOctets(sequenceNumber) + packet[4..]
  }

  function NumberOctets(sequenceNumber: bv16): (r: seq<bv8>)
    ensures |r| == 2
  {
    [((sequenceNumber >> 8) & 0xFF) as bv8, (sequenceNumber & 0xFF) as bv8]
  }

  /** A packet string with its checksum set. */
  function Sealed(packet: seq<bv8>): (r: seq<bv8>)
    requires |packet| >= 28
    ensures |r| == |packet|
  {
    var body := packet[..|packet| - CRC_LENGTH];
    body + Field(Checksum(body))
  }

  /** What the sender seals passes the receiver's test. */
  lemma SealedPasses(packet: seq<bv8>)
    requires |packet| >= 28
    ensures Passes(Sealed(packet))
  {
    var body := packet[..|packet| - CRC_LENGTH];
    FieldReadsBack(Checksum(body));
    assert Sealed(packet)[..|packet| - CRC_LENGTH] == body;
    assert Sealed(packet)[|packet| - CRC_LENGTH..] == Field(Checksum(body));
  }

  /** bzrtp_packetSetSequenceNumber. */
  method SetSequenceNumber(packet: array<bv8>, sequenceNumber: bv16)
    requires packet.Length >= 28
    modifies packet
    ensures packet[..] == Sealed(Numbered(old(packet[..]), sequenceNumber))
  {
    WriteAt(packet, 2, NumberOctets(sequenceNumber));
    var n := packet.Length - CRC_LENGTH;
    var crc := Crc32(packet[..n]);
    assert packet[..] == Numbered(old(packet[..]), sequenceNumber);
    WriteAt(packet, n, Field(crc));
  }

  /** Octets written one after the other through an advancing pointer. */
  method WriteAt(packet: array<bv8>, at: nat, octets: seq<bv8>)
    requires at + |octets| <= packet.Length
    modifies packet
    ensures packet[..] == old(packet[..at]) + octets + old(packet[at + |octets|..])
  {
    for k := 0 to |octets|
      invariant packet[..] == old(packet[..at]) + octets[..k] + old(packet[at + k..])
    {
      packet[at + k] := octets[k];
    }
  }

  lemma ChecksumsDiffer(x: bv32, y: bv32)
    requires Finished(x) == Finished(y)
    ensures x == y
  {
    SwapIsUndone(!x);
    SwapIsUndone(!y);
    assert !!x == x && !!y == y;
  }

  lemma SwapIsUndone(x: bv32)
    ensures Swapped(Swapped(x)) == x
  {
  }

  lemma BodyBurstsChange(table: bv8 -> bv32, prefix: seq<bv8>, a: seq<bv8>, b: seq<bv8>, suffix: seq<bv8>, x: bv32, y: bv32)
    requires HoldsRemainders(table) && |a| == |b| == 4
    requires x == TableRegister(table, CRC_START, prefix + a + suffix) && y == TableRegister(table, CRC_START, prefix + b + suffix)
    requires Finished(x) == Finished(y)
    ensures a == b
  {
    ChecksumsDiffer(x, y);
    BurstsChangeTheRegister(table, CRC_START, prefix, a, b, suffix);
  }

  lemma BodyBurstsChangeTheChecksum(prefix: seq<bv8>, a: seq<bv8>, b: seq<bv8>, suffix: seq<bv8>)
    requires |a| == |b| == 4 && Checksum(prefix + a + suffix) == Checksum(prefix + b + suffix)
    ensures a == b
  {
    StoredTableHoldsRemainders();
    BodyBurstsChange(LookupTable, prefix, a, b, suffix, TableRegister(LookupTable, CRC_START, prefix + a + suffix),
                     TableRegister(LookupTable, CRC_START, prefix + b + suffix));
  }

  lemma WordsDiffer(a: seq<bv8>, b: seq<bv8>)
    requires |a| == |b| == CRC_LENGTH && Word(a) == Word(b)
    ensures a == b
  {
    WordReadsBack(a);
    WordReadsBack(b);
  }

  ghost predicate Within(p: seq<bv8>, q: seq<bv8>, k: nat) {
    |p| == |q| && k + 4 <= |p| && p[..k] == q[..k] && p[k + 4..] == q[k + 4..]
  }

  lemma SplitWithin(p: seq<bv8>, q: seq<bv8>, k: nat, n: nat)
    requires Within(p, q, k) && k + 4 <= n <= |p|
    ensures p[..n] == p[..k] + p[k..k + 4] + p[k + 4..n] && q[..n] == p[..k] + q[k..k + 4] + p[k + 4..n]
    ensures p[n..] == q[n..]
    ensures p[k..k + 4] == q[k..k + 4] ==> p == q
  {
    assert p[n..] == p[k + 4..][n - k - 4..] && q[n..] == q[k + 4..][n - k - 4..];
    assert p[k + 4..n] == p[k + 4..][..n - k - 4] && q[k + 4..n] == q[k + 4..][..n - k - 4];
    assert p == p[..k] + p[k..k + 4] + p[k + 4..] && q == q[..k] + q[k..k + 4] + q[k + 4..];
  }

  ghost predicate DetectsBursts(checksum: seq<bv8> -> bv32) {
    forall prefix, a, b, suffix :: |a| == |b| == 4 && checksum(prefix + a + suffix) == checksum(prefix + b + suffix) ==> a == b
  }

  lemma ChecksumDetectsBursts()
    ensures DetectsBursts(Checksum)
  {
    forall prefix, a, b, suffix | |a| == |b| == 4 && Checksum(prefix + a + suffix) == Checksum(prefix + b + suffix) ensures a == b {
      BodyBurstsChangeTheChecksum(prefix, a, b, suffix);
    }
  }

  lemma ChangeIsCaught(checksum: seq<bv8> -> bv32, word: seq<bv8> --> bv32, p: seq<bv8>, q: seq<bv8>, k: nat)
    requires DetectsBursts(checksum) && Within(p, q, k) && |p| >= 8 && p != q
    requires k + 4 <= |p| - CRC_LENGTH || k == |p| - CRC_LENGTH
    requires forall field :: |field| == CRC_LENGTH ==> word.requires(field)
    requires forall a, b :: |a| == |b| == CRC_LENGTH && word(a) == word(b) ==> a == b
    requires Accepts(checksum, word, p)
    ensures !Accepts(checksum, word, q)
  {
    var n := |p| - CRC_LENGTH;
    if k == n {
      assert p == p[..n] + p[n..] && q == q[..n] + q[n..];
    } else {
      SplitWithin(p, q, k, n);
    }
  }

  /** No change that stays within four consecutive octets, all before the checksum
      or those of the checksum, gets past the receiver. */
  lemma BurstsAreCaught(p: seq<bv8>, q: seq<bv8>, k: nat)
    requires Within(p, q, k) && |p| >= 8 && (k + 4 <= |p| - CRC_LENGTH || k == |p| - CRC_LENGTH)
    requires p != q && Passes(p)
    ensures !Passes(q)
  {
    ChecksumDetectsBursts();
    forall a: seq<bv8>, b: seq<bv8> | |a| == |b| == CRC_LENGTH && Word(a) == Word(b) ensures a == b {
      WordsDiffer(a, b);
    }
    ChangeIsCaught(Checksum, Word, p, q, k);
  }

  /** Changing any one octet of a packet makes the receiver drop it. */
  lemma ChangedOctetIsCaught(p: seq<bv8>, i: nat, octet: bv8)
    requires |p| >= 28 && i < |p| && octet != p[i] && Passes(p)
    ensures !Passes(p[i := octet])
  {
    var k := if i >= |p| - CRC_LENGTH then |p| - CRC_LENGTH else if i >= |p| - 8 then |p| - 8 else i;
    assert p[i := octet][i] != p[i];
    assert Within(p, p[i := octet], k);
    BurstsAreCaught(p, p[i := octet], k);
  }

  // ---------------------------------------------------------------------
  // On the octets of the other modules

  function AsBits(s: Bytes): (r: seq<bv8>)
    ensures |r| == |s|
  {
    seq(|s|, k requires 0 <= k < |s| => s[k] as bv8)
  }

  function AsOctets(s: seq<bv8>): (r: Bytes)
    ensures |r| == |s|
  {
    seq(|s|, k requires 0 <= k < |s| => s[k] as byte)
  }

  /** The checksum field of a packet whose other octets are body. */
  function FieldOf(body: Bytes): (field: Bytes)
    ensures |field| == CRC_LENGTH
  {
    AsOctets(Field(Checksum(AsBits(body))))
  }

  lemma BitsConvert(v: bv8)
    ensures (v as byte) as bv8 == v
  {
  }

  lemma NextBits(v: bv8)
    requires v as int < 255
    ensures (v + 1) as int == v as int + 1
  {
  }

  /** Every octet is the value of eight bits. */
  lemma {:induction false} OctetHasBits(b: byte) returns (v: bv8)
    ensures v as byte == b
    decreases b as int
  {
    if b == 0 {
      v := 0;
    } else {
      var w := OctetHasBits(b - 1);
      NextBits(w);
      v := w + 1;
    }
  }

  lemma OctetConverts(b: byte)
    ensures (b as bv8) as byte == b
  {
    var v := OctetHasBits(b);
    BitsConvert(v);
  }

  lemma BitsOfOctets(s: seq<bv8>)
    ensures AsBits(AsOctets(s)) == s
  {
    forall k | 0 <= k < |s| ensures AsBits(AsOctets(s))[k] == s[k] {
      BitsConvert(s[k]);
    }
  }

  lemma OctetsOfBits(s: Bytes)
    ensures AsOctets(AsBits(s)) == s
  {
    forall k | 0 <= k < |s| ensures AsOctets(AsBits(s))[k] == s[k] {
      OctetConverts(s[k]);
    }
  }

  lemma FieldIsWord(crc: bv32, field: seq<bv8>)
    requires |field| == CRC_LENGTH
    ensures Field(crc) == field <==> crc == Word(field)
  {
    FieldReadsBack(crc);
    WordReadsBack(field);
  }

  lemma OctetsAreBits(bits: seq<bv8>, octets: Bytes)
    ensures AsOctets(bits) == octets <==> bits == AsBits(octets)
  {
    BitsOfOctets(bits);
    OctetsOfBits(octets);
  }

  lemma BitsSplit(packet: Bytes, n: nat)
    requires n <= |packet|
    ensures AsBits(packet)[..n] == AsBits(packet[..n]) && AsBits(packet)[n..] == AsBits(packet[n..])
  {
  }

  predicate FieldHolds(packet: Bytes)
    requires |packet| >= CRC_LENGTH
  {
    FieldOf(packet[..|packet| - CRC_LENGTH]) == packet[|packet| - CRC_LENGTH..]
  }

  /** The receiver's test is that the last octets are the field of the others. */
  lemma TestIsOnTheField(packet: Bytes, passes: bool, crc: bv32, holds: bool)
    requires |packet| >= CRC_LENGTH && crc == Checksum(AsBits(packet[..|packet| - CRC_LENGTH]))
    requires passes == Passes(AsBits(packet)) && holds == FieldHolds(packet)
    ensures passes == holds
  {
    PassesMeans(packet, passes, crc);
    HoldsMeans(packet, holds, crc);
    TestOfParts(crc, packet[|packet| - CRC_LENGTH..], passes, holds);
  }

  lemma PassesMeans(packet: Bytes, passes: bool, crc: bv32)
    requires |packet| >= CRC_LENGTH && crc == Checksum(AsBits(packet[..|packet| - CRC_LENGTH]))
    requires passes == Passes(AsBits(packet))
    ensures passes == (crc == Word(AsBits(packet[|packet| - CRC_LENGTH..])))
  {
    TestOfPacket(Checksum, Word, packet, passes);
  }

  lemma HoldsMeans(packet: Bytes, holds: bool, crc: bv32)
    requires |packet| >= CRC_LENGTH && crc == Checksum(AsBits(packet[..|packet| - CRC_LENGTH]))
    requires holds == FieldHolds(packet)
    ensures holds == (AsOctets(Field(crc)) == packet[|packet| - CRC_LENGTH..])
  {
  }

  lemma TestOfParts(crc: bv32, octets: Bytes, passes: bool, holds: bool)
    requires |octets| == CRC_LENGTH
    requires passes == (crc == Word(AsBits(octets))) && holds == (AsOctets(Field(crc)) == octets)
    ensures passes == holds
  {
    FieldIsWord(crc, AsBits(octets));
    OctetsAreBits(Field(crc), octets);
  }

  lemma TestOfPacket(checksum: seq<bv8> -> bv32, word: seq<bv8> --> bv32, packet: Bytes, passes: bool)
    requires |packet| >= CRC_LENGTH && forall field :: |field| == CRC_LENGTH ==> word.requires(field)
    requires passes == Accepts(checksum, word, AsBits(packet))
    ensures var n := |packet| - CRC_LENGTH;
            passes == (checksum(AsBits(packet[..n])) == word(AsBits(packet[n..])))
  {
    BitsSplit(packet, |packet| - CRC_LENGTH);
  }

  lemma BitsUpdate(packet: Bytes, i: nat, octet: byte)
    requires i < |packet| && octet != packet[i]
    ensures AsBits(packet[i := octet]) == AsBits(packet)[i := octet as bv8] && octet as bv8 != AsBits(packet)[i]
  {
    OctetConverts(octet);
    OctetConverts(packet[i]);
  }

  lemma ChangedOctetFailsTheTest(packet: Bytes, i: nat, octet: byte)
    requires |packet| >= 28 && i < |packet| && octet != packet[i] && Passes(AsBits(packet))
    ensures !Passes(AsBits(packet[i := octet]))
  {
    BitsUpdate(packet, i, octet);
    ChangedOctetIsCaught(AsBits(packet), i, octet as bv8);
  }

  lemma ChangedOctetBreaksTheField(packet: Bytes, i: nat, octet: byte, before: bool, after: bool)
    requires |packet| >= 28 && i < |packet| && octet != packet[i]
    requires before == Passes(AsBits(packet)) && after == Passes(AsBits(packet[i := octet]))
    ensures before ==> !after
  {
    if before {
      ChangedOctetFailsTheTest(packet, i, octet);
    }
  }

  /** Changing any one octet breaks the checksum field. */
  lemma ChangedFieldIsCaught(packet: Bytes, i: nat, octet: byte)
    requires |packet| >= 28 && i < |packet| && octet != packet[i] && FieldHolds(packet)
    ensures !FieldHolds(packet[i := octet])
  {
    var before := TestOf(packet);
    var after := TestOf(packet[i := octet]);
    ChangedOctetBreaksTheField(packet, i, octet, before, after);
  }

  lemma TestOf(packet: Bytes) returns (passes: bool)
    requires |packet| >= CRC_LENGTH
    ensures passes == Passes(AsBits(packet)) && passes == FieldHolds(packet)
  {
    passes := Passes(AsBits(packet));
    TestIsOnTheField(packet, passes, Checksum(AsBits(packet[..|packet| - CRC_LENGTH])), FieldHolds(packet));
  }
}
