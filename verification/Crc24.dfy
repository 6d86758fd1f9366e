/** The shift register behind the frame check sequence of section 5.5 of 3GPP TS 04.64: one bit
    at a time, least significant bit first. All that is needed of it follows from its being linear. */
module CrcRegister {

  /** Bitwise exclusive or, the addition of registers. */
  function Xor(a: bv32, b: bv32): bv32 { a ^ b }

  function Half(r: bv32): bv32 { r >> 1 }

  predicate Odd(r: bv32) { r & 1 == 1 }

  function BitStep(r: bv32): bv32 {
    if Odd(r) then Xor(Half(r), 0xad85dd) else Half(r)
  }

  function PairSteps(r: bv32): bv32 { BitStep(BitStep(r)) }

  function QuadSteps(r: bv32): bv32 { PairSteps(PairSteps(r)) }

  function OctetSteps(r: bv32): bv32 { QuadSteps(QuadSteps(r)) }

  // ---- Exclusive or ----

  lemma XorCongruence(a: bv32, b: bv32, c: bv32, d: bv32)
    requires a == c && b == d
    ensures a ^ b == c ^ d
  {
  }

  lemma XorCancel(a: bv32, b: bv32, p: bv32)
    ensures Xor(Xor(a, p), Xor(b, p)) == Xor(a, b)
  {
    assert (a ^ p) ^ (b ^ p) == a ^ b;
    XorCongruence(Xor(a, p), Xor(b, p), a ^ p, b ^ p);
  }

  lemma XorSwap(a: bv32, b: bv32, p: bv32)
    ensures Xor(Xor(a, p), b) == Xor(Xor(a, b), p)
  {
    assert (a ^ p) ^ b == (a ^ b) ^ p;
    XorCongruence(Xor(a, p), b, a ^ p, b);
    XorCongruence(Xor(a, b), p, a ^ b, p);
  }

  lemma XorAssociates(a: bv32, b: bv32, p: bv32)
    ensures Xor(a, Xor(b, p)) == Xor(Xor(a, b), p)
  {
    assert a ^ (b ^ p) == (a ^ b) ^ p;
    XorCongruence(a, Xor(b, p), a, b ^ p);
    XorCongruence(Xor(a, b), p, a ^ b, p);
  }

  lemma XorCommutes(a: bv32, b: bv32)
    ensures Xor(a, b) == Xor(b, a)
  {
  }

  lemma XorZero(x: bv32, y: bv32)
    ensures Xor(x, y) == 0 <==> x == y
  {
  }

  lemma XorIn24(x: bv32, y: bv32)
    requires x < 0x1000000 && y < 0x1000000
    ensures Xor(x, y) < 0x1000000
  {
  }

  lemma XorParts(x: bv32, y: bv32)
    ensures Half(Xor(x, y)) == Xor(Half(x), Half(y))
    ensures Odd(Xor(x, y)) <==> Odd(x) != Odd(y)
  {
  }

  // ---- Linearity ----

  lemma BitStepLinear(x: bv32, y: bv32)
    ensures BitStep(Xor(x, y)) == Xor(BitStep(x), BitStep(y))
  {
    hide Xor, Half, Odd;
    XorParts(x, y);
    XorCancel(Half(x), Half(y), 0xad85dd);
    XorSwap(Half(x), Half(y), 0xad85dd);
    XorSwap(Half(y), Half(x), 0xad85dd);
    XorCommutes(Half(x), Half(y));
    XorCommutes(Half(x), Xor(Half(y), 0xad85dd));
  }

  lemma PairStepsLinear(x: bv32, y: bv32)
    ensures PairSteps(Xor(x, y)) == Xor(PairSteps(x), PairSteps(y))
  {
    hide Xor, BitStep;
    BitStepLinear(x, y);
    BitStepLinear(BitStep(x), BitStep(y));
  }

  lemma QuadStepsLinear(x: bv32, y: bv32)
    ensures QuadSteps(Xor(x, y)) == Xor(QuadSteps(x), QuadSteps(y))
  {
    hide Xor, PairSteps;
    PairStepsLinear(x, y);
    PairStepsLinear(PairSteps(x), PairSteps(y));
  }

  lemma OctetStepsLinear(x: bv32, y: bv32)
    ensures OctetSteps(Xor(x, y)) == Xor(OctetSteps(x), OctetSteps(y))
  {
    hide Xor, QuadSteps;
    QuadStepsLinear(x, y);
    QuadStepsLinear(QuadSteps(x), QuadSteps(y));
  }

  // ---- A register whose low octet is clear is only shifted ----

  lemma EvenStep(x: bv32)
    requires x & 1 == 0
    ensures BitStep(x) == x >> 1
  {
  }

  lemma PairStepsShift(x: bv32)
    requires x & 0x3 == 0
    ensures PairSteps(x) == x >> 2
  {
    hide BitStep;
    EvenStep(x);
    EvenStep(x >> 1);
  }

  lemma QuadStepsShift(x: bv32)
    requires x & 0xf == 0
    ensures QuadSteps(x) == x >> 4
  {
    hide PairSteps;
    PairStepsShift(x);
    PairStepsShift(x >> 2);
  }

  predicate LowClear(r: bv32) { r & 0xff == 0 }

  function Shift8(r: bv32): bv32 { r >> 8 }

  lemma OctetStepsShift(x: bv32)
    requires LowClear(x)
    ensures OctetSteps(x) == Shift8(x)
  {
    hide QuadSteps;
    QuadStepsShift(x);
    QuadStepsShift(x >> 4);
  }

  /** Octets waiting above the low one are only shifted by the steps that consume the low one. */
  lemma OctetStepsCarry(x: bv32, y: bv32)
    requires LowClear(y)
    ensures OctetSteps(Xor(x, y)) == Xor(OctetSteps(x), Shift8(y))
  {
    hide OctetSteps, Xor, Shift8;
    OctetStepsLinear(x, y);
    OctetStepsShift(y);
  }

  // ---- On 24 bits no information is lost: the polynomial's top coefficient is set ----

  lemma BitStepKeeps(z: bv32)
    requires z < 0x1000000
    ensures BitStep(z) < 0x1000000
    ensures BitStep(z) == 0 ==> z == 0
  {
    if z & 1 == 1 { assert ((z >> 1) ^ 0xad85dd) & 0x800000 != 0; }
  }

  lemma PairStepsKeeps(z: bv32)
    requires z < 0x1000000
    ensures PairSteps(z) < 0x1000000
    ensures PairSteps(z) == 0 ==> z == 0
  {
    hide BitStep;
    BitStepKeeps(z);
    BitStepKeeps(BitStep(z));
  }

  lemma OctetStepsKeeps(z: bv32)
    requires z < 0x1000000
    ensures OctetSteps(z) < 0x1000000
    ensures OctetSteps(z) == 0 ==> z == 0
  {
    hide PairSteps;
    PairStepsKeeps(z);
    PairStepsKeeps(PairSteps(z));
    PairStepsKeeps(QuadSteps(z));
    PairStepsKeeps(PairSteps(QuadSteps(z)));
  }

  lemma OctetStepsInjective(x: bv32, y: bv32)
    requires x < 0x1000000 && y < 0x1000000
    ensures OctetSteps(x) == OctetSteps(y) ==> x == y
  {
    hide OctetSteps, Xor;
    OctetStepsLinear(x, y);
    XorZero(x, y);
    XorIn24(x, y);
    XorZero(OctetSteps(x), OctetSteps(y));
    OctetStepsKeeps(Xor(x, y));
  }
}

/** The CRC-24 of GPRS LLC frames: the table-driven loop of src/gprs/crc24.c against the
    bit-at-a-time register, and the errors the frame check sequence cannot miss. */
module Crc24 {
  import opened CrcRegister

  type Octets = seq<bv8>

  const INIT_CRC24: bv32 := 0xffffff

  /** The reference: the register after every bit of s was shifted in. */
  function BitwiseCrc(r: bv32, s: Octets): bv32
    decreases |s|
  {
    if s == [] then r else BitwiseCrc(OctetSteps(Xor(r, s[0] as bv32)), s[1..])
  }

  // ---- The constant table of crc24.c, sixteen entries a row ----

  /** What the four low, and the four high, bits of a table index feed back. */
  function LowFeedback(lo: bv4): bv32 {
    (if lo & 1 != 0 then 0xd6a776 else 0)
    ^ (if lo & 2 != 0 then 0xf64557 else 0)
    ^ (if lo & 4 != 0 then 0xb78115 else 0)
    ^ (if lo & 8 != 0 then 0x340991 else 0)
  }

  function HighFeedback(hi: bv4): bv32 {
    (if hi & 1 != 0 then 0x681322 else 0)
    ^ (if hi & 2 != 0 then 0xd02644 else 0)
    ^ (if hi & 4 != 0 then 0xfb4733 else 0)
    ^ (if hi & 8 != 0 then 0xad85dd else 0)
  }

  function TblRow0(lo: bv4): (e: bv32)
    ensures e == Xor(HighFeedback(0), LowFeedback(lo))
  {
    match lo
    case 0 => 0x000000 case 1 => 0xd6a776 case 2 => 0xf64557 case 3 => 0x20e221
    case 4 => 0xb78115 case 5 => 0x612663 case 6 => 0x41c442 case 7 => 0x976334
    case 8 => 0x340991 case 9 => 0xe2aee7 case 10 => 0xc24cc6 case 11 => 0x14ebb0
    case 12 => 0x838884 case 13 => 0x552ff2 case 14 => 0x75cdd3 case 15 => 0xa36aa5
    case _ => 0
  }

  function TblRow1(lo: bv4): (e: bv32)
    ensures e == Xor(HighFeedback(1), LowFeedback(lo))
  {
    match lo
    case 0 => 0x681322 case 1 => 0xbeb454 case 2 => 0x9e5675 case 3 => 0x48f103
    case 4 => 0xdf9237 case 5 => 0x093541 case 6 => 0x29d760 case 7 => 0xff7016
    case 8 => 0x5c1ab3 case 9 => 0x8abdc5 case 10 => 0xaa5fe4 case 11 => 0x7cf892
    case 12 => 0xeb9ba6 case 13 => 0x3d3cd0 case 14 => 0x1ddef1 case 15 => 0xcb7987
    case _ => 0
  }

  function TblRow2(lo: bv4): (e: bv32)
    ensures e == Xor(HighFeedback(2), LowFeedback(lo))
  {
    match lo
    case 0 => 0xd02644 case 1 => 0x068132 case 2 => 0x266313 case 3 => 0xf0c465
    case 4 => 0x67a751 case 5 => 0xb10027 case 6 => 0x91e206 case 7 => 0x474570
    case 8 => 0xe42fd5 case 9 => 0x3288a3 case 10 => 0x126a82 case 11 => 0xc4cdf4
    case 12 => 0x53aec0 case 13 => 0x8509b6 case 14 => 0xa5eb97 case 15 => 0x734ce1
    case _ => 0
  }

  function TblRow3(lo: bv4): (e: bv32)
    ensures e == Xor(HighFeedback(3), LowFeedback(lo))
  {
    match lo
    case 0 => 0xb83566 case 1 => 0x6e9210 case 2 => 0x4e7031 case 3 => 0x98d747
    case 4 => 0x0fb473 case 5 => 0xd91305 case 6 => 0xf9f124 case 7 => 0x2f5652
    case 8 => 0x8c3cf7 case 9 => 0x5a9b81 case 10 => 0x7a79a0 case 11 => 0xacded6
    case 12 => 0x3bbde2 case 13 => 0xed1a94 case 14 => 0xcdf8b5 case 15 => 0x1b5fc3
    case _ => 0
  }

  function TblRow4(lo: bv4): (e: bv32)
    ensures e == Xor(HighFeedback(4), LowFeedback(lo))
  {
    match lo
    case 0 => 0xfb4733 case 1 => 0x2de045 case 2 => 0x0d0264 case 3 => 0xdba512
    case 4 => 0x4cc626 case 5 => 0x9a6150 case 6 => 0xba8371 case 7 => 0x6c2407
    case 8 => 0xcf4ea2 case 9 => 0x19e9d4 case 10 => 0x390bf5 case 11 => 0xefac83
    case 12 => 0x78cfb7 case 13 => 0xae68c1 case 14 => 0x8e8ae0 case 15 => 0x582d96
    case _ => 0
  }

  function TblRow5(lo: bv4): (e: bv32)
    ensures e == Xor(HighFeedback(5), LowFeedback(lo))
  {
    match lo
    case 0 => 0x935411 case 1 => 0x45f367 case 2 => 0x651146 case 3 => 0xb3b630
    case 4 => 0x24d504 case 5 => 0xf27272 case 6 => 0xd29053 case 7 => 0x043725
    case 8 => 0xa75d80 case 9 => 0x71faf6 case 10 => 0x5118d7 case 11 => 0x87bfa1
    case 12 => 0x10dc95 case 13 => 0xc67be3 case 14 => 0xe699c2 case 15 => 0x303eb4
    case _ => 0
  }

  function TblRow6(lo: bv4): (e: bv32)
    ensures e == Xor(HighFeedback(6), LowFeedback(lo))
  {
    match lo
    case 0 => 0x2b6177 case 1 => 0xfdc601 case 2 => 0xdd2420 case 3 => 0x0b8356
    case 4 => 0x9ce062 case 5 => 0x4a4714 case 6 => 0x6aa535 case 7 => 0xbc0243
    case 8 => 0x1f68e6 case 9 => 0xc9cf90 case 10 => 0xe92db1 case 11 => 0x3f8ac7
    case 12 => 0xa8e9f3 case 13 => 0x7e4e85 case 14 => 0x5eaca4 case 15 => 0x880bd2
    case _ => 0
  }

  function TblRow7(lo: bv4): (e: bv32)
    ensures e == Xor(HighFeedback(7), LowFeedback(lo))
  {
    match lo
    case 0 => 0x437255 case 1 => 0x95d523 case 2 => 0xb53702 case 3 => 0x639074
    case 4 => 0xf4f340 case 5 => 0x225436 case 6 => 0x02b617 case 7 => 0xd41161
    case 8 => 0x777bc4 case 9 => 0xa1dcb2 case 10 => 0x813e93 case 11 => 0x5799e5
    case 12 => 0xc0fad1 case 13 => 0x165da7 case 14 => 0x36bf86 case 15 => 0xe018f0
    case _ => 0
  }

  function TblRow8(lo: bv4): (e: bv32)
    ensures e == Xor(HighFeedback(8), LowFeedback(lo))
  {
    match lo
    case 0 => 0xad85dd case 1 => 0x7b22ab case 2 => 0x5bc08a case 3 => 0x8d67fc
    case 4 => 0x1a04c8 case 5 => 0xcca3be case 6 => 0xec419f case 7 => 0x3ae6e9
    case 8 => 0x998c4c case 9 => 0x4f2b3a case 10 => 0x6fc91b case 11 => 0xb96e6d
    case 12 => 0x2e0d59 case 13 => 0xf8aa2f case 14 => 0xd8480e case 15 => 0x0eef78
    case _ => 0
  }

  function TblRow9(lo: bv4): (e: bv32)
    ensures e == Xor(HighFeedback(9), LowFeedback(lo))
  {
    match lo
    case 0 => 0xc596ff case 1 => 0x133189 case 2 => 0x33d3a8 case 3 => 0xe574de
    case 4 => 0x7217ea case 5 => 0xa4b09c case 6 => 0x8452bd case 7 => 0x52f5cb
    case 8 => 0xf19f6e case 9 => 0x273818 case 10 => 0x07da39 case 11 => 0xd17d4f
    case 12 => 0x461e7b case 13 => 0x90b90d case 14 => 0xb05b2c case 15 => 0x66fc5a
    case _ => 0
  }

  function TblRowa(lo: bv4): (e: bv32)
    ensures e == Xor(HighFeedback(10), LowFeedback(lo))
  {
    match lo
    case 0 => 0x7da399 case 1 => 0xab04ef case 2 => 0x8be6ce case 3 => 0x5d41b8
    case 4 => 0xca228c case 5 => 0x1c85fa case 6 => 0x3c67db case 7 => 0xeac0ad
    case 8 => 0x49aa08 case 9 => 0x9f0d7e case 10 => 0xbfef5f case 11 => 0x694829
    case 12 => 0xfe2b1d case 13 => 0x288c6b case 14 => 0x086e4a case 15 => 0xdec93c
    case _ => 0
  }

  function TblRowb(lo: bv4): (e: bv32)
    ensures e == Xor(HighFeedback(11), LowFeedback(lo))
  {
    match lo
    case 0 => 0x15b0bb case 1 => 0xc317cd case 2 => 0xe3f5ec case 3 => 0x35529a
    case 4 => 0xa231ae case 5 => 0x7496d8 case 6 => 0x5474f9 case 7 => 0x82d38f
    case 8 => 0x21b92a case 9 => 0xf71e5c case 10 => 0xd7fc7d case 11 => 0x015b0b
    case 12 => 0x96383f case 13 => 0x409f49 case 14 => 0x607d68 case 15 => 0xb6da1e
    case _ => 0
  }

  function TblRowc(lo: bv4): (e: bv32)
    ensures e == Xor(HighFeedback(12), LowFeedback(lo))
  {
    match lo
    case 0 => 0x56c2ee case 1 => 0x806598 case 2 => 0xa087b9 case 3 => 0x7620cf
    case 4 => 0xe143fb case 5 => 0x37e48d case 6 => 0x1706ac case 7 => 0xc1a1da
    case 8 => 0x62cb7f case 9 => 0xb46c09 case 10 => 0x948e28 case 11 => 0x42295e
    case 12 => 0xd54a6a case 13 => 0x03ed1c case 14 => 0x230f3d case 15 => 0xf5a84b
    case _ => 0
  }

  function TblRowd(lo: bv4): (e: bv32)
    ensures e == Xor(HighFeedback(13), LowFeedback(lo))
  {
    match lo
    case 0 => 0x3ed1cc case 1 => 0xe876ba case 2 => 0xc8949b case 3 => 0x1e33ed
    case 4 => 0x8950d9 case 5 => 0x5ff7af case 6 => 0x7f158e case 7 => 0xa9b2f8
    case 8 => 0x0ad85d case 9 => 0xdc7f2b case 10 => 0xfc9d0a case 11 => 0x2a3a7c
    case 12 => 0xbd5948 case 13 => 0x6bfe3e case 14 => 0x4b1c1f case 15 => 0x9dbb69
    case _ => 0
  }

  function TblRowe(lo: bv4): (e: bv32)
    ensures e == Xor(HighFeedback(14), LowFeedback(lo))
  {
    match lo
    case 0 => 0x86e4aa case 1 => 0x5043dc case 2 => 0x70a1fd case 3 => 0xa6068b
    case 4 => 0x3165bf case 5 => 0xe7c2c9 case 6 => 0xc720e8 case 7 => 0x11879e
    case 8 => 0xb2ed3b case 9 => 0x644a4d case 10 => 0x44a86c case 11 => 0x920f1a
    case 12 => 0x056c2e case 13 => 0xd3cb58 case 14 => 0xf32979 case 15 => 0x258e0f
    case _ => 0
  }

  function TblRowf(lo: bv4): (e: bv32)
    ensures e == Xor(HighFeedback(15), LowFeedback(lo))
  {
    match lo
    case 0 => 0xeef788 case 1 => 0x3850fe case 2 => 0x18b2df case 3 => 0xce15a9
    case 4 => 0x59769d case 5 => 0x8fd1eb case 6 => 0xaf33ca case 7 => 0x7994bc
    case 8 => 0xdafe19 case 9 => 0x0c596f case 10 => 0x2cbb4e case 11 => 0xfa1c38
    case 12 => 0x6d7f0c case 13 => 0xbbd87a case 14 => 0x9b3a5b case 15 => 0x4d9d2d
    case _ => 0
  }

  function TblCrc24(i: bv8): bv32 {
    var lo := (i & 0xf) as bv4;
    match (i >> 4) as bv4
    case 0 => TblRow0(lo) case 1 => TblRow1(lo) case 2 => TblRow2(lo) case 3 => TblRow3(lo)
    case 4 => TblRow4(lo) case 5 => TblRow5(lo) case 6 => TblRow6(lo) case 7 => TblRow7(lo)
    case 8 => TblRow8(lo) case 9 => TblRow9(lo) case 10 => TblRowa(lo) case 11 => TblRowb(lo)
    case 12 => TblRowc(lo) case 13 => TblRowd(lo) case 14 => TblRowe(lo) case 15 => TblRowf(lo)
    case _ => 0
  }

  lemma LowFeedbackIsOctetSteps(lo: bv4)
    ensures OctetSteps(lo as bv32) == LowFeedback(lo)
  {
    match lo {
      case 0 => case 1 => case 2 => case 3 => case 4 => case 5 => case 6 => case 7 =>
      case 8 => case 9 => case 10 => case 11 => case 12 => case 13 => case 14 => case 15 =>
      case _ =>
    }
  }

  lemma HighFeedbackIsOctetSteps(hi: bv4)
    ensures OctetSteps((hi as bv32) << 4) == HighFeedback(hi)
  {
    match hi {
      case 0 => case 1 => case 2 => case 3 => case 4 => case 5 => case 6 => case 7 =>
      case 8 => case 9 => case 10 => case 11 => case 12 => case 13 => case 14 => case 15 =>
      case _ =>
    }
  }

  lemma Nibbles(i: bv8, hi: bv4, lo: bv4)
    requires hi == (i >> 4) as bv4 && lo == (i & 0xf) as bv4
    ensures Xor((hi as bv32) << 4, lo as bv32) == i as bv32
  {
  }

  lemma TableSplit(i: bv8)
    ensures TblCrc24(i) == Xor(HighFeedback((i >> 4) as bv4), LowFeedback((i & 0xf) as bv4))
  {
    hide LowFeedback, HighFeedback, Xor;
    match (i >> 4) as bv4 {
      case 0 => case 1 => case 2 => case 3 => case 4 => case 5 => case 6 => case 7 =>
      case 8 => case 9 => case 10 => case 11 => case 12 => case 13 => case 14 => case 15 =>
      case _ =>
    }
  }

  /** Every table entry is the register's response to its index. */
  lemma TableEntry(i: bv8)
    ensures TblCrc24(i) == OctetSteps(i as bv32)
  {
    hide OctetSteps, TblCrc24, LowFeedback, HighFeedback, Xor;
    var hi, lo := (i >> 4) as bv4, (i & 0xf) as bv4;
    TableSplit(i);
    LowFeedbackIsOctetSteps(lo);
    HighFeedbackIsOctetSteps(hi);
    OctetStepsLinear((hi as bv32) << 4, lo as bv32);
    Nibbles(i, hi, lo);
  }

  function LowOctet(r: bv32): bv8 { (r & 0xff) as bv8 }

  function HighOctets(r: bv32): bv32 { r & 0xffffff00 }

  lemma SplitLowOctet(x: bv32)
    ensures Xor(LowOctet(x) as bv32, HighOctets(x)) == x
    ensures LowClear(HighOctets(x))
  {
  }

  lemma HighOctetsUnchanged(r: bv32, b: bv8)
    ensures Shift8(HighOctets(Xor(r, b as bv32))) == Shift8(r)
  {
  }

  /** One round of the table loop is eight steps of the register. */
  lemma TableRound(r: bv32, b: bv8)
    ensures Xor(Shift8(r), TblCrc24(LowOctet(Xor(r, b as bv32)))) == OctetSteps(Xor(r, b as bv32))
  {
    hide OctetSteps, TblCrc24, Xor, LowOctet, HighOctets, Shift8;
    var x := Xor(r, b as bv32);
    SplitLowOctet(x);
    HighOctetsUnchanged(r, b);
    TableEntry(LowOctet(x));
    OctetStepsCarry(LowOctet(x) as bv32, HighOctets(x));
    XorCommutes(Shift8(r), TblCrc24(LowOctet(x)));
  }

  /** crc24_calc. */
  method Crc24Calc(fcs0: bv32, cp: Octets) returns (fcs: bv32)
    ensures fcs == BitwiseCrc(fcs0, cp)
  {
    hide TblCrc24, OctetSteps, Xor, LowOctet, Shift8;
    fcs := fcs0;
    var i := 0;
    while i < |cp|
      invariant 0 <= i <= |cp|
      invariant BitwiseCrc(fcs, cp[i..]) == BitwiseCrc(fcs0, cp)
    {
      TableRound(fcs, cp[i]);
      fcs := Xor(Shift8(fcs), TblCrc24(LowOctet(Xor(fcs, cp[i] as bv32))));
      i := i + 1;
    }
  }

  // ---- Error detection ----

  lemma {:induction false} BitwiseCrcAppend(r: bv32, s: Octets, t: Octets)
    ensures BitwiseCrc(r, s + t) == BitwiseCrc(BitwiseCrc(r, s), t)
    decreases |s|
  {
    hide OctetSteps, Xor;
    if s == [] {
      assert s + t == t;
    } else {
      assert (s + t)[1..] == s[1..] + t;
      BitwiseCrcAppend(OctetSteps(Xor(r, s[0] as bv32)), s[1..], t);
    }
  }

  lemma OctetIn24(b: bv8)
    ensures b as bv32 < 0x1000000
  {
  }

  lemma {:induction false} BitwiseCrcIn24(r: bv32, s: Octets)
    requires r < 0x1000000
    ensures BitwiseCrc(r, s) < 0x1000000
    decreases |s|
  {
    hide OctetSteps, Xor;
    if s != [] {
      OctetIn24(s[0]);
      XorIn24(r, s[0] as bv32);
      OctetStepsKeeps(Xor(r, s[0] as bv32));
      BitwiseCrcIn24(OctetSteps(Xor(r, s[0] as bv32)), s[1..]);
    }
  }

  /** Registers that differ stay different over any common octets. */
  lemma {:induction false} BitwiseCrcInjective(r: bv32, q: bv32, s: Octets)
    requires r < 0x1000000 && q < 0x1000000
    requires BitwiseCrc(r, s) == BitwiseCrc(q, s)
    ensures r == q
    decreases |s|
  {
    hide OctetSteps, Xor;
    if s != [] {
      var b := s[0] as bv32;
      OctetIn24(s[0]);
      XorIn24(r, b);
      XorIn24(q, b);
      XorZero(r, q);
      OctetStepsKeeps(Xor(r, b));
      OctetStepsKeeps(Xor(q, b));
      BitwiseCrcInjective(OctetSteps(Xor(r, b)), OctetSteps(Xor(q, b)), s[1..]);
      OctetStepsInjective(Xor(r, b), Xor(q, b));
      XorCancel(r, q, b);
      XorZero(Xor(r, b), Xor(q, b));
    }
  }

  /** A register with an octet below u. */
  function Lift(a: bv8, u: bv32): bv32 { Xor(a as bv32, u << 8) }

  lemma LiftParts(u: bv32)
    requires u < 0x1000000
    ensures LowClear(u << 8) && Shift8(u << 8) == u
  {
  }

  lemma LiftBound(a: bv8, u: bv32)
    ensures u < 0x100 ==> Lift(a, u) < 0x10000
    ensures u < 0x10000 ==> Lift(a, u) < 0x1000000
  {
  }

  lemma LiftInjective(a: bv8, u: bv32, x: bv8, v: bv32)
    requires u < 0x1000000 && v < 0x1000000 && Lift(a, u) == Lift(x, v)
    ensures a == x && u == v
  {
  }

  /** Feeding an octet leaves what waits above it. */
  lemma FeedLifted(r: bv32, a: bv8, u: bv32)
    requires u < 0x1000000
    ensures OctetSteps(Xor(r, Lift(a, u))) == Xor(OctetSteps(Xor(r, a as bv32)), u)
  {
    hide OctetSteps, Xor, LowClear, Shift8;
    LiftParts(u);
    XorAssociates(r, a as bv32, u << 8);
    OctetStepsCarry(Xor(r, a as bv32), u << 8);
  }

  function Word(a: bv8, b: bv8, c: bv8): bv32 { Lift(a, Lift(b, c as bv32)) }

  lemma ByteBound(c: bv8)
    ensures c as bv32 < 0x100
  {
  }

  lemma WordInjective(r: bv32, a: bv8, b: bv8, c: bv8, x: bv8, y: bv8, z: bv8)
    requires Xor(r, Word(a, b, c)) == Xor(r, Word(x, y, z))
    ensures a == x && b == y && c == z
  {
    hide Xor, Lift;
    XorCancel(Word(a, b, c), Word(x, y, z), r);
    XorCommutes(r, Word(a, b, c));
    XorCommutes(r, Word(x, y, z));
    XorZero(Xor(Word(a, b, c), r), Xor(Word(x, y, z), r));
    XorZero(Word(a, b, c), Word(x, y, z));
    WordBound(a, b, c);
    WordBound(x, y, z);
    LiftInjective(a, Lift(b, c as bv32), x, Lift(y, z as bv32));
    LiftInjective(b, c as bv32, y, z as bv32);
  }

  lemma WordBound(a: bv8, b: bv8, c: bv8)
    ensures (c as bv32) < 0x1000000 && Lift(b, c as bv32) < 0x1000000 && Word(a, b, c) < 0x1000000
  {
    hide Lift;
    ByteBound(c);
    LiftBound(b, c as bv32);
    LiftBound(a, Lift(b, c as bv32));
  }

  /** Feeding three octets one after the other is feeding their word at once. */
  lemma ThreeOctets(r: bv32, a: bv8, b: bv8, c: bv8)
    ensures BitwiseCrc(r, [a, b, c]) == OctetSteps(OctetSteps(OctetSteps(Xor(r, Word(a, b, c)))))
  {
    hide OctetSteps, Xor, Lift;
    WordBound(a, b, c);
    FeedLifted(r, a, Lift(b, c as bv32));
    FeedLifted(OctetSteps(Xor(r, a as bv32)), b, c as bv32);
    var r1 := OctetSteps(Xor(r, a as bv32));
    var r2 := OctetSteps(Xor(r1, b as bv32));
    assert [a, b, c][1..] == [b, c] && [b, c][1..] == [c];
    assert BitwiseCrc(r, [a, b, c]) == BitwiseCrc(r1, [b, c]);
    assert BitwiseCrc(r1, [b, c]) == BitwiseCrc(r2, [c]);
    assert BitwiseCrc(r2, [c]) == BitwiseCrc(OctetSteps(Xor(r2, c as bv32)), [c][1..]);
  }

  lemma ThreeOctetsInjective(r: bv32, m: Octets, n: Octets)
    requires r < 0x1000000 && |m| == |n| == 3
    requires BitwiseCrc(r, m) == BitwiseCrc(r, n)
    ensures m == n
  {
    hide OctetSteps, Xor, Word, BitwiseCrc;
    assert m == [m[0], m[1], m[2]] && n == [n[0], n[1], n[2]];
    ThreeOctets(r, m[0], m[1], m[2]);
    ThreeOctets(r, n[0], n[1], n[2]);
    WordBound(m[0], m[1], m[2]);
    WordBound(n[0], n[1], n[2]);
    var x, y := Xor(r, Word(m[0], m[1], m[2])), Xor(r, Word(n[0], n[1], n[2]));
    XorIn24(r, Word(m[0], m[1], m[2]));
    XorIn24(r, Word(n[0], n[1], n[2]));
    OctetStepsKeeps(x);
    OctetStepsKeeps(y);
    OctetStepsKeeps(OctetSteps(x));
    OctetStepsKeeps(OctetSteps(y));
    OctetStepsInjective(OctetSteps(OctetSteps(x)), OctetSteps(OctetSteps(y)));
    OctetStepsInjective(OctetSteps(x), OctetSteps(y));
    OctetStepsInjective(x, y);
    WordInjective(r, m[0], m[1], m[2], n[0], n[1], n[2]);
  }

  /** Up to three octets: shorter windows are filled up with zero octets. */
  lemma {:induction false} WindowInjective(r: bv32, m: Octets, n: Octets)
    requires r < 0x1000000 && |m| == |n| <= 3
    requires BitwiseCrc(r, m) == BitwiseCrc(r, n)
    ensures m == n
    decreases 3 - |m|
  {
    hide BitwiseCrc;
    if |m| == 3 {
      ThreeOctetsInjective(r, m, n);
    } else {
      BitwiseCrcAppend(r, m, [0]);
      BitwiseCrcAppend(r, n, [0]);
      WindowInjective(r, m + [0], n + [0]);
      assert m == (m + [0])[..|m|] && n == (n + [0])[..|n|];
    }
  }

  // ---- gprs_llc_fcs ----

  function Complement24(r: bv32): bv32 { !r & 0xffffff }

  function Fcs(data: Octets): bv32 { Complement24(BitwiseCrc(INIT_CRC24, data)) }

  method LlcFcs(data: Octets) returns (fcs: bv32)
    ensures fcs == Fcs(data)
  {
    hide BitwiseCrc, Complement24;
    fcs := Crc24Calc(INIT_CRC24, data);
    fcs := Complement24(fcs);
  }

  lemma ComplementInjective(x: bv32, y: bv32)
    requires x < 0x1000000 && y < 0x1000000 && Complement24(x) == Complement24(y)
    ensures x == y
  {
  }

  /** Two strings of equal length that differ, and differ only within three consecutive octets,
      never have the same frame check sequence. */
  lemma BurstDetected(s: Octets, t: Octets, from: nat, len: nat)
    requires |s| == |t| && len <= 3 && from + len <= |s|
    requires s[..from] == t[..from] && s[from + len..] == t[from + len..]
    requires s != t
    ensures Fcs(s) != Fcs(t)
  {
    hide BitwiseCrc, Complement24;
    if Fcs(s) == Fcs(t) {
      var m, n := s[from..from + len], t[from..from + len];
      assert s == s[..from] + m + s[from + len..] && t == s[..from] + n + s[from + len..];
      SplitCrc(s[..from], m, s[from + len..]);
      SplitCrc(s[..from], n, s[from + len..]);
      var r := BitwiseCrc(INIT_CRC24, s[..from]);
      ComplementInjective(BitwiseCrc(INIT_CRC24, s), BitwiseCrc(INIT_CRC24, t));
      BitwiseCrcInjective(BitwiseCrc(r, m), BitwiseCrc(r, n), s[from + len..]);
      WindowInjective(r, m, n);
    }
  }

  lemma SplitCrc(p: Octets, m: Octets, q: Octets)
    ensures var r := BitwiseCrc(INIT_CRC24, p);
      && r < 0x1000000 && BitwiseCrc(r, m) < 0x1000000
      && BitwiseCrc(INIT_CRC24, p + m + q) == BitwiseCrc(BitwiseCrc(r, m), q) < 0x1000000
  {
    hide BitwiseCrc;
    var r := BitwiseCrc(INIT_CRC24, p);
    BitwiseCrcAppend(INIT_CRC24, p, m);
    BitwiseCrcAppend(INIT_CRC24, p + m, q);
    BitwiseCrcIn24(INIT_CRC24, p);
    BitwiseCrcIn24(r, m);
    BitwiseCrcIn24(BitwiseCrc(r, m), q);
  }
}
