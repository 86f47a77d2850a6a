/**
 * The CRC-8 shift register that both implementations use: MSB first,
 * generator x^8 + x^5 + x^3 + x^2 + x + 1 (0x12f) aligned with the top of a
 * 32-bit register, seed 0x54a9abf8, the message placed at the top of the
 * register, one shift per message bit, the checksum read from the top byte.
 *
 * Besides the definition this module proves what a decoder relies on: only
 * the 28 message bits take part; the register is linear over XOR, so the
 * checksum of a 28-bit word is a part fixed by bits 27..8 XOR an injective
 * image of the low byte; hence at most one value of the low byte gives any
 * chosen checksum.
 */
module Crc {

  const Seed: bv32 := 0x54a9_abf8


  /**
   * The 32-bit CRC register. Registers are compared as whole values; the bit
   * arithmetic stays inside Step and the lemmas about single bit patterns.
   */
  datatype Register = Register(bits: bv32)

  /** The byte the checksum is read from. */
  function Top(r: Register): bv32
  {
    r.bits >> 24
  }

  lemma TopByte(r: Register)
    ensures Top(r) < 256
  {
  }

  /** Reading the top byte of a bare word, as the loops return it. */
  lemma TopOf(x: bv32)
    ensures Top(Register(x)) == x >> 24 && x >> 24 < 256
  {
  }

  function Xor(a: Register, b: Register): Register
  {
    Register(a.bits ^ b.bits)
  }

  /**
   * One iteration of the loop: shift left and, when bit 31 was set, add the
   * generator. The generator's x^8 term leaves the register with the shifted
   * bit, so what is XORed in is 0x12f << 24 cut to 32 bits, selected by a
   * mask made from bit 31 (StepSet and StepClear give the two branches).
   */
  function Step(r: Register): Register
  {
    Register((r.bits << 1) ^ (0x2f00_0000 & (0 - (r.bits >> 31))))
  }

  lemma MaskSet(r: bv32)
    requires r & 0x8000_0000 != 0
    ensures (r << 1) ^ (0x2f00_0000 & (0 - (r >> 31))) == (r ^ 0x9780_0000) << 1
  {
  }

  lemma MaskClear(r: bv32)
    requires r & 0x8000_0000 == 0
    ensures (r << 1) ^ (0x2f00_0000 & (0 - (r >> 31))) == r << 1
  {
  }

  /** With bit 31 set, an iteration adds the generator (0x9780_0000) and shifts. */
  lemma StepSet(r: bv32)
    requires r & 0x8000_0000 != 0
    ensures Step(Register(r)) == Register((r ^ 0x9780_0000) << 1)
  {
    MaskSet(r);
  }

  /** With bit 31 clear, an iteration only shifts. */
  lemma StepClear(r: bv32)
    requires r & 0x8000_0000 == 0
    ensures Step(Register(r)) == Register(r << 1)
  {
    MaskClear(r);
  }

  /**
   * One iteration as the loops write it: add the generator when bit 31 is
   * set, then shift left.
   */
  lemma StepTo(r: bv32, x: bv32)
    requires x == if r & 0x8000_0000 != 0 then (r ^ 0x9780_0000) << 1 else r << 1
    ensures Step(Register(r)) == Register(x)
  {
    if r & 0x8000_0000 != 0 {
      StepSet(r);
    } else {
      StepClear(r);
    }
  }

  /** One turn of the register: XOR in the polynomial when bit 31 is set, then shift left. */
  method Shift(crc: bv32) returns (next: bv32)
    ensures Register(next) == Step(Register(crc))
  {
    next := crc;
    if next & 0x8000_0000 != 0 {
      next := next ^ 0x9780_0000;
    }
    next := next << 1;
    StepTo(crc, next);
  }

  /** The register after `n` iterations. */
  function Run(r: Register, n: nat): Register
  {
    if n == 0 then r else Step(Run(r, n - 1))
  }

  /**
   * The checksum of the 28 low bits of `u`: they are shifted to the top of
   * the register (the top nibble falls off), XORed into the seed, and clocked
   * through 28 iterations; the checksum is the top byte.
   */
  function Checksum(u: bv32): bv32
  {
    Top(Run(Register(Seed ^ (u << 4)), 28))
  }

  /**
   * The checksum of the `len` low bits of `inp`, as the general routine of
   * the C reference computes it; Checksum is the case `len` = 28.
   */
  function ChecksumBits(inp: bv32, len: nat): bv32
    requires 1 <= len <= 32
  {
    Top(Run(Register(Seed ^ (inp << (32 - len))), len))
  }

  /** A register run for 28 iterations from the 28-bit message holds the checksum in its top byte. */
  lemma ChecksumOfRun(u: bv32, r: Register)
    requires r == Run(Register(Seed ^ (u << 4)), 28)
    ensures Top(r) == Checksum(u)
  {
  }

  /** The same for `len` bits. */
  lemma ChecksumBitsOfRun(inp: bv32, len: nat, r: Register)
    requires 1 <= len <= 32
    requires r == Run(Register(Seed ^ (inp << (32 - len))), len)
    ensures Top(r) == ChecksumBits(inp, len)
  {
  }

  /** Both checksums are a single byte. */
  lemma ChecksumByte(u: bv32, inp: bv32, len: nat)
    requires 1 <= len <= 32
    ensures Checksum(u) < 256 && ChecksumBits(inp, len) < 256
  {
    TopByte(Run(Register(Seed ^ (u << 4)), 28));
    TopByte(Run(Register(Seed ^ (inp << (32 - len))), len));
  }

  /** Over 28 bits the general routine is the 28-bit checksum. */
  lemma ChecksumBits28(inp: bv32)
    ensures ChecksumBits(inp, 28) == Checksum(inp)
  {
    assert inp << (32 - 28) == inp << 4;
  }

  lemma RunNext(r: Register, m: nat)
    ensures Run(r, m + 1) == Step(Run(r, m))
  {
  }

  lemma {:induction false} RunAdd(r: Register, a: nat, b: nat)
    ensures Run(r, a + b) == Run(Run(r, a), b)
  {
    if b != 0 {
      var m :| m + 1 == b;
      RunAdd(r, a, m);
      RunNext(r, a + m);
      RunNext(Run(r, a), m);
    }
  }

  /** Evaluating 28 iterations in four blocks of seven (for constants). */
  lemma Run28(r: Register, r7: Register, r14: Register, r21: Register)
    requires Run(r, 7) == r7 && Run(r7, 7) == r14 && Run(r14, 7) == r21
    ensures Run(r, 28) == Run(r21, 7)
  {
    RunAdd(r, 7, 7);
    RunAdd(r, 14, 7);
    RunAdd(r, 21, 7);
  }

  /**
   * The checksum of a given word from the register after every seventh
   * iteration, for words whose run is worked out by hand.
   */
  lemma ChecksumByChunks(u: bv32, r0: bv32, r7: bv32, r14: bv32, r21: bv32, r28: bv32)
    requires Seed ^ (u << 4) == r0
    requires Run(Register(r0), 7) == Register(r7) && Run(Register(r7), 7) == Register(r14)
    requires Run(Register(r14), 7) == Register(r21) && Run(Register(r21), 7) == Register(r28)
    ensures Checksum(u) == r28 >> 24
  {
    Run28(Register(r0), Register(r7), Register(r14), Register(r21));
    ChecksumOfRun(u, Register(r28));
    TopOf(r28);
  }

  /** Over 28 bits only bits 27..0 of the input take part: the shift discards the top nibble. */
  lemma ShiftLow28(u: bv32, v: bv32)
    requires u & 0x0fff_ffff == v & 0x0fff_ffff
    ensures u << 4 == v << 4
  {
  }

  lemma ChecksumLow28(u: bv32, v: bv32)
    requires u & 0x0fff_ffff == v & 0x0fff_ffff
    ensures Checksum(u) == Checksum(v)
  {
    ShiftLow28(u, v);
    assert Register(Seed ^ (u << 4)) == Register(Seed ^ (v << 4));
  }

  /** One iteration is linear over XOR. */
  lemma StepXor(x: Register, y: Register)
    ensures Step(Xor(x, y)) == Xor(Step(x), Step(y))
  {
  }

  lemma RunXorNext(x: Register, y: Register, m: nat)
    requires Run(Xor(x, y), m) == Xor(Run(x, m), Run(y, m))
    ensures Run(Xor(x, y), m + 1) == Xor(Run(x, m + 1), Run(y, m + 1))
  {
    RunNext(Xor(x, y), m);
    RunNext(x, m);
    RunNext(y, m);
    StepXor(Run(x, m), Run(y, m));
  }

  /** The shift register is linear over XOR. */
  lemma {:induction false} RunXor(x: Register, y: Register, n: nat)
    ensures Run(Xor(x, y), n) == Xor(Run(x, n), Run(y, n))
  {
    if n != 0 {
      var m :| m + 1 == n;
      RunXor(x, y, m);
      RunXorNext(x, y, m);
    }
  }

  // Running the register backwards on the top byte.

  /** Registers whose low 24 bits are clear: the top byte alone is the register. */
  predicate TopByteOnly(w: Register)
  {
    w.bits & 0x00ff_ffff == 0
  }

  /**
   * The inverse of Step on the top byte (division by x modulo the generator):
   * bit 24 tells whether the generator was added, because its x^0 term lands there.
   */
  function Unstep(w: Register): Register
  {
    if w.bits & 0x0100_0000 != 0 then Register(((w.bits ^ 0x2f00_0000) >> 1) | 0x8000_0000)
    else Register(w.bits >> 1)
  }

  /** `n` iterations undone. */
  function Unrun(w: Register, n: nat): Register
    decreases n
  {
    if n == 0 then w else Unrun(Unstep(w), n - 1)
  }

  lemma StepUnstep(w: Register)
    requires TopByteOnly(w)
    ensures TopByteOnly(Unstep(w)) && Step(Unstep(w)) == w
  {
  }

  lemma UnstepStep(v: Register)
    requires TopByteOnly(v)
    ensures TopByteOnly(Step(v)) && Unstep(Step(v)) == v
  {
  }

  lemma {:induction false} RunTopByte(v: Register, n: nat)
    requires TopByteOnly(v)
    ensures TopByteOnly(Run(v, n))
  {
    if n != 0 {
      var m :| m + 1 == n;
      RunTopByte(v, m);
      RunNext(v, m);
      UnstepStep(Run(v, m));
    }
  }

  lemma UnrunNext(w: Register, m: nat)
    ensures Unrun(w, m + 1) == Unrun(Unstep(w), m)
  {
  }

  /** The register Unrun produces runs forward to `w` again. */
  lemma {:induction false} RunUnrun(w: Register, n: nat)
    requires TopByteOnly(w)
    ensures TopByteOnly(Unrun(w, n)) && Run(Unrun(w, n), n) == w
    decreases n
  {
    if n != 0 {
      var m :| m + 1 == n;
      var v := Unrun(Unstep(w), m);
      StepUnstep(w);
      RunUnrun(Unstep(w), m);
      UnrunNext(w, m);
      RunNext(v, m);
    }
  }

  /** Unrun recovers the register that Run started from. */
  lemma {:induction false} UnrunRun(v: Register, n: nat)
    requires TopByteOnly(v)
    ensures Unrun(Run(v, n), n) == v
    decreases n
  {
    if n != 0 {
      var m :| m + 1 == n;
      RunTopByte(v, m);
      RunNext(v, m);
      UnstepStep(Run(v, m));
      UnrunNext(Run(v, n), m);
      UnrunRun(v, m);
    }
  }

  lemma ShiftClear(a: bv32)
    requires a & 0xf000_0000 == 0
    ensures a & 0x8000_0000 == 0 && (a << 1) & 0x8000_0000 == 0 && (a << 2) & 0x8000_0000 == 0
    ensures (a << 3) & 0x8000_0000 == 0 && ((a << 1) << 1) << 1 << 1 == a << 4
  {
  }

  /** While the top nibble is clear, four iterations are four plain shifts. */
  lemma RunShift4(x: Register)
    requires x.bits & 0xf000_0000 == 0
    ensures Run(x, 4) == Register(x.bits << 4)
  {
    ShiftClear(x.bits);
    RunNext(x, 0);
    RunNext(x, 1);
    RunNext(x, 2);
    RunNext(x, 3);
  }

  lemma ByteShifts(c: bv32)
    requires c < 256
    ensures (c << 4) & 0xf000_0000 == 0 && (c << 4) << 4 == c << 8
    ensures (c << 8) & 0xf000_0000 == 0 && (c << 8) << 4 == c << 12
    ensures (c << 12) & 0xf000_0000 == 0 && (c << 12) << 4 == c << 16
    ensures (c << 16) & 0xf000_0000 == 0 && (c << 16) << 4 == c << 20
    ensures (c << 20) & 0xf000_0000 == 0 && (c << 20) << 4 == c << 24
  {
  }

  /** A byte placed at bits 11..4 reaches the top of the register untouched after 20 iterations. */
  lemma RunLowByte(c: bv32)
    requires c < 256
    ensures Run(Register(c << 4), 20) == Register(c << 24)
  {
    ByteShifts(c);
    var r := Register(c << 4);
    RunShift4(r);
    RunShift4(Register(c << 8));
    RunShift4(Register(c << 12));
    RunShift4(Register(c << 16));
    RunShift4(Register(c << 20));
    RunAdd(r, 4, 4);
    RunAdd(r, 8, 4);
    RunAdd(r, 12, 4);
    RunAdd(r, 16, 4);
  }

  /** The image of a check byte under the last eight iterations. */
  function Tail(c: bv32): bv32
  {
    Top(Run(Register(c << 24), 8))
  }

  lemma SplitBits(m: bv32, c: bv32)
    requires m & 0xff == 0 && c < 256
    ensures Seed ^ ((m | c) << 4) == (Seed ^ (m << 4)) ^ (c << 4)
  {
  }

  lemma TopXor(a: Register, b: Register)
    ensures Top(Xor(a, b)) == Top(a) ^ Top(b)
  {
  }

  /** The low byte's contribution after 28 iterations is its image under the last eight. */
  lemma RunTail(c: bv32)
    requires c < 256
    ensures Run(Register(c << 4), 28) == Run(Register(c << 24), 8)
  {
    RunAdd(Register(c << 4), 20, 8);
    RunLowByte(c);
  }

  /** The register after 28 iterations splits into the message part and the check-byte part. */
  lemma RunSplit(m: bv32, c: bv32)
    requires m & 0xff == 0 && c < 256
    ensures Run(Register(Seed ^ ((m | c) << 4)), 28)
         == Xor(Run(Register(Seed ^ (m << 4)), 28), Run(Register(c << 24), 8))
  {
    var x, y := Register(Seed ^ (m << 4)), Register(c << 4);
    SplitBits(m, c);
    assert Register(Seed ^ ((m | c) << 4)) == Xor(x, y);
    RunXor(x, y, 28);
    RunTail(c);
  }

  /**
   * Over 28 bits the checksum splits: the part fixed by bits 27..8 of the
   * message, XOR the image of the low byte.
   */
  lemma ChecksumSplit(m: bv32, c: bv32)
    requires m & 0xff == 0 && c < 256
    ensures Checksum(m | c) == Checksum(m) ^ Tail(c)
  {
    RunSplit(m, c);
    TopXor(Run(Register(Seed ^ (m << 4)), 28), Run(Register(c << 24), 8));
  }

  /** A register holding only a top byte is that byte placed at the top. */
  lemma TopRestore(v: Register)
    requires TopByteOnly(v)
    ensures Register(Top(v) << 24) == v && Top(v) < 256
  {
  }

  /** A byte placed at the top is read back by Top. */
  lemma TopPlace(k: bv32)
    requires k < 256
    ensures TopByteOnly(Register(k << 24)) && Top(Register(k << 24)) == k
  {
  }

  lemma TailRegister(c: bv32)
    requires c < 256
    ensures Tail(c) < 256 && Register(Tail(c) << 24) == Run(Register(c << 24), 8)
  {
    TopPlace(c);
    RunTopByte(Register(c << 24), 8);
    TopRestore(Run(Register(c << 24), 8));
  }

  /** Running the last eight iterations backwards recovers the byte: Tail is injective on bytes. */
  lemma UntailTail(c: bv32)
    requires c < 256
    ensures Top(Unrun(Register(Tail(c) << 24), 8)) == c
  {
    TailRegister(c);
    UnrunRun(Register(c << 24), 8);
    TopPlace(c);
  }

  lemma XorSolve(a: Register, b: Register, t: Register)
    requires t == Xor(a, b)
    ensures b == Xor(a, t)
  {
  }

  /** The low byte's image is what separates the checksums with and without it. */
  lemma TailOfSplit(m: bv32, c: bv32)
    requires m & 0xff == 0 && c < 256
    ensures Tail(c) == Checksum(m) ^ Checksum(m | c)
  {
    var x, y := Run(Register(Seed ^ (m << 4)), 28), Run(Register(c << 24), 8);
    var t := Run(Register(Seed ^ ((m | c) << 4)), 28);
    RunSplit(m, c);
    XorSolve(x, y, t);
    TopXor(x, t);
  }

  /** Two bytes with the same image are equal. */
  lemma TailInjective(c: bv32, c': bv32)
    requires c < 256 && c' < 256 && Tail(c) == Tail(c')
    ensures c == c'
  {
    UntailTail(c);
    UntailTail(c');
  }

  /**
   * Over 28 bits the low byte is protected: for fixed bits 27..8, distinct
   * values of bits 7..0 give distinct checksums, so at most one of them gives
   * any chosen checksum.
   */
  lemma CheckByteUnique(m: bv32, c: bv32, c': bv32)
    requires m & 0xff == 0 && c < 256 && c' < 256
    requires Checksum(m | c) == Checksum(m | c')
    ensures c == c'
  {
    TailOfSplit(m, c);
    TailOfSplit(m, c');
    TailInjective(c, c');
  }
}
