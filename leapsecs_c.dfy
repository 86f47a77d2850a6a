/**
 * The C reference decoder of the same announcement: a checksum routine over
 * any number of low bits, and decode_leapsecond, which returns an error code
 * and writes the year, month, dTAI and delta through optional `int`
 * pointers. It zeroes every output it is given before looking at the text,
 * and masks the class-E tag off the word before the checksum.
 */
module LeapSecsC {
  import opened Wrappers
  import Scan
  import Crc
  import LeapSecs

  /** An `int` the caller lends through a pointer; a null `Cell?` is a NULL pointer. */
  class Cell {
    var value: int

    constructor (v: int)
      ensures value == v
    {
      value := v;
    }
  }

  /** What decode_leapsecond leaves behind: its return code and its four outputs. */
  datatype Report = Report(code: int, year: int, month: int, dtai: int, delta: int)

  /** A failure: the code, and the outputs as they were zeroed on entry. */
  function Failed(code: int): Report
  {
    Report(code, 0, 0, 0, 0)
  }

  /** `(1 << 28) - 1`: the word without its class-E tag. */
  const Low28: bv32 := 0x0fff_ffff

  /**
   * Decoding a word: the tag is checked, masked off, and the 28 bits left
   * are checked against the checksum; then the action is checked and the
   * fields are the outputs.
   */
  function DecodeWord(u: bv32): Report
  {
    if LeapSecs.Tag(u) != 0xf then Failed(-1)
    else
      var v := u & Low28;
      if Crc.ChecksumBits(v, 28) != 0x80 then Failed(-2)
      else if LeapSecs.ActionField(v) == 3 then Failed(-3)
      else
        var offset := LeapSecs.MonthField(v) as int;
        Report(0, LeapSecs.HorizonYear(offset), LeapSecs.HorizonMonth(offset),
               LeapSecs.DtaiField(v) as int, LeapSecs.DeltaOf(LeapSecs.ActionField(v)))
  }

  /** Decoding dotted-quad text: fewer than four `%u` conversions is code -1. */
  function Decoded(ip: string): Report
  {
    match Scan.ScanQuad(ip)
    case Mismatch(_) => Failed(-1)
    case Quad(o1, o2, o3, o4) =>
      DecodeWord(LeapSecs.Assemble(LeapSecs.Word(o1), LeapSecs.Word(o2), LeapSecs.Word(o3), LeapSecs.Word(o4)))
  }

  /** The outputs of a word that passes every check, as the C code computes them from `mn`, the month offset plus 10. */
  function Passed(mn: int, o: bv32, d: bv32): Report
  {
    Report(0, 1971 + mn / 12, 1 + mn % 12, o as int, LeapSecs.DeltaOf(d))
  }

  /** A Go outcome as the C decoder reports it: 0 for success, else the error's code. */
  function Reported(out: LeapSecs.Outcome): Report
  {
    Report(if out.err.None? then 0 else out.err.value.code,
           out.result.year, out.result.month, out.result.dtai, out.result.delta)
  }

  /**
   * What the output pointers hold afterwards: each non-null one the value
   * of the last output parameter that points to the same `int` (the outputs
   * are written in the order year, month, dtai, delta).
   */
  predicate Holds(year: Cell?, month: Cell?, dtai: Cell?, delta: Cell?, out: Report)
    reads year, month, dtai, delta
  {
    (year != null && year != month && year != dtai && year != delta ==> year.value == out.year) &&
    (month != null && month != dtai && month != delta ==> month.value == out.month) &&
    (dtai != null && dtai != delta ==> dtai.value == out.dtai) &&
    (delta != null ==> delta.value == out.delta)
  }

  // The checksum routine.

  /** crc8(inp, len): `len` iterations of the register; a shift by 32 or more is undefined in C. */
  method Crc8(inp: bv32, len: nat) returns (c: bv32)
    requires 1 <= len <= 32
    ensures c == Crc.ChecksumBits(inp, len) && c < 256
  {
    var crc: bv32 := Crc.Seed ^ (inp << (32 - len));
    ghost var init := Crc.Register(crc);
    var i := 0;
    while i < len
      invariant 0 <= i <= len
      invariant Crc.Register(crc) == Crc.Run(init, i)
    {
      crc := Crc.Shift(crc);
      Crc.RunNext(init, i);
      i := i + 1;
    }
    c := crc >> 24;
    Crc.ChecksumBitsOfRun(inp, len, Crc.Register(crc));
    Crc.TopOf(crc);
  }

  // The decoder.

  /**
   * decode_leapsecond: zero the outputs it is given, scan the text, OR the
   * values into a word and let DecodeInto check it and write the fields.
   */
  method DecodeLeapsecond(ip: string, year: Cell?, month: Cell?, dtai: Cell?, delta: Cell?) returns (code: int)
    modifies year, month, dtai, delta
    ensures code == Decoded(ip).code
    ensures Holds(year, month, dtai, delta, Decoded(ip))
  {
    if year != null {
      year.value := 0;
    }
    if month != null {
      month.value := 0;
    }
    if dtai != null {
      dtai.value := 0;
    }
    if delta != null {
      delta.value := 0;
    }

    var scanned := Scan.ScanQuad(ip);
    if !scanned.Quad? {
      return -1;
    }
    var u: bv32 := LeapSecs.Word(scanned.o1) << 24;
    u := u | (LeapSecs.Word(scanned.o2) << 16);
    u := u | (LeapSecs.Word(scanned.o3) << 8);
    u := u | LeapSecs.Word(scanned.o4);
    ghost var q := scanned;
    assert u == LeapSecs.Assemble(LeapSecs.Word(q.o1), LeapSecs.Word(q.o2), LeapSecs.Word(q.o3), LeapSecs.Word(q.o4));
    code := DecodeInto(u, year, month, dtai, delta);
  }

  /**
   * The rest of decode_leapsecond once the word is assembled and the
   * outputs are zeroed: a failure returns its code and writes nothing more;
   * a success writes the fields.
   */
  method DecodeInto(u: bv32, year: Cell?, month: Cell?, dtai: Cell?, delta: Cell?) returns (code: int)
    requires Holds(year, month, dtai, delta, Failed(0))
    modifies year, month, dtai, delta
    ensures code == DecodeWord(u).code
    ensures Holds(year, month, dtai, delta, DecodeWord(u))
  {
    var mn, o, d;
    code, mn, o, d := CheckWord(u);
    if code != 0 {
      return;
    }
    Store(year, month, dtai, delta, 1971 + mn / 12, 1 + mn % 12, o as int, d);
  }

  /**
   * The checks of decode_leapsecond on an assembled word: the class-E tag,
   * which is then masked off, the checksum of the 28 bits left, and then the
   * fields shifted out one by one and the action. On success it returns the
   * month offset plus 10, the dTAI and the action.
   */
  method CheckWord(u: bv32) returns (code: int, mn: int, o: bv32, d: bv32)
    ensures code != 0 ==> DecodeWord(u) == Failed(code)
    ensures code == 0 ==> d < 3 && DecodeWord(u) == Passed(mn, o, d)
  {
    if u >> 28 != 0xf {
      TagGate(u);
      return -1, 0, 0, 0;
    }
    code, mn, o, d := CheckMasked(u, u & 0x0fff_ffff);
  }

  /** The checks after the tag is masked off: the checksum, then the fields and the action. */
  method CheckMasked(ghost word: bv32, u: bv32) returns (code: int, mn: int, o: bv32, d: bv32)
    requires word >> 28 == 0xf && u == word & Low28
    ensures code != 0 ==> DecodeWord(word) == Failed(code)
    ensures code == 0 ==> d < 3 && DecodeWord(word) == Passed(mn, o, d)
  {
    var crc := Crc8(u, 28);
    if crc != 0x80 {
      CrcGate(word, u, crc);
      return -2, 0, 0, 0;
    }
    code, mn, o, d := SplitFields(u);
    SplitGate(word, u, code, mn, o, d);
  }

  /**
   * The fields shifted out of a checked word one by one: dTAI, the action
   * and the month offset plus 10; action 3 is refused with -3.
   */
  method SplitFields(u: bv32) returns (code: int, mn: int, o: bv32, d: bv32)
    ensures o == LeapSecs.DtaiField(u) && d == LeapSecs.ActionField(u)
    ensures mn == LeapSecs.MonthField(u) as int + 10
    ensures code == (if d == 3 then -3 else 0)
  {
    LeapSecs.FieldShifts(u);
    var u := u >> 8;

    o := u & 0x7f;
    u := u >> 7;

    d := u & 3;
    u := u >> 2;

    mn := (u & 0x7ff) as int + 10;

    if d == 3 {
      return -3, mn, o, d;
    }
    code := 0;
  }

  /**
   * The writes of a successful decode, each through its pointer when that
   * is not NULL, in the order year, month, dTAI, delta; the delta is the one
   * action `d` selects (action 3 was refused before).
   */
  method Store(year: Cell?, month: Cell?, dtai: Cell?, delta: Cell?, y: int, m: int, t: int, d: bv32)
    requires d < 3
    modifies year, month, dtai, delta
    ensures Holds(year, month, dtai, delta, Report(0, y, m, t, LeapSecs.DeltaOf(d)))
  {
    if year != null {
      year.value := y;
    }
    if month != null {
      month.value := m;
    }
    if dtai != null {
      dtai.value := t;
    }
    if delta != null {
      if d == 0 {
        delta.value := 0;
      } else if d == 1 {
        delta.value := -1;
      } else if d == 2 {
        delta.value := 1;
      }
    }
  }

  lemma SplitGate(u: bv32, v: bv32, code: int, mn: int, o: bv32, d: bv32)
    requires u >> 28 == 0xf && v == u & Low28 && Crc.ChecksumBits(v, 28) == 0x80
    requires o == LeapSecs.DtaiField(v) && d == LeapSecs.ActionField(v)
    requires mn == LeapSecs.MonthField(v) as int + 10
    requires code == (if d == 3 then -3 else 0)
    ensures code != 0 ==> DecodeWord(u) == Failed(code)
    ensures code == 0 ==> d < 3 && DecodeWord(u) == Passed(mn, o, d)
  {
    if code == -3 {
      ActionGate(u, v, 0x80, d);
    } else {
      FieldsGate(u, v, o, d, mn);
    }
  }

  // The returns of DecodeWord, one lemma per return of CheckWord.

  lemma TagGate(u: bv32)
    requires u >> 28 != 0xf
    ensures DecodeWord(u) == Failed(-1)
  {
  }

  lemma CrcGate(u: bv32, v: bv32, c: bv32)
    requires u >> 28 == 0xf && v == u & Low28 && c == Crc.ChecksumBits(v, 28) && c != 0x80
    ensures DecodeWord(u) == Failed(-2)
  {
  }

  lemma ActionGate(u: bv32, v: bv32, c: bv32, d: bv32)
    requires u >> 28 == 0xf && v == u & Low28 && c == Crc.ChecksumBits(v, 28) && c == 0x80
    requires d == LeapSecs.ActionField(v) && d == 3
    ensures DecodeWord(u) == Failed(-3)
  {
  }

  /** The outputs of a word that passes every check, from the shifted-out fields. */
  lemma FieldsGate(u: bv32, v: bv32, o: bv32, d: bv32, mn: int)
    requires u >> 28 == 0xf && v == u & Low28 && Crc.ChecksumBits(v, 28) == 0x80
    requires o == LeapSecs.DtaiField(v) && d == LeapSecs.ActionField(v) && d != 3
    requires mn == LeapSecs.MonthField(v) as int + 10
    ensures DecodeWord(u) == Passed(mn, o, d)
  {
    Masked(u, v);
    LeapSecs.FieldsGate(u, 0x80, o, d, mn, LeapSecs.DeltaOf(d));
    WordAgrees(u);
  }

  // The two decoders agree.

  /** Masking off the tag keeps the fields and the 28 bits the checksum reads. */
  lemma Masked(u: bv32, v: bv32)
    requires v == u & Low28
    ensures LeapSecs.MonthField(v) == LeapSecs.MonthField(u)
    ensures LeapSecs.ActionField(v) == LeapSecs.ActionField(u)
    ensures LeapSecs.DtaiField(v) == LeapSecs.DtaiField(u)
    ensures Crc.ChecksumBits(v, 28) == Crc.Checksum(u)
  {
    Crc.ChecksumBits28(v);
    Crc.ChecksumLow28(v, u);
  }

  /** On every word the C decoder reports what the Go decoder returns. */
  lemma WordAgrees(u: bv32)
    ensures DecodeWord(u) == Reported(LeapSecs.DecodeWord(u))
  {
    Masked(u, u & Low28);
  }

  /**
   * On every text, read by the one scanner both models share, the C decoder
   * reports what the Go decoder returns: the same code (0 for success), and
   * the Go Result's fields as outputs. The library scanners themselves differ
   * on signs and on values of 2^32 or more, which this scanner refuses.
   */
  lemma Agrees(ip: string)
    ensures Decoded(ip) == Reported(LeapSecs.Decoded(ip))
  {
    match Scan.ScanQuad(ip)
    case Mismatch(_) =>
    case Quad(o1, o2, o3, o4) =>
      WordAgrees(LeapSecs.Assemble(LeapSecs.Word(o1), LeapSecs.Word(o2), LeapSecs.Word(o3), LeapSecs.Word(o4)));
  }

  /**
   * The return codes in order: -1 for too few conversions or no class-E
   * tag, then -2 for a bad checksum, then -3 for action 3, else 0; every
   * failure leaves the outputs zero.
   */
  lemma Codes(ip: string)
    ensures Decoded(ip).code in {0, -1, -2, -3}
    ensures Decoded(ip).code != 0 ==> Decoded(ip) == Failed(Decoded(ip).code)
    ensures Decoded(ip).code == -1 <==> LeapSecs.Decoded(ip).err.Some? && LeapSecs.Decoded(ip).err.value.code == -1
    ensures Decoded(ip).code == -2 <==> LeapSecs.Decoded(ip).err == Some(LeapSecs.Error(-2, None))
    ensures Decoded(ip).code == -3 <==> LeapSecs.Decoded(ip).err == Some(LeapSecs.Error(-3, None))
  {
    Agrees(ip);
    LeapSecs.ScanGate(ip);
    if Scan.ScanQuad(ip).Quad? {
      var q := Scan.ScanQuad(ip);
      LeapSecs.GateOrder(LeapSecs.Assemble(LeapSecs.Word(q.o1), LeapSecs.Word(q.o2), LeapSecs.Word(q.o3), LeapSecs.Word(q.o4)));
    }
  }

  // The test table.

  datatype TestVector = TestVector(ip: string, error: int, year: int, month: int, tai: int, delta: int)

  const TestVectors: seq<TestVector> := [
    TestVector("240.3.9.77", 0, 1971, 12, 9, 1),
    TestVector("240.15.10.108", 0, 1972, 6, 10, 1),
    TestVector("242.18.28.160", 0, 1993, 12, 28, 0),
    TestVector("255.76.200.237", 0, 2135, 1, 72, -1),
    TestVector("127.240.133.76", -1, 0, 0, 0, 0),
    TestVector("255.209.76.40", -2, 0, 0, 0, 0),
    TestVector("241.179.152.73", -3, 0, 0, 0, 0)
  ]

  /** Every entry of the table decodes to its listed code and outputs. */
  lemma TestVectorsDecode()
    ensures forall i :: 0 <= i < |TestVectors| ==>
      Decoded(TestVectors[i].ip) == Report(TestVectors[i].error, TestVectors[i].year, TestVectors[i].month,
                                            TestVectors[i].tai, TestVectors[i].delta)
  {
    LeapSecs.TestVectorsDecode();
    SameTable();
    forall i | 0 <= i < |TestVectors|
      ensures Decoded(TestVectors[i].ip) == Report(TestVectors[i].error, TestVectors[i].year, TestVectors[i].month,
                                                   TestVectors[i].tai, TestVectors[i].delta)
    {
      Agrees(TestVectors[i].ip);
    }
  }

  /** The C table lists the Go table's entries in the same order, with the code in place of the error. */
  lemma SameTable()
    ensures |TestVectors| == |LeapSecs.TestVectors|
    ensures forall i :: 0 <= i < |TestVectors| ==>
      TestVectors[i].ip == LeapSecs.TestVectors[i].ip &&
      Report(TestVectors[i].error, TestVectors[i].year, TestVectors[i].month, TestVectors[i].tai, TestVectors[i].delta)
      == Reported(LeapSecs.Outcome(LeapSecs.TestVectors[i].result, LeapSecs.TestVectors[i].err))
  {
  }
}
