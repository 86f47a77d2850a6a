/**
 * The Go package dnsleapsecs: a leap-second announcement packed into an IPv4
 * address, decoded from its dotted-quad text.
 *
 *    31..28   27..17         16..15   14..8   7..0
 *   +--------+--------------+--------+-------+--------+
 *   | 1111   | month offset | action | dTAI  | CRC-8  |
 *   +--------+--------------+--------+-------+--------+
 *
 * The month offset is (year - 1971) * 12 + month - 11, so offset 0 is
 * November 1971 and offset 1 December 1971; the action says what
 * happens to dTAI at the end of the announced month (0 nothing, 1 minus one,
 * 2 plus one, 3 illegal), and the CRC-8 over bits 27..0 must come out 0x80.
 */
module LeapSecs {
  import opened Wrappers
  import Scan
  import Crc

  /** Leap-second information: the announced horizon, dTAI and what happens to it. */
  datatype Result = Result(year: int, month: int, dtai: int, delta: int)

  /** The zero Result every failure comes with. */
  const Zero: Result := Result(0, 0, 0, 0)

  /**
   * The error a failure wraps: the scanner's failure (with the number of
   * values it did match) or the resolver's, whose reason is opaque here.
   */
  datatype Cause = ScanFailed(matched: nat) | ResolverFailed(reason: string)

  /** The package's error value: a code and an optional wrapped cause. */
  datatype Error = Error(code: int, err: Option<Cause>)

  /** What Decode returns: the Result and the error, nil (None) on success. */
  datatype Outcome = Outcome(result: Result, err: Option<Error>)

  function Fail(code: int, cause: Option<Cause>): Outcome
  {
    Outcome(Zero, Some(Error(code, cause)))
  }

  // The address word and its fields.

  /** A scanned value as a uint32 variable holds it (the scanner keeps values below 2^32). */
  function Word(v: nat): bv32
    requires v < Scan.Uint32Limit
  {
    v as bv32
  }

  /**
   * The four scanned values ORed into one word. No value is range-checked:
   * each shift drops what passes bit 31 and a large value overlaps the others.
   */
  function Assemble(o1: bv32, o2: bv32, o3: bv32, o4: bv32): bv32
  {
    (o1 << 24) | (o2 << 16) | (o3 << 8) | o4
  }

  function Tag(u: bv32): bv32 { u >> 28 }

  function MonthField(u: bv32): bv32 { (u >> 17) & 0x7ff }

  function ActionField(u: bv32): bv32 { (u >> 15) & 0x3 }

  function DtaiField(u: bv32): bv32 { (u >> 8) & 0x7f }

  /** The announced year for a month offset: offset 0 is November 1971. */
  function HorizonYear(offset: int): int
  {
    1971 + (offset + 10) / 12
  }

  /** The announced month (1..12) for a month offset. */
  function HorizonMonth(offset: int): int
  {
    1 + (offset + 10) % 12
  }

  /** The month offset of a year and month, as the layout documents it. */
  function MonthOffset(year: int, month: int): int
  {
    (year - 1971) * 12 + month - 11
  }

  /** What the action does to dTAI at the end of the month. */
  function DeltaOf(d: bv32): int
  {
    if d == 0 then 0 else if d == 1 then -1 else if d == 2 then 1 else 0
  }

  /**
   * Decoding a word: the class-E tag, then the checksum, then the action are
   * checked, in that order; a word that passes all three yields its fields.
   */
  function DecodeWord(u: bv32): Outcome
  {
    if Tag(u) != 0xf then Fail(-1, None)
    else if Crc.Checksum(u) != 0x80 then Fail(-2, None)
    else if ActionField(u) == 3 then Fail(-3, None)
    else
      var offset := MonthField(u) as int;
      Outcome(Result(HorizonYear(offset), HorizonMonth(offset), DtaiField(u) as int, DeltaOf(ActionField(u))), None)
  }

  /** Decoding dotted-quad text: fewer than four scanned values fail with code -1 wrapping the scan error. */
  function Decoded(ip: string): Outcome
  {
    match Scan.ScanQuad(ip)
    case Mismatch(n) => Fail(-1, Some(ScanFailed(n)))
    case Quad(o1, o2, o3, o4) => DecodeWord(Assemble(Word(o1), Word(o2), Word(o3), Word(o4)))
  }

  // The checksum loop.

  /**
   * The CRC-8 of the low 28 bits of `u`: 28 turns of the register, seeded
   * with the fixed seed XORed with the message in bits 31..4, and its top byte.
   */
  method Crc8(u: bv32) returns (c: bv32)
    ensures c == Crc.Checksum(u)
  {
    var crc: bv32 := Crc.Seed ^ (u << 4);
    ghost var init := Crc.Register(crc);
    var i := 0;
    while i < 28
      invariant 0 <= i <= 28
      invariant Crc.Register(crc) == Crc.Run(init, i)
    {
      crc := Crc.Shift(crc);
      Crc.RunNext(init, i);
      i := i + 1;
    }
    c := crc >> 24;
    Crc.ChecksumOfRun(u, Crc.Register(crc));
  }

  lemma FieldShifts(u: bv32)
    ensures (u >> 8) & 0x7f == DtaiField(u)
    ensures ((u >> 8) >> 7) & 3 == ActionField(u)
    ensures (((u >> 8) >> 7) >> 2) & 0x7ff == MonthField(u)
  {
  }

  // The gates of DecodeWord, one lemma per return of Decode.

  lemma TagGate(u: bv32)
    requires u >> 28 != 0xf
    ensures DecodeWord(u) == Fail(-1, None)
  {
  }

  lemma CrcGate(u: bv32, c: bv32)
    requires u >> 28 == 0xf && c == Crc.Checksum(u) && c != 0x80
    ensures DecodeWord(u) == Fail(-2, None)
  {
  }

  lemma ActionGate(u: bv32, c: bv32, d: bv32)
    requires u >> 28 == 0xf && c == Crc.Checksum(u) && c == 0x80
    requires d == ActionField(u) && d == 3
    ensures DecodeWord(u) == Fail(-3, None)
  {
  }

  lemma FieldsGate(u: bv32, c: bv32, o: bv32, d: bv32, mn: int, delta: int)
    requires u >> 28 == 0xf && c == Crc.Checksum(u) && c == 0x80
    requires o == DtaiField(u) && d == ActionField(u) && mn == MonthField(u) as int + 10 && d != 3
    requires delta == DeltaOf(d)
    ensures DecodeWord(u) == Outcome(Result(1971 + mn / 12, 1 + mn % 12, o as int, delta), None)
  {
  }

  /**
   * Decode as the package writes it: scan the four values and OR them into
   * one word, which DecodeBits checks and splits.
   */
  method Decode(ip: string) returns (r: Result, err: Option<Error>)
    ensures Outcome(r, err) == Decoded(ip)
  {
    var scanned := Scan.ScanQuad(ip);
    if !scanned.Quad? {
      return Zero, Some(Error(-1, Some(ScanFailed(scanned.matched))));
    }
    var u: bv32 := Word(scanned.o1) << 24;
    u := u | (Word(scanned.o2) << 16);
    u := u | (Word(scanned.o3) << 8);
    u := u | Word(scanned.o4);
    r, err := DecodeBits(u);
  }

  /**
   * The checks and the split of an assembled word: the class-E tag, the
   * checksum, then the fields shifted out one by one and the action.
   */
  method DecodeBits(u: bv32) returns (r: Result, err: Option<Error>)
    ensures Outcome(r, err) == DecodeWord(u)
  {
    ghost var word := u;
    FieldShifts(word);
    var u := u;
    if u >> 28 != 0xf {
      TagGate(word);
      return Zero, Some(Error(-1, None));
    }
    var crc := Crc8(u);
    if crc != 0x80 {
      CrcGate(word, crc);
      return Zero, Some(Error(-2, None));
    }
    u := u >> 8;

    var o := u & 0x7f;
    u := u >> 7;

    var d := u & 3;
    u := u >> 2;

    var mn := (u & 0x7ff) as int + 10;

    if d == 3 {
      ActionGate(word, crc, d);
      return Zero, Some(Error(-3, None));
    }

    r := Result(1971 + mn / 12, 1 + mn % 12, o as int, 0);
    if d == 0 {
      r := r.(delta := 0);
    } else if d == 1 {
      r := r.(delta := -1);
    } else if d == 2 {
      r := r.(delta := 1);
    }
    err := None;
    FieldsGate(word, crc, o, d, mn, r.delta);
  }

  // What decoding promises.

  /**
   * The gates short-circuit in order: a word without the class-E tag fails
   * with -1 whatever its checksum, a tagged word with a bad checksum fails
   * with -2 whatever its action, and only then is action 3 refused with -3.
   * No failure wraps a cause, and every failure carries the zero Result.
   */
  lemma GateOrder(u: bv32)
    ensures DecodeWord(u).err == Some(Error(-1, None)) <==> Tag(u) != 0xf
    ensures DecodeWord(u).err == Some(Error(-2, None)) <==> Tag(u) == 0xf && Crc.Checksum(u) != 0x80
    ensures DecodeWord(u).err == Some(Error(-3, None)) <==> Tag(u) == 0xf && Crc.Checksum(u) == 0x80 && ActionField(u) == 3
    ensures DecodeWord(u).err.None? <==> Tag(u) == 0xf && Crc.Checksum(u) == 0x80 && ActionField(u) != 3
    ensures DecodeWord(u).err.Some? ==> DecodeWord(u).result == Zero && DecodeWord(u).err.value.err.None?
  {
  }

  /**
   * Text that does not scan to four values fails with -1 wrapping the
   * scanner's error, and only such text produces a wrapped cause.
   */
  lemma ScanGate(ip: string)
    ensures Scan.ScanQuad(ip).Mismatch? ==> Decoded(ip) == Fail(-1, Some(ScanFailed(Scan.ScanQuad(ip).matched)))
    ensures Decoded(ip).err.Some? && Decoded(ip).err.value.err.Some? <==> Scan.ScanQuad(ip).Mismatch?
    ensures Decoded(ip).err.Some? ==> Decoded(ip).result == Zero
  {
    if Scan.ScanQuad(ip).Quad? {
      var q := Scan.ScanQuad(ip);
      GateOrder(Assemble(Word(q.o1), Word(q.o2), Word(q.o3), Word(q.o4)));
    }
  }

  /** The Result a word that passes the gates decodes to, and that its action is not 3. */
  lemma PassedResult(u: bv32, m: bv32, a: bv32, o: bv32)
    requires DecodeWord(u).err.None?
    requires m == MonthField(u) && a == ActionField(u) && o == DtaiField(u)
    ensures DecodeWord(u).result == Result(HorizonYear(m as int), HorizonMonth(m as int), o as int, DeltaOf(a))
    ensures a < 3
  {
  }

  lemma FieldBounds(u: bv32, m: bv32, a: bv32, o: bv32)
    requires m == MonthField(u) && a == ActionField(u) && o == DtaiField(u)
    ensures 0 <= m as int <= 2047 && 0 <= o as int <= 127 && a <= 3
  {
  }

  /** The three legal actions keep, lower and raise dTAI: three different deltas. */
  lemma Actions(a: bv32)
    requires a < 3
    ensures DeltaOf(a) == 0 <==> a == 0
    ensures DeltaOf(a) == -1 <==> a == 1
    ensures DeltaOf(a) == 1 <==> a == 2
  {
  }

  /** The horizons of the 11-bit offsets run from November 1971 (offset 0) to June 2142 (offset 2047). */
  lemma HorizonRange(offset: int)
    requires 0 <= offset <= 2047
    ensures 1971 <= HorizonYear(offset) <= 2142
    ensures offset == 0 ==> HorizonYear(offset) == 1971 && HorizonMonth(offset) == 11
    ensures offset == 2047 ==> HorizonYear(offset) == 2142 && HorizonMonth(offset) == 6
  {
  }

  /** The ranges of a Result built from an 11-bit month offset and a 7-bit dTAI. */
  lemma FieldRanges(offset: int, dtai: int, delta: int, r: Result)
    requires 0 <= offset <= 2047 && 0 <= dtai <= 127
    requires r == Result(HorizonYear(offset), HorizonMonth(offset), dtai, delta)
    ensures 1971 <= r.year <= 2142 && 1 <= r.month <= 12 && 0 <= r.dtai <= 127
    ensures MonthOffset(r.year, r.month) == offset
  {
    HorizonRange(offset);
    HorizonOffset(offset);
  }

  /**
   * A successful decode yields a horizon between November 1971 and June
   * 2142, a month in 1..12, dTAI from bits 14..8 (so in 0..127), and the
   * delta chosen by a legal action (see Actions). The horizon is the one
   * whose month offset the word carries.
   */
  lemma SuccessFields(u: bv32, r: Result)
    requires DecodeWord(u) == Outcome(r, None)
    ensures 1971 <= r.year <= 2142 && 1 <= r.month <= 12
    ensures r.dtai == DtaiField(u) as int && 0 <= r.dtai <= 127
    ensures ActionField(u) < 3 && r.delta == DeltaOf(ActionField(u))
    ensures MonthOffset(r.year, r.month) == MonthField(u) as int
  {
    var m, a, o := MonthField(u), ActionField(u), DtaiField(u);
    PassedResult(u, m, a, o);
    FieldBounds(u, m, a, o);
    FieldRanges(m as int, o as int, DeltaOf(a), r);
  }

  /** The horizon of an offset is in 1..12 and has that offset back. */
  lemma HorizonOffset(offset: int)
    ensures 1 <= HorizonMonth(offset) <= 12
    ensures MonthOffset(HorizonYear(offset), HorizonMonth(offset)) == offset
  {
  }

  /** The documented month formula inverted: a year and a month come back from their offset. */
  lemma OffsetHorizon(year: int, month: int)
    requires 1 <= month <= 12
    ensures HorizonYear(MonthOffset(year, month)) == year
    ensures HorizonMonth(MonthOffset(year, month)) == month
  {
    var n := MonthOffset(year, month) + 10;
    assert n == (year - 1971) * 12 + (month - 1);
    DivMod12(n, year - 1971, month - 1);
  }

  lemma DivMod12(n: int, q: int, r: int)
    requires n == q * 12 + r && 0 <= r < 12
    ensures n / 12 == q && n % 12 == r
  {
  }

  /**
   * A word that passes the gates and carries the offset of a year and month
   * (month in 1..12, the offset in the 11-bit range) decodes to exactly that
   * year and month.
   */
  lemma DecodesHorizon(u: bv32, year: int, month: int)
    requires 1 <= month <= 12 && 0 <= MonthOffset(year, month) <= 2047
    requires DecodeWord(u).err.None? && MonthField(u) as int == MonthOffset(year, month)
    ensures DecodeWord(u).result.year == year && DecodeWord(u).result.month == month
  {
    var m := MonthField(u);
    PassedResult(u, m, ActionField(u), DtaiField(u));
    OffsetHorizon(year, month);
  }

  /** A word whose last value is a byte is the word of the first three ORed with that byte. */
  lemma AssembleLow(o1: bv32, o2: bv32, o3: bv32, c: bv32, m: bv32, u: bv32)
    requires c < 256 && m == Assemble(o1, o2, o3, 0) && u == Assemble(o1, o2, o3, c)
    ensures u == m | c && m & 0xff == 0
  {
  }

  /**
   * The last octet is a check octet: whatever the first three values, at
   * most one value of the fourth below 256 makes the checksum come out 0x80.
   */
  lemma OneCheckOctet(o1: bv32, o2: bv32, o3: bv32, c: bv32, c': bv32)
    requires c < 256 && c' < 256
    requires Crc.Checksum(Assemble(o1, o2, o3, c)) == 0x80 && Crc.Checksum(Assemble(o1, o2, o3, c')) == 0x80
    ensures c == c'
  {
    var m, u, u' := Assemble(o1, o2, o3, 0), Assemble(o1, o2, o3, c), Assemble(o1, o2, o3, c');
    AssembleLow(o1, o2, o3, c, m, u);
    AssembleLow(o1, o2, o3, c', m, u');
    Crc.CheckByteUnique(m, c, c');
  }

  // Looking the announcement up.

  /** What the resolver answers for the host: its failure, or the addresses it found. */
  datatype Lookup = LookupFailed(reason: string) | Addrs(ips: seq<string>)

  /** What LookupHost returns: the address it settled on, its Result and the error. */
  datatype Answer = Answer(ip: string, result: Result, err: Option<Error>)

  /**
   * A resolver failure is code -10 wrapping it, an empty answer is code -11,
   * and otherwise the first address that decodes wins.
   */
  function LookedUp(lookup: Lookup): Answer
  {
    match lookup
    case LookupFailed(reason) => Answer("", Zero, Some(Error(-10, Some(ResolverFailed(reason)))))
    case Addrs(ips) => if ips == [] then Answer("", Zero, Some(Error(-11, None))) else FirstDecoded(ips)
  }

  /**
   * Trying the addresses in order: the first that decodes, or, when none
   * does, the last one with its error.
   */
  function FirstDecoded(ips: seq<string>): Answer
    requires ips != []
  {
    var out := Decoded(ips[0]);
    if out.err.None? || |ips| == 1 then Answer(ips[0], out.result, out.err) else FirstDecoded(ips[1..])
  }

  /**
   * LookupHost as the package writes it, with the resolver's answer as input:
   * a resolver failure or an empty answer returns at once; otherwise the
   * addresses are tried in turn.
   */
  method LookupHost(lookup: Lookup) returns (ip: string, dr: Result, err: Option<Error>, ghost tried: nat)
    ensures Answer(ip, dr, err) == LookedUp(lookup)
    ensures lookup.Addrs? && lookup.ips != [] ==>
      0 < tried <= |lookup.ips| && ip == lookup.ips[tried - 1] && (tried < |lookup.ips| ==> err.None?)
    ensures lookup.LookupFailed? || lookup.ips == [] ==> tried == 0
  {
    match lookup
    case LookupFailed(reason) =>
      ip, dr, err, tried := "", Zero, Some(Error(-10, Some(ResolverFailed(reason)))), 0;
    case Addrs(ips) =>
      if |ips| == 0 {
        ip, dr, err, tried := "", Zero, Some(Error(-11, None)), 0;
      } else {
        ip, dr, err, tried := TryAddrs(ips);
      }
  }

  /**
   * The loop of LookupHost: decode the addresses in order and stop at the
   * first that decodes. The ghost `tried` counts the addresses decoded: a
   * prefix of the list, ending at `ip`, and shorter than the list only when
   * `ip` decoded.
   */
  method TryAddrs(ips: seq<string>) returns (ip: string, dr: Result, err: Option<Error>, ghost tried: nat)
    requires ips != []
    ensures Answer(ip, dr, err) == FirstDecoded(ips)
    ensures 0 < tried <= |ips| && ip == ips[tried - 1]
    ensures tried < |ips| ==> err.None?
  {
    ip, dr, err, tried := "", Zero, None, 0;
    var i := 0;
    while i < |ips|
      invariant 0 <= i <= |ips| && tried == i
      invariant i < |ips| ==> FirstDecoded(ips) == FirstDecoded(ips[i..])
      invariant 0 < i ==> ip == ips[i - 1] && err.Some?
      invariant i == |ips| ==> FirstDecoded(ips) == Answer(ip, dr, err)
    {
      ip := ips[i];
      dr, err := Decode(ip);
      tried := tried + 1;
      FirstDecodedAt(ips, i);
      if err.None? {
        return;
      }
      i := i + 1;
    }
  }

  /** One turn of the loop: the answer from address i on, by what address i decodes to. */
  lemma FirstDecodedAt(ips: seq<string>, i: nat)
    requires i < |ips|
    ensures Decoded(ips[i]).err.None? || i == |ips| - 1 ==>
      FirstDecoded(ips[i..]) == Answer(ips[i], Decoded(ips[i]).result, Decoded(ips[i]).err)
    ensures Decoded(ips[i]).err.Some? && i < |ips| - 1 ==> FirstDecoded(ips[i..]) == FirstDecoded(ips[i + 1..])
  {
    assert ips[i..][0] == ips[i];
    assert ips[i..][1..] == ips[i + 1..];
  }

  /**
   * When the first k addresses fail and address k decodes, address k wins
   * with its Result.
   */
  lemma FirstSuccess(ips: seq<string>, k: nat)
    requires k < |ips|
    requires forall j :: 0 <= j < k ==> Decoded(ips[j]).err.Some?
    requires Decoded(ips[k]).err.None?
    ensures FirstDecoded(ips) == Answer(ips[k], Decoded(ips[k]).result, None)
  {
    FirstSuccessFrom(ips, 0, k);
    assert ips[0..] == ips;
  }

  /** FirstSuccess for the addresses from j on, by induction on k - j. */
  lemma {:induction false} FirstSuccessFrom(ips: seq<string>, j: nat, k: nat)
    requires j <= k < |ips|
    requires forall i :: j <= i < k ==> Decoded(ips[i]).err.Some?
    requires Decoded(ips[k]).err.None?
    ensures FirstDecoded(ips[j..]) == Answer(ips[k], Decoded(ips[k]).result, None)
    decreases k - j
  {
    FirstDecodedAt(ips, j);
    if j < k {
      FirstSuccessFrom(ips, j + 1, k);
    }
  }


  /**
   * When no address decodes, the answer is the last address with the zero
   * Result and that address's own error.
   */
  lemma AllFail(ips: seq<string>)
    requires ips != []
    requires forall j :: 0 <= j < |ips| ==> Decoded(ips[j]).err.Some?
    ensures FirstDecoded(ips) == Answer(ips[|ips| - 1], Decoded(ips[|ips| - 1]).result, Decoded(ips[|ips| - 1]).err)
  {
    AllFailFrom(ips, 0);
    assert ips[0..] == ips;
  }

  /** AllFail for the addresses from j on, by induction on |ips| - j. */
  lemma {:induction false} AllFailFrom(ips: seq<string>, j: nat)
    requires j < |ips|
    requires forall i :: j <= i < |ips| ==> Decoded(ips[i]).err.Some?
    ensures FirstDecoded(ips[j..]) == Answer(ips[|ips| - 1], Decoded(ips[|ips| - 1]).result, Decoded(ips[|ips| - 1]).err)
    decreases |ips| - j
  {
    FirstDecodedAt(ips, j);
    if j < |ips| - 1 {
      AllFailFrom(ips, j + 1);
    }
  }


  /** A failed decode comes with the zero Result. */
  lemma FailZero(ip: string)
    requires Decoded(ip).err.Some?
    ensures Decoded(ip).result == Zero
  {
    ScanGate(ip);
  }

  /** Once an address decodes, addresses after it make no difference. */
  lemma {:induction false} LaterIgnored(ips: seq<string>, rest: seq<string>)
    requires ips != [] && FirstDecoded(ips).err.None?
    ensures FirstDecoded(ips + rest) == FirstDecoded(ips)
    decreases |ips|
  {
    assert (ips + rest)[0] == ips[0];
    if Decoded(ips[0]).err.Some? {
      assert |ips| > 1;
      assert (ips + rest)[1..] == ips[1..] + rest;
      LaterIgnored(ips[1..], rest);
    }
  }

  // The package's test table and its documented example.

  /** One entry of the test table: an address and the Result and error decoding it gives. */
  datatype Vector = Vector(ip: string, result: Result, err: Option<Error>)

  const TestVectors: seq<Vector> := [
    Vector("240.3.9.77", Result(1971, 12, 9, 1), None),
    Vector("240.15.10.108", Result(1972, 6, 10, 1), None),
    Vector("242.18.28.160", Result(1993, 12, 28, 0), None),
    Vector("255.76.200.237", Result(2135, 1, 72, -1), None),
    Vector("127.240.133.76", Zero, Some(Error(-1, None))),
    Vector("255.209.76.40", Zero, Some(Error(-2, None))),
    Vector("241.179.152.73", Zero, Some(Error(-3, None)))
  ]

  /** Every entry of the test table decodes to exactly its Result and error. */
  lemma TestVectorsDecode()
    ensures forall i :: 0 <= i < |TestVectors| ==> Decoded(TestVectors[i].ip) == Outcome(TestVectors[i].result, TestVectors[i].err)
  {
    forall i | 0 <= i < |TestVectors|
      ensures Decoded(TestVectors[i].ip) == Outcome(TestVectors[i].result, TestVectors[i].err)
    {
      VectorDecodes(i);
    }
  }

  lemma VectorDecodes(i: nat)
    requires i < |TestVectors|
    ensures Decoded(TestVectors[i].ip) == Outcome(TestVectors[i].result, TestVectors[i].err)
  {
    if i == 0 {
      Vector0Decodes();
    } else if i == 1 {
      Vector1Decodes();
    } else if i == 2 {
      Vector2Decodes();
    } else if i == 3 {
      Vector3Decodes();
    } else if i == 4 {
      Vector4Decodes();
    } else if i == 5 {
      Vector5Decodes();
    } else {
      Vector6Decodes();
    }
  }

  /**
   * The example the layout is documented with: 244.23.35.255 announces that
   * dTAI, 35 until then, goes up by one at the end of June 2015.
   */
  lemma DocumentedExample()
    ensures Decoded("244.23.35.255") == Outcome(Result(2015, 6, 35, 1), None)
  {
    ExampleDecodes();
  }

  /** The 28 bits of the documented example, 0x041723ff, check: their CRC-8 is 0x80. */
  lemma ExampleChecksum()
    ensures Crc.Checksum(0x0417_23ff) == 0x80
  {
    Crc.ChecksumByChunks(0x0417_23ff, 0x15db_9408, 0xe4ca_0400, 0x0002_0000, 0x0100_0000, 0x8000_0000);
  }

  /** Each test vector, as the resolver's only address, is what LookupHost returns. */
  lemma TestVectorsLookup()
    ensures forall i :: 0 <= i < |TestVectors| ==>
      LookedUp(Addrs([TestVectors[i].ip])) == Answer(TestVectors[i].ip, TestVectors[i].result, TestVectors[i].err)
  {
    TestVectorsDecode();
  }

  /**
   * Three addresses that fail, then one that decodes: the fourth wins. The
   * package's own case uses vectors 4, 5 and 6 (one per error code) and then
   * vector 0.
   */
  lemma ManyDecode()
    ensures var ips := [TestVectors[4].ip, TestVectors[5].ip, TestVectors[6].ip, TestVectors[0].ip];
      LookedUp(Addrs(ips)) == Answer(TestVectors[0].ip, TestVectors[0].result, None)
  {
    TestVectorsDecode();
    ManyDecodeIn(TestVectors);
  }

  /** ManyDecode for any table whose entries decode as listed. */
  lemma ManyDecodeIn(t: seq<Vector>)
    requires |t| == 7 && forall i :: 0 <= i < |t| ==> Decoded(t[i].ip) == Outcome(t[i].result, t[i].err)
    requires t[4].err.Some? && t[5].err.Some? && t[6].err.Some? && t[0].err.None?
    ensures var ips := [t[4].ip, t[5].ip, t[6].ip, t[0].ip];
      LookedUp(Addrs(ips)) == Answer(t[0].ip, t[0].result, None)
  {
    var ips := [t[4].ip, t[5].ip, t[6].ip, t[0].ip];
    assert Decoded(ips[0]).err.Some? && Decoded(ips[1]).err.Some? && Decoded(ips[2]).err.Some?;
    FourthDecodes(ips);
  }

  lemma FourthDecodes(ips: seq<string>)
    requires |ips| == 4
    requires Decoded(ips[0]).err.Some? && Decoded(ips[1]).err.Some? && Decoded(ips[2]).err.Some?
    requires Decoded(ips[3]).err.None?
    ensures LookedUp(Addrs(ips)) == Answer(ips[3], Decoded(ips[3]).result, None)
  {
    FirstDecodedAt(ips, 0);
    FirstDecodedAt(ips, 1);
    FirstDecodedAt(ips, 2);
    FirstDecodedAt(ips, 3);
    assert ips[0..] == ips;
  }


  /**
   * Three addresses that all fail: the last one's error with the zero
   * Result; in the package's case, code -3 of vector 6.
   */
  lemma ManyInvalid()
    ensures var ips := [TestVectors[4].ip, TestVectors[5].ip, TestVectors[6].ip];
      LookedUp(Addrs(ips)) == Answer(TestVectors[6].ip, Zero, Some(Error(-3, None)))
  {
    TestVectorsDecode();
    ManyInvalidIn(TestVectors);
  }

  /** ManyInvalid for any table whose entries decode as listed. */
  lemma ManyInvalidIn(t: seq<Vector>)
    requires |t| == 7 && forall i :: 0 <= i < |t| ==> Decoded(t[i].ip) == Outcome(t[i].result, t[i].err)
    requires t[4].err.Some? && t[5].err.Some? && t[6].err == Some(Error(-3, None))
    ensures var ips := [t[4].ip, t[5].ip, t[6].ip];
      LookedUp(Addrs(ips)) == Answer(t[6].ip, Zero, Some(Error(-3, None)))
  {
    var ips := [t[4].ip, t[5].ip, t[6].ip];
    assert Decoded(ips[0]).err.Some? && Decoded(ips[1]).err.Some? && Decoded(ips[2]).err == t[6].err;
    AllFailLookup(ips);
  }

  lemma AllFailLookup(ips: seq<string>)
    requires |ips| == 3
    requires Decoded(ips[0]).err.Some? && Decoded(ips[1]).err.Some? && Decoded(ips[2]).err.Some?
    ensures LookedUp(Addrs(ips)) == Answer(ips[2], Zero, Decoded(ips[2]).err)
  {
    FirstDecodedAt(ips, 0);
    FirstDecodedAt(ips, 1);
    FirstDecodedAt(ips, 2);
    assert ips[0..] == ips;
    FailZero(ips[2]);
  }


  /** Decoding text through its four scanned values and their word. */
  lemma DecodedFrom(ip: string, o1: nat, o2: nat, o3: nat, o4: nat, u: bv32, out: Outcome)
    requires o1 < Scan.Uint32Limit && o2 < Scan.Uint32Limit && o3 < Scan.Uint32Limit && o4 < Scan.Uint32Limit
    requires Scan.ScanQuad(ip) == Scan.Quad(o1, o2, o3, o4)
    requires Assemble(Word(o1), Word(o2), Word(o3), Word(o4)) == u && DecodeWord(u) == out
    ensures Decoded(ip) == out
  {
  }

  lemma Vector0Decodes()
    ensures TestVectors[0].ip == "240.3.9.77" && Outcome(TestVectors[0].result, TestVectors[0].err) == Outcome(Result(1971, 12, 9, 1), None)
    ensures Decoded("240.3.9.77") == Outcome(Result(1971, 12, 9, 1), None)
  {
    Vector0Text();
    Vector0Assemble();
    Vector0Word();
    DecodedFrom("240.3.9.77", 240, 3, 9, 77, 0xf003_094d, Outcome(Result(1971, 12, 9, 1), None));
  }

  lemma Vector1Decodes()
    ensures TestVectors[1].ip == "240.15.10.108" && Outcome(TestVectors[1].result, TestVectors[1].err) == Outcome(Result(1972, 6, 10, 1), None)
    ensures Decoded("240.15.10.108") == Outcome(Result(1972, 6, 10, 1), None)
  {
    Vector1Text();
    Vector1Assemble();
    Vector1Word();
    DecodedFrom("240.15.10.108", 240, 15, 10, 108, 0xf00f_0a6c, Outcome(Result(1972, 6, 10, 1), None));
  }

  lemma Vector2Decodes()
    ensures TestVectors[2].ip == "242.18.28.160" && Outcome(TestVectors[2].result, TestVectors[2].err) == Outcome(Result(1993, 12, 28, 0), None)
    ensures Decoded("242.18.28.160") == Outcome(Result(1993, 12, 28, 0), None)
  {
    Vector2Text();
    Vector2Assemble();
    Vector2Word();
    DecodedFrom("242.18.28.160", 242, 18, 28, 160, 0xf212_1ca0, Outcome(Result(1993, 12, 28, 0), None));
  }

  lemma Vector3Decodes()
    ensures TestVectors[3].ip == "255.76.200.237" && Outcome(TestVectors[3].result, TestVectors[3].err) == Outcome(Result(2135, 1, 72, -1), None)
    ensures Decoded("255.76.200.237") == Outcome(Result(2135, 1, 72, -1), None)
  {
    Vector3Text();
    Vector3Assemble();
    Vector3Word();
    DecodedFrom("255.76.200.237", 255, 76, 200, 237, 0xff4c_c8ed, Outcome(Result(2135, 1, 72, -1), None));
  }

  lemma Vector4Decodes()
    ensures TestVectors[4].ip == "127.240.133.76" && Outcome(TestVectors[4].result, TestVectors[4].err) == Fail(-1, None)
    ensures Decoded("127.240.133.76") == Fail(-1, None)
  {
    Vector4Text();
    Vector4Assemble();
    Vector4Word();
    DecodedFrom("127.240.133.76", 127, 240, 133, 76, 0x7ff0_854c, Fail(-1, None));
  }

  lemma Vector5Decodes()
    ensures TestVectors[5].ip == "255.209.76.40" && Outcome(TestVectors[5].result, TestVectors[5].err) == Fail(-2, None)
    ensures Decoded("255.209.76.40") == Fail(-2, None)
  {
    Vector5Text();
    Vector5Assemble();
    Vector5Word();
    DecodedFrom("255.209.76.40", 255, 209, 76, 40, 0xffd1_4c28, Fail(-2, None));
  }

  lemma Vector6Decodes()
    ensures TestVectors[6].ip == "241.179.152.73" && Outcome(TestVectors[6].result, TestVectors[6].err) == Fail(-3, None)
    ensures Decoded("241.179.152.73") == Fail(-3, None)
  {
    Vector6Text();
    Vector6Assemble();
    Vector6Word();
    DecodedFrom("241.179.152.73", 241, 179, 152, 73, 0xf1b3_9849, Fail(-3, None));
  }

  lemma ExampleDecodes()
    ensures Decoded("244.23.35.255") == Outcome(Result(2015, 6, 35, 1), None)
  {
    ExampleText();
    ExampleAssemble();
    ExampleWord();
    DecodedFrom("244.23.35.255", 244, 23, 35, 255, 0xf417_23ff, Outcome(Result(2015, 6, 35, 1), None));
  }

  lemma Vector0Text()
    ensures Scan.ScanQuad("240.3.9.77") == Scan.Quad(240, 3, 9, 77)
  {
    assert "240.3.9.77" == "240" + ("." + ("3" + ("." + ("9" + ("." + "77")))));
    assert Scan.Decimal(240) == "240";
    assert Scan.Decimal(3) == "3";
    assert Scan.Decimal(9) == "9";
    assert Scan.Decimal(77) == "77";
    Scan.ScanQuadNumerals(240, 3, 9, 77, "240", "3", "9", "77");
  }

  lemma Vector0Assemble()
    ensures Assemble(Word(240), Word(3), Word(9), Word(77)) == 0xf003_094d
  {
  }

  lemma Vector0Word()
    ensures DecodeWord(0xf003_094d) == Outcome(Result(1971, 12, 9, 1), None)
  {
    Crc.ChecksumByChunks(0xf003_094d, 0x5499_3f28, 0x369f_9400, 0xc7ca_0000, 0x0100_0000, 0x8000_0000);
    assert Tag(0xf003_094d) == 0xf;
    assert DtaiField(0xf003_094d) == 9;
    assert ActionField(0xf003_094d) == 2;
    assert MonthField(0xf003_094d) == 1;
    FieldsGate(0xf003_094d, 0x80, 9, 2, 11, 1);
  }

  lemma Vector1Text()
    ensures Scan.ScanQuad("240.15.10.108") == Scan.Quad(240, 15, 10, 108)
  {
    assert "240.15.10.108" == "240" + ("." + ("15" + ("." + ("10" + ("." + "108")))));
    assert Scan.Decimal(240) == "240";
    assert Scan.Decimal(15) == "15";
    assert Scan.Decimal(10) == "10";
    assert Scan.Decimal(108) == "108";
    Scan.ScanQuadNumerals(240, 15, 10, 108, "240", "15", "10", "108");
  }

  lemma Vector1Assemble()
    ensures Assemble(Word(240), Word(15), Word(10), Word(108)) == 0xf00f_0a6c
  {
  }

  lemma Vector1Word()
    ensures DecodeWord(0xf00f_0a6c) == Outcome(Result(1972, 6, 10, 1), None)
  {
    Crc.ChecksumByChunks(0xf00f_0a6c, 0x5459_0d38, 0x5686_9c00, 0x164e_0000, 0x0100_0000, 0x8000_0000);
    assert Tag(0xf00f_0a6c) == 0xf;
    assert DtaiField(0xf00f_0a6c) == 10;
    assert ActionField(0xf00f_0a6c) == 2;
    assert MonthField(0xf00f_0a6c) == 7;
    FieldsGate(0xf00f_0a6c, 0x80, 10, 2, 17, 1);
  }

  lemma Vector2Text()
    ensures Scan.ScanQuad("242.18.28.160") == Scan.Quad(242, 18, 28, 160)
  {
    assert "242.18.28.160" == "242" + ("." + ("18" + ("." + ("28" + ("." + "160")))));
    assert Scan.Decimal(242) == "242";
    assert Scan.Decimal(18) == "18";
    assert Scan.Decimal(28) == "28";
    assert Scan.Decimal(160) == "160";
    Scan.ScanQuadNumerals(242, 18, 28, 160, "242", "18", "28", "160");
  }

  lemma Vector2Assemble()
    ensures Assemble(Word(242), Word(18), Word(28), Word(160)) == 0xf212_1ca0
  {
  }

  lemma Vector2Word()
    ensures DecodeWord(0xf212_1ca0) == Outcome(Result(1993, 12, 28, 0), None)
  {
    Crc.ChecksumByChunks(0xf212_1ca0, 0x7588_61f8, 0x1030_fc00, 0x4f7e_0000, 0x0100_0000, 0x8000_0000);
    assert Tag(0xf212_1ca0) == 0xf;
    assert DtaiField(0xf212_1ca0) == 28;
    assert ActionField(0xf212_1ca0) == 0;
    assert MonthField(0xf212_1ca0) == 265;
    FieldsGate(0xf212_1ca0, 0x80, 28, 0, 275, 0);
  }

  lemma Vector3Text()
    ensures Scan.ScanQuad("255.76.200.237") == Scan.Quad(255, 76, 200, 237)
  {
    assert "255.76.200.237" == "255" + ("." + ("76" + ("." + ("200" + ("." + "237")))));
    assert Scan.Decimal(255) == "255";
    assert Scan.Decimal(76) == "76";
    assert Scan.Decimal(200) == "200";
    assert Scan.Decimal(237) == "237";
    Scan.ScanQuadNumerals(255, 76, 200, 237, "255", "76", "200", "237");
  }

  lemma Vector3Assemble()
    ensures Assemble(Word(255), Word(76), Word(200), Word(237)) == 0xff4c_c8ed
  {
  }

  lemma Vector3Word()
    ensures DecodeWord(0xff4c_c8ed) == Outcome(Result(2135, 1, 72, -1), None)
  {
    Crc.ChecksumByChunks(0xff4c_c8ed, 0xa065_2528, 0x7a92_9400, 0x504a_0000, 0x0100_0000, 0x8000_0000);
    assert Tag(0xff4c_c8ed) == 0xf;
    assert DtaiField(0xff4c_c8ed) == 72;
    assert ActionField(0xff4c_c8ed) == 1;
    assert MonthField(0xff4c_c8ed) == 1958;
    FieldsGate(0xff4c_c8ed, 0x80, 72, 1, 1968, -1);
  }

  lemma Vector4Text()
    ensures Scan.ScanQuad("127.240.133.76") == Scan.Quad(127, 240, 133, 76)
  {
    assert "127.240.133.76" == "127" + ("." + ("240" + ("." + ("133" + ("." + "76")))));
    assert Scan.Decimal(127) == "127";
    assert Scan.Decimal(240) == "240";
    assert Scan.Decimal(133) == "133";
    assert Scan.Decimal(76) == "76";
    Scan.ScanQuadNumerals(127, 240, 133, 76, "127", "240", "133", "76");
  }

  lemma Vector4Assemble()
    ensures Assemble(Word(127), Word(240), Word(133), Word(76)) == 0x7ff0_854c
  {
  }

  lemma Vector4Word()
    ensures DecodeWord(0x7ff0_854c) == Fail(-1, None)
  {
    TagGate(0x7ff0_854c);
  }

  lemma Vector5Text()
    ensures Scan.ScanQuad("255.209.76.40") == Scan.Quad(255, 209, 76, 40)
  {
    assert "255.209.76.40" == "255" + ("." + ("209" + ("." + ("76" + ("." + "40")))));
    assert Scan.Decimal(255) == "255";
    assert Scan.Decimal(209) == "209";
    assert Scan.Decimal(76) == "76";
    assert Scan.Decimal(40) == "40";
    Scan.ScanQuadNumerals(255, 209, 76, 40, "255", "209", "76", "40");
  }

  lemma Vector5Assemble()
    ensures Assemble(Word(255), Word(209), Word(76), Word(40)) == 0xffd1_4c28
  {
  }

  lemma Vector5Word()
    ensures DecodeWord(0xffd1_4c28) == Fail(-2, None)
  {
    Crc.ChecksumByChunks(0xffd1_4c28, 0xa9bd_6978, 0x2ab4_bc00, 0x675e_0000, 0x0300_0000, 0xaf00_0000);
    assert Tag(0xffd1_4c28) == 0xf;
    CrcGate(0xffd1_4c28, 0xaf);
  }

  lemma Vector6Text()
    ensures Scan.ScanQuad("241.179.152.73") == Scan.Quad(241, 179, 152, 73)
  {
    assert "241.179.152.73" == "241" + ("." + ("179" + ("." + ("152" + ("." + "73")))));
    assert Scan.Decimal(241) == "241";
    assert Scan.Decimal(179) == "179";
    assert Scan.Decimal(152) == "152";
    assert Scan.Decimal(73) == "73";
    Scan.ScanQuadNumerals(241, 179, 152, 73, "241", "179", "152", "73");
  }

  lemma Vector6Assemble()
    ensures Assemble(Word(241), Word(179), Word(152), Word(73)) == 0xf1b3_9849
  {
  }

  lemma Vector6Word()
    ensures DecodeWord(0xf1b3_9849) == Fail(-3, None)
  {
    Crc.ChecksumByChunks(0xf1b3_9849, 0x4f90_2f68, 0x7617_b400, 0xf0da_0000, 0x0100_0000, 0x8000_0000);
    assert Tag(0xf1b3_9849) == 0xf;
    assert ActionField(0xf1b3_9849) == 3;
    ActionGate(0xf1b3_9849, 0x80, 3);
  }

  lemma ExampleText()
    ensures Scan.ScanQuad("244.23.35.255") == Scan.Quad(244, 23, 35, 255)
  {
    assert "244.23.35.255" == "244" + ("." + ("23" + ("." + ("35" + ("." + "255")))));
    assert Scan.Decimal(244) == "244";
    assert Scan.Decimal(23) == "23";
    assert Scan.Decimal(35) == "35";
    assert Scan.Decimal(255) == "255";
    Scan.ScanQuadNumerals(244, 23, 35, 255, "244", "23", "35", "255");
  }

  lemma ExampleAssemble()
    ensures Assemble(Word(244), Word(23), Word(35), Word(255)) == 0xf417_23ff
  {
  }

  lemma ExampleWord()
    ensures DecodeWord(0xf417_23ff) == Outcome(Result(2015, 6, 35, 1), None)
  {
    Crc.ChecksumByChunks(0xf417_23ff, 0x15db_9408, 0xe4ca_0400, 0x0002_0000, 0x0100_0000, 0x8000_0000);
    assert Tag(0xf417_23ff) == 0xf;
    assert DtaiField(0xf417_23ff) == 35;
    assert ActionField(0xf417_23ff) == 2;
    assert MonthField(0xf417_23ff) == 523;
    FieldsGate(0xf417_23ff, 0x80, 35, 2, 533, 1);
  }
}
