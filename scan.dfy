/**
 * The dotted-quad scanner both decoders start with: Go's
 * `fmt.Sscanf(ip, "%d.%d.%d.%d", ...)` into `uint32` variables and C's
 * `sscanf(ip, "%u.%u.%u.%u", ...)`.  Each conversion reads a non-empty run of
 * decimal digits; the runs are separated by '.'; text after the fourth run is
 * ignored; a run whose value does not fit in 32 bits is a failed conversion.
 * The scanner reports how many conversions succeeded, as Go's Sscanf does
 * (C's sscanf returns EOF rather than 0 on empty text; the C decoder only
 * compares the count with 4, so it does not depend on the difference).
 * Octets are NOT range-checked: "300.1.2.3" scans to 300.
 */
module Scan {
  import opened Wrappers

  predicate IsDigit(c: char) { '0' <= c <= '9' }

  predicate AllDigits(s: string) { forall i :: 0 <= i < |s| ==> IsDigit(s[i]) }

  function DigitValue(c: char): (d: nat)
    requires IsDigit(c)
    ensures d < 10
  {
    c as int - '0' as int
  }

  function DigitChar(d: nat): (c: char)
    requires d < 10
    ensures IsDigit(c) && DigitValue(c) == d
  {
    ('0' as int + d) as char
  }

  /** Length of the run of decimal digits that starts `s`. */
  function DigitRun(s: string): (n: nat)
    ensures n <= |s|
    ensures AllDigits(s[..n])
    ensures n < |s| ==> !IsDigit(s[n])
  {
    if s != [] && IsDigit(s[0]) then 1 + DigitRun(s[1..]) else 0
  }

  /** The value of a string of decimal digits, most significant digit first. */
  function DecimalValue(ds: string): nat
    requires AllDigits(ds)
  {
    if ds == [] then 0 else DecimalValue(ds[..|ds| - 1]) * 10 + DigitValue(ds[|ds| - 1])
  }

  /** The shortest decimal numeral of `n` (the inverse of DecimalValue). */
  function Decimal(n: nat): (s: string)
    ensures s != [] && AllDigits(s)
  {
    if n < 10 then [DigitChar(n)] else Decimal(n / 10) + [DigitChar(n % 10)]
  }

  const Uint32Limit: nat := 0x1_0000_0000

  /**
   * One unsigned conversion: the value of the leading digit run and the text
   * after it, or None when there is no digit or the value overflows 32 bits.
   */
  function ScanUint(s: string): (r: Option<(nat, string)>)
    ensures r.Some? ==> r.value.0 < Uint32Limit && |r.value.1| < |s|
    ensures r.Some? ==> r.value.1 == [] || !IsDigit(r.value.1[0])
  {
    var k := DigitRun(s);
    if k == 0 then None
    else
      var v := DecimalValue(s[..k]);
      if v < Uint32Limit then Some((v, s[k..])) else None
  }

  /**
   * Up to `k` conversions separated by '.'; the values converted before the
   * first failure (a missing digit run, an overflow or a missing '.').
   */
  function ScanUints(s: string, k: nat): (vals: seq<nat>)
    ensures |vals| <= k
    ensures forall i :: 0 <= i < |vals| ==> vals[i] < Uint32Limit
  {
    if k == 0 then []
    else
      match ScanUint(s)
      case None => []
      case Some((v, rest)) =>
        if k == 1 then [v]
        else if rest != [] && rest[0] == '.' then [v] + ScanUints(rest[1..], k - 1)
        else [v]
  }

  /** What a four-conversion scan yields: the four values, or how many matched. */
  datatype Scanned = Quad(o1: nat, o2: nat, o3: nat, o4: nat) | Mismatch(matched: nat)

  function ScanQuad(s: string): (r: Scanned)
    ensures r.Mismatch? ==> r.matched < 4
    ensures r.Quad? ==> r.o1 < Uint32Limit && r.o2 < Uint32Limit && r.o3 < Uint32Limit && r.o4 < Uint32Limit
  {
    var vals := ScanUints(s, 4);
    if |vals| == 4 then Quad(vals[0], vals[1], vals[2], vals[3]) else Mismatch(|vals|)
  }

  /** Numerals of `vals` separated by '.', most significant first. */
  function Join(vals: seq<nat>): string
    requires vals != []
  {
    if |vals| == 1 then Decimal(vals[0]) else Decimal(vals[0]) + ("." + Join(vals[1..]))
  }

  /** The dotted-quad text of four values. */
  function Dotted(o1: nat, o2: nat, o3: nat, o4: nat): string
  {
    Join([o1, o2, o3, o4])
  }

  lemma {:induction false} DecimalRoundTrip(n: nat)
    ensures DecimalValue(Decimal(n)) == n
  {
    if n >= 10 {
      var s := Decimal(n);
      assert s[..|s| - 1] == Decimal(n / 10);
      DecimalRoundTrip(n / 10);
    }
  }

  lemma {:induction false} DigitRunAppend(ds: string, t: string)
    requires AllDigits(ds)
    requires t == [] || !IsDigit(t[0])
    ensures DigitRun(ds + t) == |ds|
  {
    if ds != [] {
      assert (ds + t)[1..] == ds[1..] + t;
      DigitRunAppend(ds[1..], t);
    }
  }

  /** Scanning the numeral of a 32-bit value gives that value back and stops at the next non-digit. */
  lemma ScanUintDecimal(v: nat, t: string)
    requires v < Uint32Limit
    requires t == [] || !IsDigit(t[0])
    ensures ScanUint(Decimal(v) + t) == Some((v, t))
  {
    var ds := Decimal(v);
    DigitRunAppend(ds, t);
    assert (ds + t)[..|ds|] == ds;
    assert (ds + t)[|ds|..] == t;
    DecimalRoundTrip(v);
  }

  /** A conversion followed by '.' contributes its value; the scan goes on after the '.'. */
  lemma ScanUintsDot(s: string, k: nat, v: nat, rest: string)
    requires k >= 2
    requires ScanUint(s) == Some((v, "." + rest))
    ensures ScanUints(s, k) == [v] + ScanUints(rest, k - 1)
  {
    assert ("." + rest)[1..] == rest;
  }

  /** Scanning joined numerals recovers the values, whatever non-digit text follows. */
  lemma {:induction false} ScanJoin(vals: seq<nat>, t: string)
    requires vals != []
    requires forall i :: 0 <= i < |vals| ==> vals[i] < Uint32Limit
    requires t == [] || !IsDigit(t[0])
    ensures ScanUints(Join(vals) + t, |vals|) == vals
  {
    if |vals| == 1 {
      ScanUintDecimal(vals[0], t);
    } else {
      ScanJoin(vals[1..], t);
      ScanJoinStep(vals, t, |vals|);
    }
  }

  /** The step of ScanJoin: the first numeral and its '.', then the rest as scanned. */
  lemma ScanJoinStep(vals: seq<nat>, t: string, k: nat)
    requires |vals| >= 2 && k >= 2 && vals[0] < Uint32Limit
    requires ScanUints(Join(vals[1..]) + t, k - 1) == vals[1..]
    ensures ScanUints(Join(vals) + t, k) == vals
  {
    var d := Decimal(vals[0]);
    var rest := Join(vals[1..]) + t;
    assert Join(vals) + t == d + ("." + rest);
    ScanUintDecimal(vals[0], "." + rest);
    ScanUintsDot(d + ("." + rest), k, vals[0], rest);
    assert [vals[0]] + vals[1..] == vals;
  }

  /** Scanning dotted-quad text recovers the four values, whatever non-digit text follows. */
  lemma ScanQuadDotted(o1: nat, o2: nat, o3: nat, o4: nat, t: string)
    requires o1 < Uint32Limit && o2 < Uint32Limit && o3 < Uint32Limit && o4 < Uint32Limit
    requires t == [] || !IsDigit(t[0])
    ensures ScanQuad(Dotted(o1, o2, o3, o4) + t) == Quad(o1, o2, o3, o4)
  {
    ScanJoin([o1, o2, o3, o4], t);
  }

  /** The dotted-quad text as its four numerals joined by dots. */
  lemma DottedParts(o1: nat, o2: nat, o3: nat, o4: nat)
    ensures Dotted(o1, o2, o3, o4) == Decimal(o1) + ("." + (Decimal(o2) + ("." + (Decimal(o3) + ("." + Decimal(o4))))))
  {
    assert [o1, o2, o3, o4][1..] == [o2, o3, o4];
    assert [o2, o3, o4][1..] == [o3, o4];
    assert [o3, o4][1..] == [o4];
    assert Join([o4]) == Decimal(o4);
    assert Join([o3, o4]) == Decimal(o3) + ("." + Join([o4]));
    assert Join([o2, o3, o4]) == Decimal(o2) + ("." + Join([o3, o4]));
    assert Join([o1, o2, o3, o4]) == Decimal(o1) + ("." + Join([o2, o3, o4]));
  }

  /** Four numerals joined by dots scan to their four values. */
  lemma ScanQuadNumerals(o1: nat, o2: nat, o3: nat, o4: nat, s1: string, s2: string, s3: string, s4: string)
    requires o1 < Uint32Limit && o2 < Uint32Limit && o3 < Uint32Limit && o4 < Uint32Limit
    requires Decimal(o1) == s1 && Decimal(o2) == s2 && Decimal(o3) == s3 && Decimal(o4) == s4
    ensures ScanQuad(s1 + ("." + (s2 + ("." + (s3 + ("." + s4)))))) == Quad(o1, o2, o3, o4)
  {
    DottedParts(o1, o2, o3, o4);
    ScanQuadDotted(o1, o2, o3, o4, "");
    assert Dotted(o1, o2, o3, o4) + "" == Dotted(o1, o2, o3, o4);
  }

  /** A numeral whose value does not fit in 32 bits fails its conversion. */
  lemma ScanUintOverflow(v: nat, t: string)
    requires v >= Uint32Limit
    requires t == [] || !IsDigit(t[0])
    ensures ScanUint(Decimal(v) + t) == None
  {
    var ds := Decimal(v);
    DigitRunAppend(ds, t);
    assert (ds + t)[..|ds|] == ds;
    DecimalRoundTrip(v);
  }

  /**
   * Fewer joined numerals than conversions asked for, followed by text that
   * is neither a digit nor a '.': the scan stops after those values.
   */
  lemma {:induction false} ScanJoinShort(vals: seq<nat>, t: string, k: nat)
    requires vals != [] && |vals| < k
    requires forall i :: 0 <= i < |vals| ==> vals[i] < Uint32Limit
    requires t == [] || (!IsDigit(t[0]) && t[0] != '.')
    ensures ScanUints(Join(vals) + t, k) == vals
  {
    if |vals| == 1 {
      ScanUintDecimal(vals[0], t);
    } else {
      ScanJoinShort(vals[1..], t, k - 1);
      ScanJoinStep(vals, t, k);
    }
  }

  /** One to three dotted numerals and then no '.': a mismatch that counts the values converted. */
  lemma ScanQuadShort(vals: seq<nat>, t: string)
    requires 1 <= |vals| <= 3
    requires forall i :: 0 <= i < |vals| ==> vals[i] < Uint32Limit
    requires t == [] || (!IsDigit(t[0]) && t[0] != '.')
    ensures ScanQuad(Join(vals) + t) == Mismatch(|vals|)
  {
    ScanJoinShort(vals, t, 4);
  }

  /** Text that does not start with a digit converts nothing. */
  lemma ScanQuadNoDigit(s: string)
    requires s == [] || !IsDigit(s[0])
    ensures ScanQuad(s) == Mismatch(0)
  {
  }

  /** A first numeral that overflows 32 bits converts nothing, whatever follows it. */
  lemma ScanQuadOverflow(v: nat, t: string)
    requires v >= Uint32Limit
    requires t == [] || !IsDigit(t[0])
    ensures ScanQuad(Decimal(v) + t) == Mismatch(0)
  {
    ScanUintOverflow(v, t);
  }
}
