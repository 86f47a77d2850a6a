# dnsleapsecs in Dafny

dnsleapsecs reads the current leap-second announcement from DNS. The announcement is a
32-bit IPv4 address with this layout:

- a class-E tag `1111` in bits 31..28;
- an 11-bit month offset, `(year - 1971) * 12 + month - 11`, so offset 0 is November 1971 and offset 2047 is June 2142 (the comment in `dnsleapsecs.go` calls it the count of months since December 1971, one more than the formula and the decoder give; the model follows the code);
- a 2-bit action (keep, subtract one from or add one to dTAI at the end of that month; 3 is illegal);
- a 7-bit dTAI (the seconds UTC is behind TAI);
- a CRC-8 over the 28 bits below the tag.

This project models the decoder twice: the Go package (`dnsleapsecs.go`) and the C
reference (`cmd/dnsleapsecs/_dnsleapsecs.c`). It proves what each promises and that the
two agree when both read the text with the same scanner.

- `wrappers.dfy` (`Wrappers`): the `Option` type. It stands for Go's nil and non-nil pointers.
- `scan.dfy` (`Scan`): the dotted-quad scanner both decoders start with.
  - It reads four runs of decimal digits separated by `.`.
  - A value that does not fit 32 bits fails its conversion.
  - Octets are not range-checked.
  - The count of successful conversions is reported, as Go's `Sscanf` does. The C decoder only compares the count with 4.
  - Formatted numerals scan back to their values.
- `crc.dfy` (`Crc`): the CRC-8 shift register, stepped one bit at a time.
  - Only the 28 message bits count.
  - The register is linear over XOR.
  - Its steps can be undone on the top byte.
  - Together these give: for a fixed upper 24 bits, at most one check octet passes.
- `leapsecs.dfy` (`LeapSecs`): the Go package.
  - `Result`, `Error` (a code plus an optional cause) and `crc8` as a loop method.
  - `Decode` as step-by-step methods, proved against the spec function `Decoded`.
  - `LookupHost`, with the resolver's answer as an input value, proved against `LookedUp`.
  - The `TestVectors` table and the package's tests.
- `leapsecs_c.dfy` (`LeapSecsC`): the C reference.
  - `crc8(inp, len)` for any length from 1 to 32.
  - `decode_leapsecond`, whose output pointers are nullable `Cell` objects. The model allows aliasing: each non-null cell ends up holding the last output written to it.
  - Agreement with the Go decoder on every input, under the scanner both models share.
  - The C `test_vectors` table.

## Model

| member | source | states |
|---|---|---|
| LeapSecs.Crc8 | dnsleapsecs.go:246-256 | The 28-iteration loop leaves, in the top byte of the register, the CRC-8 of the word's low 28 bits: the seed XOR `u << 4`, shifted with the generator 0x12f aligned at bit 31 |
| Crc.Shift | dnsleapsecs.go:250-253 | One loop turn: the register shifts left and takes the generator when its top bit was set |
| Crc.ChecksumByte | dnsleapsecs.go:255 | Both checksums (28 bits, and `len` bits) are below 256 |
| Crc.ChecksumLow28 | dnsleapsecs.go:248 | Words that agree on their low 28 bits have the same checksum: the tag nibble is shifted out |
| Crc.RunXor | dnsleapsecs.go:249-254 | Any number of iterations distributes over XOR of registers |
| Crc.RunUnrun | dnsleapsecs.go:249-254 | For registers with only the top byte set, undoing n iterations then redoing them gives the register back |
| Crc.UnrunRun | dnsleapsecs.go:249-254 | For registers with only the top byte set, running n iterations then undoing them gives the register back |
| Crc.ChecksumSplit | dnsleapsecs.go:246-256 | With the low byte clear in `m`, the checksum of `m` ORed with a byte `c` is the checksum of `m` XOR a fixed image of `c` |
| Crc.TailInjective | dnsleapsecs.go:246-256 | That image of the low byte is injective |
| Crc.CheckByteUnique | dnsleapsecs.go:246-256 | Two low bytes under the same upper 24 bits with equal checksums are equal |
| Crc.ChecksumBits28 | cmd/dnsleapsecs/_dnsleapsecs.c:128-140 | The general routine over 28 bits is the Go checksum |
| LeapSecs.ExampleChecksum | dnsleapsecs_test.go:123-130 | The checksum of 0x041723ff is 0x80 |
| LeapSecs.Decode | dnsleapsecs.go:183-237 | Returns exactly `Decoded(ip)`: scan, OR the four values into a wrapping 32-bit word, then the checks and fields of DecodeBits |
| LeapSecs.DecodeBits | dnsleapsecs.go:196-236 | On an assembled word, returns exactly `DecodeWord(u)`: the tag, checksum and action checks in order, the fields shifted out, and the switch on the action |
| LeapSecs.GateOrder | dnsleapsecs.go:196-219 | Each error code happens if and only if its own check fails and all earlier ones pass: -1 for a missing tag, -2 for checksum ≠ 0x80, -3 for action 3, no error otherwise. No gate failure wraps a cause, and all carry the zero Result |
| LeapSecs.ScanGate | dnsleapsecs.go:185-189 | Text that does not scan to four values fails with -1 wrapping the scanner's error. Only such text yields a wrapped cause. Every failed decode carries the zero Result |
| LeapSecs.SuccessFields | dnsleapsecs.go:207-236 | On success: year in 1971..2142, month in 1..12, dTAI from bits 14..8 (so in 0..127), an action below 3 and its delta. The month offset of (year, month) is the word's month field |
| LeapSecs.Actions | dnsleapsecs.go:227-234 | Actions 0, 1 and 2 map to deltas 0, -1 and +1, each in both directions |
| LeapSecs.HorizonOffset | dnsleapsecs.go:214-224 | A decoded horizon has a month in 1..12, and the documented formula gives its offset back |
| LeapSecs.OffsetHorizon | dnsleapsecs.go:30-31 | For month in 1..12, the year and month come back from `(year - 1971) * 12 + month - 11` |
| LeapSecs.DecodesHorizon | dnsleapsecs.go:214-224 | A passing word that carries the offset of a year and a month (month 1..12, offset 0..2047) decodes to exactly that year and month |
| LeapSecs.HorizonRange | dnsleapsecs.go:78 | The 11-bit offsets give years 1971..2142: offset 0 is November 1971 and offset 2047 is June 2142 |
| LeapSecs.OneCheckOctet | dnsleapsecs.go:191-204 | Whatever the first three values, at most one fourth value below 256 passes the checksum check |
| LeapSecs.TestVectorsDecode | dnsleapsecs.go:258-271 | Each of the seven table entries decodes to exactly its listed Result and error code |
| LeapSecs.DocumentedExample | dnsleapsecs.go:46-58 | "244.23.35.255" decodes to June 2015, dTAI 35, delta +1 |
| LeapSecs.LookupHost | dnsleapsecs.go:152-175 | Returns exactly `LookedUp`: a resolver failure gives ("", zero Result, code -10 wrapping it); an empty list gives ("", zero Result, -11); otherwise the first address that decodes. The addresses decoded form a prefix of the list that ends at the returned address, and it stops early only on a success |
| LeapSecs.TryAddrs | dnsleapsecs.go:166-174 | The loop decodes addresses in order and breaks at the first success. Its answer is `FirstDecoded(ips)`, and it stops before the end only on a success |
| LeapSecs.FirstSuccess | dnsleapsecs.go:166-174 | If the first k addresses fail and address k decodes, the answer is address k with its Result and no error |
| LeapSecs.AllFail | dnsleapsecs.go:166-174 | If no address decodes, the answer is the last address with its own error |
| LeapSecs.FailZero | dnsleapsecs.go:186-219 | A failed decode carries the zero Result |
| LeapSecs.LaterIgnored | dnsleapsecs.go:168-173 | Once an address decodes, appending more addresses does not change the answer |
| LeapSecs.TestVectorsLookup | dnsleapsecs_test.go:27-45 | Each table entry, as the resolver's only address, comes back from LookupHost with its Result and error |
| LeapSecs.ManyDecode | dnsleapsecs_test.go:47-65 | Vectors 4, 5 and 6 (which fail) followed by vector 0 give vector 0 and its Result, with no error |
| LeapSecs.ManyInvalid | dnsleapsecs_test.go:89-96 | Vectors 4, 5 and 6 alone give the last address, the zero Result and code -3 |
| Scan.ScanQuad | dnsleapsecs.go:186-189 | Four conversions of digit runs separated by '.', text after the fourth ignored: either four values, each below 2^32, or a mismatch counting fewer than four conversions |
| Scan.ScanUint | dnsleapsecs.go:186 | One conversion yields a value below 2^32, consumes at least one character, and stops at a non-digit |
| Scan.ScanQuadShort | dnsleapsecs.go:186-187 | One to three dotted numerals followed by neither a digit nor a '.' are a mismatch whose count is the number of values |
| Scan.ScanQuadNoDigit | dnsleapsecs.go:186-187 | Text that does not start with a digit converts nothing |
| Scan.ScanUintOverflow | dnsleapsecs.go:186 | A numeral of 2^32 or more fails its conversion, as Go's `%d` into a `uint32` does |
| Scan.ScanQuadOverflow | dnsleapsecs.go:186-187 | A first numeral of 2^32 or more converts nothing, whatever follows |
| Scan.ScanQuadDotted | dnsleapsecs.go:185-186 | The dotted text of four 32-bit values, followed by any non-digit text, scans to those four values |
| Scan.DecimalRoundTrip | dnsleapsecs.go:186 | The value of a number's decimal numeral is the number |
| Scan.ScanUintDecimal | dnsleapsecs.go:186 | A conversion reads a value's numeral back and stops at the next non-digit |
| LeapSecsC.Crc8 | cmd/dnsleapsecs/_dnsleapsecs.c:128-140 | The `len`-iteration loop (1 ≤ len ≤ 32) returns the CRC-8 of the low `len` bits, a value below 256 |
| LeapSecsC.DecodeLeapsecond | cmd/dnsleapsecs/_dnsleapsecs.c:152-229 | Returns the code of `Decoded(ip)`. Each non-null output ends up holding the value of the last output that points to it. No other memory changes. NULL outputs do not affect the return code or the other outputs |
| LeapSecsC.DecodeInto | cmd/dnsleapsecs/_dnsleapsecs.c:183-228 | With the outputs zeroed: a failure leaves them zero, a success writes the fields |
| LeapSecsC.CheckWord | cmd/dnsleapsecs/_dnsleapsecs.c:183-208 | A nonzero code is a failure that leaves every output zero. Code 0 means the action is below 3 and gives the outputs from `mn` |
| LeapSecsC.CheckMasked | cmd/dnsleapsecs/_dnsleapsecs.c:186-208 | After the tag check and the 28-bit mask: -2 for a bad checksum, -3 for action 3, else the fields |
| LeapSecsC.SplitFields | cmd/dnsleapsecs/_dnsleapsecs.c:193-208 | The shifted-out dTAI, action and month offset plus 10 are the word's fields, and action 3 gives -3 |
| LeapSecsC.Store | cmd/dnsleapsecs/_dnsleapsecs.c:212-227 | Each non-null pointer gets its value in the order year, month, dtai, delta (the delta chosen by the action); aliased pointers keep the last write |
| LeapSecsC.WordAgrees | cmd/dnsleapsecs/_dnsleapsecs.c:183-228 | On every 32-bit word the C decoder returns the Go decoder's error code (0 on success) and the fields of its Result |
| LeapSecsC.Agrees | cmd/dnsleapsecs/_dnsleapsecs.c:152-229 | On every text, read by the scanner both models share, the C report equals the Go outcome seen as a code plus four outputs |
| LeapSecsC.Masked | cmd/dnsleapsecs/_dnsleapsecs.c:186-190 | Masking the word to 28 bits keeps the three fields, and the 28-bit checksum of the masked word is the Go checksum |
| LeapSecsC.Codes | cmd/dnsleapsecs/_dnsleapsecs.c:159-208 | The code is 0, -1, -2 or -3. Every nonzero code leaves all outputs zero. -1, -2 and -3 occur exactly where the Go decoder fails with those codes |
| LeapSecsC.TestVectorsDecode | cmd/dnsleapsecs/_dnsleapsecs.c:268-284 | Each of the seven `test_vectors` entries decodes to its listed error, year, month, tai and delta, which the harness asserts |
| LeapSecsC.SameTable | cmd/dnsleapsecs/_dnsleapsecs.c:275-283 | The C table lists the Go table's addresses in the same order, with the code in place of the error |

## Left out

- Real DNS resolution is not modelled. `Fetch` uses `net.DefaultResolver`, and `query_leapsecond` uses `getaddrinfo`/`getnameinfo`. `LookupHost` takes the resolver's answer, a failure or a list of addresses, as an input.
- `Lookup` and `Fetch` are not modelled: they only fix the host name and the resolver.
- The `context` argument is not modelled, and neither are the panics for a nil context or a nil resolver.
- The C `query_leapsecond` loop is not modelled.
- The scanner models only "digits, dot, digits, dot, digits, dot, digits".
  - `Sscanf`'s and `sscanf`'s leading whitespace and signs are not handled.
  - The reported scan error is only the count of conversions.
  - `%u` values above 2^32 - 1 fail here. C's `sscanf` may wrap or saturate them instead (its behaviour is undefined).
- LeapSecsC.Agrees: holds under the scanner both models share. The real decoders differ on "+240.3.9.77", which C's `%u` reads as 240 (code 0, December 1971) and Go's `%d` into a `uint32` refuses (code -1), and on values of 2^32 or more, which Go reports as an overflow and C wraps; the model gives -1 to both there.
- Error presentation is not modelled: `Error.Error`, the reason strings and `Unwrap`. An error is a code plus an optional opaque cause.
- The test harnesses are not modelled: `cmd/dnsleapsecs/dnsleapsecs.go`, the C `main`, and the fake resolver of the Go tests. Their expectations are stated as lemmas over the spec functions.
- LeapSecsC.DecodeLeapsecond: the `Cell` objects stand for `int` pointers. Pointers into the middle of other objects, and overlap with the input string, are not modelled.
- LeapSecsC.Crc8: lengths outside 1..32 are excluded by its precondition, because the C shift by `32 - len` is undefined there. The decoder only uses 28.
- LeapSecs.SuccessFields states the delta as `DeltaOf` of the action. The correspondence of each action to its delta is the separate lemma `LeapSecs.Actions`.
- There is no encoder. The model does not prove that every horizon, action and dTAI has a check octet that makes the checksum 0x80. It proves only that at most one octet does (`LeapSecs.OneCheckOctet`).
