/** Two decisions of heka/cmd/get-clients/main.go that are plain
    arithmetic: the HTTP Range header with which `getClientRecords`
    fetches one message, and the worker count that `main` takes from the
    `-workers` flag. */
module GetClients {
  import opened Wrappers
  import opened Digits
  import opened GoNumbers
  import opened GoStrings
  import opened OffsetIndex

  // ----- The Range header -----

  /** `o.Offset+o.Length-1`, evaluated in `uint32`. */
  function RangeEnd(loc: MessageLocation): (e: Uint32)
    ensures 1 <= loc.length && loc.offset + loc.length - 1 <= MaxUint32 ==>
              e == loc.offset + loc.length - 1
  {
    AddUint32(AddUint32(loc.offset, loc.length), -1)
  }

  /** `fmt.Sprintf("bytes=%d-%d", o.Offset, o.Offset+o.Length-1)`. */
  function RangeHeader(loc: MessageLocation): string {
    "bytes=" + Decimal(loc.offset) + "-" + Decimal(RangeEnd(loc))
  }

  /** The byte range a `bytes=first-last` header asks for, as section 2.1
      of RFC 7233 reads it: first-byte-pos and last-byte-pos, both
      inclusive. */
  function ReadRange(h: string): Option<(nat, nat)> {
    if |h| < 6 || h[..6] != "bytes=" then None
    else
      var spec := Split(h[6..], '-');
      if |spec| == 2 && |spec[0]| > 0 && |spec[1]| > 0 && AllDigits(spec[0]) && AllDigits(spec[1])
      then Some((DigitsValue(spec[0]), DigitsValue(spec[1])))
      else None
  }

  /** The header names the location's first byte and the computed last
      byte: reading it back gives `(Offset, RangeEnd)`. */
  lemma RangeHeaderReads(loc: MessageLocation)
    ensures ReadRange(RangeHeader(loc)) == Some((loc.offset, RangeEnd(loc)))
  {
    var a, b := Decimal(loc.offset), Decimal(RangeEnd(loc));
    var h := RangeHeader(loc);
    HeaderParts(a, b);
    NumbersSplit(a, b);
    PaddedValue(loc.offset, 1);
    PaddedValue(RangeEnd(loc), 1);
  }

  /** `bytes=a-b` is the prefix followed by `a` and `b` joined with `-`. */
  lemma HeaderParts(a: string, b: string)
    ensures |"bytes=" + a + "-" + b| >= 6
    ensures ("bytes=" + a + "-" + b)[..6] == "bytes="
    ensures ("bytes=" + a + "-" + b)[6..] == Join([a, b], '-')
  {
    var h := "bytes=" + a + "-" + b;
    assert h == "bytes=" + (a + "-" + b);
    assert Join([a, b], '-') == a + ['-'] + Join([b], '-');
  }

  /** Two digit strings joined with `-` split back into the two. */
  lemma NumbersSplit(a: string, b: string)
    requires AllDigits(a) && AllDigits(b)
    ensures Split(Join([a, b], '-'), '-') == [a, b]
  {
    NoDash(a);
    NoDash(b);
    JoinSplit([a, b], '-');
  }

  lemma NoDash(s: string)
    requires AllDigits(s)
    ensures '-' !in s
  {
  }

  /** A message that fits below 2^32 is asked for byte for byte: the
      range covers exactly `Length` bytes starting at `Offset`. */
  lemma RangeCoversMessage(loc: MessageLocation)
    requires 1 <= loc.length && loc.offset + loc.length <= MaxUint32 + 1
    ensures ReadRange(RangeHeader(loc)) == Some((loc.offset, loc.offset + loc.length - 1))
    ensures RangeEnd(loc) - loc.offset + 1 == loc.length
  {
    RangeHeaderReads(loc);
  }

  /** Otherwise the `uint32` sum wraps: a last byte before the first. A
      zero-length message at offset 0 asks for bytes 0 to 4294967295. */
  lemma RangeWraps(loc: MessageLocation)
    requires loc.length == 0 || loc.offset + loc.length > MaxUint32 + 1
    ensures RangeEnd(loc) < loc.offset || (loc.offset == 0 && RangeEnd(loc) == MaxUint32)
    ensures loc.offset == 0 && loc.length == 0 ==>
              ReadRange(RangeHeader(loc)) == Some((0, MaxUint32))
  {
    var o: int, l: int := loc.offset, loc.length;
    if l == 0 {
      assert AddUint32(o, l) == o;
      if o == 0 {
        ModNegative(-1);
        RangeHeaderReads(loc);
      } else {
        assert AddUint32(o, -1) == o - 1;
      }
    } else {
      ModOnce(o + l);
      assert AddUint32(o, l) == o + l - 0x1_0000_0000;
      assert AddUint32(o + l - 0x1_0000_0000, -1) == o + l - 0x1_0000_0000 - 1;
    }
  }

  /** Proof scaffolding for `RangeWraps`: one wrap of a sum below 2^33. */
  lemma ModOnce(x: int)
    requires 0x1_0000_0000 <= x < 2 * 0x1_0000_0000
    ensures x % 0x1_0000_0000 == x - 0x1_0000_0000
  {
    assert x == 0x1_0000_0000 * 1 + (x - 0x1_0000_0000);
  }

  /** Proof scaffolding for `RangeWraps`: the wrap of a negative value. */
  lemma ModNegative(x: int)
    requires -0x1_0000_0000 <= x < 0
    ensures x % 0x1_0000_0000 == x + 0x1_0000_0000
  {
    assert x == 0x1_0000_0000 * -1 + (x + 0x1_0000_0000);
  }

  // ----- The worker count -----

  /** What `main` does with the flag: run with that many workers (warning
      first when it had to correct the flag), or exit with a status. The
      count is a Go `int`, unbounded here; `WorkerCount`'s ensures carries
      the bound `1 <= count < MaxUint32` its guard establishes. */
  datatype WorkerChoice = Workers(count: int, warned: bool) | TooMany(status: int)

  /** Lines 89-97 as written: every value below `math.MaxUint32` is used
      as it is, so the zero test comes too late to catch 0. */
  function WorkersAsWritten(flag: Uint64): WorkerChoice {
    if flag < MaxUint32 then Workers(flag, false)
    else if flag == 0 then Workers(1, true)
    else TooMany(8)
  }

  /** As written, the zero-worker branch is dead: a flag of 0 starts no
      worker, so no client is fetched; `main` and `saveRecords` block on
      their channels until the Go runtime's deadlock check aborts the
      program. */
  lemma ZeroWorkersAsWritten()
    ensures WorkersAsWritten(0) == Workers(0, false)
    ensures forall flag: Uint64 :: !WorkersAsWritten(flag).Workers? || !WorkersAsWritten(flag).warned
  {
  }

  /** Lines 89-97 with the zero test first, as the message "Cannot run
      with zero workers. Using 1." intends. */
  function WorkerCount(flag: Uint64): (r: WorkerChoice)
    ensures r.Workers? ==> 1 <= r.count < MaxUint32
    ensures r.Workers? && r.warned <==> flag == 0
    ensures r.TooMany? <==> flag >= MaxUint32
    ensures r.TooMany? ==> r.status == 8
    ensures 0 < flag < MaxUint32 ==> r == Workers(flag, false)
  {
    if flag == 0 then Workers(1, true)
    else if flag < MaxUint32 then Workers(flag, false)
    else TooMany(8)
  }

  /** The two agree on every flag but 0. */
  lemma WorkerCountAgrees(flag: Uint64)
    ensures flag != 0 <==> WorkerCount(flag) == WorkersAsWritten(flag)
  {
  }
}
