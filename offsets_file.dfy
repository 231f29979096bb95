/** `readOffsets` (heka/cmd/get-clients/main.go): the offsets file is
    read line by line, each line split on tabs into
    `key, clientId, offset, length`, and every line added to a fresh
    `OffsetCache`; the first bad line ends the read with an error and
    no cache. The file arrives as its lines (or as a failure to open
    it); `bufio.Scanner`'s line splitting is not part of this model. */
module OffsetsFile {
  import opened Wrappers
  import opened Digits
  import opened GoNumbers
  import opened GoStrings
  import opened OffsetIndex

  const Tab: char := '\t'

  /** `readOffsets`'s errors: the `os.Open` failure, a line with the
      wrong number of fields (its 1-based number and the count found),
      or the error `makeInt` returned, passed on as it is. */
  datatype OffsetsError = OpenFailed | FieldCount(lineNum: nat, found: nat) | BadInt(cause: IntError)

  /** What one line contributes: an `Add` call, or the error that stops
      the read. */
  datatype LineResult = Entry(add: Addition) | LineFailed(err: OffsetsError)

  /** Lines 321-334 for the line numbered `lineNum`: four fields, then the
      offset, then the length; the first failure wins. */
  function ParseLine(line: string, lineNum: nat): LineResult {
    var pieces := Split(line, Tab);
    if |pieces| != 4 then LineFailed(FieldCount(lineNum, |pieces|))
    else
      var o := MakeInt(pieces[2]);
      if o.1.Some? then LineFailed(BadInt(o.1.value))
      else
        var l := MakeInt(pieces[3]);
        if l.1.Some? then LineFailed(BadInt(l.1.value))
        else Entry((pieces[1], MessageLocation(pieces[0], o.0, l.0)))
  }

  /** Each line's result, the line numbered from 1. */
  function LineResults(lines: seq<string>): (rs: seq<LineResult>)
    ensures |rs| == |lines|
    ensures forall i :: 0 <= i < |lines| ==> rs[i] == ParseLine(lines[i], i + 1)
  {
    seq(|lines|, i requires 0 <= i < |lines| => ParseLine(lines[i], i + 1))
  }

  /** The outcome of reading the lines: every line's `Add` call in file
      order, or the first line's error. */
  datatype Outcome = Loaded(adds: seq<Addition>) | Failed(err: OffsetsError)

  /** The loop of lines 320-335 over the results of the lines read so
      far: collect the calls, stopping at the first failure. */
  function Collect(rs: seq<LineResult>): Outcome
    decreases |rs|
  {
    if rs == [] then Loaded([])
    else
      match Collect(rs[..|rs| - 1])
      case Failed(e) => Failed(e)
      case Loaded(adds) =>
        match rs[|rs| - 1]
        case LineFailed(e) => Failed(e)
        case Entry(a) => Loaded(adds + [a])
  }

  function ParseOffsets(lines: seq<string>): Outcome {
    Collect(LineResults(lines))
  }

  // ----- What a line means -----

  /** A line parses exactly when it has four tab-separated fields whose
      last two are decimal integers in the `uint32` range; it then adds
      the second field's client, keyed by the first field, at the values
      of the last two. A line with a wrong field count fails with its
      own number and the count. */
  lemma ParseLineMeaning(line: string, lineNum: nat)
    ensures var pieces := Split(line, Tab);
            ParseLine(line, lineNum).Entry? <==>
              |pieces| == 4 &&
              IsDecimalInt(pieces[2]) && 0 <= DecimalIntValue(pieces[2]) <= MaxUint32 &&
              IsDecimalInt(pieces[3]) && 0 <= DecimalIntValue(pieces[3]) <= MaxUint32
    ensures var pieces := Split(line, Tab);
            ParseLine(line, lineNum).Entry? ==>
              ParseLine(line, lineNum).add ==
                (pieces[1], MessageLocation(pieces[0], DecimalIntValue(pieces[2]), DecimalIntValue(pieces[3])))
    ensures |Split(line, Tab)| != 4 <==>
            ParseLine(line, lineNum) == LineFailed(FieldCount(lineNum, |Split(line, Tab)|))
  {
    var pieces := Split(line, Tab);
    if |pieces| == 4 {
      MakeIntMeaning(pieces[2]);
      MakeIntMeaning(pieces[3]);
    }
  }

  /** The line `readOffsets` reads back as `add`: the four fields, with
      the numbers printed in decimal. */
  function FormatLine(add: Addition): string {
    Join([add.1.key, add.0, Decimal(add.1.offset), Decimal(add.1.length)], Tab)
  }

  /** Writing a line and reading it back gives the same `Add` call,
      whenever the key and the client id hold no tab. */
  lemma FormatParse(add: Addition, lineNum: nat)
    requires Tab !in add.1.key && Tab !in add.0
    ensures ParseLine(FormatLine(add), lineNum) == Entry(add)
  {
    var fields := [add.1.key, add.0, Decimal(add.1.offset), Decimal(add.1.length)];
    assert forall i :: 0 <= i < 4 && i >= 2 ==> AllDigits(fields[i]);
    JoinSplit(fields, Tab);
    MakeIntDecimal(add.1.offset);
    MakeIntDecimal(add.1.length);
  }

  // ----- What the whole file means -----

  /** One more result: the read goes on from where the shorter one left
      off. */
  lemma CollectSnoc(rs: seq<LineResult>, k: nat)
    requires k < |rs|
    ensures Collect(rs[..k + 1]) ==
            match Collect(rs[..k])
            case Failed(e) => Failed(e)
            case Loaded(adds) =>
              match rs[k]
              case LineFailed(e) => Failed(e)
              case Entry(a) => Loaded(adds + [a])
  {
    assert rs[..k + 1][..k] == rs[..k];
  }

  /** A read that has failed stays failed with the same error, however
      many lines follow. */
  lemma {:induction false} FailedStays(rs: seq<LineResult>, k: nat)
    requires k <= |rs|
    requires Collect(rs[..k]).Failed?
    ensures Collect(rs) == Collect(rs[..k])
    decreases |rs| - k
  {
    if k < |rs| {
      CollectSnoc(rs, k);
      FailedStays(rs, k + 1);
    } else {
      assert rs[..k] == rs;
    }
  }

  /** The read succeeds exactly when every result is an entry, and then
      holds each entry's call, in order. */
  lemma {:induction false} CollectLoaded(rs: seq<LineResult>)
    ensures Collect(rs).Loaded? <==> forall i :: 0 <= i < |rs| ==> rs[i].Entry?
    ensures Collect(rs).Loaded? ==>
            |Collect(rs).adds| == |rs| && forall i :: 0 <= i < |rs| ==> Collect(rs).adds[i] == rs[i].add
    decreases |rs|
  {
    if rs != [] {
      var front := rs[..|rs| - 1];
      CollectLoaded(front);
      assert forall i :: 0 <= i < |front| ==> front[i] == rs[i];
    }
  }

  /** A failed read carries the error of its first failed result. */
  lemma {:induction false} CollectFailed(rs: seq<LineResult>)
    requires Collect(rs).Failed?
    ensures exists i :: 0 <= i < |rs| && rs[i] == LineFailed(Collect(rs).err) &&
              forall j :: 0 <= j < i ==> rs[j].Entry?
    decreases |rs|
  {
    var front := rs[..|rs| - 1];
    assert forall j :: 0 <= j < |front| ==> front[j] == rs[j];
    if Collect(front).Failed? {
      CollectFailed(front);
      var i :| 0 <= i < |front| && front[i] == LineFailed(Collect(front).err) &&
               forall j :: 0 <= j < i ==> front[j].Entry?;
      assert rs[i] == front[i];
    } else {
      CollectLoaded(front);
      assert rs[|rs| - 1] == LineFailed(Collect(rs).err);
    }
  }

  /** A successful read holds one `Add` call per line, in file order, each
      the call that line parses to; and the read succeeds exactly when
      every line parses. */
  lemma LoadedLines(lines: seq<string>)
    ensures ParseOffsets(lines).Loaded? <==>
            forall i :: 0 <= i < |lines| ==> ParseLine(lines[i], i + 1).Entry?
    ensures ParseOffsets(lines).Loaded? ==>
            |ParseOffsets(lines).adds| == |lines| &&
            forall i :: 0 <= i < |lines| ==> ParseOffsets(lines).adds[i] == ParseLine(lines[i], i + 1).add
  {
    CollectLoaded(LineResults(lines));
  }

  /** A failed read reports the error of its first bad line: every
      earlier line parses. */
  lemma FailedLine(lines: seq<string>)
    requires ParseOffsets(lines).Failed?
    ensures exists i :: 0 <= i < |lines| &&
              ParseLine(lines[i], i + 1) == LineFailed(ParseOffsets(lines).err) &&
              forall j :: 0 <= j < i ==> ParseLine(lines[j], j + 1).Entry?
  {
    var rs := LineResults(lines);
    CollectFailed(rs);
    var i :| 0 <= i < |rs| && rs[i] == LineFailed(Collect(rs).err) && forall j :: 0 <= j < i ==> rs[j].Entry?;
    assert ParseLine(lines[i], i + 1) == LineFailed(ParseOffsets(lines).err);
  }

  /** The file that lists the calls `adds`, one line each. */
  function FormatFile(adds: seq<Addition>): (lines: seq<string>)
    ensures |lines| == |adds|
    ensures forall i :: 0 <= i < |adds| ==> lines[i] == FormatLine(adds[i])
  {
    seq(|adds|, i requires 0 <= i < |adds| => FormatLine(adds[i]))
  }

  /** Writing any list of calls out and reading the file back gives the
      list back. */
  lemma FormatRead(adds: seq<Addition>)
    requires forall i :: 0 <= i < |adds| ==> Tab !in adds[i].1.key && Tab !in adds[i].0
    ensures ParseOffsets(FormatFile(adds)) == Loaded(adds)
  {
    var lines := FormatFile(adds);
    var rs := LineResults(lines);
    forall i | 0 <= i < |adds| ensures rs[i] == Entry(adds[i]) {
      FormatParse(adds[i], i + 1);
    }
    CollectLoaded(rs);
  }

  /** `readOffsets`: open the file, then build the cache a line at a
      time; on the first bad line, return no cache and that line's
      error. `file` is `None` when `os.Open` fails. */
  method ReadOffsets(file: Option<seq<string>>) returns (offsets: OffsetCache?, err: Option<OffsetsError>)
    ensures file.None? ==> offsets == null && err == Some(OpenFailed)
    ensures file.Some? && ParseOffsets(file.value).Failed? ==>
              offsets == null && err == Some(ParseOffsets(file.value).err)
    ensures file.Some? && ParseOffsets(file.value).Loaded? ==>
              err == None && offsets != null && fresh(offsets) && offsets.Valid() &&
              offsets.added == ParseOffsets(file.value).adds
  {
    if file.None? {
      return null, Some(OpenFailed);
    }
    var lines := file.value;
    ghost var rs := LineResults(lines);
    offsets := new OffsetCache();
    var lineNum := 0;
    while lineNum < |lines|
      invariant 0 <= lineNum <= |lines|
      invariant fresh(offsets) && offsets.Valid()
      invariant Collect(rs[..lineNum]) == Loaded(offsets.added)
    {
      var pieces := Split(lines[lineNum], Tab);
      CollectSnoc(rs, lineNum);
      assert rs[lineNum] == ParseLine(lines[lineNum], lineNum + 1);
      lineNum := lineNum + 1;
      if |pieces| != 4 {
        FailedStays(rs, lineNum);
        return null, Some(FieldCount(lineNum, |pieces|));
      }
      var o := MakeInt(pieces[2]);
      if o.1.Some? {
        FailedStays(rs, lineNum);
        return null, Some(BadInt(o.1.value));
      }
      var l := MakeInt(pieces[3]);
      if l.1.Some? {
        FailedStays(rs, lineNum);
        return null, Some(BadInt(l.1.value));
      }
      offsets.Add(pieces[1], MessageLocation(pieces[0], o.0, l.0));
    }
    assert rs[..lineNum] == rs;
    return offsets, None;
  }
}
