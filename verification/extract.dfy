/** checkST2110.js:620-677 `extractMTParams`: the format parameters of every
    video stream, one record per accepted `a=fmtp` line, and the line
    numbers of the `a=fmtp` lines the pattern refuses. */
module Extract {
  import opened Text
  import opened Patterns
  import opened Fmtp
  import opened FmtpWrite
  import opened Tracking

  /** checkST2110.js:49 `skipVideoTypes`: video encodings whose format
      parameters are not checked. */
  const SkipVideoTypes: seq<string> := ["smpte291", "vc2", "SMPTE2022-6"]

  /** The record the extractor builds for one `a=fmtp` line: the parameter
      object, `_payloadType`, `_line` (1-based) and `_streamNumber`. */
  datatype Record = Record(params: map<string, string>, pt: nat, line: nat, stream: nat)

  /** What `extractMTParams` returns: the records, and the 1-based line of
      each refused `a=fmtp` line (its `fmpt ... has error` message). */
  datatype Extracted = Extracted(records: seq<Record>, malformed: seq<nat>)

  /** An `a=rtpmap` line that matches the rtpmap pattern with an encoding
      the extractor skips. */
  predicate SkipsFormat(l: string)
  {
    StartsWith(l, "a=rtpmap") && RtpmapOf(l).Some? && RtpmapOf(l).value.encoding in SkipVideoTypes
  }

  predicate IsFmtpLine(l: string)
  {
    StartsWith(l, "a=fmtp")
  }

  /** The parameter object of an accepted `a=fmtp` line: its parameter
      text tokenized and folded into a map. */
  function ParamsOfLine(l: string): map<string, string>
    requires FmtpOf(l).Some?
  {
    FmtpHasParams(l);
    ParamMap(ParamsFrom(ParamsText(l).value, 0))
  }

  /** What one `a=fmtp` line of a checked stream adds. */
  function FmtpEntry(l: string, x: nat, c: Cursor): (r: Extracted)
    requires c.pt >= 0
  {
    if FmtpOf(l).None? then Extracted([], [x + 1])
    else Extracted([Record(ParamsOfLine(l), c.pt as nat, x + 1, c.stream)], [])
  }

  function Prepend(a: Extracted, b: Extracted): Extracted
  {
    Extracted(a.records + b.records, a.malformed + b.malformed)
  }

  /** The loop of checkST2110.js:627-675 from line `x`, with the payload
      type and stream counter in `c` and `isSkippedType` in `skipped`. */
  function ExtractFrom(lines: seq<string>, x: nat, c: Cursor, skipped: bool): Extracted
    requires x <= |lines|
    decreases |lines| - x
  {
    if x == |lines| then Extracted([], [])
    else
      var l := lines[x];
      if IsMedia(l) then ExtractFrom(lines, x + 1, Advance("video", c, l), false)
      else if c.pt >= 0 && SkipsFormat(l) then ExtractFrom(lines, x + 1, c, true)
      else if IsFmtpLine(l) && c.pt >= 0 && !skipped then
        Prepend(FmtpEntry(l, x, c), ExtractFrom(lines, x + 1, c, skipped))
      else ExtractFrom(lines, x + 1, c, skipped)
  }

  /** `extractMTParams(sdp)` on the lines of `sdp`. */
  function ExtractMTParams(lines: seq<string>): Extracted
  {
    ExtractFrom(lines, 0, Start, false)
  }

  // ---------------------------------------------------------------------
  // The same result described line by line

  /** Line `x` is an `a=fmtp` line the extractor looks at: it lies in a
      stream whose media line matches the video pattern, and no earlier
      line of that stream names a skipped encoding. */
  predicate Examined(lines: seq<string>, x: nat)
    requires x < |lines|
  {
    && IsFmtpLine(lines[x])
    && CursorAt("video", lines, x).pt >= 0
    && !SeenInStream(lines, x, SkipsFormat)
  }

  /** What line `x` contributes, decided from the lines alone. */
  function EntryAt(lines: seq<string>, x: nat): Extracted
    requires x < |lines|
  {
    if Examined(lines, x) then FmtpEntry(lines[x], x, CursorAt("video", lines, x))
    else Extracted([], [])
  }

  /** The contributions of lines `x` onwards, in order. */
  function EntriesFrom(lines: seq<string>, x: nat): Extracted
    requires x <= |lines|
    decreases |lines| - x
  {
    if x == |lines| then Extracted([], []) else Prepend(EntryAt(lines, x), EntriesFrom(lines, x + 1))
  }

  /** The loop's state agrees with the line-by-line description wherever
      the state matters. */
  predicate InStep(lines: seq<string>, x: nat, c: Cursor, skipped: bool)
    requires x <= |lines|
  {
    c == CursorAt("video", lines, x) && (c.pt >= 0 ==> skipped == SeenInStream(lines, x, SkipsFormat))
  }

  /** The loop computes exactly the line-by-line contributions. */
  lemma {:induction false} ExtractFromEntries(lines: seq<string>, x: nat, c: Cursor, skipped: bool)
    requires x <= |lines| && InStep(lines, x, c, skipped)
    ensures ExtractFrom(lines, x, c, skipped) == EntriesFrom(lines, x)
    decreases |lines| - x
  {
    if x < |lines| {
      var s' := ExtractStep(lines, x, c, skipped);
      ExtractFromEntries(lines, x + 1, Advance("video", c, lines[x]), s');
    }
  }

  /** One step of the loop: what it adds at line `x`, and the state it
      moves to. */
  lemma ExtractStep(lines: seq<string>, x: nat, c: Cursor, skipped: bool) returns (s': bool)
    requires x < |lines| && InStep(lines, x, c, skipped)
    ensures InStep(lines, x + 1, Advance("video", c, lines[x]), s')
    ensures ExtractFrom(lines, x, c, skipped) ==
      Prepend(EntryAt(lines, x), ExtractFrom(lines, x + 1, Advance("video", c, lines[x]), s'))
  {
    CursorStep("video", lines, x);
    SeenStep(lines, x, SkipsFormat);
    var l := lines[x];
    if IsMedia(l) {
      s' := false;
      PrefixesDiffer(l, "m=", "a=fmtp", 0);
      PrependNothing(ExtractFrom(lines, x + 1, Advance("video", c, lines[x]), s'));
    } else if c.pt >= 0 && SkipsFormat(l) {
      s' := true;
      PrefixesDiffer(l, "a=rtpmap", "a=fmtp", 2);
      PrependNothing(ExtractFrom(lines, x + 1, Advance("video", c, lines[x]), s'));
    } else {
      s' := skipped;
      if !Examined(lines, x) {
        PrependNothing(ExtractFrom(lines, x + 1, Advance("video", c, lines[x]), s'));
      }
    }
  }

  lemma PrependNothing(b: Extracted)
    ensures Prepend(Extracted([], []), b) == b
  {
    assert [] + b.records == b.records;
    assert [] + b.malformed == b.malformed;
  }

  /** The extractor's result is the line-by-line one. */
  lemma ExtractMTParamsEntries(lines: seq<string>)
    ensures ExtractMTParams(lines) == EntriesFrom(lines, 0)
  {
    CursorFirst("video", lines);
    ExtractFromEntries(lines, 0, Start, false);
  }

  // ---------------------------------------------------------------------
  // What the extractor promises

  /** The lines whose `a=fmtp` line was refused are exactly the examined
      lines the pattern does not accept. */
  lemma MalformedIff(lines: seq<string>, x: nat, y: nat)
    requires x <= |lines|
    ensures (y + 1) in EntriesFrom(lines, x).malformed <==>
      x <= y < |lines| && Examined(lines, y) && FmtpOf(lines[y]).None?
    ensures Ascending(EntriesFrom(lines, x).malformed, x)
  {
    MalformedListed(lines, x, y);
    MalformedAscending(lines, x);
  }

  lemma {:induction false} MalformedListed(lines: seq<string>, x: nat, y: nat)
    requires x <= |lines|
    ensures (y + 1) in EntriesFrom(lines, x).malformed <==>
      x <= y < |lines| && Examined(lines, y) && FmtpOf(lines[y]).None?
    decreases |lines| - x
  {
    if x < |lines| {
      MalformedListed(lines, x + 1, y);
    }
  }

  /** The error list names each line once, in line order. */
  lemma {:induction false} MalformedAscending(lines: seq<string>, x: nat)
    requires x <= |lines|
    ensures Ascending(EntriesFrom(lines, x).malformed, x)
    decreases |lines| - x
  {
    if x < |lines| {
      MalformedAscending(lines, x + 1);
      var head := EntryAt(lines, x).malformed;
      var tail := EntriesFrom(lines, x + 1).malformed;
      assert EntriesFrom(lines, x).malformed == head + tail;
      EntryMalformed(lines, x);
      AscendingCons(head, tail, x);
    }
  }

  /** Line numbers after `x`, each larger than the one before: no line is
      listed twice. */
  predicate Ascending(ns: seq<nat>, x: nat)
  {
    && (forall i | 0 <= i < |ns| :: x < ns[i])
    && (forall i, j | 0 <= i < j < |ns| :: ns[i] < ns[j])
  }

  /** Line `x` lists at most one error, and it is for line `x + 1`. */
  lemma EntryMalformed(lines: seq<string>, x: nat)
    requires x < |lines|
    ensures var head := EntryAt(lines, x).malformed;
      |head| <= 1 && (|head| == 1 ==> head[0] == x + 1)
  {
  }

  lemma AscendingCons(head: seq<nat>, tail: seq<nat>, x: nat)
    requires |head| <= 1 && (|head| == 1 ==> head[0] == x + 1)
    requires Ascending(tail, x + 1)
    ensures Ascending(head + tail, x)
  {
    var r := head + tail;
    forall i, j | 0 <= i < j < |r| ensures r[i] < r[j] {
      if i < |head| {
        assert r[j] == tail[j - |head|];
      } else {
        assert r[i] == tail[i - |head|] && r[j] == tail[j - |head|];
      }
    }
  }

  /** Records come in line order, each from a line after `x`. */
  predicate Ordered(recs: seq<Record>, x: nat)
  {
    && (forall i | 0 <= i < |recs| :: x < recs[i].line)
    && (forall i, j | 0 <= i < j < |recs| :: recs[i].line < recs[j].line)
  }

  /** Some record of `recs` comes from line `n` (1-based). */
  predicate HasRecordFor(recs: seq<Record>, n: nat)
  {
    exists i | 0 <= i < |recs| :: recs[i].line == n
  }

  lemma HasRecordForAppend(a: seq<Record>, b: seq<Record>, n: nat)
    ensures HasRecordFor(a + b, n) <==> HasRecordFor(a, n) || HasRecordFor(b, n)
  {
    var r := a + b;
    if HasRecordFor(r, n) {
      var i :| 0 <= i < |r| && r[i].line == n;
      if i >= |a| { assert r[i] == b[i - |a|]; }
    }
    if HasRecordFor(b, n) {
      var i :| 0 <= i < |b| && b[i].line == n;
      assert r[|a| + i] == b[i];
    }
    if HasRecordFor(a, n) {
      var i :| 0 <= i < |a| && a[i].line == n;
      assert r[i] == a[i];
    }
  }

  /** There is a record for line `y + 1` exactly when line `y` is an
      examined line the pattern accepts; the records are in line order, so
      there is at most one. */
  lemma {:induction false} RecordsIff(lines: seq<string>, x: nat, y: nat)
    requires x <= |lines|
    ensures Ordered(EntriesFrom(lines, x).records, x)
    ensures HasRecordFor(EntriesFrom(lines, x).records, y + 1) <==>
      x <= y < |lines| && Examined(lines, y) && FmtpOf(lines[y]).Some?
    decreases |lines| - x
  {
    if x < |lines| {
      RecordsIff(lines, x + 1, y);
      var head := EntryAt(lines, x).records;
      var tail := EntriesFrom(lines, x + 1).records;
      assert EntriesFrom(lines, x).records == head + tail;
      EntryRecords(lines, x, y);
      OrderedCons(head, tail, x);
      HasRecordForAppend(head, tail, y + 1);
    }
  }

  /** Line `x` yields at most one record, and it is for line `x + 1`. */
  lemma EntryRecords(lines: seq<string>, x: nat, y: nat)
    requires x < |lines|
    ensures var head := EntryAt(lines, x).records;
      && |head| <= 1 && (|head| == 1 ==> head[0].line == x + 1)
      && (HasRecordFor(head, y + 1) <==> y == x && Examined(lines, x) && FmtpOf(lines[x]).Some?)
  {
  }

  lemma OrderedCons(head: seq<Record>, tail: seq<Record>, x: nat)
    requires |head| <= 1 && (|head| == 1 ==> head[0].line == x + 1)
    requires Ordered(tail, x + 1)
    ensures Ordered(head + tail, x)
  {
    var r := head + tail;
    forall i, j | 0 <= i < j < |r| ensures r[i].line < r[j].line {
      if i < |head| {
        assert r[j] == tail[j - |head|];
      } else {
        assert r[i] == tail[i - |head|] && r[j] == tail[j - |head|];
      }
    }
  }

  /** An examined line written from well-formed parameters yields one
      record and no error; the record's object maps each name to the value
      of its last occurrence, `""` for a name written without a value. */
  lemma WrittenEntry(lines: seq<string>, x: nat, pt: string, ps: seq<Param>, k: nat)
    requires x < |lines| && Examined(lines, x)
    requires |pt| > 0 && AllDigits(pt) && |ps| > 0 && AllWellFormed(ps)
    requires lines[x] == "a=fmtp:" + (pt + (" " + JoinParams(ps)))
    requires k < |ps| && forall j | k < j < |ps| :: ps[j].name != ps[k].name
    ensures |EntryAt(lines, x).records| == 1 && EntryAt(lines, x).malformed == []
    ensures EntryAt(lines, x).records[0].params == ParamMap(ps)
    ensures EntryAt(lines, x).records[0].params[ps[k].name] == ps[k].value
    ensures EntryAt(lines, x).records[0].line == x + 1
    ensures EntryAt(lines, x).records[0].stream == CursorAt("video", lines, x).stream
  {
    FmtpRoundTrip(pt, ps);
    ParamMapLast(ps, k);
  }
}
