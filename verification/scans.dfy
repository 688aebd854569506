/** The rules that walk the lines stream by stream, keeping the payload
    type of the current media line and a flag saying whether the current
    stream has already shown some attribute: `checkStreamsRtpMap`
    (checkST2110.js:502-550, used by `test_20_71_3` and `test_22_6`),
    `test_20_71_4` (564-615), `test_30_62_1` (1023-1082), `test_30_62_3`
    (1120-1164) and `test_30_62_4` (1167-1217). One loop covers all five;
    what differs is the media pattern, the attribute the flag records, and
    the checks on the other lines. */
module StreamScans {
  import opened Text
  import opened Patterns
  import opened Fmtp
  import opened Findings
  import opened Tracking
  import opened Extract

  /** Which scan, with the arguments the source passes to it. */
  datatype Scan =
    | RtpmapScan(rule: Rule, encoding: string, rate: string)
    | FmtpScan
    | SoundScan
    | PtimeScan
    | ChannelScan(required: bool, should: bool)

  function RuleOf(sc: Scan): Rule
  {
    match sc
    case RtpmapScan(rule, _, _) => rule
    case FmtpScan => Test20_71_4
    case SoundScan => Test30_62_1
    case PtimeScan => Test30_62_3
    case ChannelScan(_, _) => Test30_62_4
  }

  /** The media pattern whose payload type the scan keeps. */
  function MediaKind(sc: Scan): string
  {
    if sc.RtpmapScan? || sc.FmtpScan? then "video" else "audio"
  }

  predicate IsRtpmapLine(l: string)
  {
    StartsWith(l, "a=rtpmap")
  }

  /** An `a=rtpmap` line the audio rtpmap pattern accepts. */
  predicate IsSoundLine(l: string)
  {
    IsRtpmapLine(l) && SoundOf(l).Some?
  }

  /** An `a=ptime` line the packet time pattern accepts. */
  predicate IsPtimeLine(l: string)
  {
    StartsWith(l, "a=ptime") && IsPacketTime("ptime", l)
  }

  predicate NoLine(l: string)
  {
    false
  }

  /** The lines that set the scan's flag in a stream with a payload
      type. */
  function MarkOf(sc: Scan): string -> bool
  {
    match sc
    case RtpmapScan(_, _, _) => IsRtpmapLine
    case FmtpScan => IsFmtpLine
    case SoundScan => IsSoundLine
    case PtimeScan => IsPtimeLine
    case ChannelScan(_, _) => IsFmtpLine
  }

  /** The lines that exempt a stream from the scan's presence check:
      rtpmap lines naming a skipped video encoding, for `test_20_71_4`
      only. */
  function SkipOf(sc: Scan): string -> bool
  {
    if sc.FmtpScan? then SkipsFormat else NoLine
  }

  /** What a stream that never sets the flag is missing. */
  function MissingKind(sc: Scan): Kind
  {
    match sc
    case RtpmapScan(_, _, _) => MissingRtpmap
    case FmtpScan => MissingFmtp
    case SoundScan => MissingRtpmap
    case PtimeScan => MissingPtime
    case ChannelScan(_, _) => MissingChannelOrder
  }

  /** The presence check runs for every scan but the channel order one,
      which runs it only when `channelOrder` is set. */
  predicate ReportsMissing(sc: Scan)
  {
    !sc.ChannelScan? || sc.required
  }

  /** The presence check, made at each media line and after the last line
      for the stream then ending. */
  function MissingCheck(sc: Scan, line: Option<nat>, c: Cursor, flag: bool, skipped: bool): (r: seq<Finding>)
    ensures |r| <= 1
    ensures |r| == 1 <==> ReportsMissing(sc) && c.pt >= 0 && !flag && !skipped
    ensures |r| == 1 ==> r[0] == Finding(RuleOf(sc), MissingKind(sc), line, Some(c.stream))
  {
    if ReportsMissing(sc) && !flag && c.pt >= 0 && !skipped then
      [Finding(RuleOf(sc), MissingKind(sc), line, Some(c.stream))]
    else []
  }

  // ---------------------------------------------------------------------
  // The checks on the other lines

  /** A finding that cites line `x + 1` and the current stream. */
  function Report(rule: Rule, k: Kind, x: nat, c: Cursor): Finding
  {
    Finding(rule, k, Some(x + 1), Some(c.stream))
  }

  /** checkST2110.js:520-543, for a line of a stream whose media line
      matched: `flag` is `rtpmapInStream`. */
  function RtpmapChecks(rule: Rule, encoding: string, rate: string, l: string, x: nat, c: Cursor, flag: bool): (r: seq<Finding>)
    ensures !(IsRtpmapLine(l) && c.pt >= 0) ==> r == []
    ensures Finding(rule, DuplicateRtpmap, Some(x + 1), Some(c.stream)) in r <==> IsRtpmapLine(l) && c.pt >= 0 && flag
    ensures Finding(rule, RtpmapPattern, Some(x + 1), Some(c.stream)) in r <==>
      IsRtpmapLine(l) && c.pt >= 0 && !flag && RtpmapOf(l).None?
    ensures Finding(rule, RtpmapPayloadMismatch, Some(x + 1), Some(c.stream)) in r <==>
      IsRtpmapLine(l) && c.pt >= 0 && !flag && RtpmapOf(l).Some? && Value(RtpmapOf(l).value.pt) != c.pt
    ensures Finding(rule, WrongEncoding, Some(x + 1), Some(c.stream)) in r <==>
      && IsRtpmapLine(l) && c.pt >= 0 && !flag && RtpmapOf(l).Some?
      && RtpmapOf(l).value.encoding !in SkipVideoTypes && RtpmapOf(l).value.encoding != encoding
    ensures Finding(rule, WrongClockRate, Some(x + 1), Some(c.stream)) in r <==>
      && IsRtpmapLine(l) && c.pt >= 0 && !flag && RtpmapOf(l).Some?
      && RtpmapOf(l).value.encoding !in SkipVideoTypes && RtpmapOf(l).value.rate != rate
    ensures forall i | 0 <= i < |r| :: r[i].rule == rule && r[i].line == Some(x + 1) && r[i].stream == Some(c.stream)
  {
    if !(IsRtpmapLine(l) && c.pt >= 0) then []
    else
      if flag then [Report(rule, DuplicateRtpmap, x, c)]
      else
        match RtpmapOf(l)
        case None => [Report(rule, RtpmapPattern, x, c)]
        case Some(m) =>
          (if Value(m.pt) != c.pt then [Report(rule, RtpmapPayloadMismatch, x, c)] else [])
          + (if m.encoding in SkipVideoTypes then [] else EncodingChecks(rule, encoding, rate, m, x, c))
  }

  /** The encoding name and clock rate a checked stream must declare. */
  function EncodingChecks(rule: Rule, encoding: string, rate: string, m: Rtpmap, x: nat, c: Cursor): (r: seq<Finding>)
  {
    (if m.encoding != encoding then [Report(rule, WrongEncoding, x, c)] else [])
    + (if m.rate != rate then [Report(rule, WrongClockRate, x, c)] else [])
  }

  /** checkST2110.js:594-606: `flag` is `fmtpInStream`. */
  function FmtpChecks(l: string, x: nat, c: Cursor, flag: bool): (r: seq<Finding>)
    ensures !(IsFmtpLine(l) && c.pt >= 0) ==> r == []
    ensures |r| <= 1
    ensures Finding(Test20_71_4, DuplicateFmtp, Some(x + 1), Some(c.stream)) in r <==> IsFmtpLine(l) && c.pt >= 0 && flag
    ensures Finding(Test20_71_4, FmtpPattern, Some(x + 1), Some(c.stream)) in r <==>
      IsFmtpLine(l) && c.pt >= 0 && !flag && FmtpOf(l).None?
    ensures Finding(Test20_71_4, FmtpPayloadMismatch, Some(x + 1), Some(c.stream)) in r <==>
      IsFmtpLine(l) && c.pt >= 0 && !flag && FmtpOf(l).Some? && Value(FmtpOf(l).value) != c.pt
    ensures forall i | 0 <= i < |r| :: r[i].rule == Test20_71_4 && r[i].line == Some(x + 1) && r[i].stream == Some(c.stream)
  {
    if !(IsFmtpLine(l) && c.pt >= 0) then []
    else
      if flag then [Report(Test20_71_4, DuplicateFmtp, x, c)]
      else
        match FmtpOf(l)
        case None => [Report(Test20_71_4, FmtpPattern, x, c)]
        case Some(pt) => if Value(pt) != c.pt then [Report(Test20_71_4, FmtpPayloadMismatch, x, c)] else []
  }

  /** checkST2110.js:1018 `sampleRatePermitted`. */
  const SampleRates: seq<string> := ["44100", "48000", "96000"]

  /** The checks on an rtpmap line the audio pattern accepts: duplicate,
      payload type, sampling rate, and the two combinations of encoding and
      rate AES67 leaves out. */
  function SoundValueChecks(snd: Sound, x: nat, c: Cursor, flag: bool): (r: seq<Finding>)
    ensures Report(Test30_62_1, DuplicateAudioRtpmap, x, c) in r <==> flag
    ensures Report(Test30_62_1, RtpmapPayloadMismatch, x, c) in r <==> c.pt != Value(snd.pt)
    ensures Report(Test30_62_1, BadSampleRate, x, c) in r <==> snd.rate !in SampleRates
    ensures Report(Test30_62_1, L16At96k, x, c) in r <==> Value(snd.rate) == 96000 && snd.encoding == "L16"
    ensures Report(Test30_62_1, L24At44k, x, c) in r <==> Value(snd.rate) == 44100 && snd.encoding == "L24"
    ensures forall i | 0 <= i < |r| :: r[i].rule == Test30_62_1 && r[i].line == Some(x + 1) && r[i].stream == Some(c.stream)
    ensures Report(Test30_62_1, AudioRtpmapPattern, x, c) !in r
  {
    var a := SoundStreamChecks(snd, x, c, flag);
    var b := SoundRateChecks(snd, x, c);
    assert Report(Test30_62_1, BadSampleRate, x, c) !in a;
    assert Report(Test30_62_1, L16At96k, x, c) !in a;
    assert Report(Test30_62_1, L24At44k, x, c) !in a;
    assert Report(Test30_62_1, DuplicateAudioRtpmap, x, c) !in b;
    assert Report(Test30_62_1, RtpmapPayloadMismatch, x, c) !in b;
    a + b
  }

  /** The duplicate and payload type checks. */
  function SoundStreamChecks(snd: Sound, x: nat, c: Cursor, flag: bool): (r: seq<Finding>)
    ensures Report(Test30_62_1, DuplicateAudioRtpmap, x, c) in r <==> flag
    ensures Report(Test30_62_1, RtpmapPayloadMismatch, x, c) in r <==> c.pt != Value(snd.pt)
    ensures forall i | 0 <= i < |r| :: r[i] == Report(Test30_62_1, r[i].kind, x, c)
    ensures forall i | 0 <= i < |r| :: r[i].kind in {DuplicateAudioRtpmap, RtpmapPayloadMismatch}
    ensures Report(Test30_62_1, AudioRtpmapPattern, x, c) !in r
  {
    (if flag then [Report(Test30_62_1, DuplicateAudioRtpmap, x, c)] else [])
    + (if c.pt != Value(snd.pt) then [Report(Test30_62_1, RtpmapPayloadMismatch, x, c)] else [])
  }

  /** The sampling rate checks. */
  function SoundRateChecks(snd: Sound, x: nat, c: Cursor): (r: seq<Finding>)
    ensures Report(Test30_62_1, BadSampleRate, x, c) in r <==> snd.rate !in SampleRates
    ensures Report(Test30_62_1, L16At96k, x, c) in r <==> Value(snd.rate) == 96000 && snd.encoding == "L16"
    ensures Report(Test30_62_1, L24At44k, x, c) in r <==> Value(snd.rate) == 44100 && snd.encoding == "L24"
    ensures forall i | 0 <= i < |r| :: r[i] == Report(Test30_62_1, r[i].kind, x, c)
    ensures forall i | 0 <= i < |r| :: r[i].kind in {BadSampleRate, L16At96k, L24At44k}
    ensures Report(Test30_62_1, AudioRtpmapPattern, x, c) !in r
  {
    (if snd.rate !in SampleRates then [Report(Test30_62_1, BadSampleRate, x, c)] else [])
    + (if Value(snd.rate) == 96000 && snd.encoding == "L16" then [Report(Test30_62_1, L16At96k, x, c)]
       else if Value(snd.rate) == 44100 && snd.encoding == "L24" then [Report(Test30_62_1, L24At44k, x, c)]
       else [])
  }

  /** checkST2110.js:1041-1073: `flag` is `hasRtpmap`. A refused rtpmap
      line neither counts as the stream's rtpmap nor as a duplicate. */
  function SoundChecks(l: string, x: nat, c: Cursor, flag: bool): (r: seq<Finding>)
    ensures !(IsRtpmapLine(l) && c.pt >= 0) ==> r == []
    ensures Report(Test30_62_1, AudioRtpmapPattern, x, c) in r <==> IsRtpmapLine(l) && c.pt >= 0 && SoundOf(l).None?
    ensures IsSoundLine(l) && c.pt >= 0 ==> r == SoundValueChecks(SoundOf(l).value, x, c, flag)
    ensures forall i | 0 <= i < |r| :: r[i].rule == Test30_62_1 && r[i].line == Some(x + 1) && r[i].stream == Some(c.stream)
  {
    if !(IsRtpmapLine(l) && c.pt >= 0) then []
    else
      match SoundOf(l)
      case None => [Report(Test30_62_1, AudioRtpmapPattern, x, c)]
      case Some(snd) => SoundValueChecks(snd, x, c, flag)
  }

  /** checkST2110.js:1136-1155: `flag` is `hasPTime`. The `a=maxptime`
      check runs on every line, in a stream with a payload type or not. */
  function PtimeChecks(l: string, x: nat, c: Cursor, flag: bool): (r: seq<Finding>)
    ensures |r| <= 1
    ensures Finding(Test30_62_3, PtimePattern, Some(x + 1), Some(c.stream)) in r <==>
      StartsWith(l, "a=ptime") && c.pt >= 0 && !IsPacketTime("ptime", l)
    ensures Finding(Test30_62_3, DuplicatePtime, Some(x + 1), Some(c.stream)) in r <==>
      IsPtimeLine(l) && c.pt >= 0 && flag
    ensures Finding(Test30_62_3, MaxptimePattern, Some(x + 1), Some(c.stream)) in r <==>
      StartsWith(l, "a=maxptime") && !IsPacketTime("maxptime", l)
    ensures forall i | 0 <= i < |r| :: r[i].rule == Test30_62_3 && r[i].line == Some(x + 1) && r[i].stream == Some(c.stream)
  {
    if StartsWith(l, "a=ptime") && c.pt >= 0 then
      PrefixesDiffer(l, "a=ptime", "a=maxptime", 2);
      if !IsPacketTime("ptime", l) then [Report(Test30_62_3, PtimePattern, x, c)]
      else if flag then [Report(Test30_62_3, DuplicatePtime, x, c)]
      else []
    else if StartsWith(l, "a=maxptime") && !IsPacketTime("maxptime", l) then [Report(Test30_62_3, MaxptimePattern, x, c)]
    else []
  }

  /** checkST2110.js:1181-1206: `flag` is `hasFmtp`. Any `a=fmtp` line sets
      it, whether or not it holds a channel order. */
  function ChannelChecks(required: bool, should: bool, l: string, x: nat, c: Cursor, flag: bool): (r: seq<Finding>)
    ensures !(IsFmtpLine(l) && c.pt >= 0) ==> r == []
    ensures Report(Test30_62_4, FmtpWithoutChannelOrder, x, c) in r <==>
      IsFmtpLine(l) && c.pt >= 0 && ChannelOrderOf(l).None? && required
    ensures IsFmtpLine(l) && c.pt >= 0 && ChannelOrderOf(l).Some? ==>
      r == OrderChecks(should, ChannelOrderOf(l).value.0, ChannelOrderOf(l).value.1, x, c, flag)
    ensures forall i | 0 <= i < |r| :: r[i].rule == Test30_62_4 && r[i].line == Some(x + 1) && r[i].stream == Some(c.stream)
  {
    if !(IsFmtpLine(l) && c.pt >= 0) then []
    else
      match ChannelOrderOf(l)
      case None => if required then [Report(Test30_62_4, FmtpWithoutChannelOrder, x, c)] else []
      case Some(m) => OrderChecks(should, m.0, m.1, x, c, flag)
  }

  /** The checks on an `a=fmtp` line with a channel order: duplicate,
      payload type, the `SMPTE2110` convention (a recommendation, checked
      with `should`), and the form of an order that follows it. */
  function OrderChecks(should: bool, pt: string, order: string, x: nat, c: Cursor, flag: bool): (r: seq<Finding>)
    ensures Report(Test30_62_4, DuplicateAudioFmtp, x, c) in r <==> flag
    ensures Report(Test30_62_4, AudioFmtpPayloadMismatch, x, c) in r <==> c.pt != Value(pt)
    ensures Report(Test30_62_4, ChannelOrderConvention, x, c) in r <==> should && !StartsWith(order, "SMPTE2110")
    ensures Report(Test30_62_4, ChannelOrderPattern, x, c) in r <==> StartsWith(order, "SMPTE2110") && !IsSmpteOrder(order)
    ensures forall i | 0 <= i < |r| :: r[i].rule == Test30_62_4 && r[i].line == Some(x + 1) && r[i].stream == Some(c.stream)
    ensures Report(Test30_62_4, FmtpWithoutChannelOrder, x, c) !in r
  {
    OrderStreamChecks(pt, x, c, flag) + OrderFormChecks(should, order, x, c)
  }

  function OrderStreamChecks(pt: string, x: nat, c: Cursor, flag: bool): (r: seq<Finding>)
    ensures Report(Test30_62_4, DuplicateAudioFmtp, x, c) in r <==> flag
    ensures Report(Test30_62_4, AudioFmtpPayloadMismatch, x, c) in r <==> c.pt != Value(pt)
    ensures forall i | 0 <= i < |r| :: r[i] == Report(Test30_62_4, r[i].kind, x, c)
    ensures forall i | 0 <= i < |r| :: r[i].kind in {DuplicateAudioFmtp, AudioFmtpPayloadMismatch}
    ensures Report(Test30_62_4, FmtpWithoutChannelOrder, x, c) !in r
  {
    (if flag then [Report(Test30_62_4, DuplicateAudioFmtp, x, c)] else [])
    + (if c.pt != Value(pt) then [Report(Test30_62_4, AudioFmtpPayloadMismatch, x, c)] else [])
  }

  function OrderFormChecks(should: bool, order: string, x: nat, c: Cursor): (r: seq<Finding>)
    ensures Report(Test30_62_4, ChannelOrderConvention, x, c) in r <==> should && !StartsWith(order, "SMPTE2110")
    ensures Report(Test30_62_4, ChannelOrderPattern, x, c) in r <==> StartsWith(order, "SMPTE2110") && !IsSmpteOrder(order)
    ensures forall i | 0 <= i < |r| :: r[i] == Report(Test30_62_4, r[i].kind, x, c)
    ensures forall i | 0 <= i < |r| :: r[i].kind in {ChannelOrderConvention, ChannelOrderPattern}
    ensures Report(Test30_62_4, FmtpWithoutChannelOrder, x, c) !in r
  {
    (if should && !StartsWith(order, "SMPTE2110") then [Report(Test30_62_4, ChannelOrderConvention, x, c)] else [])
    + (if StartsWith(order, "SMPTE2110") && !IsSmpteOrder(order) then [Report(Test30_62_4, ChannelOrderPattern, x, c)] else [])
  }

  /** The checks of the scan on a line that is not a media line. */
  function LineChecks(sc: Scan, l: string, x: nat, c: Cursor, flag: bool): (r: seq<Finding>)
    ensures forall i | 0 <= i < |r| :: r[i].line == Some(x + 1) && r[i].rule == RuleOf(sc)
  {
    match sc
    case RtpmapScan(rule, encoding, rate) => RtpmapChecks(rule, encoding, rate, l, x, c, flag)
    case FmtpScan => FmtpChecks(l, x, c, flag)
    case SoundScan => SoundChecks(l, x, c, flag)
    case PtimeScan => PtimeChecks(l, x, c, flag)
    case ChannelScan(required, should) => ChannelChecks(required, should, l, x, c, flag)
  }

  /** Outside a stream with a payload type the flag is not read. */
  lemma LineChecksNoPayload(sc: Scan, l: string, x: nat, c: Cursor, flag: bool, flag': bool)
    requires c.pt < 0
    ensures LineChecks(sc, l, x, c, flag) == LineChecks(sc, l, x, c, flag')
  {
  }

  // ---------------------------------------------------------------------
  // The loop

  /** The loop's variables: the cursor (payload type and stream counter),
      the scan's flag and `isSkippedType`. */
  datatype State = State(c: Cursor, flag: bool, skipped: bool)

  /** What the loop body does to its variables at line `l`. */
  function Next(sc: Scan, st: State, l: string): State
  {
    if IsMedia(l) then State(Advance(MediaKind(sc), st.c, l), false, false)
    else State(st.c, st.flag || (st.c.pt >= 0 && MarkOf(sc)(l)), st.skipped || (st.c.pt >= 0 && SkipOf(sc)(l)))
  }

  /** What the loop body reports at line `x`. */
  function Body(sc: Scan, l: string, x: nat, st: State): seq<Finding>
  {
    if IsMedia(l) then MissingCheck(sc, Some(x + 1), st.c, st.flag, st.skipped)
    else LineChecks(sc, l, x, st.c, st.flag)
  }

  /** The loop from line `x`, followed by the check after the last line. */
  function ScanFrom(sc: Scan, lines: seq<string>, x: nat, st: State): seq<Finding>
    requires x <= |lines|
    decreases |lines| - x
  {
    if x == |lines| then MissingCheck(sc, EndLine(sc, lines), st.c, st.flag, st.skipped)
    else Body(sc, lines[x], x, st) + ScanFrom(sc, lines, x + 1, Next(sc, st, lines[x]))
  }

  /** The line the check after the loop cites: the number of lines, except
      in `test_30_62_4`, whose message reads `lines.lengths`, a property
      that does not exist, and so cites no line. */
  function EndLine(sc: Scan, lines: seq<string>): Option<nat>
  {
    if sc.ChannelScan? then None else Some(|lines|)
  }

  /** The rule itself: every flag starts set, no payload type, stream 0. */
  function ScanTest(sc: Scan, lines: seq<string>): seq<Finding>
  {
    ScanFrom(sc, lines, 0, State(Start, true, false))
  }

  // ---------------------------------------------------------------------
  // The same result described line by line

  /** What line `x` contributes, from the lines alone: the flag is whether
      a marked line has appeared since the stream's media line. */
  function ScanAt(sc: Scan, lines: seq<string>, x: nat): (r: seq<Finding>)
    requires x < |lines|
    ensures forall i | 0 <= i < |r| :: r[i].line == Some(x + 1)
  {
    var c := CursorAt(MediaKind(sc), lines, x);
    var flag := SeenInStream(lines, x, MarkOf(sc));
    var skipped := SeenInStream(lines, x, SkipOf(sc));
    if IsMedia(lines[x]) then MissingCheck(sc, Some(x + 1), c, flag, skipped)
    else LineChecks(sc, lines[x], x, c, flag)
  }

  function ScanChunks(sc: Scan, lines: seq<string>): (r: seq<seq<Finding>>)
    ensures |r| == |lines| && LineTagged(r)
  {
    seq(|lines|, x requires 0 <= x < |lines| => ScanAt(sc, lines, x))
  }

  /** The check after the last line, from the lines alone. */
  function ScanEnd(sc: Scan, lines: seq<string>): seq<Finding>
  {
    MissingCheck(sc, EndLine(sc, lines), CursorAt(MediaKind(sc), lines, |lines|),
      SeenInStream(lines, |lines|, MarkOf(sc)), SeenInStream(lines, |lines|, SkipOf(sc)))
  }

  /** The loop state agrees with the lines wherever it is read. */
  predicate InStep(sc: Scan, lines: seq<string>, x: nat, st: State)
    requires x <= |lines|
  {
    && st.c == CursorAt(MediaKind(sc), lines, x)
    && (st.c.pt >= 0 ==> st.flag == SeenInStream(lines, x, MarkOf(sc)) && st.skipped == SeenInStream(lines, x, SkipOf(sc)))
  }

  /** One step of the loop keeps the state in agreement. */
  lemma NextInStep(sc: Scan, lines: seq<string>, x: nat, st: State)
    requires x < |lines| && InStep(sc, lines, x, st)
    ensures InStep(sc, lines, x + 1, Next(sc, st, lines[x]))
  {
    CursorStep(MediaKind(sc), lines, x);
    SeenStep(lines, x, MarkOf(sc));
    SeenStep(lines, x, SkipOf(sc));
  }

  /** What the loop reports at line `x` is what the line contributes. */
  lemma BodyAt(sc: Scan, lines: seq<string>, x: nat, st: State)
    requires x < |lines| && InStep(sc, lines, x, st)
    ensures Body(sc, lines[x], x, st) == ScanAt(sc, lines, x)
  {
    if st.c.pt < 0 {
      LineChecksNoPayload(sc, lines[x], x, st.c, st.flag, SeenInStream(lines, x, MarkOf(sc)));
    }
  }

  /** The loop computes the line-by-line contributions followed by the
      check after the last line. */
  lemma {:induction false} ScanFromChunks(sc: Scan, lines: seq<string>, x: nat, st: State)
    requires x <= |lines| && InStep(sc, lines, x, st)
    ensures ScanFrom(sc, lines, x, st) == FlattenFrom(ScanChunks(sc, lines), x) + ScanEnd(sc, lines)
    decreases |lines| - x
  {
    if x == |lines| {
      ScanEndAt(sc, lines, st);
    } else {
      var st' := ScanFromStep(sc, lines, x, st);
      ScanFromChunks(sc, lines, x + 1, st');
      FlattenStep(ScanChunks(sc, lines), x, ScanEnd(sc, lines));
    }
  }

  /** After the last line the loop's check is the one read off the lines. */
  lemma ScanEndAt(sc: Scan, lines: seq<string>, st: State)
    requires InStep(sc, lines, |lines|, st)
    ensures ScanFrom(sc, lines, |lines|, st) == ScanEnd(sc, lines)
  {
    if st.c.pt < 0 {
      assert MissingCheck(sc, EndLine(sc, lines), st.c, st.flag, st.skipped) == [];
    }
  }

  /** One step of the loop: what line `x` contributes, then the loop from
      the next line in a state that still agrees. */
  lemma ScanFromStep(sc: Scan, lines: seq<string>, x: nat, st: State) returns (st': State)
    requires x < |lines| && InStep(sc, lines, x, st)
    ensures st' == Next(sc, st, lines[x]) && InStep(sc, lines, x + 1, st')
    ensures ScanFrom(sc, lines, x, st) == ScanChunks(sc, lines)[x] + ScanFrom(sc, lines, x + 1, st')
  {
    st' := Next(sc, st, lines[x]);
    NextInStep(sc, lines, x, st);
    BodyAt(sc, lines, x, st);
  }

  /** The rule is the line-by-line contributions and the end check. */
  lemma ScanTestChunks(sc: Scan, lines: seq<string>)
    ensures ScanTest(sc, lines) == FlattenFrom(ScanChunks(sc, lines), 0) + ScanEnd(sc, lines)
  {
    CursorFirst(MediaKind(sc), lines);
    ScanFromChunks(sc, lines, 0, State(Start, true, false));
  }

  // ---------------------------------------------------------------------
  // What the rules report

  /** A finding that cites line `y + 1` comes from line `y` or from the
      check after the last line. */
  lemma ScanHas(sc: Scan, lines: seq<string>, f: Finding, y: nat)
    requires f.line == Some(y + 1)
    ensures f in ScanTest(sc, lines) <==> (y < |lines| && f in ScanAt(sc, lines, y)) || f in ScanEnd(sc, lines)
  {
    ScanTestChunks(sc, lines);
    FlattenHas(ScanChunks(sc, lines), 0, f, y);
  }

  /** The stream open at line `x` matched its media pattern and, before
      line `x`, had no line that sets the scan's flag or exempts it. */
  predicate Lacks(sc: Scan, lines: seq<string>, x: nat)
    requires x <= |lines|
  {
    && CursorAt(MediaKind(sc), lines, x).pt >= 0
    && !SeenInStream(lines, x, MarkOf(sc))
    && !SeenInStream(lines, x, SkipOf(sc))
  }

  /** A media line reports the stream it closes, numbered by the media
      lines before it, exactly when that stream lacks the attribute. */
  lemma MissingAtMediaIff(sc: Scan, lines: seq<string>, y: nat)
    requires y < |lines| && IsMedia(lines[y])
    ensures Finding(RuleOf(sc), MissingKind(sc), Some(y + 1), Some(MediaCount(lines, y))) in ScanTest(sc, lines) <==>
      ReportsMissing(sc) && Lacks(sc, lines, y)
  {
    var f := Finding(RuleOf(sc), MissingKind(sc), Some(y + 1), Some(MediaCount(lines, y)));
    ScanHas(sc, lines, f, y);
    MissingAtMediaLine(sc, lines, y);
    EndAfterMedia(sc, lines, y);
  }

  /** What a media line contributes is the presence check of the stream it
      closes. */
  lemma MissingAtMediaLine(sc: Scan, lines: seq<string>, y: nat)
    requires y < |lines| && IsMedia(lines[y])
    ensures Finding(RuleOf(sc), MissingKind(sc), Some(y + 1), Some(MediaCount(lines, y))) in ScanAt(sc, lines, y) <==>
      ReportsMissing(sc) && Lacks(sc, lines, y)
  {
    var c := CursorAt(MediaKind(sc), lines, y);
    assert ScanAt(sc, lines, y) ==
      MissingCheck(sc, Some(y + 1), c, SeenInStream(lines, y, MarkOf(sc)), SeenInStream(lines, y, SkipOf(sc)));
  }

  /** The check after the last line is about a later stream than the one a
      media line closes. */
  lemma EndAfterMedia(sc: Scan, lines: seq<string>, y: nat)
    requires y < |lines| && IsMedia(lines[y])
    ensures forall i | 0 <= i < |ScanEnd(sc, lines)| :: ScanEnd(sc, lines)[i].stream != Some(MediaCount(lines, y))
  {
    var e := ScanEnd(sc, lines);
    MediaCountMono(lines, y + 1, |lines|);
    if |e| == 1 {
      assert e[0].stream == Some(MediaCount(lines, |lines|));
      assert MediaCount(lines, y + 1) == MediaCount(lines, y) + 1;
    }
  }

  /** After the last line the rule reports the last stream exactly when it
      lacks the attribute, citing the number of lines (no line at all for
      the channel order rule). */
  lemma MissingAtEnd(sc: Scan, lines: seq<string>)
    ensures ScanEnd(sc, lines) ==
      if ReportsMissing(sc) && Lacks(sc, lines, |lines|)
      then [Finding(RuleOf(sc), MissingKind(sc), EndLine(sc, lines), Some(MediaCount(lines, |lines|)))]
      else []
  {
    var r := ScanEnd(sc, lines);
    if ReportsMissing(sc) && Lacks(sc, lines, |lines|) {
      assert r == [r[0]];
    } else {
      assert |r| == 0;
    }
  }

  /** A finding of any other kind that cites line `y + 1` comes from the
      checks of the scan on that line, read with the state the lines
      define. */
  lemma ScanLineHas(sc: Scan, lines: seq<string>, f: Finding, y: nat)
    requires y < |lines| && f.line == Some(y + 1) && f.kind != MissingKind(sc)
    ensures f in ScanTest(sc, lines) <==>
      !IsMedia(lines[y]) && f in LineChecks(sc, lines[y], y, CursorAt(MediaKind(sc), lines, y), SeenInStream(lines, y, MarkOf(sc)))
  {
    ScanHas(sc, lines, f, y);
    assert f !in ScanEnd(sc, lines);
  }

  /** `checkStreamsRtpMap`: a second `a=rtpmap` line in a stream with a
      payload type is reported at that line. */
  lemma DuplicateRtpmapIff(rule: Rule, encoding: string, rate: string, lines: seq<string>, y: nat)
    requires y < |lines|
    ensures Finding(rule, DuplicateRtpmap, Some(y + 1), Some(MediaCount(lines, y))) in ScanTest(RtpmapScan(rule, encoding, rate), lines) <==>
      && !IsMedia(lines[y]) && IsRtpmapLine(lines[y])
      && CursorAt("video", lines, y).pt >= 0 && SeenInStream(lines, y, IsRtpmapLine)
  {
    ScanLineHas(RtpmapScan(rule, encoding, rate), lines, Finding(rule, DuplicateRtpmap, Some(y + 1), Some(MediaCount(lines, y))), y);
  }

  /** `checkStreamsRtpMap`: the first `a=rtpmap` line of a stream with a
      payload type is reported for the wrong encoding unless it names one
      of the encodings the video rules skip. */
  lemma WrongEncodingIff(rule: Rule, encoding: string, rate: string, lines: seq<string>, y: nat)
    requires y < |lines|
    ensures Finding(rule, WrongEncoding, Some(y + 1), Some(MediaCount(lines, y))) in ScanTest(RtpmapScan(rule, encoding, rate), lines) <==>
      && !IsMedia(lines[y]) && IsRtpmapLine(lines[y])
      && CursorAt("video", lines, y).pt >= 0 && !SeenInStream(lines, y, IsRtpmapLine)
      && RtpmapOf(lines[y]).Some? && RtpmapOf(lines[y]).value.encoding !in SkipVideoTypes
      && RtpmapOf(lines[y]).value.encoding != encoding
  {
    ScanLineHas(RtpmapScan(rule, encoding, rate), lines, Finding(rule, WrongEncoding, Some(y + 1), Some(MediaCount(lines, y))), y);
  }

  /** `checkStreamsRtpMap`: the same for the clock rate. */
  lemma WrongClockRateIff(rule: Rule, encoding: string, rate: string, lines: seq<string>, y: nat)
    requires y < |lines|
    ensures Finding(rule, WrongClockRate, Some(y + 1), Some(MediaCount(lines, y))) in ScanTest(RtpmapScan(rule, encoding, rate), lines) <==>
      && !IsMedia(lines[y]) && IsRtpmapLine(lines[y])
      && CursorAt("video", lines, y).pt >= 0 && !SeenInStream(lines, y, IsRtpmapLine)
      && RtpmapOf(lines[y]).Some? && RtpmapOf(lines[y]).value.encoding !in SkipVideoTypes
      && RtpmapOf(lines[y]).value.rate != rate
  {
    ScanLineHas(RtpmapScan(rule, encoding, rate), lines, Finding(rule, WrongClockRate, Some(y + 1), Some(MediaCount(lines, y))), y);
  }

  /** `test_20_71_4`: the first `a=fmtp` line of a video stream must name
      the stream's payload type. */
  lemma FmtpPayloadIff(lines: seq<string>, y: nat)
    requires y < |lines|
    ensures Finding(Test20_71_4, FmtpPayloadMismatch, Some(y + 1), Some(MediaCount(lines, y))) in ScanTest(FmtpScan, lines) <==>
      && !IsMedia(lines[y]) && IsFmtpLine(lines[y])
      && CursorAt("video", lines, y).pt >= 0 && !SeenInStream(lines, y, IsFmtpLine)
      && FmtpOf(lines[y]).Some? && Value(FmtpOf(lines[y]).value) != CursorAt("video", lines, y).pt
  {
    ScanLineHas(FmtpScan, lines, Finding(Test20_71_4, FmtpPayloadMismatch, Some(y + 1), Some(MediaCount(lines, y))), y);
  }

  /** `test_30_62_1`: an accepted audio `a=rtpmap` line of a stream with a
      payload type is reported for a sampling rate other than 44.1, 48 or
      96 kHz. */
  lemma BadSampleRateIff(lines: seq<string>, y: nat)
    requires y < |lines|
    ensures Finding(Test30_62_1, BadSampleRate, Some(y + 1), Some(MediaCount(lines, y))) in ScanTest(SoundScan, lines) <==>
      && !IsMedia(lines[y]) && IsSoundLine(lines[y])
      && CursorAt("audio", lines, y).pt >= 0 && SoundOf(lines[y]).value.rate !in SampleRates
  {
    var c := CursorAt("audio", lines, y);
    ScanLineHas(SoundScan, lines, Report(Test30_62_1, BadSampleRate, y, c), y);
    SoundRateAt(lines[y], y, c, SeenInStream(lines, y, IsSoundLine));
  }

  /** `test_30_62_1`: 16-bit audio at 96 kHz is reported. */
  lemma L16At96kIff(lines: seq<string>, y: nat)
    requires y < |lines|
    ensures Finding(Test30_62_1, L16At96k, Some(y + 1), Some(MediaCount(lines, y))) in ScanTest(SoundScan, lines) <==>
      && !IsMedia(lines[y]) && IsSoundLine(lines[y]) && CursorAt("audio", lines, y).pt >= 0
      && Value(SoundOf(lines[y]).value.rate) == 96000 && SoundOf(lines[y]).value.encoding == "L16"
  {
    var c := CursorAt("audio", lines, y);
    ScanLineHas(SoundScan, lines, Report(Test30_62_1, L16At96k, y, c), y);
    SoundRateAt(lines[y], y, c, SeenInStream(lines, y, IsSoundLine));
  }

  /** The sampling rate findings of the audio rtpmap checks on one line. */
  lemma SoundRateAt(l: string, x: nat, c: Cursor, flag: bool)
    ensures Report(Test30_62_1, BadSampleRate, x, c) in LineChecks(SoundScan, l, x, c, flag) <==>
      IsSoundLine(l) && c.pt >= 0 && SoundOf(l).value.rate !in SampleRates
    ensures Report(Test30_62_1, L16At96k, x, c) in LineChecks(SoundScan, l, x, c, flag) <==>
      IsSoundLine(l) && c.pt >= 0 && Value(SoundOf(l).value.rate) == 96000 && SoundOf(l).value.encoding == "L16"
  {
    if IsSoundLine(l) && c.pt >= 0 {
      assert LineChecks(SoundScan, l, x, c, flag) == SoundValueChecks(SoundOf(l).value, x, c, flag);
    }
  }

  /** `test_30_62_3`: an `a=maxptime` line is checked in every stream,
      whether its media line matched or not. */
  lemma MaxptimeIff(lines: seq<string>, y: nat)
    requires y < |lines|
    ensures Finding(Test30_62_3, MaxptimePattern, Some(y + 1), Some(MediaCount(lines, y))) in ScanTest(PtimeScan, lines) <==>
      !IsMedia(lines[y]) && StartsWith(lines[y], "a=maxptime") && !IsPacketTime("maxptime", lines[y])
  {
    ScanLineHas(PtimeScan, lines, Finding(Test30_62_3, MaxptimePattern, Some(y + 1), Some(MediaCount(lines, y))), y);
  }

  /** `test_30_62_3`: a second accepted `a=ptime` line in a stream with a
      payload type is reported. */
  lemma DuplicatePtimeIff(lines: seq<string>, y: nat)
    requires y < |lines|
    ensures Finding(Test30_62_3, DuplicatePtime, Some(y + 1), Some(MediaCount(lines, y))) in ScanTest(PtimeScan, lines) <==>
      && !IsMedia(lines[y]) && IsPtimeLine(lines[y])
      && CursorAt("audio", lines, y).pt >= 0 && SeenInStream(lines, y, IsPtimeLine)
  {
    ScanLineHas(PtimeScan, lines, Finding(Test30_62_3, DuplicatePtime, Some(y + 1), Some(MediaCount(lines, y))), y);
  }

  /** `test_30_62_4`: an `a=fmtp` line without a channel order is reported
      only when channel order is required. */
  lemma FmtpWithoutOrderIff(required: bool, should: bool, lines: seq<string>, y: nat)
    requires y < |lines|
    ensures Finding(Test30_62_4, FmtpWithoutChannelOrder, Some(y + 1), Some(MediaCount(lines, y))) in ScanTest(ChannelScan(required, should), lines) <==>
      && !IsMedia(lines[y]) && IsFmtpLine(lines[y])
      && CursorAt("audio", lines, y).pt >= 0 && ChannelOrderOf(lines[y]).None? && required
  {
    ScanLineHas(ChannelScan(required, should), lines, Finding(Test30_62_4, FmtpWithoutChannelOrder, Some(y + 1), Some(MediaCount(lines, y))), y);
  }

  /** `test_30_62_4`: a channel order that starts with `SMPTE2110` but does
      not follow the convention's grammar is reported. */
  lemma ChannelOrderPatternIff(required: bool, should: bool, lines: seq<string>, y: nat)
    requires y < |lines|
    ensures Finding(Test30_62_4, ChannelOrderPattern, Some(y + 1), Some(MediaCount(lines, y))) in ScanTest(ChannelScan(required, should), lines) <==>
      && !IsMedia(lines[y]) && IsFmtpLine(lines[y])
      && CursorAt("audio", lines, y).pt >= 0 && ChannelOrderOf(lines[y]).Some?
      && StartsWith(ChannelOrderOf(lines[y]).value.1, "SMPTE2110") && !IsSmpteOrder(ChannelOrderOf(lines[y]).value.1)
  {
    var c := CursorAt("audio", lines, y);
    ScanLineHas(ChannelScan(required, should), lines, Report(Test30_62_4, ChannelOrderPattern, y, c), y);
    OrderPatternAt(required, should, lines[y], y, c, SeenInStream(lines, y, IsFmtpLine));
  }

  /** The channel order pattern finding of the channel order checks on one
      line. */
  lemma OrderPatternAt(required: bool, should: bool, l: string, x: nat, c: Cursor, flag: bool)
    ensures Report(Test30_62_4, ChannelOrderPattern, x, c) in LineChecks(ChannelScan(required, should), l, x, c, flag) <==>
      && IsFmtpLine(l) && c.pt >= 0 && ChannelOrderOf(l).Some?
      && StartsWith(ChannelOrderOf(l).value.1, "SMPTE2110") && !IsSmpteOrder(ChannelOrderOf(l).value.1)
  {
    if IsFmtpLine(l) && c.pt >= 0 && ChannelOrderOf(l).Some? {
      var m := ChannelOrderOf(l).value;
      assert LineChecks(ChannelScan(required, should), l, x, c, flag) == OrderChecks(should, m.0, m.1, x, c, flag);
    }
  }

  /** Every finding of a scan is reported by its rule. */
  lemma {:induction false} ScanFromRule(sc: Scan, lines: seq<string>, x: nat, st: State)
    requires x <= |lines|
    ensures AllFrom(ScanFrom(sc, lines, x, st), RuleOf(sc))
    decreases |lines| - x
  {
    if x < |lines| {
      var st' := Next(sc, st, lines[x]);
      ScanFromRule(sc, lines, x + 1, st');
      AllFromAppend(Body(sc, lines[x], x, st), ScanFrom(sc, lines, x + 1, st'), RuleOf(sc));
    }
  }

  lemma ScanTestRule(sc: Scan, lines: seq<string>)
    ensures AllFrom(ScanTest(sc, lines), RuleOf(sc))
  {
    ScanFromRule(sc, lines, 0, State(Start, true, false));
  }
}
