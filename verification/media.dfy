/** The media-description rules: the form of every `m=video` and `m=audio`
    line (ST 2110-10 section 6.2, checkST2110.js:421-499 and 1085-1117), the
    presence of video (checkST2110.js:454-455), and the video-only and
    audio-only stream checks (checkST2110.js:401-419 and 1219-1238). */
module MediaRules {
  import opened Text
  import opened SdpLines
  import opened Patterns
  import opened Findings

  // ---------------------------------------------------------------------
  // One media line

  /** A line that describes media of `kind` ("video" or "audio"). */
  predicate Describes(kind: string, l: string)
  {
    StartsWith(l, "m=" + kind)
  }

  /** The three checks on the fields of a matched media line: a UDP port,
      plain RTP rather than SRTP, and a dynamic payload type. Fields are
      digit runs, so `+field` is never `NaN` nor negative; only the upper
      bound of the port and both bounds of the payload type can fail. */
  function FieldChecks(rule: Rule, m: Media, x: nat): (r: seq<Finding>)
    ensures Finding(rule, InvalidPort, Some(x + 1), None) in r <==> Value(m.port) > 65535
    ensures Finding(rule, SrtpNotAllowed, Some(x + 1), None) in r <==> m.savp
    ensures Finding(rule, NotDynamicPayload, Some(x + 1), None) in r <==> !(96 <= Value(m.pt) <= 127)
    ensures forall i | 0 <= i < |r| :: r[i].rule == rule && r[i].line == Some(x + 1) && r[i].stream.None?
    ensures forall i | 0 <= i < |r| :: r[i].kind in {InvalidPort, SrtpNotAllowed, NotDynamicPayload}
  {
    (if Value(m.port) > 65535 then [Finding(rule, InvalidPort, Some(x + 1), None)] else [])
    + (if m.savp then [Finding(rule, SrtpNotAllowed, Some(x + 1), None)] else [])
    + (if Value(m.pt) < 96 || Value(m.pt) > 127 then [Finding(rule, NotDynamicPayload, Some(x + 1), None)] else [])
  }

  /** What the loop body of checkST2110.js:428-451 (video) or 1090-1111
      (audio) reports for line `x`: nothing for a line that is not a media
      line of `kind`, a pattern error when the media pattern does not
      match, and otherwise the field checks. */
  function MediaLineChecks(rule: Rule, kind: string, l: string, x: nat): (r: seq<Finding>)
    ensures !Describes(kind, l) ==> r == []
    ensures Finding(rule, MediaPattern, Some(x + 1), None) in r <==> Describes(kind, l) && MediaOf(kind, l).None?
    ensures Describes(kind, l) && MediaOf(kind, l).Some? ==> r == FieldChecks(rule, MediaOf(kind, l).value, x)
    ensures forall i | 0 <= i < |r| :: r[i].rule == rule && r[i].line == Some(x + 1) && r[i].stream.None?
  {
    if !Describes(kind, l) then []
    else
      match MediaOf(kind, l)
      case None => [Finding(rule, MediaPattern, Some(x + 1), None)]
      case Some(m) => FieldChecks(rule, m, x)
  }

  /** A media line written with a port and a payload type in range and
      plain RTP passes every check. */
  lemma WrittenMediaLinePasses(rule: Rule, kind: string, port: string, pt: string, x: nat)
    requires kind == "video" || kind == "audio"
    requires |port| > 0 && AllDigits(port) && Value(port) <= 65535
    requires |pt| > 0 && AllDigits(pt) && 96 <= Value(pt) <= 127
    ensures MediaLineChecks(rule, kind, MediaLine(kind, port, false, pt), x) == []
  {
    var l := MediaLine(kind, port, false, pt);
    var head := "m=" + kind;
    var rest := " " + (port + (" " + ("RTP/" + ("" + ("AVP" + (" " + pt))))));
    assert l == head + rest;
    assert l[..|head|] == head by { assert (head + rest)[..|head|] == head; }
    assert Describes(kind, l);
    MediaRoundTrip(kind, port, false, pt);
    assert FieldChecks(rule, Media(port, false, pt), x) == [];
  }

  // ---------------------------------------------------------------------
  // Every media line

  /** What each line contributes. */
  function MediaChunks(rule: Rule, kind: string, lines: seq<string>): (r: seq<seq<Finding>>)
    ensures |r| == |lines| && LineTagged(r)
  {
    seq(|lines|, x requires 0 <= x < |lines| => MediaLineChecks(rule, kind, lines[x], x))
  }

  /** The loop over every line, without its closing checks. */
  function MediaScan(rule: Rule, kind: string, lines: seq<string>): (r: seq<Finding>)
  {
    FlattenFrom(MediaChunks(rule, kind, lines), 0)
  }

  /** A finding that cites line `y + 1` is reported exactly when the checks
      of that line report it. */
  lemma MediaScanHas(rule: Rule, kind: string, lines: seq<string>, f: Finding, y: nat)
    requires f.line == Some(y + 1)
    ensures f in MediaScan(rule, kind, lines) <==> y < |lines| && f in MediaLineChecks(rule, kind, lines[y], y)
  {
    FlattenHas(MediaChunks(rule, kind, lines), 0, f, y);
  }

  /** Some line describes video. */
  predicate HasVideo(lines: seq<string>)
  {
    exists x | 0 <= x < |lines| :: Describes("video", lines[x])
  }

  /** checkST2110.js:422 `test_10_62_1`: every video media line checked,
      and an error when there is none. */
  function VideoTest(lines: seq<string>): (r: seq<Finding>)
    ensures Finding(Test10_62_1, NoVideo, None, None) in r <==> !HasVideo(lines)
  {
    var scan := MediaScan(Test10_62_1, "video", lines);
    FlattenLines(MediaChunks(Test10_62_1, "video", lines), 0, Finding(Test10_62_1, NoVideo, None, None));
    scan + (if HasVideo(lines) then [] else [Finding(Test10_62_1, NoVideo, None, None)])
  }

  /** checkST2110.js:465 `test_20_71_2`: the same checks, without the
      presence error. */
  function VideoFieldsTest(lines: seq<string>): seq<Finding>
  {
    MediaScan(Test20_71_2, "video", lines)
  }

  /** checkST2110.js:1085 `test_30_62_2`: the same checks on audio lines. */
  function AudioFieldsTest(lines: seq<string>): seq<Finding>
  {
    MediaScan(Test30_62_2, "audio", lines)
  }

  /** checkST2110.js:1382 `test_22_71_1`: the errors of `test_10_62_1`,
      passed on as its own. */
  function Video22Test(lines: seq<string>): (r: seq<Finding>)
    ensures |r| == |VideoTest(lines)| && AllFrom(r, Test22_71_1)
    ensures forall i | 0 <= i < |r| :: r[i].kind == VideoTest(lines)[i].kind && r[i].line == VideoTest(lines)[i].line
  {
    Retag(VideoTest(lines), Test22_71_1)
  }

  /** A video rule reports a bad port on line `y + 1` exactly when that line
      is a matched video media line whose port exceeds 65535. */
  lemma VideoPortIff(lines: seq<string>, y: nat)
    ensures Finding(Test10_62_1, InvalidPort, Some(y + 1), None) in VideoTest(lines) <==>
      && y < |lines| && Describes("video", lines[y]) && MediaOf("video", lines[y]).Some?
      && Value(MediaOf("video", lines[y]).value.port) > 65535
  {
    var f := Finding(Test10_62_1, InvalidPort, Some(y + 1), None);
    MediaScanHas(Test10_62_1, "video", lines, f, y);
  }

  /** The same for the payload type: it is reported exactly when it lies
      outside the dynamic range 96 to 127. */
  lemma VideoPayloadIff(lines: seq<string>, y: nat)
    ensures Finding(Test10_62_1, NotDynamicPayload, Some(y + 1), None) in VideoTest(lines) <==>
      && y < |lines| && Describes("video", lines[y]) && MediaOf("video", lines[y]).Some?
      && !(96 <= Value(MediaOf("video", lines[y]).value.pt) <= 127)
  {
    var f := Finding(Test10_62_1, NotDynamicPayload, Some(y + 1), None);
    MediaScanHas(Test10_62_1, "video", lines, f, y);
  }

  /** An audio media line is refused exactly when the audio pattern does not
      match it. */
  lemma AudioPatternIff(lines: seq<string>, y: nat)
    ensures Finding(Test30_62_2, MediaPattern, Some(y + 1), None) in AudioFieldsTest(lines) <==>
      y < |lines| && Describes("audio", lines[y]) && MediaOf("audio", lines[y]).None?
  {
    var f := Finding(Test30_62_2, MediaPattern, Some(y + 1), None);
    MediaScanHas(Test30_62_2, "audio", lines, f, y);
  }

  // ---------------------------------------------------------------------
  // Video-only and audio-only files

  /** The loop of checkST2110.js:406-410 (or 1223-1227) from stream
      `x + 1`: each stream whose text does not start with `kind` is cited,
      1-based. */
  function OnlyFrom(rule: Rule, kind: string, k: Kind, streams: seq<string>, x: nat): (r: seq<Finding>)
    requires x <= |streams|
    ensures forall i | 0 <= i < |r| :: r[i] == Finding(rule, k, None, r[i].stream) && r[i].stream.Some?
    decreases |streams| - x
  {
    if x == |streams| then []
    else
      (if !StartsWith(streams[x], kind) then [Finding(rule, k, None, Some(x + 1))] else [])
      + OnlyFrom(rule, kind, k, streams, x + 1)
  }

  /** Stream `n` is cited exactly when its media type is not `kind`. */
  lemma {:induction false} OnlyIff(rule: Rule, kind: string, k: Kind, streams: seq<string>, x: nat, n: nat)
    requires x <= |streams|
    ensures CitesStream(OnlyFrom(rule, kind, k, streams, x), n) <==>
      x + 1 <= n <= |streams| && !StartsWith(streams[n - 1], kind)
    decreases |streams| - x
  {
    if x < |streams| {
      OnlyIff(rule, kind, k, streams, x + 1, n);
      var f := Finding(rule, k, None, Some(x + 1));
      var head: seq<Finding> := if !StartsWith(streams[x], kind) then [f] else [];
      CitesOne(f, n);
      CitesAppend(head, OnlyFrom(rule, kind, k, streams, x + 1), n);
    }
  }

  /** Stream `n` is cited once if its media type is not `kind`, and
      otherwise not at all. */
  lemma {:induction false} OnlyCount(rule: Rule, kind: string, k: Kind, streams: seq<string>, x: nat, n: nat)
    requires x <= |streams|
    ensures CountCiting(OnlyFrom(rule, kind, k, streams, x), n) ==
      if x + 1 <= n <= |streams| && !StartsWith(streams[n - 1], kind) then 1 else 0
    decreases |streams| - x
  {
    if x < |streams| {
      OnlyCount(rule, kind, k, streams, x + 1, n);
      var head: seq<Finding> := if !StartsWith(streams[x], kind) then [Finding(rule, k, None, Some(x + 1))] else [];
      CountCitingOnly(head, x + 1, n);
      CountCitingAppend(head, OnlyFrom(rule, kind, k, streams, x + 1), n);
    }
  }

  /** checkST2110.js:402 `test_20_71_1`: with `videoOnly`, every stream
      that is not video. */
  function VideoOnlyTest(sdp: string, p: Params): (r: seq<Finding>)
    ensures !p.videoOnly ==> r == []
    ensures forall i | 0 <= i < |r| :: r[i] == Finding(Test20_71_1, NotVideo, None, r[i].stream) && r[i].stream.Some?
  {
    if p.videoOnly then OnlyFrom(Test20_71_1, "video", NotVideo, Streams(sdp), 0) else []
  }

  /** checkST2110.js:1220 `test_30_62_5`: with `audioOnly`, every stream
      that is not audio. */
  function AudioOnlyTest(sdp: string, p: Params): (r: seq<Finding>)
    ensures !p.audioOnly ==> r == []
    ensures forall i | 0 <= i < |r| :: r[i] == Finding(Test30_62_5, NotAudio, None, r[i].stream) && r[i].stream.Some?
  {
    if p.audioOnly then OnlyFrom(Test30_62_5, "audio", NotAudio, Streams(sdp), 0) else []
  }

  /** With `videoOnly`, stream `n` is cited exactly when the text after its
      `m=` does not start with `video`, and then once. */
  lemma VideoOnlyIff(sdp: string, p: Params, n: nat)
    ensures CitesStream(VideoOnlyTest(sdp, p), n) <==>
      p.videoOnly && 1 <= n <= |Streams(sdp)| && !StartsWith(Streams(sdp)[n - 1], "video")
    ensures CountCiting(VideoOnlyTest(sdp, p), n) ==
      if p.videoOnly && 1 <= n <= |Streams(sdp)| && !StartsWith(Streams(sdp)[n - 1], "video") then 1 else 0
  {
    OnlyIff(Test20_71_1, "video", NotVideo, Streams(sdp), 0, n);
    OnlyCount(Test20_71_1, "video", NotVideo, Streams(sdp), 0, n);
  }

  /** The same for `audioOnly` and `audio`. */
  lemma AudioOnlyIff(sdp: string, p: Params, n: nat)
    ensures CitesStream(AudioOnlyTest(sdp, p), n) <==>
      p.audioOnly && 1 <= n <= |Streams(sdp)| && !StartsWith(Streams(sdp)[n - 1], "audio")
    ensures CountCiting(AudioOnlyTest(sdp, p), n) ==
      if p.audioOnly && 1 <= n <= |Streams(sdp)| && !StartsWith(Streams(sdp)[n - 1], "audio") then 1 else 0
  {
    OnlyIff(Test30_62_5, "audio", NotAudio, Streams(sdp), 0, n);
    OnlyCount(Test30_62_5, "audio", NotAudio, Streams(sdp), 0, n);
  }

  /** Every finding of a media scan is reported by its rule. */
  lemma MediaScanRule(rule: Rule, kind: string, lines: seq<string>)
    ensures AllFrom(MediaScan(rule, kind, lines), rule)
  {
    FlattenAll(MediaChunks(rule, kind, lines), 0, rule);
  }

  lemma VideoRule(lines: seq<string>)
    ensures AllFrom(VideoTest(lines), Test10_62_1)
    ensures AllFrom(VideoFieldsTest(lines), Test20_71_2)
    ensures AllFrom(AudioFieldsTest(lines), Test30_62_2)
  {
    MediaScanRule(Test10_62_1, "video", lines);
    MediaScanRule(Test20_71_2, "video", lines);
    MediaScanRule(Test30_62_2, "audio", lines);
    var tail := if HasVideo(lines) then [] else [Finding(Test10_62_1, NoVideo, None, None)];
    AllFromAppend(MediaScan(Test10_62_1, "video", lines), tail, Test10_62_1);
  }
}
