/** The clock rules of ST 2110-10 sections 7.4, 8.1 and 8.2
    (checkST2110.js:103-281): media clock offsets, media clock presence and
    form, and the reference clock attribute. */
module Clock {
  import opened Text
  import opened SdpLines
  import opened Patterns
  import opened Findings
  import opened Tracking
  import opened Regex

  // ---------------------------------------------------------------------
  // Section 7.4: a direct media clock over PTP has a zero offset

  /** `stream.indexOf('IEEE1588-2008') > 0`: the stream names a PTP clock
      somewhere after its first character. */
  predicate UsesPtp(st: string)
  {
    var k := IndexOf(st, "IEEE1588-2008", 0);
    k.Some? && k.value > 0
  }

  /** The stream names a PTP clock and a direct media clock offset that
      is not zero. */
  predicate OffsetViolated(st: string)
  {
    UsesPtp(st) && exists i | 0 <= i < |DirectOffsets(st)| :: DirectOffsets(st)[i] != 0
  }

  /** The offsets that are not zero, in order. */
  function NonZero(offsets: seq<nat>): (r: seq<nat>)
    ensures |r| <= |offsets| && forall i | 0 <= i < |r| :: r[i] != 0
  {
    if |offsets| == 0 then []
    else
      (if offsets[0] != 0 then [offsets[0]] else []) + NonZero(offsets[1..])
  }

  /** One finding per non-zero offset, citing stream `s`. */
  function OffsetFindings(offsets: seq<nat>, s: nat): (r: seq<Finding>)
    ensures |r| == |NonZero(offsets)|
    ensures forall i | 0 <= i < |r| :: r[i].rule == Test10_74_1 && r[i].kind == NonZeroMediaclkOffset
    ensures forall i | 0 <= i < |r| :: r[i].line.None? && r[i].stream == Some(s)
    ensures |r| == 0 <==> forall i | 0 <= i < |offsets| :: offsets[i] == 0
  {
    if |offsets| == 0 then []
    else
      var rest := OffsetFindings(offsets[1..], s);
      assert forall i | 1 <= i < |offsets| :: offsets[i] == offsets[1..][i - 1];
      (if offsets[0] != 0 then [Finding(Test10_74_1, NonZeroMediaclkOffset, None, Some(s))] else []) + rest
  }

  /** What stream `s` contributes: its direct offsets are checked only
      when it names a PTP clock. */
  function ZeroOffsetStream(st: string, s: nat): (r: seq<Finding>)
    ensures forall i | 0 <= i < |r| :: r[i] == Finding(Test10_74_1, NonZeroMediaclkOffset, None, Some(s))
    ensures |r| == if UsesPtp(st) then |NonZero(DirectOffsets(st))| else 0
    ensures |r| > 0 <==> OffsetViolated(st)
  {
    var offsets := DirectOffsets(st);
    if |offsets| == 0 then
      assert NonZero(offsets) == [];
      []
    else if UsesPtp(st) then OffsetFindings(offsets, s)
    else []
  }

  /** What each stream contributes, in stream order. The stream number
      cited is the 0-based index the source's `for ... in` loop uses. */
  function ZeroOffsetChunks(streams: seq<string>): (r: seq<seq<Finding>>)
    ensures |r| == |streams| && StreamTagged(r)
    ensures forall s | 0 <= s < |r| :: AllFrom(r[s], Test10_74_1)
    ensures forall s | 0 <= s < |r| :: |r[s]| == if UsesPtp(streams[s]) then |NonZero(DirectOffsets(streams[s]))| else 0
    ensures forall s | 0 <= s < |r| :: |r[s]| > 0 <==> OffsetViolated(streams[s])
  {
    seq(|streams|, s requires 0 <= s < |streams| => ZeroOffsetStream(streams[s], s))
  }

  /** checkST2110.js:106-124 `test_10_74_1`: the loop over the streams
      of checkST2110.js:108-119. */
  function ZeroOffsetTest(sdp: string): (r: seq<Finding>)
    ensures AllFrom(r, Rule.Test10_74_1)
  {
    var chunks := ZeroOffsetChunks(Streams(sdp));
    FlattenAll(chunks, 0, Test10_74_1);
    FlattenFrom(chunks, 0)
  }

  /** A stream is cited exactly when it names a PTP clock and one of its
      direct media clock offsets is not zero. */
  lemma ZeroOffsetIff(sdp: string, n: nat)
    ensures CitesStream(ZeroOffsetTest(sdp), n) <==> n < |Streams(sdp)| && OffsetViolated(Streams(sdp)[n])
  {
    var chunks := ZeroOffsetChunks(Streams(sdp));
    FlattenCount(chunks, 0, n);
    CountCitingCites(FlattenFrom(chunks, 0), n);
  }

  /** Stream `n` is cited once per non-zero direct offset it has when it
      names a PTP clock, and not at all otherwise. */
  lemma ZeroOffsetCount(sdp: string, n: nat)
    ensures CountCiting(ZeroOffsetTest(sdp), n) ==
      if n < |Streams(sdp)| && UsesPtp(Streams(sdp)[n]) then |NonZero(DirectOffsets(Streams(sdp)[n]))| else 0
  {
    FlattenCount(ZeroOffsetChunks(Streams(sdp)), 0, n);
  }

  // ---------------------------------------------------------------------
  // Section 8.1: every stream has a media clock, preferably direct

  /** The loop of checkST2110.js:131-135 from stream `x`: streams without
      an `a=mediaclk` attribute, cited 1-based. */
  function MediaclkFrom(streams: seq<string>, x: nat): (r: seq<Finding>)
    requires x <= |streams|
    ensures |r| <= |streams| - x
    ensures forall i | 0 <= i < |r| :: r[i].rule == Test10_81_1 && r[i].kind == MissingMediaclk && r[i].line.None?
    decreases |streams| - x
  {
    if x == |streams| then []
    else
      (if !HasAttribute(streams[x], "a=mediaclk") then [Finding(Test10_81_1, MissingMediaclk, None, Some(x + 1))] else [])
      + MediaclkFrom(streams, x + 1)
  }

  /** checkST2110.js:128 `test_10_81_1`. */
  function MediaclkTest(sdp: string): (r: seq<Finding>)
    ensures AllFrom(r, Rule.Test10_81_1)
    ensures |r| <= |Streams(sdp)|
    ensures forall i | 0 <= i < |r| :: r[i].kind == MissingMediaclk && r[i].line.None?
  {
    MediaclkFrom(Streams(sdp), 0)
  }

  /** Stream `n` (1-based) is cited exactly when it has no line starting
      with `a=mediaclk`. */
  lemma {:induction false} MediaclkIff(streams: seq<string>, x: nat, n: nat)
    requires x <= |streams|
    ensures CitesStream(MediaclkFrom(streams, x), n) <==>
      x + 1 <= n <= |streams| && !HasAttribute(streams[n - 1], "a=mediaclk")
    decreases |streams| - x
  {
    if x < |streams| {
      MediaclkIff(streams, x + 1, n);
      var head: seq<Finding> :=
        if !HasAttribute(streams[x], "a=mediaclk") then [Finding(Test10_81_1, MissingMediaclk, None, Some(x + 1))] else [];
      CitesOne(Finding(Test10_81_1, MissingMediaclk, None, Some(x + 1)), n);
      CitesAppend(head, MediaclkFrom(streams, x + 1), n);
    }
  }

  /** Stream `n` is cited once if it has no `a=mediaclk` attribute, and
      otherwise not at all. */
  lemma {:induction false} MediaclkCount(streams: seq<string>, x: nat, n: nat)
    requires x <= |streams|
    ensures CountCiting(MediaclkFrom(streams, x), n) ==
      if x + 1 <= n <= |streams| && !HasAttribute(streams[n - 1], "a=mediaclk") then 1 else 0
    decreases |streams| - x
  {
    if x < |streams| {
      MediaclkCount(streams, x + 1, n);
      var head: seq<Finding> :=
        if !HasAttribute(streams[x], "a=mediaclk") then [Finding(Test10_81_1, MissingMediaclk, None, Some(x + 1))] else [];
      CountCitingOnly(head, x + 1, n);
      CountCitingAppend(head, MediaclkFrom(streams, x + 1), n);
    }
  }

  /** The media clock types that are not `direct`, each reported with the
      text found. */
  function NotDirect(types: seq<string>): (r: seq<Finding>)
    ensures |r| <= |types|
    ensures forall i | 0 <= i < |r| :: r[i].rule == Test10_81_2 && r[i].kind.MediaclkNotDirect?
    ensures forall i | 0 <= i < |r| :: r[i].kind.found in types && !StartsWith(r[i].kind.found, "a=mediaclk:direct")
    ensures forall t | t in types && !StartsWith(t, "a=mediaclk:direct") ::
      Finding(Test10_81_2, MediaclkNotDirect(t), None, None) in r
  {
    if |types| == 0 then []
    else
      var t := types[0];
      var rest := NotDirect(types[1..]);
      assert forall u | u in types[1..] :: u in types;
      assert forall u | u in types :: u == t || u in types[1..];
      (if !StartsWith(t, "a=mediaclk:direct") then [Finding(Test10_81_2, MediaclkNotDirect(t), None, None)] else []) + rest
  }

  /** Each type that is not `direct` is reported as many times as it
      occurs, as `filter` then `map` does. */
  lemma {:induction false} NotDirectCount(types: seq<string>, t: string)
    requires !StartsWith(t, "a=mediaclk:direct")
    ensures multiset(NotDirect(types))[Finding(Test10_81_2, MediaclkNotDirect(t), None, None)] == multiset(types)[t]
    decreases |types|
  {
    if |types| > 0 {
      var u := types[0];
      NotDirectCount(types[1..], t);
      var head: seq<Finding> := if !StartsWith(u, "a=mediaclk:direct") then [Finding(Test10_81_2, MediaclkNotDirect(u), None, None)] else [];
      assert NotDirect(types) == head + NotDirect(types[1..]);
      MultisetCons(types, t);
    }
  }

  /** checkST2110.js:144 `test_10_81_2`. The rule is skipped only when
      `should` is off and `verbose` is on; with both off it runs. */
  function DirectTest(sdp: string, p: Params): (r: seq<Finding>)
    ensures !p.should && p.verbose ==> r == []
    ensures p.should || !p.verbose ==> forall t | t in MediaclkTypes(sdp) && !StartsWith(t, "a=mediaclk:direct") ::
      Finding(Rule.Test10_81_2, MediaclkNotDirect(t), None, None) in r
    ensures p.should || !p.verbose ==> forall t | !StartsWith(t, "a=mediaclk:direct") ::
      multiset(r)[Finding(Rule.Test10_81_2, MediaclkNotDirect(t), None, None)] == multiset(MediaclkTypes(sdp))[t]
    ensures forall i | 0 <= i < |r| ::
              r[i].kind.MediaclkNotDirect? && r[i].kind.found in MediaclkTypes(sdp) &&
              !StartsWith(r[i].kind.found, "a=mediaclk:direct")
    ensures AllFrom(r, Rule.Test10_81_2)
  {
    assert forall t | !StartsWith(t, "a=mediaclk:direct") ::
      multiset(NotDirect(MediaclkTypes(sdp)))[Finding(Rule.Test10_81_2, MediaclkNotDirect(t), None, None)] == multiset(MediaclkTypes(sdp))[t]
    by {
      forall t | !StartsWith(t, "a=mediaclk:direct") {
        NotDirectCount(MediaclkTypes(sdp), t);
      }
    }
    if !p.should && p.verbose then [] else NotDirect(MediaclkTypes(sdp))
  }

  // ---------------------------------------------------------------------
  // Section 8.2: reference clocks

  /** checkST2110.js:166 `test_10_82_1`. The source looks for
      `a=ts-refclk` in the whole text, not in each stream: the rule cites
      every stream or none. */
  function RefclkTest(sdp: string): (r: seq<Finding>)
    ensures AllFrom(r, Rule.Test10_82_1)
    ensures |r| == if HasAttribute(sdp, "a=ts-refclk") then 0 else |Streams(sdp)|
    ensures forall i | 0 <= i < |r| :: r[i].kind == MissingTsRefclk && r[i].line.None?
  {
    RefclkAllOrNothing(Streams(sdp), 0, HasAttribute(sdp, "a=ts-refclk"), 0);
    RefclkFrom(Streams(sdp), 0, HasAttribute(sdp, "a=ts-refclk"))
  }

  /** The loop of checkST2110.js:172-176 from stream `x`, with the result
      of the text-wide test in `present`. */
  function RefclkFrom(streams: seq<string>, x: nat, present: bool): (r: seq<Finding>)
    requires x <= |streams|
    ensures AllFrom(r, Rule.Test10_82_1)
    ensures forall i | 0 <= i < |r| :: r[i].kind == MissingTsRefclk && r[i].line.None?
    decreases |streams| - x
  {
    if x == |streams| then []
    else (if !present then [Finding(Test10_82_1, MissingTsRefclk, None, Some(x + 1))] else []) + RefclkFrom(streams, x + 1, present)
  }

  /** All or nothing: without any `a=ts-refclk` line every stream is cited
      once, otherwise none is. */
  lemma {:induction false} RefclkAllOrNothing(streams: seq<string>, x: nat, present: bool, n: nat)
    requires x <= |streams|
    ensures |RefclkFrom(streams, x, present)| == if present then 0 else |streams| - x
    ensures CitesStream(RefclkFrom(streams, x, present), n) <==> !present && x + 1 <= n <= |streams|
    decreases |streams| - x
  {
    if x < |streams| {
      RefclkAllOrNothing(streams, x + 1, present, n);
      var head: seq<Finding> := if !present then [Finding(Test10_82_1, MissingTsRefclk, None, Some(x + 1))] else [];
      CitesOne(Finding(Test10_82_1, MissingTsRefclk, None, Some(x + 1)), n);
      CitesAppend(head, RefclkFrom(streams, x + 1, present), n);
    }
  }

  /** The three line checks made at media level. */
  datatype RefclkCheck = Form | Ptp | Mac

  function RuleOf(c: RefclkCheck): Rule
  {
    match c
    case Form => Test10_82_2
    case Ptp => Test10_82_3
    case Mac => Test10_82_4
  }

  /** checkST2110.js:193-200: a reference clock in neither the PTP nor the
      local MAC form. */
  function FormCheck(l: string): Option<Kind>
  {
    if StartsWith(l, "a=ts-refclk") && !StartsWith(l, "a=ts-refclk:ptp=") && !StartsWith(l, "a=ts-refclk:localmac")
    then Some(RefclkForm) else None
  }

  /** checkST2110.js:225-249 on the text after `a=ts-refclk:ptp=`. */
  function PtpDetailsCheck(d: string): Option<Kind>
  {
    if StartsWith(d, "traceable") then Some(DeprecatedTraceable)
    else if !StartsWith(d, "IEEE1588-2008:") then Some(UnsupportedPtpVersion)
    else
      match PtpOf(d[14..])
      case None => Some(PtpServerPattern)
      case Some(Traceable) => None
      case Some(Clock(_, None)) => Some(PtpDomainMissing)
      case Some(Clock(_, Some(domain))) => if Value(domain) > 127 then Some(PtpDomainRange) else None
  }

  function PtpCheck(l: string): Option<Kind>
  {
    if StartsWith(l, "a=ts-refclk:ptp=") then PtpDetailsCheck(l[16..]) else None
  }

  /** checkST2110.js:270-275: a local MAC clock without a MAC address. */
  function MacCheck(l: string): Option<Kind>
  {
    if StartsWith(l, "a=ts-refclk:localmac=") && !HasMac(l[21..]) then Some(InvalidMac) else None
  }

  function Check(c: RefclkCheck, l: string): Option<Kind>
  {
    match c
    case Form => FormCheck(l)
    case Ptp => PtpCheck(l)
    case Mac => MacCheck(l)
  }

  /** The loops of checkST2110.js:188-203, 216-250 and 261-276 from line
      `x`: lines up to and including the first media line are skipped
      (`mediaLevel` false), every later line is checked. */
  function ScanFrom(lines: seq<string>, x: nat, mediaLevel: bool, c: RefclkCheck): seq<Finding>
    requires x <= |lines|
    decreases |lines| - x
  {
    if x == |lines| then []
    else if !mediaLevel then ScanFrom(lines, x + 1, IsMedia(lines[x]), c)
    else
      (if Check(c, lines[x]).Some? then [Finding(RuleOf(c), Check(c, lines[x]).value, Some(x + 1), None)] else [])
      + ScanFrom(lines, x + 1, true, c)
  }

  /** `test_10_82_2`, `test_10_82_3`, `test_10_82_4` (checkST2110.js:185,
      213, 258) on the lines of the text. */
  function MediaLevelTest(lines: seq<string>, c: RefclkCheck): seq<Finding>
  {
    ScanFrom(lines, 0, false, c)
  }

  /** What line `x` contributes, decided from the lines alone: it is
      cited when a media line precedes it and the check fails on it. */
  function MediaLevelAt(lines: seq<string>, x: nat, c: RefclkCheck): (r: seq<Finding>)
    requires x < |lines|
    ensures CitesLine(r, x + 1) <==> AfterMedia(lines, x) && Check(c, lines[x]).Some?
    ensures |r| <= 1 && (|r| == 1 ==> r[0].rule == RuleOf(c) && Check(c, lines[x]) == Some(r[0].kind))
    ensures forall i | 0 <= i < |r| :: r[i].line == Some(x + 1)
  {
    if AfterMedia(lines, x) && Check(c, lines[x]).Some? then
      var f := Finding(RuleOf(c), Check(c, lines[x]).value, Some(x + 1), None);
      CitesOne(f, x + 1);
      [f]
    else []
  }

  /** The same findings read line by line. */
  function MediaLevelFrom(lines: seq<string>, x: nat, c: RefclkCheck): (r: seq<Finding>)
    requires x <= |lines|
    decreases |lines| - x
  {
    if x == |lines| then [] else MediaLevelAt(lines, x, c) + MediaLevelFrom(lines, x + 1, c)
  }

  /** The loop's flag is "some media line came before". */
  lemma {:induction false} ScanFromLines(lines: seq<string>, x: nat, mediaLevel: bool, c: RefclkCheck)
    requires x <= |lines| && mediaLevel == AfterMedia(lines, x)
    ensures ScanFrom(lines, x, mediaLevel, c) == MediaLevelFrom(lines, x, c)
    decreases |lines| - x
  {
    if x < |lines| {
      AfterMediaStep(lines, x);
      ScanFromLines(lines, x + 1, mediaLevel || IsMedia(lines[x]), c);
    }
  }

  /** A line is cited exactly when it follows a media line and fails the
      check. */
  lemma {:induction false} MediaLevelIff(lines: seq<string>, x: nat, c: RefclkCheck, y: nat)
    requires x <= |lines|
    ensures CitesLine(MediaLevelFrom(lines, x, c), y + 1) <==>
      x <= y < |lines| && AfterMedia(lines, y) && Check(c, lines[y]).Some?
    decreases |lines| - x
  {
    if x < |lines| {
      MediaLevelIff(lines, x + 1, c, y);
      var head := MediaLevelAt(lines, x, c);
      CitesAppend(head, MediaLevelFrom(lines, x + 1, c), y + 1);
    }
  }

  /** The media-level rules cite exactly the failing lines after the first
      media line. */
  lemma MediaLevelTestIff(lines: seq<string>, c: RefclkCheck, y: nat)
    ensures CitesLine(MediaLevelTest(lines, c), y + 1) <==>
      y < |lines| && AfterMedia(lines, y) && Check(c, lines[y]).Some?
  {
    ScanFromLines(lines, 0, false, c);
    MediaLevelIff(lines, 0, c, y);
  }

  // ---------------------------------------------------------------------
  // The reference clock lines the PTP and MAC checks accept

  /** A PTP clock identity with a domain number is accepted exactly when
      the domain is at most 127. */
  lemma PtpDomainChecked(eui: string, domain: string)
    requires IsHexPairs(eui, IsUpperHex, 7) && |domain| > 0 && AllDigits(domain)
    ensures PtpCheck("a=ts-refclk:ptp=" + ("IEEE1588-2008:" + (eui + (":" + domain)))) ==
      if Value(domain) <= 127 then None else Some(PtpDomainRange)
  {
    var rest := eui + (":" + domain);
    PtpDetailsOf(rest);
    PtpClockDomain(eui, domain);
  }

  /** A PTP clock identity without a domain number is refused. */
  lemma PtpDomainRequired(eui: string)
    requires IsHexPairs(eui, IsUpperHex, 7)
    ensures PtpCheck("a=ts-refclk:ptp=" + ("IEEE1588-2008:" + eui)) == Some(PtpDomainMissing)
  {
    PtpDetailsOf(eui);
    PtpClockOnly(eui);
  }

  /** The RFC 7273 form of a traceable clock is accepted. */
  lemma PtpTraceableAccepted()
    ensures PtpCheck("a=ts-refclk:ptp=" + ("IEEE1588-2008:" + "traceable")) == None
  {
    PtpDetailsOf("traceable");
    PtpTraceable();
  }

  /** `traceable` without the PTP version is the deprecated form. */
  lemma PtpBareTraceable(rest: string)
    ensures PtpCheck("a=ts-refclk:ptp=" + ("traceable" + rest)) == Some(DeprecatedTraceable)
  {
    var l := "a=ts-refclk:ptp=" + ("traceable" + rest);
    assert l[..16] == "a=ts-refclk:ptp=";
    assert l[16..] == "traceable" + rest;
    assert ("traceable" + rest)[..9] == "traceable";
  }

  /** How a line in the IEEE 1588-2008 form is taken apart. */
  lemma PtpDetailsOf(rest: string)
    ensures PtpCheck("a=ts-refclk:ptp=" + ("IEEE1588-2008:" + rest)) == PtpDetailsCheck("IEEE1588-2008:" + rest)
    ensures PtpDetailsCheck("IEEE1588-2008:" + rest) ==
      match PtpOf(rest)
      case None => Some(PtpServerPattern)
      case Some(Traceable) => None
      case Some(Clock(_, None)) => Some(PtpDomainMissing)
      case Some(Clock(_, Some(domain))) => if Value(domain) > 127 then Some(PtpDomainRange) else None
  {
    var d := "IEEE1588-2008:" + rest;
    var l := "a=ts-refclk:ptp=" + d;
    assert l[..16] == "a=ts-refclk:ptp=";
    assert l[16..] == d;
    assert d[..14] == "IEEE1588-2008:";
    assert d[14..] == rest;
    PrefixesDiffer(d, "IEEE1588-2008:", "traceable", 0);
  }

  /** A local MAC clock naming a MAC address is accepted. */
  lemma MacAccepted(mac: string)
    requires IsHexPairs(mac, IsHex, 5)
    ensures MacCheck("a=ts-refclk:localmac=" + mac) == None
  {
    var l := "a=ts-refclk:localmac=" + mac;
    assert l[21..] == mac;
    MacFound("", mac, "");
    assert "" + mac + "" == mac;
  }

  /** Every finding of the media-level loop is reported by its rule. */
  lemma {:induction false} ScanFromRule(lines: seq<string>, x: nat, mediaLevel: bool, c: RefclkCheck)
    requires x <= |lines|
    ensures AllFrom(ScanFrom(lines, x, mediaLevel, c), RuleOf(c))
    decreases |lines| - x
  {
    if x < |lines| {
      if !mediaLevel {
        ScanFromRule(lines, x + 1, IsMedia(lines[x]), c);
      } else {
        ScanFromRule(lines, x + 1, true, c);
        var k := Check(c, lines[x]);
        var head := if k.Some? then [Finding(RuleOf(c), k.value, Some(x + 1), None)] else [];
        AllFromAppend(head, ScanFrom(lines, x + 1, true, c), RuleOf(c));
      }
    }
  }

  lemma MediaLevelRule(lines: seq<string>, c: RefclkCheck)
    ensures AllFrom(MediaLevelTest(lines, c), RuleOf(c))
  {
    ScanFromRule(lines, 0, false, c);
  }
}
