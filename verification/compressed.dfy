/** The ST 2110-22 rules that read the lines themselves
    (checkST2110.js:1414-1491): the bandwidth attribute and the two ways of
    giving the frame rate of compressed video. */
module CompressedRules {
  import opened Text
  import opened Patterns
  import opened Findings
  import opened Extract
  import opened RecordRules

  // ---------------------------------------------------------------------
  // A loop over the lines that notes whether some line was found

  /** The two loops: over `b=` lines (section 7.3) and over
      `a=framerate` lines (section 7.4). */
  datatype Attribute = Bandwidth | FrameRateAttribute

  function RuleOfAttribute(a: Attribute): Rule
  {
    match a
    case Bandwidth => Test22_73_1
    case FrameRateAttribute => Test22_74_1
  }

  /** The line is one the loop examines. */
  predicate Examines(a: Attribute, l: string)
  {
    match a
    case Bandwidth => StartsWith(l, "b=")
    case FrameRateAttribute => StartsWith(l, "a=framerate")
  }

  /** The examined line matches its pattern. */
  predicate Accepts(a: Attribute, l: string)
  {
    match a
    case Bandwidth => BandwidthOf(l).Some?
    case FrameRateAttribute => IsFrameRateAttribute(l)
  }

  /** The line sets the loop's `bandwidthPresent` or
      `framerateAttributePresent`. */
  predicate Counts(a: Attribute, l: string)
  {
    Examines(a, l) && Accepts(a, l)
  }

  /** What line `x` reports (checkST2110.js:1420-1432 and 1462-1470): a line
      the pattern refuses, and a bandwidth of a type other than `AS`. The
      pattern's value group is digits then white space, read here as an
      exact integer, so the model's bandwidth integer test never fires;
      JavaScript's `+` turns a value of more than about 309 digits into
      `Infinity`, for which the test at checkST2110.js:1429 does fire. */
  function LineChecks(a: Attribute, l: string, x: nat): (fs: seq<Finding>)
    ensures forall i | 0 <= i < |fs| :: fs[i].rule == RuleOfAttribute(a) && fs[i].line == Some(x + 1) && fs[i].stream.None?
    ensures !Examines(a, l) ==> fs == []
    ensures Finding(RuleOfAttribute(a), PatternKind(a), Some(x + 1), None) in fs <==> Examines(a, l) && !Accepts(a, l)
  {
    if !Examines(a, l) then []
    else if !Accepts(a, l) then [Finding(RuleOfAttribute(a), PatternKind(a), Some(x + 1), None)]
    else if a.Bandwidth? && BandwidthOf(l).value != "AS" then [Finding(Test22_73_1, BandwidthType, Some(x + 1), None)]
    else []
  }

  /** The finding about a line the pattern refuses. */
  function PatternKind(a: Attribute): Kind
  {
    match a
    case Bandwidth => BandwidthPattern
    case FrameRateAttribute => FrameRateAttributePattern
  }

  /** The loop from line `x` on, `present` being the flag so far: the
      findings, and the flag at the end. */
  function ScanFrom(a: Attribute, lines: seq<string>, x: nat, present: bool): (r: (seq<Finding>, bool))
    requires x <= |lines|
    ensures present ==> r.1
    decreases |lines| - x
  {
    if x == |lines| then ([], present)
    else
      var rest := ScanFrom(a, lines, x + 1, present || Counts(a, lines[x]));
      (LineChecks(a, lines[x], x) + rest.0, rest.1)
  }

  /** What each line reports. */
  function Chunks(a: Attribute, lines: seq<string>): (chunks: seq<seq<Finding>>)
    ensures |chunks| == |lines| && LineTagged(chunks)
  {
    seq(|lines|, y requires 0 <= y < |lines| => LineChecks(a, lines[y], y))
  }

  /** Some line from `x` on sets the flag. */
  predicate SomeCounts(a: Attribute, lines: seq<string>, x: nat)
  {
    exists y | x <= y < |lines| :: Counts(a, lines[y])
  }

  /** The loop's findings are the line-by-line ones, and its flag ends set
      exactly when it started set or some line set it. */
  lemma ScanMeaning(a: Attribute, lines: seq<string>, x: nat, present: bool)
    requires x <= |lines|
    ensures ScanFrom(a, lines, x, present).0 == FlattenFrom(Chunks(a, lines), x)
    ensures ScanFrom(a, lines, x, present).1 <==> present || SomeCounts(a, lines, x)
  {
    ScanFindings(a, lines, x, present);
    ScanPresent(a, lines, x, present);
  }

  lemma {:induction false} ScanFindings(a: Attribute, lines: seq<string>, x: nat, present: bool)
    requires x <= |lines|
    ensures ScanFrom(a, lines, x, present).0 == FlattenFrom(Chunks(a, lines), x)
    decreases |lines| - x
  {
    if x < |lines| {
      ScanFindings(a, lines, x + 1, present || Counts(a, lines[x]));
      assert Chunks(a, lines)[x] == LineChecks(a, lines[x], x);
    }
  }

  lemma {:induction false} ScanPresent(a: Attribute, lines: seq<string>, x: nat, present: bool)
    requires x <= |lines|
    ensures ScanFrom(a, lines, x, present).1 <==> present || SomeCounts(a, lines, x)
    decreases |lines| - x
  {
    if x < |lines| {
      ScanPresent(a, lines, x + 1, present || Counts(a, lines[x]));
      if SomeCounts(a, lines, x) && !Counts(a, lines[x]) {
        var y :| x <= y < |lines| && Counts(a, lines[y]);
        assert x + 1 <= y;
      }
    }
  }

  /** A line's finding is reported exactly when that line reports it. */
  lemma ScanHas(a: Attribute, lines: seq<string>, f: Finding, y: nat)
    requires f.line == Some(y + 1)
    ensures f in ScanFrom(a, lines, 0, false).0 <==> y < |lines| && f in LineChecks(a, lines[y], y)
  {
    ScanMeaning(a, lines, 0, false);
    FlattenHas(Chunks(a, lines), 0, f, y);
  }

  /** A finding citing no line is never one of the loop's. */
  lemma ScanLacks(a: Attribute, lines: seq<string>, f: Finding)
    requires f.line.None?
    ensures f !in ScanFrom(a, lines, 0, false).0
  {
    ScanMeaning(a, lines, 0, false);
    FlattenLines(Chunks(a, lines), 0, f);
  }

  // ---------------------------------------------------------------------
  // Section 7.3: bandwidth

  /** checkST2110.js:1414 `test_22_73_1`: the loop's findings, then one
      citing no line when no `b=` line matched the pattern. */
  function BandwidthTest(lines: seq<string>): (fs: seq<Finding>)
    ensures AllFrom(fs, Test22_73_1)
  {
    var scan := ScanFrom(Bandwidth, lines, 0, false);
    ScanMeaning(Bandwidth, lines, 0, false);
    FlattenAll(Chunks(Bandwidth, lines), 0, Test22_73_1);
    scan.0 + (if scan.1 then [] else [Finding(Test22_73_1, MissingBandwidth, None, None)])
  }

  /** A `b=` line is reported as malformed exactly when the bandwidth
      pattern refuses it. */
  lemma BandwidthPatternIff(lines: seq<string>, y: nat)
    ensures Finding(Test22_73_1, BandwidthPattern, Some(y + 1), None) in BandwidthTest(lines) <==>
      y < |lines| && StartsWith(lines[y], "b=") && BandwidthOf(lines[y]).None?
  {
    ScanHas(Bandwidth, lines, Finding(Test22_73_1, BandwidthPattern, Some(y + 1), None), y);
  }

  /** A `b=` line is reported for its type exactly when it matches with a
      type other than `AS`. */
  lemma BandwidthTypeIff(lines: seq<string>, y: nat)
    ensures Finding(Test22_73_1, BandwidthType, Some(y + 1), None) in BandwidthTest(lines) <==>
      && y < |lines| && StartsWith(lines[y], "b=")
      && BandwidthOf(lines[y]).Some? && BandwidthOf(lines[y]).value != "AS"
  {
    ScanHas(Bandwidth, lines, Finding(Test22_73_1, BandwidthType, Some(y + 1), None), y);
  }

  /** The bandwidth is reported missing exactly when no `b=` line matches
      the pattern, whatever its type. */
  lemma MissingBandwidthIff(lines: seq<string>)
    ensures Finding(Test22_73_1, MissingBandwidth, None, None) in BandwidthTest(lines) <==>
      forall y | 0 <= y < |lines| :: !(StartsWith(lines[y], "b=") && BandwidthOf(lines[y]).Some?)
  {
    ScanMeaning(Bandwidth, lines, 0, false);
    ScanLacks(Bandwidth, lines, Finding(Test22_73_1, MissingBandwidth, None, None));
  }

  /** A written `b=AS:<digits>` line satisfies the rule. */
  lemma BandwidthWritten(lines: seq<string>, y: nat, value: string)
    requires y < |lines| && lines[y] == "b=AS:" + value && AllDigits(value)
    ensures Finding(Test22_73_1, MissingBandwidth, None, None) !in BandwidthTest(lines)
    ensures Finding(Test22_73_1, BandwidthType, Some(y + 1), None) !in BandwidthTest(lines)
    ensures Finding(Test22_73_1, BandwidthPattern, Some(y + 1), None) !in BandwidthTest(lines)
  {
    assert lines[y] == "b=" + ("AS" + (":" + value));
    assert All("AS", IsLetter);
    BandwidthRoundTrip("AS", value);
    assert StartsWith(lines[y], "b=");
    MissingBandwidthIff(lines);
    BandwidthTypeIff(lines, y);
    BandwidthPatternIff(lines, y);
  }

  // ---------------------------------------------------------------------
  // Section 7.4: one way of giving the frame rate

  /** The single video record carries `exactframerate`. */
  predicate ParameterPresent(ex: Extracted)
  {
    |ex.records| == 1 && "exactframerate" in ex.records[0].params
  }

  /** checkST2110.js:1446 `test_22_74_1`: the extractor's errors, one
      citing nothing unless there is exactly one video record, the
      attribute loop's findings, and one citing nothing when neither or
      both ways give the frame rate. */
  function FrameRateTest(lines: seq<string>): (fs: seq<Finding>)
    ensures AllFrom(fs, Test22_74_1)
  {
    var ex := ExtractMTParams(lines);
    var param := ParameterPresent(ex);
    var scan := ScanFrom(FrameRateAttribute, lines, 0, false);
    ScanMeaning(FrameRateAttribute, lines, 0, false);
    FlattenAll(Chunks(FrameRateAttribute, lines), 0, Test22_74_1);
    var a := MalformedFindings(Test22_74_1, ex.malformed);
    var b := if |ex.records| != 1 then [Finding(Test22_74_1, NotSingleVideo, None, None)] else [];
    var c := if !scan.1 && !param then [Finding(Test22_74_1, NoFrameRate, None, None)] else [];
    var d := if scan.1 && param then [Finding(Test22_74_1, TwoFrameRates, None, None)] else [];
    AllFromAppend(a, b, Test22_74_1);
    AllFromAppend(a + b, scan.0, Test22_74_1);
    AllFromAppend(a + b + scan.0, c, Test22_74_1);
    AllFromAppend(a + b + scan.0 + c, d, Test22_74_1);
    a + b + scan.0 + c + d
  }

  /** Some `a=framerate` line matches the attribute pattern. */
  predicate AttributePresent(lines: seq<string>)
  {
    SomeCounts(FrameRateAttribute, lines, 0)
  }

  /** The frame rate is reported missing exactly when neither way gives
      it, and given twice exactly when both do: the rule is silent on
      these two counts exactly when one way alone gives it. */
  lemma FrameRateWays(lines: seq<string>)
    ensures var fs := FrameRateTest(lines); var param := ParameterPresent(ExtractMTParams(lines));
      && (Finding(Test22_74_1, NoFrameRate, None, None) in fs <==> !AttributePresent(lines) && !param)
      && (Finding(Test22_74_1, TwoFrameRates, None, None) in fs <==> AttributePresent(lines) && param)
      && (Finding(Test22_74_1, NoFrameRate, None, None) !in fs && Finding(Test22_74_1, TwoFrameRates, None, None) !in fs
          <==> AttributePresent(lines) != param)
  {
    var ex := ExtractMTParams(lines);
    ScanMeaning(FrameRateAttribute, lines, 0, false);
    ScanLacks(FrameRateAttribute, lines, Finding(Test22_74_1, NoFrameRate, None, None));
    ScanLacks(FrameRateAttribute, lines, Finding(Test22_74_1, TwoFrameRates, None, None));
    assert Finding(Test22_74_1, NoFrameRate, None, None) !in MalformedFindings(Test22_74_1, ex.malformed);
    assert Finding(Test22_74_1, TwoFrameRates, None, None) !in MalformedFindings(Test22_74_1, ex.malformed);
  }

  /** The text is reported for its number of video streams exactly when
      the extractor finds other than one record. */
  lemma SingleVideoIff(lines: seq<string>)
    ensures Finding(Test22_74_1, NotSingleVideo, None, None) in FrameRateTest(lines) <==>
      |ExtractMTParams(lines).records| != 1
  {
    var ex := ExtractMTParams(lines);
    ScanLacks(FrameRateAttribute, lines, Finding(Test22_74_1, NotSingleVideo, None, None));
    assert Finding(Test22_74_1, NotSingleVideo, None, None) !in MalformedFindings(Test22_74_1, ex.malformed);
  }

  /** An `a=framerate` line is reported exactly when the attribute
      pattern refuses it. */
  lemma FrameRateAttributeIff(lines: seq<string>, y: nat)
    ensures Finding(Test22_74_1, FrameRateAttributePattern, Some(y + 1), None) in FrameRateTest(lines) <==>
      y < |lines| && StartsWith(lines[y], "a=framerate") && !IsFrameRateAttribute(lines[y])
  {
    var ex := ExtractMTParams(lines);
    var f := Finding(Test22_74_1, FrameRateAttributePattern, Some(y + 1), None);
    ScanHas(FrameRateAttribute, lines, f, y);
    assert f !in MalformedFindings(Test22_74_1, ex.malformed);
  }
}
