/** The rules that check the format parameters of each video stream:
    checkST2110.js:679-1016 (ST 2110-20), 1241-1340 (ST 2110-21) and
    1347-1412 (ST 2110-22). Each runs `extractMTParams`, keeps the errors
    the extractor reports, and adds its own for every record, in record
    order. A rule's checks of one record are a function of the record
    alone. */
module RecordRules {
  import opened Text
  import opened Regex
  import opened Patterns
  import opened Numbers
  import opened Findings
  import opened Tracking
  import opened Fmtp
  import opened Extract

  // ---------------------------------------------------------------------
  // The permitted values

  /** checkST2110.js:679 `mustHaves20`. */
  const MustHaves20: seq<string> :=
    ["sampling", "depth", "width", "height", "exactframerate", "colorimetry", "PM", "SSN"]

  /** checkST2110.js:1393 `mustHaves22`. */
  const MustHaves22: seq<string> := ["width", "height", "TP"]

  /** checkST2110.js:770 `packingModes`. */
  const PackingModes: seq<string> := ["2110GPM", "2110BPM"]

  /** The one value `SSN` may take (checkST2110.js:795). */
  const SsnValues: seq<string> := ["ST2110-20:2017"]

  /** A name-only parameter has the empty value. */
  const NameOnly: seq<string> := [""]

  /** checkST2110.js:843 `rangePermitted`. */
  const RangePermitted: seq<string> := ["NARROW", "FULLPROTECT", "FULL"]

  /** The ranges BT.2100 colorimetry admits (checkST2110.js:851). */
  const RangeBt2100: seq<string> := ["FULL", "NARROW"]

  /** checkST2110.js:868 `maxudpPermitted`. */
  const MaxUdpPermitted: seq<string> := ["1460", "8960"]

  /** checkST2110.js:910 `samplingPermitted`. */
  const SamplingPermitted: seq<string> := [
    "YCbCr-4:4:4", "YCbCr-4:2:2", "YCbCr-4:2:0",
    "CLYCbCr-4:4:4", "CLYCbCr-4:2:2", "CLYCbCr-4:2:0",
    "ICtCp-4:4:4", "ICtCp-4:2:2", "ICtCp-4:2:0",
    "RGB", "XYZ", "KEY"]

  /** checkST2110.js:936 `depthPermitted`. */
  const DepthPermitted: seq<string> := ["8", "10", "12", "16", "16f"]

  /** checkST2110.js:955 `colorPermitted`. */
  const ColorPermitted: seq<string> := [
    "BT601", "BT709", "BT2020", "BT2100", "ST2065-1",
    "ST2065-3", "UNSPECIFIED", "XYZ"]

  /** checkST2110.js:996 `tcsPermitted`. */
  const TcsPermitted: seq<string> := [
    "SDR", "PQ", "HLG", "LINEAR", "BT2100LINPQ", "BT2100LINHLG", "ST2065-1",
    "ST428-1", "DENSITY", "UNSPECIFIED"]

  /** checkST2110.js:1260 `typesPermitted`. Both `test_21_81_2` and
      `test_22_53_1` read this list; `typesPermitted22` (1343) is never
      read. */
  const TypesPermitted: seq<string> := ["2110TPN", "2110TPNL", "2110TPW"]

  /** The largest width or height ST 2110-20 section 7.2 allows. */
  const MaxDimension: nat := 32767

  // ---------------------------------------------------------------------
  // Findings about one record

  /** A finding that cites a record's line and stream. */
  function Cite(rule: Rule, k: Kind, r: Record): Finding
  {
    Finding(rule, k, Some(r.line), Some(r.stream))
  }

  /** Every finding of `fs` is one `rule` reports about record `r`. */
  predicate AboutRecord(fs: seq<Finding>, rule: Rule, r: Record)
  {
    forall i | 0 <= i < |fs| :: fs[i] == Cite(rule, fs[i].kind, r)
  }

  /** The record's object holds `name` with value `v`. */
  predicate HasValue(r: Record, name: string, v: string)
  {
    name in r.params && r.params[name] == v
  }

  /** checkST2110.js:683-698 and 1396-1411: one `required parameter ... is
      missing` for each name of `names` the record's object lacks, in the
      order of `names`. */
  function MissingChecks(rule: Rule, names: seq<string>, r: Record): (fs: seq<Finding>)
    ensures |fs| <= |names|
    ensures AboutRecord(fs, rule, r)
    ensures forall i | 0 <= i < |fs| ::
              fs[i].kind.MissingParameter? && fs[i].kind.name in names && fs[i].kind.name !in r.params
  {
    if |names| == 0 then []
    else
      (if names[0] in r.params then [] else [Cite(rule, MissingParameter(names[0]), r)])
      + MissingChecks(rule, names[1..], r)
  }

  /** checkST2110.js:707-718 for one of `width` and `height`: not an
      integer, or outside 1 to 32767. The two findings exclude each
      other. */
  function DimensionCheck(name: string, v: string, r: Record): (fs: seq<Finding>)
    ensures |fs| <= 1 && AboutRecord(fs, Test20_72_2, r)
    ensures Cite(Test20_72_2, NotInteger(name), r) in fs <==> !IsInteger(v)
    ensures Cite(Test20_72_2, OutOfRange(name), r) in fs ==> IsInteger(v)
  {
    if !IsInteger(v) then [Cite(Test20_72_2, NotInteger(name), r)]
    else if Value(v) < 1 || Value(v) > MaxDimension then [Cite(Test20_72_2, OutOfRange(name), r)]
    else []
  }

  /** checkST2110.js:706-719: both dimensions are checked, and only when
      both are present. */
  function DimensionChecks(r: Record): (fs: seq<Finding>)
    ensures AboutRecord(fs, Test20_72_2, r)
    ensures !("width" in r.params && "height" in r.params) ==> fs == []
    ensures "width" in r.params && "height" in r.params ==>
      fs == DimensionCheck("width", r.params["width"], r) + DimensionCheck("height", r.params["height"], r)
  {
    if "width" in r.params && "height" in r.params then
      DimensionCheck("width", r.params["width"], r) + DimensionCheck("height", r.params["height"], r)
    else []
  }

  /** checkST2110.js:747-760 on a rate `n/d`. `n / d` is a whole number
      exactly when `d` divides `n`; for `d` of 0, JavaScript's quotient is
      not a finite number, so that test is false. */
  function RationalChecks(n: nat, d: nat, r: Record): (fs: seq<Finding>)
    ensures AboutRecord(fs, Test20_72_3, r)
    ensures forall i | 0 <= i < |fs| :: fs[i].kind in {IntegerAsRational, SlowFrameRate, FrameRateNotMinimal}
  {
    (if d > 0 && n % d == 0 then [Cite(Test20_72_3, IntegerAsRational, r)] else [])
    + (if d > n then [Cite(Test20_72_3, SlowFrameRate, r)] else [])
    + (if Gcd(n, d) != 1 then [Cite(Test20_72_3, FrameRateNotMinimal, r)] else [])
  }

  /** checkST2110.js:734-761 on the value of `exactframerate`. A whole rate
      needs nothing more; the numerator's `isNaN` test cannot fire, as the
      pattern admits digits only. */
  function FrameRateChecks(v: string, r: Record): (fs: seq<Finding>)
    ensures AboutRecord(fs, Test20_72_3, r)
    ensures Cite(Test20_72_3, FrameRatePattern, r) in fs <==> FrameRateOf(v).None?
    ensures FrameRateOf(v).Some? && FrameRateOf(v).value.1.None? ==> fs == []
  {
    match FrameRateOf(v)
    case None => [Cite(Test20_72_3, FrameRatePattern, r)]
    case Some(m) =>
      match m.1
      case None => []
      case Some(d) => RationalChecks(Value(m.0), Value(d), r)
  }

  /** checkST2110.js:891-901 on the value of `PAR`. */
  function ParChecks(v: string, r: Record): (fs: seq<Finding>)
    ensures |fs| <= 1 && AboutRecord(fs, Test20_73_5, r)
    ensures Cite(Test20_73_5, ParPattern, r) in fs <==> ParOf(v).None?
  {
    match ParOf(v)
    case None => [Cite(Test20_73_5, ParPattern, r)]
    case Some(wh) => if Gcd(Value(wh.0), Value(wh.1)) > 1 then [Cite(Test20_73_5, ParNotMinimal, r)] else []
  }

  /** The record declares BT.2100 colorimetry. */
  predicate IsBt2100(r: Record)
  {
    HasValue(r, "colorimetry", "BT2100")
  }

  /** checkST2110.js:849-860 on the value of `RANGE`: BT.2100 colorimetry
      admits two ranges, any other colorimetry (or none) three. */
  function RangeChecks(v: string, r: Record): (fs: seq<Finding>)
    ensures |fs| <= 1 && AboutRecord(fs, Test20_73_3, r)
    ensures Cite(Test20_73_3, BadRangeForBt2100, r) in fs <==> IsBt2100(r) && v !in RangeBt2100
    ensures Cite(Test20_73_3, BadRange, r) in fs <==> !IsBt2100(r) && v !in RangePermitted
    ensures fs == [] <==> v in (if IsBt2100(r) then RangeBt2100 else RangePermitted)
  {
    if IsBt2100(r) then
      if v != "FULL" && v != "NARROW" then [Cite(Test20_73_3, BadRangeForBt2100, r)] else []
    else if v !in RangePermitted then [Cite(Test20_73_3, BadRange, r)]
    else []
  }

  /** A parameter that, when present, must take one of `permitted`
      (`PM`, `SSN`, `interlace`, `MAXUDP`, `sampling`, `depth`,
      `colorimetry`, `TCS`, `TP`). */
  function OneOfChecks(rule: Rule, k: Kind, name: string, permitted: seq<string>, r: Record): (fs: seq<Finding>)
    ensures |fs| <= 1 && AboutRecord(fs, rule, r)
    ensures Cite(rule, k, r) in fs <==> name in r.params && r.params[name] !in permitted
  {
    if name in r.params && r.params[name] !in permitted then [Cite(rule, k, r)] else []
  }

  /** checkST2110.js:827-835: `segmented` is name only and needs
      `interlace`. */
  function SegmentedChecks(r: Record): (fs: seq<Finding>)
    ensures AboutRecord(fs, Test20_73_2, r)
    ensures Cite(Test20_73_2, SegmentedValue, r) in fs <==> "segmented" in r.params && r.params["segmented"] != ""
    ensures Cite(Test20_73_2, SegmentedWithoutInterlace, r) in fs <==> "segmented" in r.params && "interlace" !in r.params
  {
    if "segmented" !in r.params then []
    else
      (if r.params["segmented"] != "" then [Cite(Test20_73_2, SegmentedValue, r)] else [])
      + (if "interlace" !in r.params then [Cite(Test20_73_2, SegmentedWithoutInterlace, r)] else [])
  }

  /** checkST2110.js:983-987: BT.2100 colorimetry without `RANGE`. */
  function RangeAdviceChecks(r: Record): (fs: seq<Finding>)
    ensures |fs| <= 1 && AboutRecord(fs, Test20_75_2, r)
    ensures Cite(Test20_75_2, RangeRecommended, r) in fs <==> IsBt2100(r) && "RANGE" !in r.params
  {
    if IsBt2100(r) && "RANGE" !in r.params then [Cite(Test20_75_2, RangeRecommended, r)] else []
  }

  /** checkST2110.js:1292-1300 on the value of `TROFF`. */
  function TroffChecks(v: string, r: Record): (fs: seq<Finding>)
    ensures |fs| <= 1 && AboutRecord(fs, Test21_82_1, r)
    ensures Cite(Test21_82_1, TroffNotNumber, r) in fs <==> DecimalOf(v).None?
    ensures Cite(Test21_82_1, TroffNegative, r) in fs <==> DecimalOf(v).Some? && IsNegative(DecimalOf(v).value)
  {
    match DecimalOf(v)
    case None => [Cite(Test21_82_1, TroffNotNumber, r)]
    case Some(d) => if IsNegative(d) then [Cite(Test21_82_1, TroffNegative, r)] else []
  }

  /** checkST2110.js:1319-1330 on the value of `CMAX`. */
  function CmaxChecks(v: string, r: Record): (fs: seq<Finding>)
    ensures AboutRecord(fs, Test21_82_2, r)
    ensures Cite(Test21_82_2, CmaxNotNumber, r) in fs <==> DecimalOf(v).None?
    ensures Cite(Test21_82_2, CmaxNotInteger, r) in fs <==> DecimalOf(v).Some? && !IsWhole(DecimalOf(v).value)
    ensures Cite(Test21_82_2, CmaxNotPositive, r) in fs <==> DecimalOf(v).Some? && BelowOne(DecimalOf(v).value)
  {
    match DecimalOf(v)
    case None => [Cite(Test21_82_2, CmaxNotNumber, r)]
    case Some(d) =>
      (if !IsWhole(d) then [Cite(Test21_82_2, CmaxNotInteger, r)] else [])
      + (if BelowOne(d) then [Cite(Test21_82_2, CmaxNotPositive, r)] else [])
  }

  // ---------------------------------------------------------------------
  // The rules

  /** Which record rule, with the arguments it differs by. */
  datatype Check =
    | Required(rule: Rule, names: seq<string>)
    | Dimensions | FrameRate | PackingMode | Ssn | Interlace | Segmented
    | Range | MaxUdp | Par | Sampling | Depth | Colorimetry | RangeAdvice | Tcs
    | TpRequired | TpType(rule: Rule) | Troff | Cmax

  function RuleOfCheck(ck: Check): Rule
  {
    match ck
    case Required(rule, _) => rule
    case Dimensions => Test20_72_2
    case FrameRate => Test20_72_3
    case PackingMode => Test20_72_4
    case Ssn => Test20_72_5
    case Interlace => Test20_73_1
    case Segmented => Test20_73_2
    case Range => Test20_73_3
    case MaxUdp => Test20_73_4
    case Par => Test20_73_5
    case Sampling => Test20_74_1
    case Depth => Test20_74_2
    case Colorimetry => Test20_75_1
    case RangeAdvice => Test20_75_2
    case Tcs => Test20_76_1
    case TpRequired => Test21_81_1
    case TpType(rule) => rule
    case Troff => Test21_82_1
    case Cmax => Test21_82_2
  }

  /** What a rule reports about one record. */
  function Checks(ck: Check, r: Record): (fs: seq<Finding>)
    ensures AboutRecord(fs, RuleOfCheck(ck), r)
  {
    if ck.Required? || ck.Dimensions? || ck.FrameRate? || ck.Segmented? || ck.Range? || ck.Par? then
      ValueChecks(ck, r)
    else
      ChoiceChecks(ck, r)
  }

  /** The rules that read a value's form. */
  function ValueChecks(ck: Check, r: Record): (fs: seq<Finding>)
    ensures AboutRecord(fs, RuleOfCheck(ck), r)
  {
    match ck
    case Required(rule, names) => MissingChecks(rule, names, r)
    case Dimensions => DimensionChecks(r)
    case FrameRate => if "exactframerate" in r.params then FrameRateChecks(r.params["exactframerate"], r) else []
    case Segmented => SegmentedChecks(r)
    case Range => if "RANGE" in r.params then RangeChecks(r.params["RANGE"], r) else []
    case Par => if "PAR" in r.params then ParChecks(r.params["PAR"], r) else []
    case _ => ShapingChecks(ck, r)
  }

  /** The rules that compare a value with a list of permitted ones. */
  function ChoiceChecks(ck: Check, r: Record): (fs: seq<Finding>)
    ensures AboutRecord(fs, RuleOfCheck(ck), r)
  {
    match ck
    case PackingMode => OneOfChecks(Test20_72_4, BadPackingMode, "PM", PackingModes, r)
    case Ssn => OneOfChecks(Test20_72_5, BadSsn, "SSN", SsnValues, r)
    case Interlace => OneOfChecks(Test20_73_1, InterlaceValue, "interlace", NameOnly, r)
    case MaxUdp => OneOfChecks(Test20_73_4, BadMaxUdp, "MAXUDP", MaxUdpPermitted, r)
    case Sampling => OneOfChecks(Test20_74_1, BadSampling, "sampling", SamplingPermitted, r)
    case Depth => OneOfChecks(Test20_74_2, BadDepth, "depth", DepthPermitted, r)
    case Colorimetry => OneOfChecks(Test20_75_1, BadColorimetry, "colorimetry", ColorPermitted, r)
    case RangeAdvice => RangeAdviceChecks(r)
    case Tcs => OneOfChecks(Test20_76_1, BadTcs, "TCS", TcsPermitted, r)
    case TpType(rule) => OneOfChecks(rule, BadTp, "TP", TypesPermitted, r)
    case _ => ShapingChecks(ck, r)
  }

  /** The ST 2110-21 rules on `TP`, `TROFF` and `CMAX`. */
  function ShapingChecks(ck: Check, r: Record): (fs: seq<Finding>)
    ensures AboutRecord(fs, RuleOfCheck(ck), r)
  {
    match ck
    case TpRequired => if "TP" in r.params then [] else [Cite(Test21_81_1, MissingTp, r)]
    case Troff => if "TROFF" in r.params then TroffChecks(r.params["TROFF"], r) else []
    case Cmax => if "CMAX" in r.params then CmaxChecks(r.params["CMAX"], r) else []
    case _ => []
  }

  /** The rule's checks, as a function of the record. */
  function Checker(ck: Check): Record -> seq<Finding>
  {
    r => Checks(ck, r)
  }

  /** The loop `for (let stream of mtParams)`. */
  function ForRecords(ck: Check, recs: seq<Record>): (fs: seq<Finding>)
    ensures forall i | 0 <= i < |fs| :: fs[i].rule == RuleOfCheck(ck) && fs[i].stream.Some?
  {
    ConcatMapEvery(Checker(ck), recs, (g: Finding) => g.rule == RuleOfCheck(ck) && g.stream.Some?);
    ConcatMap(Checker(ck), recs)
  }

  /** The extractor's `fmpt ... has error` messages, passed on by `rule`:
      each cites its line and no stream. */
  function MalformedFindings(rule: Rule, ns: seq<nat>): (fs: seq<Finding>)
    ensures |fs| == |ns|
    ensures forall i | 0 <= i < |fs| :: fs[i].rule == rule && fs[i].kind == FmtpMalformed && fs[i].stream.None?
  {
    seq(|ns|, i requires 0 <= i < |ns| => Finding(rule, FmtpMalformed, Some(ns[i]), None))
  }

  /** A record rule on the lines: the extractor's errors, then the
      findings about each record. */
  function RecordTest(ck: Check, lines: seq<string>): seq<Finding>
  {
    var ex := ExtractMTParams(lines);
    MalformedFindings(RuleOfCheck(ck), ex.malformed) + ForRecords(ck, ex.records)
  }

  /** The traffic shaping rules (checkST2110.js:1241-1365). */
  predicate IsShaping(ck: Check)
  {
    ck.TpRequired? || ck.TpType? || ck.Troff? || ck.Cmax?
  }

  /** A rule that returns nothing before extracting: `test_20_75_2` when
      `should` is off (checkST2110.js:978), the shaping rules when `shaping`
      is off or `audioOnly` is on (1242, 1264, 1285, 1312, 1348). */
  predicate Skipped(ck: Check, p: Params)
  {
    || (ck.RangeAdvice? && !p.should)
    || (IsShaping(ck) && (!p.shaping || p.audioOnly))
  }

  /** The rule as the section functions call it. */
  function RuleTest(ck: Check, p: Params, lines: seq<string>): seq<Finding>
  {
    if Skipped(ck, p) then [] else RecordTest(ck, lines)
  }

  // ---------------------------------------------------------------------
  // From records back to lines

  /** The record line `y` yields, for an examined `a=fmtp` line the pattern
      accepts. */
  function RecordAt(lines: seq<string>, y: nat): (r: Record)
    requires y < |lines| && Examined(lines, y) && FmtpOf(lines[y]).Some?
    ensures r.line == y + 1
  {
    var c := CursorAt("video", lines, y);
    Record(ParamsOfLine(lines[y]), c.pt as nat, y + 1, c.stream)
  }

  /** Line `x` yields at most one record, the one `RecordAt` names. */
  lemma EntryRecord(lines: seq<string>, x: nat)
    requires x < |lines|
    ensures EntryAt(lines, x).records ==
      if Examined(lines, x) && FmtpOf(lines[x]).Some? then [RecordAt(lines, x)] else []
  {
  }

  /** The rule's loop distributes over concatenation of the records. */
  lemma ForRecordsAppend(ck: Check, a: seq<Record>, b: seq<Record>)
    ensures ForRecords(ck, a + b) == ForRecords(ck, a) + ForRecords(ck, b)
  {
    ConcatMapAppend(Checker(ck), a, b);
  }

  /** What the rule reports about the record of line `y`, if the line
      yields one. */
  function RecordChecksAt(ck: Check, lines: seq<string>, y: nat): (fs: seq<Finding>)
    requires y < |lines|
    ensures forall i | 0 <= i < |fs| :: fs[i].line == Some(y + 1) && fs[i].stream.Some?
  {
    if Examined(lines, y) && FmtpOf(lines[y]).Some? then Checks(ck, RecordAt(lines, y)) else []
  }

  function RecordChunks(ck: Check, lines: seq<string>): (chunks: seq<seq<Finding>>)
    ensures |chunks| == |lines| && LineTagged(chunks)
  {
    seq(|lines|, y requires 0 <= y < |lines| => RecordChecksAt(ck, lines, y))
  }

  /** The rule's loop over the records is the line-by-line concatenation of
      what each line's record gives. */
  lemma {:induction false} ForEntries(ck: Check, lines: seq<string>, x: nat)
    requires x <= |lines|
    ensures ForRecords(ck, EntriesFrom(lines, x).records) == FlattenFrom(RecordChunks(ck, lines), x)
    decreases |lines| - x
  {
    if x < |lines| {
      ForEntriesStep(ck, lines, x);
      ForEntries(ck, lines, x + 1);
      var chunks := RecordChunks(ck, lines);
      assert chunks[x] == RecordChecksAt(ck, lines, x);
    }
  }

  /** Line `x`'s record comes first. */
  lemma ForEntriesStep(ck: Check, lines: seq<string>, x: nat)
    requires x < |lines|
    ensures ForRecords(ck, EntriesFrom(lines, x).records) ==
      RecordChecksAt(ck, lines, x) + ForRecords(ck, EntriesFrom(lines, x + 1).records)
  {
    var head := EntryAt(lines, x).records;
    var tail := EntriesFrom(lines, x + 1).records;
    assert EntriesFrom(lines, x).records == head + tail;
    ForRecordsAppend(ck, head, tail);
    EntryChecks(ck, lines, x);
  }

  lemma EntryChecks(ck: Check, lines: seq<string>, x: nat)
    requires x < |lines|
    ensures ForRecords(ck, EntryAt(lines, x).records) == RecordChecksAt(ck, lines, x)
  {
    EntryRecord(lines, x);
    if Examined(lines, x) && FmtpOf(lines[x]).Some? {
      ConcatMapOne(Checker(ck), RecordAt(lines, x));
    }
  }

  /** The records, in the line-by-line description. */
  function Records(lines: seq<string>): seq<Record>
  {
    EntriesFrom(lines, 0).records
  }

  /** A record rule is the extractor's errors followed by the findings of
      its loop over the records. */
  lemma RecordTestSplit(ck: Check, lines: seq<string>)
    ensures RecordTest(ck, lines) ==
      MalformedFindings(RuleOfCheck(ck), EntriesFrom(lines, 0).malformed) + ForRecords(ck, Records(lines))
  {
    ExtractMTParamsEntries(lines);
  }

  /** A finding about some record cites line `y + 1` exactly when line `y`
      yields a record that the rule's checks report it of. */
  lemma RecordsHas(ck: Check, lines: seq<string>, f: Finding, y: nat)
    requires f.line == Some(y + 1)
    ensures f in ForRecords(ck, Records(lines)) <==> y < |lines| && f in RecordChecksAt(ck, lines, y)
  {
    ForEntries(ck, lines, 0);
    FlattenHas(RecordChunks(ck, lines), 0, f, y);
  }

  /** A finding a record rule reports about a stream, citing line `y + 1`,
      is reported exactly when line `y` is an examined `a=fmtp` line the
      pattern accepts and the rule's checks of that line's record report
      it. */
  lemma RecordTestHas(ck: Check, lines: seq<string>, f: Finding, y: nat)
    requires f.line == Some(y + 1) && f.stream.Some?
    ensures f in RecordTest(ck, lines) <==> y < |lines| && f in RecordChecksAt(ck, lines, y)
  {
    RecordTestSplit(ck, lines);
    RecordsHas(ck, lines, f, y);
    assert f !in MalformedFindings(RuleOfCheck(ck), EntriesFrom(lines, 0).malformed);
  }

  /** Every record rule passes on the extractor's error for each examined
      `a=fmtp` line the pattern refuses, and for no other line. */
  lemma MalformedIffRule(ck: Check, lines: seq<string>, y: nat)
    ensures Finding(RuleOfCheck(ck), FmtpMalformed, Some(y + 1), None) in RecordTest(ck, lines) <==>
      y < |lines| && Examined(lines, y) && FmtpOf(lines[y]).None?
    ensures AtMostOnce(RecordTest(ck, lines), Finding(RuleOfCheck(ck), FmtpMalformed, Some(y + 1), None))
  {
    MalformedRuleListed(ck, lines, y);
    MalformedRuleOnce(ck, lines, y + 1);
  }

  lemma MalformedRuleListed(ck: Check, lines: seq<string>, y: nat)
    ensures Finding(RuleOfCheck(ck), FmtpMalformed, Some(y + 1), None) in RecordTest(ck, lines) <==>
      y < |lines| && Examined(lines, y) && FmtpOf(lines[y]).None?
  {
    var ns := EntriesFrom(lines, 0).malformed;
    var f := Finding(RuleOfCheck(ck), FmtpMalformed, Some(y + 1), None);
    var ms := MalformedFindings(RuleOfCheck(ck), ns);
    var rs := ForRecords(ck, Records(lines));
    RecordTestSplit(ck, lines);
    assert f !in rs;
    assert f in RecordTest(ck, lines) <==> f in ms;
    MalformedHas(RuleOfCheck(ck), ns, y + 1);
    MalformedListed(lines, 0, y);
  }

  lemma MalformedRuleOnce(ck: Check, lines: seq<string>, n: nat)
    ensures AtMostOnce(RecordTest(ck, lines), Finding(RuleOfCheck(ck), FmtpMalformed, Some(n), None))
  {
    RecordTestSplit(ck, lines);
    MalformedAscending(lines, 0);
    MalformedOnce(RuleOfCheck(ck), EntriesFrom(lines, 0).malformed, ForRecords(ck, Records(lines)), n);
  }

  /** The errors of distinct lines, followed by findings that each cite a
      stream, hold the error of line `n` at most once. */
  lemma MalformedOnce(rule: Rule, ns: seq<nat>, rs: seq<Finding>, n: nat)
    requires Ascending(ns, 0)
    requires forall i | 0 <= i < |rs| :: rs[i].stream.Some?
    ensures AtMostOnce(MalformedFindings(rule, ns) + rs, Finding(rule, FmtpMalformed, Some(n), None))
  {
    var ms := MalformedFindings(rule, ns);
    var fs := ms + rs;
    var f := Finding(rule, FmtpMalformed, Some(n), None);
    forall i, j | 0 <= i < j < |fs| && fs[i] == f ensures fs[j] != f {
      if j >= |ms| {
        assert fs[j] == rs[j - |ms|];
      } else {
        assert ms[i].line == Some(ns[i]) && ms[j].line == Some(ns[j]);
      }
    }
  }

  lemma MalformedHas(rule: Rule, ns: seq<nat>, n: nat)
    ensures Finding(rule, FmtpMalformed, Some(n), None) in MalformedFindings(rule, ns) <==> n in ns
  {
    var ms := MalformedFindings(rule, ns);
    var f := Finding(rule, FmtpMalformed, Some(n), None);
    if f in ms {
      var i :| 0 <= i < |ms| && ms[i] == f;
      assert ns[i] == n;
    }
    if n in ns {
      var i :| 0 <= i < |ns| && ns[i] == n;
      assert ms[i] == f;
    }
  }

  // ---------------------------------------------------------------------
  // What the checks of one record mean

  /** A required name is reported exactly when it is listed and the record
      lacks it. */
  lemma {:induction false} MissingIff(rule: Rule, names: seq<string>, r: Record, n: string)
    ensures Cite(rule, MissingParameter(n), r) in MissingChecks(rule, names, r) <==>
      n in names && n !in r.params
    decreases |names|
  {
    if |names| > 0 {
      MissingIff(rule, names[1..], r, n);
      assert n in names <==> n == names[0] || n in names[1..];
    }
  }

  /** The names of a list, each listed once. */
  predicate Distinct(names: seq<string>)
  {
    forall i, j | 0 <= i < j < |names| :: names[i] != names[j]
  }

  /** With each name listed once, a missing name is reported exactly once
      and a present one never. */
  /** A name is reported as often as it is listed when the record lacks
      it, and never when the record has it. */
  lemma {:induction false} MissingCount(rule: Rule, names: seq<string>, r: Record, n: string)
    ensures multiset(MissingChecks(rule, names, r))[Cite(rule, MissingParameter(n), r)] ==
      if n in r.params then 0 else multiset(names)[n]
    decreases |names|
  {
    if |names| > 0 {
      var t := names[1..];
      MissingCount(rule, t, r, n);
      var f := Cite(rule, MissingParameter(n), r);
      var h := if names[0] in r.params then [] else [Cite(rule, MissingParameter(names[0]), r)];
      assert MissingChecks(rule, names, r) == h + MissingChecks(rule, t, r);
      MultisetCons(names, n);
    }
  }

  lemma {:induction false} MissingOnce(rule: Rule, names: seq<string>, r: Record, n: string)
    requires Distinct(names)
    ensures multiset(MissingChecks(rule, names, r))[Cite(rule, MissingParameter(n), r)] ==
      if n in names && n !in r.params then 1 else 0
    decreases |names|
  {
    if |names| > 0 {
      var t := names[1..];
      assert Distinct(t) by {
        forall i, j | 0 <= i < j < |t| ensures t[i] != t[j] { assert t[i] == names[i + 1] && t[j] == names[j + 1]; }
      }
      assert names[0] !in t by {
        forall k | 0 <= k < |t| ensures t[k] != names[0] { assert t[k] == names[k + 1]; }
      }
      MissingOnce(rule, t, r, n);
      var f := Cite(rule, MissingParameter(n), r);
      var h := if names[0] in r.params then [] else [Cite(rule, MissingParameter(names[0]), r)];
      var tail := MissingChecks(rule, t, r);
      assert MissingChecks(rule, names, r) == h + tail;
      assert multiset(h + tail)[f] == multiset(h)[f] + multiset(tail)[f];
      assert multiset(h)[f] == if n == names[0] && n !in r.params then 1 else 0;
      assert n in names <==> n == names[0] || n in t;
    }
  }

  /** Both lists name each parameter once. */
  lemma RequiredListsDistinct()
    ensures Distinct(MustHaves20) && Distinct(MustHaves22)
  {
  }

  /** Adding a required parameter to a record removes its report and no
      other. */
  lemma {:induction false} MissingAdd(rule: Rule, names: seq<string>, r: Record, n: string, v: string)
    ensures var r' := r.(params := r.params[n := v]);
      && Cite(rule, MissingParameter(n), r') !in MissingChecks(rule, names, r')
      && forall m | m != n ::
        Cite(rule, MissingParameter(m), r') in MissingChecks(rule, names, r') <==>
        Cite(rule, MissingParameter(m), r) in MissingChecks(rule, names, r)
  {
    var r' := r.(params := r.params[n := v]);
    MissingIff(rule, names, r', n);
    forall m | m != n
      ensures Cite(rule, MissingParameter(m), r') in MissingChecks(rule, names, r') <==>
        Cite(rule, MissingParameter(m), r) in MissingChecks(rule, names, r)
    {
      MissingIff(rule, names, r', m);
      MissingIff(rule, names, r, m);
    }
  }

  /** A width or height is refused as out of range exactly when it is an
      integer above 32767: the pattern already excludes 0, so the lower
      bound never fires. The two findings exclude each other, and the
      value is accepted exactly when it is an integer no larger than
      32767. */
  lemma DimensionMeaning(name: string, v: string, r: Record)
    ensures var fs := DimensionCheck(name, v, r);
      && (Cite(Test20_72_2, OutOfRange(name), r) in fs <==> IsNumber(v) && Value(v) > MaxDimension)
      && !(Cite(Test20_72_2, NotInteger(name), r) in fs && Cite(Test20_72_2, OutOfRange(name), r) in fs)
      && (fs == [] <==> IsNumber(v) && Value(v) <= MaxDimension)
  {
    IntegerIff(v);
    if IsNumber(v) {
      ValueLowerBound(v);
    }
  }

  /** A record with both dimensions passes the rule exactly when both are
      integers from 1 to 32767. */
  lemma DimensionsAccepted(r: Record)
    requires "width" in r.params && "height" in r.params
    ensures DimensionChecks(r) == [] <==>
      && IsNumber(r.params["width"]) && Value(r.params["width"]) <= MaxDimension
      && IsNumber(r.params["height"]) && Value(r.params["height"]) <= MaxDimension
  {
    DimensionMeaning("width", r.params["width"], r);
    DimensionMeaning("height", r.params["height"], r);
  }

  /** A whole frame rate needs nothing more. */
  lemma FrameRateWholeAccepted(n: string, r: Record)
    requires IsNumber(n)
    ensures FrameRateChecks(n, r) == []
  {
    FrameRateWhole(n);
  }

  /** On a written rate `n/d`, the three findings mean what their messages
      say: the rate is a whole number, it is below one frame a second, and
      the two numbers share a divisor other than 1. */
  lemma FrameRateMeaning(n: string, d: string, r: Record)
    requires IsNumber(n) && IsNumber(d)
    ensures var fs := FrameRateChecks(n + ("/" + d), r);
      && Cite(Test20_72_3, FrameRatePattern, r) !in fs
      && (Cite(Test20_72_3, IntegerAsRational, r) in fs <==> Divides(Value(d), Value(n)))
      && (Cite(Test20_72_3, SlowFrameRate, r) in fs <==> Value(d) > Value(n))
      && (Cite(Test20_72_3, FrameRateNotMinimal, r) in fs <==>
          !forall c: nat | Divides(c, Value(n)) && Divides(c, Value(d)) :: c == 1)
  {
    FrameRateRational(n, d);
    ValueLowerBound(n);
    ValueLowerBound(d);
    DividesIffMod(Value(d), Value(n));
    GcdOneIff(Value(n), Value(d));
    RationalKinds(Value(n), Value(d), r);
  }

  lemma RationalKinds(n: nat, d: nat, r: Record)
    requires n > 0 && d > 0
    ensures var fs := RationalChecks(n, d, r);
      && Cite(Test20_72_3, FrameRatePattern, r) !in fs
      && (Cite(Test20_72_3, IntegerAsRational, r) in fs <==> n % d == 0)
      && (Cite(Test20_72_3, SlowFrameRate, r) in fs <==> d > n)
      && (Cite(Test20_72_3, FrameRateNotMinimal, r) in fs <==> Gcd(n, d) != 1)
  {
  }

  /** A rate of ST 2110-20's discussion, 60000/1001, passes. */
  lemma FrameRateNtsc(r: Record)
    ensures FrameRateChecks("60000/1001", r) == []
  {
    assert "60000/1001" == "60000" + ("/" + "1001");
    FrameRateRational("60000", "1001");
    NtscValues();
    NtscGcd();
  }

  lemma NtscValues()
    ensures Value("60000") == 60000 && Value("1001") == 1001
  {
    assert "60000"[..4] == "6000" && "6000"[..3] == "600" && "600"[..2] == "60" && "60"[..1] == "6";
    assert "1001"[..3] == "100" && "100"[..2] == "10" && "10"[..1] == "1";
  }

  lemma NtscGcd()
    ensures Gcd(60000, 1001) == 1
  {
    assert Gcd(3, 1) == 1;
    assert Gcd(19, 3) == 1;
    assert Gcd(41, 19) == 1;
    assert Gcd(60, 41) == 1;
    assert Gcd(941, 60) == 1;
    assert Gcd(1001, 941) == 1;
  }

  /** 5/1 is a whole rate written as a fraction. */
  lemma FrameRateWholeFraction(r: Record)
    ensures FrameRateChecks("5/1", r) == [Cite(Test20_72_3, IntegerAsRational, r)]
  {
    assert "5/1" == "5" + ("/" + "1");
    assert IsNumber("5") && IsNumber("1");
    FrameRateRational("5", "1");
    assert Value("5") == 5 && Value("1") == 1;
    assert Gcd(5, 1) == 1;
    assert RationalChecks(5, 1, r) == [Cite(Test20_72_3, IntegerAsRational, r)];
  }

  /** 30/15 is a whole rate, and not in its smallest terms. */
  lemma FrameRateNotReduced(r: Record)
    ensures FrameRateChecks("30/15", r) ==
      [Cite(Test20_72_3, IntegerAsRational, r), Cite(Test20_72_3, FrameRateNotMinimal, r)]
  {
    assert "30/15" == "30" + ("/" + "15");
    FrameRateRational("30", "15");
    assert Value("30") == 30 by { assert "30"[..1] == "3"; }
    assert Value("15") == 15 by { assert "15"[..1] == "1"; }
    assert Gcd(30, 15) == 15;
  }

  /** On a written ratio `w:h`, the rule reports only a ratio not in its
      smallest terms. */
  lemma ParMeaning(w: string, h: string, r: Record)
    requires IsNumber(w) && IsNumber(h)
    ensures var fs := ParChecks(w + (":" + h), r);
      && Cite(Test20_73_5, ParPattern, r) !in fs
      && (fs == [] <==> forall c: nat | Divides(c, Value(w)) && Divides(c, Value(h)) :: c == 1)
  {
    ParRoundTrip(w, h);
    ValueLowerBound(w);
    ValueLowerBound(h);
    GcdOneIff(Value(w), Value(h));
    GcdPositive(Value(w), Value(h));
  }

  /** The TROFF findings on a number say what the number is. */
  lemma TroffMeaning(v: string, r: Record)
    requires DecimalOf(v).Some?
    ensures var fs := TroffChecks(v, r);
      && Cite(Test21_82_1, TroffNotNumber, r) !in fs
      && (Cite(Test21_82_1, TroffNegative, r) in fs <==> DecimalValue(DecimalOf(v).value) < 0.0)
  {
    DecimalTests(DecimalOf(v).value);
  }

  /** The CMAX findings on a number say what the number is: not whole,
      and below 1. */
  lemma CmaxMeaning(v: string, r: Record)
    requires DecimalOf(v).Some?
    ensures var fs := CmaxChecks(v, r); var x := DecimalValue(DecimalOf(v).value);
      && Cite(Test21_82_2, CmaxNotNumber, r) !in fs
      && (Cite(Test21_82_2, CmaxNotInteger, r) in fs <==> x != x.Floor as real)
      && (Cite(Test21_82_2, CmaxNotPositive, r) in fs <==> x < 1.0)
  {
    DecimalTests(DecimalOf(v).value);
  }

  // ---------------------------------------------------------------------
  // The rules on the lines

  /** A finding a record rule reports about a stream: it cites line
      `y + 1` exactly when the rule runs, line `y` is an examined `a=fmtp`
      line the pattern accepts, the finding names that line's stream, and
      the checks of the line's record report the finding's kind. */
  lemma RuleCites(ck: Check, p: Params, lines: seq<string>, y: nat, k: Kind, s: nat)
    ensures Finding(RuleOfCheck(ck), k, Some(y + 1), Some(s)) in RuleTest(ck, p, lines) <==>
      && !Skipped(ck, p) && y < |lines| && Examined(lines, y) && FmtpOf(lines[y]).Some?
      && s == CursorAt("video", lines, y).stream
      && Cite(RuleOfCheck(ck), k, RecordAt(lines, y)) in Checks(ck, RecordAt(lines, y))
  {
    var f := Finding(RuleOfCheck(ck), k, Some(y + 1), Some(s));
    if !Skipped(ck, p) {
      RecordTestHas(ck, lines, f, y);
      if y < |lines| && Examined(lines, y) && FmtpOf(lines[y]).Some? {
        var r := RecordAt(lines, y);
        assert r.stream == CursorAt("video", lines, y).stream;
        if s == r.stream {
          assert f == Cite(RuleOfCheck(ck), k, r);
        }
      }
    }
  }

  /** checkST2110.js:683-698 on the lines: the rule reports a name of
      `mustHaves20` as missing from a stream, citing line `y + 1`, exactly
      when that line is the stream's examined `a=fmtp` line and its
      parameters lack the name. */
  lemma RequiredAtLine(p: Params, lines: seq<string>, y: nat, n: string, s: nat)
    ensures var fs := RuleTest(Required(Test20_72_1, MustHaves20), p, lines);
      Finding(Test20_72_1, MissingParameter(n), Some(y + 1), Some(s)) in fs <==>
      && y < |lines| && Examined(lines, y) && FmtpOf(lines[y]).Some?
      && s == CursorAt("video", lines, y).stream
      && n in MustHaves20 && n !in ParamsOfLine(lines[y])
  {
    var ck := Required(Test20_72_1, MustHaves20);
    RuleCites(ck, p, lines, y, MissingParameter(n), s);
    if y < |lines| && Examined(lines, y) && FmtpOf(lines[y]).Some? {
      MissingIff(Test20_72_1, MustHaves20, RecordAt(lines, y), n);
    }
  }

  /** Every finding of a record rule is reported by the rule. */
  lemma RuleTestRule(ck: Check, p: Params, lines: seq<string>)
    ensures AllFrom(RuleTest(ck, p, lines), RuleOfCheck(ck))
  {
    var ex := ExtractMTParams(lines);
    AllFromAppend(MalformedFindings(RuleOfCheck(ck), ex.malformed), ForRecords(ck, ex.records), RuleOfCheck(ck));
  }
}
