// The composition of checkST2110.js:1494-1661: each `section_*` function
// runs its tests in order and concatenates their findings, and
// `allSections` runs the sections of one profile, then the copy check.

module Sections {
  import opened Text
  import opened SdpLines
  import opened Findings
  import Clock
  import SourceGroups
  import DestinationGroups
  import MediaRules
  import StreamScans
  import RecordRules
  import CompressedRules
  import CopyCheck

  // ---------------------------------------------------------------------
  // The tests

  /** The record rule behind test `t`, when it is one: sections 7.2 to
      7.6 of ST 2110-20, the traffic shaping rules of ST 2110-21 and the
      parameter rules of ST 2110-22. */
  function CheckOf(t: Rule): Option<RecordRules.Check>
  {
    match t
    case Test20_72_1 => Some(RecordRules.Required(Test20_72_1, RecordRules.MustHaves20))
    case Test20_72_2 => Some(RecordRules.Dimensions)
    case Test20_72_3 => Some(RecordRules.FrameRate)
    case Test20_72_4 => Some(RecordRules.PackingMode)
    case Test20_72_5 => Some(RecordRules.Ssn)
    case Test20_73_1 => Some(RecordRules.Interlace)
    case Test20_73_2 => Some(RecordRules.Segmented)
    case Test20_73_3 => Some(RecordRules.Range)
    case Test20_73_4 => Some(RecordRules.MaxUdp)
    case Test20_73_5 => Some(RecordRules.Par)
    case Test20_74_1 => Some(RecordRules.Sampling)
    case Test20_74_2 => Some(RecordRules.Depth)
    case Test20_75_1 => Some(RecordRules.Colorimetry)
    case Test20_75_2 => Some(RecordRules.RangeAdvice)
    case Test20_76_1 => Some(RecordRules.Tcs)
    case Test21_81_1 => Some(RecordRules.TpRequired)
    case Test21_81_2 => Some(RecordRules.TpType(Test21_81_2))
    case Test21_82_1 => Some(RecordRules.Troff)
    case Test21_82_2 => Some(RecordRules.Cmax)
    case Test22_53_1 => Some(RecordRules.TpType(Test22_53_1))
    case Test22_72_1 => Some(RecordRules.Required(Test22_72_1, RecordRules.MustHaves22))
    case _ => None
  }

  /** The record rule behind a test reports under that test's name. */
  lemma CheckOfRule(t: Rule)
    ensures CheckOf(t).Some? ==> RecordRules.RuleOfCheck(CheckOf(t).value) == t
  {
  }

  /** The line scan behind test `t`, when it is one. */
  function ScanOf(t: Rule, p: Params): Option<StreamScans.Scan>
  {
    match t
    case Test20_71_3 => Some(StreamScans.RtpmapScan(Test20_71_3, "raw", "90000"))
    case Test20_71_4 => Some(StreamScans.FmtpScan)
    case Test30_62_1 => Some(StreamScans.SoundScan)
    case Test30_62_3 => Some(StreamScans.PtimeScan)
    case Test30_62_4 => Some(StreamScans.ChannelScan(p.channelOrder, p.should))
    case Test22_6 => Some(StreamScans.RtpmapScan(Test22_6, "jxsv", "90000"))
    case _ => None
  }

  /** The scan behind a test reports under that test's name. */
  lemma ScanOfRule(t: Rule, p: Params)
    ensures ScanOf(t, p).Some? ==> StreamScans.RuleOf(ScanOf(t, p).value) == t
  {
  }

  /** A record rule run on the lines. */
  function Record(t: Rule, ck: RecordRules.Check, p: Params, lines: seq<string>): (r: seq<Finding>)
    requires RecordRules.RuleOfCheck(ck) == t
    ensures AllFrom(r, t)
  {
    RecordRules.RuleTestRule(ck, p, lines);
    RecordRules.RuleTest(ck, p, lines)
  }

  /** A scan of the lines. */
  function Scan(t: Rule, sc: StreamScans.Scan, lines: seq<string>): (r: seq<Finding>)
    requires StreamScans.RuleOf(sc) == t
    ensures AllFrom(r, t)
  {
    StreamScans.ScanTestRule(sc, lines);
    StreamScans.ScanTest(sc, lines)
  }

  /** The clock and grouping rules of ST 2110-10 (checkST2110.js:106-399)
      and its video presence rule (checkST2110.js:422). */
  function Run10(t: Rule, sdp: string, p: Params, lines: seq<string>): (r: seq<Finding>)
    ensures AllFrom(r, t)
  {
    match t
    case Test10_62_1 => MediaRules.VideoRule(lines); MediaRules.VideoTest(lines)
    case Test10_74_1 => Clock.ZeroOffsetTest(sdp)
    case Test10_81_1 => Clock.MediaclkTest(sdp)
    case Test10_81_2 => Clock.DirectTest(sdp, p)
    case Test10_82_1 => Clock.RefclkTest(sdp)
    case Test10_82_2 => Clock.MediaLevelRule(lines, Clock.Form); Clock.MediaLevelTest(lines, Clock.Form)
    case Test10_82_3 => Clock.MediaLevelRule(lines, Clock.Ptp); Clock.MediaLevelTest(lines, Clock.Ptp)
    case Test10_82_4 => Clock.MediaLevelRule(lines, Clock.Mac); Clock.MediaLevelTest(lines, Clock.Mac)
    case Test10_83_1 => SourceGroups.DuplicationTest(sdp, p)
    case Test10_83_2 => SourceGroups.SourceGroupTest(sdp, lines)
    case Test10_83_3 => DestinationGroups.DestinationGroupRule(sdp, lines); DestinationGroups.DestinationGroupTest(sdp, lines)
    case _ => RunMedia(t, sdp, p, lines)
  }

  /** The media line rules of ST 2110-20, ST 2110-30 and ST 2110-22 and
      the bandwidth and frame rate rules of ST 2110-22. */
  function RunMedia(t: Rule, sdp: string, p: Params, lines: seq<string>): (r: seq<Finding>)
    ensures AllFrom(r, t)
  {
    match t
    case Test20_71_1 => MediaRules.VideoOnlyTest(sdp, p)
    case Test20_71_2 => MediaRules.VideoRule(lines); MediaRules.VideoFieldsTest(lines)
    case Test30_62_2 => MediaRules.VideoRule(lines); MediaRules.AudioFieldsTest(lines)
    case Test30_62_5 => MediaRules.AudioOnlyTest(sdp, p)
    case Test22_71_1 => MediaRules.Video22Test(lines)
    case Test22_73_1 => CompressedRules.BandwidthTest(lines)
    case Test22_74_1 => CompressedRules.FrameRateTest(lines)
    case _ => []
  }

  /** Test `t` of checkST2110.js run on the description with the options:
      every finding it returns is tagged with `t`. The source cuts the
      description into lines inside each test and throws when there is
      no line. The two copy checks are not tests and report nothing
      here. */
  function RunTest(t: Rule, sdp: string, p: Params): (r: seq<Finding>)
    requires HasLine(sdp)
    ensures AllFrom(r, t)
  {
    var lines := SplitLines(sdp);
    CheckOfRule(t);
    ScanOfRule(t, p);
    if CheckOf(t).Some? then Record(t, CheckOf(t).value, p, lines)
    else if ScanOf(t, p).Some? then Scan(t, ScanOf(t, p).value, lines)
    else Run10(t, sdp, p, lines)
  }

  // ---------------------------------------------------------------------
  // The sections

  /** The `section_*` functions of checkST2110.js:1494-1600 that
      `allSections` runs. */
  datatype Section =
    | Section10_62 | Section10_74 | Section10_81 | Section10_82 | Section10_83
    | Section20_71 | Section20_72 | Section20_73 | Section20_74 | Section20_75 | Section20_76
    | Section30_62 | Section21_81 | Section21_82
    | Section22_53 | Section22_6 | Section22_71 | Section22_72 | Section22_73 | Section22_74

  /** The tests of a section, in the order of its `tests` array. */
  function Tests(s: Section): seq<Rule>
  {
    match s
    case Section10_62 => [Test10_62_1]
    case Section10_74 => [Test10_74_1]
    case Section10_81 => [Test10_81_1, Test10_81_2]
    case Section10_82 => [Test10_82_1, Test10_82_2, Test10_82_3, Test10_82_4]
    case Section10_83 => [Test10_83_1, Test10_83_2, Test10_83_3]
    case Section20_71 => [Test20_71_1, Test20_71_2, Test20_71_3, Test20_71_4]
    case Section20_72 => [Test20_72_1, Test20_72_2, Test20_72_3, Test20_72_4, Test20_72_5]
    case Section20_73 => [Test20_73_1, Test20_73_2, Test20_73_3, Test20_73_4, Test20_73_5]
    case Section20_74 => [Test20_74_1, Test20_74_2]
    case Section20_75 => [Test20_75_1, Test20_75_2]
    case Section20_76 => [Test20_76_1]
    case Section30_62 => [Test30_62_1, Test30_62_2, Test30_62_3, Test30_62_4, Test30_62_5]
    case Section21_81 => [Test21_81_1, Test21_81_2]
    case Section21_82 => [Test21_82_1, Test21_82_2]
    case Section22_53 => [Test22_53_1]
    case Section22_6 => [Test22_6]
    case Section22_71 => [Test22_71_1]
    case Section22_72 => [Test22_72_1]
    case Section22_73 => [Test22_73_1]
    case Section22_74 => [Test22_74_1]
  }

  /** The section a test belongs to, read off its name. */
  function SectionOf(t: Rule): Option<Section>
  {
    match t
    case Test10_62_1 => Some(Section10_62)
    case Test10_74_1 => Some(Section10_74)
    case Test10_81_1 | Test10_81_2 => Some(Section10_81)
    case Test10_82_1 | Test10_82_2 | Test10_82_3 | Test10_82_4 => Some(Section10_82)
    case Test10_83_1 | Test10_83_2 | Test10_83_3 => Some(Section10_83)
    case Test20_71_1 | Test20_71_2 | Test20_71_3 | Test20_71_4 => Some(Section20_71)
    case Test20_72_1 | Test20_72_2 | Test20_72_3 | Test20_72_4 | Test20_72_5 => Some(Section20_72)
    case Test20_73_1 | Test20_73_2 | Test20_73_3 | Test20_73_4 | Test20_73_5 => Some(Section20_73)
    case Test20_74_1 | Test20_74_2 => Some(Section20_74)
    case Test20_75_1 | Test20_75_2 => Some(Section20_75)
    case Test20_76_1 => Some(Section20_76)
    case Test30_62_1 | Test30_62_2 | Test30_62_3 | Test30_62_4 | Test30_62_5 => Some(Section30_62)
    case Test21_81_1 | Test21_81_2 => Some(Section21_81)
    case Test21_82_1 | Test21_82_2 => Some(Section21_82)
    case Test22_53_1 => Some(Section22_53)
    case Test22_6 => Some(Section22_6)
    case Test22_71_1 => Some(Section22_71)
    case Test22_72_1 => Some(Section22_72)
    case Test22_73_1 => Some(Section22_73)
    case Test22_74_1 => Some(Section22_74)
    case NoCopy20 | NoCopy22 => None
  }

  /** No rule is listed twice. */
  predicate Distinct<T(==)>(xs: seq<T>)
  {
    forall i, j | 0 <= i < j < |xs| :: xs[i] != xs[j]
  }

  /** The sections in six groups, so that the facts about the tables
      below are checked a few sections at a time. */
  function Group(s: Section): nat
  {
    match s
    case Section10_62 | Section10_74 | Section10_81 | Section10_82 => 0
    case Section10_83 | Section20_71 => 1
    case Section20_72 | Section20_73 => 2
    case Section20_74 | Section20_75 | Section20_76 | Section21_81 | Section21_82 => 3
    case Section30_62 => 4
    case _ => 5
  }

  lemma Listed0(s: Section)
    requires Group(s) == 0
    ensures Distinct(Tests(s))
    ensures forall i | 0 <= i < |Tests(s)| :: SectionOf(Tests(s)[i]) == Some(s)
  {
  }

  lemma Listed1(s: Section)
    requires Group(s) == 1
    ensures Distinct(Tests(s))
    ensures forall i | 0 <= i < |Tests(s)| :: SectionOf(Tests(s)[i]) == Some(s)
  {
  }

  lemma Listed2(s: Section)
    requires Group(s) == 2
    ensures Distinct(Tests(s))
    ensures forall i | 0 <= i < |Tests(s)| :: SectionOf(Tests(s)[i]) == Some(s)
  {
  }

  lemma Listed3(s: Section)
    requires Group(s) == 3
    ensures Distinct(Tests(s))
    ensures forall i | 0 <= i < |Tests(s)| :: SectionOf(Tests(s)[i]) == Some(s)
  {
  }

  lemma Listed4(s: Section)
    requires Group(s) == 4
    ensures Distinct(Tests(s))
    ensures forall i | 0 <= i < |Tests(s)| :: SectionOf(Tests(s)[i]) == Some(s)
  {
  }

  lemma Listed5(s: Section)
    requires Group(s) == 5
    ensures Distinct(Tests(s))
    ensures forall i | 0 <= i < |Tests(s)| :: SectionOf(Tests(s)[i]) == Some(s)
  {
  }

  /** What remains of a list without repeats after its head has none, and
      lacks the head. */
  lemma DistinctTail<T>(xs: seq<T>)
    requires |xs| > 0 && Distinct(xs)
    ensures Distinct(xs[1..]) && xs[0] !in xs[1..]
  {
    var rest := xs[1..];
    forall i, j | 0 <= i < j < |rest| ensures rest[i] != rest[j] { assert rest[i] == xs[i + 1] && rest[j] == xs[j + 1]; }
    forall i | 0 <= i < |rest| ensures rest[i] != xs[0] { assert rest[i] == xs[i + 1]; }
  }

  /** Every section lists its tests once each, and only tests its name
      places in it. */
  lemma TestsInSection(s: Section)
    ensures Distinct(Tests(s))
    ensures forall i | 0 <= i < |Tests(s)| :: SectionOf(Tests(s)[i]) == Some(s)
  {
    match Group(s)
    case 0 => Listed0(s);
    case 1 => Listed1(s);
    case 2 => Listed2(s);
    case 3 => Listed3(s);
    case 4 => Listed4(s);
    case _ => Listed5(s);
  }

  lemma Lists0(t: Rule, s: Section) requires SectionOf(t) == Some(s) && Group(s) == 0 ensures t in Tests(s) { }
  lemma Lists1(t: Rule, s: Section) requires SectionOf(t) == Some(s) && Group(s) == 1 ensures t in Tests(s) { }
  lemma Lists2(t: Rule, s: Section) requires SectionOf(t) == Some(s) && Group(s) == 2 ensures t in Tests(s) { }
  lemma Lists3(t: Rule, s: Section) requires SectionOf(t) == Some(s) && Group(s) == 3 ensures t in Tests(s) { }
  lemma Lists4(t: Rule, s: Section) requires SectionOf(t) == Some(s) && Group(s) == 4 ensures t in Tests(s) { }
  lemma Lists5(t: Rule, s: Section) requires SectionOf(t) == Some(s) && Group(s) == 5 ensures t in Tests(s) { }

  /** Every test is listed by the section its name gives. */
  lemma SectionHasTest(t: Rule, s: Section)
    requires SectionOf(t) == Some(s)
    ensures t in Tests(s)
  {
    match Group(s)
    case 0 => Lists0(t, s);
    case 1 => Lists1(t, s);
    case 2 => Lists2(t, s);
    case 3 => Lists3(t, s);
    case 4 => Lists4(t, s);
    case _ => Lists5(t, s);
  }

  /** A section lists exactly the tests its name places in it. */
  lemma TestsOfSection(s: Section, t: Rule)
    ensures t in Tests(s) <==> SectionOf(t) == Some(s)
  {
    TestsInSection(s);
    if SectionOf(t) == Some(s) {
      SectionHasTest(t, s);
    }
  }

  // ---------------------------------------------------------------------
  // Composition, for any way `run` of running one test

  /** `run` reports, for each rule, findings of that rule only. */
  ghost predicate Tags(run: Rule -> seq<Finding>)
  {
    forall t :: AllFrom(run(t), t)
  }

  /** The tests of `ts` run one after the other, their findings
      concatenated: `concat(tests.map(t => t(sdp, params)))`. */
  function RunAll(run: Rule -> seq<Finding>, ts: seq<Rule>): seq<Finding>
  {
    if |ts| == 0 then [] else run(ts[0]) + RunAll(run, ts[1..])
  }

  /** A `section_*` function. */
  function RunSection(run: Rule -> seq<Finding>, s: Section): seq<Finding>
  {
    RunAll(run, Tests(s))
  }

  /** Sections run one after the other, their findings concatenated. */
  function RunSections(run: Rule -> seq<Finding>, ss: seq<Section>): seq<Finding>
  {
    if |ss| == 0 then [] else RunSection(run, ss[0]) + RunSections(run, ss[1..])
  }

  /** The tests of the sections `ss`, section after section. */
  function Flat(ss: seq<Section>): seq<Rule>
  {
    if |ss| == 0 then [] else Tests(ss[0]) + Flat(ss[1..])
  }

  /** Running two lists of tests runs their concatenation. */
  lemma {:induction false} RunAllAppend(run: Rule -> seq<Finding>, a: seq<Rule>, b: seq<Rule>)
    ensures RunAll(run, a + b) == RunAll(run, a) + RunAll(run, b)
    decreases |a|
  {
    if |a| == 0 {
      assert a + b == b;
    } else {
      assert (a + b)[1..] == a[1..] + b;
      RunAllAppend(run, a[1..], b);
    }
  }

  /** Running sections one after the other runs all their tests in the
      order the sections, and within them the `tests` arrays, list them. */
  lemma {:induction false} SectionsInOrder(run: Rule -> seq<Finding>, ss: seq<Section>)
    ensures RunSections(run, ss) == RunAll(run, Flat(ss))
    decreases |ss|
  {
    if |ss| > 0 {
      SectionsInOrder(run, ss[1..]);
      RunAllAppend(run, Tests(ss[0]), Flat(ss[1..]));
    }
  }

  /** Of distinct tests run in turn, test `t` contributes its own findings
      whole, and only if it is listed. */
  lemma {:induction false} RunAllFromRule(run: Rule -> seq<Finding>, ts: seq<Rule>, t: Rule)
    requires Tags(run) && Distinct(ts)
    ensures FromRule(RunAll(run, ts), t) == if t in ts then run(t) else []
    decreases |ts|
  {
    if |ts| > 0 {
      var rest := ts[1..];
      DistinctTail(ts);
      RunAllFromRule(run, rest, t);
      FromRuleAppend(run(ts[0]), RunAll(run, rest), t);
      if ts[0] == t {
        FromRuleAll(run(t), t);
      } else {
        FromOtherRule(run(ts[0]), ts[0], t);
        assert t in ts <==> t in rest by { assert ts == [ts[0]] + rest; }
      }
    }
  }

  /** A section reports, under rule `t`, exactly the findings of test `t`
      when it lists `t`, and nothing otherwise. */
  lemma {:induction false} SectionFromRule(run: Rule -> seq<Finding>, s: Section, t: Rule)
    requires Tags(run)
    ensures FromRule(RunSection(run, s), t) == if t in Tests(s) then run(t) else []
  {
    TestsInSection(s);
    RunAllFromRule(run, Tests(s), t);
  }

  /** Distinct sections run in turn report, under rule `t`, exactly the
      findings of test `t` when its section is among them, and nothing
      otherwise. */
  lemma {:induction false} SectionsFromRule(run: Rule -> seq<Finding>, ss: seq<Section>, t: Rule)
    requires Tags(run) && Distinct(ss)
    ensures FromRule(RunSections(run, ss), t) ==
      if SectionOf(t).Some? && SectionOf(t).value in ss then run(t) else []
    decreases |ss|
  {
    if |ss| > 0 {
      var rest := ss[1..];
      DistinctTail(ss);
      SectionsFromRule(run, rest, t);
      SectionFromRule(run, ss[0], t);
      TestsOfSection(ss[0], t);
      FromRuleAppend(RunSection(run, ss[0]), RunSections(run, rest), t);
      assert ss == [ss[0]] + rest;
    }
  }

  // ---------------------------------------------------------------------
  // allSections

  /** The sections `allSections` runs, in order: with the `smpte2110_22`
      option those of ST 2110-10 but 10_62 and those of ST 2110-22,
      otherwise those of ST 2110-10, -20, -30 and -21. */
  function Profile(p: Params): seq<Section>
  {
    if p.smpte2110_22 then
      [Section10_74, Section10_81, Section10_82, Section10_83,
       Section22_53, Section22_6, Section22_71, Section22_72,
       Section22_73, Section22_74]
    else
      [Section10_62, Section10_74, Section10_81, Section10_82, Section10_83,
       Section20_71, Section20_72, Section20_73, Section20_74,
       Section20_75, Section20_76, Section30_62,
       Section21_81, Section21_82]
  }

  /** Neither profile runs a section twice. */
  lemma ProfileDistinct(p: Params)
    ensures Distinct(Profile(p))
  {
  }

  /** The copy check `allSections` appends with the `noCopy` option. */
  function CopyRule(p: Params): Rule
  {
    if p.smpte2110_22 then NoCopy22 else NoCopy20
  }

  /** Sections only the ST 2110-20 profile runs. */
  predicate Only20(s: Section)
  {
    s.Section10_62? || s.Section20_71? || s.Section20_72? || s.Section20_73? ||
    s.Section20_74? || s.Section20_75? || s.Section20_76? || s.Section30_62? ||
    s.Section21_81? || s.Section21_82?
  }

  /** Sections only the ST 2110-22 profile runs. */
  predicate Only22(s: Section)
  {
    s.Section22_53? || s.Section22_6? || s.Section22_71? || s.Section22_72? ||
    s.Section22_73? || s.Section22_74?
  }

  /** A profile runs every section but those only the other one runs. */
  lemma ProfileSections(p: Params, s: Section)
    ensures s in Profile(p) <==> if p.smpte2110_22 then !Only20(s) else !Only22(s)
  {
  }

  /** The copy checks belong to no section. */
  lemma CopyRuleUnlisted(p: Params)
    ensures SectionOf(CopyRule(p)).None?
  {
  }

  /** `no_copy_22` or `no_copy_20`, as the profile asks. */
  function CopyTest(sdp: string, p: Params): (r: seq<Finding>)
    requires HasLine(Trim(sdp))
    ensures AllFrom(r, CopyRule(p))
  {
    if p.smpte2110_22 then CopyCheck.NoCopyTest22(sdp) else CopyCheck.NoCopyTest20(sdp)
  }

  /** Every test run on the same description with the same options. */
  function Tester(sdp: string, p: Params): (run: Rule -> seq<Finding>)
    requires HasLine(sdp)
    ensures Tags(run)
    ensures forall t :: run(t) == RunTest(t, sdp, p)
  {
    t => RunTest(t, sdp, p)
  }

  /** Test `t` belongs to a section the profile runs. */
  predicate InProfile(t: Rule, p: Params)
  {
    SectionOf(t).Some? && SectionOf(t).value in Profile(p)
  }

  /** The profile's sections run by `run`, followed by `copy` when the
      `noCopy` option is set. */
  function Report(run: Rule -> seq<Finding>, p: Params, copy: seq<Finding>): seq<Finding>
  {
    RunSections(run, Profile(p)) + (if p.noCopy then copy else [])
  }

  /** Sections run in turn followed by the findings of a rule no section
      lists hold, rule by rule, each listed test's findings and those of
      the extra rule. */
  lemma {:induction false} SectionsThenFromRule(run: Rule -> seq<Finding>, ss: seq<Section>, extra: seq<Finding>, c: Rule, t: Rule)
    requires Tags(run) && Distinct(ss) && AllFrom(extra, c) && SectionOf(c).None?
    ensures FromRule(RunSections(run, ss) + extra, t) ==
      if SectionOf(t).Some? && SectionOf(t).value in ss then run(t)
      else if t == c then extra
      else []
  {
    SectionsFromRule(run, ss, t);
    FromRuleThen(RunSections(run, ss), extra, c, t);
  }

  /** Rule by rule, the report holds the findings of each test of the
      profile, whole and nothing more, the copy check's findings when it
      ran, and nothing of any other rule. */
  lemma {:induction false} ReportFromRule(run: Rule -> seq<Finding>, p: Params, copy: seq<Finding>, t: Rule)
    requires Tags(run) && AllFrom(copy, CopyRule(p))
    ensures FromRule(Report(run, p, copy), t) ==
      if InProfile(t, p) then run(t)
      else if p.noCopy && t == CopyRule(p) then copy
      else []
  {
    ProfileDistinct(p);
    CopyRuleUnlisted(p);
    var extra := if p.noCopy then copy else [];
    SectionsThenFromRule(run, Profile(p), extra, CopyRule(p), t);
  }

  /** Every finding of the report comes from a test of the profile or from
      the copy check the options ask for. */
  lemma {:induction false} ReportRules(run: Rule -> seq<Finding>, p: Params, copy: seq<Finding>, i: nat)
    requires Tags(run) && AllFrom(copy, CopyRule(p))
    requires i < |Report(run, p, copy)|
    ensures InProfile(Report(run, p, copy)[i].rule, p) || (p.noCopy && Report(run, p, copy)[i].rule == CopyRule(p))
  {
    var r := Report(run, p, copy);
    FromRuleHas(r, i);
    ReportFromRule(run, p, copy, r[i].rule);
  }

  /** Rules only the ST 2110-20 profile reports under. */
  predicate RuleOnly20(t: Rule)
  {
    t == NoCopy20 || (SectionOf(t).Some? && Only20(SectionOf(t).value))
  }

  /** Rules only the ST 2110-22 profile reports under. */
  predicate RuleOnly22(t: Rule)
  {
    t == NoCopy22 || (SectionOf(t).Some? && Only22(SectionOf(t).value))
  }

  /** A rule a profile reports under is not one only the other profile
      reports under. */
  lemma RuleIsolated(p: Params, u: Rule)
    requires InProfile(u, p) || (p.noCopy && u == CopyRule(p))
    ensures p.smpte2110_22 ==> !RuleOnly20(u)
    ensures !p.smpte2110_22 ==> !RuleOnly22(u)
  {
    if SectionOf(u).Some? {
      ProfileSections(p, SectionOf(u).value);
    }
  }

  /** The report of one profile holds no finding of a rule only the
      other profile runs. */
  lemma {:induction false} ReportIsolated(run: Rule -> seq<Finding>, p: Params, copy: seq<Finding>)
    requires Tags(run) && AllFrom(copy, CopyRule(p))
    ensures p.smpte2110_22 ==> forall i | 0 <= i < |Report(run, p, copy)| :: !RuleOnly20(Report(run, p, copy)[i].rule)
    ensures !p.smpte2110_22 ==> forall i | 0 <= i < |Report(run, p, copy)| :: !RuleOnly22(Report(run, p, copy)[i].rule)
  {
    var r := Report(run, p, copy);
    forall i | 0 <= i < |r|
      ensures p.smpte2110_22 ==> !RuleOnly20(r[i].rule)
      ensures !p.smpte2110_22 ==> !RuleOnly22(r[i].rule)
    {
      ReportRules(run, p, copy, i);
      RuleIsolated(p, r[i].rule);
    }
  }

  /** `allSections`: the findings of the profile's sections, in order,
      then with `noCopy` those of the copy check. The source throws when
      the description has no line, and, with `noCopy`, when nothing but
      white space is left of it once trimmed. */
  function AllSections(sdp: string, p: Params): seq<Finding>
    requires HasLine(sdp)
    requires p.noCopy ==> HasLine(Trim(sdp))
  {
    Report(Tester(sdp, p), p, if p.noCopy then CopyTest(sdp, p) else [])
  }

  /** `allSections` runs the tests of the profile's sections one after
      the other, in the order of the `sections` array and of each
      section's `tests` array, then the copy check. */
  lemma AllSectionsInOrder(sdp: string, p: Params)
    requires HasLine(sdp)
    requires p.noCopy ==> HasLine(Trim(sdp))
    ensures AllSections(sdp, p) ==
      RunAll(Tester(sdp, p), Flat(Profile(p))) + (if p.noCopy then CopyTest(sdp, p) else [])
  {
    SectionsInOrder(Tester(sdp, p), Profile(p));
  }

  /** Rule by rule, `allSections` reports the findings of each test of
      the profile, whole and nothing more, the copy check's findings when
      `noCopy` is set, and nothing of any other rule. */
  lemma AllSectionsFromRule(sdp: string, p: Params, t: Rule)
    requires HasLine(sdp)
    requires p.noCopy ==> HasLine(Trim(sdp))
    ensures FromRule(AllSections(sdp, p), t) ==
      if InProfile(t, p) then RunTest(t, sdp, p)
      else if p.noCopy && t == CopyRule(p) then CopyTest(sdp, p)
      else []
  {
    ReportFromRule(Tester(sdp, p), p, if p.noCopy then CopyTest(sdp, p) else [], t);
  }

  /** With the `smpte2110_22` option no finding comes from a test of ST
      2110-20, -30 or -21, from test 10_62_1 or from `no_copy_20`; without
      it none comes from a test of ST 2110-22 or from `no_copy_22`. */
  lemma AllSectionsIsolated(sdp: string, p: Params)
    requires HasLine(sdp)
    requires p.noCopy ==> HasLine(Trim(sdp))
    ensures p.smpte2110_22 ==> forall i | 0 <= i < |AllSections(sdp, p)| :: !RuleOnly20(AllSections(sdp, p)[i].rule)
    ensures !p.smpte2110_22 ==> forall i | 0 <= i < |AllSections(sdp, p)| :: !RuleOnly22(AllSections(sdp, p)[i].rule)
  {
    ReportIsolated(Tester(sdp, p), p, if p.noCopy then CopyTest(sdp, p) else []);
  }
}
