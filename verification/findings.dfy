/** What the rule engine reports. Each rule of checkST2110.js returns a list
    of `Error` objects whose messages name a line and/or a stream; the model
    keeps the message's meaning as a `Kind`, the 1-based line it cites and
    the stream number it cites, and tags each finding with the rule that
    returned it. */
module Findings {
  import opened Text

  /** The rule (`test_*` function, or `no_copy_*`) that returned a finding. */
  datatype Rule =
    | Test10_62_1 | Test10_74_1 | Test10_81_1 | Test10_81_2
    | Test10_82_1 | Test10_82_2 | Test10_82_3 | Test10_82_4
    | Test10_83_1 | Test10_83_2 | Test10_83_3
    | Test20_71_1 | Test20_71_2 | Test20_71_3 | Test20_71_4
    | Test20_72_1 | Test20_72_2 | Test20_72_3 | Test20_72_4 | Test20_72_5
    | Test20_73_1 | Test20_73_2 | Test20_73_3 | Test20_73_4 | Test20_73_5
    | Test20_74_1 | Test20_74_2 | Test20_75_1 | Test20_75_2 | Test20_76_1
    | Test30_62_1 | Test30_62_2 | Test30_62_3 | Test30_62_4 | Test30_62_5
    | Test21_81_1 | Test21_81_2 | Test21_82_1 | Test21_82_2
    | Test22_53_1 | Test22_6 | Test22_71_1 | Test22_72_1 | Test22_73_1 | Test22_74_1
    | NoCopy20 | NoCopy22

  /** The meaning of one error message. */
  datatype Kind =
    // ST 2110-10 section 7.4 and 8.1: media clock
    | NonZeroMediaclkOffset
    | MissingMediaclk
    | MediaclkNotDirect(found: string)
    // ST 2110-10 section 8.2: reference clock
    | MissingTsRefclk
    | RefclkForm
    | DeprecatedTraceable
    | UnsupportedPtpVersion
    | PtpServerPattern
    | PtpDomainRange
    | PtpDomainMissing
    | InvalidMac
    // ST 2110-10 section 8.3: duplication (RFC 7104, RFC 5888)
    | DuplicationMissing
    | SsrcNotInteger
    | SsrcGroupPattern
    | UnknownSsrc(ssrc: string)
    | DuplicateMid(mid: string)
    | TwoMids(mid: string, existing: string)
    | NoSessionGroup
    | GroupPattern
    | UnknownMid(mid: string)
    // media descriptions (ST 2110-10 section 6.2)
    | NotVideo
    | NotAudio
    | MediaPattern
    | InvalidPort
    | SrtpNotAllowed
    | NotDynamicPayload
    | NoVideo
    // rtpmap and fmtp presence
    | MissingRtpmap
    | DuplicateRtpmap
    | RtpmapPattern
    | RtpmapPayloadMismatch
    | WrongEncoding
    | WrongClockRate
    | MissingFmtp
    | DuplicateFmtp
    | FmtpPattern
    | FmtpPayloadMismatch
    | FmtpMalformed
    // ST 2110-20 format parameters
    | MissingParameter(name: string)
    | NotInteger(name: string)
    | OutOfRange(name: string)
    | FrameRatePattern
    | IntegerAsRational
    | SlowFrameRate
    | FrameRateNotMinimal
    | BadPackingMode
    | BadSsn
    | InterlaceValue
    | SegmentedValue
    | SegmentedWithoutInterlace
    | BadRange
    | BadRangeForBt2100
    | BadMaxUdp
    | ParPattern
    | ParNotMinimal
    | BadSampling
    | BadDepth
    | BadColorimetry
    | RangeRecommended
    | BadTcs
    // ST 2110-30 audio
    | AudioRtpmapPattern
    | DuplicateAudioRtpmap
    | BadSampleRate
    | L16At96k
    | L24At44k
    | PtimePattern
    | DuplicatePtime
    | MissingPtime
    | MaxptimePattern
    | MissingChannelOrder
    | FmtpWithoutChannelOrder
    | ChannelOrderConvention
    | ChannelOrderPattern
    | DuplicateAudioFmtp
    | AudioFmtpPayloadMismatch
    // ST 2110-21 traffic shaping
    | MissingTp
    | BadTp
    | TroffNotNumber
    | TroffNegative
    | CmaxNotNumber
    | CmaxNotInteger
    | CmaxNotPositive
    // ST 2110-22
    | BandwidthPattern
    | BandwidthType
    | MissingBandwidth
    | NotSingleVideo
    | FrameRateAttributePattern
    | NoFrameRate
    | TwoFrameRates
    // Appendix B of ST 2110-10 and TR-08 Appendix 1
    | CopiedExample

  /** One error: the rule that reported it, what it says, the 1-based line
      it cites (into the non-empty lines) and the stream number it cites. */
  datatype Finding = Finding(rule: Rule, kind: Kind, line: Option<nat>, stream: Option<nat>)

  /** The options record the command line passes to every rule. */
  datatype Params = Params(
    should: bool,
    verbose: bool,
    duplicate: bool,
    videoOnly: bool,
    audioOnly: bool,
    channelOrder: bool,
    shaping: bool,
    noCopy: bool,
    smpte2110_22: bool)

  /** A finding that cites line `x + 1` of stream `s`. */
  function LineError(rule: Rule, kind: Kind, x: nat, s: nat): Finding
  {
    Finding(rule, kind, Some(x + 1), Some(s))
  }

  /** `f` occurs in `fs` at most once. */
  predicate AtMostOnce(fs: seq<Finding>, f: Finding)
  {
    forall i, j | 0 <= i < j < |fs| && fs[i] == f :: fs[j] != f
  }

  /** Every finding of `fs` was reported by `rule`. */
  predicate AllFrom(fs: seq<Finding>, rule: Rule)
  {
    forall i | 0 <= i < |fs| :: fs[i].rule == rule
  }

  /** Findings all reported by `rule`, concatenated, are all reported by
      `rule`. */
  lemma AllFromAppend(a: seq<Finding>, b: seq<Finding>, rule: Rule)
    requires AllFrom(a, rule) && AllFrom(b, rule)
    ensures AllFrom(a + b, rule)
  {
    forall i | 0 <= i < |a + b| ensures (a + b)[i].rule == rule {
      if i >= |a| { assert (a + b)[i] == b[i - |a|]; }
    }
  }

  /** The findings reported by `rule`, in order. */
  function FromRule(fs: seq<Finding>, rule: Rule): (r: seq<Finding>)
    ensures |r| <= |fs|
    ensures AllFrom(r, rule)
  {
    if |fs| == 0 then []
    else (if fs[0].rule == rule then [fs[0]] else []) + FromRule(fs[1..], rule)
  }

  /** Selecting by rule distributes over concatenation. */
  lemma {:induction false} FromRuleAppend(a: seq<Finding>, b: seq<Finding>, rule: Rule)
    ensures FromRule(a + b, rule) == FromRule(a, rule) + FromRule(b, rule)
    decreases |a|
  {
    if |a| == 0 {
      assert a + b == b;
    } else {
      var c := a + b;
      assert c[0] == a[0];
      assert c[1..] == a[1..] + b;
      FromRuleAppend(a[1..], b, rule);
      var h := if a[0].rule == rule then [a[0]] else [];
      assert FromRule(c, rule) == h + FromRule(a[1..] + b, rule);
      assert FromRule(a, rule) == h + FromRule(a[1..], rule);
    }
  }

  /** The rule of any finding selects at least that finding. */
  lemma {:induction false} FromRuleHas(fs: seq<Finding>, i: nat)
    requires i < |fs|
    ensures FromRule(fs, fs[i].rule) != []
    decreases i
  {
    if i > 0 {
      FromRuleHas(fs[1..], i - 1);
      assert fs[1..][i - 1] == fs[i];
      assert FromRule(fs, fs[i].rule) == (if fs[0].rule == fs[i].rule then [fs[0]] else []) + FromRule(fs[1..], fs[i].rule);
    }
  }

  /** Findings all reported by `rule` are kept whole. */
  lemma {:induction false} FromRuleAll(fs: seq<Finding>, rule: Rule)
    requires AllFrom(fs, rule)
    ensures FromRule(fs, rule) == fs
    decreases |fs|
  {
    if |fs| > 0 {
      assert AllFrom(fs[1..], rule) by {
        forall i | 0 <= i < |fs| - 1 ensures fs[1..][i].rule == rule { assert fs[1..][i] == fs[i + 1]; }
      }
      FromRuleAll(fs[1..], rule);
      assert fs == [fs[0]] + fs[1..];
    }
  }

  /** Findings all reported by another rule contain none of `rule`'s. */
  lemma {:induction false} FromOtherRule(fs: seq<Finding>, other: Rule, rule: Rule)
    requires AllFrom(fs, other) && other != rule
    ensures FromRule(fs, rule) == []
    decreases |fs|
  {
    if |fs| > 0 {
      assert AllFrom(fs[1..], other) by {
        forall i | 0 <= i < |fs| - 1 ensures fs[1..][i].rule == other { assert fs[1..][i] == fs[i + 1]; }
      }
      FromOtherRule(fs[1..], other, rule);
    }
  }

  /** Findings followed by some of `other`'s: selecting `rule` keeps the
      latter whole when `rule` is `other`, and drops them otherwise. */
  lemma FromRuleThen(fs: seq<Finding>, extra: seq<Finding>, other: Rule, rule: Rule)
    requires AllFrom(extra, other)
    ensures FromRule(fs + extra, rule) == FromRule(fs, rule) + (if rule == other then extra else [])
  {
    FromRuleAppend(fs, extra, rule);
    if rule == other {
      FromRuleAll(extra, rule);
    } else {
      FromOtherRule(extra, other, rule);
    }
  }

  /** The count of `x` in a sequence is its count in the head plus its
      count in the rest. */
  lemma MultisetCons<T>(s: seq<T>, x: T)
    requires |s| > 0
    ensures multiset(s)[x] == (if s[0] == x then 1 else 0) + multiset(s[1..])[x]
  {
    assert s == [s[0]] + s[1..];
  }

  /** How many findings cite stream `n`. */
  function CountCiting(fs: seq<Finding>, n: nat): nat
  {
    if |fs| == 0 then 0 else (if fs[0].stream == Some(n) then 1 else 0) + CountCiting(fs[1..], n)
  }

  /** Counting distributes over concatenation. */
  lemma {:induction false} CountCitingAppend(a: seq<Finding>, b: seq<Finding>, n: nat)
    ensures CountCiting(a + b, n) == CountCiting(a, n) + CountCiting(b, n)
    decreases |a|
  {
    if |a| == 0 {
      assert a + b == b;
    } else {
      assert (a + b)[0] == a[0];
      assert (a + b)[1..] == a[1..] + b;
      CountCitingAppend(a[1..], b, n);
    }
  }

  /** Findings that all cite stream `s` are all counted for `s` and none
      for any other stream. */
  lemma {:induction false} CountCitingOnly(fs: seq<Finding>, s: nat, n: nat)
    requires forall i | 0 <= i < |fs| :: fs[i].stream == Some(s)
    ensures CountCiting(fs, n) == if n == s then |fs| else 0
    decreases |fs|
  {
    if |fs| > 0 {
      assert forall i | 0 <= i < |fs| - 1 :: fs[1..][i] == fs[i + 1];
      CountCitingOnly(fs[1..], s, n);
    }
  }

  /** Some finding cites stream `n` exactly when the count for `n` is not
      zero. */
  lemma {:induction false} CountCitingCites(fs: seq<Finding>, n: nat)
    ensures CitesStream(fs, n) <==> CountCiting(fs, n) > 0
    decreases |fs|
  {
    if |fs| > 0 {
      CountCitingCites(fs[1..], n);
      if CitesStream(fs[1..], n) {
        var i :| 0 <= i < |fs[1..]| && fs[1..][i].stream == Some(n);
        assert fs[i + 1] == fs[1..][i];
      }
      if CitesStream(fs, n) && fs[0].stream != Some(n) {
        var i :| 0 <= i < |fs| && fs[i].stream == Some(n);
        assert fs[1..][i - 1] == fs[i];
      }
    }
  }

  /** What each stream contributes cites that stream. */
  predicate StreamTagged(chunks: seq<seq<Finding>>)
  {
    forall y, i | 0 <= y < |chunks| && 0 <= i < |chunks[y]| :: chunks[y][i].stream == Some(y)
  }

  /** Stream `n` is cited as often as it contributed findings. */
  lemma {:induction false} FlattenCount(chunks: seq<seq<Finding>>, x: nat, n: nat)
    requires x <= |chunks| && StreamTagged(chunks)
    ensures CountCiting(FlattenFrom(chunks, x), n) == if x <= n < |chunks| then |chunks[n]| else 0
    decreases |chunks| - x
  {
    if x < |chunks| {
      FlattenCount(chunks, x + 1, n);
      CountCitingAppend(chunks[x], FlattenFrom(chunks, x + 1), n);
      CountCitingOnly(chunks[x], x, n);
    }
  }

  /** Re-tags findings with another rule: how `test_22_71_1` passes on the
      errors of `test_10_62_1` as its own. */
  function Retag(fs: seq<Finding>, rule: Rule): (r: seq<Finding>)
    ensures |r| == |fs| && AllFrom(r, rule)
    ensures forall i | 0 <= i < |fs| ::
      r[i].kind == fs[i].kind && r[i].line == fs[i].line && r[i].stream == fs[i].stream
  {
    seq(|fs|, i requires 0 <= i < |fs| => fs[i].(rule := rule))
  }

  /** Some finding of `fs` cites stream `n`. */
  predicate CitesStream(fs: seq<Finding>, n: nat)
  {
    exists i | 0 <= i < |fs| :: fs[i].stream == Some(n)
  }

  /** Some finding of `fs` cites line `n` (1-based). */
  predicate CitesLine(fs: seq<Finding>, n: nat)
  {
    exists i | 0 <= i < |fs| :: fs[i].line == Some(n)
  }

  lemma CitesAppend(a: seq<Finding>, b: seq<Finding>, n: nat)
    ensures CitesStream(a + b, n) <==> CitesStream(a, n) || CitesStream(b, n)
    ensures CitesLine(a + b, n) <==> CitesLine(a, n) || CitesLine(b, n)
  {
    var r := a + b;
    forall i | 0 <= i < |a| ensures r[i] == a[i] { }
    forall i | 0 <= i < |b| ensures r[|a| + i] == b[i] { }
    if CitesStream(r, n) {
      var i :| 0 <= i < |r| && r[i].stream == Some(n);
      if i >= |a| { assert r[i] == b[i - |a|]; }
    }
    if CitesLine(r, n) {
      var i :| 0 <= i < |r| && r[i].line == Some(n);
      if i >= |a| { assert r[i] == b[i - |a|]; }
    }
  }

  /** A finding list that cites one stream cites it when it is not empty. */
  lemma CitesOnly(fs: seq<Finding>, s: nat, n: nat)
    requires forall i | 0 <= i < |fs| :: fs[i].stream == Some(s)
    ensures CitesStream(fs, n) <==> |fs| > 0 && n == s
  {
    if |fs| > 0 && n == s { assert fs[0].stream == Some(n); }
  }

  lemma CitesOne(f: Finding, n: nat)
    ensures CitesStream([f], n) <==> f.stream == Some(n)
    ensures CitesLine([f], n) <==> f.line == Some(n)
  {
    assert [f][0] == f;
  }

  /** The findings of every line from line `x` on, in line order:
      `chunks[y]` holds what line `y` contributes. */
  function FlattenFrom(chunks: seq<seq<Finding>>, x: nat): seq<Finding>
    requires x <= |chunks|
    decreases |chunks| - x
  {
    if x == |chunks| then [] else chunks[x] + FlattenFrom(chunks, x + 1)
  }

  /** The findings of `f` for each element of `xs`, in order. */
  function ConcatMap<T>(f: T -> seq<Finding>, xs: seq<T>): seq<Finding>
  {
    if |xs| == 0 then [] else f(xs[0]) + ConcatMap(f, xs[1..])
  }

  /** Mapping over one element is applying `f` to it. */
  lemma ConcatMapOne<T>(f: T -> seq<Finding>, x: T)
    ensures ConcatMap(f, [x]) == f(x)
  {
    assert [x][1..] == [];
  }

  /** Mapping over two lists one after the other is mapping over their
      concatenation. */
  lemma {:induction false} ConcatMapAppend<T>(f: T -> seq<Finding>, a: seq<T>, b: seq<T>)
    ensures ConcatMap(f, a + b) == ConcatMap(f, a) + ConcatMap(f, b)
    decreases |a|
  {
    if |a| == 0 {
      assert a + b == b;
    } else {
      assert (a + b)[0] == a[0];
      assert (a + b)[1..] == a[1..] + b;
      ConcatMapAppend(f, a[1..], b);
    }
  }

  /** A property every finding of every `f(x)` has, every finding of the
      concatenation has. */
  lemma {:induction false} ConcatMapEvery<T>(f: T -> seq<Finding>, xs: seq<T>, P: Finding -> bool)
    requires forall x, i | 0 <= i < |f(x)| :: P(f(x)[i])
    ensures forall i | 0 <= i < |ConcatMap(f, xs)| :: P(ConcatMap(f, xs)[i])
    decreases |xs|
  {
    if |xs| > 0 {
      ConcatMapEvery(f, xs[1..], P);
      var h := f(xs[0]);
      var t := ConcatMap(f, xs[1..]);
      forall i | 0 <= i < |h + t|
        ensures P((h + t)[i])
      {
        if i >= |h| {
          assert (h + t)[i] == t[i - |h|];
        }
      }
    }
  }

  /** What each line contributes cites that line. */
  predicate LineTagged(chunks: seq<seq<Finding>>)
  {
    forall y, i | 0 <= y < |chunks| && 0 <= i < |chunks[y]| :: chunks[y][i].line == Some(y + 1)
  }

  /** Flattening from `x` puts line `x`'s findings in front. */
  lemma FlattenStep(chunks: seq<seq<Finding>>, x: nat, tail: seq<Finding>)
    requires x < |chunks|
    ensures FlattenFrom(chunks, x) + tail == chunks[x] + (FlattenFrom(chunks, x + 1) + tail)
  {
  }

  /** A finding that cites line `y + 1` is in the result exactly when
      line `y` contributed it. */
  lemma {:induction false} FlattenHas(chunks: seq<seq<Finding>>, x: nat, f: Finding, y: nat)
    requires x <= |chunks| && LineTagged(chunks) && f.line == Some(y + 1)
    ensures f in FlattenFrom(chunks, x) <==> x <= y < |chunks| && f in chunks[y]
    decreases |chunks| - x
  {
    if x < |chunks| {
      FlattenHas(chunks, x + 1, f, y);
      if f in chunks[x] {
        var i :| 0 <= i < |chunks[x]| && chunks[x][i] == f;
      }
    }
  }

  /** Every finding of the result cites a line. */
  lemma {:induction false} FlattenLines(chunks: seq<seq<Finding>>, x: nat, f: Finding)
    requires x <= |chunks| && LineTagged(chunks) && f.line.None?
    ensures f !in FlattenFrom(chunks, x)
    decreases |chunks| - x
  {
    if x < |chunks| {
      FlattenLines(chunks, x + 1, f);
    }
  }

  /** Line `y + 1` is cited exactly when line `y` contributed something. */
  lemma {:induction false} FlattenCites(chunks: seq<seq<Finding>>, x: nat, y: nat)
    requires x <= |chunks| && LineTagged(chunks)
    ensures CitesLine(FlattenFrom(chunks, x), y + 1) <==> x <= y < |chunks| && |chunks[y]| > 0
    decreases |chunks| - x
  {
    if x < |chunks| {
      FlattenCites(chunks, x + 1, y);
      CitesAppend(chunks[x], FlattenFrom(chunks, x + 1), y + 1);
      if |chunks[x]| > 0 {
        assert chunks[x][0].line == Some(x + 1);
      }
    }
  }

  /** Every finding of the result has a property every line's findings
      have. */
  lemma {:induction false} FlattenAll(chunks: seq<seq<Finding>>, x: nat, rule: Rule)
    requires x <= |chunks| && forall y | 0 <= y < |chunks| :: AllFrom(chunks[y], rule)
    ensures AllFrom(FlattenFrom(chunks, x), rule)
    decreases |chunks| - x
  {
    if x < |chunks| {
      FlattenAll(chunks, x + 1, rule);
      var a: seq<Finding> := chunks[x];
      var b: seq<Finding> := FlattenFrom(chunks, x + 1);
      var c: seq<Finding> := a + b;
      forall i | 0 <= i < |c| ensures c[i].rule == rule {
        if i >= |a| { assert c[i] == b[i - |a|]; }
      }
    }
  }

  /** Lines that contribute nothing add nothing. */
  lemma {:induction false} FlattenEmpty(chunks: seq<seq<Finding>>, x: nat)
    requires x <= |chunks| && forall z | x <= z < |chunks| :: chunks[z] == []
    ensures FlattenFrom(chunks, x) == []
    decreases |chunks| - x
  {
    if x < |chunks| {
      FlattenEmpty(chunks, x + 1);
    }
  }
}
