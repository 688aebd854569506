/** The regular expressions of checkST2110.js:19-48, each as a function that
    returns the capture groups the rules read. The patterns the token
    matcher covers are token lists, written as nested concatenations; the
    ones whose outcome depends on backtracking (`(\S+)\/(\d+)` in the
    rtpmap pattern, the `.*` around `channel-order=`, the `[\s\S]+` of the
    duplication pattern, `\d*.\d*` of the frame-rate attribute) are written
    out by hand. */
module Patterns {
  import opened Text
  import opened Regex

  // ---------------------------------------------------------------------
  // Media descriptions: `videoPattern` and `audioPattern`

  /** What a media line's match yields: the port (group 1), whether the
      protocol is `RTP/SAVP` (group 3) and the payload type (group 4). */
  datatype Media = Media(port: string, savp: bool, pt: string)

  /** `<kind>\s+(\d+)(\/\d+)?\s+(RTP\/S?AVP)\s+(\d+)` */
  function MediaTokens(kind: string): seq<Token>
  {
    [Lit(kind)] + ([Plus(IsSpace)] + ([Plus(IsDigit)] + MediaProtocol()))
  }

  /** `(\/\d+)?\s+RTP\/` followed by the rest. */
  function MediaProtocol(): seq<Token>
  {
    [Opt([Lit("/")] + [Plus(IsDigit)])] + ([Plus(IsSpace)] + ([Lit("RTP/")] + MediaFormat()))
  }

  /** `S?AVP\s+(\d+)` */
  function MediaFormat(): seq<Token>
  {
    [Opt([Lit("S")])] + ([Lit("AVP")] + ([Plus(IsSpace)] + [Plus(IsDigit)]))
  }

  /** `line.match(videoPattern)` (kind "video") or `audioPattern` (kind
      "audio"). */
  function MediaOf(kind: string, line: string): (r: Option<Media>)
    ensures r.Some? <==> Matches(line, MediaTokens(kind))
  {
    match Find(line, MediaTokens(kind))
    case None => None
    case Some(ps) => Some(Media(ps[2], ps[6] == "S", ps[9]))
  }

  /** The media line a sender writes for a stream without a port count. */
  function MediaLine(kind: string, port: string, savp: bool, pt: string): string
  {
    "m=" + (kind + (" " + (port + (" " + ("RTP/" + ((if savp then "S" else "") + ("AVP" + (" " + pt))))))))
  }

  /** Reading a written media line gives back its port, protocol and payload
      type. */
  lemma MediaRoundTrip(kind: string, port: string, savp: bool, pt: string)
    requires kind == "video" || kind == "audio"
    requires |port| > 0 && AllDigits(port) && |pt| > 0 && AllDigits(pt)
    ensures MediaOf(kind, MediaLine(kind, port, savp, pt)) == Some(Media(port, savp, pt))
  {
    var line := MediaLine(kind, port, savp, pt);
    MediaMatch(kind, port, savp, pt);
    MediaNotBefore(kind, line);
    FindIs(line, MediaTokens(kind), 2);
  }

  lemma MediaNotBefore(kind: string, line: string)
    requires kind == "video" || kind == "audio"
    requires |line| >= 2 && line[..2] == "m="
    ensures forall k | 0 <= k < 2 :: Match(line, k, MediaTokens(kind)).None?
  {
    assert line[0] == 'm' && line[1] == '=' by { assert line[..2][0] == line[0]; assert line[..2][1] == line[1]; }
    var rest := [Plus(IsSpace)] + ([Plus(IsDigit)] + MediaProtocol());
    NotAtFirst(line, 0, kind);
    NotAtFirst(line, 1, kind);
    MatchHeadFails(line, 0, Lit(kind), rest);
    MatchHeadFails(line, 1, Lit(kind), rest);
  }

  lemma MediaMatch(kind: string, port: string, savp: bool, pt: string)
    requires |kind| > 0 && |port| > 0 && AllDigits(port) && |pt| > 0 && AllDigits(pt)
    ensures var line := MediaLine(kind, port, savp, pt);
      |line| >= 2 && line[..2] == "m="
      && var m := Match(line, 2, MediaTokens(kind));
      m.Some? && m.value[2] == port && m.value[6] == (if savp then "S" else "") && m.value[9] == pt
  {
    var sv := if savp then "S" else "";
    var x := sv + ("AVP" + (" " + pt));
    var y := " " + ("RTP/" + x);
    var s0 := kind + (" " + (port + y));
    var line := MediaLine(kind, port, savp, pt);
    MediaFormatMatch(savp, pt);
    MediaProtocolMatch(x);
    MediaKindMatch(kind, port, y);
    assert line == "m=" + s0;
    MatchShift(line, 2, MediaTokens(kind));
    assert line[2..] == s0;
  }

  lemma MediaFormatMatch(savp: bool, pt: string)
    requires |pt| > 0 && AllDigits(pt)
    ensures var sv := if savp then "S" else "";
      var m := Match(sv + ("AVP" + (" " + pt)), 0, MediaFormat());
      m.Some? && m.value[0] == sv && m.value[3] == pt
  {
    var sv := if savp then "S" else "";
    var s2 := "AVP" + (" " + pt);
    var t1 := [Lit("AVP")] + ([Plus(IsSpace)] + [Plus(IsDigit)]);
    MediaFormatTail(pt);
    OptionalTakes(savp, s2);
    MatchCons(Opt([Lit("S")]), sv, s2, t1);
  }

  /** `AVP\s+(\d+)` on `AVP`, a space and the payload type. */
  lemma MediaFormatTail(pt: string)
    requires |pt| > 0 && AllDigits(pt)
    ensures var m := Match("AVP" + (" " + pt), 0, [Lit("AVP")] + ([Plus(IsSpace)] + [Plus(IsDigit)]));
      m.Some? && |m.value| == 3 && m.value[2] == pt
  {
    var s3 := " " + pt;
    var t3: seq<Token> := [Plus(IsDigit)];
    var t2 := [Plus(IsSpace)] + t3;
    assert pt + "" == pt;
    PlusTakes(pt, "", IsDigit);
    MatchCons(Plus(IsDigit), pt, "", []);
    PlusTakes(" ", pt, IsSpace);
    MatchCons(Plus(IsSpace), " ", pt, t3);
    MatchCons(Lit("AVP"), "AVP", s3, t2);
  }

  /** `S?` before `AVP` takes the `S` exactly when it is there. */
  lemma OptionalTakes(savp: bool, rest: string)
    requires |rest| > 0 && rest[0] == 'A'
    ensures Takes((if savp then "S" else "") + rest, 0, Opt([Lit("S")]), if savp then "S" else "")
  {
    var sv := if savp then "S" else "";
    if savp {
      assert Step(sv + rest, 0, Lit("S")) == Some(1);
    } else {
      assert sv + rest == rest;
      assert Step(rest, 0, Lit("S")).None?;
    }
  }

  /** No port count `(\/\d+)?` before a space. */
  lemma NoCountTakes(s: string)
    requires |s| > 0 && s[0] == ' '
    ensures Takes("" + s, 0, Opt([Lit("/")] + [Plus(IsDigit)]), "")
  {
    assert "" + s == s;
    assert Step(s, 0, Lit("/")).None?;
  }

  lemma MediaProtocolMatch(x: string)
    requires Match(x, 0, MediaFormat()).Some?
    ensures var m := Match(" " + ("RTP/" + x), 0, MediaProtocol());
      m.Some? && m.value[3] == Match(x, 0, MediaFormat()).value[0]
        && m.value[6] == Match(x, 0, MediaFormat()).value[3]
  {
    var s2 := "RTP/" + x;
    var s1 := " " + s2;
    var t2 := [Lit("RTP/")] + MediaFormat();
    var t1 := [Plus(IsSpace)] + t2;
    MatchCons(Lit("RTP/"), "RTP/", x, MediaFormat());
    PlusTakes(" ", s2, IsSpace);
    MatchCons(Plus(IsSpace), " ", s2, t2);
    NoCountTakes(s1);
    MatchCons(Opt([Lit("/")] + [Plus(IsDigit)]), "", s1, t1);
    assert "" + s1 == s1;
  }

  lemma MediaKindMatch(kind: string, port: string, y: string)
    requires |kind| > 0 && |port| > 0 && AllDigits(port) && |y| > 0 && y[0] == ' '
    requires Match(y, 0, MediaProtocol()).Some?
    ensures var m := Match(kind + (" " + (port + y)), 0, MediaTokens(kind));
      m.Some? && m.value[2] == port
        && m.value[6] == Match(y, 0, MediaProtocol()).value[3]
        && m.value[9] == Match(y, 0, MediaProtocol()).value[6]
  {
    var s2 := port + y;
    var s1 := " " + s2;
    var t2 := [Plus(IsDigit)] + MediaProtocol();
    var t1 := [Plus(IsSpace)] + t2;
    PlusTakes(port, y, IsDigit);
    MatchCons(Plus(IsDigit), port, y, MediaProtocol());
    PlusTakes(" ", s2, IsSpace);
    MatchCons(Plus(IsSpace), " ", s2, t2);
    MatchCons(Lit(kind), kind, s1, t1);
  }

  // ---------------------------------------------------------------------
  // `rtpmapPattern`: a=rtpmap:(\d+)\s(\S+)\/(\d+)\s*

  /** What an rtpmap line's match yields: payload type (group 1), encoding
      name (group 2) and clock rate (group 3). */
  datatype Rtpmap = Rtpmap(pt: string, encoding: string, rate: string)

  /** A `/` followed by a digit at `j`. */
  predicate SlashDigit(s: string, j: nat)
  {
    j + 1 < |s| && s[j] == '/' && IsDigit(s[j + 1])
  }

  /** The last `j` with `lo < j < hi` where a `/` is followed by a digit:
      the point `(\S+)` gives back to when the run of non-spaces from `lo`
      ends at `hi`. */
  function LastSlashDigit(s: string, lo: nat, hi: nat): (r: Option<nat>)
    ensures r.Some? ==> lo < r.value < hi && SlashDigit(s, r.value)
    ensures r.Some? ==> forall k | r.value < k < hi :: !SlashDigit(s, k)
    ensures r.None? ==> forall k | lo < k < hi :: !SlashDigit(s, k)
    decreases hi
  {
    if hi <= lo + 1 then None
    else if SlashDigit(s, hi - 1) then Some(hi - 1)
    else LastSlashDigit(s, lo, hi - 1)
  }

  lemma {:induction false} LastSlashDigitIs(s: string, lo: nat, hi: nat, j: nat)
    requires lo < j < hi && SlashDigit(s, j)
    requires forall k | j < k < hi :: !SlashDigit(s, k)
    ensures LastSlashDigit(s, lo, hi) == Some(j)
    decreases hi
  {
    if hi - 1 != j {
      LastSlashDigitIs(s, lo, hi - 1, j);
    }
  }

  /** The rtpmap pattern tried at position `i` only: the literal, a run of
      digits, one space character, then a run of non-spaces that must hold
      a `/` followed by a digit. */
  function RtpmapAt(s: string, i: nat): (r: Option<Rtpmap>)
    requires i <= |s|
  {
    if !At(s, i, "a=rtpmap:") then None
    else
      var d := Span(s, i + 9, IsDigit);
      var e := i + 9 + d + 1;
      if d == 0 || e > |s| || !IsSpace(s[e - 1]) then None
      else
        match LastSlashDigit(s, e, e + Span(s, e, IsNotSpace))
        case None => None
        case Some(j) => Some(Rtpmap(s[i + 9..i + 9 + d], s[e..j], s[j + 1..j + 1 + Span(s, j + 1, IsDigit)]))
  }

  /** The leftmost match at or after `from`. */
  function RtpmapFrom(s: string, from: nat): (r: Option<Rtpmap>)
    decreases |s| + 1 - from
  {
    if from > |s| then None
    else if RtpmapAt(s, from).Some? then RtpmapAt(s, from)
    else RtpmapFrom(s, from + 1)
  }

  /** `line.match(rtpmapPattern)`. */
  function RtpmapOf(line: string): (r: Option<Rtpmap>)
  {
    RtpmapFrom(line, 0)
  }

  /** An rtpmap line as a sender writes it. */
  function RtpmapLine(pt: string, encoding: string, rate: string): string
  {
    "a=rtpmap:" + (pt + (" " + (encoding + ("/" + rate))))
  }

  /** Reading a written rtpmap line gives back its payload type, encoding
      name and clock rate, whatever `/` the encoding name holds. */
  lemma RtpmapRoundTrip(pt: string, encoding: string, rate: string)
    requires |pt| > 0 && AllDigits(pt) && IsWord(encoding) && |rate| > 0 && AllDigits(rate)
    ensures RtpmapOf(RtpmapLine(pt, encoding, rate)) == Some(Rtpmap(pt, encoding, rate))
  {
    var line := RtpmapLine(pt, encoding, rate);
    RtpmapLineShape(pt, encoding + ("/" + rate));
    RtpmapAtLine(line, pt, encoding, rate);
  }

  lemma RtpmapLineShape(pt: string, x: string)
    ensures var line := "a=rtpmap:" + (pt + (" " + x));
      && At(line, 0, "a=rtpmap:")
      && line[9..9 + |pt|] == pt
      && line[9 + |pt|] == ' '
      && line[9 + |pt| + 1..] == x
  {
    var line := "a=rtpmap:" + (pt + (" " + x));
    assert line[9..] == pt + (" " + x);
  }

  lemma RtpmapAtLine(line: string, pt: string, encoding: string, rate: string)
    requires |pt| > 0 && AllDigits(pt) && IsWord(encoding) && |rate| > 0 && AllDigits(rate)
    requires At(line, 0, "a=rtpmap:") && 9 + |pt| < |line|
    requires line[9..9 + |pt|] == pt && line[9 + |pt|] == ' '
    requires line[9 + |pt| + 1..] == encoding + ("/" + rate)
    ensures RtpmapOf(line) == Some(Rtpmap(pt, encoding, rate))
  {
    var e := 9 + |pt| + 1;
    PrefixRun(line, 9, |pt|, IsDigit);
    RtpmapTailFacts(line, e, encoding, rate);
    var r := RtpmapAt(line, 0);
    assert r.Some?;
    assert r.value.pt == pt && r.value.encoding == encoding && r.value.rate == rate;
  }

  /** Where the parts after the payload type of a written rtpmap line
      start and end. */
  lemma RtpmapTailFacts(line: string, e: nat, encoding: string, rate: string)
    requires e <= |line| && line[e..] == encoding + ("/" + rate)
    requires IsWord(encoding) && |rate| > 0 && AllDigits(rate)
    ensures e + Span(line, e, IsNotSpace) == |line|
    ensures LastSlashDigit(line, e, |line|) == Some(e + |encoding|)
    ensures line[e..e + |encoding|] == encoding
    ensures var j := e + |encoding|; line[j + 1..j + 1 + Span(line, j + 1, IsDigit)] == rate
  {
    var j := e + |encoding|;
    NotSpaceText(encoding, rate);
    RunToEnd(line, e, IsNotSpace);
    LastSlash(line, e, encoding, rate);
    assert line[j + 1..] == rate by { assert line[j + 1..] == line[e..][|encoding| + 1..]; }
    RunToEnd(line, j + 1, IsDigit);
    assert line[e..j] == encoding by { assert line[e..j] == line[e..][..|encoding|]; }
  }

  /** A run of class `p` of length `n` that is followed by a character
      outside the class. */
  lemma PrefixRun(s: string, i: nat, n: nat, p: char -> bool)
    requires i + n < |s| && All(s[i..i + n], p) && !p(s[i + n])
    ensures Span(s, i, p) == n
  {
    forall k | i <= k < i + n ensures p(s[k]) { assert s[k] == s[i..i + n][k - i]; }
    SpanExact(s, i, n, p);
  }

  /** An encoding name, a `/` and a rate hold no space. */
  lemma NotSpaceText(encoding: string, rate: string)
    requires IsWord(encoding) && AllDigits(rate)
    ensures All(encoding + ("/" + rate), IsNotSpace)
  {
    var x := encoding + ("/" + rate);
    forall k | 0 <= k < |x| ensures IsNotSpace(x[k]) {
      if k < |encoding| { assert x[k] == encoding[k]; }
      else if k > |encoding| { assert x[k] == rate[k - |encoding| - 1]; }
    }
  }

  /** A run of class `p` that lasts to the end of the text. */
  lemma RunToEnd(s: string, i: nat, p: char -> bool)
    requires i <= |s| && All(s[i..], p)
    ensures Span(s, i, p) == |s| - i
  {
    SpanAll(s, i, p);
  }

  /** In an encoding name followed by `/` and a rate, the last `/` before a
      digit is the one after the name. */
  lemma LastSlash(line: string, e: nat, encoding: string, rate: string)
    requires e <= |line| && line[e..] == encoding + ("/" + rate)
    requires |encoding| > 0 && |rate| > 0 && AllDigits(rate)
    ensures LastSlashDigit(line, e, |line|) == Some(e + |encoding|)
  {
    var x := encoding + ("/" + rate);
    var j := e + |encoding|;
    assert line[j] == '/' && line[j + 1] == rate[0] by {
      assert line[j] == x[|encoding|]; assert line[j + 1] == x[|encoding| + 1];
    }
    forall k | j < k < |line| ensures !SlashDigit(line, k) {
      assert line[k] == x[k - e];
      assert x[k - e] == rate[k - j - 1];
    }
    LastSlashDigitIs(line, e, |line|, j);
  }

  // ---------------------------------------------------------------------
  // `rtpmapSound`: a=rtpmap:(\d+)\s+(L16|L24|AM824)\/([1-9]\d*)\/([1-9]\d*)

  /** What an audio rtpmap line's match yields: payload type (group 1),
      encoding (group 2) and sampling rate (group 3). */
  datatype Sound = Sound(pt: string, encoding: string, rate: string)

  const SoundEncodings: seq<string> := ["L16", "L24", "AM824"]

  function SoundTokens(): seq<Token>
  {
    [Lit("a=rtpmap:")] + ([Plus(IsDigit)] + ([Plus(IsSpace)] + ([OneOf(SoundEncodings)] + SoundRates())))
  }

  /** `\/([1-9]\d*)\/([1-9]\d*)` */
  function SoundRates(): seq<Token>
  {
    [Lit("/")] + ([Number] + ([Lit("/")] + [Number]))
  }

  /** `line.match(rtpmapSound)`. */
  function SoundOf(line: string): (r: Option<Sound>)
    ensures r.Some? <==> Matches(line, SoundTokens())
  {
    match Find(line, SoundTokens())
    case None => None
    case Some(ps) => Some(Sound(ps[1], ps[3], ps[5]))
  }

  /** An audio rtpmap line as a sender writes it. */
  function SoundLine(pt: string, encoding: string, rate: string, channels: string): string
  {
    "a=rtpmap:" + (pt + (" " + (encoding + ("/" + (rate + ("/" + channels))))))
  }

  /** Reading a written audio rtpmap line gives back its payload type,
      encoding and sampling rate. */
  lemma SoundRoundTrip(pt: string, encoding: string, rate: string, channels: string)
    requires |pt| > 0 && AllDigits(pt) && encoding in SoundEncodings
    requires IsNumber(rate) && IsNumber(channels)
    ensures SoundOf(SoundLine(pt, encoding, rate, channels)) == Some(Sound(pt, encoding, rate))
  {
    var x := "/" + (rate + ("/" + channels));
    SoundRatesMatch(rate, channels);
    SoundHeadMatch(pt, encoding, x);
    FindAtStart(SoundLine(pt, encoding, rate, channels), SoundTokens());
  }

  lemma SoundRatesMatch(rate: string, channels: string)
    requires IsNumber(rate) && IsNumber(channels)
    ensures var m := Match("/" + (rate + ("/" + channels)), 0, SoundRates());
      m.Some? && m.value[1] == rate
  {
    var s2 := "/" + channels;
    var s1 := rate + s2;
    var t3: seq<Token> := [Number];
    var t2 := [Lit("/")] + t3;
    var t1 := [Number] + t2;
    assert channels + "" == channels;
    MatchCons(Number, channels, "", []);
    MatchCons(Lit("/"), "/", channels, t3);
    assert Stops(rate + s2, |rate|, IsDigit) by { assert (rate + s2)[|rate|] == '/'; }
    MatchCons(Number, rate, s2, t2);
    MatchCons(Lit("/"), "/", s1, t1);
  }

  lemma SoundHeadMatch(pt: string, encoding: string, x: string)
    requires |pt| > 0 && AllDigits(pt) && encoding in SoundEncodings
    requires |x| > 0 && x[0] == '/'
    requires Match(x, 0, SoundRates()).Some?
    ensures var m := Match("a=rtpmap:" + (pt + (" " + (encoding + x))), 0, SoundTokens());
      m.Some? && m.value[1] == pt && m.value[3] == encoding
        && m.value[5] == Match(x, 0, SoundRates()).value[1]
  {
    var s3 := encoding + x;
    var s2 := " " + s3;
    var t3 := [OneOf(SoundEncodings)] + SoundRates();
    var t2 := [Plus(IsSpace)] + t3;
    var t1 := [Plus(IsDigit)] + t2;
    EncodingTakes(encoding, x);
    MatchCons(OneOf(SoundEncodings), encoding, x, SoundRates());
    PlusTakes(" ", s3, IsSpace);
    MatchCons(Plus(IsSpace), " ", s3, t3);
    PlusTakes(pt, s2, IsDigit);
    MatchCons(Plus(IsDigit), pt, s2, t2);
    MatchCons(Lit("a=rtpmap:"), "a=rtpmap:", pt + s2, t1);
  }

  /** Each audio encoding name is told apart from the others by the `/`
      after it. */
  lemma EncodingTakes(encoding: string, x: string)
    requires encoding in SoundEncodings && |x| > 0 && x[0] == '/'
    ensures Takes(encoding + x, 0, OneOf(SoundEncodings), encoding)
  {
    var s := encoding + x;
    assert At(s, 0, encoding);
    forall k | 0 <= k < |SoundEncodings| && At(s, 0, SoundEncodings[k])
      ensures SoundEncodings[k] == encoding
    {
      var w := SoundEncodings[k];
      assert s[..|w|] == w;
      if |w| < |encoding| {
        assert w[|w| - 1] == encoding[|w| - 1];
      } else if |w| > |encoding| {
        assert w[|encoding|] == '/';
      } else {
        assert encoding == s[..|encoding|];
      }
    }
  }

  // ---------------------------------------------------------------------
  // Duplication: `ssrcPattern`, `ssrcGroupPattern`, `groupPattern`

  /** `a=ssrc:(\d+)\s` */
  function SsrcTokens(): seq<Token>
  {
    [Lit("a=ssrc:")] + ([Plus(IsDigit)] + [One(IsSpace)])
  }

  /** `line.match(ssrcPattern)`: the source identifier. */
  function SsrcOf(line: string): (r: Option<string>)
    ensures r.Some? <==> Matches(line, SsrcTokens())
  {
    match Find(line, SsrcTokens())
    case None => None
    case Some(ps) => Some(ps[1])
  }

  /** `<w>\s+(p+)\s+(p+)`: a keyword and two identifiers. */
  function PairTokens(w: string, p: char -> bool): seq<Token>
  {
    [Lit(w)] + ([Plus(IsSpace)] + ([Plus(p)] + ([Plus(IsSpace)] + [Plus(p)])))
  }

  /** `line.match(ssrcGroupPattern)`: the two source identifiers. */
  function SsrcGroupOf(line: string): (r: Option<(string, string)>)
    ensures r.Some? <==> Matches(line, PairTokens("a=ssrc-group:DUP", IsDigit))
  {
    match Find(line, PairTokens("a=ssrc-group:DUP", IsDigit))
    case None => None
    case Some(ps) => Some((ps[2], ps[4]))
  }

  /** `line.match(groupPattern)`: the two media identifiers. */
  function GroupOf(line: string): (r: Option<(string, string)>)
    ensures r.Some? <==> Matches(line, PairTokens("a=group:DUP", IsNotSpace))
  {
    match Find(line, PairTokens("a=group:DUP", IsNotSpace))
    case None => None
    case Some(ps) => Some((ps[2], ps[4]))
  }

  /** Reading a keyword followed by two identifiers, each after one space,
      gives back the identifiers. */
  lemma PairRoundTrip(w: string, p: char -> bool, a: string, b: string)
    requires forall c :: p(c) ==> IsNotSpace(c)
    requires |w| > 0 && IsNotSpace(w[|w| - 1])
    requires |a| > 0 && All(a, p) && |b| > 0 && All(b, p)
    ensures var m := Find(w + (" " + (a + (" " + b))), PairTokens(w, p));
      m.Some? && m.value[2] == a && m.value[4] == b
  {
    var s3 := " " + b;
    var s2 := a + s3;
    var s1 := " " + s2;
    var t4: seq<Token> := [Plus(p)];
    var t3 := [Plus(IsSpace)] + t4;
    var t2 := [Plus(p)] + t3;
    var t1 := [Plus(IsSpace)] + t2;
    assert b + "" == b;
    PlusTakes(b, "", p);
    MatchCons(Plus(p), b, "", []);
    assert IsNotSpace(b[0]);
    PlusTakes(" ", b, IsSpace);
    MatchCons(Plus(IsSpace), " ", b, t4);
    assert !p(' ');
    PlusTakes(a, s3, p);
    MatchCons(Plus(p), a, s3, t3);
    PlusTakes(" ", s2, IsSpace);
    MatchCons(Plus(IsSpace), " ", s2, t2);
    MatchCons(Lit(w), w, s1, t1);
    FindAtStart(w + s1, PairTokens(w, p));
  }

  /** An `a=ssrc-group:DUP` line naming two sources is read back. */
  lemma SsrcGroupRoundTrip(a: string, b: string)
    requires |a| > 0 && AllDigits(a) && |b| > 0 && AllDigits(b)
    ensures SsrcGroupOf("a=ssrc-group:DUP" + (" " + (a + (" " + b)))) == Some((a, b))
  {
    PairRoundTrip("a=ssrc-group:DUP", IsDigit, a, b);
  }

  /** An `a=group:DUP` line naming two media identifiers is read back. */
  lemma GroupRoundTrip(a: string, b: string)
    requires IsWord(a) && IsWord(b)
    ensures GroupOf("a=group:DUP" + (" " + (a + (" " + b)))) == Some((a, b))
  {
    PairRoundTrip("a=group:DUP", IsNotSpace, a, b);
  }

  /** `dupPattern.test(sdp)`: a media line followed later by
      `a=ssrc-group:DUP`, or `a=group:DUP` followed later by `m=`, each
      `[\r\n]`-prefixed marker separated from the later text by at least
      one character. */
  predicate HasDuplication(sdp: string)
  {
    || (exists i, j | 0 <= i && i + 4 <= j <= |sdp| :: NewlineAt(sdp, i, "m=") && At(sdp, j, "a=ssrc-group:DUP"))
    || (exists i, j | 0 <= i && i + 13 <= j <= |sdp| :: NewlineAt(sdp, i, "a=group:DUP") && At(sdp, j, "m="))
  }

  // ---------------------------------------------------------------------
  // Anchored values: `integerPattern`, `frameRatePattern`, `parPattern`

  /** `integerPattern.test(s)`: `^[1-9]\d*$`. */
  predicate IsInteger(s: string)
  {
    Match(s, 0, [Number] + [End]).Some?
  }

  /** The integer pattern accepts exactly the decimal numbers without a
      leading zero. */
  lemma IntegerIff(s: string)
    ensures IsInteger(s) <==> IsNumber(s)
  {
    if IsNumber(s) {
      assert s + "" == s;
      MatchCons(Number, s, "", [End]);
    }
    if IsInteger(s) {
      NumberEnd(s);
    }
  }

  /** What an anchored `Number` needs of the text. */
  lemma NumberEnd(s: string)
    requires Match(s, 0, [Number] + [End]).Some?
    ensures IsNumber(s)
  {
    var ts := [Number] + [End];
    assert ts[0] == Number && ts[1..] == [End];
    assert Step(s, 0, Number).Some?;
    var n := Span(s, 0, IsDigit);
    assert Match(s, n, [End]).Some?;
    assert n == |s|;
    SpanAll(s, 0, IsDigit);
    assert s[0..] == s;
  }

  /** `^([1-9]\d*)(?:\/([1-9]\d*))?$` */
  function FrameRateTokens(): seq<Token>
  {
    [Number] + ([Opt([Lit("/")] + [Number])] + [End])
  }

  /** `s.match(frameRatePattern)`: the numerator, and the denominator when
      there is one. */
  function FrameRateOf(s: string): (r: Option<(string, Option<string>)>)
    ensures r.Some? <==> Match(s, 0, FrameRateTokens()).Some?
  {
    match Match(s, 0, FrameRateTokens())
    case None => None
    case Some(ps) => Some((ps[0], if |ps[1]| == 0 then None else Some(ps[1][1..])))
  }

  /** A whole-number frame rate is read back with no denominator. */
  lemma FrameRateWhole(n: string)
    requires IsNumber(n)
    ensures FrameRateOf(n) == Some((n, None))
  {
    var t2: seq<Token> := [End];
    var t1 := [Opt([Lit("/")] + [Number])] + t2;
    assert "" + "" == "";
    assert Step("", 0, Lit("/")).None?;
    MatchCons(Opt([Lit("/")] + [Number]), "", "", t2);
    assert n + "" == n;
    MatchCons(Number, n, "", t1);
  }

  /** A rational frame rate is read back as its numerator and denominator. */
  lemma FrameRateRational(n: string, d: string)
    requires IsNumber(n) && IsNumber(d)
    ensures FrameRateOf(n + ("/" + d)) == Some((n, Some(d)))
  {
    var t2: seq<Token> := [End];
    var t1 := [Opt([Lit("/")] + [Number])] + t2;
    var x := "/" + d;
    SlashNumber(d);
    assert x + "" == x;
    MatchCons(Opt([Lit("/")] + [Number]), x, "", t2);
    assert Stops(n + x, |n|, IsDigit) by { assert (n + x)[|n|] == '/'; }
    MatchCons(Number, n, x, t1);
    assert x[1..] == d;
  }

  /** `\\/([1-9]\\d*)` takes a slash and a number that end the text. */
  lemma SlashNumber(d: string)
    requires IsNumber(d)
    ensures Takes(("/" + d) + "", 0, Opt([Lit("/")] + [Number]), "/" + d)
  {
    assert d + "" == d;
    MatchCons(Number, d, "", []);
    MatchCons(Lit("/"), "/", d, [Number]);
    assert ("/" + d) + "" == "/" + d;
    var ps := ["/"] + ([d] + []);
    assert Concat(ps) == "/" + d by { assert ps[1..] == [d]; assert ps[1..][1..] == []; }
  }

  /** `^([1-9]\d*):([1-9]\d*)$` */
  function ParTokens(): seq<Token>
  {
    [Number] + ([Lit(":")] + ([Number] + [End]))
  }

  /** `s.match(parPattern)`: the width and height of the pixel aspect
      ratio. */
  function ParOf(s: string): (r: Option<(string, string)>)
    ensures r.Some? <==> Match(s, 0, ParTokens()).Some?
  {
    match Match(s, 0, ParTokens())
    case None => None
    case Some(ps) => Some((ps[0], ps[2]))
  }

  /** A written aspect ratio is read back. */
  lemma ParRoundTrip(w: string, h: string)
    requires IsNumber(w) && IsNumber(h)
    ensures ParOf(w + (":" + h)) == Some((w, h))
  {
    var t3: seq<Token> := [End];
    var t2 := [Number] + t3;
    var t1 := [Lit(":")] + t2;
    assert h + "" == h;
    MatchCons(Number, h, "", t3);
    MatchCons(Lit(":"), ":", h, t2);
    assert Stops(w + (":" + h), |w|, IsDigit) by { assert (w + (":" + h))[|w|] == ':'; }
    MatchCons(Number, w, ":" + h, t1);
  }

  // ---------------------------------------------------------------------
  // Audio attributes: `ptimePattern`, `maxptimePattern`

  /** `^a=<name>:(\d+(?:\.\d+)?)$` */
  function PacketTimeTokens(name: string): seq<Token>
  {
    [Lit("a=" + name + ":")] + ([Plus(IsDigit)] + ([Opt([Lit(".")] + [Plus(IsDigit)])] + [End]))
  }

  /** `ptimePattern.test(line)` (name "ptime") or `maxptimePattern`
      (name "maxptime"). */
  predicate IsPacketTime(name: string, line: string)
  {
    Match(line, 0, PacketTimeTokens(name)).Some?
  }

  /** A packet time written as whole and fractional milliseconds is
      accepted. */
  lemma PacketTimeAccepts(name: string, ms: string, frac: string)
    requires |ms| > 0 && AllDigits(ms) && |frac| > 0 && AllDigits(frac)
    ensures IsPacketTime(name, "a=" + name + ":" + (ms + ("." + frac)))
  {
    var x := "." + frac;
    var t3: seq<Token> := [End];
    var t2 := [Opt([Lit(".")] + [Plus(IsDigit)])] + t3;
    var t1 := [Plus(IsDigit)] + t2;
    assert frac + "" == frac;
    PlusTakes(frac, "", IsDigit);
    MatchCons(Plus(IsDigit), frac, "", []);
    MatchCons(Lit("."), ".", frac, [Plus(IsDigit)]);
    assert Concat([".", frac]) == x by { assert [".", frac][1..] == [frac]; assert [frac][1..] == []; }
    assert x + "" == x;
    MatchCons(Opt([Lit(".")] + [Plus(IsDigit)]), x, "", t3);
    PlusTakes(ms, x, IsDigit);
    MatchCons(Plus(IsDigit), ms, x, t2);
    MatchCons(Lit("a=" + name + ":"), "a=" + name + ":", ms + x, t1);
  }

  /** A line with text after the packet time is refused. */
  lemma PacketTimeRefusesTrailer(name: string, ms: string)
    requires |ms| > 0 && AllDigits(ms)
    ensures !IsPacketTime(name, "a=" + name + ":" + (ms + " "))
  {
    var t3: seq<Token> := [End];
    var t2 := [Opt([Lit(".")] + [Plus(IsDigit)])] + t3;
    var t1 := [Plus(IsDigit)] + t2;
    assert !At(" ", 0, ".") by { assert " "[0..1][0] == ' '; }
    assert "" + " " == " ";
    assert Step(" ", 0, End).None?;
    MatchConsNone(Opt([Lit(".")] + [Plus(IsDigit)]), "", " ", t3);
    PlusTakes(ms, " ", IsDigit);
    MatchConsNone(Plus(IsDigit), ms, " ", t2);
    MatchConsNone(Lit("a=" + name + ":"), "a=" + name + ":", ms + " ", t1);
  }

  // ---------------------------------------------------------------------
  // ST 2110-22 bandwidth and frame rate: `bandwidthPattern`,
  // `frameRateAttributePattern`

  /** `b=([a-zA-Z]+):(\d*\s*$)` */
  function BandwidthTokens(): seq<Token>
  {
    [Lit("b=")] + ([Plus(IsLetter)] + ([Lit(":")] + ([Star(IsDigit)] + ([Star(IsSpace)] + [End]))))
  }

  /** `line.match(bandwidthPattern)`: the bandwidth type. */
  function BandwidthOf(line: string): (r: Option<string>)
    ensures r.Some? <==> Matches(line, BandwidthTokens())
  {
    match Find(line, BandwidthTokens())
    case None => None
    case Some(ps) => Some(ps[1])
  }

  /** A written bandwidth line gives back its type. */
  lemma BandwidthRoundTrip(kind: string, value: string)
    requires |kind| > 0 && All(kind, IsLetter) && AllDigits(value)
    ensures BandwidthOf("b=" + (kind + (":" + value))) == Some(kind)
  {
    var s1 := kind + (":" + value);
    var t1 := [Plus(IsLetter)] + ([Lit(":")] + ([Star(IsDigit)] + ([Star(IsSpace)] + [End])));
    BandwidthTail(kind, value);
    MatchCons(Lit("b="), "b=", s1, t1);
    FindAtStart("b=" + s1, BandwidthTokens());
  }

  /** The part after `b=` matches, its first group being the type. */
  lemma BandwidthTail(kind: string, value: string)
    requires |kind| > 0 && All(kind, IsLetter) && AllDigits(value)
    ensures var m := Match(kind + (":" + value), 0, [Plus(IsLetter)] + ([Lit(":")] + ([Star(IsDigit)] + ([Star(IsSpace)] + [End]))));
      m.Some? && |m.value| > 0 && m.value[0] == kind
  {
    var t3 := [Star(IsDigit)] + ([Star(IsSpace)] + [End]);
    var t2 := [Lit(":")] + t3;
    BandwidthValue(value);
    MatchCons(Lit(":"), ":", value, t3);
    assert !IsLetter(':');
    PlusTakes(kind, ":" + value, IsLetter);
    MatchCons(Plus(IsLetter), kind, ":" + value, t2);
  }

  lemma BandwidthValue(value: string)
    requires AllDigits(value)
    ensures Match(value, 0, [Star(IsDigit)] + ([Star(IsSpace)] + [End])).Some?
  {
    var t5: seq<Token> := [End];
    var t4 := [Star(IsSpace)] + t5;
    assert "" + "" == "";
    MatchCons(Star(IsSpace), "", "", t5);
    assert value + "" == value;
    MatchCons(Star(IsDigit), value, "", t4);
  }

  /** Every character from `a` up to `b` is a digit. */
  predicate DigitsBetween(s: string, a: nat, b: nat)
  {
    a <= b <= |s| && forall k | a <= k < b :: IsDigit(s[k])
  }

  /** `frameRateAttributePattern.test(line)`: `a=framerate:\d*.\d*$`, where
      `.` is any one character other than a line terminator. */
  predicate IsFrameRateAttribute(line: string)
  {
    exists k, m | 0 <= k && k + 12 <= m < |line| ::
      At(line, k, "a=framerate:") && DigitsBetween(line, k + 12, m)
      && !IsLineTerminator(line[m]) && DigitsBetween(line, m + 1, |line|)
  }

  /** A frame rate written as digits around a decimal point is accepted. */
  lemma FrameRateAttributeAccepts(whole: string, frac: string)
    requires AllDigits(whole) && AllDigits(frac)
    ensures IsFrameRateAttribute("a=framerate:" + (whole + ("." + frac)))
  {
    var line := "a=framerate:" + (whole + ("." + frac));
    var m := 12 + |whole|;
    assert At(line, 0, "a=framerate:");
    assert line[m] == '.';
    forall k | 12 <= k < m ensures IsDigit(line[k]) { assert line[k] == whole[k - 12]; }
    forall k | m + 1 <= k < |line| ensures IsDigit(line[k]) { assert line[k] == frac[k - m - 1]; }
  }

  /** Nothing after the attribute name is refused. */
  lemma FrameRateAttributeRefusesEmpty()
    ensures !IsFrameRateAttribute("a=framerate:")
  {
  }

  // ---------------------------------------------------------------------
  // Reference clocks: `macPattern`, `ptpPattern`

  /** `macPattern.test(s)`: six pairs of hexadecimal digits joined by `-`
      somewhere in `s`. */
  predicate HasMac(s: string)
  {
    Matches(s, [HexPairs(IsHex, 5)])
  }

  /** A MAC address anywhere in the text is found. */
  lemma MacFound(before: string, mac: string, after: string)
    requires IsHexPairs(mac, IsHex, 5)
    ensures HasMac(before + mac + after)
  {
    var s := before + mac + after;
    var i := |before|;
    assert s[i..i + 17] == mac;
    assert Step(s, i, HexPairs(IsHex, 5)) == Some(17);
    assert ([HexPairs(IsHex, 5)] + [])[1..] == [];
    assert Match(s, i, [HexPairs(IsHex, 5)]).Some? by {
      assert [HexPairs(IsHex, 5)] == [HexPairs(IsHex, 5)] + [];
    }
  }

  /** What the PTP server part of a reference clock names: the
      `traceable` keyword, or a grandmaster clock identity with an optional
      domain number. */
  datatype PtpServer = Traceable | Clock(eui: string, domain: Option<string>)

  /** `(([0-9A-F]{2}-){7}[0-9A-F]{2})(:(\d+))?$` */
  function ClockTokens(): seq<Token>
  {
    [HexPairs(IsUpperHex, 7)] + ([Opt([Lit(":")] + [Plus(IsDigit)])] + [End])
  }

  /** `ptpPattern` tried at position `k`: the keyword first, then the
      anchored clock identity. */
  function PtpAt(s: string, k: nat): (r: Option<PtpServer>)
    requires k <= |s|
  {
    if At(s, k, "traceable") then Some(Traceable)
    else
      match Match(s, k, ClockTokens())
      case None => None
      case Some(ps) => Some(Clock(ps[0], if |ps[1]| == 0 then None else Some(ps[1][1..])))
  }

  /** The leftmost match at or after `from`. */
  function PtpFrom(s: string, from: nat): (r: Option<PtpServer>)
    decreases |s| + 1 - from
  {
    if from > |s| then None
    else if PtpAt(s, from).Some? then PtpAt(s, from)
    else PtpFrom(s, from + 1)
  }

  /** `s.match(ptpPattern)`: group 5 is the domain, group 2 the clock
      identity. */
  function PtpOf(s: string): (r: Option<PtpServer>)
  {
    PtpFrom(s, 0)
  }

  lemma PtpTraceable()
    ensures PtpOf("traceable") == Some(Traceable)
  {
    assert PtpAt("traceable", 0) == Some(Traceable);
  }

  /** A clock identity followed by `:` and a domain number is read back. */
  lemma PtpClockDomain(eui: string, domain: string)
    requires IsHexPairs(eui, IsUpperHex, 7) && |domain| > 0 && AllDigits(domain)
    ensures PtpOf(eui + (":" + domain)) == Some(Clock(eui, Some(domain)))
  {
    var x := ":" + domain;
    var t2: seq<Token> := [End];
    var t1 := [Opt([Lit(":")] + [Plus(IsDigit)])] + t2;
    ColonDomain(domain);
    assert x + "" == x;
    MatchCons(Opt([Lit(":")] + [Plus(IsDigit)]), x, "", t2);
    assert (eui + x)[..|eui|] == eui;
    MatchCons(HexPairs(IsUpperHex, 7), eui, x, t1);
    NotTraceable(eui + x);
    assert x[1..] == domain;
    assert PtpAt(eui + x, 0) == Some(Clock(eui, Some(domain)));
  }

  /** A clock identity alone is read back without a domain. */
  lemma PtpClockOnly(eui: string)
    requires IsHexPairs(eui, IsUpperHex, 7)
    ensures PtpOf(eui) == Some(Clock(eui, None))
  {
    var t2: seq<Token> := [End];
    var t1 := [Opt([Lit(":")] + [Plus(IsDigit)])] + t2;
    assert "" + "" == "";
    assert Step("", 0, Lit(":")).None?;
    MatchCons(Opt([Lit(":")] + [Plus(IsDigit)]), "", "", t2);
    assert eui + "" == eui;
    MatchCons(HexPairs(IsUpperHex, 7), eui, "", t1);
    NotTraceable(eui);
    assert PtpAt(eui, 0) == Some(Clock(eui, None));
  }

  lemma NotTraceable(s: string)
    requires |s| > 0 && IsUpperHex(s[0])
    ensures !At(s, 0, "traceable")
  {
    NotAtFirst(s, 0, "traceable");
  }

  lemma ColonDomain(domain: string)
    requires |domain| > 0 && AllDigits(domain)
    ensures Takes((":" + domain) + "", 0, Opt([Lit(":")] + [Plus(IsDigit)]), ":" + domain)
  {
    assert domain + "" == domain;
    PlusTakes(domain, "", IsDigit);
    MatchCons(Plus(IsDigit), domain, "", []);
    MatchCons(Lit(":"), ":", domain, [Plus(IsDigit)]);
    assert (":" + domain) + "" == ":" + domain;
    var ps := [":"] + ([domain] + []);
    assert Concat(ps) == ":" + domain by { assert ps[1..] == [domain]; assert ps[1..][1..] == []; }
  }

  // ---------------------------------------------------------------------
  // Media clock: `mediaclkPattern`, `mediaclkTypePattern`,
  // `mediaclkDirectPattern`, `tsrefclkPattern`

  /** `[\r\n]<w>` occurs in `s`. */
  predicate HasAttribute(s: string, w: string)
  {
    exists k | 0 <= k < |s| :: NewlineAt(s, k, w)
  }

  /** A character `[^\s=]` of a media clock type. */
  predicate IsClockTypeChar(c: char) { !IsSpace(c) && c != '=' }

  /** `[\r\n]a=mediaclk[^\s=]+` */
  function MediaclkTypeTokens(): seq<Token>
  {
    [One(IsNewline)] + ([Lit("a=mediaclk")] + [Plus(IsClockTypeChar)])
  }

  /** `sdp.match(mediaclkTypePattern)` with each match's line ending
      dropped: every `a=mediaclk` attribute name with its type. */
  function MediaclkTypes(sdp: string): (r: seq<string>)
    ensures |r| == |AllMatches(sdp, MediaclkTypeTokens(), 0)|
    ensures forall i | 0 <= i < |r| :: StartsWith(r[i], "a=mediaclk")
  {
    var ms := AllMatches(sdp, MediaclkTypeTokens(), 0);
    seq(|ms|, i requires 0 <= i < |ms| => "a=mediaclk" + ms[i][2])
  }

  /** `[\r\n]a=mediaclk:direct=\d+\s+` */
  function DirectTokens(): seq<Token>
  {
    [One(IsNewline)] + ([Lit("a=mediaclk:direct=")] + ([Plus(IsDigit)] + [Plus(IsSpace)]))
  }

  /** `s.match(mediaclkDirectPattern)` with each match read as the offset
      after the last `=`. */
  function DirectOffsets(s: string): (r: seq<nat>)
    ensures |r| == |AllMatches(s, DirectTokens(), 0)|
  {
    var ms := AllMatches(s, DirectTokens(), 0);
    seq(|ms|, i requires 0 <= i < |ms| => Value(ms[i][2]))
  }

  // ---------------------------------------------------------------------
  // Audio channel order: `channelOrderPattern`, `smpteChannelPattern`

  predicate IsNotLineTerminator(c: char) { !IsLineTerminator(c) }

  /** The last `c` with `lo <= c < hi` where `channel-order=` is followed by
      a value character: what the greedy `.*` before it settles on. */
  function LastOrder(s: string, lo: nat, hi: nat): (r: Option<nat>)
    ensures r.Some? ==> lo <= r.value < hi && OrderAt(s, r.value)
    ensures r.Some? ==> forall c | r.value < c < hi :: !OrderAt(s, c)
    ensures r.None? ==> forall c | lo <= c < hi :: !OrderAt(s, c)
    decreases hi
  {
    if hi <= lo then None
    else if OrderAt(s, hi - 1) then Some(hi - 1)
    else LastOrder(s, lo, hi - 1)
  }

  /** `channel-order=` at `c`, followed by a value character. */
  predicate OrderAt(s: string, c: nat)
  {
    At(s, c, "channel-order=") && c + 14 < |s| && IsValueChar(s[c + 14])
  }

  /** `line.match(channelOrderPattern)`, for
      `^a=fmtp:(\d+)\s+.*channel-order=([^\s;]+).*$`: the payload type and
      the channel order. After the run of spaces the rest of the line must
      be free of line terminators (the two `.*` and the parameter cover
      it), and the order is read at the last `channel-order=` followed by
      a value character. */
  function ChannelOrderOf(line: string): (r: Option<(string, string)>)
  {
    if !At(line, 0, "a=fmtp:") then None
    else
      var d := Span(line, 7, IsDigit);
      var b := 7 + d + Span(line, 7 + d, IsSpace);
      if d == 0 || b == 7 + d || !All(line[b..], IsNotLineTerminator) then None
      else
        match LastOrder(line, b, |line|)
        case None => None
        case Some(c) => Some((line[7..7 + d], line[c + 14..c + 14 + Span(line, c + 14, IsValueChar)]))
  }

  /** The channel symbols `M|DM|ST|LtRt|51|71|222|SGRP|U\d\d`. */
  predicate IsChannel(w: string)
  {
    || w in ["M", "DM", "ST", "LtRt", "51", "71", "222", "SGRP"]
    || (|w| == 3 && w[0] == 'U' && IsDigit(w[1]) && IsDigit(w[2]))
  }

  /** No channel symbol starts another, so the alternation picks the
      shortest symbol at a position, which is the only one. */
  lemma ChannelPrefixFree(w: string, n: nat)
    requires IsChannel(w) && 0 < n < |w|
    ensures !IsChannel(w[..n])
  {
    var p := w[..n];
    assert p[0] == w[0];
    if n >= 2 { assert p[1] == w[1]; }
    if n >= 3 { assert p[2] == w[2]; }
  }

  /** A channel symbol of length `n` at `i`. */
  predicate ChannelOfLength(s: string, i: nat, n: nat)
  {
    i + n <= |s| && IsChannel(s[i..i + n])
  }

  /** The length of the channel symbol at `i`: the alternation tried in
      order, which by `ChannelPrefixFree` finds the only one. */
  function ChannelAt(s: string, i: nat): (r: Option<nat>)
    ensures r.Some? ==> 0 < r.value <= 4 && ChannelOfLength(s, i, r.value)
    ensures r.Some? ==> forall n | 0 < n < r.value :: !ChannelOfLength(s, i, n)
    ensures r.None? ==> forall n | 0 < n <= 4 :: !ChannelOfLength(s, i, n)
  {
    if ChannelOfLength(s, i, 1) then Some(1)
    else if ChannelOfLength(s, i, 2) then Some(2)
    else if ChannelOfLength(s, i, 3) then Some(3)
    else if ChannelOfLength(s, i, 4) then Some(4)
    else None
  }

  /** `(M|...)(,(M|...))*\)` from `i`: channel symbols separated by commas
      up to a closing parenthesis. The greedy repetition never has to give
      an item back, because what follows an item is either `,` or `)`. */
  predicate ChannelsFrom(s: string, i: nat)
    decreases |s| - i
  {
    match ChannelAt(s, i)
    case None => false
    case Some(n) => At(s, i + n, ")") || (At(s, i + n, ",") && ChannelsFrom(s, i + n + 1))
  }

  /** `smpteChannelPattern.test(order)`. */
  predicate IsSmpteOrder(order: string)
  {
    exists k | 0 <= k <= |order| :: At(order, k, "SMPTE2110.(") && ChannelsFrom(order, k + 11)
  }

  /** Channel symbols joined by commas. */
  function CommaList(chs: seq<string>): string
  {
    if |chs| == 0 then "" else if |chs| == 1 then chs[0] else chs[0] + ("," + CommaList(chs[1..]))
  }

  /** A channel symbol written at `i` is the one `ChannelAt` finds. */
  lemma ChannelAtWord(s: string, i: nat, w: string)
    requires IsChannel(w) && At(s, i, w)
    ensures ChannelAt(s, i) == Some(|w|)
  {
    forall n | 0 < n < |w| ensures !ChannelOfLength(s, i, n) {
      assert s[i..i + n] == w[..n];
      ChannelPrefixFree(w, n);
    }
    assert ChannelOfLength(s, i, |w|);
  }

  /** A parenthesised list of channel symbols is recognised wherever it
      starts. */
  lemma {:induction false} ChannelsListed(s: string, i: nat, chs: seq<string>)
    requires |chs| > 0 && forall k | 0 <= k < |chs| :: IsChannel(chs[k])
    requires At(s, i, CommaList(chs) + ")")
    ensures ChannelsFrom(s, i)
    decreases |chs|, 1
  {
    if |chs| == 1 {
      AtConcat(s, i, chs[0], ")");
      ChannelAtWord(s, i, chs[0]);
    } else {
      ChannelsSplit(s, i, chs);
      ChannelsListedNext(s, i, |chs[0]|, chs[1..]);
    }
  }

  /** The first of several listed channels, read off. */
  lemma ChannelsSplit(s: string, i: nat, chs: seq<string>)
    requires |chs| > 1 && forall k | 0 <= k < |chs| :: IsChannel(chs[k])
    requires At(s, i, CommaList(chs) + ")")
    ensures ChannelAt(s, i) == Some(|chs[0]|) && At(s, i + |chs[0]|, ",")
    ensures At(s, i + |chs[0]| + 1, CommaList(chs[1..]) + ")")
    ensures forall k | 0 <= k < |chs[1..]| :: IsChannel(chs[1..][k])
  {
    var w := chs[0];
    var rest := CommaList(chs[1..]) + ")";
    assert CommaList(chs) + ")" == w + ("," + rest);
    AtConcat(s, i, w, "," + rest);
    AtConcat(s, i + |w|, ",", rest);
    ChannelAtWord(s, i, w);
  }

  lemma {:induction false} ChannelsListedNext(s: string, i: nat, n: nat, rest: seq<string>)
    requires |rest| > 0 && forall k | 0 <= k < |rest| :: IsChannel(rest[k])
    requires ChannelAt(s, i) == Some(n) && At(s, i + n, ",") && At(s, i + n + 1, CommaList(rest) + ")")
    ensures ChannelsFrom(s, i)
    decreases |rest| + 1, 0
  {
    ChannelsListed(s, i + n + 1, rest);
  }

  /** The SMPTE 2110 channel-order convention written out is accepted. */
  lemma SmpteOrderAccepts(chs: seq<string>)
    requires |chs| > 0 && forall k | 0 <= k < |chs| :: IsChannel(chs[k])
    ensures IsSmpteOrder("SMPTE2110.(" + (CommaList(chs) + ")"))
  {
    AtHalves("SMPTE2110.(", CommaList(chs) + ")");
    ChannelsListed("SMPTE2110.(" + (CommaList(chs) + ")"), 11, chs);
  }
}
