// The copy detector of checkST2110.js:1603-1630 (`no_copy`, `no_copy_20`,
// `no_copy_22`) and the two example descriptions it compares against
// (checkST2110.js:51-101).

module CopyCheck {
  import opened Text
  import opened SdpLines
  import opened Findings

  // ---------------------------------------------------------------------
  // The examples

  /** One line of an example description: its words, separated by single
      spaces, and whether one space ends the line. */
  datatype ExampleLine = ExampleLine(words: seq<string>, trailing: bool)

  /** The text of the line. */
  function LineText(e: ExampleLine): string
  {
    JoinWords(e.words) + (if e.trailing then " " else "")
  }

  /** The lines of an example as text. */
  function Texts(ex: seq<ExampleLine>): (r: seq<string>)
    ensures |r| == |ex|
  {
    seq(|ex|, i requires 0 <= i < |ex| => LineText(ex[i]))
  }

  /** The lines of `specExample20` (checkST2110.js:51-73), none of which
      ends with a space. Lines the two streams share are named once. */
  const Example20: seq<ExampleLine> := [
    Version20, Origin20, Name20, Info20, Timing20, RecvOnly20, Group20,
    Media20A, Connection20A, Filter20A, Rtpmap20, Fmtp20, Refclk20, Mediaclk20, Mid20A,
    Media20B, Connection20B, Filter20B, Rtpmap20, Fmtp20, Refclk20, Mediaclk20, Mid20B
  ]

  const Version20: ExampleLine := ExampleLine(["v=0"], false)
  const Origin20: ExampleLine := ExampleLine(["o=-", "123456", "11", "IN", "IP4", "192.168.100.2"], false)
  const Name20: ExampleLine := ExampleLine(["s=Example", "of", "a", "SMPTE", "ST2110-20", "signal"], false)
  const Info20: ExampleLine := ExampleLine(["i=this", "example", "is", "for", "720p", "video", "at", "59.94"], false)
  const Timing20: ExampleLine := ExampleLine(["t=0", "0"], false)
  const RecvOnly20: ExampleLine := ExampleLine(["a=recvonly"], false)
  const Group20: ExampleLine := ExampleLine(["a=group:DUP", "primary", "secondary"], false)
  const Rtpmap20: ExampleLine := ExampleLine(["a=rtpmap:112", "raw/90000"], false)
  const Fmtp20: ExampleLine := ExampleLine(Fmtp20Head + Fmtp20Middle + Fmtp20Tail, false)
  const Fmtp20Head: seq<string> := ["a=fmtp:112", "sampling=YCbCr-4:2:2;", "width=1280;", "height=720;"]
  const Fmtp20Middle: seq<string> := ["exactframerate=60000/1001;", "depth=10;", "TCS=SDR;"]
  const Fmtp20Tail: seq<string> := ["colorimetry=BT709;", "PM=2110GPM;", "SSN=ST2110-20:2017;"]
  const Refclk20: ExampleLine := ExampleLine(["a=ts-refclk:ptp=IEEE1588-2008:" + "39-A7-94-FF-FE-07-CB-D0:37"], false)
  const Mediaclk20: ExampleLine := ExampleLine(["a=mediaclk:direct=0"], false)
  const Media20A: ExampleLine := ExampleLine(["m=video", "50000", "RTP/AVP", "112"], false)
  const Connection20A: ExampleLine := ExampleLine(["c=IN", "IP4", "239.100.9.10/32"], false)
  const Filter20A: ExampleLine := ExampleLine(["a=source-filter:incl", "IN", "IP4", "239.100.9.10", "192.168.100.2"], false)
  const Mid20A: ExampleLine := ExampleLine(["a=mid:primary"], false)
  const Media20B: ExampleLine := ExampleLine(["m=video", "50020", "RTP/AVP", "112"], false)
  const Connection20B: ExampleLine := ExampleLine(["c=IN", "IP4", "239.101.9.10/32"], false)
  const Filter20B: ExampleLine := ExampleLine(["a=source-filter:incl", "IN", "IP4", "239.101.9.10", "192.168.101.2"], false)
  const Mid20B: ExampleLine := ExampleLine(["a=mid:secondary"], false)

  /** The lines of `specExample22` (checkST2110.js:77-101): every line but
      the last ends with one space. */
  const Example22: seq<ExampleLine> := [
    Line22(["v=0"]),
    Line22(["o=-", "101202", "53", "IN", "IP4", "10.0.81.54"]),
    Line22(["s=237.0.0.50:22000"]),
    Line22(["i=Nmos", "Testing", "237.0.0.50:22000"]),
    Line22(["t=0", "0"]),
    Line22(["a=recvonly"]),
    Line22(["a=group:DUP", "PRIMARY", "SECONDARY"]),
    Line22(["m=video", "22000", "RTP/AVP", "98"]),
    Line22(["c=IN", "IP4", "237.0.0.50/32"]),
    Line22(["a=source-filter:", "incl", "IN", "IP4", "237.0.0.50", "10.0.81.54"]),
    Line22(["a=rtpmap:98", "jxsv/90000"]),
    Fmtp22,
    Line22(["b=AS:116000"]),
    Line22(["a=ssrc:0", "cname:nmos@nmos.tv"]),
    Refclk22,
    Line22(["a=mediaclk:direct=0"]),
    Line22(["a=mid:PRIMARY", "m=video", "22000", "RTP/AVP", "98"]),
    Line22(["c=IN", "IP4", "237.64.0.50/32"]),
    Line22(["a=source-filter:", "incl", "IN", "IP4", "237.64.0.50", "10.0.81.154"]),
    Line22(["a=rtpmap:98", "jxsv/90000"]),
    Fmtp22,
    Line22(["b=AS:116000", "a=ssrc:0", "cname:nmos@nmos.tv"]),
    Refclk22,
    Line22(["a=mediaclk:direct=0"]),
    ExampleLine(["a=mid:SECONDARY"], false)
  ]

  /** A line of the 2110-22 example other than the last. */
  function Line22(words: seq<string>): ExampleLine
  {
    ExampleLine(words, true)
  }

  const Fmtp22: ExampleLine := Line22([
    "a=fmtp:98",
    "sampling=YCbCr-4:2:2;width=1280;" + "height=720;packetmode=0;" + "exactframerate=60000/1001;"
    + "depth=10;TCS=SDR;" + "colorimetry=BT709;" + "SSN=ST2110-22:2019;TP=2110TPN;" + "level=1k-1;sublevel=Sublev3bpp"
  ])
  const Refclk22: ExampleLine := Line22(["a=ts-refclk:ptp=IEEE1588-2008:" + "08-00-11-FF-FE-22-91-3C:127"])

  /** The example texts: their lines joined by line feeds. */
  const SpecExample20: string := JoinLines(Texts(Example20))
  const SpecExample22: string := JoinLines(Texts(Example22))

  // ---------------------------------------------------------------------
  // The lines of the 2110-20 example are words of printable characters

  /** A word of printable characters other than the space. */
  predicate Plain(w: string)
  {
    |w| > 0 && forall k | 0 <= k < |w| :: ' ' < w[k] <= '~'
  }

  /** A line of such words. */
  predicate PlainLine(e: ExampleLine)
  {
    |e.words| > 0 && forall w | w in e.words :: Plain(w)
  }

  lemma PlainSession20()
    ensures PlainLine(Version20) && PlainLine(Timing20) && PlainLine(RecvOnly20)
  {
  }

  lemma PlainClock20()
    ensures PlainLine(Mediaclk20) && PlainLine(Rtpmap20)
  {
  }

  lemma PlainMids20()
    ensures PlainLine(Mid20A) && PlainLine(Mid20B)
  {
  }

  lemma PlainOrigin20()
    ensures PlainLine(Origin20)
  {
  }

  // The longer lines below name each word in an assertion: the words
  // are then checked one at a time, which keeps these proofs small.
  lemma PlainName20()
    ensures PlainLine(Name20)
  {
    var ws := Name20.words;
    assert Plain(ws[0]);
    assert Plain(ws[1]);
    assert Plain(ws[2]);
    assert Plain(ws[3]);
    assert Plain(ws[4]);
    assert Plain(ws[5]);
  }

  lemma PlainInfo20()
    ensures PlainLine(Info20)
  {
    var ws := Info20.words;
    assert Plain(ws[0]);
    assert Plain(ws[1]);
    assert Plain(ws[2]);
    assert Plain(ws[3]);
    assert Plain(ws[4]);
    assert Plain(ws[5]);
    assert Plain(ws[6]);
    assert Plain(ws[7]);
  }

  lemma PlainGroup20()
    ensures PlainLine(Group20)
  {
  }

  lemma PlainMedia20A()
    ensures PlainLine(Media20A)
  {
  }

  lemma PlainMedia20B()
    ensures PlainLine(Media20B)
  {
  }

  lemma PlainConnection20A()
    ensures PlainLine(Connection20A)
  {
  }

  lemma PlainConnection20B()
    ensures PlainLine(Connection20B)
  {
  }

  lemma PlainFilter20A()
    ensures PlainLine(Filter20A)
  {
    var ws := Filter20A.words;
    assert Plain(ws[0]);
    assert Plain(ws[1]);
    assert Plain(ws[2]);
    assert Plain(ws[3]);
    assert Plain(ws[4]);
  }

  lemma PlainFilter20B()
    ensures PlainLine(Filter20B)
  {
    var ws := Filter20B.words;
    assert Plain(ws[0]);
    assert Plain(ws[1]);
    assert Plain(ws[2]);
    assert Plain(ws[3]);
    assert Plain(ws[4]);
  }

  lemma PlainFmtp20Head()
    ensures forall w | w in Fmtp20Head :: Plain(w)
  {
  }

  lemma PlainFmtp20Middle()
    ensures forall w | w in Fmtp20Middle :: Plain(w)
  {
  }

  lemma PlainFmtp20Tail()
    ensures forall w | w in Fmtp20Tail :: Plain(w)
  {
  }

  lemma PlainFmtp20()
    ensures PlainLine(Fmtp20)
  {
    PlainFmtp20Head();
    PlainFmtp20Middle();
    PlainFmtp20Tail();
    var ws := Fmtp20.words;
    assert ws == Fmtp20Head + (Fmtp20Middle + Fmtp20Tail);
    forall w | w in ws ensures Plain(w) {
      assert w in Fmtp20Head || w in Fmtp20Middle || w in Fmtp20Tail;
    }
  }

  lemma PlainRefclk20()
    ensures PlainLine(Refclk20)
  {
  }

  /** Every line of the 2110-20 example is made of plain words and ends
      without a space. */
  lemma Example20Plain()
    ensures forall i | 0 <= i < |Example20| :: PlainLine(Example20[i]) && !Example20[i].trailing
  {
    PlainSession20();
    PlainClock20();
    PlainMids20();
    PlainOrigin20();
    PlainName20();
    PlainInfo20();
    PlainGroup20();
    PlainMedia20A();
    PlainMedia20B();
    PlainConnection20A();
    PlainConnection20B();
    PlainFilter20A();
    PlainFilter20B();
    PlainFmtp20();
    PlainRefclk20();
  }

  /** A plain word has no `\s` character. */
  lemma PlainIsWord(w: string)
    requires Plain(w)
    ensures IsWord(w)
  {
  }

  /** The text of a plain line without a trailing space is a line of the
      description that collapsing white space leaves as it is, and that
      starts and ends with a character other than white space. */
  lemma PlainText(e: ExampleLine)
    requires PlainLine(e) && !e.trailing
    ensures IsLine(LineText(e)) && Collapse(LineText(e)) == LineText(e)
    ensures IsNotSpace(LineText(e)[0]) && IsNotSpace(LineText(e)[|LineText(e)| - 1])
  {
    forall k | 0 <= k < |e.words| ensures IsWord(e.words[k]) {
      assert e.words[k] in e.words;
      PlainIsWord(e.words[k]);
    }
    JoinWordsShape(e.words);
    CollapseJoinWords(e.words);
    assert LineText(e) == JoinWords(e.words);
  }

  // ---------------------------------------------------------------------
  // The comparison

  /** Line `x` of the description, with every run of white space
      collapsed to one space, starts with line `x` of the example. */
  predicate LineMatches(lines: seq<string>, exlines: seq<string>, x: nat)
    requires x < |lines| && x < |exlines|
  {
    StartsWith(Collapse(lines[x]), exlines[x])
  }

  /** Every line the two texts both have matches, from line `x` on. */
  predicate MatchingFrom(lines: seq<string>, exlines: seq<string>, x: nat)
  {
    forall y | x <= y < |lines| && y < |exlines| :: LineMatches(lines, exlines, y)
  }

  /** The loop of checkST2110.js:1609-1614 from line `x`: it runs over as
      many lines as the shorter text has and stops at the first line that
      does not match. */
  function MatchFrom(lines: seq<string>, exlines: seq<string>, x: nat): bool
    decreases |lines| - x
  {
    if x >= |lines| || x >= |exlines| then true
    else if !LineMatches(lines, exlines, x) then false
    else MatchFrom(lines, exlines, x + 1)
  }

  /** The loop ends with `matching` set exactly when every compared pair
      of lines matches. */
  lemma {:induction false} MatchFromIff(lines: seq<string>, exlines: seq<string>, x: nat)
    ensures MatchFrom(lines, exlines, x) <==> MatchingFrom(lines, exlines, x)
    decreases |lines| - x
  {
    if x < |lines| && x < |exlines| {
      MatchFromIff(lines, exlines, x + 1);
    }
  }

  /** checkST2110.js:1604-1620 `no_copy`: the trimmed description and the
      example are both cut into lines; one finding, citing no line and no
      stream, when every pair of lines compared matches, none otherwise.
      The source throws when either text has no line, so both must. */
  function NoCopy(rule: Rule, sdp: string, spec: string): (r: seq<Finding>)
    requires HasLine(Trim(sdp)) && HasLine(spec)
    ensures AllFrom(r, rule)
    ensures r == [] || r == [Finding(rule, CopiedExample, None, None)]
    ensures r != [] <==> MatchingFrom(SplitLines(Trim(sdp)), SplitLines(spec), 0)
  {
    var lines := SplitLines(Trim(sdp));
    var exlines := SplitLines(spec);
    MatchFromIff(lines, exlines, 0);
    if MatchFrom(lines, exlines, 0) then [Finding(rule, CopiedExample, None, None)] else []
  }

  /** The lines of the 2110-20 example text are the example's lines. */
  lemma Example20Lines()
    ensures HasLine(SpecExample20) && SplitLines(SpecExample20) == Texts(Example20)
  {
    var ts := Texts(Example20);
    Example20Plain();
    forall i | 0 <= i < |ts| ensures IsLine(ts[i]) { PlainText(Example20[i]); }
    SplitJoinLines(ts);
  }

  /** The 2110-22 example text has a line: it starts with `v`. */
  lemma Example22HasLine()
    ensures HasLine(SpecExample22)
  {
    var ts := Texts(Example22);
    assert ts[0] == "v=0 ";
    assert JoinLines(ts) == ts[0] + "\n" + JoinLines(ts[1..]);
    assert SpecExample22[0] == 'v';
  }

  /** checkST2110.js:1622 `no_copy_20`. */
  function NoCopyTest20(sdp: string): (r: seq<Finding>)
    requires HasLine(Trim(sdp))
    ensures r == [] || r == [Finding(NoCopy20, CopiedExample, None, None)]
  {
    Example20Lines();
    NoCopy(NoCopy20, sdp, SpecExample20)
  }

  /** checkST2110.js:1627 `no_copy_22`. */
  function NoCopyTest22(sdp: string): (r: seq<Finding>)
    requires HasLine(Trim(sdp))
    ensures r == [] || r == [Finding(NoCopy22, CopiedExample, None, None)]
  {
    Example22HasLine();
    NoCopy(NoCopy22, sdp, SpecExample22)
  }

  /** A description made of the first `k` lines of the 2110-20 example,
      the whole example included, is reported as a copy. */
  lemma CopyFlagged20(k: nat)
    requires 1 <= k <= |Example20|
    ensures HasLine(Trim(JoinLines(Texts(Example20)[..k])))
    ensures NoCopyTest20(JoinLines(Texts(Example20)[..k])) == [Finding(NoCopy20, CopiedExample, None, None)]
  {
    var ts := Texts(Example20);
    var pre := ts[..k];
    Example20Plain();
    Example20Lines();
    forall i | 0 <= i < k
      ensures IsLine(pre[i]) && Collapse(pre[i]) == pre[i] && |pre[i]| > 0
      ensures IsNotSpace(pre[i][0]) && IsNotSpace(pre[i][|pre[i]| - 1])
    {
      PlainText(Example20[i]);
    }
    var s := JoinLines(pre);
    JoinLinesEnds(pre);
    TrimUnchanged(s);
    SplitJoinLines(pre);
    assert IsNotNewline(s[0]);
    forall y | 0 <= y < k ensures LineMatches(pre, ts, y) {
      assert Collapse(pre[y])[..|ts[y]|] == ts[y];
    }
  }

  /** The 2110-20 example itself is reported as a copy. */
  lemma SpecExample20Flagged()
    ensures HasLine(Trim(SpecExample20))
    ensures NoCopyTest20(SpecExample20) == [Finding(NoCopy20, CopiedExample, None, None)]
  {
    assert Texts(Example20)[..|Example20|] == Texts(Example20);
    CopyFlagged20(|Example20|);
  }
}
