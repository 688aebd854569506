/** Format parameters written back as an `a=fmtp` line, and the proof that
    the grammar and the tokenizer of checkST2110.js:32-35 read such a line
    back as the payload type and the parameters it was written from. */
module FmtpWrite {
  import opened Text
  import opened Fmtp

  /** A parameter written back as text. */
  function ParamText(p: Param): string
  {
    if p.value == "" then p.name else p.name + ("=" + p.value)
  }

  /** Parameters written back as text, separated by `;`. */
  function JoinParams(ps: seq<Param>): string
  {
    if |ps| == 0 then ""
    else if |ps| == 1 then ParamText(ps[0])
    else ParamText(ps[0]) + (";" + JoinParams(ps[1..]))
  }

  /** A text that starts with a name character and holds no space. */
  predicate IsElementText(t: string)
  {
    |t| > 0 && IsKeyChar(t[0]) && forall j | 0 <= j < |t| :: !IsSpace(t[j])
  }

  /** A well-formed parameter is written as such a text. */
  lemma ParamTextShape(p: Param)
    requires WellFormed(p)
    ensures IsElementText(ParamText(p))
  {
    var t := ParamText(p);
    assert t[0] == p.name[0];
    forall j | 0 <= j < |t| ensures !IsSpace(t[j]) {
      if j < |p.name| { assert t[j] == p.name[j]; }
      else if j > |p.name| { assert t[j] == p.value[j - |p.name| - 1]; }
    }
  }

  /** Well-formed parameters are written as such a text too. */
  lemma {:induction false} JoinParamsShape(ps: seq<Param>)
    requires |ps| > 0 && AllWellFormed(ps)
    ensures IsElementText(JoinParams(ps))
    decreases |ps|
  {
    var t := ParamText(ps[0]);
    ParamTextShape(ps[0]);
    if |ps| > 1 {
      TailWellFormed(ps);
      JoinParamsShape(ps[1..]);
      var rest := JoinParams(ps[1..]);
      var u := JoinParams(ps);
      assert u == t + (";" + rest);
      assert u[0] == t[0];
      forall j | 0 <= j < |u| ensures !IsSpace(u[j]) {
        if j < |t| { assert u[j] == t[j]; }
        else if j > |t| { assert u[j] == rest[j - |t| - 1]; }
      }
    }
  }

  lemma TailWellFormed(ps: seq<Param>)
    requires |ps| > 0 && AllWellFormed(ps)
    ensures AllWellFormed(ps[1..])
  {
    var rest := ps[1..];
    forall k | 0 <= k < |rest| ensures WellFormed(rest[k]) { assert rest[k] == ps[k + 1]; }
  }

  /** How many characters `ParamText` writes. */
  function ParamLen(p: Param): nat
  {
    if p.value == "" then |p.name| else |p.name| + 1 + |p.value|
  }

  /** `p` written at `i`: its name, then `=` and its value unless the value
      is empty. */
  predicate ParamAt(s: string, i: nat, p: Param)
  {
    && At(s, i, p.name)
    && (p.value == "" || (i + |p.name| < |s| && s[i + |p.name|] == '=' && At(s, i + |p.name| + 1, p.value)))
  }

  /** The text of a parameter, found at `i`, is the parameter written there. */
  lemma ParamTextAt(s: string, i: nat, p: Param)
    requires At(s, i, ParamText(p))
    ensures ParamAt(s, i, p) && |ParamText(p)| == ParamLen(p)
  {
    if p.value != "" {
      AtAssignment(s, i, p.name, p.value);
    }
  }

  /** Where `name=v` is written at `i`, the name, the `=` and the value
      each sit in their place. */
  lemma AtAssignment(s: string, i: nat, name: string, v: string)
    requires At(s, i, name + ("=" + v))
    ensures At(s, i, name) && i + |name| < |s| && s[i + |name|] == '=' && At(s, i + |name| + 1, v)
  {
    var e := i + |name|;
    AtConcat(s, i, name, "=" + v);
    AtConcat(s, e, "=", v);
    AtFirst(s, e, "=");
  }

  /** A written parameter followed by `;` or the end is read back whole. */
  lemma ElementOfParam(s: string, i: nat, p: Param)
    requires WellFormed(p) && ParamAt(s, i, p)
    requires i + ParamLen(p) == |s| || (i + ParamLen(p) < |s| && s[i + ParamLen(p)] == ';')
    ensures i < |s| && ElementIs(s, i, p, i + ParamLen(p))
  {
    AtFirst(s, i, p.name);
    if p.value == "" {
      ElementNameOnly(s, i, p.name);
    } else {
      ElementSpans(s, i, p.name, p.value);
    }
  }

  lemma ElementNameOnly(s: string, i: nat, name: string)
    requires IsName(name) && At(s, i, name)
    requires i + |name| == |s| || (i + |name| < |s| && s[i + |name|] == ';')
    ensures ElementIs(s, i, Param(name, ""), i + |name|)
  {
    SpanIs(s, i, name, IsKeyChar);
    ElementAtName(s, i, |name|);
  }

  lemma ElementSpans(s: string, i: nat, name: string, v: string)
    requires IsName(name) && |v| > 0 && All(v, IsValueChar)
    requires At(s, i, name) && i + |name| < |s| && s[i + |name|] == '=' && At(s, i + |name| + 1, v)
    requires i + |name| + 1 + |v| == |s| || (i + |name| + 1 + |v| < |s| && s[i + |name| + 1 + |v|] == ';')
    ensures ElementIs(s, i, Param(name, v), i + |name| + 1 + |v|)
  {
    SpanIs(s, i, name, IsKeyChar);
    SpanIs(s, i + |name| + 1, v, IsValueChar);
    ElementNamed(s, i, name, v);
  }

  lemma ElementNamed(s: string, i: nat, name: string, v: string)
    requires |name| > 0 && |v| > 0 && i + |name| + 1 + |v| <= |s|
    requires s[i..i + |name|] == name && s[i + |name| + 1..i + |name| + 1 + |v|] == v
    requires Span(s, i, IsKeyChar) == |name| && s[i + |name|] == '='
    requires Span(s, i + |name| + 1, IsValueChar) == |v|
    ensures ElementIs(s, i, Param(name, v), i + |name| + 1 + |v|)
  {
    ElementAtValue(s, i, |name|, |v|);
    assert Param(s[i..i + |name|], s[i + |name| + 1..i + |name| + 1 + |v|]) == Param(name, v);
  }

  lemma ElementAtName(s: string, i: nat, n: nat)
    requires i <= |s| && n > 0 && Span(s, i, IsKeyChar) == n
    requires !(i + n + 1 < |s| && s[i + n] == '=' && IsValueChar(s[i + n + 1]))
    ensures ElementIs(s, i, Param(s[i..i + n], ""), i + n)
  {
  }

  lemma ElementAtValue(s: string, i: nat, n: nat, m: nat)
    requires n > 0 && m > 0 && i + n + 1 + m <= |s|
    requires Span(s, i, IsKeyChar) == n && s[i + n] == '='
    requires Span(s, i + n + 1, IsValueChar) == m
    ensures ElementIs(s, i, Param(s[i..i + n], s[i + n + 1..i + n + 1 + m]), i + n + 1 + m)
  {
    assert IsValueChar(s[i + n + 1]);
  }

  /** Parameters written one after the other from `i`, with a `;` between
      two and nothing after the last. */
  predicate WrittenAt(s: string, i: nat, ps: seq<Param>)
    decreases |ps|
  {
    && |ps| > 0 && ParamAt(s, i, ps[0])
    && var e := i + ParamLen(ps[0]);
       if |ps| == 1 then e == |s|
       else e < |s| && s[e] == ';' && WrittenAt(s, e + 1, ps[1..])
  }

  /** The text `JoinParams` writes is written so. */
  lemma {:induction false} JoinParamsWritten(s: string, i: nat, ps: seq<Param>)
    requires |ps| > 0 && At(s, i, JoinParams(ps)) && i + |JoinParams(ps)| == |s|
    ensures WrittenAt(s, i, ps)
    decreases |ps|, 2
  {
    if |ps| == 1 {
      JoinParamsWrittenOne(s, i, ps);
    } else {
      JoinParamsWrittenMore(s, i, ps);
    }
  }

  lemma JoinParamsWrittenOne(s: string, i: nat, ps: seq<Param>)
    requires |ps| == 1 && At(s, i, JoinParams(ps)) && i + |JoinParams(ps)| == |s|
    ensures WrittenAt(s, i, ps)
  {
    ParamTextAt(s, i, ps[0]);
  }

  lemma {:induction false} JoinParamsWrittenMore(s: string, i: nat, ps: seq<Param>)
    requires |ps| > 1 && At(s, i, JoinParams(ps)) && i + |JoinParams(ps)| == |s|
    ensures WrittenAt(s, i, ps)
    decreases |ps|, 1
  {
    var e := JoinParamsAt(s, i, ps);
    JoinParamsWrittenNext(s, i, ps, e);
  }

  lemma {:induction false} JoinParamsWrittenNext(s: string, i: nat, ps: seq<Param>, e: nat)
    requires |ps| > 1 && ParamAt(s, i, ps[0]) && e == i + ParamLen(ps[0]) && e < |s| && s[e] == ';'
    requires At(s, e + 1, JoinParams(ps[1..])) && e + 1 + |JoinParams(ps[1..])| == |s|
    ensures WrittenAt(s, i, ps)
    decreases |ps|, 0
  {
    JoinParamsWritten(s, e + 1, ps[1..]);
    WrittenIntro(s, i, ps, e);
  }

  /** Several parameters written at `i`: the first, a `;`, then the rest. */
  lemma JoinParamsAt(s: string, i: nat, ps: seq<Param>) returns (e: nat)
    requires |ps| > 1 && At(s, i, JoinParams(ps)) && i + |JoinParams(ps)| == |s|
    ensures e == i + ParamLen(ps[0]) && ParamAt(s, i, ps[0])
    ensures e < |s| && s[e] == ';'
    ensures At(s, e + 1, JoinParams(ps[1..])) && e + 1 + |JoinParams(ps[1..])| == |s|
  {
    var t := ParamText(ps[0]);
    AtSeparated(s, i, t, JoinParams(ps[1..]));
    ParamTextAt(s, i, ps[0]);
    e := i + |t|;
  }

  /** `t;rest` found at `i`: `t`, then `;`, then `rest`. */
  lemma AtSeparated(s: string, i: nat, t: string, rest: string)
    requires At(s, i, t + (";" + rest))
    ensures At(s, i, t) && i + |t| < |s| && s[i + |t|] == ';' && At(s, i + |t| + 1, rest)
  {
    AtConcat(s, i, t, ";" + rest);
    AtConcat(s, i + |t|, ";", rest);
    AtFirst(s, i + |t|, ";");
  }

  lemma WrittenIntro(s: string, i: nat, ps: seq<Param>, e: nat)
    requires |ps| > 1 && ParamAt(s, i, ps[0]) && e == i + ParamLen(ps[0])
    requires e < |s| && s[e] == ';' && WrittenAt(s, e + 1, ps[1..])
    ensures WrittenAt(s, i, ps)
  {
  }

  /** One written step, read off. */
  lemma WrittenStep(s: string, i: nat, ps: seq<Param>) returns (e: nat)
    requires WrittenAt(s, i, ps)
    ensures e == i + ParamLen(ps[0]) && ParamAt(s, i, ps[0])
    ensures |ps| == 1 ==> e == |s|
    ensures |ps| > 1 ==> e < |s| && s[e] == ';' && WrittenAt(s, e + 1, ps[1..])
  {
    e := i + ParamLen(ps[0]);
  }

  /** After a `;`, the next written parameter starts at once. */
  lemma NextElement(s: string, e: nat, p: Param)
    requires WellFormed(p) && e < |s| && s[e] == ';' && ParamAt(s, e + 1, p)
    ensures SeparatorEnd(s, e) == e + 1
  {
    AtFirst(s, e + 1, p.name);
  }

  /** The last of the written parameters is read as an element that ends
      the text. */
  lemma WrittenLast(s: string, i: nat, ps: seq<Param>) returns (e: nat)
    requires |ps| == 1 && AllWellFormed(ps) && WrittenAt(s, i, ps)
    ensures i < |s| && ElementIs(s, i, ps[0], e) && e == |s|
  {
    e := WrittenStep(s, i, ps);
    ElementOfParam(s, i, ps[0]);
  }

  /** The first of several written parameters is read as an element, and
      the tokenizer moves on past the `;` to the rest. */
  lemma WrittenHead(s: string, i: nat, ps: seq<Param>) returns (e: nat)
    requires |ps| > 1 && AllWellFormed(ps) && WrittenAt(s, i, ps)
    ensures i < |s| && ElementIs(s, i, ps[0], e)
    ensures e < |s| && s[e] == ';' && SeparatorEnd(s, e) == e + 1
    ensures AllWellFormed(ps[1..]) && WrittenAt(s, e + 1, ps[1..])
  {
    e := WrittenStep(s, i, ps);
    ElementOfParam(s, i, ps[0]);
    WrittenNext(s, e, ps);
  }

  lemma WrittenNext(s: string, e: nat, ps: seq<Param>)
    requires |ps| > 1 && AllWellFormed(ps)
    requires e < |s| && s[e] == ';' && WrittenAt(s, e + 1, ps[1..])
    ensures SeparatorEnd(s, e) == e + 1 && AllWellFormed(ps[1..])
  {
    var f := WrittenStep(s, e + 1, ps[1..]);
    NextElement(s, e, ps[1]);
    TailWellFormed(ps);
  }

  /** Well-formed parameters written from `i` tokenize back into
      themselves. */
  lemma {:induction false} ParamsRoundTrip(s: string, i: nat, ps: seq<Param>)
    requires AllWellFormed(ps) && WrittenAt(s, i, ps)
    ensures ParamsFrom(s, i) == ps
    decreases |ps|, 1
  {
    if |ps| == 1 {
      var e := WrittenLast(s, i, ps);
      ParamsAtEnd(s, e);
      ParamsFromElement(s, i, ps[0], e, []);
      assert ps == [ps[0]];
    } else {
      var e := WrittenHead(s, i, ps);
      ParamsRoundTripNext(s, i, ps[0], e, ps[1..]);
      assert ps == [ps[0]] + ps[1..];
    }
  }

  lemma {:induction false} ParamsRoundTripNext(s: string, i: nat, p: Param, e: nat, rest: seq<Param>)
    requires i < |s| && ElementIs(s, i, p, e)
    requires e < |s| && s[e] == ';' && SeparatorEnd(s, e) == e + 1
    requires AllWellFormed(rest) && WrittenAt(s, e + 1, rest)
    ensures ParamsFrom(s, i) == [p] + rest
    decreases |rest| + 1, 0
  {
    ParamsRoundTrip(s, e + 1, rest);
    ParamsFromElement(s, i, p, e, rest);
  }

  /** Well-formed parameters written from `i` are accepted by the
      parameter grammar. */
  lemma {:induction false} ElementsRoundTrip(s: string, i: nat, ps: seq<Param>)
    requires AllWellFormed(ps) && WrittenAt(s, i, ps)
    ensures ElementsFrom(s, i)
    decreases |ps|, 1
  {
    if |ps| == 1 {
      var e := WrittenLast(s, i, ps);
      ElementsFromLast(s, i);
    } else {
      var e := WrittenHead(s, i, ps);
      ElementsRoundTripNext(s, i, ps[0], e, ps[1..]);
    }
  }

  lemma {:induction false} ElementsRoundTripNext(s: string, i: nat, p: Param, e: nat, rest: seq<Param>)
    requires ElementIs(s, i, p, e)
    requires e < |s| && s[e] == ';' && SeparatorEnd(s, e) == e + 1
    requires AllWellFormed(rest) && WrittenAt(s, e + 1, rest)
    ensures ElementsFrom(s, i)
    decreases |rest| + 1, 0
  {
    ElementsRoundTrip(s, e + 1, rest);
    ElementsFromNext(s, i, p, e, e + 1);
  }

  lemma ParamsAtEnd(s: string, e: nat)
    requires e == |s|
    ensures ParamsFrom(s, SeparatorEnd(s, e)) == []
  {
  }

  /** The last grammar step: an element that ends the text. */
  lemma ElementsFromLast(s: string, i: nat)
    requires i <= |s| && ElementAt(s, i).Some? && ElementAt(s, i).value.1 == |s|
    ensures ElementsFrom(s, i)
  {
  }

  /** One grammar step: an element, a `;`, and more from `f`. */
  lemma ElementsFromNext(s: string, i: nat, p: Param, e: nat, f: nat)
    requires ElementIs(s, i, p, e)
    requires e < |s| && s[e] == ';' && SeparatorEnd(s, e) == f && ElementsFrom(s, f)
    ensures ElementsFrom(s, i)
  {
  }

  /** Where an element is read at `i`, the tokenizer keeps it and goes on
      after its separator. */
  lemma ParamsFromElement(s: string, i: nat, p: Param, e: nat, rest: seq<Param>)
    requires i < |s| && ElementIs(s, i, p, e)
    requires ParamsFrom(s, SeparatorEnd(s, e)) == rest
    ensures ParamsFrom(s, i) == [p] + rest
  {
  }

  /** No separator starts where no space follows. */
  lemma NoHeadAfter(s: string, e: nat)
    requires e <= |s| && forall j | e <= j < |s| :: !IsSpace(s[j])
    ensures forall k | e <= k <= |s| :: HeadAt(s, k).None?
  {
    forall k | e <= k <= |s| ensures HeadAt(s, k).None? {
      if At(s, k, "a=fmtp:") {
        var j := k + 7 + Span(s, k + 7, IsDigit);
        assert j == |s| || !IsSpace(s[j]);
      }
    }
  }

  /** An `a=fmtp` line written from a payload type and well-formed
      parameters is accepted, its payload type is read back, and its
      parameter text tokenizes into the same parameters. */
  lemma FmtpRoundTrip(pt: string, ps: seq<Param>)
    requires |pt| > 0 && AllDigits(pt)
    requires |ps| > 0 && AllWellFormed(ps)
    ensures FmtpOf("a=fmtp:" + (pt + (" " + JoinParams(ps)))) == Some(pt)
    ensures ParamsText("a=fmtp:" + (pt + (" " + JoinParams(ps)))) == Some(JoinParams(ps))
    ensures ParamsFrom(JoinParams(ps), 0) == ps
  {
    var j := JoinParams(ps);
    var line := "a=fmtp:" + (pt + (" " + j));
    JoinParamsShape(ps);
    LineLayout(pt, j);
    HeadOfLine(line, pt, j);
    FmtpOfWritten(line, 8 + |pt|, pt, ps);
    ParamsTextWritten(line, 8 + |pt|, j);
    JoinParamsRead(ps);
  }

  /** Where each part of a written `a=fmtp` line sits. */
  lemma LineLayout(pt: string, j: string)
    ensures At("a=fmtp:" + (pt + (" " + j)), 0, "a=fmtp:")
    ensures At("a=fmtp:" + (pt + (" " + j)), 7, pt)
    ensures At("a=fmtp:" + (pt + (" " + j)), 7 + |pt|, " ")
    ensures At("a=fmtp:" + (pt + (" " + j)), 8 + |pt|, j)
    ensures |"a=fmtp:" + (pt + (" " + j))| == 8 + |pt| + |j|
  {
    var line := "a=fmtp:" + (pt + (" " + j));
    AtHalves("a=fmtp:", pt + (" " + j));
    AtConcat(line, 7, pt, " " + j);
    AtConcat(line, 7 + |pt|, " ", j);
  }

  /** The head `a=fmtp:<pt> ` is read at the start of a line laid out so,
      and nothing after it is a space. */
  lemma HeadOfLine(line: string, pt: string, j: string)
    requires |pt| > 0 && AllDigits(pt) && |j| > 0
    requires forall k | 0 <= k < |j| :: !IsSpace(j[k])
    requires At(line, 0, "a=fmtp:") && At(line, 7, pt) && At(line, 7 + |pt|, " ")
    requires At(line, 8 + |pt|, j) && |line| == 8 + |pt| + |j|
    ensures HeadAt(line, 0) == Some((pt, 8 + |pt|))
    ensures line[8 + |pt|..] == j
    ensures forall k | 8 + |pt| <= k < |line| :: !IsSpace(line[k])
  {
    var e := 8 + |pt|;
    AtFirst(line, 7 + |pt|, " ");
    AtFirst(line, e, j);
    SpanIs(line, 7, pt, IsDigit);
    SpanIs(line, 7 + |pt|, " ", IsSpace);
    assert line[e..] == j;
    forall k | e <= k < |line| ensures !IsSpace(line[k]) { assert line[k] == j[k - e]; }
  }

  /** A line whose head is followed by written parameters to its end is
      accepted, with the head's payload type. */
  lemma FmtpOfWritten(line: string, e: nat, pt: string, ps: seq<Param>)
    requires |ps| > 0 && AllWellFormed(ps)
    requires HeadAt(line, 0) == Some((pt, e))
    requires line[e..] == JoinParams(ps)
    ensures FmtpOf(line) == Some(pt)
  {
    JoinParamsElements(line, e, ps);
    assert FmtpAt(line, 0);
  }

  /** The text `JoinParams` writes is read as a run of elements. */
  lemma JoinParamsElements(s: string, e: nat, ps: seq<Param>)
    requires |ps| > 0 && AllWellFormed(ps) && e <= |s| && s[e..] == JoinParams(ps)
    ensures ElementsFrom(s, e)
  {
    assert At(s, e, JoinParams(ps)) by { assert s[e..e + |JoinParams(ps)|] == s[e..]; }
    JoinParamsWritten(s, e, ps);
    ElementsRoundTrip(s, e, ps);
  }

  /** A line with one head and no space after it: the parameter text is
      everything after the head. */
  lemma ParamsTextWritten(line: string, e: nat, j: string)
    requires HeadAt(line, 0).Some? && HeadAt(line, 0).value.1 == e
    requires line[e..] == j
    requires forall k | e <= k < |line| :: !IsSpace(line[k])
    ensures ParamsText(line) == Some(j)
  {
    NoHeadAfter(line, e);
    assert SeparatorFrom(line, 0) == Some((0, e));
    assert SeparatorFrom(line, e).None?;
  }

  /** The parameter text alone tokenizes into the parameters. */
  lemma JoinParamsRead(ps: seq<Param>)
    requires |ps| > 0 && AllWellFormed(ps)
    ensures ParamsFrom(JoinParams(ps), 0) == ps
  {
    var j := JoinParams(ps);
    assert At(j, 0, j) by { assert j[0..|j|] == j; }
    JoinParamsWritten(j, 0, ps);
    ParamsRoundTrip(j, 0, ps);
  }
}
