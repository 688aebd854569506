/** The format-parameter grammar of checkST2110.js:32-35: `fmtpPattern`,
    which accepts an `a=fmtp` line; the split that cuts the parameter text
    out of the line; the `fmtpParams` tokenizer run over that text; and the
    record the extractor folds the tokens into. */
module Fmtp {
  import opened Text

  /** One format parameter; the value of a name-only parameter is `""`
      (the extractor's `p[2] || ''`). */
  datatype Param = Param(name: string, value: string)

  predicate IsName(w: string) { |w| > 0 && All(w, IsKeyChar) }

  /** A parameter as the tokenizer can produce it. */
  predicate WellFormed(p: Param)
  {
    IsName(p.name) && All(p.value, IsValueChar)
  }

  predicate AllWellFormed(ps: seq<Param>)
  {
    forall k | 0 <= k < |ps| :: WellFormed(ps[k])
  }

  /** `([^\s=;]+)(?:=([^\s;]+))?` at `i`: the parameter and where it ends.
      The optional value is taken only when `=` is followed by at least
      one value character. */
  function ElementAt(s: string, i: nat): (r: Option<(Param, nat)>)
    requires i <= |s|
    ensures r.Some? ==> i < r.value.1 <= |s|
    ensures r.Some? <==> i < |s| && IsKeyChar(s[i])
  {
    var k := Span(s, i, IsKeyChar);
    if k == 0 then None
    else
      var e := i + k;
      if e + 1 < |s| && s[e] == '=' && IsValueChar(s[e + 1]) then
        var v := Span(s, e + 1, IsValueChar);
        Some((Param(s[i..e], s[e + 1..e + 1 + v]), e + 1 + v))
      else Some((Param(s[i..e], ""), e))
  }

  /** The element read at `i` is `p`, and it ends at `e`. */
  predicate ElementIs(s: string, i: nat, p: Param, e: nat)
  {
    i <= |s| && ElementAt(s, i).Some? && ElementAt(s, i).value.0 == p && ElementAt(s, i).value.1 == e
  }

  /** `(?:;\s*)?` at `e`: where the optional separator ends. */
  function SeparatorEnd(s: string, e: nat): (f: nat)
    requires e <= |s|
    ensures e <= f <= |s|
  {
    if e < |s| && s[e] == ';' then e + 1 + Span(s, e + 1, IsSpace) else e
  }

  /** `fmtpParams.exec` repeated until it fails, from `i`: each match starts
      at the next name character and ends after its optional separator. */
  function ParamsFrom(s: string, i: nat): (ps: seq<Param>)
    requires i <= |s|
    decreases |s| - i
  {
    if i == |s| then []
    else if !IsKeyChar(s[i]) then ParamsFrom(s, i + 1)
    else
      var el := ElementAt(s, i).value;
      [el.0] + ParamsFrom(s, SeparatorEnd(s, el.1))
  }

  /** Every parameter the tokenizer produces is well formed. */
  lemma {:induction false} ParamsFromWellFormed(s: string, i: nat)
    requires i <= |s|
    ensures forall k | 0 <= k < |ParamsFrom(s, i)| :: WellFormed(ParamsFrom(s, i)[k])
    decreases |s| - i
  {
    if i < |s| {
      if !IsKeyChar(s[i]) {
        ParamsFromWellFormed(s, i + 1);
      } else {
        var el := ElementAt(s, i).value;
        ElementWellFormed(s, i);
        ParamsFromWellFormed(s, SeparatorEnd(s, el.1));
        var ps := ParamsFrom(s, i);
        assert ps == [el.0] + ParamsFrom(s, SeparatorEnd(s, el.1));
        forall k | 0 <= k < |ps| ensures WellFormed(ps[k]) {
          if k > 0 { assert ps[k] == ParamsFrom(s, SeparatorEnd(s, el.1))[k - 1]; }
        }
      }
    }
  }

  lemma ElementWellFormed(s: string, i: nat)
    requires i < |s| && IsKeyChar(s[i])
    ensures WellFormed(ElementAt(s, i).value.0)
  {
    var e := i + Span(s, i, IsKeyChar);
    if e + 1 < |s| && s[e] == '=' && IsValueChar(s[e + 1]) {
      ElementValueWellFormed(s, i);
    } else {
      ElementNameWellFormed(s, i);
    }
  }

  lemma ElementNameWellFormed(s: string, i: nat)
    requires i < |s| && IsKeyChar(s[i])
    requires var e := i + Span(s, i, IsKeyChar); !(e + 1 < |s| && s[e] == '=' && IsValueChar(s[e + 1]))
    ensures WellFormed(ElementAt(s, i).value.0)
  {
    SpanSlice(s, i, IsKeyChar);
  }

  lemma ElementValueWellFormed(s: string, i: nat)
    requires i < |s| && IsKeyChar(s[i])
    requires var e := i + Span(s, i, IsKeyChar); e + 1 < |s| && s[e] == '=' && IsValueChar(s[e + 1])
    ensures WellFormed(ElementAt(s, i).value.0)
  {
    var e := i + Span(s, i, IsKeyChar);
    SpanSlice(s, i, IsKeyChar);
    SpanSlice(s, e + 1, IsValueChar);
  }

  /** `fmtpElement (fmtpSeparator fmtpElement)* fmtpSeparator? $` from
      `i`: elements separated by `;` and optional spaces, an optional
      trailing separator, and nothing else up to the end. Each part of the
      grammar is decided by the next character, so the greedy reading is
      the only one. */
  predicate ElementsFrom(s: string, i: nat)
    requires i <= |s|
    decreases |s| - i
  {
    var el := ElementAt(s, i);
    && el.Some?
    && var e := el.value.1;
       || e == |s|
       || (s[e] == ';' && (SeparatorEnd(s, e) == |s| || ElementsFrom(s, SeparatorEnd(s, e))))
  }

  /** `a=fmtp:(\d+)\s+` at `k`: the payload type, and where the run of
      spaces ends. */
  function HeadAt(s: string, k: nat): (r: Option<(string, nat)>)
    requires k <= |s|
    ensures r.Some? ==> k < r.value.1 <= |s|
  {
    if !At(s, k, "a=fmtp:") then None
    else
      var d := Span(s, k + 7, IsDigit);
      var w := Span(s, k + 7 + d, IsSpace);
      if d == 0 || w == 0 then None else Some((s[k + 7..k + 7 + d], k + 7 + d + w))
  }

  /** `fmtpPattern` tried at position `k`. */
  predicate FmtpAt(s: string, k: nat)
    requires k <= |s|
  {
    HeadAt(s, k).Some? && ElementsFrom(s, HeadAt(s, k).value.1)
  }

  /** The leftmost match of `fmtpPattern` at or after `from`: its payload
      type. */
  function FmtpFrom(s: string, from: nat): (r: Option<string>)
    ensures r.Some? <==> exists k | from <= k <= |s| :: FmtpAt(s, k)
    decreases |s| + 1 - from
  {
    if from > |s| then None
    else if FmtpAt(s, from) then Some(HeadAt(s, from).value.0)
    else FmtpFrom(s, from + 1)
  }

  /** `line.match(fmtpPattern)`: group 1, the payload type. */
  function FmtpOf(line: string): (r: Option<string>)
    ensures r.Some? <==> exists k | 0 <= k <= |line| :: FmtpAt(line, k)
  {
    FmtpFrom(line, 0)
  }

  /** The leftmost `a=fmtp:\d+\s+` at or after `from`: where it starts and
      where it ends. */
  function SeparatorFrom(s: string, from: nat): (r: Option<(nat, nat)>)
    ensures r.Some? ==> from <= r.value.0 <= |s| && HeadAt(s, r.value.0).Some?
    ensures r.Some? ==> r.value.1 == HeadAt(s, r.value.0).value.1
    ensures r.Some? ==> forall k | from <= k < r.value.0 :: HeadAt(s, k).None?
    ensures r.None? ==> forall k | from <= k <= |s| :: HeadAt(s, k).None?
    decreases |s| + 1 - from
  {
    if from > |s| then None
    else if HeadAt(s, from).Some? then Some((from, HeadAt(s, from).value.1))
    else SeparatorFrom(s, from + 1)
  }

  /** `line.split(/a=fmtp:\d+\s+/)[1]`: the text between the first
      separator and the next one, or the end of the line. `None` when the
      line holds no separator and element 1 does not exist. */
  function ParamsText(line: string): (r: Option<string>)
    ensures r.Some? <==> exists k | 0 <= k <= |line| :: HeadAt(line, k).Some?
  {
    match SeparatorFrom(line, 0)
    case None => None
    case Some(first) =>
      match SeparatorFrom(line, first.1)
      case None => Some(line[first.1..])
      case Some(next) => Some(line[first.1..next.0])
  }

  /** A line the pattern accepts has a parameter text. */
  lemma FmtpHasParams(line: string)
    requires FmtpOf(line).Some?
    ensures ParamsText(line).Some?
  {
    var k :| 0 <= k <= |line| && FmtpAt(line, k);
  }

  /** The record `reduce` builds from the tokens: each parameter sets its
      name in turn. */
  function ParamMap(ps: seq<Param>): (m: map<string, string>)
    ensures forall k | 0 <= k < |ps| :: ps[k].name in m
    ensures forall n | n in m :: exists k | 0 <= k < |ps| :: ps[k].name == n
  {
    if |ps| == 0 then map[]
    else
      var init := ps[..|ps| - 1];
      var m := ParamMap(init);
      assert forall k | 0 <= k < |ps| - 1 :: ps[k] == init[k];
      m[ps[|ps| - 1].name := ps[|ps| - 1].value]
  }

  /** A repeated name keeps the value of its last occurrence. */
  lemma {:induction false} ParamMapLast(ps: seq<Param>, k: nat)
    requires k < |ps|
    requires forall j | k < j < |ps| :: ps[j].name != ps[k].name
    ensures ParamMap(ps)[ps[k].name] == ps[k].value
    decreases |ps|
  {
    if k < |ps| - 1 {
      var init := ps[..|ps| - 1];
      assert init[k] == ps[k];
      forall j | k < j < |init| ensures init[j].name != init[k].name { assert init[j] == ps[j]; }
      ParamMapLast(init, k);
    }
  }
}
