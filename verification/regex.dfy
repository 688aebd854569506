/** A small matcher for the regular expressions of checkST2110.js:19-48.

    A pattern is a sequence of tokens: a literal, one character of a class,
    a choice of literals, a greedy run of a class, `[1-9]\d*`, a fixed
    count of hexadecimal pairs joined by `-`, the `$` anchor, or an
    optional group of tokens. The matcher takes each token greedily and
    never backtracks. That agrees with the JavaScript engine for the
    patterns written this way, because in each of them the token after a
    greedy run cannot start with a character of the run, the literals of
    a choice never start one another, and an optional group that matched
    never has to be given back for the rest of the pattern to match. The
    patterns where backtracking does change the outcome are recognised by
    hand in the modules that use them.

    A match yields one part per token: the text that token consumed (an
    optional group that is absent consumes the empty text). */
module Regex {
  import opened Text

  datatype Token =
    | Lit(w: string)                      // the text `w`
    | One(p: char -> bool)                // one character of class `p`
    | OneOf(ws: seq<string>)              // `(w1|w2|...)`
    | Plus(p: char -> bool)               // `p+`
    | Star(p: char -> bool)               // `p*`
    | Number                              // `[1-9]\d*`
    | HexPairs(p: char -> bool, n: nat)   // `(pp-){n}pp`
    | End                                 // `$`
    | Opt(g: seq<Token>)                  // `(?:g)?`

  /** `[1-9]\d*`: a decimal number without a leading zero. */
  predicate IsNumber(w: string)
  {
    |w| > 0 && IsNonZeroDigit(w[0]) && AllDigits(w)
  }

  /** `(pp-){n}pp`: `n + 1` pairs of `p` characters with a `-` between
      consecutive pairs. */
  predicate IsHexPairs(w: string, p: char -> bool, n: nat)
  {
    |w| == 3 * n + 2 && forall k | 0 <= k < |w| :: if k % 3 == 2 then w[k] == '-' else p(w[k])
  }

  function Concat(parts: seq<string>): string
  {
    if |parts| == 0 then "" else parts[0] + Concat(parts[1..])
  }

  /** How many characters token `t` consumes at `i`, or `None` when it
      cannot match there. */
  function Step(s: string, i: nat, t: Token): (r: Option<nat>)
    requires i <= |s|
    ensures r.Some? ==> i + r.value <= |s|
    decreases t
  {
    match t
    case Opt(g) =>
      (match Match(s, i, g)
       case None => Some(0)
       case Some(ps) => Some(|Concat(ps)|))
    case _ => StepSimple(s, i, t)
  }

  /** The tokens other than the groups. */
  function StepSimple(s: string, i: nat, t: Token): (r: Option<nat>)
    requires i <= |s| && !t.Opt?
    ensures r.Some? ==> i + r.value <= |s|
  {
    match t
    case Lit(l) => if At(s, i, l) then Some(|l|) else None
    case One(p) => if i < |s| && p(s[i]) then Some(1) else None
    case OneOf(ws) =>
      var w := FirstAt(s, i, ws);
      if w.Some? then Some(|w.value|) else None
    case Plus(p) => if Span(s, i, p) == 0 then None else Some(Span(s, i, p))
    case Star(p) => Some(Span(s, i, p))
    case Number => if i < |s| && IsNonZeroDigit(s[i]) then Some(Span(s, i, IsDigit)) else None
    case HexPairs(p, n) =>
      if i + 3 * n + 2 <= |s| && IsHexPairs(s[i..i + 3 * n + 2], p, n) then Some(3 * n + 2) else None
    case End => if i == |s| then Some(0) else None
  }

  /** The first of `ws` that occurs at `i`. */
  function FirstAt(s: string, i: nat, ws: seq<string>): (r: Option<string>)
    ensures r.Some? ==> r.value in ws && At(s, i, r.value)
    ensures r.None? ==> forall k | 0 <= k < |ws| :: !At(s, i, ws[k])
  {
    if |ws| == 0 then None
    else if At(s, i, ws[0]) then Some(ws[0])
    else FirstAt(s, i, ws[1..])
  }

  /** The tokens `ts` matched one after another from `i`: the text each one
      consumed, in order. */
  function Match(s: string, i: nat, ts: seq<Token>): (r: Option<seq<string>>)
    requires i <= |s|
    ensures r.Some? ==> |r.value| == |ts| && i + |Concat(r.value)| <= |s|
    decreases ts
  {
    if |ts| == 0 then Some([])
    else match Step(s, i, ts[0])
      case None => None
      case Some(n) =>
        match Match(s, i + n, ts[1..])
        case None => None
        case Some(rest) =>
          var parts := [s[i..i + n]] + rest;
          assert parts[1..] == rest;
          Some(parts)
  }

  /** The leftmost position at or after `from` where the tokens match, and
      the parts they consumed there. */
  function Search(s: string, ts: seq<Token>, from: nat): (r: Option<(nat, seq<string>)>)
    ensures r.Some? ==> from <= r.value.0 <= |s| && Match(s, r.value.0, ts) == Some(r.value.1)
    ensures r.Some? ==> forall k | from <= k < r.value.0 :: Match(s, k, ts).None?
    ensures r.None? ==> forall k | from <= k <= |s| :: Match(s, k, ts).None?
    decreases |s| + 1 - from
  {
    if from > |s| then None
    else match Match(s, from, ts)
      case Some(parts) => Some((from, parts))
      case None => Search(s, ts, from + 1)
  }

  /** `pattern.test(s)` for an unanchored pattern: the tokens match
      somewhere. */
  predicate Matches(s: string, ts: seq<Token>)
  {
    exists k | 0 <= k <= |s| :: Match(s, k, ts).Some?
  }

  /** `s.match(pattern)` for an unanchored pattern without the `g` flag:
      the parts of the leftmost match. */
  function Find(s: string, ts: seq<Token>): (r: Option<seq<string>>)
    ensures r.Some? ==> |r.value| == |ts|
    ensures r.Some? <==> Matches(s, ts)
  {
    match Search(s, ts, 0)
    case None => None
    case Some(m) =>
      assert Match(s, m.0, ts).Some?;
      Some(m.1)
  }

  /** `s.match(pattern)` for a pattern with the `g` flag: the matches from
      left to right, each search resuming where the previous match ended
      (one character further on after an empty match). */
  function AllMatches(s: string, ts: seq<Token>, from: nat): (r: seq<seq<string>>)
    ensures forall m | 0 <= m < |r| :: |r[m]| == |ts|
    ensures |r| == 0 <==> forall k | from <= k <= |s| :: Match(s, k, ts).None?
    decreases |s| + 1 - from
  {
    match Search(s, ts, from)
    case None => []
    case Some((p, parts)) =>
      assert Match(s, p, ts).Some?;
      var e := p + |Concat(parts)|;
      [parts] + AllMatches(s, ts, if e == p then p + 1 else e)
  }

  /** A position where the tokens match, with no match before it, is the
      one `Search` reports. */
  lemma {:induction false} SearchIs(s: string, ts: seq<Token>, from: nat, p: nat)
    requires from <= p <= |s| && Match(s, p, ts).Some?
    requires forall k | from <= k < p :: Match(s, k, ts).None?
    ensures Search(s, ts, from) == Some((p, Match(s, p, ts).value))
    decreases p - from
  {
    if from < p {
      SearchIs(s, ts, from + 1, p);
    }
  }

  /** The first position where the tokens match is the one `Find`
      reports. */
  lemma FindIs(s: string, ts: seq<Token>, p: nat)
    requires p <= |s| && Match(s, p, ts).Some?
    requires forall k | 0 <= k < p :: Match(s, k, ts).None?
    ensures Find(s, ts) == Match(s, p, ts)
  {
    SearchIs(s, ts, 0, p);
  }

  /** A token that refuses the text refuses the whole match. */
  lemma MatchHeadFails(s: string, i: nat, t: Token, ts: seq<Token>)
    requires i <= |s| && Step(s, i, t).None?
    ensures Match(s, i, [t] + ts).None?
  {
    assert ([t] + ts)[0] == t;
  }

  /** A match at the very start is the one `Find` reports. */
  lemma FindAtStart(s: string, ts: seq<Token>)
    requires Match(s, 0, ts).Some?
    ensures Find(s, ts) == Match(s, 0, ts)
  {
    SearchIs(s, ts, 0, 0);
  }

  /** No character of class `p` at `j`: a greedy run ends there. */
  predicate Stops(s: string, j: nat, p: char -> bool)
  {
    j >= |s| || !p(s[j])
  }

  /** Token `t` consumes exactly `w` at `i`: `w` is there, the token accepts
      it, and the token would not take more. */
  predicate Takes(s: string, i: nat, t: Token, w: string)
    requires i <= |s|
  {
    && At(s, i, w)
    && match t
       case Lit(l) => w == l
       case One(p) => |w| == 1 && p(w[0])
       case OneOf(ws) => w in ws && forall k | 0 <= k < |ws| :: At(s, i, ws[k]) ==> ws[k] == w
       case Plus(p) => |w| > 0 && All(w, p) && Stops(s, i + |w|, p)
       case Star(p) => All(w, p) && Stops(s, i + |w|, p)
       case Number => IsNumber(w) && Stops(s, i + |w|, IsDigit)
       case HexPairs(p, n) => IsHexPairs(w, p, n)
       case End => w == "" && i == |s|
       case Opt(g) =>
         match Match(s, i, g)
         case None => w == ""
         case Some(ps) => w == Concat(ps)
  }

  /** A run of `n` characters of class `p` that stops is what `Span`
      measures. */
  lemma {:induction false} SpanExact(s: string, i: nat, n: nat, p: char -> bool)
    requires i + n <= |s| && Stops(s, i + n, p)
    requires forall k | i <= k < i + n :: p(s[k])
    ensures Span(s, i, p) == n
    decreases n
  {
    if n > 0 {
      SpanExact(s, i + 1, n - 1, p);
    }
  }

  /** A run that takes `w` steps over exactly `w`. */
  lemma TakesRun(s: string, i: nat, p: char -> bool, w: string)
    requires At(s, i, w) && All(w, p) && Stops(s, i + |w|, p)
    ensures Span(s, i, p) == |w|
  {
    forall k | i <= k < i + |w| ensures p(s[k]) { assert s[k] == w[k - i]; }
    SpanExact(s, i, |w|, p);
  }

  lemma {:induction false} FirstAtIs(s: string, i: nat, ws: seq<string>, w: string)
    requires w in ws && At(s, i, w)
    requires forall k | 0 <= k < |ws| :: At(s, i, ws[k]) ==> ws[k] == w
    ensures FirstAt(s, i, ws) == Some(w)
    decreases |ws|
  {
    if ws[0] != w {
      assert w in ws[1..] by { var k :| 0 <= k < |ws| && ws[k] == w; assert ws[1..][k - 1] == w; }
      forall k | 0 <= k < |ws[1..]| ensures At(s, i, ws[1..][k]) ==> ws[1..][k] == w {
        assert ws[1..][k] == ws[k + 1];
      }
      FirstAtIs(s, i, ws[1..], w);
    }
  }

  /** A token that takes `w` at `i` steps over exactly `w`. */
  lemma TakesStep(s: string, i: nat, t: Token, w: string)
    requires i <= |s| && Takes(s, i, t, w)
    ensures Step(s, i, t) == Some(|w|)
  {
    match t
    case Plus(p) => TakesRun(s, i, p, w);
    case Star(p) => TakesRun(s, i, p, w);
    case Number => TakesRun(s, i, IsDigit, w); assert s[i] == w[0];
    case OneOf(ws) => FirstAtIs(s, i, ws, w);
    case One(p) => assert s[i] == w[0];
    case HexPairs(p, n) =>
    case Lit(l) =>
    case End =>
    case Opt(g) =>
  }

  /** Two positions with the same text after them: `s` from `i` and `s2`
      from `j`. Everything a token or a match does depends on that text
      alone. */
  predicate SameFrom(s: string, i: nat, s2: string, j: nat)
  {
    i <= |s| && j <= |s2| && s[i..] == s2[j..]
  }

  lemma SameFromNext(s: string, i: nat, s2: string, j: nat, n: nat)
    requires SameFrom(s, i, s2, j) && i + n <= |s|
    ensures SameFrom(s, i + n, s2, j + n)
    ensures s[i..i + n] == s2[j..j + n]
  {
    assert s[i + n..] == s[i..][n..];
    assert s2[j + n..] == s2[j..][n..];
    assert s[i..i + n] == s[i..][..n];
    assert s2[j..j + n] == s2[j..][..n];
  }

  lemma SameFromAt(s: string, i: nat, s2: string, j: nat, w: string)
    requires SameFrom(s, i, s2, j)
    ensures At(s, i, w) == At(s2, j, w)
  {
    if i + |w| <= |s| { SameFromNext(s, i, s2, j, |w|); }
  }

  lemma SameFromChar(s: string, i: nat, s2: string, j: nat)
    requires SameFrom(s, i, s2, j) && i < |s|
    ensures j < |s2| && s[i] == s2[j]
  {
    assert s[i] == s[i..][0];
    assert s2[j] == s2[j..][0];
  }

  /** How far a greedy run reaches depends only on the text from where it
      starts. */
  lemma {:induction false} SpanSame(s: string, i: nat, s2: string, j: nat, p: char -> bool)
    requires SameFrom(s, i, s2, j)
    ensures Span(s, i, p) == Span(s2, j, p)
    decreases |s| - i
  {
    if i < |s| {
      SameFromChar(s, i, s2, j);
      SameFromNext(s, i, s2, j, 1);
      SpanSame(s, i + 1, s2, j + 1, p);
    }
  }

  lemma {:induction false} FirstAtSame(s: string, i: nat, s2: string, j: nat, ws: seq<string>)
    requires SameFrom(s, i, s2, j)
    ensures FirstAt(s, i, ws) == FirstAt(s2, j, ws)
    decreases |ws|
  {
    if |ws| > 0 {
      SameFromAt(s, i, s2, j, ws[0]);
      FirstAtSame(s, i, s2, j, ws[1..]);
    }
  }

  lemma StepSimpleSame(s: string, i: nat, s2: string, j: nat, t: Token)
    requires SameFrom(s, i, s2, j) && !t.Opt?
    ensures StepSimple(s, i, t) == StepSimple(s2, j, t)
  {
    match t
    case Lit(l) => SameFromAt(s, i, s2, j, l);
    case One(p) => if i < |s| { SameFromChar(s, i, s2, j); }
    case OneOf(ws) => FirstAtSame(s, i, s2, j, ws);
    case Plus(p) => SpanSame(s, i, s2, j, p);
    case Star(p) => SpanSame(s, i, s2, j, p);
    case Number =>
      SpanSame(s, i, s2, j, IsDigit);
      if i < |s| { SameFromChar(s, i, s2, j); }
    case HexPairs(p, n) => if i + 3 * n + 2 <= |s| { SameFromNext(s, i, s2, j, 3 * n + 2); }
    case End =>
  }

  /** A token's step depends only on the text from where it starts. */
  lemma {:induction false} StepSame(s: string, i: nat, s2: string, j: nat, t: Token)
    requires SameFrom(s, i, s2, j)
    ensures Step(s, i, t) == Step(s2, j, t)
    decreases t
  {
    match t
    case Opt(g) => MatchSame(s, i, s2, j, g);
    case _ => StepSimpleSame(s, i, s2, j, t);
  }

  /** A match depends only on the text from where it starts. */
  lemma {:induction false} MatchSame(s: string, i: nat, s2: string, j: nat, ts: seq<Token>)
    requires SameFrom(s, i, s2, j)
    ensures Match(s, i, ts) == Match(s2, j, ts)
    decreases ts
  {
    if |ts| > 0 {
      StepSame(s, i, s2, j, ts[0]);
      var st := Step(s, i, ts[0]);
      if st.None? {
        MatchNone(s, i, ts);
        MatchNone(s2, j, ts);
      } else {
        var n := st.value;
        SameFromNext(s, i, s2, j, n);
        MatchSame(s, i + n, s2, j + n, ts[1..]);
        MatchSameTail(s, i, s2, j, n, ts);
      }
    }
  }

  lemma MatchNone(s: string, i: nat, ts: seq<Token>)
    requires i <= |s| && |ts| > 0 && Step(s, i, ts[0]).None?
    ensures Match(s, i, ts).None?
  {
  }

  lemma MatchSameTail(s: string, i: nat, s2: string, j: nat, n: nat, ts: seq<Token>)
    requires i + n <= |s| && j + n <= |s2| && |ts| > 0
    requires Step(s, i, ts[0]) == Some(n) && Step(s2, j, ts[0]) == Some(n)
    requires s[i..i + n] == s2[j..j + n]
    requires Match(s, i + n, ts[1..]) == Match(s2, j + n, ts[1..])
    ensures Match(s, i, ts) == Match(s2, j, ts)
  {
    MatchUnfold(s, i, n, ts);
    MatchUnfold(s2, j, n, ts);
  }

  lemma MatchShift(s: string, i: nat, ts: seq<Token>)
    requires i <= |s|
    ensures Match(s, i, ts) == Match(s[i..], 0, ts)
  {
    assert s[i..][0..] == s[i..];
    MatchSame(s, i, s[i..], 0, ts);
  }

  /** One step of `Match`, with the first token's length known. */
  lemma MatchUnfold(s: string, i: nat, n: nat, ts: seq<Token>)
    requires i + n <= |s| && |ts| > 0 && Step(s, i, ts[0]) == Some(n)
    ensures Match(s, i, ts) ==
      if Match(s, i + n, ts[1..]).None? then None
      else Some([s[i..i + n]] + Match(s, i + n, ts[1..]).value)
  {
  }

  /** Peels off the first token of a match: when token `t` takes exactly
      `w` from `w + rest`, matching `[t] + ts` there yields `w` followed by
      the parts of `ts` matched on `rest`. Token lists are written as nested
      concatenations so that these steps line up with them syntactically. */
  lemma MatchCons(t: Token, w: string, rest: string, ts: seq<Token>)
    requires Takes(w + rest, 0, t, w) && Match(rest, 0, ts).Some?
    ensures Match(w + rest, 0, [t] + ts) == Some([w] + Match(rest, 0, ts).value)
  {
    var s := w + rest;
    assert ([t] + ts)[1..] == ts;
    TakesStep(s, 0, t, w);
    MatchShift(s, |w|, ts);
    assert s[|w|..] == rest;
    assert s[0..|w|] == w;
  }

  /** The same when the tokens after `t` refuse `rest`. */
  lemma MatchConsNone(t: Token, w: string, rest: string, ts: seq<Token>)
    requires Takes(w + rest, 0, t, w) && Match(rest, 0, ts).None?
    ensures Match(w + rest, 0, [t] + ts).None?
  {
    var s := w + rest;
    assert ([t] + ts)[1..] == ts;
    TakesStep(s, 0, t, w);
    MatchShift(s, |w|, ts);
    assert s[|w|..] == rest;
  }

  /** A greedy run takes a non-empty `w` of its class when the text after
      `w` does not continue the run. */
  lemma PlusTakes(w: string, rest: string, p: char -> bool)
    requires |w| > 0 && All(w, p) && (|rest| == 0 || !p(rest[0]))
    ensures Takes(w + rest, 0, Plus(p), w)
  {
    assert Stops(w + rest, |w|, p) by { if |rest| > 0 { assert (w + rest)[|w|] == rest[0]; } }
  }
}
