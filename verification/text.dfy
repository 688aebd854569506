/** Character classes and string primitives shared by the line model and the
    pattern recognisers. Strings are sequences of characters; the character
    classes follow the JavaScript regular-expression classes the rule file
    relies on (`\s`, `\d`, `.`). */
module Text {

  datatype Option<+T> = None | Some(value: T)

  /** JavaScript `\s`: the WhiteSpace and LineTerminator code points. */
  predicate IsSpace(c: char)
  {
    || c == ' ' || c == '\t' || c == '\n' || c == '\r'
    || c as int == 0x0B || c as int == 0x0C || c as int == 0xA0
    || c as int == 0x1680 || 0x2000 <= c as int <= 0x200A
    || c as int == 0x2028 || c as int == 0x2029 || c as int == 0x202F
    || c as int == 0x205F || c as int == 0x3000 || c as int == 0xFEFF
  }

  predicate IsNotSpace(c: char) { !IsSpace(c) }

  /** JavaScript `\d`. */
  predicate IsDigit(c: char) { '0' <= c <= '9' }

  /** `[1-9]`, the first digit of a number written without leading zeros. */
  predicate IsNonZeroDigit(c: char) { '1' <= c <= '9' }

  /** `[\r\n]`: the characters that end an SDP line. */
  predicate IsNewline(c: char) { c == '\r' || c == '\n' }

  predicate IsNotNewline(c: char) { !IsNewline(c) }

  /** The characters JavaScript's `.` does not match. */
  predicate IsLineTerminator(c: char)
  {
    c == '\n' || c == '\r' || c as int == 0x2028 || c as int == 0x2029
  }

  predicate IsLetter(c: char) { 'a' <= c <= 'z' || 'A' <= c <= 'Z' }

  /** `[0-9A-F]`: the hexadecimal digits of an EUI-64 clock identity. */
  predicate IsUpperHex(c: char) { IsDigit(c) || 'A' <= c <= 'F' }

  /** `[0-9a-fA-F]`. */
  predicate IsHex(c: char) { IsUpperHex(c) || 'a' <= c <= 'f' }

  /** `[^\s=;]`: a character of a format parameter name. */
  predicate IsKeyChar(c: char) { !IsSpace(c) && c != '=' && c != ';' }

  /** `[^\s;]`: a character of a format parameter value. */
  predicate IsValueChar(c: char) { !IsSpace(c) && c != ';' }

  predicate StartsWith(s: string, prefix: string)
  {
    |prefix| <= |s| && s[..|prefix|] == prefix
  }

  /** Two prefixes that differ at some position cannot both start `s`. */
  lemma PrefixesDiffer(s: string, a: string, b: string, k: nat)
    requires StartsWith(s, a) && k < |a| && k < |b| && a[k] != b[k]
    ensures !StartsWith(s, b)
  {
    assert s[..|a|][k] == s[k];
    if |b| <= |s| {
      assert s[..|b|][k] == s[k];
    }
  }

  /** `w` occurs in `s` at position `i`. */
  predicate At(s: string, i: nat, w: string)
  {
    i + |w| <= |s| && s[i..i + |w|] == w
  }

  /** The two halves of a concatenation occur in it where they were put. */
  lemma AtHalves(a: string, b: string)
    ensures At(a + b, 0, a) && At(a + b, |a|, b)
  {
    assert (a + b)[0..|a|] == a;
    assert (a + b)[|a|..|a| + |b|] == b;
  }

  /** Text at `i` made of `a` then `b`. */
  lemma AtConcat(s: string, i: nat, a: string, b: string)
    requires At(s, i, a + b)
    ensures At(s, i, a) && At(s, i + |a|, b)
  {
    assert s[i..i + |a|] == (a + b)[..|a|];
    assert s[i + |a|..i + |a| + |b|] == (a + b)[|a|..];
  }

  /** A run of class `p` written at `i` and not followed by another
      character of the class is what `Span` measures. */
  /** A word written at `i` puts its first character there. */
  lemma AtFirst(s: string, i: nat, w: string)
    requires At(s, i, w) && |w| > 0
    ensures i < |s| && s[i] == w[0]
  {
    assert s[i..i + |w|][0] == s[i];
  }

  lemma {:induction false} SpanIs(s: string, i: nat, w: string, p: char -> bool)
    requires At(s, i, w) && All(w, p) && (i + |w| == |s| || !p(s[i + |w|]))
    ensures Span(s, i, p) == |w|
    decreases |w|
  {
    if |w| > 0 {
      assert s[i] == w[0] by { assert s[i..i + |w|][0] == s[i]; }
      assert At(s, i + 1, w[1..]) by { assert s[i + 1..i + |w|] == s[i..i + |w|][1..]; }
      assert All(w[1..], p) by {
        forall k | 0 <= k < |w| - 1 ensures p(w[1..][k]) { assert w[1..][k] == w[k + 1]; }
      }
      SpanIs(s, i + 1, w[1..], p);
    }
  }

  /** A word cannot occur where its first character does not. */
  lemma NotAtFirst(s: string, i: nat, w: string)
    requires |w| > 0 && (i < |s| ==> s[i] != w[0])
    ensures !At(s, i, w)
  {
    if i + |w| <= |s| { assert s[i..i + |w|][0] == s[i]; }
  }

  /** A line-ending character at `i` immediately followed by `w`: the shape
      `[\r\n]w` used by the rules that search the raw text. */
  predicate NewlineAt(s: string, i: nat, w: string)
  {
    i < |s| && IsNewline(s[i]) && At(s, i + 1, w)
  }

  predicate All(s: string, p: char -> bool)
  {
    forall k | 0 <= k < |s| :: p(s[k])
  }

  predicate AllDigits(s: string) { All(s, IsDigit) }

  /** The length of the longest run of characters satisfying `p` that starts
      at `i`: what a greedy `p+` or `p*` consumes there. */
  function Span(s: string, i: nat, p: char -> bool): (n: nat)
    requires i <= |s|
    ensures i + n <= |s|
    ensures i + n == |s| || !p(s[i + n])
    decreases |s| - i
  {
    if i < |s| && p(s[i]) then 1 + Span(s, i + 1, p) else 0
  }

  /** Every character of the run satisfies `p`. */
  lemma {:induction false} SpanChar(s: string, i: nat, p: char -> bool, k: nat)
    requires i <= |s| && i <= k < i + Span(s, i, p)
    ensures p(s[k])
    decreases k - i
  {
    if k > i {
      SpanChar(s, i + 1, p, k);
    }
  }

  lemma SpanChars(s: string, i: nat, p: char -> bool)
    requires i <= |s|
    ensures forall k | i <= k < i + Span(s, i, p) :: p(s[k])
  {
    forall k | i <= k < i + Span(s, i, p) ensures p(s[k]) { SpanChar(s, i, p, k); }
  }

  /** The run `Span` measures, as a slice. */
  lemma SpanSlice(s: string, i: nat, p: char -> bool)
    requires i <= |s|
    ensures All(s[i..i + Span(s, i, p)], p)
  {
    var w := s[i..i + Span(s, i, p)];
    forall k | 0 <= k < |w| ensures p(w[k]) {
      SpanChar(s, i, p, i + k);
      assert w[k] == s[i + k];
    }
  }

  lemma SpanAll(s: string, i: nat, p: char -> bool)
    requires i <= |s|
    ensures Span(s, i, p) == |s| - i <==> All(s[i..], p)
  {
    var n := Span(s, i, p);
    assert n < |s| - i ==> !p(s[i..][n]);
    if n == |s| - i {
      forall k | 0 <= k < |s[i..]| ensures p(s[i..][k]) { SpanChar(s, i, p, i + k); }
    }
  }

  function DigitValue(c: char): nat
  {
    if IsDigit(c) then c as int - '0' as int else 0
  }

  /** The number a string of decimal digits denotes (JavaScript's `+d` on
      such a string, read exactly). */
  function Value(d: string): nat
    decreases |d|
  {
    if |d| == 0 then 0 else 10 * Value(d[..|d| - 1]) + DigitValue(d[|d| - 1])
  }

  /** A digit string denotes zero exactly when every digit is '0'. */
  lemma {:induction false} ValueZero(d: string)
    requires AllDigits(d)
    ensures Value(d) == 0 <==> forall k | 0 <= k < |d| :: d[k] == '0'
    decreases |d|
  {
    if |d| > 0 {
      var init := d[..|d| - 1];
      assert AllDigits(init) by {
        forall k | 0 <= k < |init| ensures IsDigit(init[k]) { assert init[k] == d[k]; }
      }
      ValueZero(init);
      if Value(d) == 0 {
        forall k | 0 <= k < |d| ensures d[k] == '0' {
          if k < |d| - 1 { assert init[k] == d[k]; }
        }
      } else if Value(init) != 0 {
        var k :| 0 <= k < |init| && init[k] != '0';
        assert d[k] == init[k];
      } else {
        assert d[|d| - 1] != '0';
      }
    }
  }

  /** A digit string without a leading zero denotes at least 10^(n-1). */
  lemma {:induction false} ValueLowerBound(d: string)
    requires |d| >= 1 && AllDigits(d) && IsNonZeroDigit(d[0])
    ensures Value(d) >= Pow10(|d| - 1)
    decreases |d|
  {
    if |d| > 1 {
      var init := d[..|d| - 1];
      assert init[0] == d[0];
      assert AllDigits(init) by {
        forall k | 0 <= k < |init| ensures IsDigit(init[k]) { assert init[k] == d[k]; }
      }
      ValueLowerBound(init);
    }
  }

  function Pow10(n: nat): (p: nat)
    ensures p >= 1
  {
    if n == 0 then 1 else 10 * Pow10(n - 1)
  }

  /** The leftmost occurrence of `w` in `s` at or after `from`:
      JavaScript's `indexOf`, with `None` for -1. */
  function IndexOf(s: string, w: string, from: nat): (r: Option<nat>)
    ensures r.Some? ==> from <= r.value && At(s, r.value, w)
    ensures r.Some? ==> forall k | from <= k < r.value :: !At(s, k, w)
    ensures r.None? ==> forall k | from <= k <= |s| :: !At(s, k, w)
    decreases |s| - from
  {
    if from + |w| > |s| then None
    else if At(s, from, w) then Some(from)
    else IndexOf(s, w, from + 1)
  }

  predicate Contains(s: string, w: string)
  {
    exists k | 0 <= k <= |s| :: At(s, k, w)
  }

  lemma ContainsIndexOf(s: string, w: string)
    ensures Contains(s, w) <==> IndexOf(s, w, 0).Some?
  {
  }

  /** JavaScript's `trim`: drops leading and trailing `\s` characters. */
  function Trim(s: string): (r: string)
    ensures |r| <= |s|
    ensures |r| > 0 ==> IsNotSpace(r[0]) && IsNotSpace(r[|r| - 1])
    ensures (exists k | 0 <= k < |s| :: IsNotSpace(s[k])) <==> |r| > 0
  {
    var lead := Span(s, 0, IsSpace);
    var rest := s[lead..];
    if |rest| == 0 then
      SpanChars(s, 0, IsSpace);
      assert forall k | 0 <= k < |s| :: IsSpace(s[k]);
      ""
    else
      var r := TrimEnd(rest);
      assert IsNotSpace(s[lead]);
      r
  }

  /** Drops trailing `\s` characters of a string that starts with a
      non-space. */
  function TrimEnd(s: string): (r: string)
    requires |s| > 0 && IsNotSpace(s[0])
    ensures 0 < |r| <= |s| && r == s[..|r|]
    ensures IsNotSpace(r[|r| - 1])
    ensures forall k | |r| <= k < |s| :: IsSpace(s[k])
    decreases |s|
  {
    if IsSpace(s[|s| - 1]) then TrimEnd(s[..|s| - 1]) else s
  }

  lemma TrimUnchanged(s: string)
    requires |s| > 0 && IsNotSpace(s[0]) && IsNotSpace(s[|s| - 1])
    ensures Trim(s) == s
  {
  }

  /** `s.replace(/\s+/g, ' ')`: every maximal run of `\s` characters
      becomes one space. */
  function Collapse(s: string): (r: string)
    ensures |r| <= |s|
    decreases |s|
  {
    if |s| == 0 then ""
    else if IsSpace(s[0]) then
      var n := Span(s, 0, IsSpace);
      " " + Collapse(s[n..])
    else [s[0]] + Collapse(s[1..])
  }

  /** A word: a non-empty string with no `\s` character. */
  predicate IsWord(w: string)
  {
    |w| > 0 && All(w, IsNotSpace)
  }

  /** Words separated by single spaces. */
  function JoinWords(ws: seq<string>): string
  {
    if |ws| == 0 then ""
    else if |ws| == 1 then ws[0]
    else ws[0] + " " + JoinWords(ws[1..])
  }

  /** Collapsing whitespace leaves text made of words and single spaces
      unchanged. */
  lemma {:induction false} CollapseJoinWords(ws: seq<string>)
    requires forall k | 0 <= k < |ws| :: IsWord(ws[k])
    ensures Collapse(JoinWords(ws)) == JoinWords(ws)
    decreases |ws|
  {
    if |ws| == 1 {
      CollapseWord(ws[0], "");
      assert ws[0] + "" == ws[0];
    } else if |ws| > 1 {
      var tail := JoinWords(ws[1..]);
      CollapseJoinWords(ws[1..]);
      JoinWordsShape(ws[1..]);
      CollapseSpace(tail);
      CollapseWord(ws[0], " " + tail);
      JoinWordsCons(ws);
    }
  }

  lemma JoinWordsCons(ws: seq<string>)
    requires |ws| > 1
    ensures JoinWords(ws) == ws[0] + (" " + JoinWords(ws[1..]))
  {
  }

  /** A single space before a non-space is kept as it is. */
  lemma CollapseSpace(tail: string)
    requires |tail| > 0 && IsNotSpace(tail[0])
    ensures Collapse(" " + tail) == " " + Collapse(tail)
  {
    var t := " " + tail;
    assert t[1] == tail[0];
    assert Span(t, 0, IsSpace) == 1;
    assert t[1..] == tail;
  }

  /** Collapsing a word followed by `rest` keeps the word and collapses
      `rest`. */
  lemma {:induction false} CollapseWord(w: string, rest: string)
    requires All(w, IsNotSpace)
    ensures Collapse(w + rest) == w + Collapse(rest)
    decreases |w|
  {
    if |w| > 0 {
      var s := w + rest;
      assert s[0] == w[0];
      assert s[1..] == w[1..] + rest;
      assert All(w[1..], IsNotSpace) by {
        forall k | 0 <= k < |w[1..]| ensures IsNotSpace(w[1..][k]) { assert w[1..][k] == w[k + 1]; }
      }
      CollapseWord(w[1..], rest);
    } else {
      assert w + rest == rest;
    }
  }

  lemma {:induction false} JoinWordsShape(ws: seq<string>)
    requires |ws| > 0 && forall k | 0 <= k < |ws| :: IsWord(ws[k])
    ensures |JoinWords(ws)| > 0
    ensures IsNotSpace(JoinWords(ws)[0])
    ensures IsNotSpace(JoinWords(ws)[|JoinWords(ws)| - 1])
    ensures forall k | 0 <= k < |JoinWords(ws)| :: !IsNewline(JoinWords(ws)[k])
    decreases |ws|
  {
    var j := JoinWords(ws);
    if |ws| == 1 {
    } else {
      JoinWordsShape(ws[1..]);
      var tail := JoinWords(ws[1..]);
      assert j == ws[0] + " " + tail;
      assert j[0] == ws[0][0];
      assert j[|j| - 1] == tail[|tail| - 1];
      forall k | 0 <= k < |j| ensures !IsNewline(j[k]) {
        if k < |ws[0]| {
          assert j[k] == ws[0][k];
        } else if k > |ws[0]| {
          assert j[k] == tail[k - |ws[0]| - 1];
        }
      }
    }
  }
}
