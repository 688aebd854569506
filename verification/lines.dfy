/** The line model: the SDP text as the sequence of its non-empty lines, and
    as the pieces between media markers (checkST2110.js:16 and the
    `sdp.split(/[\r\n]m=/)` slicing used by the stream rules). */
module SdpLines {
  import opened Text

  /** A line as `splitLines` produces it: non-empty, without line endings. */
  predicate IsLine(l: string)
  {
    |l| > 0 && All(l, IsNotNewline)
  }

  /** The text holds at least one character that is not a line ending;
      `splitLines` returns `null` for any other text. */
  predicate HasLine(sdp: string)
  {
    exists k | 0 <= k < |sdp| :: IsNotNewline(sdp[k])
  }

  /** `sdp.match(/[^\r\n]+/g)` without the `null` case: the maximal runs of
      characters that are not line endings, in order. */
  function Runs(s: string): (r: seq<string>)
    ensures forall i | 0 <= i < |r| :: IsLine(r[i])
    ensures |r| > 0 <==> HasLine(s)
    decreases |s|
  {
    if |s| == 0 then []
    else if IsNewline(s[0]) then
      var r := Runs(s[1..]);
      assert HasLine(s) <==> HasLine(s[1..]) by {
        if HasLine(s) {
          var k :| 0 <= k < |s| && IsNotNewline(s[k]);
          assert s[1..][k - 1] == s[k];
        }
        if HasLine(s[1..]) {
          var k :| 0 <= k < |s[1..]| && IsNotNewline(s[1..][k]);
          assert s[k + 1] == s[1..][k];
        }
      }
      r
    else
      var n := Span(s, 0, IsNotNewline);
      assert All(s[..n], IsNotNewline) by {
        forall k | 0 <= k < n ensures IsNotNewline(s[..n][k]) {
          SpanChar(s, 0, IsNotNewline, k);
          assert s[..n][k] == s[k];
        }
      }
      [s[..n]] + Runs(s[n..])
  }

  /** checkST2110.js:16 `splitLines`. The source returns `null` for a text
      made only of line endings, which every caller then dereferences; the
      model makes a line-bearing text a precondition instead. */
  function SplitLines(sdp: string): (lines: seq<string>)
    requires HasLine(sdp)
    ensures |lines| >= 1
    ensures forall i | 0 <= i < |lines| :: IsLine(lines[i])
  {
    Runs(sdp)
  }

  /** The text with every line-ending character removed. */
  function DropNewlines(s: string): string
    decreases |s|
  {
    if |s| == 0 then ""
    else if IsNewline(s[0]) then DropNewlines(s[1..])
    else [s[0]] + DropNewlines(s[1..])
  }

  function Flatten(ls: seq<string>): string
  {
    if |ls| == 0 then "" else ls[0] + Flatten(ls[1..])
  }

  lemma {:induction false} DropNewlinesLine(l: string, rest: string)
    requires All(l, IsNotNewline)
    ensures DropNewlines(l + rest) == l + DropNewlines(rest)
    decreases |l|
  {
    if |l| == 0 {
      assert l + rest == rest;
    } else {
      assert (l + rest)[0] == l[0];
      assert (l + rest)[1..] == l[1..] + rest;
      assert All(l[1..], IsNotNewline) by {
        forall k | 0 <= k < |l[1..]| ensures IsNotNewline(l[1..][k]) { assert l[1..][k] == l[k + 1]; }
      }
      DropNewlinesLine(l[1..], rest);
    }
  }

  /** The lines hold exactly the text's characters other than line endings,
      in order: nothing is lost or invented by the split. */
  lemma {:induction false} RunsKeepText(s: string)
    ensures Flatten(Runs(s)) == DropNewlines(s)
    decreases |s|
  {
    if |s| == 0 {
    } else if IsNewline(s[0]) {
      RunsKeepText(s[1..]);
    } else {
      var n := Span(s, 0, IsNotNewline);
      assert All(s[..n], IsNotNewline) by {
        forall k | 0 <= k < n ensures IsNotNewline(s[..n][k]) {
          SpanChar(s, 0, IsNotNewline, k);
          assert s[..n][k] == s[k];
        }
      }
      RunsKeepText(s[n..]);
      var r := Runs(s);
      assert r == [s[..n]] + Runs(s[n..]);
      assert r[1..] == Runs(s[n..]);
      assert s == s[..n] + s[n..];
      DropNewlinesLine(s[..n], s[n..]);
    }
  }

  /** Lines joined with a single line feed. */
  function JoinLines(ls: seq<string>): string
  {
    if |ls| == 0 then ""
    else if |ls| == 1 then ls[0]
    else ls[0] + "\n" + JoinLines(ls[1..])
  }

  /** Splitting lines joined by line feeds gives the lines back. */
  lemma {:induction false} SplitJoinLines(ls: seq<string>)
    requires forall i | 0 <= i < |ls| :: IsLine(ls[i])
    ensures Runs(JoinLines(ls)) == ls
    decreases |ls|
  {
    if |ls| == 0 {
    } else {
      var l := ls[0];
      var rest := if |ls| == 1 then "" else "\n" + JoinLines(ls[1..]);
      var s := JoinLines(ls);
      assert s == l + rest;
      var n := Span(s, 0, IsNotNewline);
      assert s[0] == l[0];
      assert n == |l| by {
        forall k | 0 <= k < |l| ensures s[k] == l[k] { }
        SpanPrefix(s, l);
        if |ls| > 1 { assert s[|l|] == '\n'; }
      }
      assert s[..n] == l;
      assert s[n..] == rest;
      if |ls| > 1 {
        var j := JoinLines(ls[1..]);
        assert rest[1..] == j;
        assert Runs(rest) == Runs(j);
        SplitJoinLines(ls[1..]);
      }
    }
  }

  /** Lines joined by line feeds start with the first line's first
      character and end with the last line's last character. */
  lemma {:induction false} JoinLinesEnds(ls: seq<string>)
    requires |ls| > 0 && forall i | 0 <= i < |ls| :: |ls[i]| > 0
    ensures |JoinLines(ls)| > 0
    ensures JoinLines(ls)[0] == ls[0][0]
    ensures JoinLines(ls)[|JoinLines(ls)| - 1] == ls[|ls| - 1][|ls[|ls| - 1]| - 1]
    decreases |ls|
  {
    if |ls| > 1 {
      JoinLinesEnds(ls[1..]);
      var j := JoinLines(ls[1..]);
      assert JoinLines(ls) == ls[0] + "\n" + j;
      assert ls[1..][|ls| - 2] == ls[|ls| - 1];
    }
  }

  lemma SpanPrefix(s: string, l: string)
    requires All(l, IsNotNewline) && |l| <= |s| && s[..|l|] == l
    requires |l| == |s| || IsNewline(s[|l|])
    ensures Span(s, 0, IsNotNewline) == |l|
  {
    var n := Span(s, 0, IsNotNewline);
    if n > |l| {
      SpanChar(s, 0, IsNotNewline, |l|);
    }
  }

  /** `sdp.split(/[\r\n]m=/)`: the text cut at every line-ending character
      followed by `m=`, the three separator characters dropped. Element 0 is
      the session-level part; element `s` (from 1) is stream `s` starting
      just after its `m=`. */
  function SplitStreams(sdp: string): (pieces: seq<string>)
    ensures |pieces| >= 1
  {
    SplitFrom(sdp, 0, 0)
  }

  function SplitFrom(s: string, start: nat, i: nat): (pieces: seq<string>)
    requires start <= i <= |s|
    ensures |pieces| >= 1
    decreases |s| - i
  {
    if i == |s| then [s[start..]]
    else if NewlineAt(s, i, "m=") then [s[start..i]] + SplitFrom(s, i + 3, i + 3)
    else SplitFrom(s, start, i + 1)
  }

  /** The line-ending character of each separator `SplitStreams` removed. */
  function SeparatorsFrom(s: string, start: nat, i: nat): seq<char>
    requires start <= i <= |s|
    decreases |s| - i
  {
    if i == |s| then []
    else if NewlineAt(s, i, "m=") then [s[i]] + SeparatorsFrom(s, i + 3, i + 3)
    else SeparatorsFrom(s, start, i + 1)
  }

  /** Puts the pieces back together, each separator restored. */
  function Rejoin(pieces: seq<string>, seps: seq<char>): string
    requires |pieces| == |seps| + 1
  {
    if |seps| == 0 then pieces[0]
    else pieces[0] + [seps[0]] + "m=" + Rejoin(pieces[1..], seps[1..])
  }

  /** No piece still holds a separator. */
  predicate SeparatorFree(p: string)
  {
    forall k | 0 <= k < |p| :: !NewlineAt(p, k, "m=")
  }

  /** The stream split loses nothing: restoring the separators gives the
      text back. */
  lemma {:induction false} SplitFromRejoin(s: string, start: nat, i: nat)
    requires start <= i <= |s|
    ensures |SplitFrom(s, start, i)| == |SeparatorsFrom(s, start, i)| + 1
    ensures Rejoin(SplitFrom(s, start, i), SeparatorsFrom(s, start, i)) == s[start..]
    decreases |s| - i
  {
    if i == |s| {
    } else if NewlineAt(s, i, "m=") {
      SplitFromRejoin(s, i + 3, i + 3);
      var pieces := SplitFrom(s, start, i);
      var seps := SeparatorsFrom(s, start, i);
      assert pieces == [s[start..i]] + SplitFrom(s, i + 3, i + 3);
      assert seps == [s[i]] + SeparatorsFrom(s, i + 3, i + 3);
      assert pieces[1..] == SplitFrom(s, i + 3, i + 3);
      assert seps[1..] == SeparatorsFrom(s, i + 3, i + 3);
      SliceAroundSeparator(s, start, i);
    } else {
      SplitFromRejoin(s, start, i + 1);
    }
  }

  lemma SliceAroundSeparator(s: string, start: nat, i: nat)
    requires start <= i && NewlineAt(s, i, "m=")
    ensures s[start..] == s[start..i] + [s[i]] + "m=" + s[i + 3..]
  {
    assert s[i + 1..i + 3] == "m=";
    assert s[i..] == [s[i]] + s[i + 1..i + 3] + s[i + 3..];
    assert s[start..] == s[start..i] + s[i..];
  }

  /** No piece of the stream split could have been split further. */
  lemma {:induction false} SplitFromSeparatorFree(s: string, start: nat, i: nat)
    requires start <= i <= |s|
    requires forall k | start <= k < i :: !NewlineAt(s, k, "m=")
    ensures forall j | 0 <= j < |SplitFrom(s, start, i)| :: SeparatorFree(SplitFrom(s, start, i)[j])
    decreases |s| - i
  {
    if i == |s| {
      SeparatorFreePiece(s, start, i);
      assert s[start..] == s[start..i];
    } else if NewlineAt(s, i, "m=") {
      SplitFromSeparatorFree(s, i + 3, i + 3);
      SeparatorFreePiece(s, start, i);
      assert SplitFrom(s, start, i)[1..] == SplitFrom(s, i + 3, i + 3);
    } else {
      SplitFromSeparatorFree(s, start, i + 1);
    }
  }

  lemma SeparatorFreePiece(s: string, start: nat, i: nat)
    requires start <= i <= |s|
    requires forall k | start <= k < i :: !NewlineAt(s, k, "m=")
    ensures SeparatorFree(s[start..i])
  {
    var p := s[start..i];
    forall k | 0 <= k < |p| ensures !NewlineAt(p, k, "m=") {
      if NewlineAt(p, k, "m=") {
        assert p[k] == s[start + k];
        assert p[k + 1] == 'm' && p[k + 2] == '=' by { assert p[k + 1..k + 3] == "m="; }
        assert s[start + k + 1] == 'm' && s[start + k + 2] == '=';
        assert s[start + k + 1..start + k + 3] == "m=";
        assert NewlineAt(s, start + k, "m=");
      }
    }
  }

  lemma SplitStreamsRejoin(sdp: string)
    ensures |SplitStreams(sdp)| == |SeparatorsFrom(sdp, 0, 0)| + 1
    ensures Rejoin(SplitStreams(sdp), SeparatorsFrom(sdp, 0, 0)) == sdp
    ensures forall j | 0 <= j < |SplitStreams(sdp)| :: SeparatorFree(SplitStreams(sdp)[j])
  {
    SplitFromRejoin(sdp, 0, 0);
    SplitFromSeparatorFree(sdp, 0, 0);
  }

  /** The streams of `sdp.split(/[\r\n]m=/).slice(1)`. */
  function Streams(sdp: string): seq<string>
  {
    SplitStreams(sdp)[1..]
  }
}
