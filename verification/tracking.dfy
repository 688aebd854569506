/** What the line-by-line rules of checkST2110.js keep track of while they
    walk the lines: the media line that opened the current stream, the
    stream counter, and whether some kind of line has already been seen in
    the current stream. Here each is defined from the lines alone, without
    a loop, so that every loop of the rule modules can be proved to keep
    exactly this state. */
module Tracking {
  import opened Text
  import opened Patterns

  /** A line that starts a media description. */
  predicate IsMedia(l: string)
  {
    StartsWith(l, "m=")
  }

  /** The last media line before line `x`. */
  function LastMedia(lines: seq<string>, x: nat): (r: Option<nat>)
    requires x <= |lines|
    ensures r.Some? ==> r.value < x && IsMedia(lines[r.value])
    ensures r.Some? ==> forall k | r.value < k < x :: !IsMedia(lines[k])
    ensures r.None? ==> forall k | 0 <= k < x :: !IsMedia(lines[k])
    decreases x
  {
    if x == 0 then None
    else if IsMedia(lines[x - 1]) then Some(x - 1)
    else LastMedia(lines, x - 1)
  }

  /** The first line of the current stream at line `x` (0 in the session
      part). */
  function StreamStart(lines: seq<string>, x: nat): (s: nat)
    requires x <= |lines|
    ensures s <= x
  {
    match LastMedia(lines, x)
    case None => 0
    case Some(k) => k + 1
  }

  /** The number of media lines before line `x`: the stream counter every
      loop increments at each `m=` line. */
  function MediaCount(lines: seq<string>, x: nat): nat
    requires x <= |lines|
  {
    if x == 0 then 0 else MediaCount(lines, x - 1) + (if IsMedia(lines[x - 1]) then 1 else 0)
  }

  /** `+match[4]` of the media pattern of `kind` on a media line, or -1
      when it does not match: the payload type the loops keep. */
  function PayloadOf(kind: string, l: string): (pt: int)
    ensures pt >= 0 <==> MediaOf(kind, l).Some?
  {
    match MediaOf(kind, l)
    case None => -1
    case Some(m) => Value(m.pt)
  }

  /** The payload type and stream number in force at line `x`. */
  datatype Cursor = Cursor(pt: int, stream: nat)

  /** The state every loop starts from: no payload type, stream 0. */
  const Start := Cursor(-1, 0)

  /** The state in force at line `x`, read off the lines before it: the
      payload type of the last media line, and how many media lines there
      were. */
  function CursorAt(kind: string, lines: seq<string>, x: nat): (c: Cursor)
    requires x <= |lines|
    ensures c.pt >= 0 ==> LastMedia(lines, x).Some?
  {
    var pt := match LastMedia(lines, x) case None => -1 case Some(k) => PayloadOf(kind, lines[k]);
    Cursor(pt, MediaCount(lines, x))
  }

  /** What a loop does to the cursor at line `x`. */
  function Advance(kind: string, c: Cursor, l: string): Cursor
  {
    if IsMedia(l) then Cursor(PayloadOf(kind, l), c.stream + 1) else c
  }

  /** Stepping the cursor over a line gives the cursor of the next line. */
  lemma CursorStep(kind: string, lines: seq<string>, x: nat)
    requires x < |lines|
    ensures CursorAt(kind, lines, x + 1) == Advance(kind, CursorAt(kind, lines, x), lines[x])
  {
  }

  /** Before any line the cursor is the starting one. */
  lemma CursorFirst(kind: string, lines: seq<string>)
    ensures CursorAt(kind, lines, 0) == Start
  {
  }

  /** Some line of the current stream before `x` satisfies `mark`. */
  predicate SeenInStream(lines: seq<string>, x: nat, mark: string -> bool)
    requires x <= |lines|
  {
    exists j | StreamStart(lines, x) <= j < x :: mark(lines[j])
  }

  /** A media line clears the flag; any other line sets it when it is
      marked and otherwise leaves it. */
  lemma SeenStep(lines: seq<string>, x: nat, mark: string -> bool)
    requires x < |lines|
    ensures SeenInStream(lines, x + 1, mark) ==
      if IsMedia(lines[x]) then false else SeenInStream(lines, x, mark) || mark(lines[x])
  {
    if !IsMedia(lines[x]) {
      assert StreamStart(lines, x + 1) == StreamStart(lines, x);
      if SeenInStream(lines, x + 1, mark) && !mark(lines[x]) {
        var j :| StreamStart(lines, x + 1) <= j < x + 1 && mark(lines[j]);
        assert j < x;
      }
    }
  }

  /** Some line before `x` is a media line. */
  predicate AfterMedia(lines: seq<string>, x: nat)
    requires x <= |lines|
  {
    exists k | 0 <= k < x :: IsMedia(lines[k])
  }

  /** The media-level flag of the reference clock rules is set by the
      first media line and stays set. */
  lemma AfterMediaStep(lines: seq<string>, x: nat)
    requires x < |lines|
    ensures AfterMedia(lines, x + 1) == (AfterMedia(lines, x) || IsMedia(lines[x]))
  {
    if AfterMedia(lines, x + 1) && !IsMedia(lines[x]) {
      var k :| 0 <= k < x + 1 && IsMedia(lines[k]);
      assert k < x;
    }
  }

  /** The stream a line belongs to: the counter after the line itself is
      counted, so a media line belongs to the stream it opens. */
  function StreamOf(lines: seq<string>, x: nat): (k: nat)
    requires x < |lines|
    ensures k <= MediaCount(lines, |lines|)
  {
    MediaCountMono(lines, x + 1, |lines|);
    MediaCount(lines, x + 1)
  }

  /** The stream counter never goes down. */
  lemma {:induction false} MediaCountMono(lines: seq<string>, x: nat, y: nat)
    requires x <= y <= |lines|
    ensures MediaCount(lines, x) <= MediaCount(lines, y)
    decreases y - x
  {
    if x < y {
      MediaCountMono(lines, x, y - 1);
    }
  }
}
