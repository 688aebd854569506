/** Duplicate streams with separate source addresses (ST 2110-10 section
    8.3, RFC 7104 section 4.1): checkST2110.js:277-341. */
module SourceGroups {
  import opened Text
  import opened Patterns
  import opened Findings
  import opened Tracking

  /** checkST2110.js:277 `test_10_83_1`: with `duplicate` set, the text
      must show a duplication group. */
  function DuplicationTest(sdp: string, p: Params): (r: seq<Finding>)
    ensures |r| <= 1 && AllFrom(r, Test10_83_1)
    ensures |r| == 1 <==> p.duplicate && !HasDuplication(sdp)
    ensures forall i | 0 <= i < |r| :: r[i].kind == DuplicationMissing
  {
    if !p.duplicate || HasDuplication(sdp) then []
    else [Finding(Test10_83_1, DuplicationMissing, None, None)]
  }

  /** A media line followed, at least one character later, by an
      `a=ssrc-group:DUP` attribute satisfies the duplication rule. */
  lemma SourceGroupSatisfies(a: string, gap: string, b: string, p: Params)
    requires |gap| > 0
    ensures DuplicationTest(a + "\nm=" + gap + "a=ssrc-group:DUP" + b, p) == []
  {
    var s := a + "\nm=" + gap + "a=ssrc-group:DUP" + b;
    var i := |a|;
    var j := |a| + 3 + |gap|;
    assert s[i] == '\n';
    assert s[i + 1..i + 3] == "m=";
    assert s[j..j + 16] == "a=ssrc-group:DUP";
    assert NewlineAt(s, i, "m=") && At(s, j, "a=ssrc-group:DUP");
  }

  /** A session-level `a=group:DUP` attribute followed, at least one
      character later, by a media line satisfies the duplication rule. */
  lemma SessionGroupSatisfies(a: string, gap: string, b: string, p: Params)
    requires |gap| > 0
    ensures DuplicationTest(a + "\na=group:DUP" + gap + "m=" + b, p) == []
  {
    var s := a + "\na=group:DUP" + gap + "m=" + b;
    var i := |a|;
    var j := |a| + 12 + |gap|;
    assert s[i] == '\n';
    assert s[i + 1..i + 12] == "a=group:DUP";
    assert s[j..j + 2] == "m=";
    assert NewlineAt(s, i, "a=group:DUP") && At(s, j, "m=");
  }

  // ---------------------------------------------------------------------
  // `test_10_83_2`, first pass: the source identifiers of every stream

  predicate IsSsrcLine(l: string)
  {
    StartsWith(l, "a=ssrc:")
  }

  /** The source identifier an `a=ssrc:` line adds, read as a number. */
  function SsrcEntry(l: string): (r: Option<nat>)
    ensures r.Some? <==> IsSsrcLine(l) && SsrcOf(l).Some?
  {
    if IsSsrcLine(l) && SsrcOf(l).Some? then Some(Value(SsrcOf(l).value)) else None
  }

  /** The identifier each line declares, and the stream each line
      belongs to. */
  function Ids(lines: seq<string>): (r: seq<Option<nat>>)
    ensures |r| == |lines|
  {
    seq(|lines|, x requires 0 <= x < |lines| => SsrcEntry(lines[x]))
  }

  function StreamNumbers(lines: seq<string>): (r: seq<nat>)
    ensures |r| == |lines|
  {
    seq(|lines|, x requires 0 <= x < |lines| => StreamOf(lines, x))
  }

  /** The identifiers the first `n` entries declare for stream `k`, in
      order. */
  function ListFor(ids: seq<Option<nat>>, streams: seq<nat>, n: nat, k: nat): seq<nat>
    requires n <= |ids| == |streams|
    decreases n
  {
    if n == 0 then []
    else ListFor(ids, streams, n - 1, k) + (if streams[n - 1] == k && ids[n - 1].Some? then [ids[n - 1].value] else [])
  }

  /** The source identifiers of stream `k` among the first `n` lines, in
      order (stream 0 is the session part). */
  function SsrcList(lines: seq<string>, n: nat, k: nat): seq<nat>
    requires n <= |lines|
  {
    ListFor(Ids(lines), StreamNumbers(lines), n, k)
  }

  /** Entry `x` declares `v` for stream `k`. */
  predicate DeclaresAt(ids: seq<Option<nat>>, streams: seq<nat>, x: nat, k: nat, v: nat)
    requires x < |ids| == |streams|
  {
    streams[x] == k && ids[x].Some? && ids[x].value == v
  }

  lemma {:induction false} Listed(ids: seq<Option<nat>>, streams: seq<nat>, n: nat, k: nat, v: nat) returns (x: nat)
    requires n <= |ids| == |streams| && v in ListFor(ids, streams, n, k)
    ensures x < n && DeclaresAt(ids, streams, x, k, v)
    decreases n
  {
    if v in ListFor(ids, streams, n - 1, k) {
      x := Listed(ids, streams, n - 1, k, v);
    } else {
      x := n - 1;
    }
  }

  lemma {:induction false} Declared(ids: seq<Option<nat>>, streams: seq<nat>, n: nat, k: nat, v: nat, x: nat)
    requires x < n <= |ids| == |streams| && DeclaresAt(ids, streams, x, k, v)
    ensures v in ListFor(ids, streams, n, k)
    decreases n
  {
    if x < n - 1 {
      Declared(ids, streams, n - 1, k, v, x);
    }
  }

  /** Line `x` of stream `k` declares source identifier `v`. */
  predicate Declares(lines: seq<string>, x: nat, k: nat, v: nat)
    requires x < |lines|
  {
    StreamOf(lines, x) == k && SsrcEntry(lines[x]).Some? && SsrcEntry(lines[x]).value == v
  }

  /** A value is listed for stream `k` exactly when some line of stream
      `k` declares it. */
  lemma SsrcListIn(lines: seq<string>, n: nat, k: nat, v: nat)
    requires n <= |lines|
    ensures v in SsrcList(lines, n, k) <==> exists x | 0 <= x < n :: Declares(lines, x, k, v)
  {
    var ids := Ids(lines);
    var streams := StreamNumbers(lines);
    if v in SsrcList(lines, n, k) {
      var x := Listed(ids, streams, n, k, v);
      assert Declares(lines, x, k, v);
    }
    if exists x | 0 <= x < n :: Declares(lines, x, k, v) {
      var x :| 0 <= x < n && Declares(lines, x, k, v);
      assert DeclaresAt(ids, streams, x, k, v);
      Declared(ids, streams, n, k, v, x);
    }
  }

  /** A stream has no identifiers before its media line. */
  lemma {:induction false} SsrcListLater(lines: seq<string>, n: nat, k: nat)
    requires n <= |lines| && k > MediaCount(lines, n)
    ensures SsrcList(lines, n, k) == []
    decreases n
  {
    if n > 0 {
      SsrcListLater(lines, n - 1, k);
      assert StreamNumbers(lines)[n - 1] == MediaCount(lines, n);
    }
  }

  /** The error of an `a=ssrc:` line without a numeric identifier. */
  function SsrcErrorAt(lines: seq<string>, x: nat): seq<Finding>
    requires x < |lines|
  {
    if IsSsrcLine(lines[x]) && SsrcOf(lines[x]).None? then [Finding(Test10_83_2, SsrcNotInteger, Some(x + 1), None)] else []
  }

  function SsrcErrorsFrom(lines: seq<string>, x: nat): seq<Finding>
    requires x <= |lines|
    decreases |lines| - x
  {
    if x == |lines| then [] else SsrcErrorAt(lines, x) + SsrcErrorsFrom(lines, x + 1)
  }

  /** What the first loop of checkST2110.js:301-313 does to `ssrcs` at
      line `l`: a media line opens a new list, an `a=ssrc:` line with a
      numeric identifier adds it to the current (last) list. */
  function NextSsrcs(l: string, ssrcs: seq<seq<nat>>): (r: seq<seq<nat>>)
    requires |ssrcs| > 0
    ensures |r| == |ssrcs| + (if IsMedia(l) then 1 else 0)
  {
    var s := if IsMedia(l) then ssrcs + [[]] else ssrcs;
    var c := |s| - 1;
    if IsSsrcLine(l) && SsrcOf(l).Some? then s[c := s[c] + [Value(SsrcOf(l).value)]] else s
  }

  /** The first loop from line `x`: the final lists, and the errors of
      the lines without a numeric identifier. */
  function CollectFrom(lines: seq<string>, x: nat, ssrcs: seq<seq<nat>>): (seq<seq<nat>>, seq<Finding>)
    requires x <= |lines| && |ssrcs| > 0
    decreases |lines| - x
  {
    if x == |lines| then (ssrcs, [])
    else
      var r := CollectFrom(lines, x + 1, NextSsrcs(lines[x], ssrcs));
      (r.0, SsrcErrorAt(lines, x) + r.1)
  }

  /** The first pass's state at line `x`: one list per stream, each the
      identifiers declared so far. */
  predicate Collected(lines: seq<string>, x: nat, ssrcs: seq<seq<nat>>)
    requires x <= |lines|
  {
    |ssrcs| == MediaCount(lines, x) + 1 && forall k | 0 <= k < |ssrcs| :: ssrcs[k] == SsrcList(lines, x, k)
  }

  /** One step of the first loop keeps its state as described. */
  lemma CollectStep(lines: seq<string>, x: nat, ssrcs: seq<seq<nat>>)
    requires x < |lines| && Collected(lines, x, ssrcs)
    ensures Collected(lines, x + 1, NextSsrcs(lines[x], ssrcs))
  {
    var l := lines[x];
    var s' := NextSsrcs(l, ssrcs);
    var c := |s'| - 1;
    assert c == MediaCount(lines, x + 1) == StreamOf(lines, x);
    if IsMedia(l) {
      SsrcListLater(lines, x, c);
    }
    forall k | 0 <= k < |s'| ensures s'[k] == SsrcList(lines, x + 1, k) {
      assert Ids(lines)[x] == SsrcEntry(l) && StreamNumbers(lines)[x] == StreamOf(lines, x);
    }
  }

  /** The first pass computes the per-stream lists and the per-line
      errors. */
  lemma {:induction false} CollectFromLists(lines: seq<string>, x: nat, ssrcs: seq<seq<nat>>)
    requires x <= |lines| && Collected(lines, x, ssrcs)
    ensures Collected(lines, |lines|, CollectFrom(lines, x, ssrcs).0)
    ensures CollectFrom(lines, x, ssrcs).1 == SsrcErrorsFrom(lines, x)
    decreases |lines| - x
  {
    if x < |lines| {
      CollectStep(lines, x, ssrcs);
      CollectFromLists(lines, x + 1, NextSsrcs(lines[x], ssrcs));
    }
  }

  // ---------------------------------------------------------------------
  // Second pass: every `a=ssrc-group` line of a stream

  /** What line `x` adds in the second loop (checkST2110.js:316-333).
      The loop's counter after line `x` is `StreamOf(lines, x)`; lines
      before the first media line are passed over. */
  function GroupCheckAt(lines: seq<string>, x: nat, ssrcs: seq<seq<nat>>): (r: seq<Finding>)
    requires x < |lines| && |ssrcs| > MediaCount(lines, |lines|)
    ensures forall i | 0 <= i < |r| :: r[i].line == Some(x + 1) && r[i].rule == Test10_83_2
  {
    var l := lines[x];
    var k := StreamOf(lines, x);
    if !StartsWith(l, "a=ssrc-group") || k == 0 then []
    else
      match SsrcGroupOf(l)
      case None => [Finding(Test10_83_2, SsrcGroupPattern, Some(x + 1), None)]
      case Some((a, b)) =>
        (if Value(a) !in ssrcs[k] then [Finding(Test10_83_2, UnknownSsrc(a), Some(x + 1), Some(k))] else [])
        + (if Value(b) !in ssrcs[k] then [Finding(Test10_83_2, UnknownSsrc(b), Some(x + 1), Some(k))] else [])
  }

  /** The second loop: every line's findings, in line order. */
  function GroupChecks(lines: seq<string>, ssrcs: seq<seq<nat>>): (r: seq<seq<Finding>>)
    requires |ssrcs| > MediaCount(lines, |lines|)
    ensures |r| == |lines| && LineTagged(r)
    ensures forall y | 0 <= y < |r| :: AllFrom(r[y], Test10_83_2)
  {
    seq(|lines|, x requires 0 <= x < |lines| => GroupCheckAt(lines, x, ssrcs))
  }

  /** An `a=ssrc-group:DUP` line of a stream cites each identifier the
      stream does not declare. */
  lemma UnknownAt(lines: seq<string>, y: nat, ssrcs: seq<seq<nat>>, id: string, k: nat)
    requires y < |lines| && |ssrcs| > MediaCount(lines, |lines|)
    ensures Finding(Test10_83_2, UnknownSsrc(id), Some(y + 1), Some(k)) in GroupCheckAt(lines, y, ssrcs) <==>
      && StartsWith(lines[y], "a=ssrc-group") && k == StreamOf(lines, y) && k > 0
      && SsrcGroupOf(lines[y]).Some?
      && (id == SsrcGroupOf(lines[y]).value.0 || id == SsrcGroupOf(lines[y]).value.1)
      && Value(id) !in ssrcs[k]
  {
  }

  /** The errors of the first loop cite only `a=ssrc:` lines. */
  lemma {:induction false} SsrcErrorsKind(lines: seq<string>, x: nat)
    requires x <= |lines|
    ensures forall i | 0 <= i < |SsrcErrorsFrom(lines, x)| ::
      SsrcErrorsFrom(lines, x)[i].kind == SsrcNotInteger && SsrcErrorsFrom(lines, x)[i].rule == Test10_83_2
    decreases |lines| - x
  {
    if x < |lines| {
      SsrcErrorsKind(lines, x + 1);
    }
  }

  /** checkST2110.js:293 `test_10_83_2` on the text and its lines: the
      rule applies only when the text holds `a=ssrc-group`. */
  function SourceGroupTest(sdp: string, lines: seq<string>): (r: seq<Finding>)
    ensures !Contains(sdp, "a=ssrc-group") ==> r == []
    ensures AllFrom(r, Test10_83_2)
  {
    if !Contains(sdp, "a=ssrc-group") then []
    else
      var pass := CollectFrom(lines, 0, [[]]);
      CollectFromLists(lines, 0, [[]]);
      SsrcErrorsKind(lines, 0);
      FlattenAll(GroupChecks(lines, pass.0), 0, Test10_83_2);
      pass.1 + FlattenFrom(GroupChecks(lines, pass.0), 0)
  }

  /** The rule cites identifier `id` on line `y + 1` of stream `k` exactly
      when that line is an `a=ssrc-group:DUP` line of stream `k` naming
      `id`, and no `a=ssrc:` line of stream `k`, before or after it,
      declares that number. */
  lemma UnknownSsrcIff(sdp: string, lines: seq<string>, y: nat, id: string, k: nat)
    requires Contains(sdp, "a=ssrc-group")
    ensures Finding(Test10_83_2, UnknownSsrc(id), Some(y + 1), Some(k)) in SourceGroupTest(sdp, lines) <==>
      && y < |lines| && StartsWith(lines[y], "a=ssrc-group") && k == StreamOf(lines, y) && k > 0
      && SsrcGroupOf(lines[y]).Some?
      && (id == SsrcGroupOf(lines[y]).value.0 || id == SsrcGroupOf(lines[y]).value.1)
      && !(exists x | 0 <= x < |lines| :: Declares(lines, x, k, Value(id)))
  {
    var f := Finding(Test10_83_2, UnknownSsrc(id), Some(y + 1), Some(k));
    var pass := CollectFrom(lines, 0, [[]]);
    CollectFromLists(lines, 0, [[]]);
    SsrcErrorsKind(lines, 0);
    assert f !in pass.1;
    FlattenHas(GroupChecks(lines, pass.0), 0, f, y);
    if y < |lines| {
      UnknownAt(lines, y, pass.0, id, k);
      if k < |pass.0| {
        SsrcListIn(lines, |lines|, k, Value(id));
      }
    }
  }
}
