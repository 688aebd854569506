/** Duplicate streams with separate destination addresses (ST 2110-10
    section 8.3, RFC 7104 section 4.2, RFC 5888 section 4):
    checkST2110.js:343-399. */
module DestinationGroups {
  import opened Text
  import opened Patterns
  import opened Findings
  import opened Tracking

  // ---------------------------------------------------------------------
  // First loop: the media identifiers

  /** JavaScript's truth value of `mids[i]`: present and not empty. */
  predicate HasMidAt(mids: seq<string>, i: nat)
  {
    i < |mids| && mids[i] != ""
  }

  predicate IsMidLine(l: string)
  {
    StartsWith(l, "a=mid:")
  }

  /** The media identifier an `a=mid:` line names. */
  function MidOf(l: string): string
    requires IsMidLine(l)
  {
    l[6..]
  }

  /** The first loop of checkST2110.js:353-369 from line `x`. `mids` is
      the source's array: a media line whose stream counter does not
      index a non-empty entry pushes an empty placeholder, and each new
      identifier is pushed at the end. Returns the final array and the
      errors. */
  function MidsFrom(lines: seq<string>, x: nat, mids: seq<string>, counter: nat): (r: (seq<string>, seq<Finding>))
    requires x <= |lines|
    ensures forall i | 0 <= i < |r.1| :: r.1[i].rule == Test10_83_3
    ensures forall i | 0 <= i < |r.1| :: r.1[i].kind.DuplicateMid? || r.1[i].kind.TwoMids?
    ensures forall i | 0 <= i < |r.1| :: r.1[i].line.Some? && x < r.1[i].line.value <= |lines|
    decreases |lines| - x
  {
    if x == |lines| then (mids, [])
    else
      var l := lines[x];
      var m := if IsMedia(l) && !HasMidAt(mids, counter) then mids + [""] else mids;
      var c := if IsMedia(l) then counter + 1 else counter;
      if !IsMidLine(l) then MidsFrom(lines, x + 1, m, c)
      else if MidOf(l) in m then
        var r := MidsFrom(lines, x + 1, m, c);
        (r.0, [Finding(Test10_83_3, DuplicateMid(MidOf(l)), Some(x + 1), None)] + r.1)
      else if HasMidAt(m, c) then
        var r := MidsFrom(lines, x + 1, m, c);
        (r.0, [Finding(Test10_83_3, TwoMids(MidOf(l), m[c]), Some(x + 1), None)] + r.1)
      else MidsFrom(lines, x + 1, m + [MidOf(l)], c)
  }

  /** No identifier other than the placeholder occurs twice. */
  predicate Distinct(mids: seq<string>)
  {
    forall i, j | 0 <= i < j < |mids| :: mids[i] == mids[j] ==> mids[i] == ""
  }

  /** The first loop never records an identifier twice. */
  lemma {:induction false} MidsDistinct(lines: seq<string>, x: nat, mids: seq<string>, counter: nat)
    requires x <= |lines| && Distinct(mids)
    ensures Distinct(MidsFrom(lines, x, mids, counter).0)
    decreases |lines| - x
  {
    if x < |lines| {
      var l := lines[x];
      var m := if IsMedia(l) && !HasMidAt(mids, counter) then mids + [""] else mids;
      var c := if IsMedia(l) then counter + 1 else counter;
      assert Distinct(m);
      if IsMidLine(l) && MidOf(l) !in m && !HasMidAt(m, c) {
        var m' := m + [MidOf(l)];
        assert forall i | 0 <= i < |m| :: m'[i] == m[i];
        MidsDistinct(lines, x + 1, m', c);
      } else {
        MidsDistinct(lines, x + 1, m, c);
      }
    }
  }

  /** Some line from `x` on is the `a=mid:` line naming `mid`. */
  predicate NamedFrom(lines: seq<string>, x: nat, mid: string)
    requires x <= |lines|
  {
    exists y | x <= y < |lines| :: IsMidLine(lines[y]) && MidOf(lines[y]) == mid
  }

  /** Every identifier the first loop records was named by an `a=mid:`
      line. */
  lemma {:induction false} MidsNamed(lines: seq<string>, x: nat, mids: seq<string>, counter: nat, mid: string)
    requires x <= |lines| && mid != "" && mid in MidsFrom(lines, x, mids, counter).0
    ensures mid in mids || NamedFrom(lines, x, mid)
    decreases |lines| - x
  {
    if x < |lines| {
      var l := lines[x];
      var m := if IsMedia(l) && !HasMidAt(mids, counter) then mids + [""] else mids;
      var c := if IsMedia(l) then counter + 1 else counter;
      var m' := if IsMidLine(l) && MidOf(l) !in m && !HasMidAt(m, c) then m + [MidOf(l)] else m;
      assert MidsFrom(lines, x, mids, counter).0 == MidsFrom(lines, x + 1, m', c).0;
      MidsNamed(lines, x + 1, m', c, mid);
      if NamedFrom(lines, x + 1, mid) {
        var y :| x + 1 <= y < |lines| && IsMidLine(lines[y]) && MidOf(lines[y]) == mid;
      }
    }
  }

  /** The array only grows. */
  lemma {:induction false} MidsGrow(lines: seq<string>, x: nat, mids: seq<string>, counter: nat, mid: string)
    requires x <= |lines| && mid in mids
    ensures mid in MidsFrom(lines, x, mids, counter).0
    decreases |lines| - x
  {
    if x < |lines| {
      var l := lines[x];
      var m := if IsMedia(l) && !HasMidAt(mids, counter) then mids + [""] else mids;
      var c := if IsMedia(l) then counter + 1 else counter;
      var m' := if IsMidLine(l) && MidOf(l) !in m && !HasMidAt(m, c) then m + [MidOf(l)] else m;
      assert MidsFrom(lines, x, mids, counter).0 == MidsFrom(lines, x + 1, m', c).0;
      assert mid in m';
      MidsGrow(lines, x + 1, m', c, mid);
    }
  }

  /** Some finding of `fs` cites line `n` for a second identifier. */
  predicate CitesTwoMids(fs: seq<Finding>, n: nat)
  {
    exists i | 0 <= i < |fs| :: fs[i].line == Some(n) && fs[i].kind.TwoMids?
  }

  lemma CitesTwoMidsAppend(a: seq<Finding>, b: seq<Finding>, n: nat)
    requires CitesTwoMids(b, n)
    ensures CitesTwoMids(a + b, n)
  {
    var i :| 0 <= i < |b| && b[i].line == Some(n) && b[i].kind.TwoMids?;
    assert (a + b)[|a| + i] == b[i];
  }

  /** Every `a=mid:` line's identifier is recorded, unless the line is
      cited for naming a second identifier of its stream. */
  lemma {:induction false} MidsAccounted(lines: seq<string>, x: nat, mids: seq<string>, counter: nat, y: nat)
    requires x <= y < |lines| && IsMidLine(lines[y])
    ensures MidOf(lines[y]) in MidsFrom(lines, x, mids, counter).0 ||
      CitesTwoMids(MidsFrom(lines, x, mids, counter).1, y + 1)
    decreases |lines| - x, 1
  {
    if y == x {
      MidAccountedHere(lines, x, mids, counter);
    } else {
      MidsAccountedLater(lines, x, mids, counter, y);
    }
  }

  lemma {:induction false} MidsAccountedLater(lines: seq<string>, x: nat, mids: seq<string>, counter: nat, y: nat)
    requires x < y < |lines| && IsMidLine(lines[y])
    ensures MidOf(lines[y]) in MidsFrom(lines, x, mids, counter).0 ||
      CitesTwoMids(MidsFrom(lines, x, mids, counter).1, y + 1)
    decreases |lines| - x, 0
  {
    var m', c := MidsNext(lines, x, mids, counter);
    MidsAccounted(lines, x + 1, m', c, y);
    AccountedStep(MidOf(lines[y]), MidsFrom(lines, x, mids, counter), MidsFrom(lines, x + 1, m', c), y + 1);
  }

  /** What the rest of the loop accounts for, the loop accounts for. */
  lemma AccountedStep(mid: string, r: (seq<string>, seq<Finding>), rest: (seq<string>, seq<Finding>), n: nat)
    requires r.0 == rest.0 && |rest.1| <= |r.1| && r.1 == r.1[..|r.1| - |rest.1|] + rest.1
    requires mid in rest.0 || CitesTwoMids(rest.1, n)
    ensures mid in r.0 || CitesTwoMids(r.1, n)
  {
    if mid !in rest.0 {
      CitesTwoMidsAppend(r.1[..|r.1| - |rest.1|], rest.1, n);
    }
  }

  /** One step of the first loop: the array and counter it moves to, the
      final array is the next step's, and the errors are the next step's
      after at most one. */
  lemma MidsStep(lines: seq<string>, x: nat, mids: seq<string>, counter: nat) returns (m': seq<string>, c: nat)
    requires x < |lines|
    ensures var l := lines[x];
      var m := if IsMedia(l) && !HasMidAt(mids, counter) then mids + [""] else mids;
      && c == (if IsMedia(l) then counter + 1 else counter)
      && m' == (if IsMidLine(l) && MidOf(l) !in m && !HasMidAt(m, c) then m + [MidOf(l)] else m)
    ensures var r := MidsFrom(lines, x, mids, counter);
      var rest := MidsFrom(lines, x + 1, m', c);
      r.0 == rest.0 && |rest.1| <= |r.1| && r.1 == r.1[..|r.1| - |rest.1|] + rest.1
  {
    var l := lines[x];
    var m := if IsMedia(l) && !HasMidAt(mids, counter) then mids + [""] else mids;
    c := if IsMedia(l) then counter + 1 else counter;
    m' := if IsMidLine(l) && MidOf(l) !in m && !HasMidAt(m, c) then m + [MidOf(l)] else m;
  }

  /** One step of the first loop, seen only through what it leaves to the
      rest of the loop. */
  lemma MidsNext(lines: seq<string>, x: nat, mids: seq<string>, counter: nat) returns (m': seq<string>, c: nat)
    requires x < |lines|
    ensures var r := MidsFrom(lines, x, mids, counter);
      var rest := MidsFrom(lines, x + 1, m', c);
      r.0 == rest.0 && |rest.1| <= |r.1| && r.1 == r.1[..|r.1| - |rest.1|] + rest.1
  {
    m', c := MidsStep(lines, x, mids, counter);
  }

  lemma MidAccountedHere(lines: seq<string>, x: nat, mids: seq<string>, counter: nat)
    requires x < |lines| && IsMidLine(lines[x])
    ensures MidOf(lines[x]) in MidsFrom(lines, x, mids, counter).0 ||
      CitesTwoMids(MidsFrom(lines, x, mids, counter).1, x + 1)
  {
    var l := lines[x];
    var m := if IsMedia(l) && !HasMidAt(mids, counter) then mids + [""] else mids;
    var m', c := MidsStep(lines, x, mids, counter);
    if MidOf(l) in m {
      MidsGrow(lines, x + 1, m', c, MidOf(l));
    } else if HasMidAt(m, c) {
      assert MidsFrom(lines, x, mids, counter).1[0].line == Some(x + 1);
    } else {
      MidsGrow(lines, x + 1, m', c, MidOf(l));
    }
  }

  /** The identifiers of the text's streams as the first loop leaves
      them. */
  function Mids(lines: seq<string>): seq<string>
  {
    MidsFrom(lines, 0, [], 0).0
  }

  // ---------------------------------------------------------------------
  // Second loop: the session-level groups

  predicate IsGroupLine(l: string)
  {
    StartsWith(l, "a=group")
  }

  /** Some line before `x` is an `a=group` line the group pattern
      accepts: the source's `doneOne`. */
  predicate GroupSeen(lines: seq<string>, x: nat)
    requires x <= |lines|
  {
    exists z | 0 <= z < x :: IsGroupLine(lines[z]) && GroupOf(lines[z]).Some?
  }

  /** The checks of one session-level `a=group` line. */
  function GroupLineCheck(l: string, y: nat, mids: seq<string>): (r: seq<Finding>)
    ensures forall i | 0 <= i < |r| :: r[i].line == Some(y + 1) && r[i].rule == Test10_83_3
  {
    if !IsGroupLine(l) then []
    else
      match GroupOf(l)
      case None => [Finding(Test10_83_3, GroupPattern, Some(y + 1), None)]
      case Some((a, b)) =>
        (if a !in mids then [Finding(Test10_83_3, UnknownMid(a), Some(y + 1), None)] else [])
        + (if b !in mids then [Finding(Test10_83_3, UnknownMid(b), Some(y + 1), None)] else [])
  }

  /** The second loop of checkST2110.js:370-391 from line `x`: it stops
      at the first media line, citing it when no group was accepted
      before. */
  function SessionFrom(lines: seq<string>, x: nat, doneOne: bool, mids: seq<string>): seq<Finding>
    requires x <= |lines|
    decreases |lines| - x
  {
    if x == |lines| then []
    else
      var l := lines[x];
      if IsMedia(l) then (if !doneOne then [Finding(Test10_83_3, NoSessionGroup, Some(x + 1), None)] else [])
      else if !IsGroupLine(l) then SessionFrom(lines, x + 1, doneOne, mids)
      else GroupLineCheck(l, x, mids) + SessionFrom(lines, x + 1, doneOne || GroupOf(l).Some?, mids)
  }

  /** What line `y` contributes to the second loop, decided from the
      lines alone. */
  function SessionAt(lines: seq<string>, y: nat, mids: seq<string>): (r: seq<Finding>)
    requires y < |lines|
    ensures forall i | 0 <= i < |r| :: r[i].line == Some(y + 1) && r[i].rule == Test10_83_3
  {
    if AfterMedia(lines, y) then []
    else if IsMedia(lines[y]) then
      (if GroupSeen(lines, y) then [] else [Finding(Test10_83_3, NoSessionGroup, Some(y + 1), None)])
    else GroupLineCheck(lines[y], y, mids)
  }

  function SessionChunks(lines: seq<string>, mids: seq<string>): (r: seq<seq<Finding>>)
    ensures |r| == |lines| && LineTagged(r)
    ensures forall y | 0 <= y < |r| :: AllFrom(r[y], Test10_83_3)
  {
    seq(|lines|, y requires 0 <= y < |lines| => SessionAt(lines, y, mids))
  }

  /** The second loop's findings are the line-by-line ones. */
  lemma {:induction false} SessionFromChunks(lines: seq<string>, x: nat, doneOne: bool, mids: seq<string>)
    requires x <= |lines| && !AfterMedia(lines, x) && doneOne == GroupSeen(lines, x)
    ensures SessionFrom(lines, x, doneOne, mids) == FlattenFrom(SessionChunks(lines, mids), x)
    decreases |lines| - x
  {
    if x < |lines| {
      var chunks := SessionChunks(lines, mids);
      var l := lines[x];
      assert chunks[x] == SessionAt(lines, x, mids);
      AfterMediaStep(lines, x);
      if IsMedia(l) {
        forall z | x + 1 <= z < |lines| ensures chunks[z] == [] {
          assert AfterMedia(lines, z) by { assert IsMedia(lines[x]); }
        }
        FlattenEmpty(chunks, x + 1);
      } else {
        GroupSeenStep(lines, x);
        SessionFromChunks(lines, x + 1, doneOne || (IsGroupLine(l) && GroupOf(l).Some?), mids);
        if !IsGroupLine(l) {
          assert chunks[x] == [];
        }
      }
    }
  }

  lemma GroupSeenStep(lines: seq<string>, x: nat)
    requires x < |lines|
    ensures GroupSeen(lines, x + 1) == (GroupSeen(lines, x) || (IsGroupLine(lines[x]) && GroupOf(lines[x]).Some?))
  {
    if GroupSeen(lines, x + 1) && !(IsGroupLine(lines[x]) && GroupOf(lines[x]).Some?) {
      var z :| 0 <= z < x + 1 && IsGroupLine(lines[z]) && GroupOf(lines[z]).Some?;
      assert z < x;
    }
  }

  /** checkST2110.js:343 `test_10_83_3` on the text and its lines: the
      rule applies only when the text holds `a=group`. */
  function DestinationGroupTest(sdp: string, lines: seq<string>): (r: seq<Finding>)
    ensures !Contains(sdp, "a=group") ==> r == []
  {
    if !Contains(sdp, "a=group") then []
    else
      var first := MidsFrom(lines, 0, [], 0);
      first.1 + SessionFrom(lines, 0, false, first.0)
  }

  /** A finding of the second loop citing line `y + 1` is what line `y`
      contributes. */
  lemma SessionHas(lines: seq<string>, mids: seq<string>, f: Finding, y: nat)
    requires f.line == Some(y + 1)
    ensures f in SessionFrom(lines, 0, false, mids) <==> y < |lines| && f in SessionAt(lines, y, mids)
  {
    SessionFromChunks(lines, 0, false, mids);
    FlattenHas(SessionChunks(lines, mids), 0, f, y);
  }

  lemma UnknownMidAt(lines: seq<string>, mids: seq<string>, y: nat, id: string)
    requires y < |lines|
    ensures Finding(Test10_83_3, UnknownMid(id), Some(y + 1), None) in SessionAt(lines, y, mids) <==>
      && !AfterMedia(lines, y) && !IsMedia(lines[y]) && IsGroupLine(lines[y])
      && GroupOf(lines[y]).Some?
      && (id == GroupOf(lines[y]).value.0 || id == GroupOf(lines[y]).value.1)
      && id !in mids
  {
  }

  lemma NoSessionGroupAt(lines: seq<string>, mids: seq<string>, y: nat)
    requires y < |lines|
    ensures Finding(Test10_83_3, NoSessionGroup, Some(y + 1), None) in SessionAt(lines, y, mids) <==>
      IsMedia(lines[y]) && !AfterMedia(lines, y) && !GroupSeen(lines, y)
  {
    var f := Finding(Test10_83_3, NoSessionGroup, Some(y + 1), None);
    if !AfterMedia(lines, y) && !IsMedia(lines[y]) {
      var r := GroupLineCheck(lines[y], y, mids);
      assert forall i | 0 <= i < |r| :: r[i].kind.GroupPattern? || r[i].kind.UnknownMid?;
    }
  }

  /** The rule cites identifier `id` on line `y + 1` exactly when that
      line is a session-level `a=group:DUP` line naming `id` and the first
      loop did not record `id` in its array. The array is not the streams'
      identifiers: a session-level `a=mid:` line before the first `m=` is
      recorded, and a stream's second `a=mid:` is not. */
  lemma UnknownMidIff(sdp: string, lines: seq<string>, y: nat, id: string)
    requires Contains(sdp, "a=group")
    ensures Finding(Test10_83_3, UnknownMid(id), Some(y + 1), None) in DestinationGroupTest(sdp, lines) <==>
      && y < |lines| && !AfterMedia(lines, y) && !IsMedia(lines[y]) && IsGroupLine(lines[y])
      && GroupOf(lines[y]).Some?
      && (id == GroupOf(lines[y]).value.0 || id == GroupOf(lines[y]).value.1)
      && id !in Mids(lines)
  {
    var f := Finding(Test10_83_3, UnknownMid(id), Some(y + 1), None);
    var first := MidsFrom(lines, 0, [], 0);
    assert f !in first.1;
    SessionHas(lines, first.0, f, y);
    if y < |lines| {
      UnknownMidAt(lines, first.0, y, id);
    }
  }

  /** The rule cites the first media line exactly when no session-level
      `a=group` line before it was accepted by the group pattern. */
  lemma NoSessionGroupIff(sdp: string, lines: seq<string>, y: nat)
    requires Contains(sdp, "a=group")
    ensures Finding(Test10_83_3, NoSessionGroup, Some(y + 1), None) in DestinationGroupTest(sdp, lines) <==>
      y < |lines| && IsMedia(lines[y]) && !AfterMedia(lines, y) && !GroupSeen(lines, y)
  {
    var f := Finding(Test10_83_3, NoSessionGroup, Some(y + 1), None);
    var first := MidsFrom(lines, 0, [], 0);
    assert f !in first.1;
    SessionHas(lines, first.0, f, y);
    if y < |lines| {
      NoSessionGroupAt(lines, first.0, y);
    }
  }

  /** Every finding of the second loop is reported by `test_10_83_3`. */
  lemma {:induction false} SessionFromRule(lines: seq<string>, x: nat, doneOne: bool, mids: seq<string>)
    requires x <= |lines|
    ensures AllFrom(SessionFrom(lines, x, doneOne, mids), Test10_83_3)
    decreases |lines| - x
  {
    if x < |lines| && !IsMedia(lines[x]) {
      if !IsGroupLine(lines[x]) {
        SessionFromRule(lines, x + 1, doneOne, mids);
      } else {
        var done := doneOne || GroupOf(lines[x]).Some?;
        SessionFromRule(lines, x + 1, done, mids);
        AllFromAppend(GroupLineCheck(lines[x], x, mids), SessionFrom(lines, x + 1, done, mids), Test10_83_3);
      }
    }
  }

  lemma DestinationGroupRule(sdp: string, lines: seq<string>)
    ensures AllFrom(DestinationGroupTest(sdp, lines), Test10_83_3)
  {
    if Contains(sdp, "a=group") {
      var first := MidsFrom(lines, 0, [], 0);
      SessionFromRule(lines, 0, false, first.0);
      AllFromAppend(first.1, SessionFrom(lines, 0, false, first.0), Test10_83_3);
    }
  }
}
