/** guardrails._strip_internal_markers on strings.
  *
  * Case folding is a parameter: any per-character lowering that maps a character to a
  * non-empty string and neither loses nor invents newlines.  The set of characters that
  * str.strip removes is a parameter too.
  */
module Markers {
  const MARKERS: seq<string> := ["<system>", "</system>", "<internal>", "chain-of-thought", "TOOL_CALL:", "INTERNAL:"]

  type Casing = char -> string

  ghost predicate Folds(low: Casing) {
    low('\n') == "\n" && forall c :: |low(c)| > 0 && (c != '\n' ==> '\n' !in low(c))
  }

  function Lower(low: Casing, s: string): string {
    if |s| == 0 then "" else low(s[0]) + Lower(low, s[1..])
  }

  predicate OccursAt(s: string, m: string, i: int) {
    0 <= i <= |s| - |m| && s[i..i + |m|] == m
  }

  predicate Contains(s: string, m: string) {
    exists i :: 0 <= i <= |s| && OccursAt(s, m, i)
  }

  /** marker.lower() in s.lower() */
  predicate Has(low: Casing, m: string, s: string) {
    Contains(Lower(low, s), Lower(low, m))
  }

  function Split(s: string): (r: seq<string>)
    ensures |r| > 0
  {
    if |s| == 0 then [""]
    else
      var rest := Split(s[1..]);
      if s[0] == '\n' then [""] + rest else [[s[0]] + rest[0]] + rest[1..]
  }

  function Join(lines: seq<string>): string {
    if |lines| == 0 then ""
    else if |lines| == 1 then lines[0]
    else lines[0] + "\n" + Join(lines[1..])
  }

  function Keep(low: Casing, m: string, lines: seq<string>): seq<string> {
    if |lines| == 0 then []
    else (if Has(low, m, lines[0]) then [] else [lines[0]]) + Keep(low, m, lines[1..])
  }

  function TrimLeft(ws: char -> bool, s: string): string {
    if |s| > 0 && ws(s[0]) then TrimLeft(ws, s[1..]) else s
  }

  function TrimRight(ws: char -> bool, s: string): string {
    if |s| > 0 && ws(s[|s| - 1]) then TrimRight(ws, s[..|s| - 1]) else s
  }

  function Trim(ws: char -> bool, s: string): string {
    TrimRight(ws, TrimLeft(ws, s))
  }

  /** One pass of the loop body. */
  function StripOne(low: Casing, m: string, text: string): string {
    if Has(low, m, text) then Join(Keep(low, m, Split(text))) else text
  }

  function StripEach(low: Casing, ms: seq<string>, text: string): string {
    if |ms| == 0 then text else StripOne(low, ms[|ms| - 1], StripEach(low, ms[..|ms| - 1], text))
  }

  function StripMarkers(low: Casing, ws: char -> bool, text: string): string {
    Trim(ws, StripEach(low, MARKERS, text))
  }

  // ------------------------------------------------------------- splitting and joining

  predicate NewlineFree(lines: seq<string>) {
    forall k :: 0 <= k < |lines| ==> '\n' !in lines[k]
  }

  lemma {:induction false} SplitLines(s: string)
    ensures NewlineFree(Split(s)) && Join(Split(s)) == s
  {
    if |s| > 0 {
      SplitLines(s[1..]);
      var rest := Split(s[1..]);
      if s[0] == '\n' {
        assert ([""] + rest)[1..] == rest;
        assert Join([""] + rest) == "\n" + Join(rest);
      } else {
        var lines := [[s[0]] + rest[0]] + rest[1..];
        assert lines[1..] == rest[1..];
        assert Join(lines) == [s[0]] + Join(rest);
        forall k | 0 <= k < |lines|
          ensures '\n' !in lines[k]
        {
          if k > 0 {
            assert lines[k] == rest[k];
          }
        }
      }
    }
  }

  lemma {:induction false} SplitNewlineFree(s: string)
    requires '\n' !in s
    ensures Split(s) == [s]
  {
    if |s| > 0 {
      SplitNewlineFree(s[1..]);
      assert [s[0]] + s[1..] == s;
    }
  }

  lemma {:induction false} SplitAppend(a: string, b: string)
    requires '\n' !in a
    ensures Split(a + "\n" + b) == [a] + Split(b)
  {
    var s := a + "\n" + b;
    if |a| == 0 {
      assert s[1..] == b;
    } else {
      assert s[1..] == a[1..] + "\n" + b;
      SplitAppend(a[1..], b);
      assert [s[0]] + a[1..] == a;
    }
  }

  lemma {:induction false} SplitJoin(lines: seq<string>)
    requires NewlineFree(lines) && |lines| > 0
    ensures Split(Join(lines)) == lines
  {
    if |lines| == 1 {
      SplitNewlineFree(lines[0]);
    } else {
      SplitJoin(lines[1..]);
      SplitAppend(lines[0], Join(lines[1..]));
      assert [lines[0]] + lines[1..] == lines;
    }
  }

  // -------------------------------------------------------------------------- folding

  lemma {:induction false} LowerConcat(low: Casing, a: string, b: string)
    ensures Lower(low, a + b) == Lower(low, a) + Lower(low, b)
  {
    if |a| == 0 {
      assert a + b == b;
    } else {
      LowerConcat(low, a[1..], b);
      assert (a + b)[1..] == a[1..] + b;
      assert Lower(low, a + b) == low(a[0]) + (Lower(low, a[1..]) + Lower(low, b));
    }
  }

  lemma {:induction false} LowerNewlineFree(low: Casing, s: string)
    requires Folds(low)
    ensures '\n' !in s ==> '\n' !in Lower(low, s)
    ensures |Lower(low, s)| >= |s|
  {
    if |s| > 0 {
      LowerNewlineFree(low, s[1..]);
    }
  }

  lemma ContainsPart(s: string, a: nat, b: nat, m: string)
    requires a <= b <= |s| && Contains(s[a..b], m)
    ensures Contains(s, m)
  {
    var i :| 0 <= i <= |s[a..b]| && OccursAt(s[a..b], m, i);
    var part, found := s[a..b], s[a + i..a + i + |m|];
    assert |found| == |m|;
    forall k | 0 <= k < |m|
      ensures found[k] == m[k]
    {
      assert part[i..i + |m|][k] == part[i + k];
      assert part[i + k] == s[a + (i + k)];
    }
    assert found == m;
    assert OccursAt(s, m, a + i);
  }

  lemma OccurrenceCovers(s: string, m: string, i: nat, p: nat)
    requires OccursAt(s, m, i) && i <= p < i + |m|
    ensures s[p] in m
  {
    assert s[i..i + |m|][p - i] == s[p];
  }

  lemma OccursInPart(s: string, a: nat, b: nat, m: string, i: nat)
    requires a <= i && i + |m| <= b <= |s| && OccursAt(s, m, i)
    ensures OccursAt(s[a..b], m, i - a)
  {
    var part := s[a..b];
    forall k | 0 <= k < |m|
      ensures part[i - a + k] == m[k]
    {
      assert s[i..i + |m|][k] == s[i + k];
    }
    assert part[i - a..i - a + |m|] == m;
  }

  /** An occurrence of a newline-free string lies on one side of a newline. */
  lemma ContainsAcross(a: string, b: string, m: string)
    requires '\n' !in m && |m| > 0
    ensures Contains(a + "\n" + b, m) <==> Contains(a, m) || Contains(b, m)
  {
    var s := a + "\n" + b;
    assert s[0..|a|] == a && s[|a| + 1..|s|] == b && s[|a|] == '\n';
    if Contains(a, m) {
      ContainsPart(s, 0, |a|, m);
    }
    if Contains(b, m) {
      ContainsPart(s, |a| + 1, |s|, m);
    }
    if i :| 0 <= i <= |s| && OccursAt(s, m, i) {
      if i + |m| <= |a| {
        OccursInPart(s, 0, |a|, m, i);
      } else if |a| < i {
        OccursInPart(s, |a| + 1, |s|, m, i);
      } else {
        OccurrenceCovers(s, m, i, |a|);
      }
    }
  }

  predicate AnyHas(low: Casing, m: string, lines: seq<string>) {
    exists k :: 0 <= k < |lines| && Has(low, m, lines[k])
  }

  lemma AnyHasCons(low: Casing, m: string, lines: seq<string>)
    requires |lines| > 0
    ensures AnyHas(low, m, lines) <==> Has(low, m, lines[0]) || AnyHas(low, m, lines[1..])
  {
    if k :| 0 <= k < |lines| && Has(low, m, lines[k]) {
      assert k > 0 ==> lines[1..][k - 1] == lines[k];
    }
    if k :| 0 <= k < |lines[1..]| && Has(low, m, lines[1..][k]) {
      assert lines[k + 1] == lines[1..][k];
    }
  }

  /** A marker shows in the joined text exactly if it shows in one of the lines. */
  lemma {:induction false} JoinHas(low: Casing, m: string, lines: seq<string>)
    requires Folds(low) && '\n' !in m && |m| > 0
    ensures Has(low, m, Join(lines)) <==> AnyHas(low, m, lines)
  {
    LowerNewlineFree(low, m);
    if |lines| == 1 {
      AnyHasCons(low, m, lines);
    } else if |lines| > 1 {
      JoinHas(low, m, lines[1..]);
      AnyHasCons(low, m, lines);
      var rest := Join(lines[1..]);
      LowerConcat(low, lines[0] + "\n", rest);
      LowerConcat(low, lines[0], "\n");
      assert Lower(low, "\n") == "\n";
      ContainsAcross(Lower(low, lines[0]), Lower(low, rest), Lower(low, m));
    }
  }

  // ------------------------------------------------------------------------ filtering

  predicate CleanLine(low: Casing, ms: seq<string>, line: string) {
    forall k :: 0 <= k < |ms| ==> !Has(low, ms[k], line)
  }

  /** Reference: drop, in one pass, every line that shows any of the markers. */
  function CleanLines(low: Casing, ms: seq<string>, lines: seq<string>): seq<string> {
    if |lines| == 0 then []
    else (if CleanLine(low, ms, lines[0]) then [lines[0]] else []) + CleanLines(low, ms, lines[1..])
  }

  lemma {:induction false} KeepNothingToDrop(low: Casing, m: string, lines: seq<string>)
    requires !AnyHas(low, m, lines)
    ensures Keep(low, m, lines) == lines
  {
    if |lines| > 0 {
      AnyHasCons(low, m, lines);
      KeepNothingToDrop(low, m, lines[1..]);
      assert [lines[0]] + lines[1..] == lines;
    }
  }

  lemma {:induction false} KeepOfClean(low: Casing, ms: seq<string>, m: string, lines: seq<string>)
    ensures Keep(low, m, CleanLines(low, ms, lines)) == CleanLines(low, ms + [m], lines)
  {
    if |lines| > 0 {
      var line, rest := lines[0], CleanLines(low, ms, lines[1..]);
      KeepOfClean(low, ms, m, lines[1..]);
      assert CleanLine(low, ms + [m], line) <==> CleanLine(low, ms, line) && !Has(low, m, line) by {
        assert forall k :: 0 <= k < |ms| ==> (ms + [m])[k] == ms[k];
        assert (ms + [m])[|ms|] == m;
      }
      if CleanLine(low, ms, line) {
        assert ([line] + rest)[1..] == rest;
      } else {
        assert [] + rest == rest;
      }
    }
  }

  lemma {:induction false} CleanLinesFacts(low: Casing, ms: seq<string>, lines: seq<string>)
    requires NewlineFree(lines)
    ensures NewlineFree(CleanLines(low, ms, lines))
    ensures forall k :: 0 <= k < |CleanLines(low, ms, lines)| ==> CleanLine(low, ms, CleanLines(low, ms, lines)[k])
    ensures |ms| == 0 ==> CleanLines(low, ms, lines) == lines
  {
    if |lines| > 0 {
      CleanLinesFacts(low, ms, lines[1..]);
    }
  }

  lemma StripOneJoined(low: Casing, m: string, lines: seq<string>)
    requires Folds(low) && '\n' !in m && |m| > 0 && NewlineFree(lines)
    ensures StripOne(low, m, Join(lines)) == Join(Keep(low, m, lines))
  {
    JoinHas(low, m, lines);
    if |lines| > 0 {
      SplitJoin(lines);
      if !AnyHas(low, m, lines) {
        KeepNothingToDrop(low, m, lines);
      }
    }
  }

  predicate GoodMarkers(ms: seq<string>) {
    forall k :: 0 <= k < |ms| ==> '\n' !in ms[k] && |ms[k]| > 0
  }

  lemma OneMoreMarker(low: Casing, ms: seq<string>, m: string, lines: seq<string>)
    requires Folds(low) && '\n' !in m && |m| > 0 && NewlineFree(lines)
    ensures StripOne(low, m, Join(CleanLines(low, ms, lines))) == Join(CleanLines(low, ms + [m], lines))
  {
    CleanLinesFacts(low, ms, lines);
    StripOneJoined(low, m, CleanLines(low, ms, lines));
    KeepOfClean(low, ms, m, lines);
  }

  /** Filtering marker by marker, re-splitting each time, is one pass over the lines. */
  lemma {:induction false} StripEachIsOnePass(low: Casing, ms: seq<string>, text: string)
    requires Folds(low) && GoodMarkers(ms)
    ensures StripEach(low, ms, text) == Join(CleanLines(low, ms, Split(text)))
  {
    SplitLines(text);
    if |ms| == 0 {
      CleanLinesFacts(low, ms, Split(text));
    } else {
      var init, m := ms[..|ms| - 1], ms[|ms| - 1];
      StripEachIsOnePass(low, init, text);
      var lines := Split(text);
      OneMoreMarker(low, init, m, lines);
      assert StripEach(low, ms, text) == StripOne(low, m, Join(CleanLines(low, init, lines)));
      assert init + [m] == ms;
    }
  }

  // ------------------------------------------------------------------------- trimming

  lemma {:induction false} TrimLeftIsSuffix(ws: char -> bool, s: string) returns (i: nat)
    ensures i <= |s| && TrimLeft(ws, s) == s[i..] && forall k :: 0 <= k < i ==> ws(s[k])
    ensures i < |s| ==> !ws(s[i])
  {
    i := 0;
    if |s| > 0 && ws(s[0]) {
      i := TrimLeftIsSuffix(ws, s[1..]);
      assert s[1..][i..] == s[i + 1..];
      assert forall k :: 1 <= k < i + 1 ==> s[k] == s[1..][k - 1];
      i := i + 1;
    } else {
      assert s[0..] == s;
    }
  }

  lemma {:induction false} TrimRightIsPrefix(ws: char -> bool, s: string) returns (j: nat)
    ensures j <= |s| && TrimRight(ws, s) == s[..j] && forall k :: j <= k < |s| ==> ws(s[k])
    ensures j > 0 ==> !ws(s[j - 1])
  {
    j := |s|;
    if |s| > 0 && ws(s[|s| - 1]) {
      var init := s[..|s| - 1];
      j := TrimRightIsPrefix(ws, init);
      assert init[..j] == s[..j];
      assert forall k :: 0 <= k < |init| ==> init[k] == s[k];
    } else {
      assert s[..|s|] == s;
    }
  }

  /** The part of s from i to j is s without the white space at its ends. */
  ghost predicate TrimmedTo(ws: char -> bool, s: string, i: nat, j: nat) {
    && i <= j <= |s|
    && (forall k :: 0 <= k < i ==> ws(s[k])) && (forall k :: j <= k < |s| ==> ws(s[k]))
    && (i < j ==> !ws(s[i]) && !ws(s[j - 1]))
  }

  /** Trimming takes exactly the white space off both ends... */
  lemma TrimIsPart(ws: char -> bool, s: string) returns (i: nat, j: nat)
    ensures TrimmedTo(ws, s, i, j) && Trim(ws, s) == s[i..j]
  {
    var l := TrimLeft(ws, s);
    i := TrimLeftIsSuffix(ws, s);
    var n := TrimRightIsPrefix(ws, l);
    j := i + n;
    assert l[..n] == s[i..j];
    assert forall k :: 0 <= k < |l| ==> l[k] == s[i + k];
    assert forall k :: j <= k < |s| ==> s[k] == l[k - i];
  }

  /** ...and a trimmed text is not trimmed again. */
  lemma TrimTwice(ws: char -> bool, s: string)
    ensures Trim(ws, Trim(ws, s)) == Trim(ws, s)
  {
    var t := Trim(ws, s);
    var i, j := TrimIsPart(ws, s);
    assert |t| > 0 ==> t[0] == s[i] && t[|t| - 1] == s[j - 1];
    assert TrimLeft(ws, t) == t;
    assert TrimRight(ws, t) == t;
  }

  lemma HasPart(low: Casing, m: string, s: string, i: nat, j: nat)
    requires i <= j <= |s| && Has(low, m, s[i..j])
    ensures Has(low, m, s)
  {
    assert s == s[..i] + s[i..j] + s[j..];
    LowerConcat(low, s[..i] + s[i..j], s[j..]);
    LowerConcat(low, s[..i], s[i..j]);
    var a, b := |Lower(low, s[..i])|, |Lower(low, s[..i])| + |Lower(low, s[i..j])|;
    assert Lower(low, s)[a..b] == Lower(low, s[i..j]);
    ContainsPart(Lower(low, s), a, b, Lower(low, m));
  }

  // --------------------------------------------------------------------------- results

  lemma MarkersAreGood()
    ensures MARKERS == ["<system>", "</system>", "<internal>", "chain-of-thought", "TOOL_CALL:", "INTERNAL:"]
    ensures GoodMarkers(MARKERS)
  {
  }

  lemma {:induction false} StripNothing(low: Casing, ms: seq<string>, text: string)
    requires forall k :: 0 <= k < |ms| ==> !Has(low, ms[k], text)
    ensures StripEach(low, ms, text) == text
  {
    if |ms| > 0 {
      StripNothing(low, ms[..|ms| - 1], text);
    }
  }

  ghost predicate StandsAt(t: string, n: string, i: nat) {
    i + |n| <= |t| && forall k :: 0 <= k < |n| ==> n[k] == t[i + k]
  }

  /** The marker appears somewhere in the text, both lowered. */
  ghost predicate Shows(low: Casing, m: string, s: string) {
    exists i: nat :: StandsAt(Lower(low, s), Lower(low, m), i)
  }

  /** One of the six markers appears. */
  ghost predicate ShowsAny(low: Casing, s: string) {
    exists k :: 0 <= k < |MARKERS| && Shows(low, MARKERS[k], s)
  }

  /** Lowering goes character by character. */
  lemma LowerExactly(low: Casing, c: char, a: string, b: string)
    ensures Lower(low, [c]) == low(c) && Lower(low, a + b) == Lower(low, a) + Lower(low, b)
  {
    LowerConcat(low, a, b);
    assert [c][1..] == "";
  }

  lemma HasIsShows(low: Casing, m: string, s: string)
    ensures Has(low, m, s) <==> Shows(low, m, s)
  {
    var t, n := Lower(low, s), Lower(low, m);
    if Has(low, m, s) {
      var i :| 0 <= i <= |t| && OccursAt(t, n, i);
      var part := t[i..i + |n|];
      assert forall k :: 0 <= k < |n| ==> n[k] == part[k];
      assert StandsAt(t, n, i);
    }
    if Shows(low, m, s) {
      var i: nat :| StandsAt(t, n, i);
      var part := t[i..i + |n|];
      assert forall k :: 0 <= k < |n| ==> part[k] == n[k];
      assert part == n;
      assert OccursAt(t, n, i);
    }
  }

  lemma CleanIsShowless(low: Casing, line: string)
    ensures CleanLine(low, MARKERS, line) <==> !ShowsAny(low, line)
  {
    forall m: string
      ensures Has(low, m, line) <==> Shows(low, m, line)
    {
      HasIsShows(low, m, line);
    }
  }

  /** The lines to keep, from start on. */
  function Kept(keep: string -> bool, lines: seq<string>, start: nat): seq<string>
    requires start <= |lines|
    decreases |lines| - start
  {
    if start == |lines| then []
    else if keep(lines[start]) then [lines[start]] + Kept(keep, lines, start + 1)
    else Kept(keep, lines, start + 1)
  }

  /** idx are the positions, from start on, of the lines to keep, in order. */
  ghost predicate Positions(keep: string -> bool, lines: seq<string>, start: nat, idx: seq<nat>) {
    && (forall k, l :: 0 <= k < l < |idx| ==> idx[k] < idx[l])
    && (forall k :: 0 <= k < |idx| ==> start <= idx[k] < |lines| && keep(lines[idx[k]]))
    && (forall i :: start <= i < |lines| && keep(lines[i]) ==> i in idx)
  }

  lemma PositionsCons(keep: string -> bool, lines: seq<string>, start: nat, idx: seq<nat>)
    requires start < |lines| && Positions(keep, lines, start + 1, idx)
    ensures Positions(keep, lines, start, if keep(lines[start]) then [start] + idx else idx)
  {
    var all := [start] + idx;
    assert forall i :: i in all <==> i == start || i in idx;
  }

  ghost predicate Picked(lines: seq<string>, idx: seq<nat>, kept: seq<string>) {
    |kept| == |idx| && forall k :: 0 <= k < |idx| ==> idx[k] < |lines| && kept[k] == lines[idx[k]]
  }

  lemma PickedCons(lines: seq<string>, i: nat, idx: seq<nat>, kept: seq<string>)
    requires i < |lines| && Picked(lines, idx, kept)
    ensures Picked(lines, [i] + idx, [lines[i]] + kept)
  {
  }

  lemma {:induction false} KeptPositions(keep: string -> bool, lines: seq<string>, start: nat) returns (idx: seq<nat>)
    requires start <= |lines|
    ensures Positions(keep, lines, start, idx) && Picked(lines, idx, Kept(keep, lines, start))
    decreases |lines| - start
  {
    idx := [];
    if start < |lines| {
      var tail := KeptPositions(keep, lines, start + 1);
      PositionsCons(keep, lines, start, tail);
      PickedCons(lines, start, tail, Kept(keep, lines, start + 1));
      idx := if keep(lines[start]) then [start] + tail else tail;
    }
  }

  ghost function Showless(low: Casing): string -> bool {
    (line: string) => !ShowsAny(low, line)
  }

  lemma {:induction false} CleanIsKept(low: Casing, lines: seq<string>, start: nat)
    requires start <= |lines|
    ensures CleanLines(low, MARKERS, lines[start..]) == Kept(Showless(low), lines, start)
    decreases |lines| - start
  {
    if start < |lines| {
      CleanIsKept(low, lines, start + 1);
      CleanIsShowless(low, lines[start]);
      assert lines[start..][0] == lines[start] && lines[start..][1..] == lines[start + 1..];
    }
  }

  /** For every text: the result is the join of exactly those lines, in order, that show no
    * marker, without the white space at its ends; it shows none itself; and stripping it again
    * changes nothing. */
  lemma StrippingIsSound(low: Casing, ws: char -> bool, text: string)
    returns (idx: seq<nat>, kept: seq<string>, i: nat, j: nat)
    requires Folds(low)
    ensures Positions(Showless(low), Split(text), 0, idx) && Picked(Split(text), idx, kept)
    ensures TrimmedTo(ws, Join(kept), i, j) && StripMarkers(low, ws, text) == Join(kept)[i..j]
    ensures !ShowsAny(low, StripMarkers(low, ws, text))
    ensures StripMarkers(low, ws, StripMarkers(low, ws, text)) == StripMarkers(low, ws, text)
  {
    MarkersAreGood();
    StripEachIsOnePass(low, MARKERS, text);
    SplitLines(text);
    kept := CleanLines(low, MARKERS, Split(text));
    CleanIsKept(low, Split(text), 0);
    idx := KeptPositions(Showless(low), Split(text), 0);
    assert Split(text)[0..] == Split(text);
    CleanLinesFacts(low, MARKERS, Split(text));
    var joined := Join(kept);
    i, j := TrimIsPart(ws, joined);
    TrimTwice(ws, joined);
    PartIsClean(low, kept, i, j);
    StripNothing(low, MARKERS, joined[i..j]);
    CleanIsShowless(low, joined[i..j]);
  }

  lemma PartIsClean(low: Casing, lines: seq<string>, i: nat, j: nat)
    requires Folds(low) && i <= j <= |Join(lines)|
    requires forall k :: 0 <= k < |lines| ==> CleanLine(low, MARKERS, lines[k])
    ensures CleanLine(low, MARKERS, Join(lines)[i..j])
  {
    MarkersAreGood();
    var joined := Join(lines);
    forall k | 0 <= k < |MARKERS|
      ensures !Has(low, MARKERS[k], joined[i..j])
    {
      JoinHas(low, MARKERS[k], lines);
      assert !AnyHas(low, MARKERS[k], lines);
      if Has(low, MARKERS[k], joined[i..j]) {
        HasPart(low, MARKERS[k], joined, i, j);
        assert false;
      }
    }
  }

  method StripLoop(low: Casing, markers: seq<string>, text: string) returns (result: string)
    ensures result == StripEach(low, markers, text)
  {
    result := text;
    for k := 0 to |markers|
      invariant result == StripEach(low, markers[..k], text)
    {
      if Has(low, markers[k], result) {
        var lines := Split(result);
        lines := Keep(low, markers[k], lines);
        result := Join(lines);
      }
      assert markers[..k + 1][..k] == markers[..k];
    }
    assert markers[..|markers|] == markers;
  }

  method StripInternalMarkers(low: Casing, ws: char -> bool, text: string) returns (result: string)
    ensures result == StripMarkers(low, ws, text)
  {
    result := StripLoop(low, MARKERS, text);
    result := Trim(ws, result);
  }
}
