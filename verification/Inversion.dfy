/**
 Undoing a patch: swap `+` and `-` in every hunk, renumber each one from the
 offset it was really placed at, and apply the result to the patched file.
 */
module Inversion {
  import opened Results
  import opened Lines
  import opened Patch
  import opened SpliceFacts
  import opened Exact
  import opened DiffParser

  function Flip(op: Op): Op {
    match op case Keep => Keep case Remove => Add case Add => Remove
  }

  function FlipBody(body: seq<DiffLine>): seq<DiffLine> {
    if body == [] then [] else [DiffLine(Flip(body[0].op), body[0].text)] + FlipBody(body[1..])
  }

  /** The inverse hunks: hunk `i` starts where it was placed, moved by what the
      hunks before it added to the file. */
  ghost function Inverse(lines: seq<string>, hunks: seq<Hunk>, offs: seq<nat>): seq<Hunk>
    requires Fits(lines, hunks, offs)
  {
    if offs == [] then []
    else
      OutputLength(lines, hunks, Front(offs));
      Inverse(lines, hunks, Front(offs))
      + [Hunk(Last(offs) + Growth(hunks, |offs| - 1) + 1, FlipBody(hunks[|offs| - 1].body))]
  }

  /** The file up to the cursor, as the inverse rebuilds it. */
  ghost function Back(lines: seq<string>, hunks: seq<Hunk>, offs: seq<nat>): seq<string>
    requires Fits(lines, hunks, offs)
  {
    if offs == [] then []
    else
      Back(lines, hunks, Front(offs))
      + (lines[Cursor(hunks, Front(offs))..Last(offs)]
      + BackSide(hunks[|offs| - 1].body, lines[Last(offs)..Cursor(hunks, offs)]))
  }

  /** What the inverse puts in place of the lines `here`: kept lines stand, a
      removed line comes back as the diff's text with LF. */
  function BackSide(body: seq<DiffLine>, here: seq<string>): seq<string>
    requires |here| == |Anchor(body)|
  {
    if body == [] then []
    else match body[0].op
      case Keep => [here[0]] + BackSide(body[1..], here[1..])
      case Remove => [WithNewline(body[0].text)] + BackSide(body[1..], here[1..])
      case Add => BackSide(body[1..], here)
  }

  // ----- One body

  ghost predicate Matches(body: seq<DiffLine>, here: seq<string>) {
    && |here| == |Anchor(body)|
    && forall k | 0 <= k < |here| :: SameText(here[k], Anchor(body)[k])
  }

  lemma {:induction false} MatchesTail(body: seq<DiffLine>, here: seq<string>)
    requires body != [] && Matches(body, here)
    ensures Matches(body[1..], if body[0].op == Add then here else here[1..])
    ensures body[0].op != Add ==> SameText(here[0], body[0].text)
  {
    hide SameText;
    if body[0].op != Add {
      assert forall k | 0 <= k < |here| - 1 :: here[1..][k] == here[k + 1] && Anchor(body)[k + 1] == Anchor(body[1..])[k];
    }
  }

  lemma {:induction false} NewlineKeepsText(text: string)
    ensures SameText(WithNewline(text), text)
  {
    if !EndsWithNewline(text) {
      hide Chomp;
      ChompUnique(text + "\n", Chomp(text));
    }
  }

  /** The flipped body's anchor is what the body left behind, and its new side
      is the rebuilt block. */
  lemma {:induction false} FlipSide(body: seq<DiffLine>, here: seq<string>)
    requires Matches(body, here)
    ensures Matches(FlipBody(body), NewSide(body, here))
    ensures NewSide(FlipBody(body), NewSide(body, here)) == BackSide(body, here)
  {
    if body != [] {
      MatchesTail(body, here);
      var rest := if body[0].op == Add then here else here[1..];
      FlipSide(body[1..], rest);
      FlipStep(body, here, rest);
    }
  }

  lemma {:induction false} FlipStep(body: seq<DiffLine>, here: seq<string>, rest: seq<string>)
    requires body != [] && |here| == |Anchor(body)| && rest == if body[0].op == Add then here else here[1..]
    requires body[0].op != Add ==> SameText(here[0], body[0].text)
    requires Matches(FlipBody(body[1..]), NewSide(body[1..], rest))
    requires NewSide(FlipBody(body[1..]), NewSide(body[1..], rest)) == BackSide(body[1..], rest)
    ensures Matches(FlipBody(body), NewSide(body, here))
    ensures NewSide(FlipBody(body), NewSide(body, here)) == BackSide(body, here)
  {
    hide SameText, WithNewline;
    var side, tail := NewSide(body, here), NewSide(body[1..], rest);
    assert FlipBody(body)[1..] == FlipBody(body[1..]);
    match body[0].op {
      case Keep =>
        assert side == [here[0]] + tail && side[1..] == tail;
      case Remove =>
        assert side == tail;
      case Add =>
        NewlineKeepsText(body[0].text);
        assert side == [WithNewline(body[0].text)] + tail && side[1..] == tail;
    }
  }

  predicate IsLf(l: string) {
    l == Chomp(l) + "\n"
  }

  /** Every line the body removes ends in LF alone. */
  predicate RemovesLf(body: seq<DiffLine>, here: seq<string>)
    requires |here| == |Anchor(body)|
  {
    body != [] ==>
      && (body[0].op == Remove ==> IsLf(here[0]))
      && RemovesLf(body[1..], if body[0].op == Add then here else here[1..])
  }

  /** The rebuilt block is the old block exactly when the removed lines ended in LF. */
  lemma {:induction false} BackSideIsHere(body: seq<DiffLine>, here: seq<string>)
    requires Matches(body, here) && GoodBody(body)
    ensures |BackSide(body, here)| == |here|
    ensures BackSide(body, here) == here <==> RemovesLf(body, here)
  {
    if body != [] {
      MatchesTail(body, here);
      GoodTail(body);
      var rest := if body[0].op == Add then here else here[1..];
      BackSideIsHere(body[1..], rest);
      BackSideStep(body, here, rest);
    }
  }

  lemma {:induction false} BackSideStep(body: seq<DiffLine>, here: seq<string>, rest: seq<string>)
    requires body != [] && |here| == |Anchor(body)| && rest == if body[0].op == Add then here else here[1..]
    requires body[0].op != Add ==> SameText(here[0], body[0].text) && Clean(body[0].text)
    requires |BackSide(body[1..], rest)| == |rest|
    requires BackSide(body[1..], rest) == rest <==> RemovesLf(body[1..], rest)
    ensures |BackSide(body, here)| == |here|
    ensures BackSide(body, here) == here <==> RemovesLf(body, here)
  {
    hide SameText, Clean, IsLf, WithNewline;
    if body[0].op != Add {
      var first := if body[0].op == Keep then here[0] else WithNewline(body[0].text);
      assert BackSide(body, here) == [first] + BackSide(body[1..], rest) && here == [here[0]] + rest;
      assert BackSide(body, here)[1..] == BackSide(body[1..], rest);
      if body[0].op == Remove {
        RebuiltLine(here[0], body[0].text);
      }
    }
  }

  lemma {:induction false} GoodTail(body: seq<DiffLine>)
    requires body != [] && GoodBody(body)
    ensures GoodBody(body[1..]) && Clean(body[0].text)
  {
  }

  lemma {:induction false} RebuiltLine(line: string, text: string)
    requires SameText(line, text) && Clean(text)
    ensures WithNewline(text) == text + "\n"
    ensures WithNewline(text) == line <==> IsLf(line)
  {
    ChompTerminated(text);
  }

  // ----- A whole file

  /** The hunks placed at `offs` matched there. */
  ghost predicate AllMatch(lines: seq<string>, hunks: seq<Hunk>, offs: seq<nat>)
    requires Fits(lines, hunks, offs)
  {
    offs != [] ==>
      && AllMatch(lines, hunks, Front(offs))
      && Matches(hunks[|offs| - 1].body, lines[Last(offs)..Cursor(hunks, offs)])
  }

  lemma {:induction false} PlacedMatch(lines: seq<string>, hunks: seq<Hunk>, k: nat)
    requires k <= |hunks| && Place(lines, hunks, k).Success?
    ensures Fits(lines, hunks, Place(lines, hunks, k).value)
    ensures AllMatch(lines, hunks, Place(lines, hunks, k).value)
  {
    PlaceFits(lines, hunks, k);
    if k > 0 {
      PlacedMatch(lines, hunks, k - 1);
      var init := Place(lines, hunks, k - 1).value;
      var offs := Place(lines, hunks, k).value;
      assert Front(offs) == init;
      LocateIsNearest(lines, Anchor(hunks[k - 1].body), hunks[k - 1].oldStart - 1, Cursor(hunks, init));
      assert MatchesAt(lines, Anchor(hunks[k - 1].body), Last(offs));
    }
  }

  ghost predicate Undoes(lines: seq<string>, hunks: seq<Hunk>, offs: seq<nat>, out: seq<string>)
    requires Fits(lines, hunks, offs)
  {
    var inverse := Inverse(lines, hunks, offs);
    && ExactHeaders(out, inverse)
    && EndOf(inverse) == |Output(lines, hunks, offs)|
    && ExactOutput(out, inverse) == Back(lines, hunks, offs)
  }

  lemma {:induction false} InverseUndoes(lines: seq<string>, hunks: seq<Hunk>, offs: seq<nat>, out: seq<string>)
    requires Fits(lines, hunks, offs) && AllMatch(lines, hunks, offs)
    requires Output(lines, hunks, offs) <= out
    ensures Undoes(lines, hunks, offs, out)
  {
    if offs != [] {
      var init, at := Front(offs), Last(offs);
      assert offs == init + [at] && |init| < |hunks|;
      hide *;
      InverseUnfold(lines, hunks, init, at);
      OutputInit(lines, hunks, init, at, out);
      InverseUndoes(lines, hunks, init, out);
      UndoStep(lines, hunks, init, at, out);
    }
  }

  lemma {:induction false} OutputInit(lines: seq<string>, hunks: seq<Hunk>, init: seq<nat>, at: nat, out: seq<string>)
    requires Fits(lines, hunks, init + [at]) && Fits(lines, hunks, init)
    requires Output(lines, hunks, init + [at]) <= out
    ensures Output(lines, hunks, init) <= out
  {
    hide NewSide, Fits, Output, Anchor;
    OutputLast(lines, hunks, init, at);
  }

  lemma {:induction false} InverseUnfold(lines: seq<string>, hunks: seq<Hunk>, init: seq<nat>, at: nat)
    requires Fits(lines, hunks, init + [at])
    ensures Fits(lines, hunks, init) && Cursor(hunks, init) <= at && at + OldSize(hunks[|init|]) <= |lines|
    ensures |Output(lines, hunks, init)| == Cursor(hunks, init) + Growth(hunks, |init|)
    ensures at + Growth(hunks, |init|) >= 0
    ensures Inverse(lines, hunks, init + [at]) == Inverse(lines, hunks, init)
      + [Hunk(at + Growth(hunks, |init|) + 1, FlipBody(hunks[|init|].body))]
    ensures Back(lines, hunks, init + [at]) == Back(lines, hunks, init)
      + (lines[Cursor(hunks, init)..at] + BackSide(hunks[|init|].body, lines[at..at + OldSize(hunks[|init|])]))
    ensures AllMatch(lines, hunks, init + [at]) ==>
      AllMatch(lines, hunks, init) && Matches(hunks[|init|].body, lines[at..at + OldSize(hunks[|init|])])
  {
    hide Anchor, BackSide, FlipBody, Growth;
    assert Front(init + [at]) == init && Last(init + [at]) == at;
    OutputLength(lines, hunks, init);
  }

  lemma {:induction false} UndoStep(lines: seq<string>, hunks: seq<Hunk>, init: seq<nat>, at: nat, out: seq<string>)
    requires |init| < |hunks| && Fits(lines, hunks, init + [at]) && AllMatch(lines, hunks, init + [at])
    requires Output(lines, hunks, init + [at]) <= out
    requires Fits(lines, hunks, init) && Undoes(lines, hunks, init, out)
    requires Cursor(hunks, init) <= at && at + OldSize(hunks[|init|]) <= |lines|
    ensures Undoes(lines, hunks, init + [at], out)
  {
    hide Anchor, NewSide, BackSide, FlipBody, Growth, Inverse, Back, AllMatch, Fits, Output;
    hide ExactHeaders, EndOf, ExactOutput, Cursor, Matches, MatchesAt;
    InverseUnfold(lines, hunks, init, at);
    var h := hunks[|init|];
    var here := lines[at..at + OldSize(h)];
    FlipSide(h.body, here);
    OutputLast(lines, hunks, init, at);
    BlockIn(out, Output(lines, hunks, init), lines[Cursor(hunks, init)..at], NewSide(h.body, here));
    var flipped := Hunk(at + Growth(hunks, |init|) + 1, FlipBody(h.body));
    MatchesInPlace(flipped.body, NewSide(h.body, here), out, flipped.oldStart - 1);
    ExactAppend(out, Inverse(lines, hunks, init), flipped);
  }

  lemma {:induction false} MatchesInPlace(body: seq<DiffLine>, here: seq<string>, lines: seq<string>, at: nat)
    requires Matches(body, here) && at + |here| <= |lines| && lines[at..at + |here|] == here
    ensures MatchesAt(lines, Anchor(body), at)
  {
    hide SameText, Anchor;
    assert forall k | 0 <= k < |here| :: here[k] == lines[at + k];
  }

  // ----- The theorem, on lines and on text

  /** Every line that any hunk removes ends in LF alone. */
  ghost predicate AllRemovalsLf(lines: seq<string>, hunks: seq<Hunk>, offs: seq<nat>)
    requires Fits(lines, hunks, offs)
  {
    offs != [] ==>
      && AllRemovalsLf(lines, hunks, Front(offs))
      && RemovesLf(hunks[|offs| - 1].body, lines[Last(offs)..Cursor(hunks, offs)])
  }

  ghost predicate GoodHunks(hunks: seq<Hunk>) {
    forall i | 0 <= i < |hunks| :: GoodBody(hunks[i].body)
  }

  lemma {:induction false} BackIsPrefix(lines: seq<string>, hunks: seq<Hunk>, offs: seq<nat>)
    requires Fits(lines, hunks, offs) && AllMatch(lines, hunks, offs) && GoodHunks(hunks)
    ensures |Back(lines, hunks, offs)| == CursorFits(lines, hunks, offs)
    ensures Back(lines, hunks, offs) == lines[..CursorFits(lines, hunks, offs)]
      <==> AllRemovalsLf(lines, hunks, offs)
  {
    if offs != [] {
      var init, at := Front(offs), Last(offs);
      var c, end := Cursor(hunks, init), Cursor(hunks, offs);
      var body := hunks[|offs| - 1].body;
      BackIsPrefix(lines, hunks, init);
      hide Fits, AllMatch, Anchor, Matches, BackSide, RemovesLf, Cursor;
      BackSideIsHere(body, lines[at..end]);
      ThreeParts(lines, c, at, end, Back(lines, hunks, init), BackSide(body, lines[at..end]));
    }
  }

  lemma {:induction false} ThreeParts<T>(s: seq<T>, c: nat, at: nat, end: nat, a: seq<T>, b: seq<T>)
    requires c <= at <= end <= |s| && |a| == c && |b| == end - at
    ensures a + (s[c..at] + b) == s[..end] <==> a == s[..c] && b == s[at..end]
  {
    var all := a + (s[c..at] + b);
    if all == s[..end] {
      assert a == all[..c] && b == all[at..];
    }
  }

  /** On lines. Applying the inverse always succeeds, and gives the old lines
      back if and only if every removed line ended in LF. */
  lemma {:induction false} UndoLines(lines: seq<string>, hunks: seq<Hunk>, offs: seq<nat>)
    requires Place(lines, hunks, |hunks|) == Success(offs) && Fits(lines, hunks, offs)
    requires GoodHunks(hunks)
    ensures PatchLines(Splice(lines, hunks, offs), Inverse(lines, hunks, offs))
      == Success(Back(lines, hunks, offs) + lines[CursorFits(lines, hunks, offs)..])
    ensures Back(lines, hunks, offs) + lines[CursorFits(lines, hunks, offs)..] == lines
      <==> AllRemovalsLf(lines, hunks, offs)
  {
    PlacedMatch(lines, hunks, |hunks|);
    var out := Splice(lines, hunks, offs);
    InverseUndoes(lines, hunks, offs, out);
    PatchExact(out, Inverse(lines, hunks, offs));
    BackIsPrefix(lines, hunks, offs);
    var c := CursorFits(lines, hunks, offs);
    hide *;
    SplitPoint(lines, c, Back(lines, hunks, offs));
  }

  lemma {:induction false} SplitPoint<T>(s: seq<T>, c: nat, a: seq<T>)
    requires c <= |s| && |a| == c
    ensures a + s[c..] == s <==> a == s[..c]
  {
    if a + s[c..] == s {
      assert a == (a + s[c..])[..c];
    }
  }

  // ----- The lines of the patched file

  /** Every line of a new side was there before, or is an added text with LF. */
  lemma {:induction false} NewSideFrom(body: seq<DiffLine>, here: seq<string>)
    requires |here| == |Anchor(body)| && GoodBody(body)
    ensures forall l | l in NewSide(body, here) :: l in here || Terminated(l)
  {
    if body != [] {
      hide Terminated, GoodBody, WithNewline;
      GoodTail(body);
      NewSideFrom(body[1..], if body[0].op == Add then here else here[1..]);
      if body[0].op == Add {
        AddedTerminated(body[0].text);
      }
    }
  }

  lemma {:induction false} AddedTerminated(text: string)
    requires Clean(text)
    ensures Terminated(WithNewline(text))
  {
    ChompTerminated(text);
  }

  lemma {:induction false} OutputFrom(lines: seq<string>, hunks: seq<Hunk>, offs: seq<nat>)
    requires Fits(lines, hunks, offs) && GoodHunks(hunks)
    ensures forall l | l in Output(lines, hunks, offs) :: l in lines || Terminated(l)
  {
    if offs != [] {
      hide Terminated, NewSide, Anchor, Cursor;
      OutputFrom(lines, hunks, Front(offs));
      NewSideFrom(hunks[|offs| - 1].body, lines[Last(offs)..Cursor(hunks, offs)]);
    }
  }

  lemma {:induction false} PatchFrom(lines: seq<string>, hunks: seq<Hunk>)
    requires PatchLines(lines, hunks).Success? && GoodHunks(hunks)
    ensures forall l | l in PatchLines(lines, hunks).value :: l in lines || Terminated(l)
  {
    var offs := Place(lines, hunks, |hunks|).value;
    PlaceFits(lines, hunks, |hunks|);
    hide Terminated, Output, Fits, Place;
    OutputFrom(lines, hunks, offs);
  }

  lemma {:induction false} PatchWhole(lines: seq<string>, hunks: seq<Hunk>)
    requires PatchLines(lines, hunks).Success? && GoodHunks(hunks)
    requires forall l | l in lines :: WholeLine(l)
    ensures forall l | l in PatchLines(lines, hunks).value :: WholeLine(l)
  {
    hide PatchLines, WholeLine, Terminated;
    PatchFrom(lines, hunks);
    forall l | l in PatchLines(lines, hunks).value ensures WholeLine(l) {
      if l !in lines {
        TerminatedWhole(l);
      }
    }
  }

  lemma {:induction false} NothingMerges(lines: seq<string>, hunks: seq<Hunk>)
    requires PatchLines(lines, hunks).Success? && GoodHunks(hunks)
    requires forall l | l in lines :: !EndsWithCr(l)
    ensures forall l | l in PatchLines(lines, hunks).value :: !EndsWithCr(l)
    ensures NoMerge(PatchLines(lines, hunks).value)
  {
    hide PatchLines, Terminated, EndsWithCr;
    PatchFrom(lines, hunks);
    forall l | l in PatchLines(lines, hunks).value ensures !EndsWithCr(l) {
      if l !in lines {
        TerminatedWhole(l);
      }
    }
  }

  lemma {:induction false} FileWithoutBareCR(original: string)
    requires NoBareCR(original)
    ensures forall l | l in FileLines(original) :: !EndsWithCr(l)
  {
    if original != "" {
      hide Terminated, SplitLines, WithNewline, EndsWithCr;
      SplitNoBareCR(original);
      CompleteWhole(original);
      var ls := SplitLines(original);
      forall i | 0 <= i < |ls| - 1 ensures !EndsWithCr(ls[i]) {
        TerminatedWhole(ls[i]);
      }
    }
  }

  /** A file without bare CR reads back as it was put together, after any patch. */
  lemma {:induction false} PlainFileReadsBack(original: string, hunks: seq<Hunk>)
    requires NoBareCR(original) && GoodHunks(hunks) && PatchLines(FileLines(original), hunks).Success?
    ensures NoMerge(PatchLines(FileLines(original), hunks).value)
  {
    hide FileLines, NoBareCR, EndsWithCr, PatchLines;
    FileWithoutBareCR(original);
    NothingMerges(FileLines(original), hunks);
  }

  // ----- Text

  /** `a` is `b`, except that some lines ended by CR or CRLF are ended by LF. */
  ghost predicate Rebuilt(a: seq<string>, b: seq<string>) {
    && |a| == |b|
    && forall i | 0 <= i < |a| :: RebuiltAs(a[i], b[i])
  }

  ghost predicate RebuiltAs(a: string, b: string) {
    a == b || a == Chomp(b) + "\n"
  }

  lemma {:induction false} BackSideRebuilt(body: seq<DiffLine>, here: seq<string>)
    requires Matches(body, here) && GoodBody(body)
    ensures Rebuilt(BackSide(body, here), here)
  {
    if body != [] {
      hide GoodBody, SameText, RebuiltAs, Rebuilt, WithNewline;
      MatchesTail(body, here);
      GoodTail(body);
      var rest := if body[0].op == Add then here else here[1..];
      BackSideRebuilt(body[1..], rest);
      if body[0].op != Add {
        RebuiltText(here[0], body[0].text);
        BackSideUnfold(body, here, rest);
      }
    }
  }

  lemma {:induction false} BackSideUnfold(body: seq<DiffLine>, here: seq<string>, rest: seq<string>)
    requires body != [] && body[0].op != Add && |here| == |Anchor(body)| && rest == here[1..]
    requires RebuiltAs(here[0], here[0]) && RebuiltAs(WithNewline(body[0].text), here[0])
    requires Rebuilt(BackSide(body[1..], rest), rest)
    ensures Rebuilt(BackSide(body, here), here)
  {
    hide RebuiltAs, WithNewline;
    var tail := BackSide(body[1..], rest);
    hide BackSide;
    assert BackSide(body, here) == [if body[0].op == Keep then here[0] else WithNewline(body[0].text)] + tail by {
      BackSideFirst(body, here);
    }
    assert here == [here[0]] + rest;
  }

  lemma {:induction false} BackSideFirst(body: seq<DiffLine>, here: seq<string>)
    requires body != [] && body[0].op != Add && |here| == |Anchor(body)|
    ensures BackSide(body, here)
      == [if body[0].op == Keep then here[0] else WithNewline(body[0].text)] + BackSide(body[1..], here[1..])
  {
    hide WithNewline;
  }

  lemma {:induction false} RebuiltText(line: string, text: string)
    requires SameText(line, text) && Clean(text)
    ensures RebuiltAs(line, line) && RebuiltAs(WithNewline(text), line)
  {
    ChompTerminated(text);
  }

  lemma {:induction false} BackRebuilt(lines: seq<string>, hunks: seq<Hunk>, offs: seq<nat>)
    requires Fits(lines, hunks, offs) && AllMatch(lines, hunks, offs) && GoodHunks(hunks)
    ensures Rebuilt(Back(lines, hunks, offs), lines[..CursorFits(lines, hunks, offs)])
  {
    if offs != [] {
      var init, at := Front(offs), Last(offs);
      var c, end := Cursor(hunks, init), Cursor(hunks, offs);
      BackRebuilt(lines, hunks, init);
      hide Fits, AllMatch, Anchor, Matches, BackSide, Cursor, GoodBody;
      BackSideRebuilt(hunks[|offs| - 1].body, lines[at..end]);
      RebuiltParts(lines, c, at, end, Back(lines, hunks, init), BackSide(hunks[|offs| - 1].body, lines[at..end]));
    }
  }

  lemma {:induction false} RebuiltParts(s: seq<string>, c: nat, at: nat, end: nat, a: seq<string>, b: seq<string>)
    requires c <= at <= end <= |s| && Rebuilt(a, s[..c]) && Rebuilt(b, s[at..end])
    ensures Rebuilt(a + (s[c..at] + b), s[..end])
    ensures Rebuilt(a + s[c..], s)
  {
    hide RebuiltAs;
    assert forall l :: RebuiltAs(l, l) by { SameRebuilt(); }
    assert forall i | 0 <= i < |a| :: s[..c][i] == s[i];
    assert forall i | 0 <= i < |b| :: s[at..end][i] == s[at + i];
  }

  lemma {:induction false} SameRebuilt()
    ensures forall l :: RebuiltAs(l, l)
  {
  }

  /** Rebuilt lines give the old text only if they are the old lines. */
  lemma {:induction false} RebuiltJoin(a: seq<string>, b: seq<string>)
    requires Rebuilt(a, b) && forall l | l in b :: WholeLine(l)
    ensures Join(a) == Join(b) <==> a == b
  {
    if a != [] {
      assert RebuiltAs(a[0], b[0]) && b[0] in b;
      RebuiltJoin(a[1..], b[1..]);
      hide Join;
      RebuiltFirst(a[0], b[0], Join(a[1..]), Join(b[1..]));
      assert Join(a) == a[0] + Join(a[1..]) && Join(b) == b[0] + Join(b[1..]) by { JoinFirst(a); JoinFirst(b); }
    }
  }

  lemma {:induction false} JoinFirst(a: seq<string>)
    requires a != []
    ensures Join(a) == a[0] + Join(a[1..])
  {
  }

  lemma {:induction false} RebuiltFirst(a: string, b: string, s: string, t: string)
    requires RebuiltAs(a, b) && WholeLine(b)
    ensures a + s == b + t <==> a == b && s == t
  {
    hide Clean;
    if a != b {
      var k := |Chomp(b)|;
      assert (a + s)[k] == '\n' && (b + t)[k] == b[k];
    } else if a + s == b + t {
      assert s == (a + s)[|a|..] == (b + t)[|b|..] == t;
    }
  }

  /** On text, for parsed hunks: whenever the patched file reads back as the lines
      it was put together from, the inverse applies to it, and restores the
      original file if and only if the original ended in a newline and every
      removed line ended in LF. */
  lemma {:induction false} UndoApplies(original: string, hunks: seq<Hunk>)
    requires GoodHunks(hunks) && PatchLines(FileLines(original), hunks).Success?
    requires NoMerge(PatchLines(FileLines(original), hunks).value)
    ensures var lines := FileLines(original);
      var offs := Place(lines, hunks, |hunks|).value;
      && Fits(lines, hunks, offs)
      && PatchText(original, hunks).Success?
      && PatchText(PatchText(original, hunks).value, Inverse(lines, hunks, offs)).Success?
      && (PatchText(PatchText(original, hunks).value, Inverse(lines, hunks, offs)) == Success(original)
        <==> (original == "" || EndsWithNewline(original)) && AllRemovalsLf(lines, hunks, offs))
  {
    var lines := FileLines(original);
    var offs := Place(lines, hunks, |hunks|).value;
    FileLinesWhole(original);
    PatchWhole(lines, hunks);
    PlacedMatch(lines, hunks, |hunks|);
    var out := Splice(lines, hunks, offs);
    var c := CursorFits(lines, hunks, offs);
    assert PatchLines(lines, hunks) == Success(out);
    var back := Back(lines, hunks, offs) + lines[c..];
    hide Output, Back, Place, WholeLine, AllRemovalsLf, Inverse, FileLines, EndsWithNewline, Fits, AllMatch, NoMerge;
    ReadsBackExactly(out);
    UndoLines(lines, hunks, offs);
    assert PatchText(Join(out), Inverse(lines, hunks, offs)) == Success(Join(back));
    BackRebuilt(lines, hunks, offs);
    RebuiltParts(lines, c, c, c, Back(lines, hunks, offs), []);
    Restores(original, lines, back);
  }

  lemma {:induction false} Restores(original: string, lines: seq<string>, back: seq<string>)
    requires lines == FileLines(original) && Rebuilt(back, lines)
    requires forall l | l in lines :: WholeLine(l)
    ensures Join(back) == original <==> (original == "" || EndsWithNewline(original)) && back == lines
  {
    hide WholeLine, RebuiltAs, Join, EndsWithNewline;
    JoinFileLines(original);
    RebuiltJoin(back, lines);
    if original != "" {
      hide FileLines;
      LastOfFile(original);
      EndsTogether(back, lines);
    }
  }

  lemma {:induction false} LastOfFile(original: string)
    requires original != ""
    ensures FileLines(original) != [] && EndsWithNewline(Last(FileLines(original)))
  {
    CompleteWhole(original);
  }

  lemma {:induction false} EndsTogether(a: seq<string>, b: seq<string>)
    requires Rebuilt(a, b) && b != [] && EndsWithNewline(Last(b))
    ensures EndsWithNewline(Join(a))
  {
    hide Chomp, Join;
    assert RebuiltAs(Last(a), Last(b)) && a == Front(a) + [Last(a)];
    JoinLast(Front(a), Last(a));
  }

  // ----- Where lines merge, nothing is restored

  lemma {:induction false} NewSideCrs(body: seq<DiffLine>, here: seq<string>)
    requires |here| == |Anchor(body)| && GoodBody(body)
    ensures Crs(NewSide(body, here)) <= Crs(here)
  {
    if body != [] {
      hide EndsWithCr, GoodBody, WithNewline;
      GoodTail(body);
      var rest := if body[0].op == Add then here else here[1..];
      NewSideCrs(body[1..], rest);
      if body[0].op == Keep {
        CrsAppend([here[0]], NewSide(body[1..], rest));
        CrsLast([], here[0]);
      } else if body[0].op == Add {
        AddedNoCr(body[0].text);
        CrsAppend([WithNewline(body[0].text)], NewSide(body[1..], rest));
        CrsLast([], WithNewline(body[0].text));
      }
    }
  }

  lemma {:induction false} AddedNoCr(text: string)
    requires Clean(text)
    ensures !EndsWithCr(WithNewline(text))
  {
  }

  lemma {:induction false} OutputCrs(lines: seq<string>, hunks: seq<Hunk>, offs: seq<nat>)
    requires Fits(lines, hunks, offs) && GoodHunks(hunks)
    ensures Crs(Output(lines, hunks, offs)) <= Crs(lines[..CursorFits(lines, hunks, offs)])
  {
    if offs != [] {
      var init, at := Front(offs), Last(offs);
      assert offs == init + [at] && |init| < |hunks|;
      var c, end := Cursor(hunks, init), Cursor(hunks, offs);
      OutputCrs(lines, hunks, init);
      hide Anchor, NewSide, Crs, Output, Fits, GoodBody;
      OutputLast(lines, hunks, init, at);
      var side := NewSide(hunks[|init|].body, lines[at..end]);
      NewSideCrs(hunks[|init|].body, lines[at..end]);
      CrsAppend(Output(lines, hunks, init), lines[c..at] + side);
      CrsAppend(lines[c..at], side);
      CrsOfParts(lines, c, at, end);
    }
  }

  lemma {:induction false} CrsOfParts(lines: seq<string>, c: nat, at: nat, end: nat)
    requires c <= at <= end <= |lines|
    ensures Crs(lines[..end]) == Crs(lines[..c]) + Crs(lines[c..at]) + Crs(lines[at..end])
  {
    hide Crs;
    CrsAppend(lines[..c], lines[c..at]);
    CrsAppend(lines[..at], lines[at..end]);
    assert lines[..c] + lines[c..at] == lines[..at] && lines[..at] + lines[at..end] == lines[..end];
  }

  /** A patch never adds a bare CR. */
  lemma {:induction false} PatchCrs(lines: seq<string>, hunks: seq<Hunk>)
    requires PatchLines(lines, hunks).Success? && GoodHunks(hunks)
    ensures Crs(PatchLines(lines, hunks).value) <= Crs(lines)
  {
    var offs := Place(lines, hunks, |hunks|).value;
    PlaceFits(lines, hunks, |hunks|);
    hide Crs, Output, Fits, Place, GoodBody;
    OutputCrs(lines, hunks, offs);
    var c := CursorFits(lines, hunks, offs);
    CrsAppend(Output(lines, hunks, offs), lines[c..]);
    CrsAppend(lines[..c], lines[c..]);
    assert lines[..c] + lines[c..] == lines;
  }

  lemma {:induction false} FlipGood(body: seq<DiffLine>)
    requires GoodBody(body)
    ensures GoodBody(FlipBody(body))
  {
    if body != [] {
      GoodTail(body);
      FlipGood(body[1..]);
      hide Clean;
    }
  }

  lemma {:induction false} InverseGood(lines: seq<string>, hunks: seq<Hunk>, offs: seq<nat>)
    requires Fits(lines, hunks, offs) && GoodHunks(hunks)
    ensures GoodHunks(Inverse(lines, hunks, offs))
  {
    if offs != [] {
      hide GoodBody, FlipBody, Anchor;
      InverseGood(lines, hunks, Front(offs));
      FlipGood(hunks[|offs| - 1].body);
    }
  }

  /** What a patch makes of a text, read back, has no more bare CRs than the text,
      and fewer if lines of it merge. */
  lemma {:induction false} PatchTextCrs(text: string, hunks: seq<Hunk>)
    requires GoodHunks(hunks) && PatchText(text, hunks).Success?
    ensures Crs(FileLines(PatchText(text, hunks).value)) <= Crs(FileLines(text))
    ensures !NoMerge(PatchLines(FileLines(text), hunks).value) ==>
      Crs(FileLines(PatchText(text, hunks).value)) < Crs(FileLines(text))
  {
    hide PatchLines, FileLines, Crs, GoodHunks, NoMerge, WholeLine;
    FileLinesWhole(text);
    PatchWhole(FileLines(text), hunks);
    PatchCrs(FileLines(text), hunks);
    ReadingLosesCrs(PatchLines(FileLines(text), hunks).value);
  }

  /** On text, for parsed hunks, exactly: applying the inverse to the patched file
      restores the original if and only if no bare CR was completed by an LF in
      the patched file, the original ended in a newline, and every removed line
      ended in LF. */
  lemma {:induction false} UndoText(original: string, hunks: seq<Hunk>)
    requires GoodHunks(hunks) && PatchLines(FileLines(original), hunks).Success?
    ensures var lines := FileLines(original);
      var offs := Place(lines, hunks, |hunks|).value;
      && Fits(lines, hunks, offs)
      && PatchText(original, hunks).Success?
      && (PatchText(PatchText(original, hunks).value, Inverse(lines, hunks, offs)) == Success(original)
        <==> (NoMerge(PatchLines(lines, hunks).value)
          && (original == "" || EndsWithNewline(original)) && AllRemovalsLf(lines, hunks, offs)))
  {
    var lines := FileLines(original);
    var offs := Place(lines, hunks, |hunks|).value;
    PlaceFits(lines, hunks, |hunks|);
    assert PatchText(original, hunks).Success?;
    hide Place, AllRemovalsLf, Inverse, FileLines, EndsWithNewline, NoMerge, GoodHunks, Fits, PatchLines;
    if NoMerge(PatchLines(lines, hunks).value) {
      UndoApplies(original, hunks);
    } else {
      var text, inverse := PatchText(original, hunks).value, Inverse(lines, hunks, offs);
      PatchTextCrs(original, hunks);
      InverseGood(lines, hunks, offs);
      if PatchText(text, inverse).Success? {
        PatchTextCrs(text, inverse);
      }
    }
  }
}
