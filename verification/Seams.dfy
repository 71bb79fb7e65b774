/**
 Bottom-up editing on text. Between two edits the file is put together and cut
 into lines again, and a bare CR can change there: an empty line put after it, or
 the end of the file, completes it. When that makes a difference, exactly.
 */
module Seams {
  import opened Results
  import opened Lines
  import opened Patch
  import opened Exact
  import opened DiffParser
  import opened Inversion
  import opened Relocation

  /** The hunks applied to the text one at a time, last one first. */
  ghost function BottomUpText(text: string, hunks: seq<Hunk>): Result<string, PatchError>
    decreases |hunks|
  {
    if hunks == [] then Success(text)
    else
      match PatchText(text, [Last(hunks)])
      case Failure(e) => Failure(e)
      case Success(next) => BottomUpText(next, Front(hunks))
  }

  // ----- What a hunk leaves of the last line before its end

  /** The operation on the last context or removal line, if there is one. */
  function LastOp(body: seq<DiffLine>): Option<Op> {
    if body == [] then None else if Last(body).op != Add then Some(Last(body).op) else LastOp(Front(body))
  }

  /** The lines added after the last context or removal line. */
  function AddedLast(body: seq<DiffLine>): seq<string> {
    if body == [] || Last(body).op != Add then [] else AddedLast(Front(body)) + [WithNewline(Last(body).text)]
  }

  predicate Empties(ls: seq<string>) {
    forall i | 0 <= i < |ls| :: ls[i] == "\n"
  }

  lemma {:induction false} AnchorSnoc(body: seq<DiffLine>)
    requires body != []
    ensures Anchor(body) == Anchor(Front(body)) + if Last(body).op == Add then [] else [Last(body).text]
  {
    if |body| > 1 {
      AnchorSnoc(body[1..]);
      assert Front(body)[1..] == Front(body[1..]) && Last(body[1..]) == Last(body);
    }
  }

  /** A body laid over `here`, taken apart at its last line. */
  ghost predicate EndsAs(body: seq<DiffLine>, here: seq<string>)
    requires body != [] && |here| == |Anchor(body)|
  {
    if Last(body).op == Add then
      |Anchor(Front(body))| == |here| && NewSide(body, here) == NewSide(Front(body), here) + [WithNewline(Last(body).text)]
    else
      here != [] && |Anchor(Front(body))| == |here| - 1
      && NewSide(body, here) == NewSide(Front(body), Front(here)) + if Last(body).op == Keep then [Last(here)] else []
  }

  lemma {:induction false} NewSideSnoc(body: seq<DiffLine>, here: seq<string>)
    requires body != [] && |here| == |Anchor(body)|
    ensures EndsAs(body, here)
  {
    hide WithNewline;
    AnchorSnoc(body);
    if |body| > 1 {
      var rest := if body[0].op == Add then here else here[1..];
      NewSideSnoc(body[1..], rest);
      SnocStep(body, here, rest);
    } else {
      OneSnoc(body, here);
    }
  }

  lemma {:induction false} OneSnoc(body: seq<DiffLine>, here: seq<string>)
    requires |body| == 1 && |here| == |Anchor(body)|
    ensures EndsAs(body, here)
  {
    hide WithNewline;
    assert Front(body) == [] && body[1..] == [] && Last(body) == body[0];
    assert NewSide([], []) == [];
    if body[0].op == Add {
      assert here == [];
    } else {
      assert |here| == 1 && Front(here) == [] && here[1..] == [] && Last(here) == here[0];
    }
  }

  lemma {:induction false} SnocStep(body: seq<DiffLine>, here: seq<string>, rest: seq<string>)
    requires |body| > 1 && |here| == |Anchor(body)| && rest == if body[0].op == Add then here else here[1..]
    requires |Anchor(body)| == |Anchor(Front(body))| + if Last(body).op == Add then 0 else 1
    requires |rest| == |Anchor(body[1..])| && EndsAs(body[1..], rest)
    ensures EndsAs(body, here)
  {
    hide WithNewline;
    assert Front(body)[1..] == Front(body[1..]) && Front(body)[0] == body[0] && Last(body[1..]) == Last(body);
    if body[0].op != Add && Last(body).op != Add {
      assert Front(here)[1..] == Front(rest) && Front(here)[0] == here[0] && Last(here) == Last(rest);
    }
  }

  function OldLength(body: seq<DiffLine>): nat {
    |Anchor(body)|
  }

  /** The lines `before` with the body applied at their end. */
  function Applied(before: seq<string>, body: seq<DiffLine>): seq<string>
    requires OldLength(body) <= |before|
  {
    before[..|before| - OldLength(body)] + NewSide(body, before[|before| - OldLength(body)..])
  }

  lemma {:induction false} AppliedSnoc(before: seq<string>, body: seq<DiffLine>)
    requires body != [] && OldLength(body) <= |before|
    ensures if Last(body).op == Add then
        OldLength(Front(body)) == OldLength(body)
        && Applied(before, body) == Applied(before, Front(body)) + [WithNewline(Last(body).text)]
      else
        before != [] && OldLength(Front(body)) == OldLength(body) - 1
        && Applied(before, body) == Applied(Front(before), Front(body)) + if Last(body).op == Keep then [Last(before)] else []
  {
    hide Anchor, NewSide, WithNewline;
    var n := |before| - OldLength(body);
    NewSideSnoc(body, before[n..]);
    if Last(body).op == Add {
      Assoc(before[..n], NewSide(Front(body), before[n..]), [WithNewline(Last(body).text)]);
    } else {
      assert Front(before)[..n] == before[..n] && Front(before)[n..] == Front(before[n..]);
      Assoc(before[..n], NewSide(Front(body), Front(before[n..])), if Last(body).op == Keep then [Last(before)] else []);
    }
  }

  /** A body that removes the last line leaves nothing of it. */
  lemma {:induction false} LastIsTaken(init: seq<string>, a: string, b: string, body: seq<DiffLine>)
    requires LastOp(body) == Some(Remove) && OldLength(body) <= |init| + 1
    ensures Applied(init + [a], body) == Applied(init + [b], body)
    decreases |body|
  {
    hide Applied, OldLength, WithNewline;
    AppliedSnoc(init + [a], body);
    AppliedSnoc(init + [b], body);
    if Last(body).op == Add {
      LastIsTaken(init, a, b, Front(body));
    } else {
      assert Front(init + [a]) == init == Front(init + [b]);
    }
  }

  /** Any other body leaves it where it was, before what the body adds after it. */
  ghost predicate LeavesLast(init: seq<string>, body: seq<DiffLine>, kept: seq<string>)
    requires OldLength(body) <= |init| + 1
  {
    forall l :: Applied(init + [l], body) == kept + [l] + AddedLast(body)
  }

  lemma {:induction false} LastIsLeft(init: seq<string>, body: seq<DiffLine>) returns (kept: seq<string>)
    requires LastOp(body) != Some(Remove) && OldLength(body) <= |init| + 1
    ensures LeavesLast(init, body, kept)
    decreases |body|
  {
    if body == [] {
      kept := init;
      forall l ensures Applied(init + [l], body) == kept + [l] + AddedLast(body) {
        assert (init + [l])[..|init| + 1] == init + [l];
      }
    } else {
      hide Applied, OldLength, WithNewline;
      AppliedSnoc(init + [""], body);
      if Last(body).op == Add {
        kept := LastIsLeft(init, Front(body));
      } else {
        kept := Applied(init, Front(body));
      }
      forall l ensures Applied(init + [l], body) == kept + [l] + AddedLast(body) {
        AppliedSnoc(init + [l], body);
        assert Front(init + [l]) == init && Last(init + [l]) == l;
        if Last(body).op == Add {
          Assoc(kept + [l], AddedLast(Front(body)), [WithNewline(Last(body).text)]);
        } else {
          assert kept + [l] + [] == kept + [l];
        }
      }
    }
  }

  // ----- How a file of two parts reads back

  predicate AllWhole(ls: seq<string>) {
    forall i | 0 <= i < |ls| :: WholeLine(ls[i])
  }

  predicate EndsClean(ls: seq<string>) {
    ls == [] || !EndsWithCr(Last(ls))
  }

  /** Lines `before` a hunk's end and lines `after` it, where an LF completes the last
      line before: that of an empty line after it, or that of the end of the file. */
  predicate Completed(before: seq<string>, after: seq<string>) {
    before != [] && EndsWithCr(Last(before)) && (after == [] || after[0] == "\n")
  }

  function ReadBefore(before: seq<string>, after: seq<string>): seq<string> {
    if Completed(before, after) then Front(before) + [Last(before) + "\n"] else before
  }

  function LeftAfter(before: seq<string>, after: seq<string>): seq<string> {
    if Completed(before, after) && after != [] then after[1..] else after
  }

  function Complete(s: string): string {
    if s == "" then s else WithNewline(s)
  }

  lemma {:induction false} FileLinesAfter(ls: seq<string>, s: string)
    requires AllWhole(ls) && Apart(ls) && Boundary(Join(ls), s) && (s == "" ==> EndsClean(ls))
    ensures FileLines(Join(ls) + s) == ls + FileLines(s)
  {
    hide WholeLine, SplitLines, Boundary, EndsWithCr, WithNewline, Join, Apart;
    SplitJoinApart(ls);
    SplitBoundary(Join(ls), s);
    NoLines();
    if s == "" {
      assert SplitLines(Join(ls) + s) == ls + [];
      if ls != [] {
        WholeLineEnds(Last(ls));
        NewlineStays(Last(ls));
        assert ls[|ls| - 1 := Last(ls)] == ls;
      }
    } else {
      LastLine(s);
      var rest := SplitLines(s);
      assert Last(ls + rest) == Last(rest);
      assert (ls + rest)[|ls + rest| - 1 := WithNewline(Last(rest))] == ls + rest[|rest| - 1 := WithNewline(Last(rest))];
    }
  }

  lemma {:induction false} NoLines()
    ensures SplitLines("") == [] && Join([]) == ""
  {
  }

  lemma {:induction false} NewlineStays(l: string)
    requires EndsWithNewline(l)
    ensures WithNewline(l) == l
  {
  }

  lemma {:induction false} JoinEnd(ls: seq<string>)
    requires AllWhole(ls)
    ensures Join(ls) == "" <==> ls == []
    ensures ls != [] ==> Join(ls) != "" && Join(ls)[|Join(ls)| - 1] == Last(ls)[|Last(ls)| - 1]
    ensures ls != [] ==> (Join(ls)[0] == '\n' <==> ls[0] == "\n")
  {
    hide WholeLine, EndsWithCr;
    if ls != [] {
      WholeLineEnds(Last(ls));
      WholeLineEnds(ls[0]);
      assert ls == Front(ls) + [Last(ls)];
      JoinLast(Front(ls), Last(ls));
    }
  }

  lemma {:induction false} CompletedLine(l: string)
    requires WholeLine(l) && EndsWithCr(l)
    ensures WholeLine(l + "\n") && !EndsWithCr(l + "\n") && Chomp(l + "\n") == Chomp(l)
  {
    hide Terminated, LineShape, Chomp;
    CompleteLine(l);
    TerminatedWhole(l + "\n");
    assert Chomp(l) <= l + "\n";
    ChompUnique(l + "\n", Chomp(l));
  }

  lemma {:induction false} ReadBeforeIsWhole(before: seq<string>, after: seq<string>)
    requires AllWhole(before) && Apart(before)
    ensures AllWhole(ReadBefore(before, after)) && Apart(ReadBefore(before, after))
  {
    hide WholeLine, EndsWithCr;
    if Completed(before, after) {
      CompletedLine(Last(before));
      WholeLineEnds(Last(before));
      var read := ReadBefore(before, after);
      forall i | 0 <= i < |read| - 1 && EndsWithCr(read[i]) ensures read[i + 1] != "\n" {
        assert before[i] == read[i] && before[i + 1] != "\n";
        assert i + 1 == |read| - 1 ==> |read[i + 1]| > 1;
      }
    }
  }

  /** A file put together from two parts, read back: the first part with its last
      line completed where it is, and the rest as it reads on its own. */
  lemma {:induction false} ReadsAs(before: seq<string>, after: seq<string>)
    requires AllWhole(before) && Apart(before) && AllWhole(after)
    ensures FileLines(Join(before + after))
      == ReadBefore(before, after) + FileLines(Join(LeftAfter(before, after)))
  {
    hide WholeLine, EndsWithCr, FileLines, Apart, Boundary;
    JoinAppend(before, after);
    if Completed(before, after) && after == [] {
      EndCompleted(before);
      NoFileLines();
      assert before + [] == before;
      assert ReadBefore(before, after) + [] == ReadBefore(before, after);
    } else {
      var read, left := ReadBefore(before, after), LeftAfter(before, after);
      ReadBeforeIsWhole(before, after);
      JoinedTheSame(before, after);
      TwoParts(before, after);
      FileLinesAfter(read, Join(left));
    }
  }

  lemma {:induction false} NoFileLines()
    ensures FileLines(Join([])) == []
  {
  }

  lemma {:induction false} EndCompleted(before: seq<string>)
    requires AllWhole(before) && Apart(before) && before != [] && EndsWithCr(Last(before))
    ensures FileLines(Join(before)) == Front(before) + [Last(before) + "\n"]
  {
    hide WholeLine, Join, SplitLines;
    SplitJoinApart(before);
    assert before[|before| - 1 := Last(before) + "\n"] == Front(before) + [Last(before) + "\n"];
  }

  lemma {:induction false} JoinedTheSame(before: seq<string>, after: seq<string>)
    requires AllWhole(before) && AllWhole(after)
    requires Completed(before, after) ==> after != []
    ensures Join(before + after) == Join(ReadBefore(before, after)) + Join(LeftAfter(before, after))
  {
    hide WholeLine, EndsWithCr;
    JoinAppend(before, after);
    if Completed(before, after) {
      assert before == Front(before) + [Last(before)];
      JoinLast(Front(before), Last(before));
      JoinLast(Front(before), Last(before) + "\n");
      assert Join(after) == "\n" + Join(after[1..]);
      assert Join(Front(before)) + Last(before) + ("\n" + Join(after[1..]))
        == Join(Front(before)) + (Last(before) + "\n") + Join(after[1..]);
    }
  }

  lemma {:induction false} TwoParts(before: seq<string>, after: seq<string>)
    requires AllWhole(before) && AllWhole(after) && AllWhole(ReadBefore(before, after))
    requires Completed(before, after) ==> after != []
    ensures Boundary(Join(ReadBefore(before, after)), Join(LeftAfter(before, after)))
    ensures Join(LeftAfter(before, after)) == "" ==> EndsClean(ReadBefore(before, after))
    ensures AllWhole(LeftAfter(before, after))
  {
    hide WholeLine, Join;
    var read, left := ReadBefore(before, after), LeftAfter(before, after);
    assert AllWhole(left);
    JoinEnd(read);
    JoinEnd(left);
    if read != [] {
      WholeLineEnds(Last(read));
    }
  }

  // ----- One step

  /** Applying a hunk to the file `before + after`, at the end of `before`, does to
      the text what it does to the lines. Where an LF completes the last line
      before: either the hunk removes that line and nothing comes after, or the
      file has a line after that ends well and the hunk adds only empty lines
      after that line. Anywhere else: the file ends well. */
  predicate StepAgrees(before: seq<string>, body: seq<DiffLine>, after: seq<string>) {
    if !Completed(before, after) then EndsClean(after)
    else if LastOp(body) == Some(Remove) then after == []
    else after != [] && EndsClean(after) && Empties(AddedLast(body))
  }

  lemma {:induction false} AppliedInFile(lines: seq<string>, h: Hunk, rest: seq<string>)
    requires 1 <= h.oldStart && h.oldStart - 1 + OldLength(h.body) == |lines|
    requires MatchesAt(lines, Anchor(h.body), h.oldStart - 1)
    ensures PatchLines(lines + rest, [h]) == Success(Applied(lines, h.body) + rest)
  {
    hide PatchLines, Anchor, NewSide, Lines.SplitLines;
    var at, end := h.oldStart - 1, |lines|;
    assert MatchesAt(lines + rest, Anchor(h.body), at) by {
      assert forall k | 0 <= k < |lines| :: (lines + rest)[k] == lines[k];
    }
    OneExactHunk(lines + rest, h, 0);
    assert (lines + rest)[..at] == lines[..at] && (lines + rest)[at..end] == lines[at..] && (lines + rest)[end..] == rest;
  }

  lemma {:induction false} StillMatches(before: seq<string>, after: seq<string>, anchor: seq<string>, at: nat)
    requires AllWhole(before) && MatchesAt(before, anchor, at)
    ensures MatchesAt(ReadBefore(before, after), anchor, at)
  {
    hide WholeLine, Chomp, EndsWithCr;
    if Completed(before, after) {
      CompletedLine(Last(before));
      var read := ReadBefore(before, after);
      forall k | 0 <= k < |anchor| ensures SameText(read[at + k], anchor[k]) {
        assert SameText(before[at + k], anchor[k]);
        assert read[at + k] == before[at + k] || (at + k == |before| - 1 && read[at + k] == Last(before) + "\n");
      }
    }
  }

  /** The text after the step. */
  ghost function StepText(before: seq<string>, body: seq<DiffLine>, after: seq<string>): string
    requires OldLength(body) <= |before|
  {
    Join(Applied(ReadBefore(before, after), body)) + Complete(Join(LeftAfter(before, after)))
  }

  lemma {:induction false} StepGives(before: seq<string>, h: Hunk, after: seq<string>)
    requires AllWhole(before) && Apart(before) && AllWhole(after)
    requires 1 <= h.oldStart && h.oldStart - 1 + OldLength(h.body) == |before|
    requires MatchesAt(before, Anchor(h.body), h.oldStart - 1)
    ensures PatchText(Join(before + after), [h]) == Success(StepText(before, h.body, after))
  {
    hide AllWhole, Apart, MatchesAt, Anchor, Applied, PatchLines, FileLines, Join, OldLength, WithNewline;
    ReadsAs(before, after);
    StillMatches(before, after, Anchor(h.body), h.oldStart - 1);
    var rest := FileLines(Join(LeftAfter(before, after)));
    AppliedInFile(ReadBefore(before, after), h, rest);
    JoinAppend(Applied(ReadBefore(before, after), h.body), rest);
    JoinFileLines(Join(LeftAfter(before, after)));
  }

  // ----- Comparing the texts

  lemma {:induction false} CompleteStays(after: seq<string>)
    requires AllWhole(after)
    ensures Complete(Join(after)) == Join(after) <==> EndsClean(after)
    ensures |Join(after)| <= |Complete(Join(after))| <= |Join(after)| + 1
  {
    hide WholeLine, Join;
    JoinEnd(after);
    if after != [] {
      WholeLineEnds(Last(after));
    }
  }

  lemma {:induction false} SameBehind(a: string, b: string, c: string)
    ensures a + b == a + c <==> b == c
  {
    if a + b == a + c {
      assert b == (a + b)[|a|..] == (a + c)[|a|..] == c;
    }
  }

  /** Moving an LF to the front of lines changes nothing exactly when they are empty lines. */
  lemma {:induction false} LfMoves(ls: seq<string>)
    requires AllWhole(ls)
    ensures "\n" + Join(ls) == Join(ls) + "\n" <==> Empties(ls)
  {
    hide WholeLine;
    if ls != [] {
      JoinEnd(ls);
      LfMoves(ls[1..]);
      hide Join;
      JoinFirst(ls);
      if ls[0] == "\n" {
        SameBehind("\n", "\n" + Join(ls[1..]), Join(ls[1..]) + "\n");
        Assoc("\n", Join(ls[1..]), "\n");
        assert ls == [ls[0]] + ls[1..];
      } else {
        assert ("\n" + Join(ls))[0] == '\n' && (Join(ls) + "\n")[0] == Join(ls)[0];
      }
    }
  }

  lemma {:induction false} AddedLastWhole(body: seq<DiffLine>)
    requires GoodBody(body)
    ensures AllWhole(AddedLast(body))
  {
    if body != [] && Last(body).op == Add {
      hide WholeLine, Clean;
      AddedLastWhole(Front(body));
      AddedTerminated(Last(body).text);
      TerminatedWhole(WithNewline(Last(body).text));
    }
  }

  /** Where the hunk removes the completed line. */
  lemma {:induction false} TakenAgrees(before: seq<string>, body: seq<DiffLine>, after: seq<string>)
    requires AllWhole(after) && OldLength(body) <= |before|
    requires Completed(before, after) && LastOp(body) == Some(Remove)
    ensures StepText(before, body, after) == Join(Applied(before, body) + after) <==> after == []
  {
    hide WholeLine, EndsWithCr, Applied, OldLength, Join, WithNewline;
    LastIsTaken(Front(before), Last(before), Last(before) + "\n", body);
    assert before == Front(before) + [Last(before)];
    JoinAppend(Applied(before, body), after);
    var left := LeftAfter(before, after);
    SameBehind(Join(Applied(before, body)), Complete(Join(left)), Join(after));
    if after == [] {
      NoLines();
    } else {
      JoinFirst(after);
      CompleteStays(left);
      LfInFront(Join(left));
    }
  }

  lemma {:induction false} LfInFront(s: string)
    ensures Complete(s) != "\n" + s
  {
    if s != "" && !EndsWithNewline(s) {
      assert (s + "\n")[|s|] == '\n' && ("\n" + s)[|s|] == s[|s| - 1];
    }
  }

  /** Where the hunk leaves it. */
  lemma {:induction false} LeftAgrees(before: seq<string>, body: seq<DiffLine>, after: seq<string>)
    requires AllWhole(after) && OldLength(body) <= |before| && GoodBody(body)
    requires Completed(before, after) && LastOp(body) != Some(Remove)
    ensures StepText(before, body, after) == Join(Applied(before, body) + after)
      <==> after != [] && EndsClean(after) && Empties(AddedLast(body))
  {
    hide WholeLine, EndsWithCr, Applied, OldLength, Join, WithNewline, AddedLast, GoodBody, Empties;
    var l, added, left := Last(before), AddedLast(body), LeftAfter(before, after);
    assert before == Front(before) + [l];
    var kept := LastIsLeft(Front(before), body);
    AddedLastWhole(body);
    JoinThreeParts(kept, l, added);
    JoinThreeParts(kept, l + "\n", added);
    JoinAppend(Applied(before, body), after);
    assert Applied(before, body) == kept + [l] + added;
    assert Applied(ReadBefore(before, after), body) == kept + [l + "\n"] + added;
    LfTexts(Join(kept) + l, Join(added), Complete(Join(left)), Join(after));
    if after == [] {
      NoLines();
    } else {
      JoinFirst(after);
      CompleteStays(left);
      assert EndsClean(after) <==> EndsClean(left) by { TailEndsClean(after); }
      LfMoves(added);
      LfBetween(Join(added), Join(left), Complete(Join(left)));
    }
  }

  lemma {:induction false} TailEndsClean(after: seq<string>)
    requires after != [] && after[0] == "\n"
    ensures EndsClean(after) <==> EndsClean(after[1..])
  {
  }

  lemma {:induction false} JoinThreeParts(kept: seq<string>, l: string, added: seq<string>)
    ensures Join(kept + [l] + added) == Join(kept) + l + Join(added)
  {
    JoinAppend(kept + [l], added);
    JoinLast(kept, l);
  }

  /** The two texts, compared behind what they share. */
  lemma {:induction false} LfTexts(front: string, added: string, left: string, after: string)
    ensures front + "\n" + added + left == front + added + after <==> "\n" + added + left == added + after
  {
    SameBehind(front, "\n" + added + left, added + after);
    assert front + ("\n" + added + left) == front + "\n" + added + left;
    assert front + (added + after) == front + added + after;
  }

  lemma {:induction false} LfBetween(added: string, left: string, complete: string)
    requires |left| <= |complete|
    ensures "\n" + added + complete == added + ("\n" + left) <==> complete == left && "\n" + added == added + "\n"
  {
    assert added + ("\n" + left) == (added + "\n") + left;
    if "\n" + added + complete == added + ("\n" + left) {
      var n := |added| + 1;
      assert complete == ("\n" + added + complete)[n..] == ((added + "\n") + left)[n..] == left;
      assert "\n" + added == ("\n" + added + complete)[..n] == ((added + "\n") + left)[..n] == added + "\n";
    }
  }

  /** One step of bottom-up editing, exactly. */
  lemma {:induction false} StepExactly(before: seq<string>, h: Hunk, after: seq<string>)
    requires AllWhole(before) && Apart(before) && AllWhole(after) && GoodBody(h.body)
    requires 1 <= h.oldStart && h.oldStart - 1 + OldLength(h.body) == |before|
    requires MatchesAt(before, Anchor(h.body), h.oldStart - 1)
    ensures PatchText(Join(before + after), [h]).Success?
    ensures PatchText(Join(before + after), [h]) == Success(Join(Applied(before, h.body) + after))
      <==> StepAgrees(before, h.body, after)
  {
    StepGives(before, h, after);
    hide AllWhole, Apart, MatchesAt, Anchor, Applied, OldLength, GoodBody, Empties, AddedLast, Join;
    if Completed(before, after) {
      hide Completed;
      if LastOp(h.body) == Some(Remove) {
        TakenAgrees(before, h.body, after);
      } else {
        LeftAgrees(before, h.body, after);
      }
    } else {
      JoinAppend(Applied(before, h.body), after);
      SameBehind(Join(Applied(before, h.body)), Complete(Join(after)), Join(after));
      CompleteStays(after);
    }
  }

  // ----- All steps

  /** The file behind the hunk before last, once the last hunk is applied where
      its header says; `after` is what stands behind the last hunk. */
  ghost function Behind(lines: seq<string>, hunks: seq<Hunk>, after: seq<string>): seq<string>
    requires hunks != [] && ExactHeaders(lines, hunks)
  {
    EndIsNat(lines, Front(hunks));
    var h, at := Last(hunks), Last(hunks).oldStart - 1;
    lines[EndOf(Front(hunks))..at] + NewSide(h.body, lines[at..at + OldSize(h)]) + after
  }

  /** Every step agrees, the last hunk first; each is a matter of the file's own
      lines up to the end of the hunk and of what the hunks after it make of the rest. */
  ghost predicate StepsAgree(lines: seq<string>, hunks: seq<Hunk>, after: seq<string>)
    requires ExactHeaders(lines, hunks)
    decreases |hunks|
  {
    EndIsNat(lines, hunks);
    hunks != [] ==>
      && StepAgrees(lines[..EndOf(hunks)], Last(hunks).body, after)
      && StepsAgree(lines, Front(hunks), Behind(lines, hunks, after))
  }

  /** The steps after the first: that one reads the file as it is. */
  ghost predicate SeamsAgree(lines: seq<string>, hunks: seq<Hunk>)
    requires ExactHeaders(lines, hunks)
  {
    EndIsNat(lines, hunks);
    hunks != [] ==> StepsAgree(lines, Front(hunks), Behind(lines, hunks, lines[EndOf(hunks)..]))
  }

  ghost predicate FileShape(lines: seq<string>) {
    AllWhole(lines) && Apart(lines)
  }

  lemma {:induction false} FileHasShape(s: string)
    ensures FileShape(FileLines(s)) && NoMerge(FileLines(s))
  {
    hide WholeLine, EndsWithCr, FileLines;
    FileLinesWhole(s);
    FileLinesNoMerge(s);
  }

  lemma {:induction false} ShapeOfPart(lines: seq<string>, end: nat)
    requires FileShape(lines) && end <= |lines|
    ensures FileShape(lines[..end]) && AllWhole(lines[end..])
  {
    hide WholeLine, EndsWithCr;
    var part := lines[..end];
    forall i | 0 <= i < |part| - 1 && EndsWithCr(part[i]) ensures part[i + 1] != "\n" {
      assert lines[i] == part[i] && lines[i + 1] == part[i + 1];
    }
  }

  lemma {:induction false} NewSideWhole(body: seq<DiffLine>, here: seq<string>)
    requires |here| == |Anchor(body)| && GoodBody(body) && AllWhole(here)
    ensures AllWhole(NewSide(body, here))
  {
    hide WholeLine, Terminated, GoodBody, Anchor, NewSide;
    NewSideFrom(body, here);
    var side := NewSide(body, here);
    forall i | 0 <= i < |side| ensures WholeLine(side[i]) {
      assert side[i] in side;
      if side[i] !in here {
        TerminatedWhole(side[i]);
      }
    }
  }

  lemma {:induction false} BehindIsWhole(lines: seq<string>, hunks: seq<Hunk>, after: seq<string>)
    requires hunks != [] && ExactHeaders(lines, hunks) && GoodBody(Last(hunks).body)
    requires FileShape(lines) && AllWhole(after)
    ensures AllWhole(Behind(lines, hunks, after))
  {
    hide WholeLine, Apart, GoodBody, Anchor, NewSide, SameText;
    EndIsNat(lines, Front(hunks));
    var h, at := Last(hunks), Last(hunks).oldStart - 1;
    var here := lines[at..at + OldSize(h)];
    NewSideWhole(h.body, here);
  }

  /** The file up to the last hunk, with that hunk applied, and what comes after. */
  lemma {:induction false} LastApplied(lines: seq<string>, hunks: seq<Hunk>, after: seq<string>)
    requires hunks != [] && ExactHeaders(lines, hunks)
    ensures 0 <= EndOf(Front(hunks)) <= EndOf(hunks) <= |lines|
    ensures ExactHeaders(lines, Front(hunks))
    ensures OldLength(Last(hunks).body) <= EndOf(hunks)
    ensures Last(hunks).oldStart >= 1 && Last(hunks).oldStart - 1 + OldLength(Last(hunks).body) == EndOf(hunks)
    ensures MatchesAt(lines[..EndOf(hunks)], Anchor(Last(hunks).body), Last(hunks).oldStart - 1)
    ensures Applied(lines[..EndOf(hunks)], Last(hunks).body) + after
      == lines[..EndOf(Front(hunks))] + Behind(lines, hunks, after)
    ensures ExactOutput(lines, hunks) + after == ExactOutput(lines, Front(hunks)) + Behind(lines, hunks, after)
  {
    var h, c, at, end := Last(hunks), EndOf(Front(hunks)), Last(hunks).oldStart - 1, EndOf(hunks);
    EndIsNat(lines, Front(hunks));
    EndIsNat(lines, hunks);
    hide Anchor, NewSide, SameText;
    assert MatchesAt(lines[..end], Anchor(h.body), at) by {
      assert forall k | 0 <= k < end :: lines[..end][k] == lines[k];
    }
    var side := NewSide(h.body, lines[at..end]);
    assert lines[..end][..at] == lines[..c] + lines[c..at] && lines[..end][at..] == lines[at..end];
    ThreeAndOne(lines[..c], lines[c..at], side, after);
    ThreeAndOne(ExactOutput(lines, Front(hunks)), lines[c..at], side, after);
  }

  lemma {:induction false} ThreeAndOne<T>(a: seq<T>, b: seq<T>, c: seq<T>, d: seq<T>)
    ensures a + b + c + d == a + (b + c + d) && a + (b + c) + d == a + (b + c + d)
  {
  }

  lemma {:induction false} StepsGive(lines: seq<string>, hunks: seq<Hunk>, after: seq<string>)
    requires FileShape(lines) && AllWhole(after) && GoodHunks(hunks) && ExactHeaders(lines, hunks)
    requires StepsAgree(lines, hunks, after)
    ensures 0 <= EndOf(hunks) <= |lines|
    ensures BottomUpText(Join(lines[..EndOf(hunks)] + after), hunks)
      == Success(Join(ExactOutput(lines, hunks) + after))
    decreases |hunks|
  {
    EndIsNat(lines, hunks);
    if hunks != [] {
      var before, h, behind := lines[..EndOf(hunks)], Last(hunks), Behind(lines, hunks, after);
      assert GoodBody(h.body) && GoodHunks(Front(hunks));
      hide AllWhole, FileShape, GoodBody, ExactHeaders, ExactOutput, EndOf, Behind, StepAgrees, Applied, OldLength, MatchesAt,
        Join, PatchText, Anchor;
      LastApplied(lines, hunks, after);
      ShapeOfPart(lines, EndOf(hunks));
      BehindIsWhole(lines, hunks, after);
      OneStep(before, h, after);
      StepsGive(lines, Front(hunks), behind);
      BottomUpUnfold(Join(before + after), hunks);
    }
  }

  lemma {:induction false} OneStep(before: seq<string>, h: Hunk, after: seq<string>)
    requires FileShape(before) && AllWhole(after) && GoodBody(h.body)
    requires 1 <= h.oldStart && h.oldStart - 1 + OldLength(h.body) == |before|
    requires MatchesAt(before, Anchor(h.body), h.oldStart - 1)
    ensures PatchText(Join(before + after), [h]).Success?
    ensures PatchText(Join(before + after), [h]) == Success(Join(Applied(before, h.body) + after))
      <==> StepAgrees(before, h.body, after)
  {
    hide AllWhole, Apart, GoodBody, Applied, OldLength, MatchesAt, Anchor, Join, PatchText, StepAgrees;
    StepExactly(before, h, after);
  }

  lemma {:induction false} BottomUpUnfold(text: string, hunks: seq<Hunk>)
    requires hunks != [] && PatchText(text, [Last(hunks)]).Success?
    ensures BottomUpText(text, hunks) == BottomUpText(PatchText(text, [Last(hunks)]).value, Front(hunks))
  {
    hide PatchText;
  }

  /** The first step reads the file as it is and gives the text of its lines. */
  lemma {:induction false} FirstStep(original: string, hunks: seq<Hunk>)
    requires hunks != [] && ExactHeaders(FileLines(original), hunks)
    ensures var lines := FileLines(original);
      && 0 <= EndOf(Front(hunks)) <= |lines| && 0 <= EndOf(hunks) <= |lines| && ExactHeaders(lines, Front(hunks))
      && PatchText(original, [Last(hunks)])
        == Success(Join(lines[..EndOf(Front(hunks))] + Behind(lines, hunks, lines[EndOf(hunks)..])))
      && PatchText(original, hunks)
        == Success(Join(ExactOutput(lines, Front(hunks)) + Behind(lines, hunks, lines[EndOf(hunks)..])))
  {
    var lines := FileLines(original);
    var end, h := EndOf(hunks), Last(hunks);
    hide FileLines, Applied, Behind, ExactHeaders, ExactOutput, EndOf, MatchesAt, Anchor, PatchLines, Join, OldLength;
    EndIsNat(lines, hunks);
    LastApplied(lines, hunks, lines[end..]);
    AppliedInFile(lines[..end], h, lines[end..]);
    assert lines[..end] + lines[end..] == lines;
    PatchExact(lines, hunks);
  }

  /** With exact headers, patching the text in one pass and editing it from the
      last hunk to the first give the same file, whenever every seam agrees. */
  lemma {:induction false} TextOnePassIsBottomUp(original: string, hunks: seq<Hunk>)
    requires GoodHunks(hunks) && hunks != []
    requires ExactHeaders(FileLines(original), hunks) && SeamsAgree(FileLines(original), hunks)
    ensures BottomUpText(original, hunks) == PatchText(original, hunks)
  {
    var lines := FileLines(original);
    EndIsNat(lines, hunks);
    var after := lines[EndOf(hunks)..];
    assert GoodBody(Last(hunks).body) && GoodHunks(Front(hunks));
    hide FileLines, FileShape, ExactHeaders, ExactOutput, EndOf, Behind, StepsAgree, PatchText, Join, GoodBody, AllWhole;
    FileHasShape(original);
    ShapeOfPart(lines, EndOf(hunks));
    BehindIsWhole(lines, hunks, after);
    FirstStep(original, hunks);
    StepsGive(lines, Front(hunks), Behind(lines, hunks, after));
    BottomUpUnfold(original, hunks);
  }

  /** With two hunks, exactly: the two ways agree if and only if the step of the
      first hunk does, on the file's lines up to its end and those behind it. */
  lemma {:induction false} TwoHunksExactly(original: string, hunks: seq<Hunk>)
    requires |hunks| == 2 && GoodHunks(hunks) && ExactHeaders(FileLines(original), hunks)
    ensures var lines := FileLines(original);
      && 0 <= EndOf(Front(hunks)) <= |lines| && 0 <= EndOf(hunks) <= |lines|
      && (BottomUpText(original, hunks) == PatchText(original, hunks)
        <==> StepAgrees(lines[..EndOf(Front(hunks))], hunks[0].body, Behind(lines, hunks, lines[EndOf(hunks)..])))
  {
    var lines, first := FileLines(original), Front(hunks);
    assert Last(first) == hunks[0] && Front(first) == [] && GoodBody(hunks[0].body) && GoodBody(Last(hunks).body);
    hide *;
    FirstStep(original, hunks);
    FileHasShape(original);
    ShapeOfPart(lines, EndOf(hunks));
    ShapeOfPart(lines, EndOf(first));
    BehindIsWhole(lines, hunks, lines[EndOf(hunks)..]);
    BottomUpUnfold(original, hunks);
    OneHunkLeft(lines, first, Behind(lines, hunks, lines[EndOf(hunks)..]));
  }

  /** The last step: what it gives is the text of its lines exactly when it agrees. */
  lemma {:induction false} OneHunkLeft(lines: seq<string>, hunks: seq<Hunk>, after: seq<string>)
    requires hunks != [] && Front(hunks) == [] && ExactHeaders(lines, hunks) && GoodBody(Last(hunks).body)
    requires 0 <= EndOf(hunks) <= |lines| && FileShape(lines[..EndOf(hunks)]) && AllWhole(after)
    ensures BottomUpText(Join(lines[..EndOf(hunks)] + after), hunks) == Success(Join(ExactOutput(lines, hunks) + after))
      <==> StepAgrees(lines[..EndOf(hunks)], Last(hunks).body, after)
  {
    var before := lines[..EndOf(hunks)];
    hide FileShape, ExactHeaders, ExactOutput, EndOf, Behind, StepAgrees, PatchText, Join, GoodBody, AllWhole;
    hide Applied, OldLength, MatchesAt, Anchor, BottomUpText;
    LastApplied(lines, hunks, after);
    OneHunkOutput(lines);
    OneStep(before, Last(hunks), after);
    BottomUpUnfold(Join(before + after), hunks);
    BottomUpNothing(PatchText(Join(before + after), [Last(hunks)]).value);
  }

  lemma {:induction false} OneHunkOutput(lines: seq<string>)
    ensures ExactHeaders(lines, []) && EndOf([]) == 0 && ExactOutput(lines, []) == [] == lines[..0]
  {
  }

  lemma {:induction false} BottomUpNothing(text: string)
    ensures BottomUpText(text, []) == Success(text)
  {
  }

  // ----- Seams that agree by the look of the file

  /** Between a hunk and the next stands a line, or the line before the seam does not
      end in a bare CR. */
  predicate ClearSeams(lines: seq<string>, hunks: seq<Hunk>, next: int) {
    hunks != [] ==>
      && (0 < EndOf(hunks) <= |lines| && EndsWithCr(lines[EndOf(hunks) - 1]) ==> EndOf(hunks) < next)
      && ClearSeams(lines, Front(hunks), Last(hunks).oldStart - 1)
  }

  /** What stands behind line `end` begins with the file's own line, unless a hunk begins there. */
  ghost predicate Continues(lines: seq<string>, end: int, next: int, after: seq<string>) {
    0 <= end < next && end < |lines| ==> after != [] && after[0] == lines[end]
  }

  lemma {:induction false} ClearSteps(lines: seq<string>, hunks: seq<Hunk>, after: seq<string>, next: int)
    requires FileShape(lines) && ExactHeaders(lines, hunks) && next <= |lines|
    requires ClearSeams(lines, hunks, next) && Continues(lines, EndOf(hunks), next, after)
    requires after != [] && EndsClean(after)
    ensures StepsAgree(lines, hunks, after)
    decreases |hunks|
  {
    if hunks != [] {
      EndIsNat(lines, hunks);
      hide FileShape, EndsWithCr, Behind, Anchor, SameText, StepAgrees, Continues;
      BehindContinues(lines, hunks, after);
      ClearSteps(lines, Front(hunks), Behind(lines, hunks, after), Last(hunks).oldStart - 1);
      ClearStep(lines, EndOf(hunks), next, Last(hunks).body, after);
    }
  }

  lemma {:induction false} ClearStep(lines: seq<string>, end: nat, next: int, body: seq<DiffLine>, after: seq<string>)
    requires FileShape(lines) && end <= |lines| && next <= |lines| && Continues(lines, end, next, after)
    requires 0 < end && EndsWithCr(lines[end - 1]) ==> end < next
    requires after != [] && EndsClean(after)
    ensures StepAgrees(lines[..end], body, after)
  {
    hide WholeLine, EndsWithCr;
    if end > 0 && EndsWithCr(lines[end - 1]) {
      assert lines[end] != "\n";
    }
  }

  lemma {:induction false} BehindContinues(lines: seq<string>, hunks: seq<Hunk>, after: seq<string>)
    requires hunks != [] && ExactHeaders(lines, hunks) && after != []
    ensures Behind(lines, hunks, after) != [] && Last(Behind(lines, hunks, after)) == Last(after)
    ensures Last(hunks).oldStart - 1 <= |lines|
    ensures Continues(lines, EndOf(Front(hunks)), Last(hunks).oldStart - 1, Behind(lines, hunks, after))
  {
    hide NewSide, Anchor, SameText;
    EndIsNat(lines, Front(hunks));
  }

  /** Clear seams agree, if the file keeps a line behind the last hunk but one and
      does not end in a bare CR. */
  lemma {:induction false} ClearSeamsAgree(original: string, hunks: seq<Hunk>)
    requires hunks != [] && ExactHeaders(FileLines(original), hunks)
    requires ClearSeams(FileLines(original), Front(hunks), Last(hunks).oldStart - 1)
    ensures var lines := FileLines(original);
      && 0 <= EndOf(hunks) <= |lines|
      && var behind := Behind(lines, hunks, lines[EndOf(hunks)..]);
      behind != [] && EndsClean(behind) ==> SeamsAgree(lines, hunks)
  {
    var lines := FileLines(original);
    EndIsNat(lines, hunks);
    FileHasShape(original);
    var behind := Behind(lines, hunks, lines[EndOf(hunks)..]);
    hide FileLines, FileShape, NewSide, Anchor, SameText, EndsWithCr;
    if behind != [] && EndsClean(behind) {
      FirstContinues(lines, hunks);
      ClearSteps(lines, Front(hunks), behind, Last(hunks).oldStart - 1);
    }
  }

  lemma {:induction false} FirstContinues(lines: seq<string>, hunks: seq<Hunk>)
    requires hunks != [] && ExactHeaders(lines, hunks)
    ensures 0 <= EndOf(hunks) <= |lines| && Last(hunks).oldStart - 1 <= |lines| && ExactHeaders(lines, Front(hunks))
    ensures Continues(lines, EndOf(Front(hunks)), Last(hunks).oldStart - 1, Behind(lines, hunks, lines[EndOf(hunks)..]))
  {
    hide NewSide, Anchor, SameText;
    EndIsNat(lines, hunks);
    EndIsNat(lines, Front(hunks));
  }

  /** No file between the steps has a bare CR that an LF would complete. */
  ghost predicate StepsReadBack(lines: seq<string>, hunks: seq<Hunk>, after: seq<string>)
    requires ExactHeaders(lines, hunks)
    decreases |hunks|
  {
    EndIsNat(lines, hunks);
    hunks != [] ==>
      NoMerge(lines[..EndOf(hunks)] + after) && StepsReadBack(lines, Front(hunks), Behind(lines, hunks, after))
  }

  /** Where all files between the steps read back as they were put together, all seams agree. */
  lemma {:induction false} ReadBackAgrees(lines: seq<string>, hunks: seq<Hunk>, after: seq<string>)
    requires ExactHeaders(lines, hunks) && StepsReadBack(lines, hunks, after)
    ensures StepsAgree(lines, hunks, after)
    decreases |hunks|
  {
    if hunks != [] {
      EndIsNat(lines, hunks);
      hide EndsWithCr, Behind, Anchor, SameText;
      NoMergeParts(lines[..EndOf(hunks)], after);
      ReadBackAgrees(lines, Front(hunks), Behind(lines, hunks, after));
    }
  }

  lemma {:induction false} NoMergeParts(before: seq<string>, after: seq<string>)
    requires NoMerge(before + after)
    ensures !Completed(before, after) && EndsClean(after)
  {
    hide EndsWithCr;
    var ls := before + after;
    assert before != [] ==> ls[|before| - 1] == Last(before);
    assert after != [] ==> ls[|ls| - 1] == Last(after) && ls[|before|] == after[0];
  }

  predicate NoCrs(ls: seq<string>) {
    forall i | 0 <= i < |ls| :: !EndsWithCr(ls[i])
  }

  lemma {:induction false} BehindHasNoCr(lines: seq<string>, hunks: seq<Hunk>, after: seq<string>)
    requires hunks != [] && ExactHeaders(lines, hunks) && GoodBody(Last(hunks).body) && NoCrs(lines) && NoCrs(after)
    ensures NoCrs(Behind(lines, hunks, after))
  {
    hide EndsWithCr, GoodBody, Anchor, NewSide, SameText, Terminated;
    EndIsNat(lines, Front(hunks));
    var h, at := Last(hunks), Last(hunks).oldStart - 1;
    var here := lines[at..at + OldSize(h)];
    NewSideFrom(h.body, here);
    var side := NewSide(h.body, here);
    forall i | 0 <= i < |side| ensures !EndsWithCr(side[i]) {
      assert side[i] in side;
      if side[i] !in here {
        TerminatedWhole(side[i]);
      }
    }
  }

  lemma {:induction false} PlainSteps(lines: seq<string>, hunks: seq<Hunk>, after: seq<string>)
    requires ExactHeaders(lines, hunks) && GoodHunks(hunks) && NoCrs(lines) && NoCrs(after)
    ensures StepsAgree(lines, hunks, after)
    decreases |hunks|
  {
    if hunks != [] {
      EndIsNat(lines, hunks);
      assert GoodBody(Last(hunks).body) && GoodHunks(Front(hunks));
      hide EndsWithCr, NewSide, Anchor, SameText, GoodBody, Behind;
      BehindHasNoCr(lines, hunks, after);
      PlainSteps(lines, Front(hunks), Behind(lines, hunks, after));
    }
  }

  /** In a file without bare CR all seams agree. */
  lemma {:induction false} PlainSeamsAgree(original: string, hunks: seq<Hunk>)
    requires NoBareCR(original) && GoodHunks(hunks) && ExactHeaders(FileLines(original), hunks)
    ensures SeamsAgree(FileLines(original), hunks)
  {
    var lines := FileLines(original);
    FileWithoutBareCR(original);
    if hunks != [] {
      EndIsNat(lines, hunks);
      assert GoodBody(Last(hunks).body) && GoodHunks(Front(hunks));
      hide FileLines, EndsWithCr, NewSide, Anchor, SameText, GoodBody, Behind;
      BehindHasNoCr(lines, hunks, lines[EndOf(hunks)..]);
      PlainSteps(lines, Front(hunks), Behind(lines, hunks, lines[EndOf(hunks)..]));
    }
  }
}
