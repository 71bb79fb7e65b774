/**
 What `_apply_patch` returns and when it fails, said without its recursion:
 exact offsets, exact output positions, exact failure conditions.
 */
module SpliceFacts {
  import opened Results
  import opened Lines
  import opened Patch

  /** Where the part of the file consumed before hunk `i` ends. */
  function EndBefore(hunks: seq<Hunk>, offs: seq<nat>, i: nat): nat
    requires i <= |offs| <= |hunks|
  {
    Cursor(hunks, offs[..i])
  }

  /** Offset `i` is where the search must put hunk `i`, given the earlier offsets. */
  ghost predicate BestAt(lines: seq<string>, hunks: seq<Hunk>, offs: seq<nat>, i: nat)
    requires i < |offs| <= |hunks|
  {
    Best(lines, Anchor(hunks[i].body), hunks[i].oldStart - 1, EndBefore(hunks, offs, i), offs[i])
  }

  /** Hunk by hunk, each offset is the best one left by the offsets before it. */
  ghost predicate Chosen(lines: seq<string>, hunks: seq<Hunk>, offs: seq<nat>) {
    && |offs| <= |hunks|
    && forall i | 0 <= i < |offs| :: BestAt(lines, hunks, offs, i)
  }

  /** Hunk `|offs|` has nowhere to go after the offsets chosen for the ones before. */
  ghost predicate Stuck(lines: seq<string>, hunks: seq<Hunk>, offs: seq<nat>) {
    && |offs| < |hunks|
    && Chosen(lines, hunks, offs)
    && Nowhere(lines, Anchor(hunks[|offs|].body), hunks[|offs|].oldStart - 1, Cursor(hunks, offs))
  }

  lemma {:induction false} ChosenFront(lines: seq<string>, hunks: seq<Hunk>, offs: seq<nat>)
    requires offs != [] && |offs| <= |hunks|
    ensures Chosen(lines, hunks, offs) <==>
      Chosen(lines, hunks, Front(offs)) && BestAt(lines, hunks, offs, |offs| - 1)
  {
    hide Best;
    var f := Front(offs);
    forall i | 0 <= i < |f| ensures BestAt(lines, hunks, offs, i) == BestAt(lines, hunks, f, i) {
      assert offs[..i] == f[..i] && offs[i] == f[i];
    }
  }

  lemma {:induction false} PlaceIsChosen(lines: seq<string>, hunks: seq<Hunk>, k: nat)
    requires k <= |hunks|
    ensures forall offs: seq<nat> :: (Place(lines, hunks, k) == Success(offs) <==>
      |offs| == k && Chosen(lines, hunks, offs))
  {
    hide Best, Chosen, Locate, Anchor;
    if k == 0 {
      assert forall offs: seq<nat> | |offs| == 0 :: offs == [] && Chosen(lines, hunks, offs) by {
        NothingChosen(lines, hunks);
      }
    } else {
      PlaceIsChosen(lines, hunks, k - 1);
      forall offs: seq<nat> | |offs| == k
        ensures Place(lines, hunks, k) == Success(offs) <==> Chosen(lines, hunks, offs)
      {
        ChosenFront(lines, hunks, offs);
        PlaceLast(lines, hunks, offs);
      }
    }
  }

  lemma {:induction false} NothingChosen(lines: seq<string>, hunks: seq<Hunk>)
    ensures Chosen(lines, hunks, [])
  {
  }

  lemma {:induction false} PlaceLast(lines: seq<string>, hunks: seq<Hunk>, offs: seq<nat>)
    requires 0 < |offs| <= |hunks|
    ensures Place(lines, hunks, |offs|) == Success(offs) <==>
      Place(lines, hunks, |offs| - 1) == Success(Front(offs)) && BestAt(lines, hunks, offs, |offs| - 1)
  {
    hide Best, Locate, Anchor, Nowhere, Cursor;
    var h, f := hunks[|offs| - 1], Front(offs);
    assert offs == f + [Last(offs)] && offs[..|offs| - 1] == f;
    LocateIsNearest(lines, Anchor(h.body), h.oldStart - 1, Cursor(hunks, f));
  }

  /** Success, exactly: the output is the splice at the offsets chosen hunk by hunk. */
  lemma {:induction false} PatchesExactly(lines: seq<string>, hunks: seq<Hunk>, out: seq<string>)
    ensures PatchLines(lines, hunks) == Success(out) <==>
      exists offs: seq<nat> ::
        && |offs| == |hunks| && Chosen(lines, hunks, offs)
        && Fits(lines, hunks, offs) && out == Splice(lines, hunks, offs)
  {
    PlaceIsChosen(lines, hunks, |hunks|);
    PlaceFits(lines, hunks, |hunks|);
    if PatchLines(lines, hunks) == Success(out) {
      var offs := Place(lines, hunks, |hunks|).value;
      assert Chosen(lines, hunks, offs);
    }
  }

  /** Once the earlier hunks are placed, the next one fails exactly when it is stuck. */
  lemma {:induction false} StuckNext(lines: seq<string>, hunks: seq<Hunk>, offs: seq<nat>)
    requires |offs| < |hunks| && Place(lines, hunks, |offs|) == Success(offs)
    ensures Place(lines, hunks, |offs| + 1).Failure? <==> Stuck(lines, hunks, offs)
    ensures Place(lines, hunks, |offs| + 1).Failure? ==>
      && Place(lines, hunks, |offs| + 1).error.hunk == |offs|
      && Place(lines, hunks, |offs| + 1).error.InsertionOutOfRange? == (Anchor(hunks[|offs|].body) == [])
  {
    hide Best, Nowhere, Locate, Chosen, Anchor;
    var h := hunks[|offs|];
    PlaceIsChosen(lines, hunks, |offs|);
    LocateIsNearest(lines, Anchor(h.body), h.oldStart - 1, Cursor(hunks, offs));
  }

  lemma {:induction false} FirstFailure(lines: seq<string>, hunks: seq<Hunk>, k: nat)
      returns (offs: seq<nat>)
    requires k <= |hunks| && Place(lines, hunks, k).Failure?
    ensures |offs| < k && Stuck(lines, hunks, offs)
    ensures Place(lines, hunks, k).error.hunk == |offs|
    ensures Place(lines, hunks, k).error.InsertionOutOfRange? == (Anchor(hunks[|offs|].body) == [])
  {
    hide Stuck, Anchor, Locate, Cursor;
    if Place(lines, hunks, k - 1).Failure? {
      offs := FirstFailure(lines, hunks, k - 1);
    } else {
      offs := Place(lines, hunks, k - 1).value;
      StuckNext(lines, hunks, offs);
    }
  }

  /** Failure, exactly: the patch is refused if and only if some hunk has no
      feasible offset after the ones chosen before it, and the error names that hunk. */
  lemma {:induction false} FailsExactly(lines: seq<string>, hunks: seq<Hunk>)
    ensures PatchLines(lines, hunks).Failure? <==>
      exists offs: seq<nat> :: Stuck(lines, hunks, offs)
    ensures PatchLines(lines, hunks).Failure? ==>
      exists offs: seq<nat> :: Stuck(lines, hunks, offs) && PatchLines(lines, hunks).error.hunk == |offs|
  {
    if PatchLines(lines, hunks).Failure? {
      var offs := FirstFailure(lines, hunks, |hunks|);
    } else {
      forall offs: seq<nat> ensures !Stuck(lines, hunks, offs) {
        if Stuck(lines, hunks, offs) {
          StuckFails(lines, hunks, offs);
        }
      }
    }
  }

  lemma {:induction false} StuckFails(lines: seq<string>, hunks: seq<Hunk>, offs: seq<nat>)
    requires Stuck(lines, hunks, offs)
    ensures Place(lines, hunks, |hunks|).Failure?
  {
    hide Best, Nowhere, Locate, Place, Anchor;
    PlaceIsChosen(lines, hunks, |offs|);
    StuckNext(lines, hunks, offs);
    PlaceFailed(lines, hunks, |offs| + 1);
  }

  /** Output means every context and removal line was in the file: a patch with
      an anchor line the file does not contain is refused. */
  lemma {:induction false} AnchorsPresent(lines: seq<string>, hunks: seq<Hunk>, i: nat, k: nat)
    requires PatchLines(lines, hunks).Success?
    requires i < |hunks| && k < |Anchor(hunks[i].body)|
    ensures exists x :: 0 <= x < |lines| && SameText(lines[x], Anchor(hunks[i].body)[k])
  {
    PlaceIsChosen(lines, hunks, |hunks|);
    var offs := Place(lines, hunks, |hunks|).value;
    assert BestAt(lines, hunks, offs, i);
    assert SameText(lines[offs[i] + k], Anchor(hunks[i].body)[k]);
  }

  // ----- Positions in the output

  function NewSize(body: seq<DiffLine>): nat {
    if body == [] then 0 else (if body[0].op == Remove then 0 else 1) + NewSize(body[1..])
  }

  function CountOp(body: seq<DiffLine>, op: Op): nat {
    if body == [] then 0 else (if body[0].op == op then 1 else 0) + CountOp(body[1..], op)
  }

  lemma {:induction false} NewSideSize(body: seq<DiffLine>, here: seq<string>)
    requires |here| == |Anchor(body)|
    ensures |NewSide(body, here)| == NewSize(body) == |here| + CountOp(body, Add) - CountOp(body, Remove)
  {
    if body != [] {
      NewSideSize(body[1..], if body[0].op == Add then here else here[1..]);
    }
  }

  /** The lines the first `k` hunks add, less the lines they remove. */
  function Growth(hunks: seq<Hunk>, k: nat): int
    requires k <= |hunks|
  {
    if k == 0 then 0
    else Growth(hunks, k - 1) + CountOp(hunks[k - 1].body, Add) - CountOp(hunks[k - 1].body, Remove)
  }

  lemma {:induction false} OutputLength(lines: seq<string>, hunks: seq<Hunk>, offs: seq<nat>)
    requires Fits(lines, hunks, offs)
    ensures |Output(lines, hunks, offs)| == Cursor(hunks, offs) + Growth(hunks, |offs|)
  {
    if offs != [] {
      OutputLength(lines, hunks, Front(offs));
      NewSideSize(hunks[|offs| - 1].body, lines[Last(offs)..Cursor(hunks, offs)]);
    }
  }

  lemma {:induction false} FitsPrefix(lines: seq<string>, hunks: seq<Hunk>, offs: seq<nat>, i: nat)
    requires Fits(lines, hunks, offs) && i <= |offs|
    ensures Fits(lines, hunks, offs[..i]) && Output(lines, hunks, offs[..i]) <= Output(lines, hunks, offs)
    ensures Cursor(hunks, offs[..i]) <= Cursor(hunks, offs)
    decreases |offs|
  {
    if i == |offs| {
      assert offs[..i] == offs;
    } else {
      FitsPrefix(lines, hunks, Front(offs), i);
      assert Front(offs)[..i] == offs[..i];
    }
  }

  /** The exact splice. Every line between hunks stands in the output unchanged,
      shifted by the growth of the hunks before it; hunk `i` occupies exactly its
      own range, filled with its new side; and the line counts add up. */
  lemma {:induction false} SpliceExact(lines: seq<string>, hunks: seq<Hunk>, offs: seq<nat>)
    requires Fits(lines, hunks, offs) && |offs| == |hunks|
    ensures |Splice(lines, hunks, offs)| == |lines| + Growth(hunks, |hunks|)
    ensures forall i | 0 <= i < |hunks| ::
      HunkPlaced(lines, hunks, offs, Splice(lines, hunks, offs), i)
    ensures 0 <= Cursor(hunks, offs) + Growth(hunks, |hunks|) <= |Splice(lines, hunks, offs)|
      && Splice(lines, hunks, offs)[Cursor(hunks, offs) + Growth(hunks, |hunks|)..]
      == lines[CursorFits(lines, hunks, offs)..]
  {
    OutputLength(lines, hunks, offs);
    forall i | 0 <= i < |hunks| ensures HunkPlaced(lines, hunks, offs, Splice(lines, hunks, offs), i) {
      HunkRegion(lines, hunks, offs, i);
    }
  }

  /** Gap and new side of hunk `i` stand where they must in `out`. */
  ghost predicate HunkPlaced(lines: seq<string>, hunks: seq<Hunk>, offs: seq<nat>, out: seq<string>, i: nat)
    requires i < |hunks| == |offs|
  {
    var from, at, size := EndBefore(hunks, offs, i), offs[i], OldSize(hunks[i]);
    var shift, grown := Growth(hunks, i), NewSize(hunks[i].body);
    && from <= at && at + size <= |lines|
    && 0 <= from + shift && at + shift + grown <= |out|
    && out[from + shift..at + shift] == lines[from..at]
    && out[at + shift..at + shift + grown] == NewSide(hunks[i].body, lines[at..at + size])
  }

  lemma {:induction false} OutputThrough(lines: seq<string>, hunks: seq<Hunk>, offs: seq<nat>, i: nat)
    requires Fits(lines, hunks, offs) && |offs| == |hunks| && i < |hunks|
    ensures Fits(lines, hunks, offs[..i])
    ensures EndBefore(hunks, offs, i) <= offs[i] && offs[i] + OldSize(hunks[i]) <= |lines|
    ensures Output(lines, hunks, offs[..i])
      + (lines[EndBefore(hunks, offs, i)..offs[i]]
      + NewSide(hunks[i].body, lines[offs[i]..offs[i] + OldSize(hunks[i])]))
      <= Output(lines, hunks, offs)
  {
    hide NewSide, Anchor, Fits, Output, Cursor;
    assert offs[..i + 1] == offs[..i] + [offs[i]];
    FitsPrefix(lines, hunks, offs, i + 1);
    OutputLast(lines, hunks, offs[..i], offs[i]);
  }

  lemma {:induction false} PrefixExtends<T>(a: seq<T>, b: seq<T>, c: seq<T>)
    requires a <= b
    ensures a <= b + c
  {
  }

  lemma {:induction false} HunkRegion(lines: seq<string>, hunks: seq<Hunk>, offs: seq<nat>, i: nat)
    requires Fits(lines, hunks, offs) && |offs| == |hunks| && i < |hunks|
    ensures HunkPlaced(lines, hunks, offs, Splice(lines, hunks, offs), i)
  {
    hide Fits, Output, NewSide, Anchor, NewSize, Growth, CountOp, Cursor;
    OutputThrough(lines, hunks, offs, i);
    var from, at, size := EndBefore(hunks, offs, i), offs[i], OldSize(hunks[i]);
    var before, side := Output(lines, hunks, offs[..i]), NewSide(hunks[i].body, lines[at..at + size]);
    PrefixExtends(before + (lines[from..at] + side), Output(lines, hunks, offs),
      lines[CursorFits(lines, hunks, offs)..]);
    NewSideSize(hunks[i].body, lines[at..at + size]);
    OutputLength(lines, hunks, offs[..i]);
    RegionOf(Splice(lines, hunks, offs), before, lines[from..at], side);
  }

  lemma {:induction false} RegionOf<T>(whole: seq<T>, a: seq<T>, b: seq<T>, c: seq<T>)
    requires a + (b + c) <= whole
    ensures whole[|a|..|a| + |b|] == b && whole[|a| + |b|..|a| + |b| + |c|] == c
  {
    var abc := a + (b + c);
    assert forall k | 0 <= k < |abc| :: whole[k] == abc[k];
  }

  /** Inside a hunk: a kept line is the file's own line, terminator included,
      and an added line is the diff's text completed with LF. */
  lemma {:induction false} NewSideAt(body: seq<DiffLine>, here: seq<string>, j: nat)
    requires |here| == |Anchor(body)| && j < |body|
    ensures |Anchor(body[..j])| <= |here| && NewSize(body[..j]) <= |NewSide(body, here)|
    ensures body[j].op == Keep ==>
      && |Anchor(body[..j])| < |here| && NewSize(body[..j]) < |NewSide(body, here)|
      && NewSide(body, here)[NewSize(body[..j])] == here[|Anchor(body[..j])|]
    ensures body[j].op == Add ==>
      && NewSize(body[..j]) < |NewSide(body, here)|
      && NewSide(body, here)[NewSize(body[..j])] == WithNewline(body[j].text)
  {
    if j > 0 {
      var rest := if body[0].op == Add then here else here[1..];
      NewSideAt(body[1..], rest, j - 1);
      assert body[..j][0] == body[0] && body[..j][1..] == body[1..][..j - 1];
    }
  }
}
