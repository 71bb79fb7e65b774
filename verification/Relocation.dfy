/**
 How much the header numbers matter: not at all where the anchors are
 unambiguous, and exactly as a plain edit where they are right.
 */
module Relocation {
  import opened Results
  import opened Lines
  import opened Patch
  import opened Exact
  import opened DiffParser
  import opened SpliceFacts
  import opened Inversion

  // ----- Stale headers

  /** The anchor has exactly one match at or after the cursor. */
  ghost predicate OneMatch(lines: seq<string>, anchor: seq<string>, from: nat) {
    exists at :: UniqueMatch(lines, anchor, from, at)
  }

  ghost predicate UniqueMatch(lines: seq<string>, anchor: seq<string>, from: nat, at: int) {
    && from <= at && MatchesAt(lines, anchor, at)
    && forall j :: from <= j && MatchesAt(lines, anchor, j) ==> j == at
  }

  /** Whenever the search reaches a hunk with an anchor, it has one place to go. */
  ghost predicate OneMatchEach(lines: seq<string>, hunks: seq<Hunk>) {
    forall k | 0 <= k < |hunks| && Place(lines, hunks, k).Success? && Anchor(hunks[k].body) != [] ::
      OneMatch(lines, Anchor(hunks[k].body), Cursor(hunks, Place(lines, hunks, k).value))
  }

  /** The same bodies; only headers of hunks with an anchor may differ. */
  ghost predicate SameBodies(a: seq<Hunk>, b: seq<Hunk>) {
    && |a| == |b|
    && forall i | 0 <= i < |a| ::
      a[i].body == b[i].body && (Anchor(a[i].body) == [] ==> a[i].oldStart == b[i].oldStart)
  }

  lemma {:induction false} SeekUnique(lines: seq<string>, h: Hunk, k: nat, from: nat)
    requires Anchor(h.body) != [] && OneMatch(lines, Anchor(h.body), from)
    ensures Seek(lines, h, k, from).Success? && UniqueMatch(lines, Anchor(h.body), from, Seek(lines, h, k, from).value)
  {
    var anchor := Anchor(h.body);
    hide Locate, MatchesAt, Anchor;
    LocateIsNearest(lines, anchor, h.oldStart - 1, from);
    var at :| UniqueMatch(lines, anchor, from, at);
    assert at <= |lines| by { MatchInside(lines, anchor, at); }
    assert Feasible(lines, anchor, h.oldStart - 1, from, at);
  }

  lemma {:induction false} MatchInside(lines: seq<string>, anchor: seq<string>, at: int)
    requires MatchesAt(lines, anchor, at)
    ensures 0 <= at <= |lines|
  {
  }

  ghost predicate PlaceAgrees(lines: seq<string>, a: seq<Hunk>, b: seq<Hunk>, k: nat)
    requires k <= |a| == |b|
  {
    Place(lines, a, k) == Place(lines, b, k)
  }

  lemma {:induction false} PlaceSame(lines: seq<string>, a: seq<Hunk>, b: seq<Hunk>, k: nat)
    requires |a| == |b| && SameBodies(a, b) && OneMatchEach(lines, a) && k <= |a|
    ensures PlaceAgrees(lines, a, b, k)
  {
    if k > 0 {
      hide *;
      PlaceSame(lines, a, b, k - 1);
      StepSame(lines, a, b, k);
    }
  }

  lemma {:induction false} StepSame(lines: seq<string>, a: seq<Hunk>, b: seq<Hunk>, k: nat)
    requires 0 < k <= |a| == |b| && PlaceAgrees(lines, a, b, k - 1)
    requires SameBodies(a, b) && OneMatchEach(lines, a)
    ensures PlaceAgrees(lines, a, b, k)
  {
    hide Seek, Cursor, SameBodies, OneMatchEach;
    if Place(lines, a, k - 1).Success? {
      NextSame(lines, a, b, k - 1);
    }
  }

  lemma {:induction false} NextSame(lines: seq<string>, a: seq<Hunk>, b: seq<Hunk>, k: nat)
    requires |a| == |b| && SameBodies(a, b) && OneMatchEach(lines, a) && k < |a|
    requires Place(lines, a, k).Success?
    ensures var offs := Place(lines, a, k).value;
      && Cursor(a, offs) == Cursor(b, offs)
      && Seek(lines, a[k], k, Cursor(a, offs)) == Seek(lines, b[k], k, Cursor(b, offs))
  {
    var offs := Place(lines, a, k).value;
    hide Seek, OneMatch, Anchor, Place;
    assert Cursor(a, offs) == Cursor(b, offs);
    if Anchor(a[k].body) != [] {
      SeekSame(lines, a[k], b[k], k, Cursor(a, offs));
    } else {
      assert a[k] == b[k];
    }
  }

  lemma {:induction false} SeekSame(lines: seq<string>, a: Hunk, b: Hunk, k: nat, from: nat)
    requires a.body == b.body && Anchor(a.body) != [] && OneMatch(lines, Anchor(a.body), from)
    ensures Seek(lines, a, k, from) == Seek(lines, b, k, from)
  {
    hide Seek, MatchesAt, Anchor;
    SeekUnique(lines, a, k, from);
    SeekUnique(lines, b, k, from);
  }

  lemma {:induction false} OutputSame(lines: seq<string>, a: seq<Hunk>, b: seq<Hunk>, offs: seq<nat>)
    requires |a| == |b| && (forall i | 0 <= i < |a| :: a[i].body == b[i].body)
    requires Fits(lines, a, offs)
    ensures Fits(lines, b, offs) && Cursor(a, offs) == Cursor(b, offs)
    ensures Output(lines, a, offs) == Output(lines, b, offs)
  {
    if offs != [] {
      hide NewSide, Anchor;
      OutputSame(lines, a, b, Front(offs));
    }
  }

  /** Where every anchor has one match left, header numbers change nothing: any
      other headers give the same text, or the same error. */
  lemma {:induction false} HeadersDoNotMatter(lines: seq<string>, a: seq<Hunk>, b: seq<Hunk>)
    requires SameBodies(a, b) && OneMatchEach(lines, a)
    ensures PatchLines(lines, a) == PatchLines(lines, b)
  {
    PlaceSame(lines, a, b, |a|);
    if Place(lines, a, |a|).Success? {
      PlaceFits(lines, a, |a|);
      OutputSame(lines, a, b, Place(lines, a, |a|).value);
    }
  }

  // ----- Lines inserted above

  /** Every hunk has an anchor, and the anchor occurs once in the file. */
  ghost predicate OccurOnce(lines: seq<string>, hunks: seq<Hunk>) {
    forall i | 0 <= i < |hunks| ::
      Anchor(hunks[i].body) != [] && OneMatch(lines, Anchor(hunks[i].body), 0)
  }

  function Shift(offs: seq<nat>, up: nat): seq<nat> {
    seq(|offs|, i requires 0 <= i < |offs| => offs[i] + up)
  }

  /** `s` with `block` put in before element `p`. */
  function Insert<T>(s: seq<T>, p: nat, block: seq<T>): seq<T>
    requires p <= |s|
  {
    s[..p] + block + s[p..]
  }

  lemma {:induction false} InsertAt<T>(s: seq<T>, p: nat, block: seq<T>)
    requires p <= |s|
    ensures |Insert(s, p, block)| == |s| + |block|
    ensures forall k | p <= k < |s| :: Insert(s, p, block)[k + |block|] == s[k]
  {
  }

  lemma {:induction false} MatchShifts(lines: seq<string>, p: nat, block: seq<string>, anchor: seq<string>, at: nat)
    requires p <= |lines| && p <= at
    ensures MatchesAt(Insert(lines, p, block), anchor, at + |block|) <==> MatchesAt(lines, anchor, at)
  {
    hide SameText, Insert;
    InsertAt(lines, p, block);
    if MatchesAt(Insert(lines, p, block), anchor, at + |block|) {
      forall k | 0 <= k < |anchor| ensures SameText(lines[at + k], anchor[k]) {
        assert Insert(lines, p, block)[at + |block| + k] == lines[at + k];
      }
    }
  }

  lemma {:induction false} SeekShifts(lines: seq<string>, p: nat, block: seq<string>, h: Hunk, k: nat, from: nat, shifted: nat)
    requires p <= |lines|
    requires Anchor(h.body) != [] && OneMatch(Insert(lines, p, block), Anchor(h.body), 0)
    requires Seek(lines, h, k, from).Success? && p <= Seek(lines, h, k, from).value
    requires shifted <= |block| + from
    ensures Seek(Insert(lines, p, block), h, k, shifted) == Success(Seek(lines, h, k, from).value + |block|)
  {
    hide Locate, MatchesAt, Anchor, Insert;
    var anchor, at := Anchor(h.body), Seek(lines, h, k, from).value;
    LocateIsNearest(lines, anchor, h.oldStart - 1, from);
    assert Feasible(lines, anchor, h.oldStart - 1, from, at);
    MatchShifts(lines, p, block, anchor, at);
    assert UniqueMatch(Insert(lines, p, block), anchor, shifted, at + |block|);
    SeekUnique(Insert(lines, p, block), h, k, shifted);
  }

  /** Every offset is at or after line `p`. */
  predicate AllFrom(offs: seq<nat>, p: nat) {
    forall i | 0 <= i < |offs| :: p <= offs[i]
  }

  lemma {:induction false} FirstBoundsAll(lines: seq<string>, hunks: seq<Hunk>, offs: seq<nat>, p: nat)
    requires Fits(lines, hunks, offs) && (offs != [] ==> p <= offs[0])
    ensures AllFrom(offs, p)
  {
    if |offs| > 1 {
      hide Anchor;
      var init := Front(offs);
      assert init[0] == offs[0];
      FirstBoundsAll(lines, hunks, init, p);
      assert p <= Last(init) <= Last(offs);
      assert offs == init + [Last(offs)];
    }
  }

  lemma {:induction false} PlaceShifts(lines: seq<string>, p: nat, block: seq<string>, hunks: seq<Hunk>, k: nat)
    requires p <= |lines| && k <= |hunks| && OccurOnce(Insert(lines, p, block), hunks)
    requires Place(lines, hunks, k).Success? && AllFrom(Place(lines, hunks, k).value, p)
    ensures Place(Insert(lines, p, block), hunks, k) == Success(Shift(Place(lines, hunks, k).value, |block|))
  {
    if k > 0 {
      hide *;
      var offs, at := PlaceLastOf(lines, hunks, k);
      AllFromFront(offs, at, p);
      PlaceShifts(lines, p, block, hunks, k - 1);
      OccursOnceAt(Insert(lines, p, block), hunks, k - 1);
      ShiftStep(lines, p, block, hunks, offs, at);
    } else {
      assert Shift([], |block|) == [];
    }
  }

  lemma {:induction false} AllFromFront(offs: seq<nat>, at: nat, p: nat)
    requires AllFrom(offs + [at], p)
    ensures AllFrom(offs, p) && p <= at
  {
    assert forall i | 0 <= i < |offs| :: (offs + [at])[i] == offs[i];
    assert (offs + [at])[|offs|] == at;
  }

  lemma {:induction false} OccursOnceAt(lines: seq<string>, hunks: seq<Hunk>, i: nat)
    requires OccurOnce(lines, hunks) && i < |hunks|
    ensures Anchor(hunks[i].body) != [] && OneMatch(lines, Anchor(hunks[i].body), 0)
  {
  }

  lemma {:induction false} ShiftStep(lines: seq<string>, p: nat, block: seq<string>, hunks: seq<Hunk>, offs: seq<nat>, at: nat)
    requires p <= |lines| && p <= at && |offs| < |hunks|
    requires Anchor(hunks[|offs|].body) != [] && OneMatch(Insert(lines, p, block), Anchor(hunks[|offs|].body), 0)
    requires Place(Insert(lines, p, block), hunks, |offs|) == Success(Shift(offs, |block|))
    requires Seek(lines, hunks[|offs|], |offs|, Cursor(hunks, offs)) == Success(at)
    ensures Place(Insert(lines, p, block), hunks, |offs| + 1) == Success(Shift(offs + [at], |block|))
  {
    hide Seek, OneMatch, Anchor, Place, Insert;
    var h, shifted := hunks[|offs|], Shift(offs, |block|);
    SeekShifts(lines, p, block, h, |offs|, Cursor(hunks, offs), Cursor(hunks, shifted));
    PlaceNext(Insert(lines, p, block), hunks, shifted, at + |block|);
    assert Shift(offs + [at], |block|) == shifted + [at + |block|];
  }

  lemma {:induction false} SliceShifts<T>(s: seq<T>, p: nat, block: seq<T>, a: nat, b: nat)
    requires p <= a <= b <= |s|
    ensures Insert(s, p, block)[a + |block|..b + |block|] == s[a..b]
    ensures Insert(s, p, block)[a + |block|..] == s[a..]
    ensures Insert(s, p, block)[..b + |block|] == Insert(s[..b], p, block)
  {
  }

  lemma {:induction false} InsertExtends<T>(s: seq<T>, p: nat, block: seq<T>, tail: seq<T>)
    requires p <= |s|
    ensures Insert(s + tail, p, block) == Insert(s, p, block) + tail
    ensures (s + tail)[..p] == s[..p]
  {
  }

  /** The output up to the cursor, with the block inserted: the file's first `p`
      lines open it untouched. */
  ghost predicate Shifts(lines: seq<string>, p: nat, block: seq<string>, hunks: seq<Hunk>, offs: seq<nat>, moved: seq<nat>)
    requires p <= |lines|
    requires Fits(lines, hunks, offs)
  {
    && Fits(Insert(lines, p, block), hunks, moved)
    && |moved| == |offs|
    && Cursor(hunks, moved) == Cursor(hunks, offs) + |block|
    && p <= |Output(lines, hunks, offs)| && Output(lines, hunks, offs)[..p] == lines[..p]
    && Output(Insert(lines, p, block), hunks, moved) == Insert(Output(lines, hunks, offs), p, block)
  }

  lemma {:induction false} OutputShifts(lines: seq<string>, p: nat, block: seq<string>, hunks: seq<Hunk>, offs: seq<nat>)
    requires p <= |lines| && Fits(lines, hunks, offs) && offs != [] && AllFrom(offs, p)
    ensures Shifts(lines, p, block, hunks, offs, Shift(offs, |block|))
  {
    var init, at := Front(offs), Last(offs);
    assert offs == init + [at] && |init| < |hunks|;
    assert Shift(offs, |block|) == Shift(init, |block|) + [at + |block|];
    if init == [] {
      FirstShifts(lines, p, block, hunks, at);
    } else {
      hide Output, Cursor, NewSide, Anchor, Shift, Insert, Shifts;
      OutputLast(lines, hunks, init, at);
      OutputShifts(lines, p, block, hunks, init);
      NextShifts(lines, p, block, hunks, init, Shift(init, |block|), at);
    }
  }

  /** The output of one hunk placed at `at`. */
  lemma {:induction false} FirstOutput(lines: seq<string>, hunks: seq<Hunk>, at: nat)
    requires hunks != [] && Fits(lines, hunks, [at])
    ensures Cursor(hunks, [at]) == at + OldSize(hunks[0]) <= |lines|
    ensures Output(lines, hunks, [at]) == lines[..at] + NewSide(hunks[0].body, lines[at..at + OldSize(hunks[0])])
  {
    assert [] + [at] == [at];
    assert Output(lines, hunks, []) == [] && lines[0..at] == lines[..at];
    hide NewSide, Anchor, Fits, Output;
    OutputLast(lines, hunks, [], at);
  }

  lemma {:induction false} OneFits(lines: seq<string>, hunks: seq<Hunk>, at: nat)
    requires hunks != [] && at + OldSize(hunks[0]) <= |lines|
    ensures Fits(lines, hunks, [at])
  {
    assert [] + [at] == [at] && Fits(lines, hunks, []);
    hide Fits;
    FitsNext(lines, hunks, [], at);
  }

  lemma {:induction false} FirstShifts(lines: seq<string>, p: nat, block: seq<string>, hunks: seq<Hunk>, at: nat)
    requires p <= |lines| && p <= at && hunks != [] && Fits(lines, hunks, [at])
    ensures Shifts(lines, p, block, hunks, [at], [at + |block|])
  {
    hide NewSide, Anchor, Fits, Output, Insert;
    var after := Insert(lines, p, block);
    FirstOutput(lines, hunks, at);
    InsertAt(lines, p, block);
    OneFits(after, hunks, at + |block|);
    FirstOutput(after, hunks, at + |block|);
    SliceShifts(lines, p, block, p, at);
    SliceShifts(lines, p, block, at, at + OldSize(hunks[0]));
    InsertExtends(lines[..at], p, block, NewSide(hunks[0].body, lines[at..at + OldSize(hunks[0])]));
    assert lines[..at][..p] == lines[..p];
  }

  lemma {:induction false} NextShifts(lines: seq<string>, p: nat, block: seq<string>, hunks: seq<Hunk>,
      init: seq<nat>, moved: seq<nat>, at: nat)
    requires p <= |lines| && p <= at && |init| < |hunks|
    requires Fits(lines, hunks, init + [at]) && Fits(lines, hunks, init)
    requires init != [] && p <= Cursor(hunks, init) && Shifts(lines, p, block, hunks, init, moved)
    ensures Shifts(lines, p, block, hunks, init + [at], moved + [at + |block|])
  {
    hide NewSide, Anchor, Output, Fits, Insert;
    var c, end := Cursor(hunks, init), at + OldSize(hunks[|init|]);
    var after := Insert(lines, p, block);
    OutputLast(lines, hunks, init, at);
    InsertAt(lines, p, block);
    FitsNext(after, hunks, moved, at + |block|);
    SliceShifts(lines, p, block, c, at);
    SliceShifts(lines, p, block, at, end);
    InsertExtends(Output(lines, hunks, init), p, block, lines[c..at] + NewSide(hunks[|init|].body, lines[at..end]));
  }

  /** Inserting lines anywhere above the first hunk commutes with patching: the
      headers, now stale by the size of the block, do not matter. */
  lemma {:induction false} InsertionAboveCommutes(lines: seq<string>, p: nat, block: seq<string>, hunks: seq<Hunk>)
    requires hunks != [] && PatchLines(lines, hunks).Success?
    requires p <= |lines| && p <= Place(lines, hunks, |hunks|).value[0]
    requires OccurOnce(Insert(lines, p, block), hunks)
    ensures p <= |PatchLines(lines, hunks).value| && PatchLines(lines, hunks).value[..p] == lines[..p]
    ensures PatchLines(Insert(lines, p, block), hunks) == Success(Insert(PatchLines(lines, hunks).value, p, block))
  {
    hide Output, Fits, OccurOnce, Cursor, Place, Shift, Insert, AllFrom;
    var offs := Place(lines, hunks, |hunks|).value;
    PlaceFits(lines, hunks, |hunks|);
    FirstBoundsAll(lines, hunks, offs, p);
    PlaceShifts(lines, p, block, hunks, |hunks|);
    OutputShifts(lines, p, block, hunks, offs);
    var c := CursorFits(lines, hunks, offs);
    CursorAfter(hunks, offs, p);
    SliceShifts(lines, p, block, c, |lines|);
    InsertExtends(Output(lines, hunks, offs), p, block, lines[c..]);
  }

  lemma {:induction false} CursorAfter(hunks: seq<Hunk>, offs: seq<nat>, p: nat)
    requires 0 < |offs| <= |hunks| && AllFrom(offs, p)
    ensures p <= Cursor(hunks, offs)
  {
  }

  // ----- Bottom-up

  /** The hunks applied one at a time, last one first, headers unchanged. */
  ghost function BottomUp(lines: seq<string>, hunks: seq<Hunk>): Result<seq<string>, PatchError>
    decreases |hunks|
  {
    if hunks == [] then Success(lines)
    else
      match PatchLines(lines, [Last(hunks)])
      case Failure(e) => Failure(e)
      case Success(next) => BottomUp(next, Front(hunks))
  }

  /** A patch with exact headers reads only the file up to its last hunk. */
  lemma {:induction false} ExactLocal(a: seq<string>, b: seq<string>, hunks: seq<Hunk>)
    requires ExactHeaders(a, hunks)
    requires 0 <= EndOf(hunks) <= |a| && EndOf(hunks) <= |b| && a[..EndOf(hunks)] == b[..EndOf(hunks)]
    ensures ExactHeaders(b, hunks) && ExactOutput(b, hunks) == ExactOutput(a, hunks)
  {
    if hunks != [] {
      var h := Last(hunks);
      var init := ExactUnfold(a, hunks);
      var c, at, end := EndOf(init), h.oldStart - 1, EndOf(hunks);
      hide *;
      SharedSlices(a, b, c, at, end);
      ExactLocal(a, b, init);
      ExactAtLocal(a, b, h, c);
      ExactAppend(b, init, h);
    }
  }

  lemma {:induction false} SharedSlices<T>(a: seq<T>, b: seq<T>, c: nat, at: nat, end: nat)
    requires c <= at <= end <= |a| && end <= |b| && a[..end] == b[..end]
    ensures a[..c] == b[..c] && a[c..at] == b[c..at] && a[at..end] == b[at..end]
    ensures forall k | 0 <= k < end :: a[k] == b[k]
  {
    assert forall k | 0 <= k < end :: a[k] == a[..end][k] && b[k] == b[..end][k];
    assert a[c..at] == b[c..at] && a[at..end] == b[at..end];
  }

  lemma {:induction false} ExactAtLocal(a: seq<string>, b: seq<string>, h: Hunk, from: nat)
    requires ExactAt(a, h, from) && 0 <= h.oldStart - 1 && h.oldStart - 1 + OldSize(h) <= |b|
    requires forall k | 0 <= k < h.oldStart - 1 + OldSize(h) :: k < |a| && a[k] == b[k]
    ensures ExactAt(b, h, from)
  {
    hide SameText, Anchor;
  }

  /** The header's range lies in the file, after line `from`. */
  predicate InRange(lines: seq<string>, h: Hunk, from: int) {
    0 <= from <= h.oldStart - 1 && h.oldStart - 1 + OldSize(h) <= |lines|
  }

  /** The file after one hunk, applied where its header says. */
  function AfterHunk(lines: seq<string>, h: Hunk, from: int): seq<string>
    requires InRange(lines, h, from)
  {
    var at, end := h.oldStart - 1, h.oldStart - 1 + OldSize(h);
    lines[..at] + NewSide(h.body, lines[at..end]) + lines[end..]
  }

  lemma {:induction false} OneExactHunk(lines: seq<string>, h: Hunk, from: int)
    requires InRange(lines, h, from) && ExactAt(lines, h, 0)
    ensures PatchLines(lines, [h]) == Success(AfterHunk(lines, h, from))
  {
    hide ExactAt, Anchor, NewSide, Place, Output;
    assert ExactHeaders(lines, []) && EndOf([]) == 0 && ExactOutput(lines, []) == [];
    ExactAppend(lines, [], h);
    assert [] + [h] == [h];
    PatchExact(lines, [h]);
    var at, end := h.oldStart - 1, h.oldStart - 1 + OldSize(h);
    assert [] + (lines[0..at] + NewSide(h.body, lines[at..end])) == lines[..at] + NewSide(h.body, lines[at..end]);
  }

  /** With exact headers, the single pass and the bottom-up edits agree. */
  lemma {:induction false} OnePassIsBottomUp(lines: seq<string>, hunks: seq<Hunk>)
    requires ExactHeaders(lines, hunks)
    ensures PassesAgree(lines, hunks)
    decreases |hunks|
  {
    if hunks == [] {
      PatchExact(lines, hunks);
      assert [] + lines[0..] == lines;
    } else {
      var next := LastAlone(lines, hunks);
      assert ExactHeaders(next, Front(hunks));
      OnePassIsBottomUp(next, Front(hunks));
      hide *;
      BottomUpStep(lines, hunks, next);
    }
  }

  ghost predicate PassesAgree(lines: seq<string>, hunks: seq<Hunk>) {
    BottomUp(lines, hunks) == PatchLines(lines, hunks)
  }

  /** The text a patch with exact headers gives. */
  ghost function Whole(lines: seq<string>, hunks: seq<Hunk>): seq<string>
    requires ExactHeaders(lines, hunks)
  {
    EndIsNat(lines, hunks);
    ExactOutput(lines, hunks) + lines[EndOf(hunks)..]
  }

  /** The last hunk alone leads to `next`, and the others finish the same work there. */
  ghost predicate AfterLast(lines: seq<string>, hunks: seq<Hunk>, next: seq<string>)
    requires hunks != [] && ExactHeaders(lines, hunks)
  {
    && PatchLines(lines, [Last(hunks)]) == Success(next)
    && ExactHeaders(next, Front(hunks))
    && Whole(next, Front(hunks)) == Whole(lines, hunks)
  }

  lemma {:induction false} LastAlone(lines: seq<string>, hunks: seq<Hunk>) returns (next: seq<string>)
    requires hunks != [] && ExactHeaders(lines, hunks)
    ensures AfterLast(lines, hunks, next)
  {
    var init := ExactUnfold(lines, hunks);
    assert Front(hunks) == init;
    next := AfterHunk(lines, Last(hunks), EndOf(init));
    hide AfterHunk, PatchLines, ExactHeaders, ExactOutput, EndOf, ExactAt, Whole;
    OneExactHunk(lines, Last(hunks), EndOf(init));
    LastHunkDone(lines, hunks, init, Last(hunks));
  }

  lemma {:induction false} LastHunkDone(lines: seq<string>, hunks: seq<Hunk>, init: seq<Hunk>, h: Hunk)
    requires hunks == init + [h] && ExactHeaders(lines, hunks) && ExactHeaders(lines, init)
    requires InRange(lines, h, EndOf(init)) && EndOf(hunks) == h.oldStart - 1 + OldSize(h)
    requires ExactOutput(lines, hunks) == ExactOutput(lines, init)
        + (lines[EndOf(init)..h.oldStart - 1]
        + NewSide(h.body, lines[h.oldStart - 1..h.oldStart - 1 + OldSize(h)]))
    ensures var next := AfterHunk(lines, h, EndOf(init));
      ExactHeaders(next, init) && Whole(next, init) == Whole(lines, hunks)
  {
    hide ExactOutput, ExactHeaders, EndOf, NewSide, Anchor;
    var at, end, next := h.oldStart - 1, h.oldStart - 1 + OldSize(h), AfterHunk(lines, h, EndOf(init));
    CutBefore(lines, EndOf(init), at, NewSide(h.body, lines[at..end]), lines[end..]);
    ExactLocal(lines, next, init);
    Assoc(ExactOutput(lines, init), lines[EndOf(init)..at] + NewSide(h.body, lines[at..end]), lines[end..]);
  }

  lemma {:induction false} BottomUpStep(lines: seq<string>, hunks: seq<Hunk>, next: seq<string>)
    requires hunks != [] && ExactHeaders(lines, hunks)
    requires AfterLast(lines, hunks, next) && PassesAgree(next, Front(hunks))
    ensures PassesAgree(lines, hunks)
  {
    hide PatchLines, ExactHeaders;
    PatchExact(next, Front(hunks));
    PatchExact(lines, hunks);
  }

  lemma {:induction false} CutBefore<T>(s: seq<T>, c: nat, at: nat, side: seq<T>, tail: seq<T>)
    requires c <= at <= |s|
    ensures var next := s[..at] + side + tail;
      next[..c] == s[..c] && next[c..] == (s[c..at] + side) + tail
  {
  }

  // ----- The same on text

  lemma {:induction false} FileLinesInsert(above: string, block: string, below: string)
    requires Boundary(above, block) && Boundary(block, below) && Boundary(above, below) && below != ""
    ensures |SplitLines(above)| <= |FileLines(above + below)|
    ensures FileLines(above + below)[..|SplitLines(above)|] == SplitLines(above)
    ensures FileLines(above + block + below)
      == Insert(FileLines(above + below), |SplitLines(above)|, SplitLines(block))
  {
    hide SplitLines, Boundary, WithNewline;
    SplitBoundary(above, below);
    SplitBoundary(block, below);
    BoundaryChain(above, block, below);
    SplitBoundary(above, block + below);
    Assoc(above, block, below);
    var a, b, ls := SplitLines(above), SplitLines(block), SplitLines(below);
    assert ls != [] by { SplitSome(below); }
    var done := FileLines(below);
    assert a + ls == a[..|a|] + ls && (a + ls)[|a + ls| - 1 := WithNewline(Last(ls))] == a + done;
    Assoc(a, b, ls);
    assert (a + b + ls)[|a + b + ls| - 1 := WithNewline(Last(ls))] == a + b + done;
    assert (a + done)[..|a|] == a && (a + done)[|a|..] == done;
  }

  lemma {:induction false} SplitSome(s: string)
    requires s != ""
    ensures SplitLines(s) != []
  {
  }

  /** The first hunk's anchor stands below the insertion point. */
  lemma {:induction false} BelowIsThere(above: string, below: string, hunks: seq<Hunk>)
    requires hunks != [] && Anchor(hunks[0].body) != []
    requires Place(FileLines(above + below), hunks, |hunks|).Success?
    requires |SplitLines(above)| <= Place(FileLines(above + below), hunks, |hunks|).value[0]
    ensures below != ""
  {
    hide Place, SplitLines, Anchor;
    var lines := FileLines(above + below);
    var offs := Place(lines, hunks, |hunks|).value;
    PlaceFits(lines, hunks, |hunks|);
    FitsPrefix(lines, hunks, offs, 1);
    assert below == "" ==> above + below == above;
  }

  /** Inserting whole lines anywhere above the first hunk commutes with patching
      the text. The insertion point may not cut a CRLF in two, and neither the
      lines above nor the block may end in a CR that an LF would complete. */
  lemma {:induction false} TextAboveCommutes(above: string, block: string, below: string, hunks: seq<Hunk>)
    requires Boundary(above, block) && Boundary(block, below) && Boundary(above, below)
    requires hunks != [] && PatchText(above + below, hunks).Success?
    requires |SplitLines(above)| <= Place(FileLines(above + below), hunks, |hunks|).value[0]
    requires OccurOnce(FileLines(above + block + below), hunks)
    ensures above <= PatchText(above + below, hunks).value
    ensures PatchText(above + block + below, hunks)
      == Success(above + block + PatchText(above + below, hunks).value[|above|..])
  {
    hide OccurOnce, PatchLines, FileLines, SplitLines, Boundary, Place;
    var lines, p, added := FileLines(above + below), |SplitLines(above)|, SplitLines(block);
    PatchedLines(lines, hunks);
    assert Anchor(hunks[0].body) != [] by { OccursOnceAt(FileLines(above + block + below), hunks, 0); }
    BelowIsThere(above, below, hunks);
    FileLinesInsert(above, block, below);
    InsertionAboveCommutes(lines, p, added, hunks);
    var out := PatchLines(lines, hunks).value;
    JoinSplit(above);
    JoinSplit(block);
    assert out == out[..p] + out[p..];
    JoinAppend(out[..p], out[p..]);
    JoinAppend(out[..p] + added, out[p..]);
    JoinAppend(out[..p], added);
  }
}
