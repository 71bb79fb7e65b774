/**
 Patches whose headers are exact, built up one hunk at a time.
 */
module Exact {
  import opened Results
  import opened Lines
  import opened Patch

  // ----- A longer hunk list changes nothing for the hunks before

  lemma {:induction false} PlacePrefix(lines: seq<string>, hunks: seq<Hunk>, more: seq<Hunk>, k: nat)
    requires k <= |hunks|
    ensures Place(lines, hunks + more, k) == Place(lines, hunks, k)
  {
    if k > 0 {
      hide Seek, Cursor;
      PlacePrefix(lines, hunks, more, k - 1);
      assert (hunks + more)[k - 1] == hunks[k - 1];
      if Place(lines, hunks, k - 1).Success? {
        CursorPrefix(hunks, more, Place(lines, hunks, k - 1).value);
      }
    }
  }

  lemma {:induction false} PlaceNext(lines: seq<string>, hunks: seq<Hunk>, offs: seq<nat>, at: nat)
    requires |offs| < |hunks| && Place(lines, hunks, |offs|) == Success(offs)
    requires Seek(lines, hunks[|offs|], |offs|, Cursor(hunks, offs)) == Success(at)
    ensures Place(lines, hunks, |offs| + 1) == Success(offs + [at])
  {
    hide Seek, Cursor;
  }

  lemma {:induction false} PlaceLastOf(lines: seq<string>, hunks: seq<Hunk>, k: nat)
      returns (offs: seq<nat>, at: nat)
    requires 0 < k <= |hunks| && Place(lines, hunks, k).Success?
    ensures |offs| == k - 1 && Place(lines, hunks, k - 1) == Success(offs)
    ensures Seek(lines, hunks[k - 1], k - 1, Cursor(hunks, offs)) == Success(at)
    ensures Place(lines, hunks, k) == Success(offs + [at])
  {
    hide Seek, Cursor;
    offs := Place(lines, hunks, k - 1).value;
    at := Seek(lines, hunks[k - 1], k - 1, Cursor(hunks, offs)).value;
  }

  lemma {:induction false} CursorPrefix(hunks: seq<Hunk>, more: seq<Hunk>, offs: seq<nat>)
    requires |offs| <= |hunks|
    ensures Cursor(hunks + more, offs) == Cursor(hunks, offs)
  {
  }

  lemma {:induction false} OutputPrefix(lines: seq<string>, hunks: seq<Hunk>, more: seq<Hunk>, offs: seq<nat>)
    requires Fits(lines, hunks, offs)
    ensures Fits(lines, hunks + more, offs)
    ensures Output(lines, hunks + more, offs) == Output(lines, hunks, offs)
    decreases |offs|
  {
    if offs != [] {
      hide NewSide, Anchor;
      OutputPrefix(lines, hunks, more, Front(offs));
      assert (hunks + more)[|offs| - 1] == hunks[|offs| - 1];
    }
  }

  // ----- Exact headers

  /** Every hunk matches at its header line, after the end of the one before. */
  ghost predicate ExactHeaders(lines: seq<string>, hunks: seq<Hunk>) {
    hunks != [] ==>
      && ExactHeaders(lines, Front(hunks))
      && ExactAt(lines, Last(hunks), EndOf(Front(hunks)))
  }

  /** Where a hunk with an exact header ends. */
  function EndOf(hunks: seq<Hunk>): int {
    if hunks == [] then 0 else Last(hunks).oldStart - 1 + OldSize(Last(hunks))
  }

  ghost predicate ExactAt(lines: seq<string>, h: Hunk, from: int) {
    from <= h.oldStart - 1 && MatchesAt(lines, Anchor(h.body), h.oldStart - 1)
  }

  /** The file up to the end of the last hunk, patched where the headers say. */
  ghost function ExactOutput(lines: seq<string>, hunks: seq<Hunk>): seq<string>
    requires ExactHeaders(lines, hunks)
  {
    if hunks == [] then []
    else
      var at := Last(hunks).oldStart - 1;
      assert EndOf(Front(hunks)) >= 0 by { EndIsNat(lines, Front(hunks)); }
      ExactOutput(lines, Front(hunks))
      + (lines[EndOf(Front(hunks))..at]
      + NewSide(Last(hunks).body, lines[at..at + OldSize(Last(hunks))]))
  }

  lemma {:induction false} EndIsNat(lines: seq<string>, hunks: seq<Hunk>)
    requires ExactHeaders(lines, hunks)
    ensures 0 <= EndOf(hunks) <= |lines|
  {
  }

  lemma {:induction false} ExactAppend(lines: seq<string>, hunks: seq<Hunk>, h: Hunk)
    requires ExactHeaders(lines, hunks) && ExactAt(lines, h, EndOf(hunks))
    requires 0 <= EndOf(hunks) <= h.oldStart - 1 && h.oldStart - 1 + OldSize(h) <= |lines|
    ensures ExactHeaders(lines, hunks + [h])
    ensures EndOf(hunks + [h]) == h.oldStart - 1 + OldSize(h)
    ensures ExactOutput(lines, hunks + [h]) == ExactOutput(lines, hunks)
      + (lines[EndOf(hunks)..h.oldStart - 1]
      + NewSide(h.body, lines[h.oldStart - 1..h.oldStart - 1 + OldSize(h)]))
  {
    hide Anchor, NewSide, ExactAt;
    assert Front(hunks + [h]) == hunks && Last(hunks + [h]) == h;
  }

  /** One more hunk with an exact header. */
  lemma {:induction false} AddExact(lines: seq<string>, hunks: seq<Hunk>, offs: seq<nat>, h: Hunk)
    requires Place(lines, hunks, |hunks|) == Success(offs) && Fits(lines, hunks, offs)
    requires 0 <= Cursor(hunks, offs) <= h.oldStart - 1 && h.oldStart - 1 + OldSize(h) <= |lines|
    requires ExactAt(lines, h, Cursor(hunks, offs))
    ensures Place(lines, hunks + [h], |hunks| + 1) == Success(offs + [h.oldStart - 1])
    ensures Fits(lines, hunks + [h], offs + [h.oldStart - 1])
    ensures Cursor(hunks + [h], offs + [h.oldStart - 1]) == h.oldStart - 1 + OldSize(h)
    ensures Output(lines, hunks + [h], offs + [h.oldStart - 1]) == Output(lines, hunks, offs)
      + (lines[Cursor(hunks, offs)..h.oldStart - 1]
      + NewSide(h.body, lines[h.oldStart - 1..h.oldStart - 1 + OldSize(h)]))
  {
    hide NewSide, Anchor, Fits, Output, Place, Locate, MatchesAt, Cursor;
    var all, at := hunks + [h], h.oldStart - 1;
    assert all[|hunks|] == h;
    PlacePrefix(lines, hunks, [h], |hunks|);
    CursorPrefix(hunks, [h], offs);
    OutputPrefix(lines, hunks, [h], offs);
    LocateExact(lines, h, Cursor(hunks, offs));
    PlaceNext(lines, all, offs, at);
    FitsNext(lines, all, offs, at);
  }

  lemma {:induction false} FitsNext(lines: seq<string>, hunks: seq<Hunk>, offs: seq<nat>, at: nat)
    requires Fits(lines, hunks, offs) && |offs| < |hunks|
    requires Cursor(hunks, offs) <= at && at + OldSize(hunks[|offs|]) <= |lines|
    ensures Fits(lines, hunks, offs + [at])
    ensures Cursor(hunks, offs + [at]) == at + OldSize(hunks[|offs|])
    ensures Output(lines, hunks, offs + [at]) == Output(lines, hunks, offs)
      + (lines[Cursor(hunks, offs)..at]
      + NewSide(hunks[|offs|].body, lines[at..at + OldSize(hunks[|offs|])]))
  {
    hide NewSide, Anchor;
    assert Front(offs + [at]) == offs && Last(offs + [at]) == at;
  }

  lemma {:induction false} LocateExact(lines: seq<string>, h: Hunk, from: nat)
    requires ExactAt(lines, h, from)
    ensures Locate(lines, Anchor(h.body), h.oldStart - 1, from) == Some(h.oldStart - 1)
    ensures h.oldStart - 1 + OldSize(h) <= |lines|
  {
  }

  lemma {:induction false} ExactUnfold(lines: seq<string>, hunks: seq<Hunk>) returns (init: seq<Hunk>)
    requires hunks != [] && ExactHeaders(lines, hunks)
    ensures var h := Last(hunks);
      && hunks == init + [h] && |init| < |hunks|
      && ExactHeaders(lines, init) && ExactAt(lines, h, EndOf(init)) && ExactAt(lines, h, 0)
      && 0 <= EndOf(init) <= h.oldStart - 1
      && EndOf(hunks) == h.oldStart - 1 + OldSize(h) <= |lines|
      && ExactOutput(lines, hunks) == ExactOutput(lines, init)
        + (lines[EndOf(init)..h.oldStart - 1]
        + NewSide(h.body, lines[h.oldStart - 1..h.oldStart - 1 + OldSize(h)]))
  {
    init := Front(hunks);
    EndIsNat(lines, init);
    assert hunks == init + [Last(hunks)];
  }

  /** The hunks are placed at `offs`, exactly where their headers say. */
  ghost predicate PlacedExactly(lines: seq<string>, hunks: seq<Hunk>, offs: seq<nat>)
    requires ExactHeaders(lines, hunks)
  {
    && Place(lines, hunks, |hunks|) == Success(offs)
    && Fits(lines, hunks, offs) && Cursor(hunks, offs) == EndOf(hunks)
    && Output(lines, hunks, offs) == ExactOutput(lines, hunks)
  }

  lemma {:induction false} ExactStep(lines: seq<string>, hunks: seq<Hunk>, init: seq<Hunk>, h: Hunk, offs: seq<nat>)
    requires hunks == init + [h] && ExactHeaders(lines, hunks)
    requires ExactHeaders(lines, init) && ExactAt(lines, h, EndOf(init))
    requires PlacedExactly(lines, init, offs)
    requires 0 <= EndOf(init) <= h.oldStart - 1
    requires EndOf(hunks) == h.oldStart - 1 + OldSize(h) <= |lines|
    requires ExactOutput(lines, hunks) == ExactOutput(lines, init)
        + (lines[EndOf(init)..h.oldStart - 1]
        + NewSide(h.body, lines[h.oldStart - 1..h.oldStart - 1 + OldSize(h)]))
    ensures PlacedExactly(lines, hunks, offs + [h.oldStart - 1])
  {
    hide Anchor, NewSide, Place, Fits, Cursor, Output, ExactOutput, ExactHeaders, EndOf, ExactAt, OldSize;
    AddExact(lines, init, offs, h);
  }

  /** Exact headers are followed exactly: every hunk goes where its header says. */
  lemma {:induction false} ExactPlaces(lines: seq<string>, hunks: seq<Hunk>) returns (offs: seq<nat>)
    requires ExactHeaders(lines, hunks)
    ensures PlacedExactly(lines, hunks, offs)
  {
    hide Place, Anchor, NewSide, ExactAt;
    if hunks == [] {
      offs := [];
      NothingPlaced(lines, hunks);
    } else {
      hide *;
      var init := ExactUnfold(lines, hunks);
      offs := ExactPlaces(lines, init);
      ExactStep(lines, hunks, init, Last(hunks), offs);
      offs := offs + [Last(hunks).oldStart - 1];
    }
  }

  lemma {:induction false} PatchExact(lines: seq<string>, hunks: seq<Hunk>)
    requires ExactHeaders(lines, hunks)
    ensures 0 <= EndOf(hunks) <= |lines|
    ensures PatchLines(lines, hunks) == Success(ExactOutput(lines, hunks) + lines[EndOf(hunks)..])
  {
    EndIsNat(lines, hunks);
    var offs := ExactPlaces(lines, hunks);
  }

  lemma {:induction false} BlockIn<T>(out: seq<T>, before: seq<T>, gap: seq<T>, side: seq<T>)
    requires before + (gap + side) <= out
    ensures before <= out && |before| + |gap| + |side| <= |out|
    ensures out[|before|..|before| + |gap|] == gap
    ensures out[|before| + |gap|..|before| + |gap| + |side|] == side
  {
    var all := before + (gap + side);
    assert forall k | 0 <= k < |all| :: out[k] == all[k];
  }
}
