/**
 Where a bare CR spoils the text laws: an empty LF line put after it completes
 it to a CRLF, so the patched file has one line fewer than was put together.
 */
module Merging {
  import opened Results
  import opened Lines
  import opened Patch
  import opened SpliceFacts
  import opened Exact
  import opened DiffParser
  import opened Inversion
  import opened Relocation
  import opened Seams

  const KEEP_AND_ADD := Hunk(1, [DiffLine(Keep, "a"), DiffLine(Add, "")])
  const REMOVE_A := Hunk(1, [DiffLine(Remove, "a")])
  const REPLACE_B := Hunk(2, [DiffLine(Remove, "b"), DiffLine(Add, "")])
  const REPLACE_X := Hunk(1, [DiffLine(Remove, "x"), DiffLine(Add, "y")])
  const REMOVE_THIRD := Hunk(3, [DiffLine(Remove, "a")])
  const EMPTY_FOURTH := Hunk(4, [DiffLine(Remove, "b"), DiffLine(Add, "")])

  lemma {:induction false} PlainLine(c: string, end: string, l: string)
    requires Clean(c) && end in {"\n", "\r", "\r\n"} && l == c + end
    ensures Chomp(l) == c && WholeLine(l) && SameText(l, c) && (EndsWithCr(l) <==> end == "\r")
  {
    ChompUnique(l, c);
    ChompUnique(c, c);
  }

  lemma {:induction false} JoinOne(a: string)
    ensures Join([a]) == a
  {
    JoinLast([], a);
    assert [] + [a] == [a];
  }

  lemma {:induction false} JoinTwo(a: string, b: string)
    ensures Join([a, b]) == a + b
  {
    JoinOne(a);
    JoinLast([a], b);
    assert [a] + [b] == [a, b];
  }

  lemma {:induction false} JoinThree(a: string, b: string, c: string)
    ensures Join([a, b, c]) == a + b + c
  {
    JoinTwo(a, b);
    JoinLast([a, b], c);
    assert [a, b] + [c] == [a, b, c];
  }

  lemma {:induction false} TwoLines(text: string, a: string, b: string)
    requires text == a + b && WholeLine(a) && WholeLine(b) && !EndsWithCr(b) && (EndsWithCr(a) ==> b != "\n")
    ensures FileLines(text) == [a, b]
  {
    hide WholeLine, EndsWithCr, FileLines, Join;
    ReadsBackExactly([a, b]);
    JoinTwo(a, b);
  }

  lemma {:induction false} ThreeLines(text: string, a: string, b: string, c: string)
    requires text == a + b + c && WholeLine(a) && WholeLine(b) && WholeLine(c) && !EndsWithCr(c)
    requires (EndsWithCr(a) ==> b != "\n") && (EndsWithCr(b) ==> c != "\n")
    ensures FileLines(text) == [a, b, c]
  {
    hide WholeLine, EndsWithCr, FileLines, Join;
    ReadsBackExactly([a, b, c]);
    JoinThree(a, b, c);
  }

  /** The lines of the texts below. */
  lemma {:induction false} TheLines()
    ensures FileLines("a\rb\n") == ["a\r", "b\n"] && FileLines("a\r\nb\n") == ["a\r\n", "b\n"]
    ensures FileLines("a\rb\nc\n") == ["a\r", "b\n", "c\n"] && FileLines("a\r\nc\n") == ["a\r\n", "c\n"]
  {
    hide FileLines, Chomp, WholeLine, EndsWithCr, SameText;
    TheTexts();
    TwoLines("a\rb\n", "a\r", "b\n");
    TwoLines("a\r\nb\n", "a\r\n", "b\n");
    TwoLines("a\r\nc\n", "a\r\n", "c\n");
    ThreeLines("a\rb\nc\n", "a\r", "b\n", "c\n");
  }

  lemma {:induction false} TheTexts()
    ensures WholeLine("a\r") && EndsWithCr("a\r") && SameText("a\r", "a")
    ensures WholeLine("a\r\n") && !EndsWithCr("a\r\n") && SameText("a\r\n", "a") && !SameText("a\r\n", "")
    ensures WholeLine("b\n") && !EndsWithCr("b\n") && SameText("b\n", "b") && !SameText("b\n", "")
    ensures WholeLine("c\n") && !EndsWithCr("c\n")
    ensures WithNewline("") == "\n"
  {
    hide Chomp, WholeLine, EndsWithCr;
    PlainLine("a", "\r", "a\r");
    PlainLine("a", "\r\n", "a\r\n");
    PlainLine("b", "\n", "b\n");
    PlainLine("c", "\n", "c\n");
    ChompUnique("", "");
  }

  /** A body of two lines, the second one added. */
  lemma {:induction false} TwoLineBody(x: DiffLine, y: DiffLine, here: seq<string>)
    requires x.op != Add && |here| == 1
    ensures Anchor([x, y]) == if y.op == Add then [x.text] else [x.text, y.text]
    ensures y.op == Add ==>
      NewSide([x, y], here) == (if x.op == Keep then here else []) + [WithNewline(y.text)]
    ensures FlipBody([x, y]) == [DiffLine(Flip(x.op), x.text), DiffLine(Flip(y.op), y.text)]
  {
    hide WithNewline;
    assert [x, y][1..] == [y] && [y][1..] == [] && here[1..] == [];
    assert Anchor([y]) == if y.op == Add then [] else [y.text];
    assert y.op == Add ==> NewSide([y], []) == [WithNewline(y.text)];
    assert FlipBody([y]) == [DiffLine(Flip(y.op), y.text)];
  }

  lemma {:induction false} AppliedThere(lines: seq<string>, h: Hunk, side: seq<string>)
    requires InRange(lines, h, 0) && MatchesAt(lines, Anchor(h.body), h.oldStart - 1)
    requires NewSide(h.body, lines[h.oldStart - 1..h.oldStart - 1 + OldSize(h)]) == side
    ensures PatchLines(lines, [h])
      == Success(lines[..h.oldStart - 1] + side + lines[h.oldStart - 1 + OldSize(h)..])
  {
    hide PatchLines, Anchor, NewSide, MatchesAt;
    OneExactHunk(lines, h, 0);
  }

  /** Undoing can fail: in a file with a bare CR, the added empty line is lost in
      the terminator before it, and the inverse finds nothing to remove. */
  lemma {:induction false} UndoCanFail()
    ensures GoodHunks([KEEP_AND_ADD]) && Fits(FileLines("a\rb\n"), [KEEP_AND_ADD], [0])
    ensures PatchText("a\rb\n", [KEEP_AND_ADD]) == Success("a\r\nb\n")
    ensures PatchText("a\r\nb\n", Inverse(FileLines("a\rb\n"), [KEEP_AND_ADD], [0])).Failure?
  {
    hide FileLines, Chomp, WholeLine, EndsWithCr, Join, PatchLines, SameText, WithNewline, Output, Place;
    hide Anchor, NewSide, FlipBody, Inverse, Fits;
    var lines, patched := ["a\r", "b\n"], ["a\r\n", "b\n"];
    TheLines();
    TheTexts();
    var keep, add := DiffLine(Keep, "a"), DiffLine(Add, "");
    TwoLineBody(keep, add, lines[0..1]);
    JoinThree("a\r", "\n", "b\n");
    assert lines[..0] + ["a\r", "\n"] + lines[1..] == ["a\r", "\n", "b\n"];
    assert "a\r" + "\n" + "b\n" == "a\r\nb\n";
    AppliedThere(lines, KEEP_AND_ADD, ["a\r", "\n"]);
    OneFits(lines, [KEEP_AND_ADD], 0);
    var inverse := Hunk(1, [keep, DiffLine(Remove, "")]);
    assert [] + [0] == [0] && [] + [inverse] == [inverse];
    InverseUnfold(lines, [KEEP_AND_ADD], [], 0);
    assert Inverse(lines, [KEEP_AND_ADD], []) == [] && Growth([KEEP_AND_ADD], 0) == 0 by { NothingUndone(lines); }
    TwoLineBody(keep, DiffLine(Remove, ""), lines[0..1]);
    if PatchLines(patched, [inverse]).Success? {
      AnchorsPresent(patched, [inverse], 0, 1);
    }
  }

  lemma {:induction false} NothingUndone(lines: seq<string>)
    ensures Fits(lines, [KEEP_AND_ADD], []) && Inverse(lines, [KEEP_AND_ADD], []) == []
    ensures Growth([KEEP_AND_ADD], 0) == 0
  {
  }

  /** The single pass and the bottom-up edits can differ: after the last hunk
      the first one finds its line merged with the one below. */
  lemma {:induction false} BottomUpCanDiffer()
    ensures GoodHunks([REMOVE_A, REPLACE_B]) && ExactHeaders(FileLines("a\rb\nc\n"), [REMOVE_A, REPLACE_B])
    ensures PatchText("a\rb\nc\n", [REMOVE_A, REPLACE_B]) == Success("\nc\n")
    ensures BottomUpText("a\rb\nc\n", [REMOVE_A, REPLACE_B]) == Success("c\n")
  {
    hide FileLines, Chomp, WholeLine, EndsWithCr, Join, PatchLines, SameText, WithNewline, Output, Place;
    hide Anchor, NewSide, ExactHeaders, BottomUp, BottomUpText;
    TheLines();
    TheTexts();
    var lines, next := ["a\r", "b\n", "c\n"], ["a\r", "\n", "c\n"];
    TwoLineBody(DiffLine(Remove, "b"), DiffLine(Add, ""), lines[1..2]);
    JoinThree("a\r", "\n", "c\n");
    JoinTwo("\n", "c\n");
    JoinOne("c\n");
    assert lines[..1] + ["\n"] + lines[2..] == next && "a\r" + "\n" + "c\n" == "a\r\nc\n";
    AppliedThere(lines, REPLACE_B, ["\n"]);
    OneLineBody(lines[0..1]);
    OneLineBody(next[0..1]);
    assert next[..0] + [] + next[1..] == ["\n", "c\n"] && "\n" + "c\n" == "\nc\n";
    AppliedThere(next, REMOVE_A, []);
    var merged := ["a\r\n", "c\n"];
    OneLineBody(merged[0..1]);
    assert merged[..0] + [] + merged[1..] == ["c\n"];
    AppliedThere(merged, REMOVE_A, []);
    BothExact(lines);
    OnePassIsBottomUp(lines, [REMOVE_A, REPLACE_B]);
    TwoSteps(lines, REMOVE_A, REPLACE_B, next, ["\n", "c\n"]);
    TwoTextSteps("a\rb\nc\n", REMOVE_A, REPLACE_B, "a\r\nc\n", "c\n");
  }

  lemma {:induction false} TwoSteps(lines: seq<string>, x: Hunk, y: Hunk, next: seq<string>, out: seq<string>)
    requires PatchLines(lines, [y]) == Success(next) && PatchLines(next, [x]) == Success(out)
    ensures BottomUp(lines, [x, y]) == Success(out)
  {
    hide PatchLines;
    assert Front([x, y]) == [x] && Front([x]) == [] && Last([x, y]) == y && Last([x]) == x;
    assert BottomUp(out, []) == Success(out);
    assert BottomUp(next, [x]) == Success(out);
  }

  lemma {:induction false} TwoTextSteps(text: string, x: Hunk, y: Hunk, next: string, out: string)
    requires PatchText(text, [y]) == Success(next) && PatchText(next, [x]) == Success(out)
    ensures BottomUpText(text, [x, y]) == Success(out)
  {
    hide PatchText;
    assert Front([x, y]) == [x] && Front([x]) == [] && Last([x, y]) == y && Last([x]) == x;
    assert BottomUpText(out, []) == Success(out);
    assert BottomUpText(next, [x]) == Success(out);
  }

  lemma {:induction false} OneLineBody(here: seq<string>)
    requires |here| == 1
    ensures Anchor(REMOVE_A.body) == ["a"] && NewSide(REMOVE_A.body, here) == []
  {
  }

  lemma {:induction false} BothExact(lines: seq<string>)
    requires |lines| == 3 && SameText(lines[0], "a") && SameText(lines[1], "b")
    ensures ExactHeaders(lines, [REMOVE_A, REPLACE_B])
  {
  }

  lemma {:induction false} JoinFour(a: string, b: string, c: string, d: string)
    ensures Join([a, b, c, d]) == a + b + c + d
  {
    JoinThree(a, b, c);
    JoinLast([a, b, c], d);
    assert [a, b, c] + [d] == [a, b, c, d];
  }

  /** The texts between the steps below, and their lines. */
  lemma {:induction false} TheSteps()
    ensures WholeLine("x\n") && WholeLine("y\n") && WholeLine("z\r") && EndsWithCr("z\r") && WholeLine("z\r\n")
    ensures SameText("x\n", "x") && WithNewline("y") == "y\n"
    ensures FileLines("x\nz\ra\rb\n") == ["x\n", "z\r", "a\r", "b\n"]
    ensures FileLines("x\nz\ra\r\n") == ["x\n", "z\r", "a\r\n"] && FileLines("x\nz\r") == ["x\n", "z\r\n"]
  {
    hide FileLines, Chomp, WholeLine, EndsWithCr, SameText, SplitLines, Boundary;
    TheTexts();
    PlainLine("x", "\n", "x\n");
    PlainLine("y", "\n", "y\n");
    PlainLine("z", "\r", "z\r");
    PlainLine("z", "\r\n", "z\r\n");
    FourLines("x\nz\ra\rb\n", "x\n", "z\r", "a\r", "b\n");
    ThreeLines("x\nz\ra\r\n", "x\n", "z\r", "a\r\n");
    EndCompleted(["x\n", "z\r"]);
    JoinTwo("x\n", "z\r");
    assert "x\n" + "z\r" == "x\nz\r" && Front(["x\n", "z\r"]) + ["z\r\n"] == ["x\n", "z\r\n"] && "z\r" + "\n" == "z\r\n";
  }

  lemma {:induction false} FourLines(text: string, a: string, b: string, c: string, d: string)
    requires text == a + b + c + d && WholeLine(a) && WholeLine(b) && WholeLine(c) && WholeLine(d) && !EndsWithCr(d)
    requires (EndsWithCr(a) ==> b != "\n") && (EndsWithCr(b) ==> c != "\n") && (EndsWithCr(c) ==> d != "\n")
    ensures FileLines(text) == [a, b, c, d]
  {
    hide WholeLine, EndsWithCr, FileLines, Join;
    ReadsBackExactly([a, b, c, d]);
    JoinFour(a, b, c, d);
  }

  /** That every seam agrees is not necessary from three hunks on: here the empty
      line lost at one seam comes back as the end of the file at the next. */
  lemma {:induction false} DifferencesCanCancel()
    ensures var text, hunks := "x\nz\ra\rb\n", [REPLACE_X, REMOVE_THIRD, EMPTY_FOURTH];
      && GoodHunks(hunks) && ExactHeaders(FileLines(text), hunks) && !SeamsAgree(FileLines(text), hunks)
      && PatchText(text, hunks) == Success("y\nz\r\n") && BottomUpText(text, hunks) == Success("y\nz\r\n")
  {
    hide FileLines, Chomp, WholeLine, EndsWithCr, Join, PatchLines, SameText, WithNewline, Output, Place;
    hide Anchor, NewSide, ExactHeaders, BottomUp, BottomUpText, SeamsAgree;
    TheTexts();
    TheSteps();
    var lines, hunks := ["x\n", "z\r", "a\r", "b\n"], [REPLACE_X, REMOVE_THIRD, EMPTY_FOURTH];
    ThreeExact(lines);
    OnLines(lines);
    OnText();
    JoinThree("y\n", "z\r", "\n");
    assert "y\n" + "z\r" + "\n" == "y\nz\r\n";
    OnePassIsBottomUp(lines, hunks);
    SeamIsLost(lines);
  }

  /** The three hunks, each on any file that has its line. */
  lemma {:induction false} EmptyFourth(lines: seq<string>)
    requires |lines| == 4 && SameText(lines[3], "b")
    ensures PatchLines(lines, [EMPTY_FOURTH]) == Success(lines[..3] + ["\n"])
  {
    hide PatchLines, SameText, Anchor, NewSide;
    TwoLineBody(DiffLine(Remove, "b"), DiffLine(Add, ""), lines[3..4]);
    assert WithNewline("") == "\n" && [] + ["\n"] == ["\n"];
    AppliedThere(lines, EMPTY_FOURTH, ["\n"]);
    assert lines[..3] + ["\n"] + lines[4..] == lines[..3] + ["\n"];
  }

  lemma {:induction false} RemoveThird(lines: seq<string>)
    requires |lines| >= 3 && SameText(lines[2], "a")
    ensures PatchLines(lines, [REMOVE_THIRD]) == Success(lines[..2] + lines[3..])
  {
    hide PatchLines, SameText, Anchor, NewSide;
    OneLineBody(lines[2..3]);
    AppliedThere(lines, REMOVE_THIRD, []);
    assert lines[..2] + [] + lines[3..] == lines[..2] + lines[3..];
  }

  lemma {:induction false} ReplaceFirst(lines: seq<string>)
    requires lines != [] && SameText(lines[0], "x")
    ensures PatchLines(lines, [REPLACE_X]) == Success(["y\n"] + lines[1..])
  {
    hide PatchLines, SameText, Anchor, NewSide;
    TwoLineBody(DiffLine(Remove, "x"), DiffLine(Add, "y"), lines[0..1]);
    assert WithNewline("y") == "y\n" && [] + ["y\n"] == ["y\n"];
    AppliedThere(lines, REPLACE_X, ["y\n"]);
    assert lines[..0] + ["y\n"] + lines[1..] == ["y\n"] + lines[1..];
  }

  lemma {:induction false} OnLines(lines: seq<string>)
    requires lines == ["x\n", "z\r", "a\r", "b\n"]
    ensures BottomUp(lines, [REPLACE_X, REMOVE_THIRD, EMPTY_FOURTH]) == Success(["y\n", "z\r", "\n"])
  {
    hide *;
    TheTexts();
    TheSteps();
    var next, third := ["x\n", "z\r", "a\r", "\n"], ["x\n", "z\r", "\n"];
    EmptyFourth(lines);
    assert lines[..3] + ["\n"] == next;
    RemoveThird(next);
    assert next[..2] + next[3..] == third;
    ReplaceFirst(third);
    assert ["y\n"] + third[1..] == ["y\n", "z\r", "\n"];
    TwoSteps(next, REPLACE_X, REMOVE_THIRD, third, ["y\n", "z\r", "\n"]);
    OneMoreStep(lines, [REPLACE_X, REMOVE_THIRD], EMPTY_FOURTH, next);
    assert [REPLACE_X, REMOVE_THIRD] + [EMPTY_FOURTH] == [REPLACE_X, REMOVE_THIRD, EMPTY_FOURTH];
  }

  lemma {:induction false} OnText()
    ensures BottomUpText("x\nz\ra\rb\n", [REPLACE_X, REMOVE_THIRD, EMPTY_FOURTH]) == Success("y\nz\r\n")
  {
    hide *;
    TheTexts();
    TheSteps();
    var lines, next, third := ["x\n", "z\r", "a\r", "b\n"], ["x\n", "z\r", "a\r\n"], ["x\n", "z\r\n"];
    EmptyFourth(lines);
    assert lines[..3] + ["\n"] == ["x\n", "z\r", "a\r", "\n"];
    JoinFour("x\n", "z\r", "a\r", "\n");
    assert "x\n" + "z\r" + "a\r" + "\n" == "x\nz\ra\r\n";
    OnTextOf("x\nz\ra\rb\n", lines, EMPTY_FOURTH, ["x\n", "z\r", "a\r", "\n"]);
    RemoveThird(next);
    assert next[..2] + next[3..] == ["x\n", "z\r"];
    JoinTwo("x\n", "z\r");
    assert "x\n" + "z\r" == "x\nz\r";
    OnTextOf("x\nz\ra\r\n", next, REMOVE_THIRD, ["x\n", "z\r"]);
    ReplaceFirst(third);
    assert ["y\n"] + third[1..] == ["y\n", "z\r\n"];
    JoinTwo("y\n", "z\r\n");
    assert "y\n" + "z\r\n" == "y\nz\r\n";
    OnTextOf("x\nz\r", third, REPLACE_X, ["y\n", "z\r\n"]);
    TwoTextSteps("x\nz\ra\r\n", REPLACE_X, REMOVE_THIRD, "x\nz\r", "y\nz\r\n");
    OneMoreTextStep("x\nz\ra\rb\n", [REPLACE_X, REMOVE_THIRD], EMPTY_FOURTH, "x\nz\ra\r\n");
    assert [REPLACE_X, REMOVE_THIRD] + [EMPTY_FOURTH] == [REPLACE_X, REMOVE_THIRD, EMPTY_FOURTH];
  }

  lemma {:induction false} OnTextOf(text: string, lines: seq<string>, h: Hunk, out: seq<string>)
    requires FileLines(text) == lines && PatchLines(lines, [h]) == Success(out)
    ensures PatchText(text, [h]) == Success(Join(out))
  {
    hide FileLines, PatchLines, Join;
  }

  lemma {:induction false} OneMoreStep(lines: seq<string>, hunks: seq<Hunk>, h: Hunk, next: seq<string>)
    requires PatchLines(lines, [h]) == Success(next)
    ensures BottomUp(lines, hunks + [h]) == BottomUp(next, hunks)
  {
    hide PatchLines;
    assert Front(hunks + [h]) == hunks && Last(hunks + [h]) == h;
  }

  lemma {:induction false} OneMoreTextStep(text: string, hunks: seq<Hunk>, h: Hunk, next: string)
    requires PatchText(text, [h]) == Success(next)
    ensures BottomUpText(text, hunks + [h]) == BottomUpText(next, hunks)
  {
    hide PatchText;
    assert Front(hunks + [h]) == hunks && Last(hunks + [h]) == h;
  }

  lemma {:induction false} ThreeExact(lines: seq<string>)
    requires |lines| == 4 && SameText(lines[0], "x") && SameText(lines[2], "a") && SameText(lines[3], "b")
    ensures ExactHeaders(lines, [REPLACE_X, REMOVE_THIRD]) && EndOf([REPLACE_X, REMOVE_THIRD]) == 3
    ensures ExactHeaders(lines, [REPLACE_X, REMOVE_THIRD, EMPTY_FOURTH])
  {
    hide SameText, Anchor, NewSide, ExactHeaders, ExactOutput, EndOf;
    TwoLineBody(DiffLine(Remove, "x"), DiffLine(Add, "y"), lines[0..1]);
    TwoLineBody(DiffLine(Remove, "b"), DiffLine(Add, ""), lines[3..4]);
    OneLineBody(lines[2..3]);
    OneHunkOutput(lines);
    assert [] + [REPLACE_X] == [REPLACE_X] && [REPLACE_X] + [REMOVE_THIRD] == [REPLACE_X, REMOVE_THIRD];
    assert [REPLACE_X, REMOVE_THIRD] + [EMPTY_FOURTH] == [REPLACE_X, REMOVE_THIRD, EMPTY_FOURTH];
    ExactAppend(lines, [], REPLACE_X);
    ExactAppend(lines, [REPLACE_X], REMOVE_THIRD);
    ExactAppend(lines, [REPLACE_X, REMOVE_THIRD], EMPTY_FOURTH);
  }

  lemma {:induction false} SeamIsLost(lines: seq<string>)
    requires |lines| == 4 && SameText(lines[0], "x") && SameText(lines[2], "a") && SameText(lines[3], "b")
    requires EndsWithCr(lines[2]) && ExactHeaders(lines, [REPLACE_X, REMOVE_THIRD, EMPTY_FOURTH])
    ensures !SeamsAgree(lines, [REPLACE_X, REMOVE_THIRD, EMPTY_FOURTH])
  {
    hide SameText, Anchor, NewSide, WithNewline, ExactHeaders, EndOf, SeamsAgree, EndsWithCr, WholeLine;
    assert WithNewline("") == "\n" by { TheTexts(); }
    ThreeExact(lines);
    var two := [REPLACE_X, REMOVE_THIRD];
    TwoLineBody(DiffLine(Remove, "b"), DiffLine(Add, ""), lines[3..4]);
    assert two + [EMPTY_FOURTH] == [REPLACE_X, REMOVE_THIRD, EMPTY_FOURTH] && lines[3..] == lines[3..4];
    SeamStep(lines, two, EMPTY_FOURTH, ["\n"]);
    TakenStepDiffers(lines[..3], REMOVE_THIRD.body);
  }

  lemma {:induction false} TakenStepDiffers(before: seq<string>, body: seq<DiffLine>)
    requires before != [] && EndsWithCr(Last(before)) && body == [DiffLine(Remove, "a")]
    ensures !StepAgrees(before, body, ["\n"])
  {
    hide EndsWithCr;
    assert Last(body).op == Remove;
  }

  /** The seams agree only if the step before the last hunk does. */
  lemma {:induction false} SeamStep(lines: seq<string>, hunks: seq<Hunk>, h: Hunk, side: seq<string>)
    requires hunks != [] && ExactHeaders(lines, hunks + [h]) && ExactHeaders(lines, hunks)
    requires h.oldStart - 1 == EndOf(hunks) && h.oldStart - 1 + OldSize(h) == |lines|
    requires NewSide(h.body, lines[h.oldStart - 1..]) == side
    ensures 0 <= EndOf(hunks) <= |lines|
    ensures SeamsAgree(lines, hunks + [h]) ==> StepAgrees(lines[..EndOf(hunks)], Last(hunks).body, side)
  {
    hide Anchor, NewSide, StepAgrees;
    var all := hunks + [h];
    EndIsNat(lines, hunks);
    assert Front(all) == hunks && Last(all) == h && EndOf(all) == |lines|;
    var at := h.oldStart - 1;
    assert lines[at..at] == [] && lines[at..|lines|] == lines[at..] && lines[|lines|..] == [];
    assert [] + side + [] == side;
  }
}
