/**
 Applying one file's hunks: where each hunk goes, and what text comes out.
 */
module Patch {
  import opened Results
  import opened Lines

  datatype Op = Keep | Remove | Add

  /** A diff body line: its prefix character, read as an operation, and the rest. */
  datatype DiffLine = DiffLine(op: Op, text: string)

  /** A hunk: the old start line of its header (1-based) and its body. */
  datatype Hunk = Hunk(oldStart: nat, body: seq<DiffLine>)

  datatype PatchError =
    | InsertionOutOfRange(hunk: nat)
    | NoMatch(hunk: nat)

  /** The lines that must already be in the file: context and removals, in order. */
  function Anchor(body: seq<DiffLine>): seq<string> {
    if body == [] then []
    else if body[0].op == Add then Anchor(body[1..])
    else [body[0].text] + Anchor(body[1..])
  }

  /** Line `line` of the file carries the text of anchor line `anchor`. */
  predicate SameText(line: string, anchor: string) {
    Chomp(line) == Chomp(anchor)
  }

  predicate MatchesAt(lines: seq<string>, anchor: seq<string>, at: int) {
    && 0 <= at && at + |anchor| <= |lines|
    && forall k | 0 <= k < |anchor| :: SameText(lines[at + k], anchor[k])
  }

  // ----- The search

  function Abs(x: int): nat {
    if x < 0 then -x else x
  }

  /** Candidate `a` is preferred over `b`: nearer to the header, then earlier. */
  predicate Nearer(header: int, a: int, b: int) {
    Abs(a - header) < Abs(b - header) || (Abs(a - header) == Abs(b - header) && a <= b)
  }

  /** The matching offsets of `from..to`, ascending. */
  function Candidates(lines: seq<string>, anchor: seq<string>, from: nat, to: int): (c: seq<nat>)
    ensures forall j :: (j in c <==> from <= j < to && MatchesAt(lines, anchor, j))
    decreases if to <= from then 0 else to - from
  {
    if to <= from then []
    else if MatchesAt(lines, anchor, from) then [from] + Candidates(lines, anchor, from + 1, to)
    else Candidates(lines, anchor, from + 1, to)
  }

  /** `min(c, key=(distance to the header, offset))`. */
  function Nearest(c: seq<nat>, header: int): (best: nat)
    requires c != []
    ensures best in c && forall j | j in c :: Nearer(header, best, j)
  {
    if |c| == 1 then c[0]
    else
      var rest := Nearest(c[1..], header);
      assert forall j | j in c :: j == c[0] || j in c[1..];
      if Nearer(header, c[0], rest) then c[0] else rest
  }

  function Locate(lines: seq<string>, anchor: seq<string>, header: int, from: nat): Option<nat> {
    if anchor == [] then
      if header < from || header > |lines| then None else Some(header)
    else if from <= header && MatchesAt(lines, anchor, header) then Some(header)
    else
      var c := Candidates(lines, anchor, from, |lines| - |anchor| + 1);
      if c == [] then None else Some(Nearest(c, header))
  }

  /** The offsets a hunk may take: with an anchor, every match from the cursor
      on; without one, its header line and nothing else. */
  predicate Feasible(lines: seq<string>, anchor: seq<string>, header: int, from: nat, at: int) {
    && from <= at <= |lines|
    && MatchesAt(lines, anchor, at)
    && (anchor == [] ==> at == header)
  }

  /** `at` is feasible and no feasible offset is preferred over it. */
  ghost predicate Best(lines: seq<string>, anchor: seq<string>, header: int, from: nat, at: int) {
    && Feasible(lines, anchor, header, from, at)
    && forall j :: Feasible(lines, anchor, header, from, j) ==> Nearer(header, at, j)
  }

  ghost predicate Nowhere(lines: seq<string>, anchor: seq<string>, header: int, from: nat) {
    forall j :: !Feasible(lines, anchor, header, from, j)
  }

  /** The search refines its specification: it returns the feasible offset that
      is nearest to the header, the earlier of two equally near ones, and
      nothing exactly when no offset is feasible. */
  lemma {:induction false} LocateIsNearest(lines: seq<string>, anchor: seq<string>, header: int, from: nat)
    ensures forall at: nat ::
      (Locate(lines, anchor, header, from) == Some(at) <==> Best(lines, anchor, header, from, at))
    ensures Locate(lines, anchor, header, from) == None <==> Nowhere(lines, anchor, header, from)
  {
    var r := Locate(lines, anchor, header, from);
    if anchor != [] && !(from <= header && MatchesAt(lines, anchor, header)) {
      var c := Candidates(lines, anchor, from, |lines| - |anchor| + 1);
      assert forall j :: (j in c <==> Feasible(lines, anchor, header, from, j));
      if c != [] {
        assert r.value in c;
      } else {
        forall j ensures !Feasible(lines, anchor, header, from, j) {
          assert j !in c;
        }
      }
    } else if r.Some? {
      assert Feasible(lines, anchor, header, from, r.value);
    }
    if r.Some? {
      assert Feasible(lines, anchor, header, from, r.value);
      forall at: nat | Best(lines, anchor, header, from, at) ensures at == r.value
      {
        assert Nearer(header, at, r.value) && Nearer(header, r.value, at);
      }
    }
  }

  /** The anchor's lines are the file's lines from `at` on, apart from their terminators. */
  predicate Anchored(lines: seq<string>, anchor: seq<string>, at: int) {
    && 0 <= at <= |lines| - |anchor|
    && forall k | 0 <= k < |anchor| :: Chomp(lines[at + k]) == Chomp(anchor[k])
  }

  /** No other place from the cursor on is nearer to the header than the one that is found, and
      of two equally near ones it is the earlier; a hunk without anchor stays at its header. */
  lemma {:induction false} NoneIsNearer(lines: seq<string>, anchor: seq<string>, header: int, from: nat, j: int)
    requires from <= j && Anchored(lines, anchor, j) && (anchor == [] ==> j == header)
    ensures var found := Locate(lines, anchor, header, from);
      && found.Some? && from <= found.value && Anchored(lines, anchor, found.value)
      && (found.value < header ==> j <= found.value || 2 * header <= found.value + j)
      && (found.value >= header ==> found.value <= j || 2 * header > found.value + j)
  {
    LocateIsNearest(lines, anchor, header, from);
    assert Feasible(lines, anchor, header, from, j);
    var found := Locate(lines, anchor, header, from);
    assert Best(lines, anchor, header, from, found.value);
    hide Locate;
  }

  // ----- Placing all hunks

  function OldSize(h: Hunk): nat {
    |Anchor(h.body)|
  }

  function Front<T>(s: seq<T>): seq<T>
    requires s != []
  {
    s[..|s| - 1]
  }

  function Last<T>(s: seq<T>): T
    requires s != []
  {
    s[|s| - 1]
  }

  /** End of the part of the file that the hunks placed at `offs` consume. */
  function Cursor(hunks: seq<Hunk>, offs: seq<nat>): nat
    requires |offs| <= |hunks|
  {
    if offs == [] then 0 else Last(offs) + OldSize(hunks[|offs| - 1])
  }

  /** Where hunk number `k` goes, or the error that names it. */
  function Seek(lines: seq<string>, h: Hunk, k: nat, from: nat): Result<nat, PatchError> {
    var anchor := Anchor(h.body);
    match Locate(lines, anchor, h.oldStart - 1, from)
    case None => Failure(if anchor == [] then InsertionOutOfRange(k) else NoMatch(k))
    case Some(at) => Success(at)
  }

  /** The offsets of the first `k` hunks, each searched from the end of the one before. */
  function Place(lines: seq<string>, hunks: seq<Hunk>, k: nat): (r: Result<seq<nat>, PatchError>)
    requires k <= |hunks|
    ensures r.Success? ==> |r.value| == k
  {
    if k == 0 then Success([])
    else
      match Place(lines, hunks, k - 1)
      case Failure(e) => Failure(e)
      case Success(offs) =>
        match Seek(lines, hunks[k - 1], k - 1, Cursor(hunks, offs))
        case Failure(e) => Failure(e)
        case Success(at) => Success(offs + [at])
  }

  /** Increasing, non-overlapping ranges of the file, one for each of the first hunks. */
  ghost predicate Fits(lines: seq<string>, hunks: seq<Hunk>, offs: seq<nat>) {
    && |offs| <= |hunks|
    && (offs != [] ==>
      && Fits(lines, hunks, Front(offs))
      && Cursor(hunks, Front(offs)) <= Last(offs)
      && Cursor(hunks, offs) <= |lines|)
  }

  /** What stands in the new file for a body laid over the lines `here`. */
  function NewSide(body: seq<DiffLine>, here: seq<string>): seq<string>
    requires |here| == |Anchor(body)|
  {
    if body == [] then []
    else match body[0].op
      case Keep => [here[0]] + NewSide(body[1..], here[1..])
      case Remove => NewSide(body[1..], here[1..])
      case Add => [WithNewline(body[0].text)] + NewSide(body[1..], here)
  }

  /** The new file up to the end of the last hunk placed. */
  ghost function Output(lines: seq<string>, hunks: seq<Hunk>, offs: seq<nat>): seq<string>
    requires Fits(lines, hunks, offs)
  {
    if offs == [] then []
    else
      Output(lines, hunks, Front(offs))
      + (lines[Cursor(hunks, Front(offs))..Last(offs)]
      + NewSide(hunks[|offs| - 1].body, lines[Last(offs)..Cursor(hunks, offs)]))
  }

  /** The whole new file: every gap and every hunk's new side, in order. */
  ghost function Splice(lines: seq<string>, hunks: seq<Hunk>, offs: seq<nat>): seq<string>
    requires Fits(lines, hunks, offs)
  {
    Output(lines, hunks, offs) + lines[CursorFits(lines, hunks, offs)..]
  }

  ghost function CursorFits(lines: seq<string>, hunks: seq<Hunk>, offs: seq<nat>): (c: nat)
    requires Fits(lines, hunks, offs)
    ensures c == Cursor(hunks, offs) <= |lines|
  {
    Cursor(hunks, offs)
  }

  lemma {:induction false} PlaceFits(lines: seq<string>, hunks: seq<Hunk>, k: nat)
    requires k <= |hunks|
    ensures Place(lines, hunks, k).Success? ==> Fits(lines, hunks, Place(lines, hunks, k).value)
  {
    if k > 0 && Place(lines, hunks, k).Success? {
      PlaceFits(lines, hunks, k - 1);
      var offs := Place(lines, hunks, k - 1).value;
      LocateIsNearest(lines, Anchor(hunks[k - 1].body), hunks[k - 1].oldStart - 1, Cursor(hunks, offs));
      assert Front(Place(lines, hunks, k).value) == offs;
    }
  }

  ghost function PatchLines(lines: seq<string>, hunks: seq<Hunk>): Result<seq<string>, PatchError> {
    match Place(lines, hunks, |hunks|)
    case Failure(e) => Failure(e)
    case Success(offs) =>
      PlaceFits(lines, hunks, |hunks|);
      Success(Splice(lines, hunks, offs))
  }

  ghost function PatchText(original: string, hunks: seq<Hunk>): Result<string, PatchError> {
    match PatchLines(FileLines(original), hunks)
    case Failure(e) => Failure(e)
    case Success(lines) => Success(Join(lines))
  }

  lemma {:induction false} PlaceFailed(lines: seq<string>, hunks: seq<Hunk>, k: nat)
    requires k <= |hunks| && Place(lines, hunks, k).Failure?
    ensures Place(lines, hunks, |hunks|) == Place(lines, hunks, k)
    decreases |hunks| - k
  {
    if k < |hunks| {
      PlaceFailed(lines, hunks, k + 1);
    }
  }

  /** The inner loop of `_apply_patch`: emit one hunk's body. */
  method EmitBody(lines: seq<string>, body: seq<DiffLine>, target: nat)
      returns (emitted: seq<string>, srcIdx: nat)
    requires target + |Anchor(body)| <= |lines|
    ensures srcIdx == target + |Anchor(body)|
    ensures emitted == NewSide(body, lines[target..srcIdx])
  {
    emitted, srcIdx := [], target;
    ghost var end := target + |Anchor(body)|;
    var j := 0;
    while j < |body|
      invariant 0 <= j <= |body|
      invariant srcIdx + |Anchor(body[j..])| == end
      invariant emitted + NewSide(body[j..], lines[srcIdx..end]) == NewSide(body, lines[target..end])
    {
      var line := body[j];
      assert body[j..][0] == line && body[j..][1..] == body[j + 1..];
      if line.op == Keep || line.op == Remove {
        assert lines[srcIdx..end][0] == lines[srcIdx];
        assert lines[srcIdx..end][1..] == lines[srcIdx + 1..end];
        if line.op == Keep {
          Assoc(emitted, [lines[srcIdx]], NewSide(body[j + 1..], lines[srcIdx + 1..end]));
          emitted := emitted + [lines[srcIdx]];
        }
        srcIdx := srcIdx + 1;
      } else {
        Assoc(emitted, [WithNewline(line.text)], NewSide(body[j + 1..], lines[srcIdx..end]));
        emitted := emitted + [WithNewline(line.text)];
      }
      j := j + 1;
    }
    assert body[|body|..] == [];
  }

  lemma {:induction false} PlacedOneMore(lines: seq<string>, hunks: seq<Hunk>, i: nat, offs: seq<nat>, at: nat)
    requires i < |hunks| && Place(lines, hunks, i) == Success(offs)
    requires Locate(lines, Anchor(hunks[i].body), hunks[i].oldStart - 1, Cursor(hunks, offs)) == Some(at)
    ensures Place(lines, hunks, i + 1) == Success(offs + [at])
  {
    hide Locate, Anchor, Cursor;
  }

  /** What the output consists of after the hunk placed at `at`. */
  lemma {:induction false} OutputLast(lines: seq<string>, hunks: seq<Hunk>, offs: seq<nat>, at: nat)
    requires Fits(lines, hunks, offs + [at])
    ensures Fits(lines, hunks, offs)
    ensures Cursor(hunks, offs) <= at && at + OldSize(hunks[|offs|]) == Cursor(hunks, offs + [at]) <= |lines|
    ensures Output(lines, hunks, offs + [at]) == Output(lines, hunks, offs)
      + (lines[Cursor(hunks, offs)..at]
      + NewSide(hunks[|offs|].body, lines[at..at + OldSize(hunks[|offs|])]))
  {
    assert Front(offs + [at]) == offs && Last(offs + [at]) == at;
  }

  lemma {:induction false} PatchedLines(lines: seq<string>, hunks: seq<Hunk>)
    ensures Place(lines, hunks, |hunks|).Failure? ==>
      PatchLines(lines, hunks) == Failure(Place(lines, hunks, |hunks|).error)
    ensures Place(lines, hunks, |hunks|).Success? ==>
      var offs := Place(lines, hunks, |hunks|).value;
      Fits(lines, hunks, offs) && Cursor(hunks, offs) <= |lines|
      && PatchLines(lines, hunks) == Success(Output(lines, hunks, offs) + lines[Cursor(hunks, offs)..])
  {
    PlaceFits(lines, hunks, |hunks|);
    hide Place, Output, Cursor;
  }

  lemma {:induction false} PlacedFails(lines: seq<string>, hunks: seq<Hunk>, i: nat, offs: seq<nat>)
    requires i < |hunks| && Place(lines, hunks, i) == Success(offs)
    requires Locate(lines, Anchor(hunks[i].body), hunks[i].oldStart - 1, Cursor(hunks, offs)) == None
    ensures Place(lines, hunks, |hunks|)
      == Failure(if Anchor(hunks[i].body) == [] then InsertionOutOfRange(i) else NoMatch(i))
  {
    hide Locate, Anchor, Cursor;
    PlaceFailed(lines, hunks, i + 1);
  }

  /** The outer loop of `_apply_patch`, with its cursor into the file. */
  method ApplyHunks(lines: seq<string>, hunks: seq<Hunk>) returns (r: Result<seq<string>, PatchError>)
    ensures r == PatchLines(lines, hunks)
  {
    hide Place, Fits, Output, Cursor, Locate, NewSide, Anchor, PatchLines;
    var result: seq<string> := [];
    var srcIdx: nat := 0;
    ghost var offs: seq<nat> := [];
    NothingPlaced(lines, hunks);
    PatchedLines(lines, hunks);
    for i := 0 to |hunks|
      invariant |offs| == i && Place(lines, hunks, i) == Success(offs) && Fits(lines, hunks, offs)
      invariant srcIdx == Cursor(hunks, offs) <= |lines|
      invariant result == Output(lines, hunks, offs)
    {
      var expected := Anchor(hunks[i].body);
      var target := Locate(lines, expected, hunks[i].oldStart - 1, srcIdx);
      if target == None {
        PlacedFails(lines, hunks, i, offs);
        return Failure(if expected == [] then InsertionOutOfRange(i) else NoMatch(i));
      }
      PlacedOneMore(lines, hunks, i, offs, target.value);
      PlaceFits(lines, hunks, i + 1);
      OutputLast(lines, hunks, offs, target.value);
      var emitted, end := EmitBody(lines, hunks[i].body, target.value);
      result := result + (lines[srcIdx..target.value] + emitted);
      srcIdx, offs := end, offs + [target.value];
    }
    return Success(result + lines[srcIdx..]);
  }

  lemma {:induction false} NothingPlaced(lines: seq<string>, hunks: seq<Hunk>)
    ensures Place(lines, hunks, 0) == Success([]) && Fits(lines, hunks, []) && Cursor(hunks, []) == 0
    ensures Output(lines, hunks, []) == []
  {
  }

  /** `_apply_patch` on the text of a file. */
  method ApplyPatch(original: string, hunks: seq<Hunk>) returns (r: Result<string, PatchError>)
    ensures r == PatchText(original, hunks)
  {
    var lines := SplitLines(original);
    if lines != [] && !EndsWithNewline(lines[|lines| - 1]) {
      lines := lines[|lines| - 1 := lines[|lines| - 1] + "\n"];
    }
    assert lines == FileLines(original);
    var patched := ApplyHunks(lines, hunks);
    match patched
    case Failure(e) => return Failure(e);
    case Success(result) => return Success(Join(result));
  }
}
