/**
 The law the patch engine is for: an edit script written as a unified diff,
 read back by the parser and applied, turns every old file into its new file.
 */
module RoundTrip {
  import opened Results
  import opened Lines
  import opened Patch
  import opened DiffParser
  import opened DiffPrinter
  import opened Exact

  /** One line of an edit: an old line kept or removed (terminator included), or
      the text of a new line. */
  datatype EditLine = Kept(line: string) | Removed(line: string) | Added(text: string)

  /** Old lines passed over unchanged, then a block of edit lines. */
  datatype Edit = Edit(gap: seq<string>, lines: seq<EditLine>)

  /** An old and a new file and an edit script between them. */
  datatype FileEdit = FileEdit(path: string, before: string, after: string, edits: seq<Edit>, tail: seq<string>)

  function OldLines(ls: seq<EditLine>): seq<string> {
    if ls == [] then []
    else (match ls[0] case Kept(l) => [l] case Removed(l) => [l] case Added(_) => []) + OldLines(ls[1..])
  }

  function NewLines(ls: seq<EditLine>): seq<string> {
    if ls == [] then []
    else (match ls[0] case Kept(l) => [l] case Removed(_) => [] case Added(t) => [t + "\n"]) + NewLines(ls[1..])
  }

  function OldFile(edits: seq<Edit>): seq<string> {
    if edits == [] then [] else OldFile(Front(edits)) + (Last(edits).gap + OldLines(Last(edits).lines))
  }

  function NewFile(edits: seq<Edit>): seq<string> {
    if edits == [] then [] else NewFile(Front(edits)) + (Last(edits).gap + NewLines(Last(edits).lines))
  }

  /** `edits` and `tail` lead from `before` to `after`. */
  predicate IsEdit(f: FileEdit) {
    && FileLines(f.before) == OldFile(f.edits) + f.tail
    && f.after == Join(NewFile(f.edits) + f.tail)
    && f.edits != []
    && forall i | 0 <= i < |f.edits| :: f.edits[i].lines != [] && CleanAdditions(f.edits[i].lines)
  }

  predicate CleanAdditions(ls: seq<EditLine>) {
    forall i | 0 <= i < |ls| && ls[i].Added? :: Clean(ls[i].text)
  }

  // ----- The diff of an edit script

  function BodyOf(ls: seq<EditLine>): seq<DiffLine> {
    if ls == [] then []
    else [match ls[0]
          case Kept(l) => DiffLine(Keep, Chomp(l))
          case Removed(l) => DiffLine(Remove, Chomp(l))
          case Added(t) => DiffLine(Add, t)] + BodyOf(ls[1..])
  }

  function HunkOf(before: seq<Edit>, e: Edit): Hunk {
    Hunk(|OldFile(before)| + |e.gap| + 1, BodyOf(e.lines))
  }

  function HunksOf(edits: seq<Edit>): seq<Hunk> {
    if edits == [] then [] else HunksOf(Front(edits)) + [HunkOf(Front(edits), Last(edits))]
  }

  function PatchesOf(fs: seq<FileEdit>): seq<FilePatch> {
    seq(|fs|, i requires 0 <= i < |fs| => FilePatch(fs[i].path, HunksOf(fs[i].edits)))
  }

  // ----- One block

  lemma {:induction false} SameTextAsChomped(l: string)
    ensures SameText(l, Chomp(l))
  {
    ChompUnique(Chomp(l), Chomp(l));
  }

  lemma {:induction false} AnchorOfBody(ls: seq<EditLine>)
    ensures |Anchor(BodyOf(ls))| == |OldLines(ls)|
    ensures forall k | 0 <= k < |OldLines(ls)| :: SameText(OldLines(ls)[k], Anchor(BodyOf(ls))[k])
  {
    if ls != [] {
      AnchorOfBody(ls[1..]);
      AnchorOfLine(ls);
    }
  }

  lemma {:induction false} AnchorUnfold(ls: seq<EditLine>)
    requires ls != []
    ensures Anchor(BodyOf(ls)) == (if ls[0].Added? then [] else [Chomp(ls[0].line)]) + Anchor(BodyOf(ls[1..]))
    ensures OldLines(ls) == (if ls[0].Added? then [] else [ls[0].line]) + OldLines(ls[1..])
  {
    hide Chomp;
    assert BodyOf(ls)[1..] == BodyOf(ls[1..]);
  }

  lemma {:induction false} AnchorOfLine(ls: seq<EditLine>)
    requires ls != []
    requires |Anchor(BodyOf(ls[1..]))| == |OldLines(ls[1..])|
    requires forall k | 0 <= k < |OldLines(ls[1..])| :: SameText(OldLines(ls[1..])[k], Anchor(BodyOf(ls[1..]))[k])
    ensures |Anchor(BodyOf(ls))| == |OldLines(ls)|
    ensures forall k | 0 <= k < |OldLines(ls)| :: SameText(OldLines(ls)[k], Anchor(BodyOf(ls))[k])
  {
    hide *;
    AnchorUnfold(ls);
    if !ls[0].Added? {
      SameTextAsChomped(ls[0].line);
    }
  }

  lemma {:induction false} NewSideOfBody(ls: seq<EditLine>)
    requires CleanAdditions(ls) && |Anchor(BodyOf(ls))| == |OldLines(ls)|
    ensures NewSide(BodyOf(ls), OldLines(ls)) == NewLines(ls)
  {
    if ls != [] {
      hide Chomp;
      AnchorOfBody(ls[1..]);
      assert BodyOf(ls)[1..] == BodyOf(ls[1..]);
      NewSideOfBody(ls[1..]);
      if ls[0].Added? {
        assert OldLines(ls) == OldLines(ls[1..]);
        assert Clean(ls[0].text);
      } else {
        assert OldLines(ls)[1..] == OldLines(ls[1..]);
      }
    }
  }

  // ----- A whole file

  lemma {:induction false} BlockMatches(lines: seq<string>, ls: seq<EditLine>, at: nat)
    requires at + |OldLines(ls)| <= |lines| && lines[at..at + |OldLines(ls)|] == OldLines(ls)
    ensures MatchesAt(lines, Anchor(BodyOf(ls)), at)
  {
    hide SameText, Anchor, BodyOf, OldLines;
    AnchorOfBody(ls);
    forall k | 0 <= k < |OldLines(ls)| ensures lines[at + k] == OldLines(ls)[k] {
      assert lines[at..at + |OldLines(ls)|][k] == lines[at + k];
    }
  }

  ghost predicate ScriptFits(lines: seq<string>, edits: seq<Edit>) {
    && ExactHeaders(lines, HunksOf(edits))
    && EndOf(HunksOf(edits)) == |OldFile(edits)|
    && ExactOutput(lines, HunksOf(edits)) == NewFile(edits)
  }

  lemma {:induction false} ScriptIsExact(lines: seq<string>, edits: seq<Edit>)
    requires OldFile(edits) <= lines
    requires forall i | 0 <= i < |edits| :: CleanAdditions(edits[i].lines)
    ensures ScriptFits(lines, edits)
  {
    if edits != [] {
      hide CleanAdditions, ScriptFits;
      var init, e := Front(edits), Last(edits);
      BlockIn(lines, OldFile(init), e.gap, OldLines(e.lines));
      ScriptIsExact(lines, init);
      ScriptStep(lines, edits, init, e);
    }
  }

  lemma {:induction false} ScriptUnfold(init: seq<Edit>, e: Edit)
    ensures OldFile(init + [e]) == OldFile(init) + (e.gap + OldLines(e.lines))
    ensures NewFile(init + [e]) == NewFile(init) + (e.gap + NewLines(e.lines))
    ensures HunksOf(init + [e]) == HunksOf(init) + [HunkOf(init, e)]
  {
    assert Front(init + [e]) == init && Last(init + [e]) == e;
  }

  lemma {:induction false} ScriptStep(lines: seq<string>, edits: seq<Edit>, init: seq<Edit>, e: Edit)
    requires edits == init + [e] && ScriptFits(lines, init) && CleanAdditions(e.lines)
    requires |OldFile(init)| + |e.gap| + |OldLines(e.lines)| <= |lines|
    requires lines[|OldFile(init)|..|OldFile(init)| + |e.gap|] == e.gap
    requires lines[|OldFile(init)| + |e.gap|..|OldFile(init)| + |e.gap| + |OldLines(e.lines)|] == OldLines(e.lines)
    ensures ScriptFits(lines, edits)
  {
    hide Anchor, BodyOf, OldLines, NewLines, NewSide, MatchesAt, CleanAdditions, SameText;
    hide OldFile, NewFile, HunksOf, ExactHeaders, ExactOutput, EndOf;
    ScriptUnfold(init, e);
    AnchorOfBody(e.lines);
    BlockMatches(lines, e.lines, |OldFile(init)| + |e.gap|);
    ExactAppend(lines, HunksOf(init), HunkOf(init, e));
    NewSideOfBody(e.lines);
  }

  lemma {:induction false} ApplyScript(f: FileEdit)
    requires IsEdit(f)
    ensures PatchText(f.before, HunksOf(f.edits)) == Success(f.after)
  {
    hide CleanAdditions, ExactHeaders, ExactOutput, EndOf, OldFile, NewFile;
    var lines := FileLines(f.before);
    ScriptIsExact(lines, f.edits);
    PatchExact(lines, HunksOf(f.edits));
    assert lines[|OldFile(f.edits)|..] == f.tail;
  }

  // ----- From text to text

  lemma {:induction false} HunksOfAt(edits: seq<Edit>)
    ensures |HunksOf(edits)| == |edits|
    ensures forall i | 0 <= i < |edits| :: HunksOf(edits)[i].body == BodyOf(edits[i].lines)
  {
    if edits != [] {
      HunksOfAt(Front(edits));
    }
  }

  /** Every kept or removed line of the script is a line of the old file. */
  lemma {:induction false} ScriptLines(edits: seq<Edit>, i: nat)
    requires i < |edits|
    ensures forall l | l in OldLines(edits[i].lines) :: l in OldFile(edits)
  {
    if i < |edits| - 1 {
      ScriptLines(Front(edits), i);
    }
  }

  lemma {:induction false} GoodBodyOf(ls: seq<EditLine>)
    requires CleanAdditions(ls)
    requires forall l | l in OldLines(ls) :: Clean(Chomp(l))
    ensures GoodBody(BodyOf(ls)) && |BodyOf(ls)| == |ls|
  {
    if ls != [] {
      hide Chomp, Clean;
      assert BodyOf(ls)[1..] == BodyOf(ls[1..]);
      assert forall l | l in OldLines(ls[1..]) :: l in OldLines(ls);
      GoodBodyOf(ls[1..]);
      if !ls[0].Added? {
        assert ls[0].line in OldLines(ls);
      }
      forall k | 0 <= k < |BodyOf(ls)| ensures Clean(BodyOf(ls)[k].text) {
        if k > 0 {
          assert BodyOf(ls)[k] == BodyOf(ls[1..])[k - 1];
        }
      }
    }
  }

  lemma {:induction false} GoodPatchOf(f: FileEdit)
    requires IsEdit(f) && f.path != ""
    ensures GoodPatch(FilePatch(f.path, HunksOf(f.edits)))
  {
    hide Clean, Chomp, HunksOf, BodyOf, OldLines, OldFile, NewFile, CleanAdditions, FileLines, GoodBody;
    HunksOfAt(f.edits);
    FileLinesWhole(f.before);
    forall i | 0 <= i < |f.edits| ensures GoodHunk(HunksOf(f.edits)[i]) {
      ScriptLines(f.edits, i);
      forall l | l in OldLines(f.edits[i].lines) ensures Clean(Chomp(l)) {
        assert l in OldFile(f.edits) + f.tail;
        assert LineShape(l);
      }
      GoodBodyOf(f.edits[i].lines);
    }
  }

  /** Files that a diff can carry: printable distinct paths, and no edit line
      that would print as a file header. */
  ghost predicate Diffable(fs: seq<FileEdit>) {
    && (forall i | 0 <= i < |fs| :: IsEdit(fs[i]) && PrintablePath(fs[i].path))
    && (forall i, j | 0 <= i < j < |fs| :: fs[i].path != fs[j].path)
    && (forall i, k | 0 <= i < |fs| && 0 <= k < |fs[i].edits| :: NoHeaderLike(BodyOf(fs[i].edits[k].lines)))
  }

  /** Print, parse, apply: for any old and new files and any multi-hunk,
      multi-file edit script between them, the parser reads one patch for each
      file, in order, and applying it to the old file yields the new file. */
  lemma {:induction false} PrintParseApply(fs: seq<FileEdit>)
    requires Diffable(fs)
    ensures var ps := Parse(Print(PatchesOf(fs)));
      && |ps| == |fs|
      && forall i | 0 <= i < |fs| ::
        ps[i].path == fs[i].path && PatchText(fs[i].before, ps[i].hunks) == Success(fs[i].after)
  {
    hide IsEdit, PatchText, Print, Parse, NoHeaderLike, PrintablePath, GoodPatch, HunksOf;
    var ps := PatchesOf(fs);
    forall i | 0 <= i < |ps| ensures GoodPatch(ps[i]) && Unambiguous(ps[i]) {
      PathNotEmpty(fs[i].path);
      GoodPatchOf(fs[i]);
      HunksOfAt(fs[i].edits);
    }
    ParsePrintExactly(ps);
    forall i | 0 <= i < |fs| ensures PatchText(fs[i].before, ps[i].hunks) == Success(fs[i].after) {
      ApplyScript(fs[i]);
    }
  }

  lemma {:induction false} PathNotEmpty(path: string)
    requires PrintablePath(path)
    ensures path != ""
  {
  }
}
