/**
 Writing a unified diff, and the parser reading it back: the two agree exactly
 when no body line looks like a file header.
 */
module DiffPrinter {
  import opened Results
  import opened Lines
  import opened Patch
  import opened DiffParser
  import opened SpliceFacts

  // ----- Numbers

  function Digit(d: nat): char
    requires d < 10
  {
    '0' + d as char
  }

  function Decimal(n: nat): (s: string)
    ensures s != "" && forall i | 0 <= i < |s| :: IsDigit(s[i])
  {
    if n < 10 then [Digit(n)] else Decimal(n / 10) + [Digit(n % 10)]
  }

  lemma {:induction false} ReadDecimal(n: nat)
    ensures ReadNat(Decimal(n)) == n
  {
    if n >= 10 {
      ReadDecimal(n / 10);
      assert Front(Decimal(n)) == Decimal(n / 10) && Last(Decimal(n)) == Digit(n % 10);
    } else {
      assert Front(Decimal(n)) == "";
    }
  }

  lemma {:induction false} RunOfDecimal(n: nat, rest: string)
    requires rest != "" && !IsDigit(rest[0])
    ensures DigitRun(Decimal(n) + rest) == |Decimal(n)|
  {
    var s := Decimal(n) + rest;
    assert forall i | 0 <= i < |Decimal(n)| :: s[i] == Decimal(n)[i];
    assert s[|Decimal(n)|] == rest[0];
  }

  // ----- The printer

  function Prefix(op: Op): char {
    match op case Keep => ' ' case Remove => '-' case Add => '+'
  }

  function Raw(l: DiffLine): string {
    [Prefix(l.op)] + l.text
  }

  function PrintBody(body: seq<DiffLine>): seq<string> {
    seq(|body|, i requires 0 <= i < |body| => Raw(body[i]))
  }

  function Range(start: nat, count: nat): string {
    Decimal(start) + "," + Decimal(count)
  }

  /** `@@ -old,count +new,count @@`. The parser reads only the first number. */
  function HunkHeader(h: Hunk, newStart: nat): string {
    "@@ -" + Range(h.oldStart, |Anchor(h.body)|) + " +" + Range(newStart, NewSize(h.body)) + " @@"
  }

  function PrintHunk(h: Hunk, newStart: nat): seq<string> {
    [HunkHeader(h, newStart)] + PrintBody(h.body)
  }

  /** Hunk by hunk; `growth` is what the hunks before these added to the file. */
  function PrintHunks(hunks: seq<Hunk>, growth: int): seq<string> {
    if hunks == [] then []
    else
      var h := hunks[0];
      PrintHunk(h, Abs(h.oldStart + growth)) + PrintHunks(hunks[1..], GrowthAfter(h, growth))
  }

  lemma {:induction false} PrintHunksUnfold(hunks: seq<Hunk>, growth: int)
    requires hunks != []
    ensures PrintHunks(hunks, growth) == PrintHunk(hunks[0], Abs(hunks[0].oldStart + growth))
      + PrintHunks(hunks[1..], GrowthAfter(hunks[0], growth))
  {
  }

  function GrowthAfter(h: Hunk, growth: int): int {
    growth + NewSize(h.body) - |Anchor(h.body)|
  }

  function PrintPath(path: string): seq<string> {
    ["--- a/" + path, "+++ b/" + path]
  }

  function PrintFile(p: FilePatch): seq<string> {
    PrintPath(p.path) + PrintHunks(p.hunks, 0)
  }

  function PrintFiles(ps: seq<FilePatch>): seq<string> {
    if ps == [] then [] else PrintFile(ps[0]) + PrintFiles(ps[1..])
  }

  function EndLines(lines: seq<string>): seq<string> {
    seq(|lines|, i requires 0 <= i < |lines| => lines[i] + "\n")
  }

  function Print(ps: seq<FilePatch>): string {
    Join(EndLines(PrintFiles(ps)))
  }

  // ----- What can be printed

  /** A path the `+++ ` line carries unchanged. */
  predicate PrintablePath(path: string) {
    path != "" && Clean(path) && !IsSpace(Last(path))
  }

  ghost predicate Printable(ps: seq<FilePatch>) {
    GoodPatches(ps) && forall i | 0 <= i < |ps| :: PrintablePath(ps[i].path)
  }

  /** Printed, the line would read as a file header: a removal whose text starts
      with `-- `, or an addition whose text starts with `++ `. */
  predicate HeaderLike(l: DiffLine) {
    (l.op == Remove && "-- " <= l.text) || (l.op == Add && "++ " <= l.text)
  }

  predicate NoHeaderLike(body: seq<DiffLine>) {
    forall i | 0 <= i < |body| :: !HeaderLike(body[i])
  }

  predicate Unambiguous(p: FilePatch) {
    forall i | 0 <= i < |p.hunks| :: NoHeaderLike(p.hunks[i].body)
  }

  // ----- Reading back one line

  lemma {:induction false} SkipPrintedCount(count: nat, rest: string)
    requires rest != "" && !IsDigit(rest[0])
    ensures SkipCount("," + Decimal(count) + rest) == rest
  {
    hide DigitRun;
    var tail := "," + Decimal(count) + rest;
    assert tail[1..] == Decimal(count) + rest;
    RunOfDecimal(count, rest);
    assert tail[1 + |Decimal(count)|..] == rest;
  }

  lemma {:induction false} ReadRange(start: nat, count: nat, rest: string)
    requires rest != "" && !IsDigit(rest[0])
    ensures var s := Range(start, count) + rest;
      && DigitRun(s) == |Decimal(start)| && s[..DigitRun(s)] == Decimal(start)
      && SkipCount(s[DigitRun(s)..]) == rest
  {
    hide DigitRun, Decimal, SkipCount;
    var s, tail := Range(start, count) + rest, "," + Decimal(count) + rest;
    assert s == Decimal(start) + tail;
    RunOfDecimal(start, tail);
    SkipPrintedCount(count, rest);
    assert s[|Decimal(start)|..] == tail;
  }

  lemma {:induction false} ReadHeaderOf(oldStart: nat, oldCount: nat, newStart: nat, newCount: nat)
    ensures ReadHeader("@@ -" + Range(oldStart, oldCount) + " +" + Range(newStart, newCount) + " @@")
      == Some(oldStart)
  {
    hide Decimal, Range, DigitRun, SkipCount, ReadNat;
    var oldR, newR := Range(oldStart, oldCount), Range(newStart, newCount);
    var t := " +" + newR + " @@";
    var line := "@@ -" + oldR + " +" + newR + " @@";
    assert line[4..] == oldR + t;
    ReadRange(oldStart, oldCount, t);
    assert t[2..] == newR + " @@";
    ReadRange(newStart, newCount, " @@");
    ReadDecimal(oldStart);
  }

  lemma {:induction false} StepHunkHeader(st: State, h: Hunk, newStart: nat)
    ensures st.Step(HunkHeader(h, newStart)) == st.FlushBody().(oldStart := h.oldStart)
  {
    hide Range, ReadHeader, Anchor, NewSize;
    ReadHeaderOf(h.oldStart, |Anchor(h.body)|, newStart, NewSize(h.body));
    assert HunkHeader(h, newStart)[0] == '@';
  }

  lemma {:induction false} ReadFileHeader(path: string)
    requires PrintablePath(path)
    ensures HeaderPath("+++ b/" + path) == path
  {
    var line := "+++ b/" + path;
    assert line[4..] == "b/" + path;
    assert StripLeft("b/" + path) == "b/" + path;
    assert Last("b/" + path) == Last(path);
    assert StripRight("b/" + path) == "b/" + path;
  }

  lemma {:induction false} ReadRaw(l: DiffLine)
    ensures IsBodyLine(Raw(l)) && ReadBodyLine(Raw(l)) == l && !("@@ " <= Raw(l))
    ensures HeaderLike(l) <==> "--- " <= Raw(l) || "+++ " <= Raw(l)
  {
    var r := Raw(l);
    assert r[1..] == l.text;
    if "--- " <= r {
      assert r[1..4] == "-- " && l.text[..3] == r[1..4];
    }
    if "+++ " <= r {
      assert r[1..4] == "++ " && l.text[..3] == r[1..4];
    }
  }

  // ----- Reading back a file

  lemma {:induction false} RunBody(st: State, body: seq<DiffLine>)
    requires st.InFile() && NoHeaderLike(body)
    ensures Run(st, PrintBody(body)) == st.(body := st.body + body)
    decreases |body|
  {
    if body == [] {
      assert st.body + body == st.body;
    } else {
      var l := body[0];
      ReadRaw(l);
      assert PrintBody(body)[0] == Raw(l) && PrintBody(body)[1..] == PrintBody(body[1..]);
      var next := st.(body := st.body + [l]);
      assert st.Step(Raw(l)) == next;
      RunBody(next, body[1..]);
      assert st.body + [l] + body[1..] == st.body + body;
    }
  }

  lemma {:induction false} RunHunk(st: State, h: Hunk, newStart: nat)
    requires st.InFile() && GoodHunk(h) && NoHeaderLike(h.body)
    ensures Run(st, PrintHunk(h, newStart))
      == st.FlushBody().(oldStart := h.oldStart, body := h.body)
  {
    hide HunkHeader, PrintBody;
    StepHunkHeader(st, h, newStart);
    var ready := st.FlushBody().(oldStart := h.oldStart);
    var lines := PrintHunk(h, newStart);
    assert lines[0] == HunkHeader(h, newStart) && lines[1..] == PrintBody(h.body);
    assert Run(st, lines) == Run(ready, PrintBody(h.body));
    RunBody(ready, h.body);
    assert ready.body + h.body == h.body;
  }

  lemma {:induction false} HunksGrow(st: State, filled: State, hunks: seq<Hunk>)
    requires hunks != [] && hunks[0].body != []
    requires filled == st.FlushBody().(oldStart := hunks[0].oldStart, body := hunks[0].body)
    ensures filled.FlushBody().hunks + hunks[1..] == st.FlushBody().hunks + hunks
  {
    assert filled.FlushBody().hunks == st.FlushBody().hunks + [hunks[0]];
    Assoc(st.FlushBody().hunks, [hunks[0]], hunks[1..]);
    assert [hunks[0]] + hunks[1..] == hunks;
  }

  lemma {:induction false} RunHunks(st: State, hunks: seq<Hunk>, growth: int)
    requires st.InFile()
    requires forall i | 0 <= i < |hunks| :: GoodHunk(hunks[i]) && NoHeaderLike(hunks[i].body)
    ensures var end := Run(st, PrintHunks(hunks, growth));
      && end.file == st.file && end.patches == st.patches
      && end.FlushBody().hunks == st.FlushBody().hunks + hunks
    decreases |hunks|
  {
    if hunks == [] {
      assert st.FlushBody().hunks + hunks == st.FlushBody().hunks;
    } else {
      hide NoHeaderLike, PrintHunk, GrowthAfter, PrintHunks, Run, GoodBody;
      var h, newStart := hunks[0], Abs(hunks[0].oldStart + growth);
      var rest := GrowthAfter(h, growth);
      var filled := st.FlushBody().(oldStart := h.oldStart, body := h.body);
      PrintHunksUnfold(hunks, growth);
      RunHunk(st, h, newStart);
      RunAppend(st, PrintHunk(h, newStart), PrintHunks(hunks[1..], rest));
      RunHunks(filled, hunks[1..], rest);
      HunksGrow(st, filled, hunks);
    }
  }

  lemma {:induction false} StepFileHeader(st: State, path: string)
    requires PrintablePath(path)
    ensures st.Step("--- a/" + path).Step("+++ b/" + path)
      == State(st.Finish(), Some(path), [], st.oldStart, [])
  {
    hide PrintablePath, HeaderPath;
    ReadFileHeader(path);
    assert ("--- a/" + path)[..4] == "--- " && ("+++ b/" + path)[0] == '+';
  }

  /** A printed file is one more entry in the result, whatever came before. */
  lemma {:induction false} RunFile(st: State, p: FilePatch)
    requires GoodPatch(p) && PrintablePath(p.path) && Unambiguous(p)
    ensures Run(st, PrintFile(p)).Finish() == Put(st.Finish(), p.path, p.hunks)
  {
    hide PrintHunks, PrintablePath, NoHeaderLike, GoodHunk;
    var minus, plus, rest := "--- a/" + p.path, "+++ b/" + p.path, PrintHunks(p.hunks, 0);
    StepFileHeader(st, p.path);
    var ready := State(st.Finish(), Some(p.path), [], st.oldStart, []);
    RunTwo(st, minus, plus, rest);
    RunHunks(ready, p.hunks, 0);
    FinishOf(Run(ready, rest), ready, p);
  }

  lemma {:induction false} RunTwo(st: State, a: string, b: string, rest: seq<string>)
    ensures Run(st, [a, b] + rest) == Run(st.Step(a).Step(b), rest)
  {
    assert ([a, b] + rest)[1..] == [b] + rest && ([b] + rest)[1..] == rest;
  }

  lemma {:induction false} FinishOf(end: State, ready: State, p: FilePatch)
    requires p.path != "" && p.hunks != [] && ready.file == Some(p.path) && ready.hunks == [] && ready.body == []
    requires end.file == ready.file && end.patches == ready.patches
    requires end.FlushBody().hunks == ready.FlushBody().hunks + p.hunks
    ensures end.Finish() == Put(ready.patches, p.path, p.hunks)
  {
    assert ready.FlushBody().hunks + p.hunks == p.hunks;
  }

  function PutAll(acc: seq<FilePatch>, ps: seq<FilePatch>): seq<FilePatch>
    decreases |ps|
  {
    if ps == [] then acc else PutAll(Put(acc, ps[0].path, ps[0].hunks), ps[1..])
  }

  lemma {:induction false} RunFiles(st: State, ps: seq<FilePatch>)
    requires forall i | 0 <= i < |ps| ::
      GoodPatch(ps[i]) && PrintablePath(ps[i].path) && Unambiguous(ps[i])
    ensures Run(st, PrintFiles(ps)).Finish() == PutAll(st.Finish(), ps)
    decreases |ps|
  {
    hide GoodPatch, PrintablePath, Unambiguous;
    if ps != [] {
      RunFile(st, ps[0]);
      RunAppend(st, PrintFile(ps[0]), PrintFiles(ps[1..]));
      RunFiles(Run(st, PrintFile(ps[0])), ps[1..]);
    }
  }

  lemma {:induction false} PutNew(acc: seq<FilePatch>, p: FilePatch)
    requires forall i | 0 <= i < |acc| :: acc[i].path != p.path
    ensures Put(acc, p.path, p.hunks) == acc + [p]
  {
    if acc != [] {
      PutNew(acc[1..], p);
      assert acc == [acc[0]] + acc[1..];
    }
  }

  lemma {:induction false} PutAllDistinct(acc: seq<FilePatch>, ps: seq<FilePatch>)
    requires DistinctPaths(acc + ps)
    ensures PutAll(acc, ps) == acc + ps
    decreases |ps|
  {
    if ps == [] {
      assert acc + ps == acc;
    } else {
      assert (acc + ps)[|acc|] == ps[0];
      assert forall i | 0 <= i < |acc| :: (acc + ps)[i] == acc[i];
      PutNew(acc, ps[0]);
      assert acc + [ps[0]] + ps[1..] == acc + ps;
      PutAllDistinct(acc + [ps[0]], ps[1..]);
    }
  }

  // ----- The printed text splits back into its lines

  lemma {:induction false} CleanAppend(a: string, b: string)
    requires Clean(a) && Clean(b)
    ensures Clean(a + b)
  {
  }

  lemma {:induction false} CleanRange(start: nat, count: nat)
    ensures Clean(Range(start, count))
  {
  }

  lemma {:induction false} CleanHunkHeader(h: Hunk, newStart: nat)
    ensures Clean(HunkHeader(h, newStart))
  {
    hide Range, Anchor, NewSize;
    CleanRange(h.oldStart, |Anchor(h.body)|);
    CleanRange(newStart, NewSize(h.body));
  }

  lemma {:induction false} CleanHunks(hunks: seq<Hunk>, growth: int)
    requires forall i | 0 <= i < |hunks| :: GoodHunk(hunks[i])
    ensures forall l | l in PrintHunks(hunks, growth) :: Clean(l)
  {
    if hunks != [] {
      hide HunkHeader, GrowthAfter, Clean;
      var h := hunks[0];
      CleanHunkHeader(h, Abs(h.oldStart + growth));
      forall i | 0 <= i < |h.body| ensures Clean(Raw(h.body[i])) {
        assert Clean([Prefix(h.body[i].op)]) by {
          CleanPrefix(h.body[i].op);
        }
        CleanAppend([Prefix(h.body[i].op)], h.body[i].text);
      }
      CleanHunks(hunks[1..], GrowthAfter(h, growth));
    }
  }

  lemma {:induction false} CleanPrefix(op: Op)
    ensures Clean([Prefix(op)])
  {
  }

  lemma {:induction false} CleanFiles(ps: seq<FilePatch>)
    requires forall i | 0 <= i < |ps| :: GoodPatch(ps[i]) && PrintablePath(ps[i].path)
    ensures forall l | l in PrintFiles(ps) :: Clean(l)
  {
    if ps != [] {
      hide PrintHunks, GoodHunk;
      var p := ps[0];
      CleanAppend("--- a/", p.path);
      CleanAppend("+++ b/", p.path);
      hide Clean;
      CleanHunks(p.hunks, 0);
      CleanFiles(ps[1..]);
    }
  }

  lemma {:induction false} BareLinesOfEnded(lines: seq<string>)
    requires forall l | l in lines :: Clean(l)
    ensures BareLines(Join(EndLines(lines))) == lines
  {
    hide Clean, Chomp, Terminated;
    var ended := EndLines(lines);
    forall i | 0 <= i < |lines| ensures Terminated(ended[i]) && Chomp(ended[i]) == lines[i] {
      assert lines[i] in lines;
      ChompTerminated(lines[i]);
    }
    SplitJoin(ended);
  }

  lemma {:induction false} ParsePrinted(ps: seq<FilePatch>)
    requires Printable(ps)
    ensures Parse(Print(ps)) == Run(START, PrintFiles(ps)).Finish()
  {
    CleanFiles(ps);
    BareLinesOfEnded(PrintFiles(ps));
  }

  // ----- Counting body lines

  function HunkWeight(hunks: seq<Hunk>): nat {
    if hunks == [] then 0 else |hunks[0].body| + HunkWeight(hunks[1..])
  }

  function PatchWeight(ps: seq<FilePatch>): nat {
    if ps == [] then 0 else HunkWeight(ps[0].hunks) + PatchWeight(ps[1..])
  }

  function Weight(st: State): nat {
    PatchWeight(st.patches) + HunkWeight(st.hunks) + |st.body|
  }

  /** Lines the parser may take into a hunk. */
  predicate TakenLine(line: string) {
    IsBodyLine(line) && !("--- " <= line) && !("+++ " <= line)
  }

  function TakenCount(lines: seq<string>): nat {
    if lines == [] then 0 else (if TakenLine(lines[0]) then 1 else 0) + TakenCount(lines[1..])
  }

  lemma {:induction false} HunkWeightAppend(a: seq<Hunk>, b: seq<Hunk>)
    ensures HunkWeight(a + b) == HunkWeight(a) + HunkWeight(b)
  {
    if a == [] {
      assert a + b == b;
    } else {
      assert (a + b)[0] == a[0] && (a + b)[1..] == a[1..] + b;
      HunkWeightAppend(a[1..], b);
    }
  }

  lemma {:induction false} TakenAppend(a: seq<string>, b: seq<string>)
    ensures TakenCount(a + b) == TakenCount(a) + TakenCount(b)
  {
    if a == [] {
      assert a + b == b;
    } else {
      assert (a + b)[0] == a[0] && (a + b)[1..] == a[1..] + b;
      TakenAppend(a[1..], b);
    }
  }

  lemma {:induction false} PutWeight(ps: seq<FilePatch>, path: string, hunks: seq<Hunk>)
    ensures PatchWeight(Put(ps, path, hunks)) <= PatchWeight(ps) + HunkWeight(hunks)
  {
    if ps == [] {
      assert PatchWeight([FilePatch(path, hunks)]) == HunkWeight(hunks) + PatchWeight([]);
    } else if ps[0].path != path {
      PutWeight(ps[1..], path, hunks);
    }
  }

  lemma {:induction false} FlushWeight(st: State)
    ensures Weight(st.FlushBody()) == Weight(st) && PatchWeight(st.Finish()) <= Weight(st)
  {
    var s := st.FlushBody();
    if st.body != [] {
      HunkWeightAppend(st.hunks, [Hunk(st.oldStart, st.body)]);
      assert HunkWeight([Hunk(st.oldStart, st.body)]) == |st.body| + HunkWeight([]);
    }
    if s.InFile() && s.hunks != [] {
      PutWeight(s.patches, s.file.value, s.hunks);
    }
  }

  /** Parsing keeps no more body lines than it was given outside headers. */
  lemma {:induction false} RunWeight(st: State, lines: seq<string>)
    ensures Weight(Run(st, lines)) <= Weight(st) + TakenCount(lines)
    decreases |lines|
  {
    if lines != [] {
      FlushWeight(st);
      assert Weight(st.Step(lines[0])) <= Weight(st) + if TakenLine(lines[0]) then 1 else 0;
      RunWeight(st.Step(lines[0]), lines[1..]);
    }
  }

  lemma {:induction false} BodyTaken(body: seq<DiffLine>)
    ensures TakenCount(PrintBody(body)) <= |body|
    ensures !NoHeaderLike(body) ==> TakenCount(PrintBody(body)) < |body|
  {
    if body != [] {
      hide HeaderLike;
      assert PrintBody(body)[0] == Raw(body[0]) && PrintBody(body)[1..] == PrintBody(body[1..]);
      ReadRaw(body[0]);
      BodyTaken(body[1..]);
    }
  }

  lemma {:induction false} HunkTaken(h: Hunk, newStart: nat)
    ensures TakenCount(PrintHunk(h, newStart)) <= |h.body|
    ensures !NoHeaderLike(h.body) ==> TakenCount(PrintHunk(h, newStart)) < |h.body|
  {
    hide NoHeaderLike, Anchor, NewSize, PrintBody, Range;
    BodyTaken(h.body);
    assert HunkHeader(h, newStart)[0] == '@';
    assert TakenCount([HunkHeader(h, newStart)]) == 0;
    TakenAppend([HunkHeader(h, newStart)], PrintBody(h.body));
  }

  lemma {:induction false} HunksTaken(hunks: seq<Hunk>, growth: int)
    ensures TakenCount(PrintHunks(hunks, growth)) <= HunkWeight(hunks)
  {
    if hunks != [] {
      hide PrintHunk, PrintHunks, GrowthAfter, TakenCount;
      var h, newStart := hunks[0], Abs(hunks[0].oldStart + growth);
      PrintHunksUnfold(hunks, growth);
      TakenAppend(PrintHunk(h, newStart), PrintHunks(hunks[1..], GrowthAfter(h, growth)));
      HunkTaken(h, newStart);
      HunksTaken(hunks[1..], GrowthAfter(h, growth));
    }
  }

  lemma {:induction false} HunksLose(hunks: seq<Hunk>, growth: int, i: nat)
    requires i < |hunks| && !NoHeaderLike(hunks[i].body)
    ensures TakenCount(PrintHunks(hunks, growth)) < HunkWeight(hunks)
  {
    hide NoHeaderLike, PrintHunk, PrintHunks, GrowthAfter, TakenCount;
    var h, newStart := hunks[0], Abs(hunks[0].oldStart + growth);
    PrintHunksUnfold(hunks, growth);
    TakenAppend(PrintHunk(h, newStart), PrintHunks(hunks[1..], GrowthAfter(h, growth)));
    HunkTaken(h, newStart);
    if i == 0 {
      HunksTaken(hunks[1..], GrowthAfter(h, growth));
    } else {
      HunksLose(hunks[1..], GrowthAfter(h, growth), i - 1);
    }
  }

  lemma {:induction false} PathTaken(path: string)
    ensures TakenCount(PrintPath(path)) == 0
  {
    var heads := PrintPath(path);
    assert "--- " <= heads[0] && "+++ " <= heads[1];
    assert heads[1..] == [heads[1]] && TakenCount([heads[1]]) == 0;
  }

  lemma {:induction false} FileTaken(p: FilePatch)
    ensures TakenCount(PrintFile(p)) <= HunkWeight(p.hunks)
    ensures !Unambiguous(p) ==> TakenCount(PrintFile(p)) < HunkWeight(p.hunks)
  {
    hide PrintHunks, NoHeaderLike, PrintPath, TakenCount, HunkWeight;
    PathTaken(p.path);
    TakenAppend(PrintPath(p.path), PrintHunks(p.hunks, 0));
    HunksTaken(p.hunks, 0);
    if !Unambiguous(p) {
      var i :| 0 <= i < |p.hunks| && !NoHeaderLike(p.hunks[i].body);
      HunksLose(p.hunks, 0, i);
    }
  }

  lemma {:induction false} FilesTaken(ps: seq<FilePatch>)
    ensures TakenCount(PrintFiles(ps)) <= PatchWeight(ps)
  {
    if ps != [] {
      hide PrintFile, Unambiguous;
      FileTaken(ps[0]);
      FilesTaken(ps[1..]);
      TakenAppend(PrintFile(ps[0]), PrintFiles(ps[1..]));
    }
  }

  lemma {:induction false} FilesLose(ps: seq<FilePatch>, i: nat)
    requires i < |ps| && !Unambiguous(ps[i])
    ensures TakenCount(PrintFiles(ps)) < PatchWeight(ps)
  {
    hide PrintFile, Unambiguous;
    FileTaken(ps[0]);
    TakenAppend(PrintFile(ps[0]), PrintFiles(ps[1..]));
    if i == 0 {
      FilesTaken(ps[1..]);
    } else {
      FilesLose(ps[1..], i - 1);
    }
  }

  /** Printing then parsing gives the patches back, header numbers included, if
      and only if no body line looks like a file header. */
  lemma {:induction false} ParsePrintExactly(ps: seq<FilePatch>)
    requires Printable(ps)
    ensures Parse(Print(ps)) == ps <==> forall i | 0 <= i < |ps| :: Unambiguous(ps[i])
  {
    hide Unambiguous, PrintFiles, Run, GoodPatch, PrintablePath;
    ParsePrinted(ps);
    if forall i | 0 <= i < |ps| :: Unambiguous(ps[i]) {
      RunFiles(START, ps);
      assert [] + ps == ps;
      PutAllDistinct([], ps);
    } else {
      var i :| 0 <= i < |ps| && !Unambiguous(ps[i]);
      FilesLose(ps, i);
      RunWeight(START, PrintFiles(ps));
      FlushWeight(Run(START, PrintFiles(ps)));
    }
  }

  /** A removed line `-- old` is lost: the parser takes it for a file header. */
  lemma {:induction false} HeaderLikeLineIsLost()
    ensures var ps := [FilePatch("a", [Hunk(1, [DiffLine(Keep, "x"), DiffLine(Remove, "-- old")])])];
      Printable(ps) && Parse(Print(ps)) != ps
  {
    var body := [DiffLine(Keep, "x"), DiffLine(Remove, "-- old")];
    var ps := [FilePatch("a", [Hunk(1, body)])];
    assert HeaderLike(body[1]) && !NoHeaderLike(ps[0].hunks[0].body);
    ParsePrintExactly(ps);
    assert !Unambiguous(ps[0]);
  }
}
