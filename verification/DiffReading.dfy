/**
 What the parser makes of a diff, line by line: which lines are read and which are
 passed over, what a header says, and which lines make up the hunks of a file.
 */
module DiffReading {
  import opened Results
  import opened Lines
  import opened Patch
  import opened DiffParser

  // ----- Lines that are passed over

  /** A line that starts with none of the prefixes the format knows. */
  predicate Unknown(l: string) {
    && !("--- " <= l) && !("+++ " <= l) && !("@@ " <= l)
    && (l == "" || (l[0] != ' ' && l[0] != '-' && l[0] != '+'))
  }

  /** The patches read from a list of lines. */
  function ReadLines(lines: seq<string>): seq<FilePatch> {
    Run(START, lines).Finish()
  }

  lemma {:induction false} UnknownChangesNothing(a: seq<string>, l: string, b: seq<string>)
    requires Unknown(l)
    ensures ReadLines(a + [l] + b) == ReadLines(a + b)
  {
    RunAppend(START, a + [l], b);
    RunAppend(START, a, [l]);
    RunAppend(START, a, b);
    var st := Run(START, a);
    assert st.Step(l) == st;
    assert [l][1..] == [] && Run(st.Step(l), []) == st;
  }

  lemma {:induction false} BareInTwo(a: string, b: string)
    requires Boundary(a, b)
    ensures BareLines(a + b) == BareLines(a) + BareLines(b)
  {
    hide SplitLines, Chomp, Boundary;
    SplitBoundary(a, b);
  }

  lemma {:induction false} BareLine(l: string)
    requires Clean(l)
    ensures BareLines(l + "\n") == [l]
  {
    ChompTerminated(l);
    SplitTerminated(l + "\n", "");
    assert (l + "\n") + "" == l + "\n" && SplitLines("") == [];
  }

  /** A line that starts with no prefix of the format (such as the marker for a missing
      final newline) may stand anywhere in a diff and changes nothing. */
  lemma {:induction false} UnknownLineIsDropped(a: string, l: string, b: string)
    requires (a == "" || a[|a| - 1] == '\n') && Clean(l) && Unknown(l)
    ensures Parse(a + l + "\n" + b) == Parse(a + b)
  {
    hide BareLines;
    assert a + l + "\n" + b == a + (l + "\n" + b);
    assert l + "\n" + b == (l + "\n") + b;
    BareInTwo(a, l + "\n" + b);
    BareInTwo(l + "\n", b);
    BareInTwo(a, b);
    BareLine(l);
    assert BareLines(a) + ([l] + BareLines(b)) == BareLines(a) + [l] + BareLines(b);
    UnknownChangesNothing(BareLines(a), l, BareLines(b));
  }

  // ----- Header lines

  predicate Digits(s: string) {
    s != "" && forall i | 0 <= i < |s| :: '0' <= s[i] <= '9'
  }

  /** The number a string of digits stands for. */
  function Value(s: string): int {
    if s == "" then 0 else 10 * Value(s[..|s| - 1]) + s[|s| - 1] as int - '0' as int
  }

  /** Nothing, or a comma and a number. */
  predicate Count(s: string) {
    s == "" || (s[0] == ',' && Digits(s[1..]))
  }

  /** The shape of a hunk header whose old start line reads `digits`. */
  ghost predicate HeaderShape(line: string, digits: string) {
    exists oldCount, newStart, newCount, rest :: HeaderParts(line, digits, oldCount, newStart, newCount, rest)
  }

  predicate HeaderParts(line: string, digits: string, oldCount: string, newStart: string, newCount: string, rest: string) {
    && Digits(digits) && Count(oldCount) && Digits(newStart) && Count(newCount)
    && line == "@@ -" + digits + oldCount + " +" + newStart + newCount + " @@" + rest
  }

  lemma {:induction false} DigitsCut(s: string, t: string)
    requires (forall i | 0 <= i < |s| :: '0' <= s[i] <= '9') && (t != "" ==> !('0' <= t[0] <= '9'))
    ensures DigitRun(s + t) == |s|
  {
    var n := DigitRun(s + t);
    assert forall i | 0 <= i < |s| :: (s + t)[i] == s[i];
    assert t != "" ==> (s + t)[|s|] == t[0];
  }

  lemma {:induction false} CountCut(c: string, t: string)
    requires Count(c) && t != "" && t[0] == ' '
    ensures SkipCount(c + t) == t
  {
    if c == "" {
      assert c + t == t;
    } else {
      assert (c + t)[1..] == c[1..] + t;
      DigitsCut(c[1..], t);
      assert (c + t)[|c|..] == t;
    }
  }

  lemma {:induction false} NumberIsValue(s: string)
    requires forall i | 0 <= i < |s| :: '0' <= s[i] <= '9'
    ensures ReadNat(s) == Value(s)
    decreases |s|
  {
    if s != "" {
      NumberIsValue(Front(s));
    }
  }

  /** A number and an optional count, followed by something that starts with a blank. */
  lemma {:induction false} RangeCut(digits: string, count: string, t: string)
    requires Digits(digits) && Count(count) && t != "" && t[0] == ' '
    ensures var s := digits + (count + t);
      DigitRun(s) == |digits| && s[..|digits|] == digits && SkipCount(s[|digits|..]) == t
  {
    hide SkipCount, DigitRun;
    var s := digits + (count + t);
    assert (count + t)[0] == if count == "" then ' ' else ',';
    DigitsCut(digits, count + t);
    assert s[|digits|..] == count + t && s[..|digits|] == digits;
    CountCut(count, t);
  }

  lemma {:induction false} ShapeIsRead(line: string, digits: string, oldCount: string, newStart: string,
                                       newCount: string, rest: string)
    requires HeaderParts(line, digits, oldCount, newStart, newCount, rest)
    ensures ReadHeader(line) == Some(Value(digits))
  {
    var u := newStart + (newCount + (" @@" + rest));
    var t := " +" + u;
    var s := digits + (oldCount + t);
    HeaderTexts(digits, oldCount, newStart, newCount, rest);
    assert line == "@@ -" + s;
    assert line[4..] == s && t[2..] == u && "@@ -" <= line && " +" <= t && " @@" <= " @@" + rest;
    RangeCut(digits, oldCount, t);
    RangeCut(newStart, newCount, " @@" + rest);
    NumberIsValue(digits);
    hide ReadNat, SkipCount, DigitRun, Value;
  }

  lemma {:induction false} HeaderTexts(digits: string, oldCount: string, newStart: string, newCount: string, rest: string)
    ensures "@@ -" + digits + oldCount + " +" + newStart + newCount + " @@" + rest
      == "@@ -" + (digits + (oldCount + (" +" + (newStart + (newCount + (" @@" + rest))))))
  {
    var a, b := "@@ -" + digits + oldCount, newStart + newCount;
    assert newStart + (newCount + (" @@" + rest)) == b + (" @@" + rest);
    assert a + " +" + newStart + newCount == a + " +" + b;
    assert a + " +" + b + " @@" + rest == a + (" +" + (b + (" @@" + rest)));
    var t := " +" + (b + (" @@" + rest));
    assert a + t == "@@ -" + (digits + (oldCount + t));
  }

  lemma {:induction false} CountOf(s: string) returns (count: string)
    ensures Count(count) && s == count + SkipCount(s)
  {
    if "," <= s && DigitRun(s[1..]) > 0 {
      count := s[..1 + DigitRun(s[1..])];
      assert count[1..] == s[1..][..DigitRun(s[1..])];
    } else {
      count := "";
    }
  }

  /** What stands at the front of `s`: a number, an optional count, and the rest. */
  lemma {:induction false} RangeOf(s: string) returns (digits: string, count: string)
    requires DigitRun(s) > 0
    ensures digits == s[..DigitRun(s)] && Digits(digits) && Count(count)
    ensures s == digits + (count + SkipCount(s[DigitRun(s)..]))
  {
    hide SkipCount;
    digits := s[..DigitRun(s)];
    count := CountOf(s[DigitRun(s)..]);
    assert s == digits + s[DigitRun(s)..];
  }

  lemma {:induction false} Behind(prefix: string, s: string) returns (rest: string)
    requires prefix <= s
    ensures s == prefix + rest && rest == s[|prefix|..]
  {
    rest := s[|prefix|..];
  }

  lemma {:induction false} ReadHasShape(line: string)
    requires ReadHeader(line).Some?
    ensures HeaderShape(line, line[4..][..DigitRun(line[4..])])
    ensures ReadHeader(line) == Some(Value(line[4..][..DigitRun(line[4..])]))
  {
    hide DigitRun, SkipCount, ReadNat, Value, Digits, Count;
    var s := Behind("@@ -", line);
    var digits, oldCount := RangeOf(s);
    NumberOf(s, digits);
    var t := SkipCount(s[DigitRun(s)..]);
    var u := Behind(" +", t);
    var newStart, newCount := RangeOf(u);
    var v := SkipCount(u[DigitRun(u)..]);
    var rest := Behind(" @@", v);
    HeaderTexts(digits, oldCount, newStart, newCount, rest);
    assert HeaderParts(line, digits, oldCount, newStart, newCount, rest);
  }

  lemma {:induction false} NumberOf(s: string, digits: string)
    requires digits == s[..DigitRun(s)]
    ensures ReadNat(digits) == Value(digits)
  {
    NumberIsValue(digits);
  }

  /** A hunk header is read by its old start line, with or without counts, and any other
      line that starts with the header's prefix counts as line 1. */
  lemma {:induction false} HeaderExactly(line: string, digits: string)
    ensures HeaderShape(line, digits) ==> StartLine(line) == Value(digits)
    ensures (forall ds :: !HeaderShape(line, ds)) ==> StartLine(line) == 1
  {
    hide ReadHeader, Value;
    if HeaderShape(line, digits) {
      var oldCount, newStart, newCount, rest :| HeaderParts(line, digits, oldCount, newStart, newCount, rest);
      ShapeIsRead(line, digits, oldCount, newStart, newCount, rest);
    } else if ReadHeader(line).Some? {
      ReadHasShape(line);
    }
  }

  function StartLine(line: string): nat {
    match ReadHeader(line) case Some(n) => n case None => 1
  }

  // ----- File headers

  /** White space in ASCII: tab to carriage return, the four separators, and the blank. */
  predicate Blanks(s: string) {
    forall i | 0 <= i < |s| :: 9 <= s[i] as int <= 13 || 28 <= s[i] as int <= 32
  }

  predicate Trimmed(s: string) {
    s == "" || (!Blanks(s[..1]) && !Blanks(s[|s| - 1..]))
  }

  lemma {:induction false} LeftIsStripped(left: string, s: string)
    requires Blanks(left) && (s == "" || !Blanks(s[..1]))
    ensures StripLeft(left + s) == s
  {
    if left == "" {
      assert left + s == s;
    } else {
      assert (left + s)[1..] == left[1..] + s;
      LeftIsStripped(left[1..], s);
    }
  }

  lemma {:induction false} RightIsStripped(s: string, right: string)
    requires Blanks(right) && (s == "" || !Blanks(s[|s| - 1..]))
    ensures StripRight(s + right) == s
    decreases |right|
  {
    if right == "" {
      assert s + right == s;
    } else {
      assert Front(s + right) == s + Front(right) && Last(s + right) == Last(right);
      RightIsStripped(s, Front(right));
    }
  }

  lemma {:induction false} AllIsStripped(s: string)
    requires Blanks(s)
    ensures StripLeft(s) == ""
  {
    if s != "" {
      AllIsStripped(s[1..]);
    }
  }

  lemma {:induction false} StripExactly(left: string, s: string, right: string)
    requires Blanks(left) && Blanks(right) && Trimmed(s)
    ensures StripRight(StripLeft(left + s + right)) == s
  {
    hide StripLeft, StripRight, Blanks;
    if s == "" {
      assert left + s + right == left + right;
      BothBlank(left, right);
      AllIsStripped(left + right);
      RightIsStripped("", "");
    } else {
      assert left + s + right == left + (s + right) && (s + right)[..1] == s[..1];
      LeftIsStripped(left, s + right);
      RightIsStripped(s, right);
    }
  }

  lemma {:induction false} BothBlank(left: string, right: string)
    requires Blanks(left) && Blanks(right)
    ensures Blanks(left + right) && Blanks("") && "" + "" == ""
  {
  }

  /** A file header names what stands behind its prefix, without the white space around it
      and without the prefix `b/`; a path without that prefix is kept whole. */
  lemma {:induction false} PathExactly(left: string, path: string, right: string)
    requires Blanks(left) && Blanks(right) && Trimmed(path)
    ensures var line := "+++ " + (left + path + right);
      PathOf(line) == if |path| >= 2 && path[0] == 'b' && path[1] == '/' then path[2..] else path
  {
    hide StripLeft, StripRight, Blanks, Trimmed;
    var line := "+++ " + (left + path + right);
    assert line[4..] == left + path + right && "+++ " <= line;
    StripExactly(left, path, right);
  }

  /** The path that a file header names. */
  function PathOf(line: string): string {
    if "+++ " <= line then HeaderPath(line) else ""
  }

  // ----- Hunks and files

  /** A line without the prefix of a header. */
  predicate NoHeader(l: string) {
    !("--- " <= l) && !("+++ " <= l) && !("@@ " <= l)
  }

  predicate NoHeaders(ls: seq<string>) {
    forall i | 0 <= i < |ls| :: NoHeader(ls[i])
  }

  /** A hunk header and the lines up to the next header of any kind. */
  datatype HunkText = HunkText(header: string, lines: seq<string>)

  /** A file's two headers, what stands between them, and its hunks. */
  datatype FileText = FileText(minus: string, between: seq<string>, plus: string, hunks: seq<HunkText>)

  predicate HunkShape(h: HunkText) {
    "@@ " <= h.header && NoHeaders(h.lines)
  }

  predicate FileShape(f: FileText) {
    && "--- " <= f.minus && NoHeaders(f.between) && "+++ " <= f.plus && PathOf(f.plus) != ""
    && forall i | 0 <= i < |f.hunks| :: HunkShape(f.hunks[i])
  }

  function HunkTexts(hs: seq<HunkText>): seq<string> {
    if hs == [] then [] else [hs[0].header] + hs[0].lines + HunkTexts(hs[1..])
  }

  function FileTexts(fs: seq<FileText>): seq<string> {
    if fs == [] then []
    else [fs[0].minus] + fs[0].between + [fs[0].plus] + HunkTexts(fs[0].hunks) + FileTexts(fs[1..])
  }

  /** The lines that start with a blank, a minus or a plus, in order. */
  function BodyLines(ls: seq<string>): seq<DiffLine> {
    if ls == [] then []
    else
      (if ls[0] == "" then []
       else if ls[0][0] == ' ' then [DiffLine(Keep, ls[0][1..])]
       else if ls[0][0] == '-' then [DiffLine(Remove, ls[0][1..])]
       else if ls[0][0] == '+' then [DiffLine(Add, ls[0][1..])]
       else []) + BodyLines(ls[1..])
  }

  /** A hunk, if it has a body. */
  function OneHunk(h: HunkText): seq<Hunk> {
    if BodyLines(h.lines) == [] then [] else [Hunk(StartLine(h.header), BodyLines(h.lines))]
  }

  function HunksOf(hs: seq<HunkText>): seq<Hunk> {
    if hs == [] then [] else OneHunk(hs[0]) + HunksOf(hs[1..])
  }

  /** The files that have a hunk, each put into `ps` under its path. */
  function FilesOf(ps: seq<FilePatch>, fs: seq<FileText>): seq<FilePatch>
    decreases |fs|
  {
    if fs == [] then ps
    else FilesOf(if HunksOf(fs[0].hunks) == [] then ps else Put(ps, PathOf(fs[0].plus), HunksOf(fs[0].hunks)), fs[1..])
  }

  lemma {:induction false} BodyIsRead(st: State, ls: seq<string>)
    requires st.InFile() && NoHeaders(ls)
    ensures Run(st, ls) == st.(body := st.body + BodyLines(ls))
    decreases |ls|
  {
    if ls == [] {
      assert st.body + [] == st.body;
    } else {
      var next := st.Step(ls[0]);
      assert NoHeader(ls[0]);
      BodyIsRead(next, ls[1..]);
      Assoc(st.body, if IsBodyLine(ls[0]) then [ReadBodyLine(ls[0])] else [], BodyLines(ls[1..]));
      assert st.body + [] == st.body;
    }
  }

  lemma {:induction false} NothingIsRead(st: State, ls: seq<string>)
    requires !st.InFile() && NoHeaders(ls)
    ensures Run(st, ls) == st
    decreases |ls|
  {
    if ls != [] {
      assert NoHeader(ls[0]);
      NothingIsRead(st, ls[1..]);
    }
  }

  lemma {:induction false} RunOne(st: State, l: string, more: seq<string>)
    ensures Run(st, [l] + more) == Run(st.Step(l), more)
  {
    assert ([l] + more)[0] == l && ([l] + more)[1..] == more;
  }

  /** The state after `hs`, once its last hunk is flushed. */
  lemma {:induction false} HunksAreRead(st: State, hs: seq<HunkText>)
    requires st.InFile() && forall i | 0 <= i < |hs| :: HunkShape(hs[i])
    ensures var end := Run(st, HunkTexts(hs)).FlushBody();
      && end.hunks == st.FlushBody().hunks + HunksOf(hs)
      && end.patches == st.patches && end.file == st.file && end.body == []
    decreases |hs|
  {
    if hs == [] {
      assert st.FlushBody().hunks + [] == st.FlushBody().hunks;
    } else {
      var h, rest := hs[0], HunkTexts(hs[1..]);
      assert HunkShape(h);
      hide HunkShape, OneHunk, HunkTexts, HunksOf;
      HunkIsRead(st, h);
      var next := Run(st, [h.header] + h.lines);
      HunksAreRead(next, hs[1..]);
      RunAppend(st, [h.header] + h.lines, rest);
      HunksUnfold(hs);
      Assoc(st.FlushBody().hunks, OneHunk(h), HunksOf(hs[1..]));
    }
  }

  lemma {:induction false} HunksUnfold(hs: seq<HunkText>)
    requires hs != []
    ensures HunkTexts(hs) == [hs[0].header] + hs[0].lines + HunkTexts(hs[1..])
    ensures HunksOf(hs) == OneHunk(hs[0]) + HunksOf(hs[1..])
  {
  }

  lemma {:induction false} HunkIsRead(st: State, h: HunkText)
    requires st.InFile() && HunkShape(h)
    ensures var next := Run(st, [h.header] + h.lines);
      && next.FlushBody().hunks == st.FlushBody().hunks + OneHunk(h)
      && next.InFile() && next.patches == st.patches && next.file == st.file
  {
    hide BodyLines, ReadHeader;
    RunOne(st, h.header, h.lines);
    assert h.header[0] == '@';
    var begun := st.Step(h.header);
    BodyIsRead(begun, h.lines);
    assert [] + BodyLines(h.lines) == BodyLines(h.lines);
    assert st.FlushBody().hunks + [] == st.FlushBody().hunks;
  }

  lemma {:induction false} FileIsRead(st: State, f: FileText)
    requires FileShape(f)
    ensures Run(st, [f.minus] + f.between + [f.plus] + HunkTexts(f.hunks)).Finish()
      == if HunksOf(f.hunks) == [] then st.Finish() else Put(st.Finish(), PathOf(f.plus), HunksOf(f.hunks))
  {
    hide HunkTexts, HunksOf, HeaderPath, Put;
    var begun := st.Step(f.minus);
    assert !begun.InFile() && begun.body == [] && begun.hunks == [] && begun.patches == st.Finish();
    NothingIsRead(begun, f.between);
    assert f.plus[0] == '+';
    var named := begun.Step(f.plus);
    assert named == begun.(file := Some(HeaderPath(f.plus)));
    HunksAreRead(named, f.hunks);
    RunOne(st, f.minus, f.between);
    RunAppend(st, [f.minus] + f.between, [f.plus]);
    RunOne(begun, f.plus, []);
    assert [f.plus] + [] == [f.plus];
    RunAppend(st, [f.minus] + f.between + [f.plus], HunkTexts(f.hunks));
    assert [] + HunksOf(f.hunks) == HunksOf(f.hunks);
  }

  lemma {:induction false} FilesAreRead(st: State, fs: seq<FileText>)
    requires forall i | 0 <= i < |fs| :: FileShape(fs[i])
    ensures Run(st, FileTexts(fs)).Finish() == FilesOf(st.Finish(), fs)
    decreases |fs|
  {
    if fs != [] {
      var f, rest := fs[0], FileTexts(fs[1..]);
      assert FileShape(f);
      hide FileShape, Run, HunkTexts, HunksOf, HeaderPath, Put;
      FileIsRead(st, f);
      var whole := [f.minus] + f.between + [f.plus] + HunkTexts(f.hunks);
      RunAppend(st, whole, rest);
      FilesAreRead(Run(st, whole), fs[1..]);
    }
  }

  /** Exactly what is read: after lines that name no file, every file is read as its own
      hunks, and every hunk as its start line and its body lines, in order. */
  lemma {:induction false} DiffIsRead(diff: string, before: seq<string>, fs: seq<FileText>)
    requires NoHeaders(before) && forall i | 0 <= i < |fs| :: FileShape(fs[i])
    requires BareLines(diff) == before + FileTexts(fs)
    ensures Parse(diff) == FilesOf([], fs)
  {
    hide FileShape, FileTexts, FilesOf, BareLines;
    NothingIsRead(START, before);
    RunAppend(START, before, FileTexts(fs));
    FilesAreRead(START, fs);
  }

  /** A file that comes again replaces the hunks it had, where it stands; a new one goes last. */
  lemma {:induction false} PutExactly(ps: seq<FilePatch>, path: string, hunks: seq<Hunk>, k: nat)
    requires k <= |ps| && (forall i | 0 <= i < k :: ps[i].path != path) && (k < |ps| ==> ps[k].path == path)
    ensures Put(ps, path, hunks) == ps[..k] + [FilePatch(path, hunks)] + if k < |ps| then ps[k + 1..] else []
  {
    if k > 0 {
      PutExactly(ps[1..], path, hunks, k - 1);
      assert ps[..k] == [ps[0]] + ps[1..][..k - 1];
    } else if ps != [] {
      assert ps[..0] + [FilePatch(path, hunks)] == [FilePatch(path, hunks)];
    }
  }
}
