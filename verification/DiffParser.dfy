/**
 Reading a unified diff: the line-by-line state machine of `_parse_file_patches`.
 */
module DiffParser {
  import opened Results
  import opened Lines
  import opened Patch

  datatype FilePatch = FilePatch(path: string, hunks: seq<Hunk>)

  /** `patches[path] = hunks` on a dict that remembers insertion order: an
      existing entry is overwritten where it stands. */
  function Put(ps: seq<FilePatch>, path: string, hunks: seq<Hunk>): seq<FilePatch> {
    if ps == [] then [FilePatch(path, hunks)]
    else if ps[0].path == path then [FilePatch(path, hunks)] + ps[1..]
    else [ps[0]] + Put(ps[1..], path, hunks)
  }

  // ----- The pieces of a header line

  predicate IsDigit(c: char) {
    '0' <= c <= '9'
  }

  /** How many digits `s` starts with. */
  function DigitRun(s: string): (n: nat)
    ensures n <= |s|
    ensures forall i | 0 <= i < n :: IsDigit(s[i])
    ensures n < |s| ==> !IsDigit(s[n])
  {
    if s == "" || !IsDigit(s[0]) then 0 else 1 + DigitRun(s[1..])
  }

  /** `int(digits)`. */
  function ReadNat(digits: string): nat {
    if digits == "" || !IsDigit(Last(digits)) then 0
    else ReadNat(Front(digits)) * 10 + (Last(digits) - '0') as nat
  }

  /** Steps over an optional `,count`. */
  function SkipCount(s: string): string {
    if "," <= s && DigitRun(s[1..]) > 0 then s[1 + DigitRun(s[1..])..] else s
  }

  /** The old start line of a hunk header, when the line has the header's shape. */
  function ReadHeader(line: string): Option<nat> {
    if !("@@ -" <= line) then None
    else
      var s := line[4..];
      var d := DigitRun(s);
      var t := SkipCount(s[d..]);
      if d == 0 || !(" +" <= t) then None
      else
        var u := t[2..];
        var e := DigitRun(u);
        if e == 0 || !(" @@" <= SkipCount(u[e..])) then None else Some(ReadNat(s[..d]))
  }

  /** What `strip` takes off, in ASCII. */
  predicate IsSpace(c: char) {
    9 as char <= c <= 13 as char || 28 as char <= c <= ' '
  }

  function StripLeft(s: string): string {
    if s != "" && IsSpace(s[0]) then StripLeft(s[1..]) else s
  }

  function StripRight(s: string): string {
    if s != "" && IsSpace(Last(s)) then StripRight(Front(s)) else s
  }

  /** The path of a `+++ ` line, without the `b/` prefix. */
  function HeaderPath(line: string): string
    requires "+++ " <= line
  {
    var path := StripRight(StripLeft(line[4..]));
    if "b/" <= path then path[2..] else path
  }

  predicate IsBodyLine(line: string) {
    line != "" && line[0] in " -+"
  }

  function ReadBodyLine(line: string): DiffLine
    requires IsBodyLine(line)
  {
    DiffLine(if line[0] == ' ' then Keep else if line[0] == '-' then Remove else Add, line[1..])
  }

  // ----- The state machine

  datatype State = State(
    patches: seq<FilePatch>,
    file: Option<string>,
    hunks: seq<Hunk>,
    oldStart: nat,
    body: seq<DiffLine>)
  {
    /** `current_file` is truthy. */
    predicate InFile() {
      file.Some? && file.value != ""
    }

    function FlushBody(): State {
      if body == [] then this else this.(hunks := hunks + [Hunk(oldStart, body)], body := [])
    }

    /** The patches once the current hunk and file are flushed. */
    function Finish(): seq<FilePatch> {
      var s := FlushBody();
      if s.InFile() && s.hunks != [] then Put(s.patches, s.file.value, s.hunks) else s.patches
    }

    function Step(line: string): State {
      if "--- " <= line then State(Finish(), None, [], oldStart, [])
      else if "+++ " <= line then this.(file := Some(HeaderPath(line)))
      else if "@@ " <= line then
        FlushBody().(oldStart := match ReadHeader(line) case Some(n) => n case None => 1)
      else if InFile() && IsBodyLine(line) then this.(body := body + [ReadBodyLine(line)])
      else this
    }
  }

  const START := State([], None, [], 0, [])

  function Run(st: State, lines: seq<string>): State
    decreases |lines|
  {
    if lines == [] then st else Run(st.Step(lines[0]), lines[1..])
  }

  function Parse(diff: string): seq<FilePatch> {
    Run(START, BareLines(diff)).Finish()
  }

  /** `_parse_file_patches`, with its five working variables. */
  method ParseFilePatches(diff: string) returns (patches: seq<FilePatch>)
    ensures patches == Parse(diff)
  {
    var lines := BareLines(diff);
    patches := [];
    var file: Option<string> := None;
    var hunks: seq<Hunk> := [];
    var body: seq<DiffLine> := [];
    var oldStart: nat := 0;
    var i := 0;
    while i < |lines|
      invariant 0 <= i <= |lines|
      invariant Run(State(patches, file, hunks, oldStart, body), lines[i..]) == Run(START, lines)
    {
      var line := lines[i];
      assert lines[i..][0] == line && lines[i..][1..] == lines[i + 1..];
      if "--- " <= line {
        if body != [] {
          hunks, body := hunks + [Hunk(oldStart, body)], [];
        }
        if file.Some? && file.value != "" && hunks != [] {
          patches := Put(patches, file.value, hunks);
        }
        file, hunks := None, [];
      } else if "+++ " <= line {
        file := Some(HeaderPath(line));
      } else if "@@ " <= line {
        if body != [] {
          hunks, body := hunks + [Hunk(oldStart, body)], [];
        }
        var m := ReadHeader(line);
        oldStart := if m.Some? then m.value else 1;
      } else if file.Some? && file.value != "" && line != "" && line[0] in " -+" {
        body := body + [ReadBodyLine(line)];
      }
      i := i + 1;
    }
    if body != [] {
      hunks := hunks + [Hunk(oldStart, body)];
    }
    if file.Some? && file.value != "" && hunks != [] {
      patches := Put(patches, file.value, hunks);
    }
  }

  lemma {:induction false} RunAppend(st: State, a: seq<string>, b: seq<string>)
    ensures Run(st, a + b) == Run(Run(st, a), b)
    decreases |a|
  {
    if a == [] {
      assert a + b == b;
    } else {
      assert (a + b)[0] == a[0] && (a + b)[1..] == a[1..] + b;
      RunAppend(st.Step(a[0]), a[1..], b);
    }
  }

  // ----- What the parser can return

  ghost predicate GoodBody(body: seq<DiffLine>) {
    forall i | 0 <= i < |body| :: Clean(body[i].text)
  }

  /** A hunk as the parser makes it: at least one line, no line break inside a line. */
  ghost predicate GoodHunk(h: Hunk) {
    h.body != [] && GoodBody(h.body)
  }

  ghost predicate GoodPatch(p: FilePatch) {
    p.path != "" && p.hunks != [] && forall i | 0 <= i < |p.hunks| :: GoodHunk(p.hunks[i])
  }

  ghost predicate DistinctPaths(ps: seq<FilePatch>) {
    forall i, j | 0 <= i < j < |ps| :: ps[i].path != ps[j].path
  }

  ghost predicate GoodPatches(ps: seq<FilePatch>) {
    DistinctPaths(ps) && forall i | 0 <= i < |ps| :: GoodPatch(ps[i])
  }

  ghost predicate GoodState(st: State) {
    && GoodPatches(st.patches)
    && (forall i | 0 <= i < |st.hunks| :: GoodHunk(st.hunks[i]))
    && GoodBody(st.body)
  }

  lemma {:induction false} PutPaths(ps: seq<FilePatch>, path: string, hunks: seq<Hunk>)
    ensures forall p | p in Put(ps, path, hunks) :: p in ps || p == FilePatch(path, hunks)
    ensures FilePatch(path, hunks) in Put(ps, path, hunks)
  {
    if ps != [] && ps[0].path != path {
      PutPaths(ps[1..], path, hunks);
    }
  }

  lemma {:induction false} PutGood(ps: seq<FilePatch>, path: string, hunks: seq<Hunk>)
    requires GoodPatches(ps) && GoodPatch(FilePatch(path, hunks))
    ensures GoodPatches(Put(ps, path, hunks))
  {
    hide GoodPatch;
    if ps != [] {
      assert GoodPatches(ps[1..]);
      if ps[0].path != path {
        PutGood(ps[1..], path, hunks);
        PutPaths(ps[1..], path, hunks);
        var rest := Put(ps[1..], path, hunks);
        forall j | 0 <= j < |rest| ensures rest[j].path != ps[0].path {
          assert rest[j] in rest;
        }
      }
    }
  }

  lemma {:induction false} FlushGood(st: State)
    requires GoodState(st)
    ensures GoodState(st.FlushBody()) && GoodPatches(st.Finish())
  {
    var s := st.FlushBody();
    assert GoodState(s);
    if s.InFile() && s.hunks != [] {
      PutGood(s.patches, s.file.value, s.hunks);
    }
  }

  lemma {:induction false} RunGood(st: State, lines: seq<string>)
    requires GoodState(st)
    requires forall i | 0 <= i < |lines| :: Clean(lines[i])
    ensures GoodState(Run(st, lines))
    decreases |lines|
  {
    if lines != [] {
      FlushGood(st);
      assert GoodState(st.Step(lines[0])) by {
        if IsBodyLine(lines[0]) {
          assert Clean(lines[0][1..]);
        }
        hide Clean;
      }
      RunGood(st.Step(lines[0]), lines[1..]);
    }
  }

  /** Whatever the text, the parser returns distinct non-empty paths, non-empty
      hunk lists, and non-empty bodies whose lines hold no line break. */
  lemma {:induction false} ParseIsGood(diff: string)
    ensures GoodPatches(Parse(diff))
  {
    SplitShape(diff);
    forall i | 0 <= i < |BareLines(diff)| ensures Clean(BareLines(diff)[i]) {
      assert SplitLines(diff)[i] in SplitLines(diff);
    }
    RunGood(START, BareLines(diff));
    FlushGood(Run(START, BareLines(diff)));
  }
}
