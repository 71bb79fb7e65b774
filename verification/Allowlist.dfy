/**
 From the investigation to the commit: the files the model may see, the files
 the gate lets through, and the files a pull request touches are one set.
 */
module Allowlist {
  import opened Results
  import opened Patch
  import opened DiffParser
  import DiffReading
  import opened Paths
  import opened OpenPr

  const MAX_AFFECTED_FILES: nat := 20

  /** The path of one bullet line: white space, one bullet marker and code
      quotes removed. */
  function Bullet(raw: string): string {
    var line := Strip(raw);
    var item := if line != "" && line[0] in "-*" then StripLeft(line[1..]) else line;
    Strip(StripQuotes(item))
  }

  function StripQuotesLeft(s: string): string {
    if s != "" && s[0] == '`' then StripQuotesLeft(s[1..]) else s
  }

  function StripQuotesRight(s: string): string {
    if s != "" && Last(s) == '`' then StripQuotesRight(Front(s)) else s
  }

  function StripQuotes(s: string): string {
    StripQuotesRight(StripQuotesLeft(s))
  }

  predicate Ticks(s: string) {
    forall i | 0 <= i < |s| :: s[i] == '`'
  }

  /** A bullet line: an item in code quotes, or bare, perhaps behind one marker, with white
      space anywhere between them. */
  datatype BulletLine = BulletLine(
    before: string, marker: string, gap: string, open: string, left: string, item: string,
    right: string, close: string, behind: string)
  {
    function Text(): string {
      before + marker + gap + open + left + item + right + close + behind
    }

    function Quoted(): string {
      open + left + item + right + close
    }

    ghost predicate Valid() {
      && DiffReading.Blanks(before) && DiffReading.Blanks(gap) && DiffReading.Blanks(left)
      && DiffReading.Blanks(right) && DiffReading.Blanks(behind) && Ticks(open) && Ticks(close)
      && (marker == "-" || marker == "*" || (marker == "" && gap == ""))
      && item != "" && DiffReading.Trimmed(item)
      && (left == "" ==> item[0] != '`') && (right == "" ==> item[|item| - 1] != '`')
      && (open == "" ==> left == "") && (close == "" ==> right == "")
      && (marker == "" && open == "" ==> item[0] != '-' && item[0] != '*')
    }
  }

  lemma {:induction false} TicksAreStripped(open: string, s: string, close: string)
    requires Ticks(open) && Ticks(close) && s != "" && s[0] != '`' && s[|s| - 1] != '`'
    ensures StripQuotes(open + s + close) == s
  {
    LeftTicks(open, s + close);
    assert open + s + close == open + (s + close);
    RightTicks(s, close);
  }

  lemma {:induction false} LeftTicks(open: string, s: string)
    requires Ticks(open) && s != "" && s[0] != '`'
    ensures StripQuotesLeft(open + s) == s
  {
    if open == "" {
      assert open + s == s;
    } else {
      assert (open + s)[1..] == open[1..] + s;
      LeftTicks(open[1..], s);
    }
  }

  lemma {:induction false} RightTicks(s: string, close: string)
    requires Ticks(close) && s != "" && s[|s| - 1] != '`'
    ensures StripQuotesRight(s + close) == s
    decreases |close|
  {
    if close == "" {
      assert s + close == s;
    } else {
      assert Front(s + close) == s + Front(close) && Last(s + close) == Last(close);
      RightTicks(s, Front(close));
    }
  }

  /** The item is what a bullet line says, whatever stands around it. */
  lemma {:induction false} BulletExactly(l: BulletLine)
    requires l.Valid()
    ensures Bullet(l.Text()) == l.item
  {
    hide *;
    Unmarked(l);
    Unquoted(l);
  }

  lemma {:induction false} Spelled(l: BulletLine)
    ensures l.Text() == l.before + (l.marker + l.gap + l.Quoted()) + l.behind
  {
  }

  lemma {:induction false} Unmarked(l: BulletLine)
    requires l.Valid()
    ensures Bullet(l.Text()) == Strip(StripQuotes(l.Quoted()))
  {
    InnerEnds(l);
    var text := l.marker + l.gap + l.Quoted();
    hide StripQuotes, StripLeft, StripRight, DiffReading.Blanks, DiffReading.Trimmed, BulletLine.Text, BulletLine.Quoted;
    Spelled(l);
    DiffReading.StripExactly(l.before, text, l.behind);
    WithoutMarker(l.marker, l.gap, l.Quoted());
  }

  lemma {:induction false} WithoutMarker(marker: string, gap: string, quoted: string)
    requires marker == "-" || marker == "*" || (marker == "" && gap == "" && quoted != "" && quoted[0] != '-' && quoted[0] != '*')
    requires DiffReading.Blanks(gap) && quoted != "" && !DiffReading.Blanks(quoted[..1])
    ensures var line := marker + gap + quoted;
      (if line != "" && line[0] in "-*" then StripLeft(line[1..]) else line) == quoted
  {
    hide StripLeft, DiffReading.Blanks;
    var line := marker + gap + quoted;
    if marker != "" {
      assert line[0] == marker[0] && line[1..] == gap + quoted;
      DiffReading.LeftIsStripped(gap, quoted);
    } else {
      assert line == quoted;
    }
  }

  lemma {:induction false} Unquoted(l: BulletLine)
    requires l.Valid()
    ensures Strip(StripQuotes(l.Quoted())) == l.item
  {
    InnerEnds(l);
    var inner := l.left + l.item + l.right;
    assert l.Quoted() == l.open + inner + l.close;
    hide StripQuotes, StripLeft, StripRight, DiffReading.Blanks, DiffReading.Trimmed;
    TicksAreStripped(l.open, inner, l.close);
    DiffReading.StripExactly(l.left, l.item, l.right);
  }

  /** What the line, its quoted part and the inside of the quotes begin and end with. */
  lemma {:induction false} InnerEnds(l: BulletLine)
    requires l.Valid()
    ensures var inner, quoted, text := l.left + l.item + l.right, l.Quoted(), l.marker + l.gap + l.Quoted();
      && inner != "" && inner[0] != '`' && inner[|inner| - 1] != '`'
      && quoted != "" && !DiffReading.Blanks(quoted[..1]) && DiffReading.Trimmed(text)
      && (l.marker == "" ==> quoted[0] != '-' && quoted[0] != '*')
  {
    Joined(l.left, l.item, l.right);
    var inner := l.left + l.item + l.right;
    Joined(l.open, inner, l.close);
    assert l.Quoted() == l.open + inner + l.close;
    Joined(l.marker + l.gap, l.Quoted(), "");
    assert l.marker + l.gap + l.Quoted() + "" == l.marker + l.gap + l.Quoted();
  }

  lemma {:induction false} Joined(a: string, s: string, b: string)
    requires s != ""
    ensures var all := a + s + b;
      && all != "" && all[0] == (if a == "" then s[0] else a[0])
      && all[|all| - 1] == if b == "" then s[|s| - 1] else b[|b| - 1]
  {
  }

  /** The known paths among the bullets, each once, in order of first mention. */
  function Known(lines: seq<string>, valid: set<string>): (files: seq<string>)
    ensures forall f | f in files :: f in valid && f != "" && exists l | l in lines :: Bullet(l) == f
    ensures forall l | l in lines && Bullet(l) in valid && Bullet(l) != "" :: Bullet(l) in files
    ensures forall i, j | 0 <= i < j < |files| :: files[i] != files[j]
  {
    if lines == [] then []
    else
      var files := Known(Front(lines), valid);
      var file := Bullet(Last(lines));
      assert forall l | l in lines :: l in Front(lines) || l == Last(lines);
      if file != "" && file in valid && file !in files then files + [file] else files
  }

  lemma {:induction false} KnownGrows(lines: seq<string>, valid: set<string>, n: nat)
    requires n <= |lines|
    ensures Known(lines[..n], valid) <= Known(lines, valid)
    decreases |lines|
  {
    if n == |lines| {
      assert lines[..n] == lines;
    } else {
      KnownGrows(Front(lines), valid, n);
      assert Front(lines)[..n] == lines[..n];
    }
  }

  /** `_parse_affected_files`, from the lines of the section: the first known
      paths, at most `MaxAffectedFiles` of them. */
  method ParseAffectedFiles(lines: seq<string>, valid: set<string>) returns (files: seq<string>)
    ensures |files| <= 20 && files <= Known(lines, valid)
    ensures |files| < 20 ==> files == Known(lines, valid)
  {
    files := [];
    var i := 0;
    while i < |lines|
      invariant 0 <= i <= |lines|
      invariant files == Known(lines[..i], valid) && |files| < MAX_AFFECTED_FILES
    {
      var line := Bullet(lines[i]);
      assert Front(lines[..i + 1]) == lines[..i];
      i := i + 1;
      if line == "" {
        continue;
      }
      if line in valid && line !in files {
        files := files + [line];
      }
      if |files| >= MAX_AFFECTED_FILES {
        break;
      }
    }
    KnownGrows(lines, valid, i);
    assert i == |lines| ==> lines[..i] == lines;
  }

  // ----- The version reference

  datatype VersionRef = VersionRef(repo: Option<string>, path: Option<string>)

  datatype Delivery = Delivery(mode: string, versionRef: Option<VersionRef>)
  {
    predicate IsIndirect() {
      mode == "oci-chart" || mode == "image-build"
    }
  }

  datatype Service = Service(githubRepo: string, delivery: Option<Delivery>)

  predicate Given(s: Option<string>) {
    s.Some? && s.value != ""
  }

  /** `processor._same_repo_version_ref_path`. */
  function GateRef(service: Service): Option<string> {
    if service.delivery == None || !service.delivery.value.IsIndirect() then None
    else if service.delivery.value.versionRef == None then None
    else
      var ref := service.delivery.value.versionRef.value;
      if !Given(ref.path) || !Given(ref.repo) || ref.repo.value != service.githubRepo then None
      else ref.path
  }

  /** `patch_generator._same_repo_version_ref`. */
  function BlobRef(delivery: Option<Delivery>, repo: Option<string>): Option<string> {
    if delivery == None || !delivery.value.IsIndirect() then None
    else if delivery.value.versionRef == None then None
    else
      var ref := delivery.value.versionRef.value;
      if !Given(ref.path) || !Given(ref.repo) || repo == None || ref.repo != repo then None
      else ref.path
  }

  /** The allowlist the processor passes to `open_pr`. */
  function AllowedPaths(affected: seq<string>, service: Service): Option<set<string>> {
    if affected == [] then None
    else
      var files := set f | f in affected;
      Some(match GateRef(service) case Some(ref) => files + {ref} case None => files)
  }

  /** The files the narrowed prompt asks for; none means the whole tree. */
  method OnlyFiles(affected: seq<string>, delivery: Option<Delivery>, repo: Option<string>)
      returns (only: Option<seq<string>>)
    ensures only == NarrowedTo(affected, delivery, repo)
  {
    if affected == [] {
      return None;
    }
    var files := affected;
    var ref := BlobRef(delivery, repo);
    if ref.Some? && ref.value !in files {
      files := files + [ref.value];
    }
    return Some(files);
  }

  function NarrowedTo(affected: seq<string>, delivery: Option<Delivery>, repo: Option<string>): Option<seq<string>> {
    if affected == [] then None
    else
      match BlobRef(delivery, repo)
      case Some(ref) => Some(if ref in affected then affected else affected + [ref])
      case None => Some(affected)
  }

  /** The prompt and the gate agree: the narrowed prompt shows exactly the files
      the allowlist admits, and one exists exactly when the other does. */
  lemma {:induction false} PromptMatchesGate(affected: seq<string>, service: Service)
    ensures var only := NarrowedTo(affected, service.delivery, Some(service.githubRepo));
      var allowed := AllowedPaths(affected, service);
      && (only.Some? <==> allowed.Some?) && (only.Some? <==> affected != [])
      && (only.Some? ==> allowed.value == set f | f in only.value)
  {
    assert GateRef(service) == BlobRef(service.delivery, Some(service.githubRepo));
  }

  /** The allowlist, exactly: the files of the investigation, and, where an image or a chart
      is built elsewhere, the one file of this repository that holds its version. */
  lemma {:induction false} AdmittedExactly(affected: seq<string>, service: Service, file: string)
    requires affected != []
    ensures file in AllowedPaths(affected, service).value <==> file in affected || HoldsVersion(service, file)
  {
  }

  predicate HoldsVersion(service: Service, file: string) {
    match service.delivery
    case Some(Delivery(mode, Some(VersionRef(Some(repo), Some(path))))) =>
      (mode == "oci-chart" || mode == "image-build") && repo == service.githubRepo && repo != "" && path == file != ""
    case _ => false
  }

  // ----- The files the prompt shows

  /** The files that lie in the clone and can be read, in the order asked for. */
  function Readable(files: seq<string>, readable: string -> bool): (shown: seq<string>)
    ensures forall f :: f in shown <==> f in files && readable(f)
  {
    if files == [] then []
    else
      var shown := Readable(Front(files), readable);
      assert forall f :: f in files <==> f in Front(files) || f == Last(files);
      if readable(Last(files)) then shown + [Last(files)] else shown
  }

  /** `_load_codebase` narrowed to a list. */
  method LoadNarrowed(files: seq<string>, readable: string -> bool) returns (shown: seq<string>)
    ensures shown == Readable(files, readable)
  {
    shown := [];
    for i := 0 to |files|
      invariant shown == Readable(files[..i], readable)
    {
      assert Front(files[..i + 1]) == files[..i] && Last(files[..i + 1]) == files[i];
      if readable(files[i]) {
        shown := shown + [files[i]];
      }
    }
    assert files[..|files|] == files;
  }

  /** The ladder of `generate`: the narrowed files, or the whole tree when there is
      nothing to narrow to or none of it can be read. */
  method ChooseBlob(affected: seq<string>, delivery: Option<Delivery>, repo: Option<string>,
                    readable: string -> bool, whole: seq<string>)
      returns (shown: seq<string>, narrowed: bool)
    ensures narrowed <==> affected != [] && exists f :: f in NarrowedTo(affected, delivery, repo).value && readable(f)
    ensures narrowed ==> shown == Readable(NarrowedTo(affected, delivery, repo).value, readable)
    ensures !narrowed ==> shown == whole
  {
    var only := OnlyFiles(affected, delivery, repo);
    if only.Some? {
      shown := LoadNarrowed(only.value, readable);
      if shown != [] {
        assert shown[0] in only.value && readable(shown[0]);
        return shown, true;
      }
    }
    assert only.Some? ==> forall f :: f in only.value ==> !readable(f) by {
      assert only.Some? ==> forall f :: f in only.value && readable(f) ==> f in Readable(only.value, readable);
    }
    return whole, false;
  }

  /** A narrowed prompt shows every file the gate admits that can be read, and no
      other; after the fallback none of the files the gate admits can be read. */
  lemma {:induction false} ShownMatchesGate(affected: seq<string>, service: Service, readable: string -> bool, f: string)
    requires affected != []
    ensures var only := NarrowedTo(affected, service.delivery, Some(service.githubRepo));
      var allowed := AllowedPaths(affected, service);
      && (f in Readable(only.value, readable) <==> f in allowed.value && readable(f))
      && (Readable(only.value, readable) == [] ==> !(f in allowed.value && readable(f)))
  {
    PromptMatchesGate(affected, service);
    hide NarrowedTo, AllowedPaths;
  }

  /** End to end: with a non-empty investigation, every file a call commits
      normalises to a known file the investigation named, or to the version
      reference in the same repository, and the narrowed prompt showed it. */
  lemma {:induction false} CommitsStayInside(lines: seq<string>, known: set<string>, affected: seq<string>,
      service: Service, chartRoots: Option<set<string>>, log: seq<Request>, ps: seq<FilePatch>,
      remote: Remote, valid: Validator, i: nat)
    requires affected <= Known(lines, known) && affected != []
    requires Log(log, ps, Gates(AllowedPaths(affected, service), chartRoots), remote, valid)
    requires i < |log| && log[i].UpdateFile?
    ensures exists f :: (
      && Normalize(f) == Normalize(log[i].path)
      && (f in known || GateRef(service) == Some(f))
      && f in NarrowedTo(affected, service.delivery, Some(service.githubRepo)).value)
  {
    hide IsProtected, Normalize, Applies, Patched;
    var gates := Gates(AllowedPaths(affected, service), chartRoots);
    CommitsAreVerified(log, ps, gates, remote, valid, i);
    var p :| p in ps && gates.Passes(p.path) && Applies(remote, p) && log[i] == UpdateFile(p.path, Patched(remote, p));
    var f :| f in gates.allowed.value && Normalize(f) == Normalize(p.path);
    PromptMatchesGate(affected, service);
    if f in affected {
      assert f in Known(lines, known);
    }
  }
}
