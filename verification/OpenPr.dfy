/**
 Opening a pull request: every gate and every hunk is checked before the first
 request that writes.
 */
module OpenPr {
  import Lines
  import opened Results
  import opened Patch
  import opened DiffParser
  import opened Paths

  /** The requests `open_pr` can send, in the order they are sent. */
  datatype Request =
    | GetDefaultBranch
    | GetFile(path: string)
    | CreateBranch
    | UpdateFile(path: string, content: string)
    | CreatePr
  {
    predicate Writes() {
      CreateBranch? || UpdateFile? || CreatePr?
    }
  }

  datatype OpenError =
    | NoPatches
    | ProtectedPath(path: string)
    | PathNotAllowed(path: string)
    | RequestFailed(request: Request)
    | CommitFailed
    | DoesNotApply(path: string, why: PatchError)
    | InvalidContent

  /** What the caller passes besides the diff. */
  datatype Gates = Gates(allowed: Option<set<string>>, chartRoots: Option<set<string>>)
  {
    /** Membership in the normalised allowlist. */
    predicate InAllowlist(path: string) {
      allowed.Some? ==> exists p | p in allowed.value :: Normalize(p) == Normalize(path)
    }

    predicate Passes(path: string) {
      !IsProtected(path, chartRoots) && InAllowlist(path)
    }
  }

  /** How the remote answers: the file contents it serves (none: the read fails),
      the requests it refuses, and the number of the pull request it opens. */
  datatype Remote = Remote(contents: map<string, string>, refused: set<Request>, number: nat)

  /** The validator is any predicate on a path and its patched content. */
  type Validator = (string, string) -> bool

  // ----- What one call may do

  ghost predicate Applies(remote: Remote, p: FilePatch) {
    p.path in remote.contents && PatchText(remote.contents[p.path], p.hunks).Success?
  }

  ghost function Patched(remote: Remote, p: FilePatch): string
    requires Applies(remote, p)
  {
    PatchText(remote.contents[p.path], p.hunks).value
  }

  function Fetches(ps: seq<FilePatch>): seq<Request> {
    seq(|ps|, i requires 0 <= i < |ps| => GetFile(ps[i].path))
  }

  function Reads(ps: seq<FilePatch>): seq<Request> {
    [GetDefaultBranch] + Fetches(ps)
  }

  /** One entry of `patched_files`. */
  datatype PatchedFile = PatchedFile(path: string, content: string)

  ghost function PatchedFiles(ps: seq<FilePatch>, remote: Remote): seq<PatchedFile>
    requires forall i | 0 <= i < |ps| :: Applies(remote, ps[i])
  {
    seq(|ps|, i requires 0 <= i < |ps| => PatchedFile(ps[i].path, Patched(remote, ps[i])))
  }

  function Updates(files: seq<PatchedFile>): seq<Request> {
    seq(|files|, i requires 0 <= i < |files| => UpdateFile(files[i].path, files[i].content))
  }

  /** Every gate passed, every hunk applied, every patched file valid. */
  ghost predicate Verified(ps: seq<FilePatch>, gates: Gates, remote: Remote, valid: Validator) {
    && ps != []
    && forall i | 0 <= i < |ps| ::
      && gates.Passes(ps[i].path) && Applies(remote, ps[i])
      && valid(ps[i].path, Patched(remote, ps[i]))
  }

  function Writes(files: seq<PatchedFile>): seq<Request> {
    [CreateBranch] + Updates(files) + [CreatePr]
  }

  /** The remote refuses none of the requests that write. */
  predicate WritesAccepted(files: seq<PatchedFile>, refused: set<Request>) {
    && CreateBranch !in refused && CreatePr !in refused
    && forall i | 0 <= i < |files| :: UpdateFile(files[i].path, files[i].content) !in refused
  }

  ghost predicate Accepted(ps: seq<FilePatch>, remote: Remote)
    requires forall i | 0 <= i < |ps| :: Applies(remote, ps[i])
  {
    GetDefaultBranch !in remote.refused && WritesAccepted(PatchedFiles(ps, remote), remote.refused)
  }

  /** The requests of one call: a prefix of the reads when anything was refused,
      and otherwise all the reads and then a prefix of the writes. */
  ghost predicate Log(log: seq<Request>, ps: seq<FilePatch>, gates: Gates, remote: Remote, valid: Validator) {
    || (log <= Reads(ps)
        && (log != [] ==> ps != [] && forall i | 0 <= i < |ps| :: gates.Passes(ps[i].path)))
    || (Verified(ps, gates, remote, valid) && Reads(ps) <= log <= Reads(ps) + Writes(PatchedFiles(ps, remote)))
  }

  /** The trace grew by the requests `full`, or by some of the first of them. */
  ghost predicate Sent(before: seq<Request>, after: seq<Request>, full: seq<Request>, all: bool) {
    && before <= after <= before + full
    && (all ==> after == before + full)
  }

  lemma {:induction false} SentPrefix(before: seq<Request>, full: seq<Request>, n: nat)
    requires n <= |full|
    ensures Sent(before, before + full[..n], full, false)
  {
  }

  lemma {:induction false} SentAfter(before: seq<Request>, first: Request, after: seq<Request>, full: seq<Request>, all: bool)
    requires Sent(before + [first], after, full, all)
    ensures Sent(before, after, [first] + full, all)
  {
    Lines.Assoc(before, [first], full);
  }

  lemma {:induction false} SentMore(before: seq<Request>, after: seq<Request>, full: seq<Request>, more: seq<Request>)
    requires Sent(before, after, full, false)
    ensures Sent(before, after, full + more, false)
  {
    Lines.Assoc(before, full, more);
  }

  lemma {:induction false} SentLog(before: seq<Request>, after: seq<Request>, full: seq<Request>, all: bool)
    requires Sent(before, after, full, all)
    ensures before <= after && after[|before|..] <= full
    ensures all ==> after[|before|..] == full
  {
    assert forall k | |before| <= k < |after| :: after[k] == (before + full)[k];
  }

  lemma {:induction false} SentBoth(before: seq<Request>, between: seq<Request>, after: seq<Request>,
      first: seq<Request>, second: seq<Request>, all: bool)
    requires Sent(before, between, first, true) && Sent(between, after, second, all)
    ensures before <= after && first <= after[|before|..] <= first + second
    ensures all ==> after[|before|..] == first + second
  {
    Lines.Assoc(before, first, second);
    SentLog(before, after, first + second, all);
    assert forall k | 0 <= k < |between| :: after[k] == between[k];
  }

  lemma {:induction false} SendNext(before: seq<Request>, full: seq<Request>, n: nat)
    requires n < |full|
    ensures before + full[..n] + [full[n]] == before + full[..n + 1]
  {
    assert full[..n] + [full[n]] == full[..n + 1];
  }

  class GitHub {
    const remote: Remote
    var trace: seq<Request>

    constructor (remote: Remote)
      ensures this.remote == remote && trace == []
    {
      this.remote := remote;
      trace := [];
    }

    /** One request: recorded, and answered or refused. */
    method Send(request: Request) returns (ok: bool)
      modifies this`trace
      ensures trace == old(trace) + [request]
      ensures ok <==> request !in remote.refused
    {
      trace := trace + [request];
      ok := request !in remote.refused;
    }

    method FetchFile(path: string) returns (r: Option<string>)
      modifies this`trace
      ensures trace == old(trace) + [GetFile(path)]
      ensures r == if path in remote.contents then Some(remote.contents[path]) else None
    {
      trace := trace + [GetFile(path)];
      r := if path in remote.contents then Some(remote.contents[path]) else None;
    }

    /** The path gates, before any request. */
    method CheckGates(ps: seq<FilePatch>, gates: Gates) returns (refusal: Option<OpenError>)
      ensures refusal == None <==> forall i | 0 <= i < |ps| :: gates.Passes(ps[i].path)
      ensures refusal.Some? ==> exists i | 0 <= i < |ps| ::
        && (forall j | 0 <= j < i :: gates.Passes(ps[j].path))
        && refusal.value == if IsProtected(ps[i].path, gates.chartRoots) then ProtectedPath(ps[i].path)
                            else PathNotAllowed(ps[i].path)
    {
      hide IsProtected, Normalize;
      for i := 0 to |ps|
        invariant forall j | 0 <= j < i :: gates.Passes(ps[j].path)
      {
        var path := ps[i].path;
        if IsProtected(path, gates.chartRoots) {
          return Some(ProtectedPath(path));
        }
        if !gates.InAllowlist(path) {
          return Some(PathNotAllowed(path));
        }
      }
      return None;
    }

    /** Fetch and patch every file; nothing is written. */
    method PatchAll(ps: seq<FilePatch>) returns (r: Result<seq<PatchedFile>, OpenError>)
      modifies this`trace
      ensures Sent(old(trace), trace, Fetches(ps), r.Success?)
      ensures r.Success? <==> forall i | 0 <= i < |ps| :: Applies(remote, ps[i])
      ensures r.Success? ==> r.value == PatchedFiles(ps, remote)
    {
      hide PatchText;
      ghost var before, full := trace, Fetches(ps);
      var files: seq<PatchedFile> := [];
      for i := 0 to |ps|
        invariant trace == before + full[..i]
        invariant |files| == i
        invariant forall j | 0 <= j < i ::
          Applies(remote, ps[j]) && files[j] == PatchedFile(ps[j].path, Patched(remote, ps[j]))
      {
        SendNext(before, full, i);
        SentPrefix(before, full, i + 1);
        var original := FetchFile(ps[i].path);
        if original == None {
          assert !Applies(remote, ps[i]);
          return Failure(RequestFailed(GetFile(ps[i].path)));
        }
        var applied := ApplyPatch(original.value, ps[i].hunks);
        if applied.Failure? {
          assert !Applies(remote, ps[i]);
          return Failure(DoesNotApply(ps[i].path, applied.error));
        }
        files := files + [PatchedFile(ps[i].path, applied.value)];
      }
      return Success(files);
    }

    /** Commit every patched file, stopping at the first refusal. */
    method UpdateAll(files: seq<PatchedFile>) returns (ok: bool)
      modifies this`trace
      ensures Sent(old(trace), trace, Updates(files), ok)
      ensures ok <==> forall i | 0 <= i < |files| ::
        UpdateFile(files[i].path, files[i].content) !in remote.refused
    {
      ghost var before, full := trace, Updates(files);
      for i := 0 to |files|
        invariant trace == before + full[..i]
        invariant forall j | 0 <= j < i :: UpdateFile(files[j].path, files[j].content) !in remote.refused
      {
        SendNext(before, full, i);
        SentPrefix(before, full, i + 1);
        ok := Send(UpdateFile(files[i].path, files[i].content));
        if !ok {
          return false;
        }
      }
      return true;
    }

    /** Default branch and files: everything `open_pr` reads. */
    method Gather(ps: seq<FilePatch>) returns (r: Result<seq<PatchedFile>, OpenError>)
      modifies this`trace
      ensures Sent(old(trace), trace, Reads(ps), r.Success?)
      ensures r.Success? <==> GetDefaultBranch !in remote.refused && forall i | 0 <= i < |ps| :: Applies(remote, ps[i])
      ensures r.Success? ==> r.value == PatchedFiles(ps, remote)
    {
      hide Applies, Patched, Fetches, PatchedFiles;
      ghost var before := trace;
      var ok := Send(GetDefaultBranch);
      if !ok {
        return Failure(RequestFailed(GetDefaultBranch));
      }
      r := PatchAll(ps);
      SentAfter(before, GetDefaultBranch, trace, Fetches(ps), r.Success?);
    }

    /** Branch, commits, pull request: everything `open_pr` writes. */
    method Commit(files: seq<PatchedFile>) returns (r: Result<nat, OpenError>)
      modifies this`trace
      ensures Sent(old(trace), trace, Writes(files), r.Success?)
      ensures r.Success? <==> WritesAccepted(files, remote.refused)
      ensures r.Success? ==> r.value == remote.number
    {
      hide Updates;
      ghost var before, updates := trace, Updates(files);
      var ok := Send(CreateBranch);
      if !ok {
        SentPrefix(before, Writes(files), 1);
        return Failure(RequestFailed(CreateBranch));
      }
      ok := UpdateAll(files);
      SentAfter(before, CreateBranch, trace, updates, ok);
      if !ok {
        SentMore(before, trace, [CreateBranch] + updates, [CreatePr]);
        return Failure(CommitFailed);
      }
      ok := Send(CreatePr);
      Lines.Assoc(before, [CreateBranch] + updates, [CreatePr]);
      r := if ok then Success(remote.number) else Failure(RequestFailed(CreatePr));
    }

    /** `open_pr`, from the text of the diff. */
    method OpenPr(diff: string, gates: Gates, valid: Validator) returns (r: Result<nat, OpenError>)
      modifies this`trace
      ensures old(trace) <= trace
      ensures Log(trace[|old(trace)|..], Parse(diff), gates, remote, valid)
      ensures r.Success? <==> Verified(Parse(diff), gates, remote, valid) && Accepted(Parse(diff), remote)
      ensures r.Success? ==>
        && r.value == remote.number
        && trace[|old(trace)|..] == Reads(Parse(diff)) + Writes(PatchedFiles(Parse(diff), remote))
    {
      hide Applies, Patched, IsProtected, Normalize, Fetches, Updates, Parse;
      ghost var before := trace;
      var ps := ParseFilePatches(diff);
      if ps == [] {
        assert trace[|before|..] == [];
        return Failure(NoPatches);
      }
      var refusal := CheckGates(ps, gates);
      if refusal.Some? {
        assert trace[|before|..] == [];
        return Failure(refusal.value);
      }
      var gathered := Gather(ps);
      ghost var between := trace;
      SentLog(before, between, Reads(ps), gathered.Success?);
      if gathered.Failure? {
        return Failure(gathered.error);
      }
      var files := gathered.value;
      if exists i | 0 <= i < |files| :: !valid(files[i].path, files[i].content) {
        return Failure(InvalidContent);
      }
      assert Verified(ps, gates, remote, valid) by {
        assert forall i | 0 <= i < |ps| :: files[i] == PatchedFile(ps[i].path, Patched(remote, ps[i]));
      }
      r := Commit(files);
      SentBoth(before, between, trace, Reads(ps), Writes(files), r.Success?);
    }
  }

  // ----- What every trace of a call says

  /** Before a request that writes, everything was read and verified: every gate
      passed, every hunk applied, every patched file valid. */
  lemma {:induction false} VerifiedBeforeWrite(log: seq<Request>, ps: seq<FilePatch>, gates: Gates,
      remote: Remote, valid: Validator, i: nat)
    requires Log(log, ps, gates, remote, valid) && i < |log| && log[i].Writes()
    ensures Verified(ps, gates, remote, valid)
    ensures |Reads(ps)| <= i && log[..|Reads(ps)|] == Reads(ps)
  {
    hide Verified;
    assert forall k | 0 <= k < |Reads(ps)| :: !Reads(ps)[k].Writes();
    assert forall k | 0 <= k < |log| && k < |Reads(ps)| :: log[k] == Reads(ps)[k];
  }

  /** A committed file is one of the patched files, with exactly the content the
      hunks give it, and its path passed both gates. */
  lemma {:induction false} CommitsAreVerified(log: seq<Request>, ps: seq<FilePatch>, gates: Gates,
      remote: Remote, valid: Validator, i: nat)
    requires Log(log, ps, gates, remote, valid) && i < |log| && log[i].UpdateFile?
    ensures exists p | p in ps ::
      && gates.Passes(p.path) && Applies(remote, p)
      && log[i] == UpdateFile(p.path, Patched(remote, p))
      && valid(p.path, Patched(remote, p))
  {
    VerifiedBeforeWrite(log, ps, gates, remote, valid, i);
    hide Applies, Patched, IsProtected, Normalize;
    var files := PatchedFiles(ps, remote);
    var k := i - |Reads(ps)|;
    assert log[i] == (Reads(ps) + Writes(files))[i] == Writes(files)[k];
    assert 0 < k <= |files| && log[i] == Updates(files)[k - 1];
    assert files[k - 1] == PatchedFile(ps[k - 1].path, Patched(remote, ps[k - 1]));
    assert ps[k - 1] in ps;
  }

  /** The file is there, its hunks give this content, and the validator accepts it. */
  ghost predicate Checked(p: FilePatch, gates: Gates, remote: Remote, valid: Validator, content: string) {
    && !IsProtected(p.path, gates.chartRoots) && gates.InAllowlist(p.path)
    && p.path in remote.contents && PatchText(remote.contents[p.path], p.hunks) == Success(content)
    && valid(p.path, content)
  }

  /** The request commits the file as its hunks say. */
  ghost predicate Commits(r: Request, p: FilePatch, gates: Gates, remote: Remote, valid: Validator) {
    r.UpdateFile? && r.path == p.path && Checked(p, gates, remote, valid, r.content)
  }

  /** Where anything is written, every file of the diff is admitted, there, patched as its hunks
      say, and valid. */
  lemma {:induction false} NothingUnchecked(log: seq<Request>, ps: seq<FilePatch>, gates: Gates,
      remote: Remote, valid: Validator, i: nat)
    requires Log(log, ps, gates, remote, valid) && i < |log|
    requires log[i].CreateBranch? || log[i].UpdateFile? || log[i].CreatePr?
    ensures ps != [] && forall p | p in ps :: exists content :: Checked(p, gates, remote, valid, content)
  {
    VerifiedBeforeWrite(log, ps, gates, remote, valid, i);
    hide PatchText, IsProtected, Gates.InAllowlist;
    forall p | p in ps ensures exists content :: Checked(p, gates, remote, valid, content) {
      assert Checked(p, gates, remote, valid, Patched(remote, p));
    }
  }

  /** The requests of a call that opens a pull request, one by one: the branch to start from,
      every file, the new branch, every patched file, and the pull request. */
  lemma {:induction false} FullLogExactly(log: seq<Request>, ps: seq<FilePatch>, gates: Gates, remote: Remote, valid: Validator)
    requires Log(log, ps, gates, remote, valid) && CreatePr in log
    ensures var n := |ps|;
      && |log| == 2 * n + 3 && log[0] == GetDefaultBranch && log[n + 1] == CreateBranch && log[2 * n + 2] == CreatePr
      && (forall k | 0 <= k < n :: log[k + 1] == GetFile(ps[k].path))
      && (forall k | 0 <= k < n :: Commits(log[n + 2 + k], ps[k], gates, remote, valid))
  {
    hide Log, Verified, Writes, Reads, Fetches, Applies, Patched, Checked, PatchedFiles;
    var i :| 0 <= i < |log| && log[i] == CreatePr;
    PullRequestComesLast(log, ps, gates, remote, valid, i);
    FilesAreChecked(ps, gates, remote, valid);
    var files := PatchedFiles(ps, remote);
    FullIs(log, ps, gates, remote, valid, i);
    FullShape(ps, files);
  }

  ghost predicate AllChecked(files: seq<PatchedFile>, ps: seq<FilePatch>, gates: Gates, remote: Remote, valid: Validator) {
    && |files| == |ps|
    && forall k | 0 <= k < |ps| :: files[k].path == ps[k].path && Checked(ps[k], gates, remote, valid, files[k].content)
  }

  lemma {:induction false} FilesAreChecked(ps: seq<FilePatch>, gates: Gates, remote: Remote, valid: Validator)
    requires Verified(ps, gates, remote, valid)
    ensures forall i | 0 <= i < |ps| :: Applies(remote, ps[i])
    ensures AllChecked(PatchedFiles(ps, remote), ps, gates, remote, valid)
  {
    hide PatchText, IsProtected, Gates.InAllowlist;
  }

  lemma {:induction false} FullIs(log: seq<Request>, ps: seq<FilePatch>, gates: Gates, remote: Remote, valid: Validator, i: nat)
    requires Log(log, ps, gates, remote, valid) && i == |log| - 1 && log[i] == CreatePr
    requires forall k | 0 <= k < |ps| :: Applies(remote, ps[k])
    ensures log == Reads(ps) + Writes(PatchedFiles(ps, remote))
  {
    hide Verified, Applies, PatchedFiles, Fetches;
    VerifiedBeforeWrite(log, ps, gates, remote, valid, i);
    var files := PatchedFiles(ps, remote);
    ReadsOnly(ps);
    assert log <= Reads(ps) + Writes(files);
    OneCreatePr(Reads(ps), files, i);
  }

  lemma {:induction false} FullShape(ps: seq<FilePatch>, files: seq<PatchedFile>)
    requires |files| == |ps|
    ensures var full, n := Reads(ps) + Writes(files), |ps|;
      && |full| == 2 * n + 3 && full[0] == GetDefaultBranch && full[n + 1] == CreateBranch && full[2 * n + 2] == CreatePr
      && (forall k | 0 <= k < n :: full[k + 1] == GetFile(ps[k].path))
      && (forall k | 0 <= k < n :: full[n + 2 + k] == UpdateFile(files[k].path, files[k].content))
  {
    ReadsShape(ps);
    WritesShape(files);
    hide Reads, Writes;
    var full, n := Reads(ps) + Writes(files), |ps|;
    forall k | 0 <= k < n
      ensures full[k + 1] == GetFile(ps[k].path) && full[n + 2 + k] == UpdateFile(files[k].path, files[k].content)
    {
      assert full[k + 1] == Reads(ps)[k + 1] && full[n + 2 + k] == Writes(files)[k + 1];
    }
  }

  lemma {:induction false} ReadsShape(ps: seq<FilePatch>)
    ensures |Reads(ps)| == |ps| + 1 && Reads(ps)[0] == GetDefaultBranch
    ensures forall k | 0 <= k < |ps| :: Reads(ps)[k + 1] == GetFile(ps[k].path)
  {
    var fetches := Fetches(ps);
    forall k | 0 <= k < |ps| ensures Reads(ps)[k + 1] == GetFile(ps[k].path) {
      assert fetches[k] == GetFile(ps[k].path);
      After(GetDefaultBranch, fetches, k);
    }
  }

  lemma {:induction false} WritesShape(files: seq<PatchedFile>)
    ensures var n := |files|; |Writes(files)| == n + 2 && Writes(files)[0] == CreateBranch && Writes(files)[n + 1] == CreatePr
    ensures forall k | 0 <= k < |files| :: Writes(files)[k + 1] == UpdateFile(files[k].path, files[k].content)
  {
    var updates := Updates(files);
    forall k | 0 <= k < |files| ensures Writes(files)[k + 1] == UpdateFile(files[k].path, files[k].content) {
      assert updates[k] == UpdateFile(files[k].path, files[k].content);
      After(CreateBranch, updates, k);
      assert Writes(files)[k + 1] == ([CreateBranch] + updates)[k + 1];
    }
  }

  lemma {:induction false} After(first: Request, rest: seq<Request>, k: nat)
    requires k < |rest|
    ensures ([first] + rest)[k + 1] == rest[k]
  {
  }

  lemma {:induction false} OneCreatePr(fetched: seq<Request>, files: seq<PatchedFile>, i: nat)
    requires forall k | 0 <= k < |fetched| :: !fetched[k].Writes()
    requires i < |fetched + Writes(files)| && (fetched + Writes(files))[i] == CreatePr
    ensures i == |fetched| + |files| + 1
    ensures forall k | 0 <= k < |files| ::
      (fetched + Writes(files))[|fetched| + 1 + k] == UpdateFile(files[k].path, files[k].content)
  {
  }

  /** The pull request comes last, after the branch and every file's commit. */
  lemma {:induction false} PullRequestComesLast(log: seq<Request>, ps: seq<FilePatch>, gates: Gates,
      remote: Remote, valid: Validator, i: nat)
    requires Log(log, ps, gates, remote, valid) && i < |log| && log[i] == CreatePr
    ensures Verified(ps, gates, remote, valid) && i == |log| - 1
    ensures forall file | file in PatchedFiles(ps, remote) :: UpdateFile(file.path, file.content) in log[..i]
  {
    VerifiedBeforeWrite(log, ps, gates, remote, valid, i);
    hide Verified, Applies, PatchedFiles, Writes, Fetches;
    var files := PatchedFiles(ps, remote);
    var full := Reads(ps) + Writes(files);
    assert forall k | 0 <= k < |Reads(ps)| :: !Reads(ps)[k].Writes() by { ReadsOnly(ps); }
    OneCreatePr(Reads(ps), files, i);
    forall k | 0 <= k < |files| ensures UpdateFile(files[k].path, files[k].content) in log[..i] {
      assert log[..i][|Reads(ps)| + 1 + k] == full[|Reads(ps)| + 1 + k];
    }
  }

  lemma {:induction false} ReadsOnly(ps: seq<FilePatch>)
    ensures forall k | 0 <= k < |Reads(ps)| :: !Reads(ps)[k].Writes()
  {
  }

  /** A refused path means no request at all, not even a read. */
  lemma {:induction false} RefusedPathIsSilent(log: seq<Request>, ps: seq<FilePatch>, gates: Gates,
      remote: Remote, valid: Validator, i: nat)
    requires Log(log, ps, gates, remote, valid)
    requires i < |ps| && !gates.Passes(ps[i].path)
    ensures log == []
  {
  }
}
