/**
 What the path gate refuses, said on the segments of a path.
 */
module PathGate {
  import opened Results
  import opened DiffParser
  import opened DiffReading
  import opened Paths
  import opened OpenPr

  /** The segments that count: what stands between slashes, unless it is nothing or a dot. */
  function Named(parts: seq<string>): seq<string> {
    if parts == [] then []
    else (if parts[0] == "" || parts[0] == "." then [] else [parts[0]]) + Named(parts[1..])
  }

  /** `"/".join(parts)`. */
  function Slashed(parts: seq<string>): string {
    if parts == [] then "" else if |parts| == 1 then parts[0] else parts[0] + "/" + Slashed(parts[1..])
  }

  function Segs(path: string): seq<string> {
    Significant(Split(Strip(path)))
  }

  lemma {:induction false} JoinsAgree(parts: seq<string>)
    ensures Slashed(parts) == JoinPath(parts)
  {
    if |parts| > 1 {
      JoinsAgree(parts[1..]);
    }
  }

  lemma {:induction false} NamesAgree(parts: seq<string>)
    ensures Named(parts) == Significant(parts)
  {
    if parts != [] {
      NamesAgree(parts[1..]);
    }
  }

  /** A path, whatever white space surrounds it, has the segments that stand between its slashes. */
  lemma {:induction false} SegmentsExactly(left: string, parts: seq<string>, right: string)
    requires Blanks(left) && Blanks(right) && Trimmed(Slashed(parts))
    requires parts != [] && forall i, k | 0 <= i < |parts| && 0 <= k < |parts[i]| :: parts[i][k] != '/'
    ensures Segs(left + Slashed(parts) + right) == Named(parts)
  {
    hide StripLeft, StripRight, Split, Significant, Slashed, Named;
    DiffReading.StripExactly(left, Slashed(parts), right);
    JoinsAgree(parts);
    NamesAgree(parts);
    assert Segments(parts);
    SplitJoined(parts);
  }

  /** ASCII letters change case, everything else stands. */
  lemma {:induction false} LowerExactly(s: string)
    ensures |Lower(s)| == |s|
    ensures forall i | 0 <= i < |s| ::
      Lower(s)[i] as int == if 65 <= s[i] as int <= 90 then s[i] as int + 32 else s[i] as int
  {
    forall i | 0 <= i < |s|
      ensures Lower(s)[i] as int == if 65 <= s[i] as int <= 90 then s[i] as int + 32 else s[i] as int
    {
      assert Lower(s)[i] == LowerChar(s[i]);
    }
  }

  // ----- The surfaces no patch may touch

  /** A `templates` directory of a chart; with unknown chart roots, any such segment. */
  predicate InTemplates(parts: seq<string>, chartRoots: Option<set<string>>) {
    match chartRoots
    case None => "templates" in parts
    case Some(roots) => exists i | 0 <= i < |parts| - 1 :: parts[i] == "templates" && Slashed(parts[..i]) in roots
  }

  predicate CiDirectory(segment: string) {
    Lower(segment) == ".github" || Lower(segment) == ".circleci" || Lower(segment) == ".buildkite"
  }

  predicate CiOrDockerFile(segment: string) {
    var base := Lower(segment);
    || base == ".gitlab-ci.yml" || base == ".travis.yml" || base == "azure-pipelines.yml" || base == "jenkinsfile"
    || base == ".drone.yml" || base == "bitbucket-pipelines.yml" || base == "cloudbuild.yaml" || base == ".woodpecker.yml"
    || base == "containerfile" || "dockerfile" <= base || "docker-compose" <= base
  }

  predicate Forbidden(parts: seq<string>, chartRoots: Option<set<string>>) {
    || parts == []
    || ".." in parts
    || InTemplates(parts, chartRoots)
    || (exists i | 0 <= i < |parts| :: CiDirectory(parts[i]))
    || CiOrDockerFile(parts[|parts| - 1])
  }

  lemma {:induction false} TemplatesAgree(parts: seq<string>, chartRoots: Option<set<string>>)
    ensures IsChartTemplate(parts, chartRoots) <==> InTemplates(parts, chartRoots)
  {
    hide JoinPath, Slashed;
    forall i | 0 <= i < |parts| - 1 ensures Slashed(parts[..i]) == JoinPath(parts[..i]) {
      JoinsAgree(parts[..i]);
    }
  }

  /** The gate, exactly: a path is refused if and only if it has no segment, climbs, lies in
      a chart's templates or in a CI directory, or is a CI or container file. */
  lemma {:induction false} ProtectedExactly(path: string, chartRoots: Option<set<string>>)
    ensures IsProtected(path, chartRoots) <==> Forbidden(Segs(path), chartRoots)
  {
    var parts := Segs(path);
    hide Segs, Normalize, IsChartTemplate, InTemplates, Lower, CiDirectory, IsProtectedName, CiOrDockerFile;
    CanonicalSegments(path);
    if parts != [] {
      TemplatesAgree(parts, chartRoots);
      var lowered := LowerAll(parts);
      forall i | 0 <= i < |parts| ensures lowered[i] in PROTECTED_DIRS <==> CiDirectory(parts[i]) {
        DirectoryAgrees(parts[i]);
      }
      FileAgrees(parts[|parts| - 1]);
    }
  }

  lemma {:induction false} CanonicalSegments(path: string)
    ensures Normalize(path) == "" <==> Segs(path) == []
    ensures Segs(path) != [] ==> Split(Normalize(path)) == Segs(path)
  {
    hide Strip, Split, Significant, Normalize;
    NormalSegments(path);
  }

  lemma {:induction false} DirectoryAgrees(segment: string)
    ensures Lower(segment) in PROTECTED_DIRS <==> CiDirectory(segment)
  {
    hide Lower;
  }

  lemma {:induction false} FileAgrees(segment: string)
    ensures IsProtectedName(Lower(segment)) <==> CiOrDockerFile(segment)
  {
    hide Lower;
  }

  /** Two paths are the same to the allowlist exactly when their segments are. */
  lemma {:induction false} AllowedExactly(gates: Gates, path: string)
    ensures gates.InAllowlist(path)
      <==> (gates.allowed.Some? ==> exists p | p in gates.allowed.value :: Segs(p) == Segs(path))
  {
    if gates.allowed.Some? {
      forall p | p in gates.allowed.value ensures Normalize(p) == Normalize(path) <==> Segs(p) == Segs(path) {
        hide Strip, Split, Significant;
        NormalSegments(p);
        NormalSegments(path);
      }
      hide Normalize, Segs;
    }
  }

  /** A diff with a forbidden path, or one outside the allowlist, sends no request at all. */
  lemma {:induction false} ForbiddenPathIsSilent(log: seq<Request>, ps: seq<FilePatch>, gates: Gates,
      remote: Remote, valid: Validator, i: nat)
    requires Log(log, ps, gates, remote, valid) && i < |ps|
    requires Forbidden(Segs(ps[i].path), gates.chartRoots)
      || (gates.allowed.Some? && forall p | p in gates.allowed.value :: Segs(p) != Segs(ps[i].path))
    ensures log == []
  {
    hide Forbidden, Segs, IsProtected, Log;
    ProtectedExactly(ps[i].path, gates.chartRoots);
    AllowedExactly(gates, ps[i].path);
    RefusedPathIsSilent(log, ps, gates, remote, valid, i);
  }
}
