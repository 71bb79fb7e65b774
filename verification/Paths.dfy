/**
 Repository paths: the canonical form they are compared in, and the surfaces a
 patch may never touch.
 */
module Paths {
  import opened Results
  import opened DiffParser

  /** `s.split("/")`. */
  function Split(s: string): (parts: seq<string>)
    ensures parts != []
  {
    if s == "" then [""]
    else
      var rest := Split(s[1..]);
      if s[0] == '/' then [""] + rest else [[s[0]] + rest[0]] + rest[1..]
  }

  /** `"/".join(parts)`. */
  function JoinPath(parts: seq<string>): string {
    if parts == [] then ""
    else if |parts| == 1 then parts[0]
    else parts[0] + "/" + JoinPath(parts[1..])
  }

  /** The segments a comparison keeps: neither empty nor `.`. */
  function Significant(parts: seq<string>): seq<string> {
    if parts == [] then []
    else if parts[0] == "" || parts[0] == "." then Significant(parts[1..])
    else [parts[0]] + Significant(parts[1..])
  }

  function Strip(s: string): string {
    StripRight(StripLeft(s))
  }

  /** `_normalize_repo_path`. */
  function Normalize(path: string): string {
    JoinPath(Significant(Split(Strip(path))))
  }

  function LowerChar(c: char): char {
    if 'A' <= c <= 'Z' then c - 'A' + 'a' else c
  }

  function Lower(s: string): string {
    seq(|s|, i requires 0 <= i < |s| => LowerChar(s[i]))
  }

  function LowerAll(parts: seq<string>): seq<string> {
    seq(|parts|, i requires 0 <= i < |parts| => Lower(parts[i]))
  }

  /** `_is_chart_template`: some `templates` directory sits right under a chart
      root. Without discovery every `templates` segment counts. */
  predicate IsChartTemplate(parts: seq<string>, chartRoots: Option<set<string>>) {
    && "templates" in parts
    && (chartRoots.Some? ==>
      exists i | 0 <= i < |parts| - 1 :: parts[i] == "templates" && JoinPath(parts[..i]) in chartRoots.value)
  }

  const PROTECTED_DIRS := {".github", ".circleci", ".buildkite"}

  const PROTECTED_NAMES := {".gitlab-ci.yml", ".travis.yml", "azure-pipelines.yml", "jenkinsfile", ".drone.yml",
    "bitbucket-pipelines.yml", "cloudbuild.yaml", ".woodpecker.yml"}

  predicate IsProtectedName(name: string) {
    || name in PROTECTED_NAMES
    || "dockerfile" <= name || name == "containerfile"
    || "docker-compose" <= name
  }

  /** `_is_protected_path`. */
  predicate IsProtected(path: string, chartRoots: Option<set<string>>) {
    var norm := Normalize(path);
    var parts := Split(norm);
    var lowered := LowerAll(parts);
    || norm == ""
    || ".." in parts
    || IsChartTemplate(parts, chartRoots)
    || (exists i | 0 <= i < |lowered| :: lowered[i] in PROTECTED_DIRS)
    || IsProtectedName(lowered[|lowered| - 1])
  }

  // ----- The canonical form

  predicate NoSlash(s: string) {
    forall i | 0 <= i < |s| :: s[i] != '/'
  }

  lemma {:induction false} SplitSegment(s: string)
    requires NoSlash(s)
    ensures Split(s) == [s]
  {
    if s != "" {
      SplitSegment(s[1..]);
      assert [s[0]] + s[1..] == s;
    }
  }

  lemma {:induction false} SplitFirst(a: string, rest: string)
    requires NoSlash(a)
    ensures Split(a + "/" + rest) == [a] + Split(rest)
  {
    if a == "" {
      assert a + "/" + rest == "/" + rest && ("/" + rest)[1..] == rest;
    } else {
      SplitFirst(a[1..], rest);
      assert (a + "/" + rest)[0] == a[0] && (a + "/" + rest)[1..] == a[1..] + "/" + rest;
      assert [a[0]] + a[1..] == a;
    }
  }

  ghost predicate Segments(parts: seq<string>) {
    forall i | 0 <= i < |parts| :: NoSlash(parts[i])
  }

  lemma {:induction false} SplitJoined(parts: seq<string>)
    requires parts != [] && Segments(parts)
    ensures Split(JoinPath(parts)) == parts
  {
    if |parts| == 1 {
      SplitSegment(parts[0]);
    } else {
      SplitJoined(parts[1..]);
      SplitFirst(parts[0], JoinPath(parts[1..]));
    }
  }

  lemma {:induction false} SplitSegments(s: string)
    ensures Segments(Split(s))
  {
    if s != "" {
      SplitSegments(s[1..]);
    }
  }

  lemma {:induction false} SignificantSegments(parts: seq<string>)
    requires Segments(parts)
    ensures Segments(Significant(parts)) && Significant(Significant(parts)) == Significant(parts)
    ensures forall i | 0 <= i < |Significant(parts)| ::
      Significant(parts)[i] != "" && Significant(parts)[i] != "."
  {
    if parts != [] {
      SignificantSegments(parts[1..]);
    }
  }

  /** The canonical form splits into exactly the significant segments. */
  lemma {:induction false} NormalSegments(path: string)
    ensures var parts := Significant(Split(Strip(path)));
      && (Normalize(path) == "" <==> parts == [])
      && (parts != [] ==> Split(Normalize(path)) == parts)
  {
    var parts := Significant(Split(Strip(path)));
    SplitSegments(Strip(path));
    SignificantSegments(Split(Strip(path)));
    assert Split("") == [""];
    if parts != [] {
      SplitJoined(parts);
    }
  }

  lemma {:induction false} JoinShorter(parts: seq<string>)
    ensures |JoinPath(Significant(parts))| <= |JoinPath(parts)|
    ensures Significant(parts) != [] ==> parts != []
  {
    if |parts| == 1 {
      assert Significant(parts[1..]) == [];
    } else if |parts| > 1 {
      JoinShorter(parts[1..]);
      var rest := Significant(parts[1..]);
      if parts[0] != "" && parts[0] != "." {
        assert Significant(parts)[1..] == rest;
      }
    }
  }

  lemma {:induction false} JoinSplit(s: string)
    ensures JoinPath(Split(s)) == s
  {
    if s != "" {
      JoinSplit(s[1..]);
      var rest := Split(s[1..]);
      if s[0] == '/' {
        assert ([""] + rest)[1..] == rest;
        assert s == "/" + s[1..];
      } else {
        var parts := [[s[0]] + rest[0]] + rest[1..];
        assert parts[1..] == rest[1..];
        assert s == [s[0]] + s[1..];
      }
    }
  }

  lemma {:induction false} StripShorter(s: string)
    ensures |Strip(s)| <= |s| && (|Strip(s)| == |s| ==> Strip(s) == s)
  {
    StripLeftShorter(s);
    StripRightShorter(StripLeft(s));
  }

  lemma {:induction false} StripLeftShorter(s: string)
    ensures |StripLeft(s)| <= |s| && (|StripLeft(s)| == |s| ==> StripLeft(s) == s)
  {
    if s != "" && IsSpace(s[0]) {
      StripLeftShorter(s[1..]);
    }
  }

  lemma {:induction false} StripRightShorter(s: string)
    ensures |StripRight(s)| <= |s| && (|StripRight(s)| == |s| ==> StripRight(s) == s)
  {
    if s != "" && IsSpace(s[|s| - 1]) {
      StripRightShorter(s[..|s| - 1]);
    }
  }

  /** `strip` leaves a text alone exactly when it neither starts nor ends with white space. */
  lemma {:induction false} StripExactly(s: string)
    ensures Strip(s) == s <==> s == "" || (!IsSpace(s[0]) && !IsSpace(s[|s| - 1]))
  {
    hide IsSpace;
    if s != "" {
      StripLeftShorter(s[1..]);
      StripRightShorter(StripLeft(s));
      if !IsSpace(s[0]) {
        assert StripLeft(s) == s;
        StripRightShorter(s[..|s| - 1]);
      }
    }
  }

  lemma {:induction false} JoinEnds(parts: seq<string>)
    requires parts != [] && forall i | 0 <= i < |parts| :: parts[i] != ""
    ensures var path, last := JoinPath(parts), parts[|parts| - 1];
      path != "" && path[0] == parts[0][0] && path[|path| - 1] == last[|last| - 1]
  {
    if |parts| > 1 {
      JoinEnds(parts[1..]);
      EndsOf(parts[0] + "/", JoinPath(parts[1..]));
    }
  }

  lemma {:induction false} EndsOf(a: string, b: string)
    requires a != "" && b != ""
    ensures a + b != "" && (a + b)[0] == a[0] && (a + b)[|a + b| - 1] == b[|b| - 1]
  {
  }

  lemma {:induction false} NormalizeStripped(path: string)
    ensures Normalize(Normalize(path)) == Normalize(path) <==> Strip(Normalize(path)) == Normalize(path)
  {
    hide Strip;
    var norm := Normalize(path);
    var parts := Significant(Split(Strip(path)));
    NormalSegments(path);
    if Strip(norm) == norm {
      if parts == [] {
        assert Significant(Split("")) == Significant([]);
      } else {
        SplitSegments(Strip(path));
        SignificantSegments(Split(Strip(path)));
      }
    } else {
      JoinShorter(Split(Strip(norm)));
      JoinSplit(Strip(norm));
      StripShorter(norm);
    }
  }

  /** Normalising again changes nothing exactly when the path has no segment to
      keep, or the first one kept does not start and the last one does not end
      with white space. */
  lemma {:induction false} NormalizeTwice(path: string)
    ensures var parts := Significant(Split(Strip(path)));
      Normalize(Normalize(path)) == Normalize(path) <==>
        parts == [] || (!StartsBlank(parts[0]) && !EndsBlank(parts[|parts| - 1]))
  {
    var parts := Significant(Split(Strip(path)));
    hide Strip, Split, Significant, IsSpace;
    NormalizeStripped(path);
    StripExactly(Normalize(path));
    SplitSegments(Strip(path));
    SignificantSegments(Split(Strip(path)));
    if parts != [] {
      JoinEnds(parts);
    }
  }

  predicate StartsBlank(s: string) {
    s != "" && IsSpace(s[0])
  }

  predicate EndsBlank(s: string) {
    s != "" && IsSpace(s[|s| - 1])
  }

  /** A segment that starts with a blank survives one pass and not the next. */
  lemma {:induction false} NormalizeIsNotIdempotent()
    ensures Normalize("/ a") == " a" && Normalize(" a") == "a"
  {
    assert Strip("/ a") == "/ a" && Strip(" a") == "a";
    SplitFirst("", " a");
    assert "" + "/" + " a" == "/ a";
    SplitSegment(" a");
    SplitSegment("a");
    assert [""] + [" a"] == ["", " a"] && ["", " a"][1..] == [" a"];
  }
}
