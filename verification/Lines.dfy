/**
 Text as the patch engine sees it: a string cut into lines that keep their
 terminators (LF, CRLF or a bare CR).
 */
module Lines {

  predicate IsBreak(c: char) {
    c == '\n' || c == '\r'
  }

  /** No line break anywhere. */
  predicate Clean(s: string) {
    forall i | 0 <= i < |s| :: !IsBreak(s[i])
  }

  /** Index of the first break, or the length of `s`. */
  function FirstBreak(s: string): (b: nat)
    ensures b <= |s| && Clean(s[..b])
    ensures b < |s| ==> IsBreak(s[b])
  {
    if s == "" || IsBreak(s[0]) then 0
    else
      var b := 1 + FirstBreak(s[1..]);
      assert forall i | 1 <= i < b :: s[i] == s[1..][..b - 1][i - 1];
      b
  }

  /** Length of the first line of `s`, its terminator included. */
  function FirstLine(s: string): (n: nat)
    requires s != ""
    ensures 1 <= n <= |s|
  {
    var b := FirstBreak(s);
    if b == |s| then b
    else if s[b] == '\r' && b + 1 < |s| && s[b + 1] == '\n' then b + 2
    else b + 1
  }

  /** `str.splitlines(keepends=True)`. */
  function SplitLines(s: string): seq<string> {
    if s == "" then [] else [s[..FirstLine(s)]] + SplitLines(s[FirstLine(s)..])
  }

  /** `"".join(ls)`. */
  function Join(ls: seq<string>): string {
    if ls == [] then "" else ls[0] + Join(ls[1..])
  }

  /** `l.rstrip("\r\n")`. */
  function Chomp(l: string): (c: string)
    ensures c <= l
    ensures c == "" || !IsBreak(c[|c| - 1])
    ensures forall i | |c| <= i < |l| :: IsBreak(l[i])
  {
    if l != "" && IsBreak(l[|l| - 1]) then Chomp(l[..|l| - 1]) else l
  }

  /** `str.splitlines()`: a line holds one terminator and no other break, so
      dropping its trailing breaks drops exactly the terminator. */
  function BareLines(s: string): seq<string> {
    var ls := SplitLines(s);
    seq(|ls|, i requires 0 <= i < |ls| => Chomp(ls[i]))
  }

  predicate EndsWithNewline(l: string) {
    l != "" && l[|l| - 1] == '\n'
  }

  function WithNewline(l: string): string {
    if EndsWithNewline(l) then l else l + "\n"
  }

  /** The lines `_apply_patch` works on: the last one is completed with LF. */
  function FileLines(text: string): seq<string> {
    var ls := SplitLines(text);
    if ls == [] then ls else ls[|ls| - 1 := WithNewline(ls[|ls| - 1])]
  }

  /** One line ended by LF or CRLF. */
  predicate Terminated(l: string) {
    && Clean(Chomp(l))
    && (l == Chomp(l) + "\n" || l == Chomp(l) + "\r\n")
  }

  /** Every CR in the text is the first half of a CRLF. */
  predicate NoBareCR(s: string) {
    forall i | 0 <= i < |s| && s[i] == '\r' :: i + 1 < |s| && s[i + 1] == '\n'
  }

  // ----- Chomp

  lemma {:induction false} ChompUnique(l: string, c: string)
    requires c <= l
    requires c == "" || !IsBreak(c[|c| - 1])
    requires forall i | |c| <= i < |l| :: IsBreak(l[i])
    ensures Chomp(l) == c
  {
    var d := Chomp(l);
    assert c != "" ==> c[|c| - 1] == l[|c| - 1];
    assert d != "" ==> d[|d| - 1] == l[|d| - 1];
  }

  lemma {:induction false} ChompTerminated(c: string)
    requires Clean(c)
    ensures Chomp(c) == c && Chomp(c + "\n") == c && Chomp(c + "\r\n") == c
    ensures Terminated(c + "\n") && Terminated(c + "\r\n")
  {
    ChompUnique(c, c);
    ChompUnique(c + "\n", c);
    ChompUnique(c + "\r\n", c);
  }

  // ----- Join and SplitLines

  lemma {:induction false} Assoc<T>(a: seq<T>, b: seq<T>, c: seq<T>)
    ensures (a + b) + c == a + (b + c)
  {
  }

  lemma {:induction false} JoinAppend(a: seq<string>, b: seq<string>)
    ensures Join(a + b) == Join(a) + Join(b)
  {
    if a == [] {
      assert a + b == b;
    } else {
      assert (a + b)[0] == a[0] && (a + b)[1..] == a[1..] + b;
      JoinAppend(a[1..], b);
    }
  }

  lemma {:induction false} JoinSplit(s: string)
    ensures Join(SplitLines(s)) == s
    decreases |s|
  {
    if s != "" {
      var n := FirstLine(s);
      JoinSplit(s[n..]);
      assert s[..n] + s[n..] == s;
      assert SplitLines(s)[1..] == SplitLines(s[n..]);
    }
  }

  lemma {:induction false} FirstBreakUnique(s: string, b: nat)
    requires b <= |s| && Clean(s[..b])
    requires b < |s| ==> IsBreak(s[b])
    ensures FirstBreak(s) == b
  {
    var d := FirstBreak(s);
    assert forall i | 0 <= i < b :: s[i] == s[..b][i];
    assert forall i | 0 <= i < d :: s[i] == s[..d][i];
  }

  lemma {:induction false} SplitTerminated(l: string, rest: string)
    requires Terminated(l)
    ensures SplitLines(l + rest) == [l] + SplitLines(rest)
  {
    var c := Chomp(l);
    assert (l + rest)[..|c|] == c;
    FirstBreakUnique(l + rest, |c|);
    assert (l + rest)[..|l|] == l && (l + rest)[|l|..] == rest;
  }

  /** A text can be cut here: the part before ends in a break, and not in a CR
      that an LF after it would complete. */
  predicate Boundary(before: string, after: string) {
    before == "" ||
      var last := before[|before| - 1];
      IsBreak(last) && !(last == '\r' && after != "" && after[0] == '\n')
  }

  lemma {:induction false} FirstLineStays(a: string, b: string)
    requires a != "" && Boundary(a, b)
    ensures FirstLine(a + b) == FirstLine(a)
    ensures Boundary(a[FirstLine(a)..], b)
  {
    var k := FirstBreak(a);
    assert a[..|a|] == a;
    assert (a + b)[..k] == a[..k];
    FirstBreakUnique(a + b, k);
  }

  lemma {:induction false} SplitFirst(s: string)
    requires s != ""
    ensures SplitLines(s) == [s[..FirstLine(s)]] + SplitLines(s[FirstLine(s)..])
  {
  }

  lemma {:induction false} CutConcat<T>(a: seq<T>, b: seq<T>, n: nat)
    requires n <= |a|
    ensures (a + b)[..n] == a[..n] && (a + b)[n..] == a[n..] + b
  {
  }

  /** Cut at a boundary, a text splits into the lines of its two parts. */
  lemma {:induction false} SplitBoundary(a: string, b: string)
    requires Boundary(a, b)
    ensures SplitLines(a + b) == SplitLines(a) + SplitLines(b)
    decreases |a|
  {
    if a == "" {
      assert a + b == b;
    } else {
      hide *;
      FirstLineStays(a, b);
      var n := FirstLine(a);
      SplitBoundary(a[n..], b);
      SplitFirst(a);
      SplitFirst(a + b);
      CutConcat(a, b, n);
      Assoc([a[..n]], SplitLines(a[n..]), SplitLines(b));
    }
  }

  lemma {:induction false} BoundaryChain(a: string, b: string, c: string)
    requires Boundary(a, b) && Boundary(b, c) && Boundary(a, c)
    ensures Boundary(a, b + c) && Boundary(a + b, c)
  {
  }

  lemma {:induction false} SplitJoinPrefix(ls: seq<string>, rest: string)
    requires forall l | l in ls :: Terminated(l)
    ensures SplitLines(Join(ls) + rest) == ls + SplitLines(rest)
  {
    if ls == [] {
      assert Join(ls) + rest == rest;
    } else {
      var h, t := ls[0], ls[1..];
      SplitJoinPrefix(t, rest);
      SplitTerminated(h, Join(t) + rest);
      Assoc(h, Join(t), rest);
      Assoc([h], t, SplitLines(rest));
      assert ls == [h] + t;
    }
  }

  lemma {:induction false} SplitJoin(ls: seq<string>)
    requires forall l | l in ls :: Terminated(l)
    ensures SplitLines(Join(ls)) == ls && FileLines(Join(ls)) == ls
  {
    SplitJoinPrefix(ls, "");
    assert Join(ls) + "" == Join(ls);
    if ls != [] {
      var last := ls[|ls| - 1];
      assert Terminated(last);
      assert ls[|ls| - 1 := last] == ls;
    }
  }

  // ----- The lines of an arbitrary text

  /** A line as the splitter cuts it: clean content and at most one terminator. */
  predicate LineShape(l: string) {
    && l != ""
    && Clean(Chomp(l))
    && (l == Chomp(l) || Terminated(l) || l == Chomp(l) + "\r")
  }

  lemma {:induction false} FirstLineShape(s: string)
    requires s != ""
    ensures LineShape(s[..FirstLine(s)])
    ensures FirstLine(s) < |s| ==> s[..FirstLine(s)] != Chomp(s[..FirstLine(s)])
    ensures NoBareCR(s) ==> s[..FirstLine(s)] != Chomp(s[..FirstLine(s)]) + "\r"
  {
    hide Chomp, FirstBreak;
    var b, n := FirstBreak(s), FirstLine(s);
    ChompUnique(s[..n], s[..b]);
    if n == b + 2 {
      assert s[..n] == s[..b] + "\r\n";
    } else if n == b + 1 {
      assert s[..n] == s[..b] + [s[b]];
      assert s[..n][b] == s[b];
    }
  }

  lemma {:induction false} SplitShape(s: string)
    ensures forall l | l in SplitLines(s) :: LineShape(l)
    decreases |s|
  {
    if s != "" {
      var n := FirstLine(s);
      FirstLineShape(s);
      SplitShape(s[n..]);
    }
  }

  lemma {:induction false} NoBareCRSuffix(s: string, n: nat)
    requires NoBareCR(s) && n <= |s|
    ensures NoBareCR(s[n..])
  {
    assert forall i | 0 <= i < |s[n..]| :: s[n..][i] == s[n + i];
  }

  lemma {:induction false} SplitNoBareCR(s: string)
    requires NoBareCR(s) && s != ""
    ensures SplitLines(s) != []
    ensures var ls := SplitLines(s);
      && (forall i | 0 <= i < |ls| - 1 :: Terminated(ls[i]))
      && (Terminated(ls[|ls| - 1]) || ls[|ls| - 1] == Chomp(ls[|ls| - 1]))
    decreases |s|
  {
    hide Terminated, Chomp, FirstLine;
    var n := FirstLine(s);
    var l, rest := s[..n], s[n..];
    FirstLineShape(s);
    if rest == "" {
      assert SplitLines(s) == [l];
    } else {
      NoBareCRSuffix(s, n);
      SplitNoBareCR(rest);
      var ls := SplitLines(rest);
      assert SplitLines(s) == [l] + ls;
    }
  }

  lemma {:induction false} LastLine(s: string)
    requires s != ""
    ensures SplitLines(s) != []
    ensures LineShape(SplitLines(s)[|SplitLines(s)| - 1]) && SplitLines(s)[|SplitLines(s)| - 1] != ""
  {
    SplitShape(s);
    assert SplitLines(s)[|SplitLines(s)| - 1] in SplitLines(s);
  }

  lemma {:induction false} CompleteLine(l: string)
    requires LineShape(l)
    ensures LineShape(WithNewline(l)) && Terminated(WithNewline(l))
  {
    hide Chomp, Clean;
    var c := Chomp(l);
    if l == c || l == c + "\r" {
      assert !EndsWithNewline(l);
      ChompUnique(l + "\n", c);
      assert l == c + "\r" ==> l + "\n" == c + "\r\n";
    } else {
      assert l[|l| - 1] == '\n';
    }
  }

  // ----- Lines that a text can be put together from and cut back into

  /** A line with its terminator. */
  predicate WholeLine(l: string) {
    LineShape(l) && l != Chomp(l)
  }

  predicate EndsWithCr(l: string) {
    l != "" && l[|l| - 1] == '\r'
  }

  /** No bare CR ends the text or stands before an empty line: an LF would
      complete it. */
  predicate NoMerge(ls: seq<string>) {
    forall i | 0 <= i < |ls| && EndsWithCr(ls[i]) :: i + 1 < |ls| && ls[i + 1] != "\n"
  }

  lemma {:induction false} WholeLineEnds(l: string)
    requires WholeLine(l)
    ensures l != "" && IsBreak(l[|l| - 1]) && (l[0] == '\n' ==> l == "\n")
    ensures !EndsWithCr(l) ==> EndsWithNewline(l)
    ensures SplitLines(l) == [l]
  {
    hide Chomp, FirstBreak;
    FirstBreakUnique(l, |Chomp(l)|);
    assert l[..|l|] == l && l[|l|..] == "";
  }

  lemma {:induction false} TerminatedWhole(l: string)
    requires Terminated(l)
    ensures WholeLine(l) && !EndsWithCr(l)
  {
    hide Chomp;
  }

  lemma {:induction false} FileLinesWhole(s: string)
    ensures forall l | l in FileLines(s) :: WholeLine(l)
  {
    if s != "" {
      hide WholeLine, LineShape, SplitLines, WithNewline, Terminated;
      SplitWhole(s);
      CompleteWhole(s);
    }
  }

  lemma {:induction false} CompleteWhole(s: string)
    requires s != ""
    ensures SplitLines(s) != []
    ensures WholeLine(WithNewline(SplitLines(s)[|SplitLines(s)| - 1]))
    ensures !EndsWithCr(WithNewline(SplitLines(s)[|SplitLines(s)| - 1]))
  {
    hide LineShape, SplitLines, WithNewline, Terminated;
    LastLine(s);
    var l := SplitLines(s)[|SplitLines(s)| - 1];
    CompleteLine(l);
    TerminatedWhole(WithNewline(l));
  }

  lemma {:induction false} SplitWhole(s: string)
    ensures forall i | 0 <= i < |SplitLines(s)| - 1 :: WholeLine(SplitLines(s)[i])
    decreases |s|
  {
    if s != "" {
      hide FirstLine, LineShape;
      var n := FirstLine(s);
      FirstLineShape(s);
      SplitWhole(s[n..]);
      assert SplitLines(s) == [s[..n]] + SplitLines(s[n..]);
    }
  }

  /** No line ended by a bare CR stands before an empty line. */
  predicate Apart(ls: seq<string>) {
    forall i | 0 <= i < |ls| - 1 && EndsWithCr(ls[i]) :: ls[i + 1] != "\n"
  }

  lemma {:induction false} SplitNoMerge(s: string)
    ensures Apart(SplitLines(s))
    decreases |s|
  {
    if s != "" {
      hide FirstLine, EndsWithCr;
      var n := FirstLine(s);
      SplitNoMerge(s[n..]);
      FirstNoMerge(s);
      var ls, rest := SplitLines(s), SplitLines(s[n..]);
      assert ls == [s[..n]] + rest;
      assert rest != [] ==> n < |s| && rest[0][0] == s[n];
      ApartNext(s[..n], rest);
    }
  }

  lemma {:induction false} ApartNext(h: string, t: seq<string>)
    requires Apart(t) && (EndsWithCr(h) && t != [] ==> t[0] != "\n")
    ensures Apart([h] + t)
  {
    hide EndsWithCr;
    var ls := [h] + t;
    forall i | 0 <= i < |ls| - 1 && EndsWithCr(ls[i]) ensures ls[i + 1] != "\n" {
      if i > 0 {
        assert ls[i] == t[i - 1];
      }
    }
  }

  lemma {:induction false} FirstNoMerge(s: string)
    requires s != ""
    ensures EndsWithCr(s[..FirstLine(s)]) && FirstLine(s) < |s| ==> s[FirstLine(s)] != '\n'
  {
  }

  lemma {:induction false} FirstsStandApart(h: string, t: seq<string>)
    requires WholeLine(h) && forall l | l in t :: WholeLine(l)
    requires EndsWithCr(h) && t != [] ==> t[0] != "\n"
    ensures Boundary(h, Join(t))
  {
    hide WholeLine;
    WholeLineEnds(h);
    if t != [] {
      assert t[0] in t;
      WholeLineEnds(t[0]);
    }
  }

  lemma {:induction false} SplitJoinApart(ls: seq<string>)
    requires forall l | l in ls :: WholeLine(l)
    requires Apart(ls)
    ensures SplitLines(Join(ls)) == ls
  {
    if ls != [] {
      hide WholeLine, EndsWithCr, SplitLines, Boundary;
      var h, t := ls[0], ls[1..];
      SplitJoinApart(t);
      FirstsStandApart(h, t);
      SplitBoundary(h, Join(t));
      WholeLineEnds(h);
      assert ls == [h] + t;
    }
  }

  lemma {:induction false} FileLinesNoMerge(s: string)
    ensures NoMerge(FileLines(s))
  {
    if s != "" {
      hide *;
      SplitNoMerge(s);
      CompleteWhole(s);
      LastLine(s);
      FileLinesLast(s);
      var ls := SplitLines(s);
      CompletedNoMerge(ls[..|ls| - 1], ls[|ls| - 1]);
    }
  }

  lemma {:induction false} CompletedNoMerge(init: seq<string>, last: string)
    requires Apart(init + [last]) && last != "" && !EndsWithCr(WithNewline(last))
    ensures NoMerge(init + [WithNewline(last)])
  {
    hide EndsWithCr;
    var ls, done := init + [last], init + [WithNewline(last)];
    assert WithNewline(last) == "\n" ==> last == "\n";
    forall i | 0 <= i < |done| && EndsWithCr(done[i]) ensures i + 1 < |done| && done[i + 1] != "\n" {
      assert i < |init| && ls[i] == done[i] && ls[i + 1] != "\n";
    }
  }

  /** Whole lines put together read back as the same lines exactly when none of
      them merge. */
  lemma {:induction false} ReadsBackExactly(ls: seq<string>)
    requires forall l | l in ls :: WholeLine(l)
    ensures FileLines(Join(ls)) == ls <==> NoMerge(ls)
  {
    hide WholeLine, SplitLines, Join;
    if NoMerge(ls) {
      SplitJoinApart(ls);
      if ls != [] {
        var last := ls[|ls| - 1];
        assert last in ls;
        WholeLineEnds(last);
        assert ls[|ls| - 1 := last] == ls;
      }
    } else {
      FileLinesNoMerge(Join(ls));
    }
  }

  /** The text the engine works on: the file, completed with a final LF. */
  lemma {:induction false} JoinFileLines(s: string)
    ensures Join(FileLines(s)) == if s == "" then "" else WithNewline(s)
  {
    if s != "" {
      hide *;
      JoinSplit(s);
      LastLine(s);
      FileLinesLast(s);
      var ls := SplitLines(s);
      CompleteLast(ls[..|ls| - 1], ls[|ls| - 1]);
    }
  }

  lemma {:induction false} FileLinesLast(s: string)
    requires SplitLines(s) != []
    ensures var ls := SplitLines(s);
      var init, last := ls[..|ls| - 1], ls[|ls| - 1];
      ls == init + [last] && FileLines(s) == init + [WithNewline(last)]
  {
    hide SplitLines, WithNewline;
  }

  lemma {:induction false} CompleteLast(init: seq<string>, last: string)
    requires last != ""
    ensures Join(init + [WithNewline(last)]) == WithNewline(Join(init + [last]))
  {
    JoinLast(init, last);
    JoinLast(init, WithNewline(last));
    var s := Join(init) + last;
    assert s[|s| - 1] == last[|last| - 1];
    Assoc(Join(init), last, "\n");
  }

  lemma {:induction false} JoinLast(init: seq<string>, last: string)
    ensures Join(init + [last]) == Join(init) + last
  {
    JoinAppend(init, [last]);
    assert Join([last]) == last + Join([]);
  }

  // ----- Reading back never adds a bare CR

  /** How many lines end in a bare CR. */
  function Crs(ls: seq<string>): nat {
    if ls == [] then 0 else (if EndsWithCr(ls[0]) then 1 else 0) + Crs(ls[1..])
  }

  lemma {:induction false} CrsAppend(a: seq<string>, b: seq<string>)
    ensures Crs(a + b) == Crs(a) + Crs(b)
  {
    if a == [] {
      assert a + b == b;
    } else {
      hide EndsWithCr;
      CrsAppend(a[1..], b);
      assert (a + b)[0] == a[0] && (a + b)[1..] == a[1..] + b;
    }
  }

  lemma {:induction false} CrsLast(init: seq<string>, last: string)
    ensures Crs(init + [last]) == Crs(init) + if EndsWithCr(last) then 1 else 0
  {
    hide EndsWithCr;
    CrsAppend(init, [last]);
    assert [last][1..] == [];
  }

  /** An empty line completes the bare CR before it. */
  lemma {:induction false} MergedFirst(h: string, t: seq<string>)
    requires WholeLine(h) && EndsWithCr(h) && t != [] && t[0] == "\n"
    ensures SplitLines(h + Join(t)) == [h + "\n"] + SplitLines(Join(t[1..]))
    ensures !EndsWithCr(h + "\n")
  {
    hide SplitLines, Terminated, LineShape;
    CompleteLine(h);
    assert Join(t) == "\n" + Join(t[1..]);
    Assoc(h, "\n", Join(t[1..]));
    SplitTerminated(h + "\n", Join(t[1..]));
  }

  lemma {:induction false} SplitLosesCrs(ls: seq<string>)
    requires forall l | l in ls :: WholeLine(l)
    ensures Crs(SplitLines(Join(ls))) <= Crs(ls)
    ensures !Apart(ls) ==> Crs(SplitLines(Join(ls))) < Crs(ls)
    decreases |ls|
  {
    if ls != [] {
      hide WholeLine, SplitLines, EndsWithCr, Apart, Boundary;
      var h, t := ls[0], ls[1..];
      assert ls == [h] + t;
      if EndsWithCr(h) && t != [] && t[0] == "\n" {
        SplitLosesCrs(t[1..]);
        MergedFirst(h, t);
        CrsAppend([h + "\n"], SplitLines(Join(t[1..])));
        LfIsNoCr();
      } else {
        SplitLosesCrs(t);
        FirstsStandApart(h, t);
        SplitBoundary(h, Join(t));
        WholeLineEnds(h);
        CrsAppend([h], SplitLines(Join(t)));
        if Apart(t) {
          ApartNext(h, t);
        }
      }
    }
  }

  lemma {:induction false} LfIsNoCr()
    ensures !EndsWithCr("\n")
  {
  }

  /** Whole lines read back with no more bare CRs, and with fewer if any of them merge. */
  lemma {:induction false} ReadingLosesCrs(ls: seq<string>)
    requires forall l | l in ls :: WholeLine(l)
    ensures Crs(FileLines(Join(ls))) <= Crs(ls)
    ensures !NoMerge(ls) ==> Crs(FileLines(Join(ls))) < Crs(ls)
  {
    hide WholeLine, SplitLines, EndsWithCr, WithNewline, Join;
    if Join(ls) == "" {
      NothingJoined(ls);
    } else {
      SplitLosesCrs(ls);
      LastLine(Join(ls));
      CompleteWhole(Join(ls));
      FileLinesLast(Join(ls));
      var split := SplitLines(Join(ls));
      var init, last := split[..|split| - 1], split[|split| - 1];
      CrsLast(init, last);
      CrsLast(init, WithNewline(last));
      if Apart(ls) {
        SplitJoinApart(ls);
      }
    }
  }

  lemma {:induction false} NothingJoined(ls: seq<string>)
    requires Join(ls) == "" && forall l | l in ls :: WholeLine(l)
    ensures ls == [] && FileLines(Join(ls)) == []
  {
    if ls != [] {
      assert ls[0] in ls;
      WholeLineEnds(ls[0]);
      assert false;
    }
  }
}
