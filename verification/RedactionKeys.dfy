/**
 Which values a redacted pod spec withholds, told by the keys on the way to them:
 the lists of containers, their environments, command lines and headers, the data
 of an object, and the annotation that repeats the whole object.
 */
module RedactionKeys {
  import opened Results
  import opened Redaction

  /** One step down a document: into a field, or into an element of a list. */
  datatype Hop = Named(key: string, at: Json) | Nth(at: Json)

  /** The way to the node at `path`. */
  function Trail(node: Json, path: seq<nat>): (t: seq<Hop>)
    requires Find(node, path).Some?
    ensures |t| == |path|
    decreases |path|
  {
    if path == [] then []
    else match node
      case Obj(fields) =>
        [Named(fields[path[0]].key, fields[path[0]].value)] + Trail(fields[path[0]].value, path[1..])
      case Arr(items) => [Nth(items[path[0]])] + Trail(items[path[0]], path[1..])
  }

  predicate IsList(h: Hop, keys: set<string>) {
    h.Named? && h.key in keys && h.at.Arr?
  }

  predicate IsObject(h: Hop, keys: set<string>) {
    h.Named? && h.key in keys && h.at.Obj?
  }

  predicate IsEntry(h: Hop) {
    h.Nth? && h.at.Obj?
  }

  /** The way leads into a container of the spec. */
  predicate InContainer(t: seq<Hop>) {
    |t| >= 2 && IsList(t[0], {"containers", "initContainers", "ephemeralContainers"}) && IsEntry(t[1])
  }

  /** Below these the rules for containers do not look any further. */
  predicate Final(h: Hop) {
    h.Named? && (h.key == "env" || IsList(h, {"command", "args", "httpHeaders"}))
  }

  /** The way leads to something in a container, and past none of these. */
  predicate Below(t: seq<Hop>) {
    |t| >= 3 && InContainer(t) && t[2].Named? && forall i | 2 <= i < |t| - 1 :: !Final(t[i])
  }

  /** A container's environment, or headers anywhere in it. */
  predicate PairList(t: seq<Hop>) {
    Below(t) && (IsList(t[|t| - 1], {"httpHeaders"}) || (|t| == 3 && IsList(t[2], {"env"})))
  }

  /** A command line anywhere in a container. */
  predicate ArgvList(t: seq<Hop>) {
    Below(t) && IsList(t[|t| - 1], {"command", "args"})
  }

  /** Below these the rules for objects do not look any further. */
  predicate Plain(t: seq<Hop>) {
    forall i | 0 <= i < |t| :: !IsObject(t[i], {"data", "stringData", "annotations"})
  }

  /** The way ends at a value to withhold: the value of an environment variable or of a
      header, an element of a command line, a value of `data` or `stringData`, or the
      last configuration applied. */
  predicate Secret(t: seq<Hop>) {
    |t| >= 2 &&
    var last, parent := t[|t| - 1], t[|t| - 2];
    || (PairList(t[..|t| - 2]) && IsEntry(parent) && last.Named? && last.key == "value")
    || (ArgvList(t[..|t| - 1]) && last.Nth?)
    || (Plain(t[..|t| - 2]) && IsObject(parent, {"data", "stringData"}) && last.Named?)
    || (Plain(t[..|t| - 2]) && IsObject(parent, {"annotations"}) && last.Named?
        && last.key == "kubectl.kubernetes.io/last-applied-configuration")
  }

  // ----- The automaton along the way

  function Move(m: Mode, h: Hop): Mode {
    match h
    case Named(key, at) => FieldMode(m, key, at)
    case Nth(at) => ItemMode(m, at)
  }

  predicate Hides(m: Mode, h: Hop) {
    match h
    case Named(key, _) => FieldWithheld(m, key)
    case Nth(_) => ItemWithheld(m)
  }

  function Reach(m: Mode, t: seq<Hop>): Mode {
    if t == [] then m else Move(Reach(m, t[..|t| - 1]), t[|t| - 1])
  }

  lemma {:induction false} ReachUnfold(m: Mode, t: seq<Hop>)
    requires t != []
    ensures Reach(m, t) == Move(Reach(m, t[..|t| - 1]), t[|t| - 1])
  {
  }

  lemma {:induction false} ScopeExactly(t: seq<Hop>)
    ensures var scope := Reach(TOP, t).scope;
      && (scope.Anywhere? <==> Plain(t))
      && (scope.Data? <==> t != [] && Plain(t[..|t| - 1]) && IsObject(t[|t| - 1], {"data", "stringData"}))
      && (scope.Annotations? <==> t != [] && Plain(t[..|t| - 1]) && IsObject(t[|t| - 1], {"annotations"}))
  {
    if t != [] {
      var front, last := t[..|t| - 1], t[|t| - 1];
      ScopeExactly(front);
      ReachUnfold(TOP, t);
      assert Plain(t) <==> Plain(front) && !IsObject(last, {"data", "stringData", "annotations"}) by {
        assert t == front + [last];
      }
    }
  }

  /** The way leads on below a container. */
  predicate Onward(t: seq<Hop>) {
    Below(t) && !Final(t[|t| - 1])
  }

  lemma {:induction false} InlineExactly(t: seq<Hop>)
    ensures var inline := Reach(TOP, t).inline;
      && (inline.Root? <==> t == [])
      && (inline.Containers? <==> |t| == 1 && IsList(t[0], {"containers", "initContainers", "ephemeralContainers"}))
      && (inline.Container? <==> |t| == 2 && InContainer(t))
      && (inline.Inside? <==> Onward(t))
      && (inline.Pairs? <==> PairList(t))
      && (inline.Pair? <==> t != [] && PairList(t[..|t| - 1]) && IsEntry(t[|t| - 1]))
      && (inline.Argv? <==> ArgvList(t))
  {
    if t != [] {
      var front, last := t[..|t| - 1], t[|t| - 1];
      InlineExactly(front);
      ReachUnfold(TOP, t);
      BelowExactly(t);
    }
  }

  lemma {:induction false} BelowExactly(t: seq<Hop>)
    requires t != []
    ensures var front := t[..|t| - 1]; Below(t) <==> (|t| == 3 && InContainer(front) && t[2].Named?) || Onward(front)
  {
    var front := t[..|t| - 1];
    if |t| >= 4 {
      assert front[|front| - 1] == t[|t| - 2];
      assert InContainer(t) <==> InContainer(front);
      assert Below(t) ==> Onward(front);
    }
  }

  lemma {:induction false} HidesExactly(t: seq<Hop>)
    requires t != []
    ensures Hides(Reach(TOP, t[..|t| - 1]), t[|t| - 1]) <==> Secret(t)
  {
    hide Reach;
    var front := t[..|t| - 1];
    ScopeExactly(front);
    InlineExactly(front);
    if |t| >= 2 {
      assert front[..|front| - 1] == t[..|t| - 2] && front[|front| - 1] == t[|t| - 2];
    }
  }

  // ----- From the root down

  lemma {:induction false} ReachFromTop(m: Mode, h: Hop, t: seq<Hop>)
    ensures Reach(m, [h] + t) == Reach(Move(m, h), t)
  {
    ReachUnfold(m, [h] + t);
    if t == [] {
      assert ([h] + t)[..0] == [];
    } else {
      ReachFromTop(m, h, t[..|t| - 1]);
      assert ([h] + t)[..|t|] == [h] + t[..|t| - 1];
      ReachUnfold(Move(m, h), t);
    }
  }

  /** Nothing along the way is hidden. */
  predicate Clear(m: Mode, t: seq<Hop>) {
    forall n | 0 <= n < |t| :: !Hides(Reach(m, t[..n]), t[n])
  }

  lemma {:induction false} ClearFromTop(m: Mode, h: Hop, t: seq<Hop>)
    ensures Clear(m, [h] + t) <==> !Hides(m, h) && Clear(Move(m, h), t)
  {
    var whole := [h] + t;
    hide Hides, Move, Reach;
    forall n | 0 <= n < |t| ensures Reach(m, whole[..n + 1]) == Reach(Move(m, h), t[..n]) && whole[n + 1] == t[n] {
      ReachFromTop(m, h, t[..n]);
      assert whole[..n + 1] == [h] + t[..n];
    }
    NoHops(m);
    assert whole[..0] == [] && whole[0] == h;
    if Clear(m, whole) {
      forall n | 0 <= n < |t| ensures !Hides(Reach(Move(m, h), t[..n]), t[n]) {
        assert !Hides(Reach(m, whole[..n + 1]), whole[n + 1]);
      }
    } else {
      var n :| 0 <= n < |whole| && Hides(Reach(m, whole[..n]), whole[n]);
      if n > 0 {
        assert Hides(Reach(Move(m, h), t[..n - 1]), t[n - 1]);
      }
    }
  }

  lemma {:induction false} NoHops(m: Mode)
    ensures Reach(m, []) == m
  {
  }

  lemma {:induction false} VisibleExactly(m: Mode, node: Json, path: seq<nat>)
    requires Find(node, path).Some?
    ensures Visible(m, node, path) <==> Clear(m, Trail(node, path))
    decreases |path|
  {
    hide Reach, Clear, FieldMode, ItemMode, FieldWithheld, ItemWithheld;
    if path == [] {
      ClearNowhere(m);
    } else {
      match node
      case Obj(fields) =>
        var f := fields[path[0]];
        VisibleExactly(FieldMode(m, f.key, f.value), f.value, path[1..]);
        ClearFromTop(m, Named(f.key, f.value), Trail(f.value, path[1..]));
      case Arr(items) =>
        var item := items[path[0]];
        VisibleExactly(ItemMode(m, item), item, path[1..]);
        ClearFromTop(m, Nth(item), Trail(item, path[1..]));
    }
  }

  lemma {:induction false} ClearNowhere(m: Mode)
    ensures Clear(m, [])
  {
  }

  // ----- What the spec that goes out holds

  /** Some position on the way, this one included, is a value to withhold. */
  predicate Passes(t: seq<Hop>, end: nat)
    requires end <= |t|
  {
    exists n | 0 <= n <= end :: Secret(t[..n])
  }

  lemma {:induction false} ClearExactly(t: seq<Hop>)
    ensures Clear(TOP, t) <==> !Passes(t, |t|)
  {
    hide Secret, Hides, Reach;
    forall n | 0 <= n < |t| ensures Hides(Reach(TOP, t[..n]), t[n]) <==> Secret(t[..n + 1]) {
      HidesExactly(t[..n + 1]);
      assert t[..n + 1][..n] == t[..n];
    }
    ShortIsPlain(t);
    if !Clear(TOP, t) {
      var n :| 0 <= n < |t| && Hides(Reach(TOP, t[..n]), t[n]);
      assert Secret(t[..n + 1]);
    }
    if Passes(t, |t|) {
      var n :| 0 <= n <= |t| && Secret(t[..n]);
      assert n > 0;
      assert Hides(Reach(TOP, t[..n - 1]), t[n - 1]);
    }
  }

  lemma {:induction false} ShortIsPlain(t: seq<Hop>)
    ensures !Secret(t[..0])
  {
  }

  lemma {:induction false} TrailOfFront(node: Json, path: seq<nat>, n: nat)
    requires Find(node, path).Some? && n <= |path|
    ensures Find(node, path[..n]).Some? && Trail(node, path[..n]) == Trail(node, path)[..n]
    decreases n
  {
    if n > 0 {
      assert path[..n][0] == path[0] && path[..n][1..] == path[1..][..n - 1];
      match node
      case Obj(fields) => TrailOfFront(fields[path[0]].value, path[1..], n - 1);
      case Arr(items) => TrailOfFront(items[path[0]], path[1..], n - 1);
    }
  }

  lemma {:induction false} PassesOfFront(t: seq<Hop>, n: nat)
    requires n <= |t|
    ensures Passes(t[..n], n) <==> Passes(t, n)
  {
    hide Secret;
    assert forall k | 0 <= k <= n :: t[..n][..k] == t[..k];
  }

  /** A leaf has nothing below it. */
  lemma {:induction false} NothingBelow(node: Json, path: seq<nat>, n: nat)
    requires n < |path| && Find(node, path[..n]).Some? && Find(node, path[..n]).value.Str?
    ensures Find(node, path) == None
    decreases n
  {
    if n > 0 {
      assert path[..n][0] == path[0] && path[..n][1..] == path[1..][..n - 1];
      match node
      case Obj(fields) => NothingBelow(fields[path[0]].value, path[1..], n - 1);
      case Arr(items) => NothingBelow(items[path[0]], path[1..], n - 1);
    }
  }

  /** The first value to withhold on the way. */
  lemma {:induction false} FirstSecret(spec: seq<Field>, path: seq<nat>)
    requires path != [] && Find(Obj(spec), path).Some?
    requires var t := Trail(Obj(spec), path); Secret(t) && !Passes(t, |t| - 1)
    ensures Find(RedactPodSpec(spec), path) == Some(Str("[redacted]"))
  {
    hide Visible, Mask, Find, SameTop, RedactPodSpec, Secret, Clear, Trail;
    var t := Trail(Obj(spec), path);
    assert t[..|t|] == t;
    VisibleExactly(TOP, Obj(spec), path);
    ClearExactly(t);
    TrailOfFront(Obj(spec), path, |path| - 1);
    VisibleExactly(TOP, Obj(spec), path[..|path| - 1]);
    ClearExactly(t[..|t| - 1]);
    PassesOfFront(t, |t| - 1);
    RedactionByPosition(spec, path);
  }

  lemma {:induction false} SecretsAreGone(spec: seq<Field>, path: seq<nat>)
    requires path != [] && Find(Obj(spec), path).Some?
    requires var t := Trail(Obj(spec), path); Passes(t, |t| - 1)
    ensures Find(RedactPodSpec(spec), path) == None
    decreases |path|
  {
    hide Find, RedactPodSpec, Secret, Trail;
    var t, front := Trail(Obj(spec), path), path[..|path| - 1];
    TrailOfFront(Obj(spec), path, |front|);
    ShortIsPlain(t);
    if Passes(t, |t| - 2) {
      PassesOfFront(t, |t| - 1);
      assert t[..|t| - 1][..|t| - 2] == t[..|t| - 2];
      PassesOfFront(t, |t| - 2);
      PassesOfFront(t[..|t| - 1], |t| - 2);
      SecretsAreGone(spec, front);
      NoneBelow(RedactPodSpec(spec), path, |front|);
    } else {
      PassesOfFront(t, |t| - 2);
      assert t[..|t| - 1][..|t| - 2] == t[..|t| - 2];
      PassesOfFront(t[..|t| - 1], |t| - 2);
      assert t[..|t| - 1][..|t| - 1] == t[..|t| - 1];
      FirstSecret(spec, front);
      NothingBelow(RedactPodSpec(spec), path, |front|);
    }
  }

  lemma {:induction false} NoneBelow(node: Json, path: seq<nat>, n: nat)
    requires n <= |path| && Find(node, path[..n]) == None
    ensures Find(node, path) == None
    decreases n
  {
    if n > 0 {
      assert path[..n][0] == path[0] && path[..n][1..] == path[1..][..n - 1];
      match node
      case Obj(fields) => if path[0] < |fields| { NoneBelow(fields[path[0]].value, path[1..], n - 1); }
      case Arr(items) => if path[0] < |items| { NoneBelow(items[path[0]], path[1..], n - 1); }
      case _ =>
    }
  }

  /** A value to withhold is replaced by the mark, whatever it was; what lies below it is
      gone with it; and every other node survives with its keys and its length. */
  lemma {:induction false} RedactionByKeys(spec: seq<Field>, path: seq<nat>)
    requires Find(Obj(spec), path).Some?
    ensures var t, out := Trail(Obj(spec), path), Find(RedactPodSpec(spec), path);
      && (!Passes(t, |t|) ==> out.Some? && SameTop(Find(Obj(spec), path).value, out.value))
      && (path != [] && Secret(t) && !Passes(t, |t| - 1) ==> out == Some(Str("[redacted]")))
      && (path != [] && Passes(t, |t| - 1) ==> out == None)
  {
    hide Visible, Mask, SameTop, Find, RedactPodSpec, Secret, Clear, Passes, Trail;
    var t := Trail(Obj(spec), path);
    VisibleExactly(TOP, Obj(spec), path);
    ClearExactly(t);
    RedactionByPosition(spec, path);
    if path == [] {
    } else if Passes(t, |t| - 1) {
      SecretsAreGone(spec, path);
    } else if Secret(t) {
      FirstSecret(spec, path);
    }
  }
}
