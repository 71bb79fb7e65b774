/**
 The container passes as the code runs them: on a copy of the spec, overwriting
 nested values where they are.
 */
module InPlace {
  import opened Results
  import opened Redaction

  /** Child number `i` of an object or a list replaced. */
  function SetChild(node: Json, i: nat, child: Json): Json {
    match node
    case Obj(fields) => if i < |fields| then Obj(fields[i := Field(fields[i].key, child)]) else node
    case Arr(items) => if i < |items| then Arr(items[i := child]) else node
    case _ => node
  }

  /** The tree with the node at `path` replaced. */
  function Put(node: Json, path: seq<nat>, value: Json): Json
    decreases |path|
  {
    if path == [] then value
    else if Find(node, path[..1]).None? then node
    else SetChild(node, path[0], Put(Find(node, path[..1]).value, path[1..], value))
  }

  lemma {:induction false} FindFirst(node: Json, path: seq<nat>)
    requires path != [] && Find(node, path).Some?
    ensures Find(node, path[..1]).Some? && Find(node, path) == Find(Find(node, path[..1]).value, path[1..])
  {
    assert path[..1][0] == path[0] && path[..1][1..] == [];
  }

  lemma {:induction false} ChildOf(node: Json, i: nat)
    ensures Find(node, [i]) == match node
      case Obj(fields) => if i < |fields| then Some(fields[i].value) else None
      case Arr(items) => if i < |items| then Some(items[i]) else None
      case _ => None
  {
    assert [i][1..] == [];
  }

  lemma {:induction false} FindPut(node: Json, path: seq<nat>, value: Json)
    requires Find(node, path).Some?
    ensures Find(Put(node, path, value), path) == Some(value)
    decreases |path|
  {
    if path != [] {
      FindFirst(node, path);
      assert path[..1] == [path[0]];
      ChildOf(node, path[0]);
      FindPut(Find(node, path[..1]).value, path[1..], value);
      ChildOf(Put(node, path, value), path[0]);
    }
  }

  lemma {:induction false} PutTwice(node: Json, path: seq<nat>, value: Json, again: Json)
    requires Find(node, path).Some?
    ensures Put(Put(node, path, value), path, again) == Put(node, path, again)
    decreases |path|
  {
    if path != [] {
      FindFirst(node, path);
      assert path[..1] == [path[0]];
      ChildOf(node, path[0]);
      ChildOf(Put(node, path, value), path[0]);
      PutTwice(Find(node, path[..1]).value, path[1..], value, again);
    }
  }

  lemma {:induction false} PutSame(node: Json, path: seq<nat>)
    requires Find(node, path).Some?
    ensures Put(node, path, Find(node, path).value) == node
    decreases |path|
  {
    if path != [] {
      FindFirst(node, path);
      assert path[..1] == [path[0]];
      ChildOf(node, path[0]);
      PutSame(Find(node, path[..1]).value, path[1..]);
    }
  }

  lemma {:induction false} FindDeeper(node: Json, path: seq<nat>, i: nat)
    requires Find(node, path).Some?
    ensures Find(node, path + [i]) == Find(Find(node, path).value, [i])
    decreases |path|
  {
    if path == [] {
      assert path + [i] == [i];
    } else {
      FindFirst(node, path);
      assert path[..1] == [path[0]];
      ChildOf(node, path[0]);
      FindDeeper(Find(node, path[..1]).value, path[1..], i);
      assert (path + [i])[0] == path[0] && (path + [i])[1..] == path[1..] + [i];
    }
  }

  lemma {:induction false} PutDeeper(node: Json, path: seq<nat>, i: nat, child: Json)
    requires Find(node, path).Some? && Find(Find(node, path).value, [i]).Some?
    ensures Put(node, path + [i], child) == Put(node, path, SetChild(Find(node, path).value, i, child))
    decreases |path|
  {
    if path == [] {
      assert path + [i] == [i] && [i][..1] == [i] && [i][1..] == [];
    } else {
      FindFirst(node, path);
      assert path[..1] == [path[0]];
      ChildOf(node, path[0]);
      PutDeeper(Find(node, path[..1]).value, path[1..], i, child);
      assert (path + [i])[0] == path[0] && (path + [i])[1..] == path[1..] + [i] && (path + [i])[..1] == path[..1];
    }
  }

  /** Replacing a child of what has been put at `path`. */
  lemma {:induction false} PutChild(root: Json, path: seq<nat>, node: Json, i: nat, child: Json)
    requires Find(root, path).Some? && Find(node, [i]).Some?
    ensures Find(Put(root, path, node), path + [i]) == Find(node, [i])
    ensures Put(Put(root, path, node), path + [i], child) == Put(root, path, SetChild(node, i, child))
  {
    FindPut(root, path, node);
    FindDeeper(Put(root, path, node), path, i);
    PutDeeper(Put(root, path, node), path, i, child);
    PutTwice(root, path, node, SetChild(node, i, child));
  }

  /** The first `i` entries done, the others as they were. */
  function Mixed<T>(done: seq<T>, before: seq<T>, i: nat): seq<T>
    requires i <= |done| == |before|
  {
    done[..i] + before[i..]
  }

  lemma {:induction false} MixedEnds<T>(done: seq<T>, before: seq<T>)
    requires |done| == |before|
    ensures Mixed(done, before, 0) == before && Mixed(done, before, |done|) == done
  {
  }

  lemma {:induction false} NextField(done: seq<Field>, before: seq<Field>, i: nat)
    requires i < |done| == |before| && done[i].key == before[i].key
    ensures Find(Obj(Mixed(done, before, i)), [i]) == Some(before[i].value)
    ensures SetChild(Obj(Mixed(done, before, i)), i, done[i].value) == Obj(Mixed(done, before, i + 1))
    ensures done[i] == before[i] ==> Mixed(done, before, i) == Mixed(done, before, i + 1)
  {
    ChildOf(Obj(Mixed(done, before, i)), i);
  }

  lemma {:induction false} NextItem(done: seq<Json>, before: seq<Json>, i: nat)
    requires i < |done| == |before|
    ensures Find(Arr(Mixed(done, before, i)), [i]) == Some(before[i])
    ensures SetChild(Arr(Mixed(done, before, i)), i, done[i]) == Arr(Mixed(done, before, i + 1))
    ensures done[i] == before[i] ==> Mixed(done, before, i) == Mixed(done, before, i + 1)
  {
    ChildOf(Arr(Mixed(done, before, i)), i);
  }

  lemma {:induction false} InlineChild(fields: seq<Field>, i: nat)
    requires i < |fields|
    ensures |RedactInline(Obj(fields)).fields| == |fields|
    ensures RedactInline(Obj(fields)).fields[i] == RedactInlineField(fields[i])
    ensures RedactInlineField(fields[i]).key == fields[i].key
  {
  }

  /** A spec that is being redacted in place. */
  class Document {
    var root: Json

    /** `copy.deepcopy`. */
    constructor (spec: seq<Field>)
      ensures root == Obj(spec)
    {
      root := Obj(spec);
    }

    method Assign(path: seq<nat>, value: Json)
      requires Find(root, path).Some?
      modifies this
      ensures root == Put(old(root), path, value)
    {
      root := Put(root, path, value);
    }

    /** `entry["value"] = REDACTED`, if the entry is an object with that key. */
    method BlankValueAt(path: seq<nat>)
      requires Find(root, path).Some?
      modifies this
      ensures root == Put(old(root), path, BlankValue(Find(old(root), path).value))
    {
      hide Put, Find, SetChild, Mixed;
      var entry := Find(root, path).value;
      PutSame(root, path);
      if entry.Obj? {
        ghost var done := BlankValue(entry).fields;
        MixedEnds(done, entry.fields);
        for i := 0 to |entry.fields|
          invariant root == Put(old(root), path, Obj(Mixed(done, entry.fields, i)))
        {
          NextField(done, entry.fields, i);
          if entry.fields[i].key == "value" {
            PutChild(old(root), path, Obj(Mixed(done, entry.fields, i)), i, Str(REDACTED));
            Assign(path + [i], Str(REDACTED));
          }
        }
      }
    }

    /** The entries of a list, one after the other. */
    method BlankValuesAt(path: seq<nat>)
      requires Find(root, path).Some? && Find(root, path).value.Arr?
      modifies this
      ensures root == Put(old(root), path, Arr(BlankValues(Find(old(root), path).value.items)))
    {
      hide Put, Find, SetChild, Mixed, BlankValue;
      var items := Find(root, path).value.items;
      PutSame(root, path);
      ghost var done := BlankValues(items);
      MixedEnds(done, items);
      for i := 0 to |items|
        invariant root == Put(old(root), path, Arr(Mixed(done, items, i)))
      {
        NextItem(done, items, i);
        PutChild(old(root), path, Arr(Mixed(done, items, i)), i, done[i]);
        BlankValueAt(path + [i]);
      }
    }

    /** `_redact_env` on the container at `path`. */
    method RedactEnv(path: seq<nat>)
      requires Find(root, path).Some? && Find(root, path).value.Obj?
      modifies this
      ensures root == Put(old(root), path, Obj(Redaction.RedactEnv(Find(old(root), path).value.fields)))
    {
      hide Put, Find, SetChild, Mixed, BlankValues;
      var fields := Find(root, path).value.fields;
      PutSame(root, path);
      ghost var done := Redaction.RedactEnv(fields);
      MixedEnds(done, fields);
      for i := 0 to |fields|
        invariant root == Put(old(root), path, Obj(Mixed(done, fields, i)))
      {
        NextField(done, fields, i);
        if fields[i].key == "env" && fields[i].value.Arr? {
          PutChild(old(root), path, Obj(Mixed(done, fields, i)), i, done[i].value);
          BlankValuesAt(path + [i]);
        }
      }
    }

    /** `_redact_inline_values` on the node at `path`. */
    method RedactInlineValues(path: seq<nat>, ghost node: Json)
      requires Find(root, path) == Some(node)
      modifies this
      ensures root == Put(old(root), path, RedactInline(node))
      decreases node
    {
      hide Put, Find, SetChild, Mixed, BlankValues, Blank;
      var value := Find(root, path).value;
      PutSame(root, path);
      match value
      case Obj(fields) =>
        ghost var done := RedactInline(node).fields;
        MixedEnds(done, fields);
        for i := 0 to |fields|
          invariant root == Put(old(root), path, Obj(Mixed(done, fields, i)))
        {
          InlineChild(fields, i);
          NextField(done, fields, i);
          PutChild(old(root), path, Obj(Mixed(done, fields, i)), i, done[i].value);
          var f := fields[i];
          if IsArgv(f.key) && f.value.Arr? {
            Assign(path + [i], Arr(Blank(f.value.items)));
          } else if f.key == "httpHeaders" && f.value.Arr? {
            BlankValuesAt(path + [i]);
          } else if f.key != "env" {
            RedactInlineValues(path + [i], f.value);
          }
        }
      case Arr(items) =>
        ghost var done := RedactInline(node).items;
        MixedEnds(done, items);
        for i := 0 to |items|
          invariant root == Put(old(root), path, Arr(Mixed(done, items, i)))
        {
          NextItem(done, items, i);
          PutChild(old(root), path, Arr(Mixed(done, items, i)), i, done[i]);
          RedactInlineValues(path + [i], items[i]);
        }
      case _ =>
    }

    /** The containers of one list: the environment first, then the inline values. */
    method RedactContainersAt(path: seq<nat>)
      requires Find(root, path).Some? && Find(root, path).value.Arr?
      modifies this
      ensures root == Put(old(root), path, Arr(RedactContainers(Find(old(root), path).value.items)))
    {
      hide Put, Find, SetChild, Mixed, Redaction.RedactEnv, RedactInline;
      var items := Find(root, path).value.items;
      PutSame(root, path);
      ghost var done := RedactContainers(items);
      MixedEnds(done, items);
      for i := 0 to |items|
        invariant root == Put(old(root), path, Arr(Mixed(done, items, i)))
      {
        NextItem(done, items, i);
        PutChild(old(root), path, Arr(Mixed(done, items, i)), i, done[i]);
        if items[i].Obj? {
          ghost var before := root;
          ghost var env := Obj(Redaction.RedactEnv(items[i].fields));
          RedactEnv(path + [i]);
          FindPut(before, path + [i], env);
          RedactInlineValues(path + [i], env);
          PutTwice(before, path + [i], env, done[i]);
        }
      }
    }

    /** The container lists of the spec. */
    method RedactAllContainers(ghost spec: seq<Field>)
      requires root == Obj(spec)
      modifies this
      ensures root == Obj(ContainersRedacted(spec))
    {
      hide Put, Find, SetChild, Mixed, RedactContainers;
      FindWhole(root);
      PutSame(root, []);
      var fields := root.fields;
      ghost var done := ContainersRedacted(fields);
      MixedEnds(done, fields);
      for i := 0 to |fields|
        invariant root == Put(old(root), [], Obj(Mixed(done, fields, i)))
      {
        NextField(done, fields, i);
        PutChild(old(root), [], Obj(Mixed(done, fields, i)), i, done[i].value);
        assert [] + [i] == [i];
        if IsContainerList(fields[i].key) && fields[i].value.Arr? {
          RedactContainersAt([i]);
        }
      }
      PutWhole(old(root), Obj(done));
    }
  }

  lemma {:induction false} FindWhole(node: Json)
    ensures Find(node, []) == Some(node)
  {
  }

  lemma {:induction false} PutWhole(node: Json, value: Json)
    ensures Put(node, [], value) == value
  {
  }

  /** `redact_pod_spec`: the in-place passes on a copy, then `redact_object` on the
      result; the spec it was given is a value and stays what it was. */
  method RedactPodSpec(spec: seq<Field>) returns (out: Json)
    ensures out == Redaction.RedactPodSpec(spec)
  {
    var copy := new Document(spec);
    copy.RedactAllContainers(spec);
    out := RedactObject(copy.root);
  }
}
