/**
 What is withheld from a pod spec before it leaves the cluster client: the three
 passes of the code, one automaton over the positions of the tree, and the theorem
 that what comes out depends on exactly the positions that are not withheld.
 */
module Redaction {
  import opened Results

  /** A parsed JSON document; the fields of an object in insertion order. */
  datatype Json =
    | Null
    | Bool(b: bool)
    | Num(n: int)
    | Str(s: string)
    | Arr(items: seq<Json>)
    | Obj(fields: seq<Field>)

  datatype Field = Field(key: string, value: Json)

  const REDACTED: string := "[redacted]"
  const LAST_APPLIED := "kubectl.kubernetes.io/last-applied-configuration"

  predicate IsContainerList(key: string) {
    key == "containers" || key == "initContainers" || key == "ephemeralContainers"
  }

  predicate IsArgv(key: string) {
    key == "command" || key == "args"
  }

  predicate IsData(key: string) {
    key == "data" || key == "stringData"
  }

  function Blank(items: seq<Json>): seq<Json> {
    seq(|items|, i requires 0 <= i < |items| => Str(REDACTED))
  }

  // ----- The three passes

  /** `entry["value"] = REDACTED` if the entry is an object that has one. */
  function BlankValue(entry: Json): Json {
    match entry
    case Obj(fields) =>
      Obj(seq(|fields|, i requires 0 <= i < |fields| =>
        if fields[i].key == "value" then Field("value", Str(REDACTED)) else fields[i]))
    case _ => entry
  }

  function BlankValues(items: seq<Json>): seq<Json> {
    seq(|items|, i requires 0 <= i < |items| => BlankValue(items[i]))
  }

  /** `_redact_env` on the fields of a container. */
  function RedactEnv(fields: seq<Field>): seq<Field> {
    seq(|fields|, i requires 0 <= i < |fields| =>
      if fields[i].key == "env" && fields[i].value.Arr? then Field("env", Arr(BlankValues(fields[i].value.items)))
      else fields[i])
  }

  /** `_redact_inline_values`. */
  function RedactInline(node: Json): Json {
    match node
    case Obj(fields) => Obj(seq(|fields|, i requires 0 <= i < |fields| => RedactInlineField(fields[i])))
    case Arr(items) => Arr(seq(|items|, i requires 0 <= i < |items| => RedactInline(items[i])))
    case _ => node
  }

  function RedactInlineField(f: Field): Field {
    if IsArgv(f.key) && f.value.Arr? then Field(f.key, Arr(Blank(f.value.items)))
    else if f.key == "httpHeaders" && f.value.Arr? then Field(f.key, Arr(BlankValues(f.value.items)))
    else if f.key != "env" then Field(f.key, RedactInline(f.value))
    else f
  }

  /** `redact_object`. */
  function RedactObject(node: Json): Json {
    match node
    case Obj(fields) => Obj(seq(|fields|, i requires 0 <= i < |fields| => RedactObjectField(fields[i])))
    case Arr(items) => Arr(seq(|items|, i requires 0 <= i < |items| => RedactObject(items[i])))
    case _ => node
  }

  function RedactObjectField(f: Field): Field {
    if IsData(f.key) && f.value.Obj? then Field(f.key, Obj(BlankAll(f.value.fields)))
    else if f.key == "annotations" && f.value.Obj? then Field(f.key, Obj(BlankLastApplied(f.value.fields)))
    else Field(f.key, RedactObject(f.value))
  }

  function BlankAll(fields: seq<Field>): seq<Field> {
    seq(|fields|, i requires 0 <= i < |fields| => Field(fields[i].key, Str(REDACTED)))
  }

  function BlankLastApplied(fields: seq<Field>): seq<Field> {
    seq(|fields|, i requires 0 <= i < |fields| =>
      if fields[i].key == LAST_APPLIED then Field(LAST_APPLIED, Str(REDACTED)) else fields[i])
  }

  function RedactContainer(container: Json): Json {
    if container.Obj? then RedactInline(Obj(RedactEnv(container.fields))) else container
  }

  function RedactContainers(items: seq<Json>): seq<Json> {
    seq(|items|, i requires 0 <= i < |items| => RedactContainer(items[i]))
  }

  function ContainersRedacted(spec: seq<Field>): seq<Field> {
    seq(|spec|, i requires 0 <= i < |spec| =>
      if IsContainerList(spec[i].key) && spec[i].value.Arr?
      then Field(spec[i].key, Arr(RedactContainers(spec[i].value.items))) else spec[i])
  }

  /** `redact_pod_spec` on the fields of a spec. */
  function RedactPodSpec(spec: seq<Field>): Json {
    RedactObject(Obj(ContainersRedacted(spec)))
  }

  // ----- Which positions are withheld

  /** Where a node is, for the rules about containers. `Pairs` is a list whose objects
      have their `value` withheld, and `Pair` is one of them. */
  datatype Inline = Root | Containers | Container | Inside | Pairs | Pair | Argv | Elsewhere

  /** Where a node is, for the rules about all objects. */
  datatype Scope = Anywhere | Data | Annotations | Exempt

  datatype Mode = Mode(inline: Inline, scope: Scope)

  /** The value of field `key` of an object at this place is withheld. */
  predicate FieldWithheld(m: Mode, key: string) {
    || (m.inline.Pair? && key == "value")
    || m.scope.Data?
    || (m.scope.Annotations? && key == LAST_APPLIED)
  }

  predicate ItemWithheld(m: Mode) {
    m.inline.Argv?
  }

  function FieldInline(at: Inline, key: string, value: Json): Inline {
    match at
    case Root => if IsContainerList(key) && value.Arr? then Containers else Elsewhere
    case Container =>
      if key == "env" then (if value.Arr? then Pairs else Elsewhere)
      else if IsArgv(key) && value.Arr? then Argv
      else if key == "httpHeaders" && value.Arr? then Pairs
      else Inside
    case Inside =>
      if key == "env" then Elsewhere
      else if IsArgv(key) && value.Arr? then Argv
      else if key == "httpHeaders" && value.Arr? then Pairs
      else Inside
    case _ => Elsewhere
  }

  function FieldScope(at: Scope, key: string, value: Json): Scope {
    match at
    case Anywhere =>
      if IsData(key) && value.Obj? then Data
      else if key == "annotations" && value.Obj? then Annotations
      else Anywhere
    case _ => Exempt
  }

  function FieldMode(m: Mode, key: string, value: Json): Mode {
    Mode(FieldInline(m.inline, key, value), FieldScope(m.scope, key, value))
  }

  function ItemInline(at: Inline, item: Json): Inline {
    match at
    case Containers => if item.Obj? then Container else Elsewhere
    case Inside => Inside
    case Pairs => if item.Obj? then Pair else Elsewhere
    case _ => Elsewhere
  }

  function ItemMode(m: Mode, item: Json): Mode {
    Mode(ItemInline(m.inline, item), if m.scope.Anywhere? then Anywhere else Exempt)
  }

  /** Every withheld position blanked, in one pass. */
  function Mask(m: Mode, node: Json): Json
    decreases node, 0
  {
    match node
    case Obj(fields) => Obj(seq(|fields|, i requires 0 <= i < |fields| => MaskField(m, fields[i])))
    case Arr(items) => Arr(seq(|items|, i requires 0 <= i < |items| => MaskItem(m, items[i])))
    case _ => node
  }

  function MaskField(m: Mode, f: Field): Field
    decreases f, 1
  {
    Field(f.key, if FieldWithheld(m, f.key) then Str(REDACTED) else Mask(FieldMode(m, f.key, f.value), f.value))
  }

  function MaskItem(m: Mode, item: Json): Json
    decreases item, 1
  {
    if ItemWithheld(m) then Str(REDACTED) else Mask(ItemMode(m, item), item)
  }

  // ----- The three passes are the one pass

  predicate SameKind(a: Json, b: Json) {
    (a.Obj? <==> b.Obj?) && (a.Arr? <==> b.Arr?)
  }

  lemma {:induction false} MaskKeepsKind(m: Mode, node: Json)
    ensures SameKind(Mask(m, node), node)
  {
  }

  /** Outside every rule nothing is withheld. */
  lemma {:induction false} NothingElsewhere(node: Json)
    ensures Mask(Mode(Elsewhere, Exempt), node) == node
  {
    var m := Mode(Elsewhere, Exempt);
    match node
    case Obj(fields) =>
      forall i | 0 <= i < |fields| ensures MaskField(m, fields[i]) == fields[i] {
        NothingElsewhere(fields[i].value);
      }
      assert Mask(m, node).fields == fields;
    case Arr(items) =>
      forall i | 0 <= i < |items| ensures MaskItem(m, items[i]) == items[i] {
        NothingElsewhere(items[i]);
      }
      assert Mask(m, node).items == items;
    case _ =>
  }

  /** The container rules first and the object rules second are both at once. */
  lemma {:induction false} MasksCompose(at: Inline, scope: Scope, node: Json)
    ensures Mask(Mode(Elsewhere, scope), Mask(Mode(at, Exempt), node)) == Mask(Mode(at, scope), node)
    decreases node, 0
  {
    var first, second, both := Mode(at, Exempt), Mode(Elsewhere, scope), Mode(at, scope);
    match node
    case Obj(fields) =>
      forall i | 0 <= i < |fields| ensures MaskField(second, MaskField(first, fields[i])) == MaskField(both, fields[i]) {
        FieldsCompose(at, scope, fields[i]);
      }
      assert Mask(second, Mask(first, node)).fields == Mask(both, node).fields;
    case Arr(items) =>
      forall i | 0 <= i < |items| ensures MaskItem(second, MaskItem(first, items[i])) == MaskItem(both, items[i]) {
        ItemsCompose(at, scope, items[i]);
      }
      assert Mask(second, Mask(first, node)).items == Mask(both, node).items;
    case _ =>
  }

  lemma {:induction false} FieldsCompose(at: Inline, scope: Scope, f: Field)
    ensures MaskField(Mode(Elsewhere, scope), MaskField(Mode(at, Exempt), f)) == MaskField(Mode(at, scope), f)
    decreases f, 1
  {
    var inner := FieldInline(at, f.key, f.value);
    MasksCompose(inner, FieldScope(scope, f.key, f.value), f.value);
    MaskKeepsKind(Mode(inner, Exempt), f.value);
  }

  lemma {:induction false} ItemsCompose(at: Inline, scope: Scope, item: Json)
    ensures MaskItem(Mode(Elsewhere, scope), MaskItem(Mode(at, Exempt), item)) == MaskItem(Mode(at, scope), item)
    decreases item, 1
  {
    var inner := ItemInline(at, item);
    MasksCompose(inner, if scope.Anywhere? then Anywhere else Exempt, item);
    MaskKeepsKind(Mode(inner, Exempt), item);
  }

  lemma {:induction false} BlankIsMask(items: seq<Json>)
    ensures Arr(Blank(items)) == Mask(Mode(Argv, Exempt), Arr(items))
  {
  }

  lemma {:induction false} BlankValueIsMask(entry: Json)
    ensures BlankValue(entry) == Mask(ItemMode(Mode(Pairs, Exempt), entry), entry)
  {
    if entry.Obj? {
      var fields, m := entry.fields, Mode(Pair, Exempt);
      forall i | 0 <= i < |fields|
        ensures MaskField(m, fields[i])
          == if fields[i].key == "value" then Field("value", Str(REDACTED)) else fields[i]
      {
        NothingElsewhere(fields[i].value);
      }
      assert BlankValue(entry).fields == Mask(m, entry).fields;
    } else {
      NothingElsewhere(entry);
    }
  }

  lemma {:induction false} BlankValuesIsMask(items: seq<Json>)
    ensures Arr(BlankValues(items)) == Mask(Mode(Pairs, Exempt), Arr(items))
  {
    forall i | 0 <= i < |items| ensures BlankValue(items[i]) == MaskItem(Mode(Pairs, Exempt), items[i]) {
      BlankValueIsMask(items[i]);
    }
    assert BlankValues(items) == Mask(Mode(Pairs, Exempt), Arr(items)).items;
  }

  lemma {:induction false} InlineIsMask(node: Json)
    ensures RedactInline(node) == Mask(Mode(Inside, Exempt), node)
    decreases node, 0
  {
    var m := Mode(Inside, Exempt);
    match node
    case Obj(fields) =>
      forall i | 0 <= i < |fields| ensures RedactInlineField(fields[i]) == MaskField(m, fields[i]) {
        InlineFieldIsMask(fields[i]);
      }
      assert RedactInline(node).fields == Mask(m, node).fields;
    case Arr(items) =>
      forall i | 0 <= i < |items| ensures RedactInline(items[i]) == MaskItem(m, items[i]) {
        InlineIsMask(items[i]);
      }
      assert RedactInline(node).items == Mask(m, node).items;
    case _ =>
  }

  lemma {:induction false} InlineFieldIsMask(f: Field)
    ensures RedactInlineField(f) == MaskField(Mode(Inside, Exempt), f)
    decreases f, 1
  {
    if IsArgv(f.key) && f.value.Arr? {
      BlankIsMask(f.value.items);
    } else if f.key == "httpHeaders" && f.value.Arr? {
      BlankValuesIsMask(f.value.items);
    } else if f.key != "env" {
      InlineIsMask(f.value);
    } else {
      NothingElsewhere(f.value);
    }
  }

  /** The environment first and the inline values second. */
  lemma {:induction false} ContainerFieldIsMask(f: Field)
    ensures (if f.key == "env" && f.value.Arr? then Field("env", Arr(BlankValues(f.value.items))) else RedactInlineField(f))
      == MaskField(Mode(Container, Exempt), f)
  {
    if f.key == "env" && f.value.Arr? {
      BlankValuesIsMask(f.value.items);
    } else {
      InlineFieldIsMask(f);
    }
  }

  lemma {:induction false} ContainerIsMask(item: Json)
    ensures RedactContainer(item) == MaskItem(Mode(Containers, Exempt), item)
  {
    if item.Obj? {
      var fields, m := item.fields, Mode(Container, Exempt);
      forall i | 0 <= i < |fields| ensures RedactInlineField(RedactEnv(fields)[i]) == MaskField(m, fields[i]) {
        ContainerFieldIsMask(fields[i]);
      }
      assert RedactContainer(item).fields == Mask(m, item).fields;
    } else {
      NothingElsewhere(item);
    }
  }

  lemma {:induction false} ContainersAreMask(items: seq<Json>)
    ensures Arr(RedactContainers(items)) == Mask(Mode(Containers, Exempt), Arr(items))
  {
    forall i | 0 <= i < |items| ensures RedactContainer(items[i]) == MaskItem(Mode(Containers, Exempt), items[i]) {
      ContainerIsMask(items[i]);
    }
    assert RedactContainers(items) == Mask(Mode(Containers, Exempt), Arr(items)).items;
  }

  lemma {:induction false} ObjectIsMask(node: Json)
    ensures RedactObject(node) == Mask(Mode(Elsewhere, Anywhere), node)
    decreases node, 0
  {
    var m := Mode(Elsewhere, Anywhere);
    match node
    case Obj(fields) =>
      forall i | 0 <= i < |fields| ensures RedactObjectField(fields[i]) == MaskField(m, fields[i]) {
        ObjectFieldIsMask(fields[i]);
      }
      assert RedactObject(node).fields == Mask(m, node).fields;
    case Arr(items) =>
      forall i | 0 <= i < |items| ensures RedactObject(items[i]) == MaskItem(m, items[i]) {
        ObjectIsMask(items[i]);
      }
      assert RedactObject(node).items == Mask(m, node).items;
    case _ =>
  }

  lemma {:induction false} ObjectFieldIsMask(f: Field)
    ensures RedactObjectField(f) == MaskField(Mode(Elsewhere, Anywhere), f)
    decreases f, 1
  {
    if IsData(f.key) && f.value.Obj? {
      assert BlankAll(f.value.fields) == Mask(Mode(Elsewhere, Data), f.value).fields;
    } else if f.key == "annotations" && f.value.Obj? {
      var fields, m := f.value.fields, Mode(Elsewhere, Annotations);
      forall i | 0 <= i < |fields| ensures BlankLastApplied(fields)[i] == MaskField(m, fields[i]) {
        NothingElsewhere(fields[i].value);
      }
      assert BlankLastApplied(fields) == Mask(m, f.value).fields;
    } else {
      ObjectIsMask(f.value);
    }
  }

  const TOP: Mode := Mode(Root, Anywhere)

  /** The code's passes blank exactly the withheld positions. */
  lemma {:induction false} PassesAreOneMask(spec: seq<Field>)
    ensures RedactPodSpec(spec) == Mask(TOP, Obj(spec))
  {
    var m := Mode(Root, Exempt);
    var first := ContainersRedacted(spec);
    forall i | 0 <= i < |spec| ensures first[i] == MaskField(m, spec[i]) {
      if IsContainerList(spec[i].key) && spec[i].value.Arr? {
        ContainersAreMask(spec[i].value.items);
      } else {
        NothingElsewhere(spec[i].value);
      }
    }
    assert first == Mask(m, Obj(spec)).fields;
    ObjectIsMask(Obj(first));
    MasksCompose(Root, Anywhere, Obj(spec));
  }

  // ----- What comes out

  /** The two trees agree at every position that is not withheld. */
  predicate Agree(m: Mode, a: Json, b: Json)
    decreases a, 0
  {
    match a
    case Obj(fields) => b.Obj? && |b.fields| == |fields|
      && forall i | 0 <= i < |fields| :: AgreeFields(m, fields[i], b.fields[i])
    case Arr(items) => b.Arr? && |b.items| == |items|
      && forall i | 0 <= i < |items| :: AgreeItems(m, items[i], b.items[i])
    case _ => a == b
  }

  predicate AgreeFields(m: Mode, f: Field, g: Field)
    decreases f, 1
  {
    f.key == g.key && (FieldWithheld(m, f.key) || Agree(FieldMode(m, f.key, f.value), f.value, g.value))
  }

  predicate AgreeItems(m: Mode, x: Json, y: Json)
    decreases x, 1
  {
    ItemWithheld(m) || Agree(ItemMode(m, x), x, y)
  }

  lemma {:induction false} KindDecidesFieldMode(m: Mode, key: string, x: Json, y: Json)
    requires SameKind(x, y)
    ensures FieldMode(m, key, x) == FieldMode(m, key, y) && ItemMode(m, x) == ItemMode(m, y)
  {
  }

  /** The output depends on nothing that is withheld, and on everything else: two
      trees come out equal exactly when they agree outside the withheld positions. */
  lemma {:induction false} EqualExactlyWhenAgreeing(m: Mode, a: Json, b: Json)
    ensures Mask(m, a) == Mask(m, b) <==> Agree(m, a, b)
    decreases a, 0
  {
    match a
    case Obj(fields) =>
      if b.Obj? && |b.fields| == |fields| {
        forall i | 0 <= i < |fields|
          ensures MaskField(m, fields[i]) == MaskField(m, b.fields[i]) <==> AgreeFields(m, fields[i], b.fields[i])
        {
          FieldsEqualExactly(m, fields[i], b.fields[i]);
        }
        if Agree(m, a, b) {
          assert Mask(m, a).fields == Mask(m, b).fields;
        } else {
          var i :| 0 <= i < |fields| && !AgreeFields(m, fields[i], b.fields[i]);
          assert Mask(m, a).fields[i] != Mask(m, b).fields[i];
        }
      } else if b.Obj? {
        assert |Mask(m, a).fields| != |Mask(m, b).fields|;
      }
    case Arr(items) =>
      if b.Arr? && |b.items| == |items| {
        forall i | 0 <= i < |items|
          ensures MaskItem(m, items[i]) == MaskItem(m, b.items[i]) <==> AgreeItems(m, items[i], b.items[i])
        {
          ItemsEqualExactly(m, items[i], b.items[i]);
        }
        if Agree(m, a, b) {
          assert Mask(m, a).items == Mask(m, b).items;
        } else {
          var i :| 0 <= i < |items| && !AgreeItems(m, items[i], b.items[i]);
          assert Mask(m, a).items[i] != Mask(m, b).items[i];
        }
      } else if b.Arr? {
        assert |Mask(m, a).items| != |Mask(m, b).items|;
      }
    case _ =>
  }

  lemma {:induction false} FieldsEqualExactly(m: Mode, f: Field, g: Field)
    ensures MaskField(m, f) == MaskField(m, g) <==> AgreeFields(m, f, g)
    decreases f, 1
  {
    if f.key == g.key && !FieldWithheld(m, f.key) {
      MaskKeepsKind(FieldMode(m, f.key, f.value), f.value);
      MaskKeepsKind(FieldMode(m, f.key, g.value), g.value);
      if SameKind(f.value, g.value) {
        KindDecidesFieldMode(m, f.key, f.value, g.value);
        EqualExactlyWhenAgreeing(FieldMode(m, f.key, f.value), f.value, g.value);
      } else {
        AgreeingHaveOneKind(FieldMode(m, f.key, f.value), f.value, g.value);
      }
    }
  }

  lemma {:induction false} ItemsEqualExactly(m: Mode, x: Json, y: Json)
    ensures MaskItem(m, x) == MaskItem(m, y) <==> AgreeItems(m, x, y)
    decreases x, 1
  {
    if !ItemWithheld(m) {
      MaskKeepsKind(ItemMode(m, x), x);
      MaskKeepsKind(ItemMode(m, y), y);
      if SameKind(x, y) {
        KindDecidesFieldMode(m, "", x, y);
        EqualExactlyWhenAgreeing(ItemMode(m, x), x, y);
      } else {
        AgreeingHaveOneKind(ItemMode(m, x), x, y);
      }
    }
  }

  lemma {:induction false} AgreeingHaveOneKind(m: Mode, a: Json, b: Json)
    ensures Agree(m, a, b) ==> SameKind(a, b)
  {
  }

  /** Redacting what has been redacted changes nothing. */
  lemma {:induction false} MaskTwice(m: Mode, node: Json)
    ensures Mask(m, Mask(m, node)) == Mask(m, node)
    decreases node, 0
  {
    match node
    case Obj(fields) =>
      forall i | 0 <= i < |fields| ensures MaskField(m, MaskField(m, fields[i])) == MaskField(m, fields[i]) {
        FieldTwice(m, fields[i]);
      }
      assert Mask(m, Mask(m, node)).fields == Mask(m, node).fields;
    case Arr(items) =>
      forall i | 0 <= i < |items| ensures MaskItem(m, MaskItem(m, items[i])) == MaskItem(m, items[i]) {
        ItemTwice(m, items[i]);
      }
      assert Mask(m, Mask(m, node)).items == Mask(m, node).items;
    case _ =>
  }

  lemma {:induction false} FieldTwice(m: Mode, f: Field)
    ensures MaskField(m, MaskField(m, f)) == MaskField(m, f)
    decreases f, 1
  {
    var inner := FieldMode(m, f.key, f.value);
    MaskTwice(inner, f.value);
    MaskKeepsKind(inner, f.value);
    KindDecidesFieldMode(m, f.key, Mask(inner, f.value), f.value);
  }

  lemma {:induction false} ItemTwice(m: Mode, item: Json)
    ensures MaskItem(m, MaskItem(m, item)) == MaskItem(m, item)
    decreases item, 1
  {
    var inner := ItemMode(m, item);
    MaskTwice(inner, item);
    MaskKeepsKind(inner, item);
    KindDecidesFieldMode(m, "", Mask(inner, item), item);
  }

  // ----- Position by position

  /** The node that the child numbers in `path` lead to. */
  function Find(node: Json, path: seq<nat>): Option<Json> {
    if path == [] then Some(node)
    else match node
      case Obj(fields) => if path[0] < |fields| then Find(fields[path[0]].value, path[1..]) else None
      case Arr(items) => if path[0] < |items| then Find(items[path[0]], path[1..]) else None
      case _ => None
  }

  /** Nothing on the way to the position is withheld. */
  predicate Visible(m: Mode, node: Json, path: seq<nat>)
    decreases |path|
  {
    path == [] || match node
      case Obj(fields) => path[0] < |fields| && !FieldWithheld(m, fields[path[0]].key)
        && Visible(FieldMode(m, fields[path[0]].key, fields[path[0]].value), fields[path[0]].value, path[1..])
      case Arr(items) => path[0] < |items| && !ItemWithheld(m)
        && Visible(ItemMode(m, items[path[0]]), items[path[0]], path[1..])
      case _ => false
  }

  /** The position is withheld, and nothing on the way to it is. */
  predicate FirstHidden(m: Mode, node: Json, path: seq<nat>) {
    path != [] && Find(node, path).Some? && Visible(m, node, path[..|path| - 1]) && !Visible(m, node, path)
  }

  /** The same leaf, the same keys in the same order, or a list of the same length. */
  predicate SameTop(a: Json, b: Json) {
    match a
    case Obj(fields) => b.Obj? && |b.fields| == |fields|
      && forall i | 0 <= i < |fields| :: b.fields[i].key == fields[i].key
    case Arr(items) => b.Arr? && |b.items| == |items|
    case _ => a == b
  }

  /** What is visible survives: leaves, keys and lengths. */
  lemma {:induction false} VisibleSurvives(m: Mode, node: Json, path: seq<nat>)
    requires Visible(m, node, path)
    ensures Find(node, path).Some? && Find(Mask(m, node), path).Some?
    ensures SameTop(Find(node, path).value, Find(Mask(m, node), path).value)
    decreases |path|
  {
    if path != [] {
      match node
      case Obj(fields) =>
        var f := fields[path[0]];
        VisibleSurvives(FieldMode(m, f.key, f.value), f.value, path[1..]);
      case Arr(items) =>
        VisibleSurvives(ItemMode(m, items[path[0]]), items[path[0]], path[1..]);
      case _ =>
    }
  }

  lemma {:induction false} OneStep(m: Mode, node: Json, i: nat)
    requires Find(node, [i]).Some? && !Visible(m, node, [i])
    ensures Find(Mask(m, node), [i]) == Some(Str(REDACTED))
  {
    assert [i][1..] == [];
    match node
    case Obj(fields) =>
      var f := fields[i];
      assert Visible(FieldMode(m, f.key, f.value), f.value, []);
      assert FieldWithheld(m, f.key);
      assert Mask(m, node).fields[i] == Field(f.key, Str(REDACTED));
      assert Find(Str(REDACTED), []) == Some(Str(REDACTED));
    case Arr(items) =>
      assert Visible(ItemMode(m, items[i]), items[i], []);
      assert Mask(m, node).items[i] == Str(REDACTED);
      assert Find(Str(REDACTED), []) == Some(Str(REDACTED));
    case _ =>
  }

  /** The first withheld position on the way somewhere holds the mark and nothing else. */
  lemma {:induction false} HiddenIsBlank(m: Mode, node: Json, path: seq<nat>)
    requires FirstHidden(m, node, path)
    ensures Find(Mask(m, node), path) == Some(Str(REDACTED))
    decreases |path|
  {
    if |path| > 1 {
      var front := path[..|path| - 1];
      assert front[0] == path[0] && front[1..] == path[1..][..|path| - 2];
      match node
      case Obj(fields) =>
        var f := fields[path[0]];
        HiddenIsBlank(FieldMode(m, f.key, f.value), f.value, path[1..]);
      case Arr(items) =>
        HiddenIsBlank(ItemMode(m, items[path[0]]), items[path[0]], path[1..]);
      case _ =>
    } else {
      assert path == [path[0]];
      OneStep(m, node, path[0]);
    }
  }

  // ----- The same, of the code

  /** Two specs are redacted to the same spec exactly when they agree at every
      position that is not withheld. */
  lemma {:induction false} RedactionIsExact(a: seq<Field>, b: seq<Field>)
    ensures RedactPodSpec(a) == RedactPodSpec(b) <==> Agree(TOP, Obj(a), Obj(b))
  {
    PassesAreOneMask(a);
    PassesAreOneMask(b);
    EqualExactlyWhenAgreeing(TOP, Obj(a), Obj(b));
  }

  lemma {:induction false} RedactionIsIdempotent(spec: seq<Field>)
    ensures RedactPodSpec(spec).Obj? && RedactPodSpec(RedactPodSpec(spec).fields) == RedactPodSpec(spec)
  {
    PassesAreOneMask(spec);
    var once := RedactPodSpec(spec);
    PassesAreOneMask(once.fields);
    MaskTwice(TOP, Obj(spec));
  }

  /** Every position of a redacted spec is the visible original or the mark. */
  lemma {:induction false} RedactionByPosition(spec: seq<Field>, path: seq<nat>)
    ensures Visible(TOP, Obj(spec), path) ==>
      && Find(Obj(spec), path).Some? && Find(RedactPodSpec(spec), path).Some?
      && SameTop(Find(Obj(spec), path).value, Find(RedactPodSpec(spec), path).value)
    ensures FirstHidden(TOP, Obj(spec), path) ==> Find(RedactPodSpec(spec), path) == Some(Str(REDACTED))
  {
    PassesAreOneMask(spec);
    hide Visible, Mask, Find, SameTop, RedactPodSpec;
    if Visible(TOP, Obj(spec), path) {
      VisibleSurvives(TOP, Obj(spec), path);
    } else if FirstHidden(TOP, Obj(spec), path) {
      HiddenIsBlank(TOP, Obj(spec), path);
    }
  }
}
