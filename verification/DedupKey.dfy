/**
 The key under which firings count as the same alert.
 */
module DedupKey {
  import opened Results
  import opened DiffParser
  import DiffReading
  import opened Paths

  /** `(value or "unknown").strip().lower()`. */
  function Part(value: Option<string>): string {
    Lower(Strip(if value.None? || value.value == "" then "unknown" else value.value))
  }

  /** `compute_dedup_key`. */
  function Key(alertname: Option<string>, service: Option<string>, severity: Option<string>): string {
    Part(alertname) + ":" + Part(service) + ":" + Part(severity)
  }

  /** A trimmed text in lower case. */
  predicate Canonical(s: string) {
    Strip(s) == s && Lower(s) == s
  }

  /** Two colons of the key with a canonical text before, between and behind them. */
  predicate CutAt(key: string, i: int, j: int) {
    && 0 <= i < j < |key| && key[i] == ':' && key[j] == ':'
    && Canonical(key[..i]) && Canonical(key[i + 1..j]) && Canonical(key[j + 1..])
  }

  /** A missing or empty field counts as "unknown"; any other loses the white space around it
      and its upper case. */
  lemma {:induction false} PartExactly(left: string, s: string, right: string)
    requires DiffReading.Blanks(left) && DiffReading.Blanks(right) && DiffReading.Trimmed(s)
    ensures Part(None) == "unknown" && Part(Some("")) == "unknown"
    ensures left + s + right != "" ==> Part(Some(left + s + right)) == Lower(s)
  {
    DiffReading.StripExactly(left, s, right);
    PlainPart("unknown", 'u', 'n');
  }

  // ----- The parts of keys are the canonical texts

  lemma {:induction false} StripEnds(s: string)
    ensures Strip(Strip(s)) == Strip(s)
    ensures Strip(s) == "" || (!IsSpace(Strip(s)[0]) && !IsSpace(Strip(s)[|Strip(s)| - 1]))
  {
    var left := StripLeft(s);
    LeftEnd(s);
    RightEnd(left);
    StripExactly(Strip(s));
  }

  lemma {:induction false} LeftEnd(s: string)
    ensures StripLeft(s) == "" || !IsSpace(StripLeft(s)[0])
  {
    if s != "" && IsSpace(s[0]) {
      LeftEnd(s[1..]);
    }
  }

  lemma {:induction false} RightEnd(s: string)
    ensures StripRight(s) <= s
    ensures StripRight(s) == "" || !IsSpace(StripRight(s)[|StripRight(s)| - 1])
  {
    if s != "" && IsSpace(s[|s| - 1]) {
      RightEnd(s[..|s| - 1]);
    }
  }

  lemma {:induction false} LowerStays(s: string)
    ensures Lower(Lower(s)) == Lower(s)
    ensures Strip(s) == s ==> Strip(Lower(s)) == Lower(s)
  {
    StripExactly(s);
    StripExactly(Lower(s));
  }

  lemma {:induction false} PartIsCanonical(value: Option<string>)
    ensures Canonical(Part(value))
  {
    hide Strip, Lower;
    var text := if value.None? || value.value == "" then "unknown" else value.value;
    StripEnds(text);
    LowerStays(Strip(text));
  }

  /** A field that has the canonical text `s` as its part. */
  function FieldOf(s: string): Option<string> {
    Some(if s == "" then " " else s)
  }

  lemma {:induction false} CanonicalIsPart(s: string)
    requires Canonical(s)
    ensures Part(FieldOf(s)) == s
  {
    if s == "" {
      assert StripLeft(" ") == "" && Lower("") == "";
    }
  }

  // ----- When a key belongs to one alert

  /** Every alert with this key has the same name, service and severity, up to
      case and surrounding white space. */
  ghost predicate OwnKey(name: Option<string>, service: Option<string>, severity: Option<string>) {
    forall n, s, v | Key(n, s, v) == Key(name, service, severity) ::
      Part(n) == Part(name) && Part(s) == Part(service) && Part(v) == Part(severity)
  }

  lemma {:induction false} KeyIsCut(name: Option<string>, service: Option<string>, severity: Option<string>)
    ensures var key, i, j := Key(name, service, severity), |Part(name)|, |Part(name)| + 1 + |Part(service)|;
      && CutAt(key, i, j)
      && key[..i] == Part(name) && key[i + 1..j] == Part(service) && key[j + 1..] == Part(severity)
  {
    PartIsCanonical(name);
    PartIsCanonical(service);
    PartIsCanonical(severity);
    hide Part, Canonical;
    var key, i, j := Key(name, service, severity), |Part(name)|, |Part(name)| + 1 + |Part(service)|;
    assert key[..i] == Part(name) && key[i + 1..j] == Part(service) && key[j + 1..] == Part(severity);
  }

  lemma {:induction false} Pieces(key: string, i: int, j: int)
    requires 0 <= i < j < |key| && key[i] == ':' && key[j] == ':'
    ensures key[..i] + ":" + key[i + 1..j] + ":" + key[j + 1..] == key
  {
    assert key[..i] + ":" + key[i + 1..j] == key[..j];
    assert key[..j] + ":" + key[j + 1..] == key;
  }

  lemma {:induction false} CutIsKey(key: string, i: int, j: int)
    requires CutAt(key, i, j)
    ensures Key(FieldOf(key[..i]), FieldOf(key[i + 1..j]), FieldOf(key[j + 1..])) == key
  {
    CanonicalIsPart(key[..i]);
    CanonicalIsPart(key[i + 1..j]);
    CanonicalIsPart(key[j + 1..]);
    Pieces(key, i, j);
    hide Part, Canonical, FieldOf;
  }

  /** An alert's key is its own exactly when the key has one cut only: no other
      two colons in it stand between trimmed lower-case texts. */
  lemma {:induction false} OwnKeyExactly(name: Option<string>, service: Option<string>, severity: Option<string>)
    ensures OwnKey(name, service, severity) <==>
      forall i, j | CutAt(Key(name, service, severity), i, j) ::
        i == |Part(name)| && j == |Part(name)| + 1 + |Part(service)|
  {
    hide Part, Canonical, FieldOf, CutAt;
    var key := Key(name, service, severity);
    KeyIsCut(name, service, severity);
    if OwnKey(name, service, severity) {
      forall i, j | CutAt(key, i, j) ensures i == |Part(name)| && j == |Part(name)| + 1 + |Part(service)| {
        OwnCut(name, service, severity, i, j);
      }
    } else {
      var n, s, v :| Key(n, s, v) == key
        && !(Part(n) == Part(name) && Part(s) == Part(service) && Part(v) == Part(severity));
      KeyIsCut(n, s, v);
    }
  }

  lemma {:induction false} OwnCut(name: Option<string>, service: Option<string>, severity: Option<string>, i: int, j: int)
    requires OwnKey(name, service, severity) && CutAt(Key(name, service, severity), i, j)
    ensures i == |Part(name)| && j == |Part(name)| + 1 + |Part(service)|
  {
    var key := Key(name, service, severity);
    CutIsKey(key, i, j);
    CanonicalIsPart(key[..i]);
    CanonicalIsPart(key[i + 1..j]);
    hide Part, Canonical, FieldOf;
  }

  /** An alert without colons has its key to itself. */
  lemma {:induction false} PlainKeyIsOwn(name: Option<string>, service: Option<string>, severity: Option<string>)
    requires ':' !in Part(name) && ':' !in Part(service) && ':' !in Part(severity)
    ensures OwnKey(name, service, severity)
  {
    hide Part, OwnKey;
    OwnKeyExactly(name, service, severity);
    var key, i, j := Key(name, service, severity), |Part(name)|, |Part(name)| + 1 + |Part(service)|;
    KeyIsCut(name, service, severity);
    assert forall k | 0 <= k < |key| && key[k] == ':' :: k == i || k == j;
  }

  lemma {:induction false} PlainPart(s: string, first: char, last: char)
    requires |s| >= 1 && s[0] == first && s[|s| - 1] == last && 'a' <= first <= 'z' && 'a' <= last <= 'z'
    requires Lower(s) == s
    ensures Part(Some(s)) == s
  {
  }

  /** With colons, different alerts can share a key. */
  lemma {:induction false} ColonsCollide()
    ensures Part(Some("a:b")) != Part(Some("a"))
    ensures Key(Some("a:b"), Some("c"), Some("d")) == Key(Some("a"), Some("b:c"), Some("d"))
  {
    PlainPart("a:b", 'a', 'b');
    PlainPart("a", 'a', 'a');
    PlainPart("c", 'c', 'c');
    PlainPart("b:c", 'b', 'c');
    hide Part;
    assert "a:b" + ":" + "c" == "a" + ":" + "b:c";
  }
}
