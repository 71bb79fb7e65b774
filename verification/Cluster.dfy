/**
 The read-only cluster client: every request it sends is on a trace, every answer is
 arbitrary. The owner walk runs over it.
 */
module Cluster {
  import opened Results
  import opened Ordering
  import opened Events

  /** An error, nothing there, or something. */
  datatype Answer<T> = Error | Missing | Found(value: T)

  /** One entry of `ownerReferences`. */
  datatype OwnerLink = OwnerLink(controller: bool, api: string, kind: string, name: string)

  /** One entry of a pod's `containerStatuses`. */
  datatype Container = Container(ready: bool, restarts: int)

  /** What is read off an API object; `running` says that a pod's phase is Running or
      Succeeded; an owner entry that is not an object is None. */
  datatype Object = Object(
    name: string,
    owners: seq<Option<OwnerLink>>,
    labels: map<string, string>,
    node: Option<string>,
    running: bool,
    containers: seq<Container>,
    selector: Option<string>)

  datatype FluxRef = FluxRef(kind: string, namespace: string, name: string)

  /** What is read off a Flux object besides what it was asked for under. */
  datatype FluxObject = FluxObject(ready: Option<bool>, source: Option<FluxRef>)

  datatype Request =
    | PodRead(namespace: string, name: string)
    | PodList(namespace: string, selector: string)
    | OwnerRead(api: string, plural: string, namespace: string, name: string)
    | ClaimRead(namespace: string, name: string)
    | EventList(namespace: string, name: string)
    | FluxRead(kind: string, namespace: string, name: string)
    | NodeRead(name: string)

  // ----- Names

  predicate AlphaNum(c: char) {
    'a' <= c <= 'z' || '0' <= c <= '9'
  }

  predicate CoreName(s: string) {
    && 1 <= |s| <= 253 && AlphaNum(s[0]) && AlphaNum(s[|s| - 1])
    && forall i | 0 <= i < |s| :: AlphaNum(s[i]) || s[i] == '-' || s[i] == '.'
  }

  predicate TwoDots(s: string) {
    exists i | 0 <= i < |s| - 1 :: s[i] == '.' && s[i + 1] == '.'
  }

  /** What `_segment` lets through; the pattern's `$` also accepts one final newline. */
  predicate LegalName(s: string) {
    !TwoDots(s) && (CoreName(s) || (s != "" && s[|s| - 1] == '\n' && CoreName(s[..|s| - 1])))
  }

  /** A legal name stays within its path segment. */
  lemma {:induction false} LegalNamesAreSegments(s: string)
    requires LegalName(s)
    ensures '/' !in s && '?' !in s && '#' !in s && '%' !in s && s != "" && s != "." && s != ".."
  {
    if !CoreName(s) {
      var core := s[..|s| - 1];
      assert s == core + ['\n'];
      assert forall i | 0 <= i < |core| :: core[i] == s[i];
    }
  }

  /** Lower case letters, digits, and inside a name also dashes and dots. */
  predicate NameChar(c: char, inside: bool) {
    97 <= c as int <= 122 || 48 <= c as int <= 57 || (inside && (c == '-' || c == '.'))
  }

  /** What the pattern says of a name, told by its characters. */
  predicate Pattern(s: string) {
    && 1 <= |s| <= 253 && NameChar(s[0], false) && NameChar(s[|s| - 1], false)
    && forall i | 0 <= i < |s| :: NameChar(s[i], true)
  }

  /** A name is let through if and only if it follows the pattern, apart from one final
      newline, and no dot follows a dot. */
  lemma {:induction false} LegalExactly(s: string)
    ensures LegalName(s) <==> (
      && (exists core :: Pattern(core) && (s == core || s == core + "\n"))
      && !(exists a, b :: s == a + ".." + b))
  {
    var core := if s != "" && s[|s| - 1] == '\n' then s[..|s| - 1] else s;
    assert s == core || s == core + "\n";
    CoreExactly(core);
    CoreExactly(s);
    forall c | Pattern(c) && (s == c || s == c + "\n") ensures c == core {
      assert s == c + "\n" ==> s[..|s| - 1] == c;
    }
    DotsExactly(s);
    hide CoreName, Pattern, TwoDots;
  }

  lemma {:induction false} CoreExactly(s: string)
    ensures CoreName(s) <==> Pattern(s)
    ensures Pattern(s) ==> s[|s| - 1] != '\n'
  {
  }

  lemma {:induction false} DotsExactly(s: string)
    ensures TwoDots(s) <==> exists a, b :: s == a + ".." + b
  {
    if TwoDots(s) {
      var i :| 0 <= i < |s| - 1 && s[i] == '.' && s[i + 1] == '.';
      assert s == s[..i] + ".." + s[i + 2..];
    }
    if a, b :| s == a + ".." + b {
      assert s[|a|] == '.' && s[|a| + 1] == '.';
    }
  }

  // ----- The client

  class Client {
    const objects: nat -> Answer<Object>
    const lists: nat -> Answer<seq<Object>>
    const eventLists: nat -> Answer<seq<Event>>
    const fluxObjects: nat -> Answer<FluxObject>
    var trace: seq<Request>

    constructor (objects: nat -> Answer<Object>, lists: nat -> Answer<seq<Object>>,
                 eventLists: nat -> Answer<seq<Event>>, fluxObjects: nat -> Answer<FluxObject>)
      ensures trace == []
      ensures this.objects == objects && this.lists == lists
      ensures this.eventLists == eventLists && this.fluxObjects == fluxObjects
    {
      this.objects, this.lists, this.eventLists, this.fluxObjects := objects, lists, eventLists, fluxObjects;
      trace := [];
    }

    /** An object read; a name that is not legal is refused before anything is sent. */
    method Get(request: Request, legal: bool) returns (r: Answer<Object>)
      modifies this`trace
      ensures trace == if legal then old(trace) + [request] else old(trace)
      ensures r == if legal then objects(|old(trace)|) else Error
    {
      if !legal { return Error; }
      trace := trace + [request];
      return objects(|trace| - 1);
    }

    method ListPods(namespace: string, selector: string) returns (r: Answer<seq<Object>>)
      modifies this`trace
      ensures trace == if LegalName(namespace) then old(trace) + [PodList(namespace, selector)] else old(trace)
      ensures r == if LegalName(namespace) then lists(|old(trace)|) else Error
    {
      if !LegalName(namespace) { return Error; }
      trace := trace + [PodList(namespace, selector)];
      return lists(|trace| - 1);
    }

    /** `list_events`; an answer of nothing is an empty list, and every list is sorted. */
    method ListEvents(namespace: string, name: string) returns (r: Option<seq<Event>>)
      modifies this`trace
      ensures trace == if LegalName(namespace) && LegalName(name) then old(trace) + [EventList(namespace, name)] else old(trace)
      ensures r == if LegalName(namespace) && LegalName(name) then Listed(eventLists(|old(trace)|)) else None
    {
      if !LegalName(namespace) || !LegalName(name) { return None; }
      trace := trace + [EventList(namespace, name)];
      return Listed(eventLists(|trace| - 1));
    }

    method GetFlux(ref: FluxRef) returns (r: Answer<FluxObject>)
      modifies this`trace
      ensures trace == if LegalName(ref.namespace) && LegalName(ref.name)
        then old(trace) + [FluxRead(ref.kind, ref.namespace, ref.name)] else old(trace)
      ensures r == if LegalName(ref.namespace) && LegalName(ref.name) then fluxObjects(|old(trace)|) else Error
    {
      if !LegalName(ref.namespace) || !LegalName(ref.name) { return Error; }
      trace := trace + [FluxRead(ref.kind, ref.namespace, ref.name)];
      return fluxObjects(|trace| - 1);
    }

    /** `resolve_owner_chain`. */
    method ResolveOwnerChain(namespace: string, obj: Object, maxDepth: nat) returns (chain: seq<Owner>)
      modifies this`trace
      ensures chain == Climb(objects, |old(trace)|, namespace, obj, {}, maxDepth).chain
      ensures trace == old(trace) + Climb(objects, |old(trace)|, namespace, obj, {}, maxDepth).asks
    {
      hide Climb, ControllerRef, Readable, Plural, LegalName;
      chain := [];
      var seen := {};
      var current := obj;
      ghost var whole := Climb(objects, |trace|, namespace, obj, {}, maxDepth);
      ghost var sent := [];
      var k := 0;
      while k < maxDepth
        invariant 0 <= k <= maxDepth && trace == old(trace) + sent
        invariant Adds(whole, chain, sent, Climb(objects, |trace|, namespace, current, seen, maxDepth - k))
      {
        ClimbUnfolds(objects, |trace|, namespace, current, seen, maxDepth - k);
        var raw := ControllerRef(current.owners);
        if raw.None? { return; }
        var link := raw.value;
        if (link.kind, link.name) in seen { return; }
        if !Readable(link) {
          chain := chain + [Owner(link.kind, link.name, false, map[])];
          return;
        }
        var request := OwnerRead(link.api, Plural(link), namespace, link.name);
        var parent := Get(request, LegalName(namespace) && LegalName(link.name));
        if !parent.Found? {
          chain := chain + [Owner(link.kind, link.name, false, map[])];
          return;
        }
        var owner := Owner(link.kind, link.name, true, parent.value.labels);
        chain, sent := chain + [owner], sent + [request];
        seen := seen + {(link.kind, link.name)};
        current := parent.value;
        k := k + 1;
      }
      ClimbUnfolds(objects, |trace|, namespace, current, seen, 0);
    }
  }

  /** `whole` is what has been collected so far, followed by `rest`. */
  ghost predicate Adds(whole: Climbed, chain: seq<Owner>, sent: seq<Request>, rest: Climbed) {
    whole.chain == chain + rest.chain && whole.asks == sent + rest.asks
  }

  function Listed(answer: Answer<seq<Event>>): Option<seq<Event>> {
    match answer
    case Error => None
    case Missing => Some([])
    case Found(events) => Some(Sort(ByTime, events))
  }

  // ----- The owner walk

  datatype Owner = Owner(kind: string, name: string, resolved: bool, labels: map<string, string>)

  /** `OWNER_KINDS`. */
  predicate Readable(link: OwnerLink) {
    if link.api == "apps/v1" then
      link.kind == "ReplicaSet" || link.kind == "Deployment" || link.kind == "StatefulSet" || link.kind == "DaemonSet"
    else link.api == "batch/v1" && (link.kind == "Job" || link.kind == "CronJob")
  }

  function Plural(link: OwnerLink): string
    requires Readable(link)
  {
    if link.kind == "ReplicaSet" then "replicasets"
    else if link.kind == "Deployment" then "deployments"
    else if link.kind == "StatefulSet" then "statefulsets"
    else if link.kind == "DaemonSet" then "daemonsets"
    else if link.kind == "Job" then "jobs"
    else "cronjobs"
  }

  /** `_controller_ref`: the first controller, or else the first reference there is. */
  function ControllerRef(owners: seq<Option<OwnerLink>>): Option<OwnerLink> {
    match FirstController(owners)
    case Some(link) => Some(link)
    case None => FirstLink(owners)
  }

  function FirstController(owners: seq<Option<OwnerLink>>): Option<OwnerLink> {
    if owners == [] then None
    else if owners[0].Some? && owners[0].value.controller then owners[0]
    else FirstController(owners[1..])
  }

  function FirstLink(owners: seq<Option<OwnerLink>>): Option<OwnerLink> {
    if owners == [] then None else if owners[0].Some? then owners[0] else FirstLink(owners[1..])
  }

  /** The reference is there and is not a controller's. */
  predicate Plain(entry: Option<OwnerLink>) {
    entry.Some? && !entry.value.controller
  }

  /** The walk follows the first controller, or, where no reference is a controller's, the
      first reference. */
  predicate Follows(owners: seq<Option<OwnerLink>>, i: nat)
    requires i < |owners|
  {
    owners[i].Some? && (
      if owners[i].value.controller then forall j | 0 <= j < i :: owners[j].None? || Plain(owners[j])
      else (forall j | 0 <= j < i :: owners[j].None?) && forall j | i < j < |owners| :: owners[j].None? || Plain(owners[j]))
  }

  lemma {:induction false} ControllerExactly(owners: seq<Option<OwnerLink>>, link: OwnerLink)
    ensures ControllerRef(owners) == Some(link) <==> exists i: nat | i < |owners| && Follows(owners, i) :: owners[i].value == link
    ensures ControllerRef(owners) == None <==> forall i | 0 <= i < |owners| :: owners[i].None?
  {
    var c := ControllerAt(owners);
    var i := LinkAt(owners);
    if c < |owners| {
      assert Follows(owners, c);
    } else if i < |owners| {
      assert Follows(owners, i);
    }
  }

  lemma {:induction false} ControllerAt(owners: seq<Option<OwnerLink>>) returns (i: nat)
    ensures i <= |owners| && forall j | 0 <= j < i :: owners[j].None? || Plain(owners[j])
    ensures i < |owners| ==> owners[i].Some? && owners[i].value.controller && FirstController(owners) == owners[i]
    ensures i == |owners| ==> FirstController(owners) == None
  {
    if owners == [] || (owners[0].Some? && owners[0].value.controller) {
      i := 0;
    } else {
      var k := ControllerAt(owners[1..]);
      i := k + 1;
      assert forall j | 0 < j < i :: owners[j] == owners[1..][j - 1];
    }
  }

  lemma {:induction false} LinkAt(owners: seq<Option<OwnerLink>>) returns (i: nat)
    ensures i <= |owners| && forall j | 0 <= j < i :: owners[j].None?
    ensures i < |owners| ==> owners[i].Some? && FirstLink(owners) == owners[i]
    ensures i == |owners| ==> FirstLink(owners) == None
  {
    if owners == [] || owners[0].Some? {
      i := 0;
    } else {
      var k := LinkAt(owners[1..]);
      i := k + 1;
      assert forall j | 0 < j < i :: owners[j] == owners[1..][j - 1];
    }
  }

  /** The kinds that can be read, under which API, and what their lists are called. */
  lemma {:induction false} ReadableExactly(link: OwnerLink, plural: string)
    ensures Readable(link) && Plural(link) == plural <==> (
      || (link.api == "apps/v1" && (
           || (link.kind == "ReplicaSet" && plural == "replicasets")
           || (link.kind == "Deployment" && plural == "deployments")
           || (link.kind == "StatefulSet" && plural == "statefulsets")
           || (link.kind == "DaemonSet" && plural == "daemonsets")))
      || (link.api == "batch/v1" && (
           || (link.kind == "Job" && plural == "jobs")
           || (link.kind == "CronJob" && plural == "cronjobs"))))
  {
    assert "apps/v1"[0] != "batch/v1"[0];
    assert "Job"[0] != "CronJob"[0];
  }

  datatype Climbed = Climbed(chain: seq<Owner>, asks: seq<Request>)

  /** One round of the walk: it stops, adds an owner it cannot go beyond, or goes up. */
  datatype Hop = Stop | Last(owner: Owner, sent: seq<Request>) | Up(owner: Owner, request: Request, parent: Object)

  function NextHop(objects: nat -> Answer<Object>, asked: nat, namespace: string, current: Object,
                   seen: set<(string, string)>): Hop {
    match ControllerRef(current.owners)
    case None => Stop
    case Some(link) =>
      var unresolved := Owner(link.kind, link.name, false, map[]);
      if (link.kind, link.name) in seen then Stop
      else if !Readable(link) || !LegalName(namespace) || !LegalName(link.name) then Last(unresolved, [])
      else
        var read := OwnerRead(link.api, Plural(link), namespace, link.name);
        match objects(asked)
        case Found(parent) => Up(Owner(link.kind, link.name, true, parent.labels), read, parent)
        case _ => Last(unresolved, [read])
  }

  /** The walk from `current`, when `asked` requests have been sent already. */
  function Climb(objects: nat -> Answer<Object>, asked: nat, namespace: string, current: Object,
                 seen: set<(string, string)>, depth: nat): Climbed
    decreases depth
  {
    if depth == 0 then Climbed([], [])
    else
      match NextHop(objects, asked, namespace, current, seen)
      case Stop => Climbed([], [])
      case Last(owner, sent) => Climbed([owner], sent)
      case Up(owner, request, parent) =>
        var rest := Climb(objects, asked + 1, namespace, parent, seen + {(owner.kind, owner.name)}, depth - 1);
        Climbed([owner] + rest.chain, [request] + rest.asks)
  }

  lemma {:induction false} ClimbUnfolds(objects: nat -> Answer<Object>, asked: nat, namespace: string, current: Object,
                                        seen: set<(string, string)>, depth: nat)
    ensures depth == 0 ==> Climb(objects, asked, namespace, current, seen, depth) == Climbed([], [])
    ensures depth > 0 ==>
      match NextHop(objects, asked, namespace, current, seen)
      case Stop => Climb(objects, asked, namespace, current, seen, depth) == Climbed([], [])
      case Last(owner, sent) => Climb(objects, asked, namespace, current, seen, depth) == Climbed([owner], sent)
      case Up(owner, request, parent) =>
        var rest := Climb(objects, asked + 1, namespace, parent, seen + {(owner.kind, owner.name)}, depth - 1);
        Climb(objects, asked, namespace, current, seen, depth) == Climbed([owner] + rest.chain, [request] + rest.asks)
  {
    hide NextHop;
  }

  // ----- What the walk is, on any graph

  /** The object the walk looks at in round `i`: the start, or the last parent read. */
  function Visited(objects: nat -> Answer<Object>, asked: nat, current: Object, i: nat): Option<Object> {
    if i == 0 then Some(current)
    else match objects(asked + i - 1) case Found(parent) => Some(parent) case _ => None
  }

  predicate NamedBy(owner: Owner, obj: Option<Object>) {
    obj.Some? && var link := ControllerRef(obj.value.owners);
    link.Some? && owner.kind == link.value.kind && owner.name == link.value.name
  }

  ghost predicate Distinct(chain: seq<Owner>, seen: set<(string, string)>) {
    && (forall i | 0 <= i < |chain| :: (chain[i].kind, chain[i].name) !in seen)
    && (forall i, j | 0 <= i < j < |chain| :: (chain[i].kind, chain[i].name) != (chain[j].kind, chain[j].name))
  }

  /** The walk is finite and repeats nothing, and only its last owner can be one that
      could not be read. */
  lemma {:induction false} WalkIsBounded(objects: nat -> Answer<Object>, asked: nat, namespace: string, current: Object,
                                         seen: set<(string, string)>, depth: nat)
    ensures var w := Climb(objects, asked, namespace, current, seen, depth);
      && |w.chain| <= depth && |w.chain| - 1 <= |w.asks| <= |w.chain| && Distinct(w.chain, seen)
      && forall i | 0 <= i < |w.chain| - 1 :: w.chain[i].resolved
    decreases depth
  {
    ClimbUnfolds(objects, asked, namespace, current, seen, depth);
    hide Climb, ControllerRef, Readable, Plural, LegalName;
    if depth > 0 {
      match NextHop(objects, asked, namespace, current, seen)
      case Up(owner, request, parent) =>
        var rest := Climb(objects, asked + 1, namespace, parent, seen + {(owner.kind, owner.name)}, depth - 1);
        WalkIsBounded(objects, asked + 1, namespace, parent, seen + {(owner.kind, owner.name)}, depth - 1);
        var chain := [owner] + rest.chain;
        assert forall i | 0 < i < |chain| :: chain[i] == rest.chain[i - 1];
      case _ =>
    }
  }

  /** Every owner is the controller reference of the object before it, and every
      request reads the owner it belongs to, in the namespace of the start. */
  lemma {:induction false} WalkFollowsControllers(objects: nat -> Answer<Object>, asked: nat, namespace: string,
                                                  current: Object, seen: set<(string, string)>, depth: nat, i: nat)
    requires i < |Climb(objects, asked, namespace, current, seen, depth).chain|
    ensures var w := Climb(objects, asked, namespace, current, seen, depth);
      && NamedBy(w.chain[i], Visited(objects, asked, current, i))
      && (i < |w.asks| ==> w.asks[i].OwnerRead? && w.asks[i].namespace == namespace && w.asks[i].name == w.chain[i].name)
      && (w.chain[i].resolved ==> i < |w.asks| && objects(asked + i).Found?)
    decreases depth
  {
    ClimbUnfolds(objects, asked, namespace, current, seen, depth);
    hide Climb, ControllerRef, Readable, Plural, LegalName;
    if i > 0 {
      var hop := NextHop(objects, asked, namespace, current, seen);
      WalkFollowsControllers(objects, asked + 1, namespace, hop.parent, seen + {(hop.owner.kind, hop.owner.name)},
                             depth - 1, i - 1);
      assert Visited(objects, asked, current, i) == Visited(objects, asked + 1, hop.parent, i - 1);
    }
  }

  /** The reasons to stop before the depth is reached: a root, a repeat, or a last owner
      whose kind or name cannot be read or whose read failed. */
  predicate StopsFor(objects: nat -> Answer<Object>, asked: nat, namespace: string, current: Object,
                     seen: set<(string, string)>, w: Climbed) {
    var n := |w.chain|;
    if n > 0 && !w.chain[n - 1].resolved then
      var last := Visited(objects, asked, current, n - 1);
      last.Some? && var link := ControllerRef(last.value.owners);
      link.Some? && (!Readable(link.value) || !LegalName(namespace) || !LegalName(link.value.name)
        || !objects(asked + n - 1).Found?)
    else
      var end := Visited(objects, asked, current, n);
      end.Some? && var link := ControllerRef(end.value.owners);
      link.None? || (link.value.kind, link.value.name) in seen
      || exists i | 0 <= i < n :: (w.chain[i].kind, w.chain[i].name) == (link.value.kind, link.value.name)
  }

  lemma {:induction false} WalkStopsForAReason(objects: nat -> Answer<Object>, asked: nat, namespace: string,
                                               current: Object, seen: set<(string, string)>, depth: nat)
    requires |Climb(objects, asked, namespace, current, seen, depth).chain| < depth
    ensures StopsFor(objects, asked, namespace, current, seen, Climb(objects, asked, namespace, current, seen, depth))
    decreases depth
  {
    ClimbUnfolds(objects, asked, namespace, current, seen, depth);
    hide Climb, ControllerRef, Readable, Plural, LegalName;
    match NextHop(objects, asked, namespace, current, seen)
    case Up(owner, request, parent) =>
      var more := seen + {(owner.kind, owner.name)};
      var rest := Climb(objects, asked + 1, namespace, parent, more, depth - 1);
      WalkStopsForAReason(objects, asked + 1, namespace, parent, more, depth - 1);
      var chain := [owner] + rest.chain;
      var n := |chain|;
      assert forall i | 0 < i < n :: chain[i] == rest.chain[i - 1];
      assert Visited(objects, asked, current, n) == Visited(objects, asked + 1, parent, n - 1);
      assert n > 1 ==> Visited(objects, asked, current, n - 1) == Visited(objects, asked + 1, parent, n - 2);
      assert chain[0] == owner && owner.resolved;
      var end := Visited(objects, asked, current, n);
      if n > 1 && !chain[n - 1].resolved {
        assert asked + 1 + (n - 1) - 1 == asked + n - 1;
      } else {
        var link := ControllerRef(end.value.owners);
        if link.Some? && (link.value.kind, link.value.name) !in seen {
          if (link.value.kind, link.value.name) != (owner.kind, owner.name) {
            var i :| 0 <= i < n - 1 && (rest.chain[i].kind, rest.chain[i].name) == (link.value.kind, link.value.name);
            assert chain[i + 1] == rest.chain[i];
          }
        }
      }
    case _ =>
  }
}
