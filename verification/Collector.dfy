/**
 What is asked of the cluster for one alert: only what the agent may read, only a
 bounded number of objects, and the newest events of all that came back.
 */
module Collector {
  import opened Results
  import opened Lines
  import opened Ordering
  import opened Events
  import opened Cluster

  // ----- The alert

  type Alert = map<string, string>

  /** `labels.get(name) or None`. */
  function Label(alert: Alert, name: string): Option<string> {
    if name in alert && alert[name] != "" then Some(alert[name]) else None
  }

  /** `alert_label`: the exported value wins, and a bare `pod` beside an exported
      namespace names the scrape target. */
  function AlertLabel(alert: Alert, name: string): Option<string> {
    if Label(alert, "exported_" + name).Some? then Label(alert, "exported_" + name)
    else if name == "pod" && Label(alert, "exported_namespace").Some? then None
    else Label(alert, name)
  }

  const FLUX_GROUP_SUFFIX := ".toolkit.fluxcd.io"

  predicate EndsWith(s: string, suffix: string) {
    |suffix| <= |s| && s[|s| - |suffix|..] == suffix
  }

  datatype AlertRef = AlertRef(kind: string, name: string, namespace: Option<string>)

  /** `gitops_ref_from_alert`. */
  function RefFromAlert(alert: Alert): Option<AlertRef> {
    var group, kind, name :=
      Label(alert, "customresource_group"), Label(alert, "customresource_kind"), Label(alert, "name");
    if group.None? || !EndsWith(group.value, FLUX_GROUP_SUFFIX) || kind.None? || name.None? then None
    else Some(AlertRef(kind.value, name.value, AlertLabel(alert, "namespace")))
  }

  predicate IsFluxKind(kind: string) {
    kind in {"HelmRelease", "Kustomization", "GitRepository", "OCIRepository", "HelmRepository", "HelmChart", "Bucket"}
  }

  datatype Workload = Workload(kind: string, api: string, plural: string, name: string)

  /** The first workload label that is there. */
  function WorkloadOf(alert: Alert): Option<Workload> {
    if AlertLabel(alert, "deployment").Some? then
      Some(Workload("Deployment", "apps/v1", "deployments", AlertLabel(alert, "deployment").value))
    else if AlertLabel(alert, "statefulset").Some? then
      Some(Workload("StatefulSet", "apps/v1", "statefulsets", AlertLabel(alert, "statefulset").value))
    else if AlertLabel(alert, "daemonset").Some? then
      Some(Workload("DaemonSet", "apps/v1", "daemonsets", AlertLabel(alert, "daemonset").value))
    else if AlertLabel(alert, "job_name").Some? then
      Some(Workload("Job", "batch/v1", "jobs", AlertLabel(alert, "job_name").value))
    else None
  }

  // ----- What is collected

  datatype Pod = Pod(name: string, node: Option<string>, chain: seq<Owner>)

  datatype Labelled = Labelled(source: string, labels: map<string, string>)

  datatype GitOps = GitOps(objects: seq<FluxRef>, events: seq<Event>)

  class ClusterState {
    var pods: seq<Pod>
    var events: seq<Event>
    var nodes: seq<string>
    var claims: seq<string>
    var queried: seq<string>
    var gitops: Option<GitOps>

    constructor ()
      ensures pods == [] && events == [] && nodes == [] && claims == [] && queried == [] && gitops == None
    {
      pods, events, nodes, claims, queried, gitops := [], [], [], [], [], None;
    }
  }

  const MAX_OWNER_DEPTH: nat := 4
  const MAX_EVENT_SOURCES: nat := 4
  const MAX_SOURCE_HOPS: nat := 2

  // ----- The trace

  /** The events in the answers to the event lists among `trace[from..]`, in order. */
  function Received(lists: nat -> Answer<seq<Event>>, trace: seq<Request>, from: nat): seq<Event>
    decreases |trace| - from
  {
    if from >= |trace| then []
    else
      var n := |trace| - 1;
      Received(lists, trace[..n], from) + if trace[n].EventList? && lists(n).Found? then lists(n).value else []
  }

  lemma {:induction false} ReceivedOne(lists: nat -> Answer<seq<Event>>, trace: seq<Request>, r: Request, from: nat)
    requires from <= |trace|
    ensures Received(lists, trace + [r], from)
      == Received(lists, trace, from) + if r.EventList? && lists(|trace|).Found? then lists(|trace|).value else []
  {
    assert (trace + [r])[..|trace|] == trace;
  }

  function FluxReads(trace: seq<Request>): nat {
    if trace == [] then 0
    else FluxReads(trace[..|trace| - 1]) + if trace[|trace| - 1].FluxRead? then 1 else 0
  }

  lemma {:induction false} FluxReadsOne(trace: seq<Request>, r: Request)
    ensures FluxReads(trace + [r]) == FluxReads(trace) + if r.FluxRead? then 1 else 0
  {
    assert (trace + [r])[..|trace|] == trace;
  }

  // ----- What may be asked

  datatype Scope = Scope(namespaces: set<string>, fluxNamespaces: set<string>, everywhere: bool)
  {
    /** `_in_scope`. */
    predicate Core(namespace: string) {
      everywhere || namespace in namespaces
    }

    /** `_flux_in_scope`. */
    predicate Flux(namespace: string) {
      everywhere || namespace in namespaces || namespace in fluxNamespaces
    }
  }

  /** The Flux object of this name has been read before. */
  ghost predicate FluxKnown(trace: seq<Request>, namespace: string, name: string) {
    exists j | 0 <= j < |trace| :: trace[j].FluxRead? && trace[j].namespace == namespace && trace[j].name == name
  }

  /** Core objects only in the core namespaces, Flux objects in those of the Flux role,
      their events only once they have been read, and nodes only cluster-wide. */
  ghost predicate Permitted(scope: Scope, before: seq<Request>, r: Request) {
    match r
    case PodRead(namespace, _) => scope.Core(namespace)
    case PodList(namespace, _) => scope.Core(namespace)
    case OwnerRead(_, _, namespace, _) => scope.Core(namespace)
    case ClaimRead(namespace, _) => scope.Core(namespace)
    case EventList(namespace, name) =>
      scope.Core(namespace) || (scope.Flux(namespace) && FluxKnown(before, namespace, name))
    case FluxRead(kind, namespace, _) => scope.Flux(namespace) && IsFluxKind(kind)
    case NodeRead(_) => scope.everywhere
  }

  ghost predicate InScope(scope: Scope, trace: seq<Request>) {
    forall i | 0 <= i < |trace| :: Permitted(scope, trace[..i], trace[i])
  }

  lemma {:induction false} ScopeOne(scope: Scope, trace: seq<Request>, r: Request)
    requires InScope(scope, trace) && Permitted(scope, trace, r)
    ensures InScope(scope, trace + [r])
  {
    var t := trace + [r];
    forall i | 0 <= i < |t| ensures Permitted(scope, t[..i], t[i]) {
      if i < |trace| {
        assert t[..i] == trace[..i];
      } else {
        assert t[..i] == trace;
      }
    }
  }

  /** Several owner reads in one core namespace. */
  lemma {:induction false} ScopeOwners(scope: Scope, trace: seq<Request>, more: seq<Request>, namespace: string)
    requires InScope(scope, trace) && scope.Core(namespace)
    requires forall i | 0 <= i < |more| :: more[i].OwnerRead? && more[i].namespace == namespace
    ensures InScope(scope, trace + more) && FluxReads(trace + more) == FluxReads(trace)
    decreases |more|
  {
    if more == [] {
      assert trace + more == trace;
    } else {
      var k := |more| - 1;
      ScopeOwners(scope, trace, more[..k], namespace);
      ScopeOne(scope, trace + more[..k], more[k]);
      FluxReadsOne(trace + more[..k], more[k]);
      assert trace + more == (trace + more[..k]) + [more[k]];
    }
  }

  /** What every phase keeps: the trace grows by at most `n` requests, `flux` of them
      for Flux objects, and stays in scope. */
  ghost predicate Sends(scope: Scope, before: seq<Request>, after: seq<Request>, n: nat, flux: nat) {
    && |before| <= |after| <= |before| + n && after[..|before|] == before && InScope(scope, after)
    && FluxReads(before) <= FluxReads(after) <= FluxReads(before) + flux
  }

  lemma {:induction false} SendsNothing(scope: Scope, trace: seq<Request>)
    requires InScope(scope, trace)
    ensures Sends(scope, trace, trace, 0, 0)
  {
    hide InScope, FluxReads;
  }

  lemma {:induction false} SendsOne(scope: Scope, trace: seq<Request>, r: Request)
    requires InScope(scope, trace) && Permitted(scope, trace, r)
    ensures Sends(scope, trace, trace + [r], 1, if r.FluxRead? then 1 else 0)
  {
    ScopeOne(scope, trace, r);
    FluxReadsOne(trace, r);
    hide InScope, FluxReads;
  }

  lemma {:induction false} SendsOn(scope: Scope, a: seq<Request>, b: seq<Request>, c: seq<Request>,
                                   n: nat, m: nat, flux: nat, more: nat)
    requires Sends(scope, a, b, n, flux) && Sends(scope, b, c, m, more)
    ensures Sends(scope, a, c, n + m, flux + more)
  {
    hide InScope, FluxReads;
    assert c[..|a|] == c[..|b|][..|a|];
  }

  lemma {:induction false} SendsAtMost(scope: Scope, a: seq<Request>, b: seq<Request>, n: nat, m: nat, flux: nat, more: nat)
    requires Sends(scope, a, b, n, flux) && n <= m && flux <= more
    ensures Sends(scope, a, b, m, more)
  {
  }

  lemma {:induction false} SendsInScope(scope: Scope, a: seq<Request>, b: seq<Request>, n: nat, flux: nat)
    requires Sends(scope, a, b, n, flux)
    ensures InScope(scope, b)
  {
  }

  class Collector {
    const client: Client
    const scope: Scope
    const maxEvents: nat
    const maxPods: nat
    const flux: bool

    constructor (client: Client, scope: Scope, maxEvents: nat, maxPods: nat, flux: bool)
      ensures this.client == client && this.scope == scope && this.maxEvents == maxEvents
      ensures this.maxPods == maxPods && this.flux == flux
    {
      this.client, this.scope, this.maxEvents, this.maxPods, this.flux := client, scope, maxEvents, maxPods, flux;
    }

    /** The phase that began with `before` has sent at most `n` requests. */
    ghost predicate Sent(before: seq<Request>, n: nat, flux: nat)
      reads client
    {
      Sends(scope, before, client.trace, n, flux)
    }

    /** One object read within a phase. */
    method Read(r: Request, legal: bool, ghost start: seq<Request>, ghost n: nat) returns (found: Answer<Object>)
      requires Sent(start, n, 0) && Permitted(scope, client.trace, r) && !r.FluxRead?
      modifies client`trace
      ensures Sent(start, n + 1, 0)
      ensures client.trace == if legal then old(client.trace) + [r] else old(client.trace)
      ensures found == if legal then client.objects(|old(client.trace)|) else Error
    {
      hide Sends, Permitted;
      ghost var before := client.trace;
      SendsInScope(scope, start, before, n, 0);
      found := client.Get(r, legal);
      if legal {
        SendsOne(scope, before, r);
        SendsOn(scope, start, before, client.trace, n, 1, 0, 0);
      } else {
        SendsAtMost(scope, start, before, n, n + 1, 0, 0);
      }
    }

    // ----- Pods

    /** The pods of the workload the alert names, by the workload's own selector. */
    method FetchPodsViaWorkload(alert: Alert, namespace: string, state: ClusterState, ghost start: seq<Request>)
      returns (pods: seq<Object>, labels: seq<Labelled>)
      requires scope.Core(namespace) && Sent(start, 0, 0)
      modifies client`trace, state`queried
      ensures Sent(start, 2, 0) && |pods| <= maxPods
      ensures var c := WorkloadPods(client.objects, client.lists, |old(client.trace)|, WorkloadOf(alert), namespace, maxPods);
        && pods == c.objects && labels == c.labels
        && client.trace == old(client.trace) + c.sent && state.queried == old(state.queried) + c.queried
    {
      hide Sends, LegalName, WorkloadOf;
      pods, labels := [], [];
      SendsAtMost(scope, start, client.trace, 0, 2, 0, 0);
      var target := WorkloadOf(alert);
      if target.None? { return; }
      var w := target.value;
      var found := Read(OwnerRead(w.api, w.plural, namespace, w.name), LegalName(namespace) && LegalName(w.name), start, 0);
      SendsAtMost(scope, start, client.trace, 1, 2, 0, 0);
      if !found.Found? { return; }
      state.queried := state.queried + [w.name];
      if found.value.labels != map[] {
        labels := [Labelled(w.name, found.value.labels)];
      }
      if found.value.selector.None? { return; }
      ghost var before := client.trace;
      SendsInScope(scope, start, before, 1, 0);
      SendsOne(scope, before, PodList(namespace, found.value.selector.value));
      SendsNothing(scope, before);
      SendsAtMost(scope, before, before, 0, 1, 0, 0);
      var listed := client.ListPods(namespace, found.value.selector.value);
      SendsOn(scope, start, before, client.trace, 1, 1, 0, 0);
      if listed.Found? {
        pods := Cut(Sort(ByHealth, listed.value), maxPods);
      }
      assert client.trace == old(client.trace) + WorkloadPods(client.objects, client.lists, |old(client.trace)|,
        WorkloadOf(alert), namespace, maxPods).sent;
    }

    /** The pod and its owners, as far up as the walk goes. */
    method AddPod(obj: Object, namespace: string, state: ClusterState, ghost start: seq<Request>, ghost n: nat)
      returns (chain: seq<Owner>)
      requires scope.Core(namespace) && Sent(start, n, 0)
      modifies client`trace, state`queried, state`pods
      ensures Sent(start, n + MAX_OWNER_DEPTH, 0)
      ensures var w := Climb(client.objects, |old(client.trace)|, namespace, obj, {}, MAX_OWNER_DEPTH);
        && chain == w.chain && client.trace == old(client.trace) + w.asks
        && state.pods == old(state.pods) + [Pod(obj.name, obj.node, w.chain)]
        && state.queried == old(state.queried) + [obj.name]
    {
      hide Sends, Climb;
      ghost var before := client.trace;
      SendsInScope(scope, start, before, n, 0);
      OwnersInScope(client.objects, before, namespace, obj);
      state.queried := state.queried + [obj.name];
      chain := client.ResolveOwnerChain(namespace, obj, MAX_OWNER_DEPTH);
      SendsOn(scope, start, before, client.trace, n, MAX_OWNER_DEPTH, 0, 0);
      state.pods := state.pods + [Pod(obj.name, obj.node, chain)];
    }

    /** The pod the alert names, or its workload's pods. */
    method FetchNamedPods(alert: Alert, namespace: string, state: ClusterState, ghost start: seq<Request>)
      returns (objects: seq<Object>, labels: seq<Labelled>)
      requires scope.Core(namespace) && Sent(start, 0, 0)
      modifies client`trace, state`queried
      ensures Sent(start, 2, 0) && |objects| <= maxPods + 1
      ensures var c := ChoosePods(client.objects, client.lists, |old(client.trace)|, alert, namespace, maxPods);
        && objects == c.objects && labels == c.labels
        && client.trace == old(client.trace) + c.sent && state.queried == old(state.queried) + c.queried
    {
      hide Sends, LegalName, AlertLabel, WorkloadPods, WorkloadOf;
      var name := AlertLabel(alert, "pod");
      if name.None? {
        objects, labels := FetchPodsViaWorkload(alert, namespace, state, start);
        return;
      }
      var found := Read(PodRead(namespace, name.value), LegalName(namespace) && LegalName(name.value), start, 0);
      SendsAtMost(scope, start, client.trace, 1, 2, 0, 0);
      objects, labels := if found.Found? then [found.value] else [], [];
    }

    /** `_fetch_pods`: the pod the alert names, or its workload's, and their owners. */
    method FetchPods(alert: Alert, namespace: string, state: ClusterState, ghost start: seq<Request>)
      returns (labels: seq<Labelled>)
      requires scope.Core(namespace) && Sent(start, 0, 0)
      modifies client`trace, state`queried, state`pods
      ensures Sent(start, 2 + MAX_OWNER_DEPTH * (maxPods + 1), 0)
      ensures var p := PodsPhase(client.objects, client.lists, |old(client.trace)|, alert, namespace, maxPods);
        && state.pods == old(state.pods) + p.pods && state.queried == old(state.queried) + p.queried
        && labels == p.labels && client.trace == old(client.trace) + p.sent
    {
      hide Sends, WalkPods, ChoosePods;
      var objects;
      objects, labels := FetchNamedPods(alert, namespace, state, start);
      labels := AddPods(objects, namespace, state, labels, start);
      SendsAtMost(scope, start, client.trace, 2 + MAX_OWNER_DEPTH * |objects|, 2 + MAX_OWNER_DEPTH * (maxPods + 1), 0, 0);
    }

    /** The pods, one after the other. */
    method AddPods(objects: seq<Object>, namespace: string, state: ClusterState, known: seq<Labelled>, ghost start: seq<Request>)
      returns (labels: seq<Labelled>)
      requires scope.Core(namespace) && Sent(start, 2, 0)
      modifies client`trace, state`queried, state`pods
      ensures Sent(start, 2 + MAX_OWNER_DEPTH * |objects|, 0)
      ensures var w := WalkPods(client.objects, |old(client.trace)|, namespace, objects);
        && state.pods == old(state.pods) + w.pods && state.queried == old(state.queried) + w.queried
        && labels == known + w.labels && client.trace == old(client.trace) + w.sent
    {
      hide Sends, Climb, WalkPods, OwnerLabels;
      labels := known;
      ghost var whole := WalkPods(client.objects, |client.trace|, namespace, objects);
      ghost var done := NOTHING_WALKED;
      assert objects[0..] == objects;
      for i := 0 to |objects|
        invariant Sent(start, 2 + MAX_OWNER_DEPTH * i, 0)
        invariant state.pods == old(state.pods) + done.pods && state.queried == old(state.queried) + done.queried
        invariant labels == known + done.labels && client.trace == old(client.trace) + done.sent
        invariant whole == Then(done, WalkPods(client.objects, |client.trace|, namespace, objects[i..]))
      {
        assert objects[i..][0] == objects[i] && objects[i..][1..] == objects[i + 1..];
        WalkOne(client.objects, |client.trace|, namespace, objects[i..]);
        ghost var one := WalkedPod(client.objects, |client.trace|, namespace, objects[i]);
        ghost var rest := WalkPods(client.objects, |client.trace| + |one.sent|, namespace, objects[i + 1..]);
        var chain := AddPod(objects[i], namespace, state, start, 2 + MAX_OWNER_DEPTH * i);
        labels := labels + OwnerLabels(chain);
        ThenAssoc(done, one, rest);
        done := Then(done, one);
      }
      assert objects[|objects|..] == [];
      WalkNone(client.objects, |client.trace|, namespace);
    }

    // ----- Events

    /** One event list within a phase; `known` are the events received since `from`. */
    method List(namespace: string, name: string, known: seq<Event>, ghost from: nat, ghost start: seq<Request>,
                ghost n: nat, ghost flux: nat) returns (all: seq<Event>)
      requires Sent(start, n, flux) && Permitted(scope, client.trace, EventList(namespace, name))
      requires from <= |client.trace| && Sort(ByTime, known) == Sort(ByTime, Received(client.eventLists, client.trace, from))
      modifies client`trace
      ensures Sent(start, n + 1, flux)
      ensures client.trace == old(client.trace) + ListsFor(namespace, [name])
      ensures Sort(ByTime, all) == Sort(ByTime, Received(client.eventLists, client.trace, from))
    {
      hide Sends, Permitted, LegalName, Sort, Received;
      ghost var before := client.trace;
      SendsInScope(scope, start, before, n, flux);
      all := known;
      OneList(namespace, name);
      var answer := client.ListEvents(namespace, name);
      if client.trace == before {
        SendsAtMost(scope, start, before, n, n + 1, flux, flux);
      } else {
        SendsOne(scope, before, EventList(namespace, name));
        SendsOn(scope, start, before, client.trace, n, 1, flux, 0);
        ReceivedOne(client.eventLists, before, EventList(namespace, name), from);
      }
      if answer.Some? {
        all := known + answer.value;
        ListedExtends(client.eventLists(|before|), known, Received(client.eventLists, before, from));
      } else {
        assert Received(client.eventLists, before, from) + [] == Received(client.eventLists, before, from);
      }
    }

    /** `_fetch_events`: the newest events of the pods and their owners; `from` is
        where the collection began, and no event list has been asked for since. */
    method FetchEvents(namespace: string, state: ClusterState, ghost from: nat, ghost start: seq<Request>)
      requires scope.Core(namespace) && Sent(start, 0, 0)
      requires from <= |client.trace| && Received(client.eventLists, client.trace, from) == []
      modifies client`trace, state`events
      ensures Sent(start, MAX_EVENT_SOURCES, 0)
      ensures client.trace == old(client.trace) + ListsFor(namespace, FirstSources(EventSources(state.pods, state.queried)))
      ensures from <= |client.trace|
      ensures state.events == Cut(Sort(ByTime, Received(client.eventLists, client.trace, from)), maxEvents)
    {
      hide Sends, Sort, Received, Cut, EventSources, ListsFor, ByTime;
      var sources := FirstSources(EventSources(state.pods, state.queried));
      var collected := [];
      NoLists(namespace);
      for i := 0 to |sources|
        invariant Sent(start, i, 0) && from <= |client.trace|
        invariant client.trace == old(client.trace) + ListsFor(namespace, sources[..i])
        invariant Sort(ByTime, collected) == Sort(ByTime, Received(client.eventLists, client.trace, from))
      {
        collected := List(namespace, sources[i], collected, from, start, i, 0);
        MoreLists(namespace, sources, i);
      }
      assert sources[..|sources|] == sources;
      SendsAtMost(scope, start, client.trace, |sources|, MAX_EVENT_SOURCES, 0, 0);
      state.events := Cut(Sort(ByTime, collected), maxEvents);
    }

    /** `_fetch_pvc`: the claim the alert names, and its events merged in. */
    method FetchPvc(alert: Alert, namespace: string, state: ClusterState, ghost from: nat, ghost start: seq<Request>)
      requires scope.Core(namespace) && Sent(start, 0, 0) && from <= |client.trace|
      requires state.events == Cut(Sort(ByTime, Received(client.eventLists, client.trace, from)), maxEvents)
      modifies client`trace, state`events, state`claims, state`queried
      ensures Sent(start, 2, 0) && from <= |client.trace|
      ensures state.events == Cut(Sort(ByTime, Received(client.eventLists, client.trace, from)), maxEvents)
      ensures var sent := ClaimRequests(client.objects, |old(client.trace)|, alert, namespace);
        && client.trace == old(client.trace) + sent
        && state.claims == old(state.claims) + ClaimsFound(client.objects, |old(client.trace)|, alert, namespace)
    {
      hide Sends, LegalName, Sort, Received, Cut;
      SendsAtMost(scope, start, client.trace, 0, 2, 0, 0);
      var name := AlertLabel(alert, "persistentvolumeclaim");
      if name.None? { return; }
      ghost var before := client.trace;
      var found := Read(ClaimRead(namespace, name.value), LegalName(namespace) && LegalName(name.value), start, 0);
      SendsAtMost(scope, start, client.trace, 1, 2, 0, 0);
      ReceivedElse(client.eventLists, before, client.trace, ClaimRead(namespace, name.value), from);
      if !found.Found? { return; }
      state.claims := state.claims + [name.value];
      state.queried := state.queried + [name.value];
      ghost var first := client.trace;
      NothingReceived(client.eventLists, first);
      var extra := List(namespace, name.value, [], |first|, start, 1, 0);
      OneList(namespace, name.value);
      ReceivedInTwo(client.eventLists, first, client.trace, EventList(namespace, name.value), from);
      MergeKeeps(Received(client.eventLists, first, from), extra, Received(client.eventLists, client.trace, |first|), maxEvents);
      state.events := Cut(Sort(ByTime, state.events + extra), maxEvents);
    }

    // ----- Nodes

    /** `_fetch_nodes`: the node of the alert or of a pod, if nodes may be read at all. */
    method FetchNodes(alert: Alert, state: ClusterState, ghost start: seq<Request>)
      requires Sent(start, 0, 0)
      modifies client`trace, state`nodes, state`queried
      ensures Sent(start, 1, 0)
      ensures client.trace == old(client.trace) + NodeRequests(scope, NodeOf(alert, state.pods))
      ensures state.nodes == old(state.nodes)
        + NodesFound(client.objects, |old(client.trace)|, scope, NodeOf(alert, state.pods))
    {
      hide Sends, LegalName;
      SendsAtMost(scope, start, client.trace, 0, 1, 0, 0);
      var name := AlertLabel(alert, "node");
      if name.None? {
        name := FirstNode(state.pods);
      }
      if name.None? || !scope.everywhere { return; }
      var found := Read(NodeRead(name.value), LegalName(name.value), start, 0);
      if found.Found? {
        state.nodes := state.nodes + [name.value];
        state.queried := state.queried + [name.value];
      }
    }

    // ----- Flux

    /** `_get_flux`: a namespace outside the Flux role is not asked. */
    method ReadFlux(ref: FluxRef, ghost start: seq<Request>, ghost n: nat, ghost k: nat) returns (found: Option<FluxObject>)
      requires Sent(start, n, k) && IsFluxKind(ref.kind)
      modifies client`trace
      ensures Sent(start, n + 1, k + 1)
      ensures found.Some? ==> scope.Flux(ref.namespace) && FluxKnown(client.trace, ref.namespace, ref.name)
      ensures forall ns, name | FluxKnown(old(client.trace), ns, name) :: FluxKnown(client.trace, ns, name)
      ensures var asks := scope.Flux(ref.namespace) && LegalName(ref.namespace) && LegalName(ref.name);
        && client.trace == old(client.trace) + (if asks then [FluxRead(ref.kind, ref.namespace, ref.name)] else [])
        && found == if asks && client.fluxObjects(|old(client.trace)|).Found?
          then Some(client.fluxObjects(|old(client.trace)|).value) else None
    {
      hide Sends, LegalName;
      ghost var before := client.trace;
      SendsInScope(scope, start, before, n, k);
      SendsAtMost(scope, start, before, n, n + 1, k, k + 1);
      if !scope.Flux(ref.namespace) { return None; }
      var answer := client.GetFlux(ref);
      if client.trace != before {
        SendsOne(scope, before, FluxRead(ref.kind, ref.namespace, ref.name));
        SendsOn(scope, start, before, client.trace, n, 1, k, 1);
        KnownOn(before, FluxRead(ref.kind, ref.namespace, ref.name));
      }
      found := match answer case Found(obj) => Some(obj) case _ => None;
    }

    /** Everything in the chain has been read, where it may be. */
    ghost predicate Known(links: seq<Link>)
      reads client
    {
      forall i | 0 <= i < |links| ::
        scope.Flux(links[i].ref.namespace) && FluxKnown(client.trace, links[i].ref.namespace, links[i].ref.name)
    }

    /** The owner and its chain of sources, at most two hops of it. */
    method WalkSources(owner: FluxRef, ghost start: seq<Request>) returns (links: seq<Link>)
      requires Sent(start, 0, 0) && IsFluxKind(owner.kind)
      modifies client`trace
      ensures Sent(start, MAX_SOURCE_HOPS + 1, MAX_SOURCE_HOPS + 1) && Known(links) && |links| <= MAX_SOURCE_HOPS + 1
      ensures var s := Sources(client.fluxObjects, |old(client.trace)|, scope, owner, MAX_SOURCE_HOPS);
        links == s.links && client.trace == old(client.trace) + s.sent
    {
      hide Sends, FluxKnown, LegalName, IsFluxKind, Sources, MoreSources;
      SourcesUnfold(client.fluxObjects, |client.trace|, scope, owner, MAX_SOURCE_HOPS);
      ghost var whole := Sources(client.fluxObjects, |client.trace|, scope, owner, MAX_SOURCE_HOPS);
      links := [];
      var found := ReadFlux(owner, start, 0, 0);
      SendsAtMost(scope, start, client.trace, 1, MAX_SOURCE_HOPS + 1, 1, MAX_SOURCE_HOPS + 1);
      if found.None? { return; }
      links := [Link(owner, found.value.ready == Some(false))];
      ghost var sent := [FluxRead(owner.kind, owner.namespace, owner.name)];
      var next := found.value.source;
      var hops := 0;
      while hops < MAX_SOURCE_HOPS && next.Some? && IsFluxKind(next.value.kind)
        invariant 0 <= hops <= MAX_SOURCE_HOPS && |links| == hops + 1
        invariant Sent(start, hops + 1, hops + 1) && Known(links) && client.trace == old(client.trace) + sent
        invariant Grown(whole, links, sent,
          MoreSources(client.fluxObjects, |client.trace|, scope, next, MAX_SOURCE_HOPS - hops))
      {
        SourcesUnfold(client.fluxObjects, |client.trace|, scope, next.value, MAX_SOURCE_HOPS - hops - 1);
        found := ReadFlux(next.value, start, hops + 1, hops + 1);
        SendsAtMost(scope, start, client.trace, hops + 2, MAX_SOURCE_HOPS + 1, hops + 2, MAX_SOURCE_HOPS + 1);
        if found.None? { return; }
        links := links + [Link(next.value, found.value.ready == Some(false))];
        sent := sent + [FluxRead(next.value.kind, next.value.namespace, next.value.name)];
        next := found.value.source;
        hops := hops + 1;
      }
      NoMoreSources(client.fluxObjects, |client.trace|, scope, next, MAX_SOURCE_HOPS - hops);
      SendsAtMost(scope, start, client.trace, hops + 1, MAX_SOURCE_HOPS + 1, hops + 1, MAX_SOURCE_HOPS + 1);
    }

    /** The events of the owner, and of those of its sources that are failing. */
    method FluxEvents(links: seq<Link>, ghost start: seq<Request>, ghost n: nat, ghost k: nat)
      returns (collected: seq<Event>)
      requires Sent(start, n, k) && Known(links)
      modifies client`trace
      ensures Sent(start, n + |links|, k)
      ensures var g := Gather(client.eventLists, |old(client.trace)|, links);
        client.trace == old(client.trace) + g.sent && Sort(ByTime, collected) == Sort(ByTime, g.events)
    {
      hide Sends, FluxKnown, Sort, InScope, ListsFor, LegalName, Gather, OfKind;
      collected := [];
      GatherNone(client.eventLists, |client.trace|);
      ghost var asked := |client.trace|;
      for i := 0 to |links|
        invariant Sent(start, n + i, k) && Known(links)
        invariant client.trace == old(client.trace) + Gather(client.eventLists, asked, links[..i]).sent
        invariant Sort(ByTime, collected) == Sort(ByTime, Gather(client.eventLists, asked, links[..i]).events)
      {
        ghost var before := client.trace;
        GatherOne(client.eventLists, asked, links, i);
        SendsAtMost(scope, start, before, n + i, n + i + 1, k, k);
        if i == 0 || links[i].failing {
          var events := ListOf(links[i].ref, start, n + i, k);
          MergeOfKind(collected, Gather(client.eventLists, asked, links[..i]).events, events,
            AnswerTo(client.eventLists, |before|, links[i].ref), links[i].ref.kind);
          collected := collected + OfKind(events, links[i].ref.kind);
        }
      }
      assert links[..|links|] == links;
    }

    method ListOf(ref: FluxRef, ghost start: seq<Request>, ghost n: nat, ghost k: nat) returns (events: seq<Event>)
      requires Sent(start, n, k) && scope.Flux(ref.namespace) && FluxKnown(client.trace, ref.namespace, ref.name)
      modifies client`trace
      ensures Sent(start, n + 1, k)
      ensures forall ns, name | FluxKnown(old(client.trace), ns, name) :: FluxKnown(client.trace, ns, name)
      ensures client.trace == old(client.trace) + ListsFor(ref.namespace, [ref.name])
      ensures Sort(ByTime, events) == Sort(ByTime, AnswerTo(client.eventLists, |old(client.trace)|, ref))
    {
      hide Sends, FluxKnown, Sort, Received, InScope, LegalName, ListsFor;
      ghost var before := client.trace;
      NothingReceived(client.eventLists, before);
      OneList(ref.namespace, ref.name);
      events := List(ref.namespace, ref.name, [], |before|, start, n, k);
      KnownOn(before, EventList(ref.namespace, ref.name));
      ReceivedOne(client.eventLists, before, EventList(ref.namespace, ref.name), |before|);
      assert before + [] == before;
      assert forall x: seq<Event> :: [] + x == x;
    }

    /** `_fetch_gitops`: the owner, its sources, and the newest events of the owner and
        of the sources that are failing. */
    method FetchGitops(alert: Alert, labels: seq<Labelled>, state: ClusterState, ghost start: seq<Request>)
      requires Sent(start, 0, 0)
      modifies client`trace, state`gitops
      ensures Sent(start, 2 * (MAX_SOURCE_HOPS + 1), MAX_SOURCE_HOPS + 1)
      ensures var d := Delivery(client.fluxObjects, client.eventLists, |old(client.trace)|, scope,
                                GitopsTarget(alert, labels), maxEvents);
        && client.trace == old(client.trace) + d.sent
        && state.gitops == if d.found.Some? then d.found else old(state.gitops)
    {
      hide Sends, FluxKnown, Sort, InScope, Sources, GitopsTarget, Known, Gather, Cut;
      SendsAtMost(scope, start, client.trace, 0, 2 * (MAX_SOURCE_HOPS + 1), 0, MAX_SOURCE_HOPS + 1);
      var target := GitopsTarget(alert, labels);
      if target.None? { return; }
      TargetIsFlux(alert, labels);
      var links := WalkSources(target.value, start);
      SendsAtMost(scope, start, client.trace, MAX_SOURCE_HOPS + 1, 2 * (MAX_SOURCE_HOPS + 1),
        MAX_SOURCE_HOPS + 1, MAX_SOURCE_HOPS + 1);
      if links == [] { return; }
      var collected := FluxEvents(links, start, MAX_SOURCE_HOPS + 1, MAX_SOURCE_HOPS + 1);
      SendsAtMost(scope, start, client.trace, MAX_SOURCE_HOPS + 1 + |links|, 2 * (MAX_SOURCE_HOPS + 1),
        MAX_SOURCE_HOPS + 1, MAX_SOURCE_HOPS + 1);
      state.gitops := Some(GitOps(Refs(links), Cut(Sort(ByTime, collected), maxEvents)));
    }

    // ----- All of it

    /** The requests of one collection, at most. */
    function Limit(): nat {
      2 + MAX_OWNER_DEPTH * (maxPods + 1) + MAX_EVENT_SOURCES + 2 + 1 + 2 * (MAX_SOURCE_HOPS + 1)
    }

    /** What the cluster is asked about the workload: pods and owners, events, the claim. */
    ghost function WorkloadRequests(asked: nat, alert: Alert, namespace: string): seq<Request> {
      var sent := WorkloadSent(asked, alert, namespace);
      sent + ClaimRequests(client.objects, asked + |sent|, alert, namespace)
    }

    /** The same without the claim. */
    ghost function WorkloadSent(asked: nat, alert: Alert, namespace: string): seq<Request> {
      var p := PodsPhase(client.objects, client.lists, asked, alert, namespace, maxPods);
      p.sent + ListsFor(namespace, FirstSources(EventSources(p.pods, p.queried)))
    }

    /** And the node and the delivery state. */
    ghost function CoreRequests(asked: nat, alert: Alert, namespace: string): seq<Request> {
      var p := PodsPhase(client.objects, client.lists, asked, alert, namespace, maxPods);
      var workload := WorkloadRequests(asked, alert, namespace);
      var node := NodeRequests(scope, NodeOf(alert, p.pods));
      workload + node + CoreDelivery(asked, alert, namespace).sent
    }

    ghost function CoreDelivery(asked: nat, alert: Alert, namespace: string): Delivered {
      var p := PodsPhase(client.objects, client.lists, asked, alert, namespace, maxPods);
      var before := WorkloadRequests(asked, alert, namespace) + NodeRequests(scope, NodeOf(alert, p.pods));
      if flux then
        Delivery(client.fluxObjects, client.eventLists, asked + |before|, scope, GitopsTarget(alert, p.labels), maxEvents)
      else Delivered([], None)
    }

    /** The pod, the claim and the node that the alert names are asked for, if their
        names are legal and nodes may be read. */
    lemma {:induction false} NamedObjectsAreAsked(asked: nat, alert: Alert, namespace: string)
      ensures var sent := CoreRequests(asked, alert, namespace);
        && (forall name | AlertLabel(alert, "pod") == Some(name) && LegalName(namespace) && LegalName(name) ::
          PodRead(namespace, name) in sent)
        && (forall name | AlertLabel(alert, "persistentvolumeclaim") == Some(name) && LegalName(namespace) && LegalName(name) ::
          ClaimRead(namespace, name) in sent)
        && (forall name | AlertLabel(alert, "node") == Some(name) && scope.everywhere && LegalName(name) ::
          NodeRead(name) in sent)
    {
      hide AlertLabel, LegalName, WalkPods, ListsFor, EventSources, FirstSources, Delivery, GitopsTarget, CoreDelivery,
        WorkloadPods, WorkloadOf, FirstNode;
    }

    /** Pods, events and the claim. */
    method CollectWorkload(alert: Alert, namespace: string, state: ClusterState) returns (labels: seq<Labelled>)
      requires scope.Core(namespace) && InScope(scope, client.trace)
      requires state.pods == [] && state.queried == []
      modifies client`trace, state
      ensures Sent(old(client.trace), 4 + MAX_OWNER_DEPTH * (maxPods + 1) + MAX_EVENT_SOURCES, 0)
      ensures var p := PodsPhase(client.objects, client.lists, |old(client.trace)|, alert, namespace, maxPods);
        state.pods == p.pods && labels == p.labels
      ensures client.trace == old(client.trace) + WorkloadRequests(|old(client.trace)|, alert, namespace)
      ensures state.events == Cut(Sort(ByTime, Received(client.eventLists, client.trace, |old(client.trace)|)), maxEvents)
      ensures state.claims == old(state.claims) + ClaimsFound(client.objects, |old(client.trace)|
        + |WorkloadSent(|old(client.trace)|, alert, namespace)|, alert, namespace)
      ensures state.nodes == old(state.nodes) && state.gitops == old(state.gitops)
    {
      hide Sends, Sort, Received, Cut, InScope, PodsPhase, ListsFor, ClaimRequests, EventSources, FirstSources, AlertLabel;
      ghost var start := client.trace;
      ghost var p := PodsPhase(client.objects, client.lists, |start|, alert, namespace, maxPods);
      SendsNothing(scope, start);
      labels := FetchPods(alert, namespace, state, start);
      assert [] + p.pods == p.pods && [] + p.queried == p.queried;
      PodsSendNoLists(client.objects, client.lists, |start|, alert, namespace, maxPods);
      QuietRequests(client.eventLists, start, p.sent);
      ghost var n := 2 + MAX_OWNER_DEPTH * (maxPods + 1);
      ghost var b := client.trace;
      SendsInScope(scope, start, b, n, 0);
      SendsNothing(scope, b);
      FetchEvents(namespace, state, |start|, b);
      ghost var c := client.trace;
      ghost var lists := ListsFor(namespace, FirstSources(EventSources(p.pods, p.queried)));
      assert c == start + (p.sent + lists);
      SendsOn(scope, start, b, c, n, MAX_EVENT_SOURCES, 0, 0);
      SendsInScope(scope, b, c, MAX_EVENT_SOURCES, 0);
      SendsNothing(scope, c);
      FetchPvc(alert, namespace, state, |start|, c);
      Assoc(start, p.sent + lists, ClaimRequests(client.objects, |c|, alert, namespace));
      SendsOn(scope, start, c, client.trace, n + MAX_EVENT_SOURCES, 2, 0, 0);
    }

    /** The phases for an alert about a permitted namespace. */
    method CollectCore(alert: Alert, namespace: string, state: ClusterState)
      requires scope.Core(namespace) && InScope(scope, client.trace)
      requires state.pods == [] && state.queried == [] && state.nodes == [] && state.claims == [] && state.gitops == None
      modifies client`trace, state
      ensures Sent(old(client.trace), Limit(), MAX_SOURCE_HOPS + 1)
      ensures client.trace == old(client.trace) + CoreRequests(|old(client.trace)|, alert, namespace)
      ensures CoreState(state, old(client.trace), alert, namespace)
    {
      hide Sends, Sort, Received, Cut, InScope, PodsPhase, NodeOf, Delivery, GitopsTarget, NodeRequests, NodesFound, ClaimsFound,
        WorkloadRequests, WorkloadSent;
      ghost var start := client.trace;
      ghost var n := 4 + MAX_OWNER_DEPTH * (maxPods + 1) + MAX_EVENT_SOURCES;
      ghost var p := PodsPhase(client.objects, client.lists, |start|, alert, namespace, maxPods);
      var labels := CollectWorkload(alert, namespace, state);
      ghost var d := client.trace;
      SendsInScope(scope, start, d, n, 0);
      SendsNothing(scope, d);
      FetchNodes(alert, state, d);
      ghost var e := client.trace;
      SendsOn(scope, start, d, e, n, 1, 0, 0);
      SendsInScope(scope, d, e, 1, 0);
      SendsNothing(scope, e);
      ghost var before := WorkloadRequests(|start|, alert, namespace) + NodeRequests(scope, NodeOf(alert, p.pods));
      assert e == start + before;
      if flux {
        FetchGitops(alert, labels, state, e);
      } else {
        SendsAtMost(scope, e, e, 0, 2 * (MAX_SOURCE_HOPS + 1), 0, MAX_SOURCE_HOPS + 1);
        assert before + [] == before;
      }
      assert client.trace == start + (before + CoreDelivery(|start|, alert, namespace).sent);
      SendsOn(scope, start, e, client.trace, n + 1, 2 * (MAX_SOURCE_HOPS + 1), 0, MAX_SOURCE_HOPS + 1);
    }

    /** What one collection in a permitted namespace leaves behind, from what the
        cluster answered: its events are the newest in the answers to all event lists
        of pods, owners and the claim. */
    ghost predicate CoreState(state: ClusterState, before: seq<Request>, alert: Alert, namespace: string)
      reads state
    {
      var n := |before|;
      var p := PodsPhase(client.objects, client.lists, n, alert, namespace, maxPods);
      var workload := WorkloadRequests(n, alert, namespace);
      && state.pods == p.pods
      && state.events == Cut(Sort(ByTime, Received(client.eventLists, before + workload, n)), maxEvents)
      && state.claims == ClaimsFound(client.objects, n + |WorkloadSent(n, alert, namespace)|, alert, namespace)
      && state.nodes == NodesFound(client.objects, n + |workload|, scope, NodeOf(alert, p.pods))
      && state.gitops == CoreDelivery(n, alert, namespace).found
    }

    /** `collect`: whatever the alert says and the cluster answers, the requests stay
        in scope and are bounded. In a permitted namespace they are exactly the requests
        of the phases; elsewhere only a Flux object or a node can be asked for. */
    method Collect(alert: Alert) returns (state: ClusterState)
      requires InScope(scope, client.trace)
      modifies client`trace
      ensures fresh(state)
      ensures Sent(old(client.trace), Limit(), MAX_SOURCE_HOPS + 1)
      ensures var n, namespace := |old(client.trace)|, AlertLabel(alert, "namespace");
        if namespace.None? then
          && client.trace == old(client.trace) + NodeRequests(scope, AlertLabel(alert, "node"))
          && state.nodes == NodesFound(client.objects, n, scope, AlertLabel(alert, "node"))
          && state.pods == [] && state.events == [] && state.claims == [] && state.gitops == None
        else if scope.Core(namespace.value) then
          && client.trace == old(client.trace) + CoreRequests(n, alert, namespace.value)
          && CoreState(state, old(client.trace), alert, namespace.value)
        else
          var d := if flux && scope.Flux(namespace.value) && RefFromAlert(alert).Some?
            then Delivery(client.fluxObjects, client.eventLists, n, scope, GitopsTarget(alert, []), maxEvents)
            else Delivered([], None);
          && client.trace == old(client.trace) + d.sent && state.gitops == d.found
          && state.pods == [] && state.events == [] && state.claims == [] && state.nodes == []
    {
      hide Sends, InScope, Delivery, GitopsTarget, RefFromAlert, NodeRequests, NodesFound, CoreState, CoreRequests, FirstNode;
      ghost var start := client.trace;
      SendsNothing(scope, start);
      SendsAtMost(scope, start, start, 0, Limit(), 0, MAX_SOURCE_HOPS + 1);
      state := new ClusterState();
      var namespace := AlertLabel(alert, "namespace");
      if namespace.None? {
        NoPodsNoNode(alert);
        FetchNodes(alert, state, start);
        SendsAtMost(scope, start, client.trace, 1, Limit(), 0, MAX_SOURCE_HOPS + 1);
        return;
      }
      if !scope.Core(namespace.value) {
        if RefFromAlert(alert).None? || !flux || !scope.Flux(namespace.value) { return; }
        FetchGitops(alert, [], state, start);
        SendsAtMost(scope, start, client.trace, 2 * (MAX_SOURCE_HOPS + 1), Limit(), MAX_SOURCE_HOPS + 1, MAX_SOURCE_HOPS + 1);
        return;
      }
      CollectCore(alert, namespace.value, state);
    }

    lemma {:induction false} OwnersInScope(objects: nat -> Answer<Object>, trace: seq<Request>, namespace: string, obj: Object)
      requires InScope(scope, trace) && scope.Core(namespace)
      ensures Sends(scope, trace, trace + Climb(objects, |trace|, namespace, obj, {}, MAX_OWNER_DEPTH).asks, MAX_OWNER_DEPTH, 0)
    {
      var w := Climb(objects, |trace|, namespace, obj, {}, MAX_OWNER_DEPTH);
      WalkIsBounded(objects, |trace|, namespace, obj, {}, MAX_OWNER_DEPTH);
      forall i | 0 <= i < |w.asks| ensures w.asks[i].OwnerRead? && w.asks[i].namespace == namespace {
        WalkFollowsControllers(objects, |trace|, namespace, obj, {}, MAX_OWNER_DEPTH, i);
      }
      hide Climb, InScope, FluxReads;
      ScopeOwners(scope, trace, w.asks, namespace);
    }
  }

  /** The objects a phase begins with, what was noted on the way to them, and the
      requests that found them. */
  datatype Choice = Choice(objects: seq<Object>, queried: seq<string>, labels: seq<Labelled>, sent: seq<Request>)

  function LabelsOf(name: string, labels: map<string, string>): seq<Labelled> {
    if labels == map[] then [] else [Labelled(name, labels)]
  }

  function Restarts(containers: seq<Container>): int {
    if containers == [] then 0 else containers[0].restarts + Restarts(containers[1..])
  }

  predicate Healthy(pod: Object) {
    && pod.running && pod.containers != [] && Restarts(pod.containers) == 0
    && forall i | 0 <= i < |pod.containers| :: pod.containers[i].ready
  }

  /** `_pod_health_rank`: the unhealthy first, and the more restarts the earlier. */
  function ByHealth(pod: Object): Rank {
    Rank(if Healthy(pod) then 0 else 1, Restarts(pod.containers))
  }

  /** The cap drops no pod that is less healthy than one it keeps, none with more
      restarts among equally healthy ones, and keeps the order of equals. */
  lemma {:induction false} LeastHealthyAreKept(pods: seq<Object>, n: nat)
    ensures var sorted, kept := Sort(ByHealth, pods), Cut(Sort(ByHealth, pods), n);
      && StableOrder(ByHealth, pods, sorted) && |sorted| == |pods| && kept <= sorted
      && |kept| == (if n < |pods| then n else |pods|)
      && forall i, j | 0 <= i < |kept| <= j < |sorted| ::
        && (Healthy(kept[i]) ==> Healthy(sorted[j]))
        && (Healthy(kept[i]) == Healthy(sorted[j]) ==>
          Restarts(kept[i].containers) >= Restarts(sorted[j].containers))
  {
    hide Healthy, Restarts, Sort;
    SortFacts(ByHealth, pods);
    SortIsTheStableOrder(ByHealth, pods, Sort(ByHealth, pods));
    var sorted, kept := Sort(ByHealth, pods), Cut(Sort(ByHealth, pods), n);
    forall i, j | 0 <= i < |kept| <= j < |sorted|
      ensures Healthy(kept[i]) ==> Healthy(sorted[j])
      ensures Healthy(kept[i]) == Healthy(sorted[j]) ==> Restarts(kept[i].containers) >= Restarts(sorted[j].containers)
    {
      assert kept[i] == sorted[i] && !Below(ByHealth(sorted[i]), ByHealth(sorted[j]));
    }
  }

  function WorkloadPods(objects: nat -> Answer<Object>, lists: nat -> Answer<seq<Object>>, asked: nat,
                        target: Option<Workload>, namespace: string, maxPods: nat): Choice {
    if target.None? || !LegalName(namespace) || !LegalName(target.value.name) then Choice([], [], [], [])
    else
      var name := target.value.name;
      var read := OwnerRead(target.value.api, target.value.plural, namespace, name);
      match objects(asked)
      case Found(workload) =>
        var labels := LabelsOf(name, workload.labels);
        if workload.selector.None? then Choice([], [name], labels, [read])
        else
          var sent := [read, PodList(namespace, workload.selector.value)];
          Choice(match lists(asked + 1)
                 case Found(pods) => Cut(Sort(ByHealth, pods), maxPods)
                 case _ => [], [name], labels, sent)
      case _ => Choice([], [], [], [read])
  }

  /** The pod the alert names, or else the pods of the workload it names. */
  function ChoosePods(objects: nat -> Answer<Object>, lists: nat -> Answer<seq<Object>>, asked: nat,
                      alert: Alert, namespace: string, maxPods: nat): Choice {
    match AlertLabel(alert, "pod")
    case None => WorkloadPods(objects, lists, asked, WorkloadOf(alert), namespace, maxPods)
    case Some(name) =>
      if !LegalName(namespace) || !LegalName(name) then Choice([], [], [], [])
      else Choice(if objects(asked).Found? then [objects(asked).value] else [], [], [], [PodRead(namespace, name)])
  }

  /** What a phase finds of the pods, and the requests it takes. */
  datatype Walked = Walked(pods: seq<Pod>, queried: seq<string>, labels: seq<Labelled>, sent: seq<Request>)

  const NOTHING_WALKED := Walked([], [], [], [])

  function Then(a: Walked, b: Walked): Walked {
    Walked(a.pods + b.pods, a.queried + b.queried, a.labels + b.labels, a.sent + b.sent)
  }

  /** One pod with its owners, as the walk finds them. */
  function WalkedPod(objects: nat -> Answer<Object>, asked: nat, namespace: string, obj: Object): Walked {
    var w := Climb(objects, asked, namespace, obj, {}, MAX_OWNER_DEPTH);
    Walked([Pod(obj.name, obj.node, w.chain)], [obj.name], OwnerLabels(w.chain), w.asks)
  }

  function WalkPods(objects: nat -> Answer<Object>, asked: nat, namespace: string, pods: seq<Object>): Walked
    decreases |pods|
  {
    if pods == [] then NOTHING_WALKED
    else
      var one := WalkedPod(objects, asked, namespace, pods[0]);
      Then(one, WalkPods(objects, asked + |one.sent|, namespace, pods[1..]))
  }

  lemma {:induction false} WalkOne(objects: nat -> Answer<Object>, asked: nat, namespace: string, pods: seq<Object>)
    requires pods != []
    ensures var one := WalkedPod(objects, asked, namespace, pods[0]);
      WalkPods(objects, asked, namespace, pods)
      == Then(one, WalkPods(objects, asked + |one.sent|, namespace, pods[1..]))
  {
    hide WalkedPod, Then;
  }

  lemma {:induction false} WalkNone(objects: nat -> Answer<Object>, asked: nat, namespace: string)
    ensures WalkPods(objects, asked, namespace, []) == NOTHING_WALKED
    ensures forall w: Walked :: Then(w, NOTHING_WALKED) == w && Then(NOTHING_WALKED, w) == w
  {
    forall w: Walked ensures Then(w, NOTHING_WALKED) == w && Then(NOTHING_WALKED, w) == w {
      assert w.pods + [] == w.pods && w.queried + [] == w.queried && w.labels + [] == w.labels && w.sent + [] == w.sent;
    }
  }

  lemma {:induction false} ThenAssoc(a: Walked, b: Walked, c: Walked)
    ensures Then(Then(a, b), c) == Then(a, Then(b, c))
  {
    assert (a.pods + b.pods) + c.pods == a.pods + (b.pods + c.pods);
    assert (a.queried + b.queried) + c.queried == a.queried + (b.queried + c.queried);
    assert (a.labels + b.labels) + c.labels == a.labels + (b.labels + c.labels);
    assert (a.sent + b.sent) + c.sent == a.sent + (b.sent + c.sent);
  }

  /** The pods of an alert, from the first request on. */
  function PodsPhase(objects: nat -> Answer<Object>, lists: nat -> Answer<seq<Object>>, asked: nat,
                     alert: Alert, namespace: string, maxPods: nat): Walked {
    var c := ChoosePods(objects, lists, asked, alert, namespace, maxPods);
    Then(Walked([], c.queried, c.labels, c.sent), WalkPods(objects, asked + |c.sent|, namespace, c.objects))
  }

  /** One event list for each name that can be asked about. */
  function ListsFor(namespace: string, names: seq<string>): seq<Request>
    decreases |names|
  {
    if names == [] then []
    else
      var k := |names| - 1;
      ListsFor(namespace, names[..k])
        + if LegalName(namespace) && LegalName(names[k]) then [EventList(namespace, names[k])] else []
  }

  lemma {:induction false} NoLists(namespace: string)
    ensures ListsFor(namespace, []) == []
  {
  }

  lemma {:induction false} OneList(namespace: string, name: string)
    ensures ListsFor(namespace, [name])
      == if LegalName(namespace) && LegalName(name) then [EventList(namespace, name)] else []
  {
    assert [name][..0] == [];
    hide LegalName;
  }

  lemma {:induction false} MoreLists(namespace: string, names: seq<string>, i: nat)
    requires i < |names|
    ensures ListsFor(namespace, names[..i + 1]) == ListsFor(namespace, names[..i]) + ListsFor(namespace, [names[i]])
  {
    OneList(namespace, names[i]);
    assert names[..i + 1][..i] == names[..i];
    hide LegalName;
  }

  function FirstSources(names: seq<string>): seq<string> {
    if |names| <= MAX_EVENT_SOURCES then names else names[..MAX_EVENT_SOURCES]
  }

  /** The claim and then its events, if it is there. */
  function ClaimRequests(objects: nat -> Answer<Object>, asked: nat, alert: Alert, namespace: string): seq<Request> {
    match AlertLabel(alert, "persistentvolumeclaim")
    case None => []
    case Some(name) =>
      if !LegalName(namespace) || !LegalName(name) then []
      else if objects(asked).Found? then [ClaimRead(namespace, name), EventList(namespace, name)]
      else [ClaimRead(namespace, name)]
  }

  /** A Flux object that was read, and whether it says it is not ready. */
  datatype Link = Link(ref: FluxRef, failing: bool)

  datatype SourceWalk = SourceWalk(links: seq<Link>, sent: seq<Request>)

  /** The object and what it comes from, as far as it is in scope and there. */
  function Sources(flux: nat -> Answer<FluxObject>, asked: nat, scope: Scope, ref: FluxRef, left: nat): SourceWalk
    decreases left, 1
  {
    if !scope.Flux(ref.namespace) || !LegalName(ref.namespace) || !LegalName(ref.name) then SourceWalk([], [])
    else
      var read := FluxRead(ref.kind, ref.namespace, ref.name);
      match flux(asked)
      case Found(obj) =>
        var more := MoreSources(flux, asked + 1, scope, obj.source, left);
        SourceWalk([Link(ref, obj.ready == Some(false))] + more.links, [read] + more.sent)
      case _ => SourceWalk([], [read])
  }

  function MoreSources(flux: nat -> Answer<FluxObject>, asked: nat, scope: Scope, next: Option<FluxRef>, left: nat): SourceWalk
    decreases left, 0
  {
    if left == 0 || next.None? || !IsFluxKind(next.value.kind) then SourceWalk([], [])
    else Sources(flux, asked, scope, next.value, left - 1)
  }

  lemma {:induction false} SourcesUnfold(flux: nat -> Answer<FluxObject>, asked: nat, scope: Scope, ref: FluxRef, left: nat)
    requires IsFluxKind(ref.kind)
    ensures MoreSources(flux, asked, scope, Some(ref), left + 1) == Sources(flux, asked, scope, ref, left)
    ensures var s := Sources(flux, asked, scope, ref, left);
      if !scope.Flux(ref.namespace) || !LegalName(ref.namespace) || !LegalName(ref.name) then s == SourceWalk([], [])
      else if !flux(asked).Found? then s == SourceWalk([], [FluxRead(ref.kind, ref.namespace, ref.name)])
      else Grown(s, [Link(ref, flux(asked).value.ready == Some(false))], [FluxRead(ref.kind, ref.namespace, ref.name)],
                 MoreSources(flux, asked + 1, scope, flux(asked).value.source, left))
  {
    hide LegalName, IsFluxKind;
  }

  /** `whole` is what the walk has so far, followed by `rest`. */
  ghost predicate Grown(whole: SourceWalk, links: seq<Link>, sent: seq<Request>, rest: SourceWalk) {
    whole.links == links + rest.links && whole.sent == sent + rest.sent
  }

  lemma {:induction false} NoMoreSources(flux: nat -> Answer<FluxObject>, asked: nat, scope: Scope, next: Option<FluxRef>, left: nat)
    requires left == 0 || next.None? || !IsFluxKind(next.value.kind)
    ensures MoreSources(flux, asked, scope, next, left) == SourceWalk([], [])
  {
  }

  function Refs(links: seq<Link>): seq<FluxRef> {
    seq(|links|, i requires 0 <= i < |links| => links[i].ref)
  }

  /** The answer to the event list for an object, if it can be asked for. */
  function AnswerTo(lists: nat -> Answer<seq<Event>>, asked: nat, ref: FluxRef): seq<Event> {
    if LegalName(ref.namespace) && LegalName(ref.name) && lists(asked).Found? then lists(asked).value else []
  }

  datatype Gathered = Gathered(sent: seq<Request>, events: seq<Event>)

  /** The event lists for the first object and for the failing ones, and of their
      answers the events about an object of that kind. */
  function Gather(lists: nat -> Answer<seq<Event>>, asked: nat, links: seq<Link>): Gathered
    decreases |links|
  {
    if links == [] then Gathered([], [])
    else
      var k := |links| - 1;
      var g, link := Gather(lists, asked, links[..k]), links[k];
      if k > 0 && !link.failing then g
      else Gathered(g.sent + ListsFor(link.ref.namespace, [link.ref.name]),
                    g.events + OfKind(AnswerTo(lists, asked + |g.sent|, link.ref), link.ref.kind))
  }

  lemma {:induction false} GatherNone(lists: nat -> Answer<seq<Event>>, asked: nat)
    ensures Gather(lists, asked, []) == Gathered([], [])
  {
  }

  lemma {:induction false} GatherOne(lists: nat -> Answer<seq<Event>>, asked: nat, links: seq<Link>, i: nat)
    requires i < |links|
    ensures var g, more, link := Gather(lists, asked, links[..i]), Gather(lists, asked, links[..i + 1]), links[i];
      if i > 0 && !link.failing then more == g
      else more == Gathered(g.sent + ListsFor(link.ref.namespace, [link.ref.name]),
                            g.events + OfKind(AnswerTo(lists, asked + |g.sent|, link.ref), link.ref.kind))
  {
    hide ListsFor, OfKind, AnswerTo;
    assert links[..i + 1][..i] == links[..i];
  }

  datatype Delivered = Delivered(sent: seq<Request>, found: Option<GitOps>)

  /** The delivery state of a target: its chain, and the newest of its events. */
  function Delivery(flux: nat -> Answer<FluxObject>, lists: nat -> Answer<seq<Event>>, asked: nat, scope: Scope,
                    target: Option<FluxRef>, maxEvents: nat): Delivered {
    if target.None? then Delivered([], None)
    else
      var s := Sources(flux, asked, scope, target.value, MAX_SOURCE_HOPS);
      if s.links == [] then Delivered(s.sent, None)
      else
        var g := Gather(lists, asked + |s.sent|, s.links);
        Delivered(s.sent + g.sent, Some(GitOps(Refs(s.links), Cut(Sort(ByTime, g.events), maxEvents))))
  }

  /** A list of requests without event lists brings no events. */
  lemma {:induction false} QuietRequests(lists: nat -> Answer<seq<Event>>, trace: seq<Request>, sent: seq<Request>)
    requires forall r | r in sent :: !r.EventList?
    ensures Received(lists, trace + sent, |trace|) == []
    decreases |sent|
  {
    if sent == [] {
      assert trace + sent == trace;
    } else {
      var k := |sent| - 1;
      QuietRequests(lists, trace, sent[..k]);
      ReceivedOne(lists, trace + sent[..k], sent[k], |trace|);
      assert trace + sent == (trace + sent[..k]) + [sent[k]];
    }
  }

  lemma {:induction false} WalkSendsNoLists(objects: nat -> Answer<Object>, asked: nat, namespace: string, pods: seq<Object>)
    ensures forall r | r in WalkPods(objects, asked, namespace, pods).sent :: !r.EventList?
    decreases |pods|
  {
    hide WalkPods, WalkedPod;
    if pods == [] {
      WalkNone(objects, asked, namespace);
    } else {
      var one := WalkedPod(objects, asked, namespace, pods[0]);
      WalkOne(objects, asked, namespace, pods);
      PodSendsNoLists(objects, asked, namespace, pods[0]);
      WalkSendsNoLists(objects, asked + |one.sent|, namespace, pods[1..]);
    }
  }

  lemma {:induction false} PodSendsNoLists(objects: nat -> Answer<Object>, asked: nat, namespace: string, obj: Object)
    ensures forall r | r in WalkedPod(objects, asked, namespace, obj).sent :: !r.EventList?
  {
    hide Climb, OwnerLabels;
    var w := Climb(objects, asked, namespace, obj, {}, MAX_OWNER_DEPTH);
    WalkIsBounded(objects, asked, namespace, obj, {}, MAX_OWNER_DEPTH);
    forall i | 0 <= i < |w.asks| ensures !w.asks[i].EventList? {
      WalkFollowsControllers(objects, asked, namespace, obj, {}, MAX_OWNER_DEPTH, i);
    }
  }

  lemma {:induction false} PodsSendNoLists(objects: nat -> Answer<Object>, lists: nat -> Answer<seq<Object>>, asked: nat,
                                           alert: Alert, namespace: string, maxPods: nat)
    ensures forall r | r in PodsPhase(objects, lists, asked, alert, namespace, maxPods).sent :: !r.EventList?
  {
    hide WalkPods, LegalName, AlertLabel, WorkloadOf;
    var c := ChoosePods(objects, lists, asked, alert, namespace, maxPods);
    WalkSendsNoLists(objects, asked + |c.sent|, namespace, c.objects);
  }

  /** The claim the alert names, if it was found. */
  function ClaimsFound(objects: nat -> Answer<Object>, asked: nat, alert: Alert, namespace: string): seq<string> {
    if |ClaimRequests(objects, asked, alert, namespace)| == 2 then [AlertLabel(alert, "persistentvolumeclaim").value] else []
  }

  /** The node, if it was asked for and is there. */
  function NodesFound(objects: nat -> Answer<Object>, asked: nat, scope: Scope, name: Option<string>): seq<string> {
    if NodeRequests(scope, name) != [] && objects(asked).Found? then [name.value] else []
  }

  function NodeRequests(scope: Scope, name: Option<string>): seq<Request> {
    if scope.everywhere && name.Some? && LegalName(name.value) then [NodeRead(name.value)] else []
  }

  function NodeOf(alert: Alert, pods: seq<Pod>): Option<string> {
    if AlertLabel(alert, "node").Some? then AlertLabel(alert, "node") else FirstNode(pods)
  }

  lemma {:induction false} NoPodsNoNode(alert: Alert)
    ensures NodeOf(alert, []) == AlertLabel(alert, "node")
  {
  }

  function FirstNode(pods: seq<Pod>): Option<string> {
    if pods == [] then None
    else if pods[0].node.Some? && pods[0].node.value != "" then pods[0].node
    else FirstNode(pods[1..])
  }

  lemma {:induction false} KnownOn(trace: seq<Request>, r: Request)
    ensures forall ns, name | FluxKnown(trace, ns, name) :: FluxKnown(trace + [r], ns, name)
    ensures r.FluxRead? ==> FluxKnown(trace + [r], r.namespace, r.name)
  {
    forall ns, name | FluxKnown(trace, ns, name) ensures FluxKnown(trace + [r], ns, name) {
      var j :| 0 <= j < |trace| && trace[j].FluxRead? && trace[j].namespace == ns && trace[j].name == name;
      assert (trace + [r])[j] == trace[j];
    }
    assert (trace + [r])[|trace|] == r;
  }

  const HELM_NAME := "helm.toolkit.fluxcd.io/name"
  const HELM_NAMESPACE := "helm.toolkit.fluxcd.io/namespace"
  const KUSTOMIZE_NAME := "kustomize.toolkit.fluxcd.io/name"
  const KUSTOMIZE_NAMESPACE := "kustomize.toolkit.fluxcd.io/namespace"

  function OwnerOf(labels: map<string, string>): Option<FluxRef> {
    if Label(labels, HELM_NAME).Some? && Label(labels, HELM_NAMESPACE).Some? then
      Some(FluxRef("HelmRelease", labels[HELM_NAMESPACE], labels[HELM_NAME]))
    else if Label(labels, KUSTOMIZE_NAME).Some? && Label(labels, KUSTOMIZE_NAMESPACE).Some? then
      Some(FluxRef("Kustomization", labels[KUSTOMIZE_NAMESPACE], labels[KUSTOMIZE_NAME]))
    else None
  }

  function FirstOwner(labels: seq<Labelled>): Option<FluxRef> {
    if labels == [] then None
    else if OwnerOf(labels[0].labels).Some? then OwnerOf(labels[0].labels)
    else FirstOwner(labels[1..])
  }

  /** `_gitops_target`. */
  function GitopsTarget(alert: Alert, labels: seq<Labelled>): Option<FluxRef> {
    match RefFromAlert(alert)
    case Some(ref) =>
      if !IsFluxKind(ref.kind) || ref.namespace.None? then None
      else Some(FluxRef(ref.kind, ref.namespace.value, ref.name))
    case None => FirstOwner(labels)
  }

  lemma {:induction false} FirstOwnerIsFlux(labels: seq<Labelled>)
    ensures FirstOwner(labels).Some? ==> IsFluxKind(FirstOwner(labels).value.kind)
    decreases |labels|
  {
    if labels != [] {
      FirstOwnerIsFlux(labels[1..]);
    }
  }

  lemma {:induction false} TargetIsFlux(alert: Alert, labels: seq<Labelled>)
    ensures GitopsTarget(alert, labels).Some? ==> IsFluxKind(GitopsTarget(alert, labels).value.kind)
  {
    FirstOwnerIsFlux(labels);
  }

  /** The events whose object is of this kind; the lists are by name only. */
  function OfKind(events: seq<Event>, kind: string): seq<Event> {
    if events == [] then []
    else (if kind + "/" <= events[0].about then [events[0]] else []) + OfKind(events[1..], kind)
  }

  /** Of events that sort to the same, those of one kind do. */
  lemma {:induction false} KindSorts(a: seq<Event>, kind: string)
    ensures Sort(ByTime, OfKind(a, kind)) == OfKind(Sort(ByTime, a), kind)
  {
    hide Sort;
    SortFacts(ByTime, a);
    KindDescends(Sort(ByTime, a), kind);
    forall t ensures Ranked(ByTime, OfKind(Sort(ByTime, a), kind), t) == Ranked(ByTime, OfKind(a, kind), t) {
      KindRanks(a, kind, t);
      KindRanks(Sort(ByTime, a), kind, t);
    }
    SortIsTheStableOrder(ByTime, OfKind(a, kind), OfKind(Sort(ByTime, a), kind));
  }

  lemma {:induction false} KindRanks(s: seq<Event>, kind: string, t: Rank)
    ensures Ranked(ByTime, OfKind(s, kind), t) == OfKind(Ranked(ByTime, s, t), kind)
  {
    if s != [] {
      KindRanks(s[1..], kind, t);
      KindCons(s[0], OfKind(s[1..], kind), Ranked(ByTime, s[1..], t), kind, t);
    }
  }

  lemma {:induction false} KindCons(e: Event, a: seq<Event>, b: seq<Event>, kind: string, t: Rank)
    ensures OfKind([e] + b, kind) == (if kind + "/" <= e.about then [e] else []) + OfKind(b, kind)
    ensures Ranked(ByTime, [e] + a, t) == (if ByTime(e) == t then [e] else []) + Ranked(ByTime, a, t)
    ensures [] + a == a && [] + b == b
  {
    assert ([e] + a)[1..] == a && ([e] + b)[1..] == b;
  }

  lemma {:induction false} KindDescends(s: seq<Event>, kind: string)
    requires Descending(ByTime, s)
    ensures Descending(ByTime, OfKind(s, kind)) && forall e | e in OfKind(s, kind) :: e in s
  {
    if s != [] {
      DescendingTail(ByTime, s);
      KindDescends(s[1..], kind);
      var rest := OfKind(s[1..], kind);
      hide Descending, OfKind;
      forall i | 0 <= i < |rest| ensures !Below(ByTime(s[0]), ByTime(rest[i])) {
        assert rest[i] in rest;
        var j :| 0 <= j < |s[1..]| && s[1..][j] == rest[i];
      }
      DescendingCons(ByTime, s[0], rest);
      assert [] + rest == rest;
      assert OfKind(s, kind) == (if kind + "/" <= s[0].about then [s[0]] else []) + rest by { KindOf(s, kind); }
    }
  }

  lemma {:induction false} KindOf(s: seq<Event>, kind: string)
    requires s != []
    ensures OfKind(s, kind) == (if kind + "/" <= s[0].about then [s[0]] else []) + OfKind(s[1..], kind)
  {
  }

  lemma {:induction false} MergeOfKind(a: seq<Event>, b: seq<Event>, x: seq<Event>, y: seq<Event>, kind: string)
    requires Sort(ByTime, a) == Sort(ByTime, b) && Sort(ByTime, x) == Sort(ByTime, y)
    ensures Sort(ByTime, a + OfKind(x, kind)) == Sort(ByTime, b + OfKind(y, kind))
  {
    hide Sort, OfKind;
    KindSorts(x, kind);
    KindSorts(y, kind);
    SortingPartsChangesNothing(ByTime, a, OfKind(x, kind));
    SortExtends(ByTime, a, b, OfKind(y, kind));
  }

  /** `_event_sources`: pod names and their owners, or else whatever was looked at. */
  function EventSources(pods: seq<Pod>, queried: seq<string>): seq<string> {
    if WithOwners(pods, []) != [] then WithOwners(pods, []) else AddNames(queried, [])
  }

  function WithOwners(pods: seq<Pod>, names: seq<string>): seq<string>
    decreases |pods|
  {
    if pods == [] then names
    else WithOwners(pods[1..], AddNames(OwnerNames(pods[0].chain), AddName(pods[0].name, names)))
  }

  function OwnerNames(chain: seq<Owner>): seq<string> {
    if chain == [] then [] else [chain[0].name] + OwnerNames(chain[1..])
  }

  function AddName(name: string, names: seq<string>): seq<string> {
    if name == "" || name in names then names else names + [name]
  }

  function AddNames(more: seq<string>, names: seq<string>): seq<string>
    decreases |more|
  {
    if more == [] then names else AddNames(more[1..], AddName(more[0], names))
  }

  lemma {:induction false} NothingReceived(lists: nat -> Answer<seq<Event>>, trace: seq<Request>)
    ensures Received(lists, trace, |trace|) == []
  {
  }

  lemma {:induction false} ReceivedElse(lists: nat -> Answer<seq<Event>>, before: seq<Request>, after: seq<Request>,
                                        r: Request, from: nat)
    requires from <= |before| && !r.EventList? && (after == before || after == before + [r])
    ensures Received(lists, after, from) == Received(lists, before, from)
  {
    if after != before {
      ReceivedOne(lists, before, r, from);
    }
  }

  lemma {:induction false} ReceivedInTwo(lists: nat -> Answer<seq<Event>>, before: seq<Request>, after: seq<Request>,
                                         r: Request, from: nat)
    requires from <= |before| && (after == before || after == before + [r])
    ensures Received(lists, after, from) == Received(lists, before, from) + Received(lists, after, |before|)
  {
    NothingReceived(lists, before);
    if after != before {
      ReceivedOne(lists, before, r, from);
      ReceivedOne(lists, before, r, |before|);
    }
  }

  /** Merging more events into a list that has been sorted and cut. */
  lemma {:induction false} MergeKeeps(known: seq<Event>, extra: seq<Event>, received: seq<Event>, n: nat)
    requires Sort(ByTime, extra) == Sort(ByTime, received)
    ensures Cut(Sort(ByTime, Cut(Sort(ByTime, known), n) + extra), n) == Cut(Sort(ByTime, known + received), n)
  {
    hide Sort, Cut;
    var cut := Cut(Sort(ByTime, known), n);
    SortingPartsChangesNothing(ByTime, cut, extra);
    SortingPartsChangesNothing(ByTime, cut, received);
    CuttingEarlyLosesNothing(ByTime, known, received, n);
  }

  lemma {:induction false} ListedExtends(answer: Answer<seq<Event>>, known: seq<Event>, received: seq<Event>)
    requires Listed(answer).Some? && Sort(ByTime, known) == Sort(ByTime, received)
    ensures Sort(ByTime, known + Listed(answer).value) == Sort(ByTime, received + if answer.Found? then answer.value else [])
  {
    hide Sort;
    if answer.Found? {
      SortExtends(ByTime, known, received, answer.value);
    } else {
      assert known + [] == known && received + [] == received;
    }
  }

  /** The owners that carry Flux labels. */
  function OwnerLabels(chain: seq<Owner>): seq<Labelled> {
    if chain == [] then []
    else (if chain[0].labels != map[] then [Labelled(chain[0].name, chain[0].labels)] else []) + OwnerLabels(chain[1..])
  }
}
