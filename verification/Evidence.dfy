/**
 What an alert and the collected objects name, label by label: the pod, the workload,
 the node, the Flux object, the sources of events, and which events and pods are kept.
 */
module Evidence {
  import opened Results
  import opened Ordering
  import opened Events
  import opened Cluster
  import opened Collector

  /** The label is there with this value, which is not empty. */
  predicate Says(labels: map<string, string>, name: string, value: string) {
    value != "" && name in labels && labels[name] == value
  }

  predicate Silent(labels: map<string, string>, name: string) {
    name !in labels || labels[name] == ""
  }

  /** The exported label wins, the plain one stands in for it, and beside an exported
      namespace a plain `pod` names the scrape target and nothing the alert is about. */
  predicate Names(alert: Alert, name: string, value: string) {
    || Says(alert, "exported_" + name, value)
    || (Silent(alert, "exported_" + name) && Says(alert, name, value)
        && (name == "pod" ==> Silent(alert, "exported_namespace")))
  }

  ghost predicate Nameless(alert: Alert, name: string) {
    forall value :: !Names(alert, name, value)
  }

  lemma {:induction false} LabelExactly(alert: Alert, name: string)
    ensures forall value :: AlertLabel(alert, name) == Some(value) <==> Names(alert, name, value)
    ensures AlertLabel(alert, name) == None <==> Nameless(alert, name)
  {
    assert AlertLabel(alert, name).Some? ==> Names(alert, name, AlertLabel(alert, name).value);
  }

  // ----- The workload

  datatype Row = Row(name: string, kind: string, api: string, plural: string)

  const DEPLOYMENT := Row("deployment", "Deployment", "apps/v1", "deployments")
  const STATEFUL_SET := Row("statefulset", "StatefulSet", "apps/v1", "statefulsets")
  const DAEMON_SET := Row("daemonset", "DaemonSet", "apps/v1", "daemonsets")
  const JOB := Row("job_name", "Job", "batch/v1", "jobs")

  /** The alert names the workload under this row's label, and none under those before. */
  ghost predicate NamedBy(alert: Alert, row: Row, before: set<string>, w: Workload) {
    && Names(alert, row.name, w.name) && w.kind == row.kind && w.api == row.api && w.plural == row.plural
    && forall name | name in before :: Nameless(alert, name)
  }

  lemma {:induction false} WorkloadExactly(alert: Alert, w: Workload)
    ensures WorkloadOf(alert) == Some(w) <==> (
      || NamedBy(alert, DEPLOYMENT, {}, w)
      || NamedBy(alert, STATEFUL_SET, {"deployment"}, w)
      || NamedBy(alert, DAEMON_SET, {"deployment", "statefulset"}, w)
      || NamedBy(alert, JOB, {"deployment", "statefulset", "daemonset"}, w))
  {
    hide AlertLabel, Names, Nameless;
    LabelExactly(alert, "deployment");
    LabelExactly(alert, "statefulset");
    LabelExactly(alert, "daemonset");
    LabelExactly(alert, "job_name");
  }

  // ----- The Flux object

  predicate FluxKind(kind: string) {
    || kind == "HelmRelease" || kind == "Kustomization" || kind == "GitRepository" || kind == "OCIRepository"
    || kind == "HelmRepository" || kind == "HelmChart" || kind == "Bucket"
  }

  /** The alert is about a custom resource of Flux, of this kind and name. */
  ghost predicate AboutFlux(alert: Alert, kind: string, name: string) {
    && Says(alert, "customresource_kind", kind) && Says(alert, "name", name)
    && exists front :: Says(alert, "customresource_group", front + ".toolkit.fluxcd.io")
  }

  /** The release or the kustomization that ownership labels name; a release comes first. */
  predicate Owns(labels: map<string, string>, ref: FluxRef) {
    if Silent(labels, "helm.toolkit.fluxcd.io/name") || Silent(labels, "helm.toolkit.fluxcd.io/namespace") then
      && ref.kind == "Kustomization" && Says(labels, "kustomize.toolkit.fluxcd.io/name", ref.name)
      && Says(labels, "kustomize.toolkit.fluxcd.io/namespace", ref.namespace)
    else
      && ref.kind == "HelmRelease" && Says(labels, "helm.toolkit.fluxcd.io/name", ref.name)
      && Says(labels, "helm.toolkit.fluxcd.io/namespace", ref.namespace)
  }

  ghost predicate Unowned(labels: map<string, string>) {
    forall ref :: !Owns(labels, ref)
  }

  /** The first labels that name an owner name this one. */
  ghost predicate FirstOwns(labels: seq<Labelled>, ref: FluxRef) {
    exists i | 0 <= i < |labels| :: Owns(labels[i].labels, ref) && forall j | 0 <= j < i :: Unowned(labels[j].labels)
  }

  lemma {:induction false} OwnerExactly(labels: map<string, string>)
    ensures forall ref :: OwnerOf(labels) == Some(ref) <==> Owns(labels, ref)
    ensures OwnerOf(labels) == None <==> Unowned(labels)
  {
    assert OwnerOf(labels).Some? ==> Owns(labels, OwnerOf(labels).value);
  }

  lemma {:induction false} FirstOwnerExactly(labels: seq<Labelled>, ref: FluxRef)
    ensures FirstOwner(labels) == Some(ref) <==> FirstOwns(labels, ref)
  {
    hide OwnerOf, Owns, Unowned;
    if labels != [] {
      OwnerExactly(labels[0].labels);
      FirstOwnerExactly(labels[1..], ref);
      if FirstOwns(labels[1..], ref) && Unowned(labels[0].labels) {
        var i :| 0 <= i < |labels[1..]| && Owns(labels[1..][i].labels, ref)
          && forall j | 0 <= j < i :: Unowned(labels[1..][j].labels);
        assert forall j | 0 < j <= i :: labels[j] == labels[1..][j - 1];
        assert Owns(labels[i + 1].labels, ref);
      }
      if FirstOwns(labels, ref) && Unowned(labels[0].labels) {
        var i :| 0 <= i < |labels| && Owns(labels[i].labels, ref) && forall j | 0 <= j < i :: Unowned(labels[j].labels);
        assert i > 0 && labels[1..][i - 1] == labels[i];
      }
    }
  }

  predicate RefersTo(ref: Option<AlertRef>, kind: string, name: string) {
    ref.Some? && ref.value.kind == kind && ref.value.name == name
  }

  lemma {:induction false} AboutExactly(alert: Alert)
    ensures forall kind, name :: AboutFlux(alert, kind, name) <==> RefersTo(RefFromAlert(alert), kind, name)
  {
    hide AlertLabel;
    if "customresource_group" in alert {
      var group := alert["customresource_group"];
      if EndsWith(group, ".toolkit.fluxcd.io") {
        assert group == group[..|group| - |".toolkit.fluxcd.io"|] + ".toolkit.fluxcd.io";
      }
      assert forall front: string :: EndsWith(front + ".toolkit.fluxcd.io", ".toolkit.fluxcd.io");
    }
  }

  /** What is taken to deliver the alert's object: the Flux object the alert is about, if its
      kind is read and its namespace known, or else the owner that the labels name. */
  lemma {:induction false} TargetExactly(alert: Alert, labels: seq<Labelled>, ref: FluxRef)
    ensures GitopsTarget(alert, labels) == Some(ref) <==> (
      if exists kind, name :: AboutFlux(alert, kind, name) then
        FluxKind(ref.kind) && AboutFlux(alert, ref.kind, ref.name) && Names(alert, "namespace", ref.namespace)
      else FirstOwns(labels, ref))
  {
    AboutExactly(alert);
    LabelExactly(alert, "namespace");
    FirstOwnerExactly(labels, ref);
    assert RefFromAlert(alert).Some? ==> RefFromAlert(alert).value.namespace == AlertLabel(alert, "namespace");
    assert RefFromAlert(alert).Some? ==> AboutFlux(alert, RefFromAlert(alert).value.kind, RefFromAlert(alert).value.name);
    hide RefFromAlert, AlertLabel, AboutFlux, Names, FirstOwner, FirstOwns;
  }

  // ----- The node

  /** The node the alert names, or else the first pod's that has one. */
  lemma {:induction false} NodeExactly(alert: Alert, pods: seq<Pod>, node: string)
    ensures NodeOf(alert, pods) == Some(node) <==> (
      || Names(alert, "node", node)
      || (Nameless(alert, "node") && FirstRuns(pods, node)))
  {
    hide AlertLabel, Names;
    LabelExactly(alert, "node");
    FirstNodeExactly(pods, node);
  }

  /** The first pod that has a node runs on this one. */
  predicate FirstRuns(pods: seq<Pod>, node: string) {
    node != "" && exists i | 0 <= i < |pods| :: pods[i].node == Some(node) && Homeless(pods[..i])
  }

  predicate Homeless(pods: seq<Pod>) {
    forall j | 0 <= j < |pods| :: pods[j].node == None || pods[j].node == Some("")
  }

  lemma {:induction false} FirstNodeExactly(pods: seq<Pod>, node: string)
    ensures FirstNode(pods) == Some(node) <==> FirstRuns(pods, node)
  {
    if pods != [] {
      FirstNodeExactly(pods[1..], node);
      if FirstRuns(pods[1..], node) && Homeless(pods[..1]) {
        var i :| 0 <= i < |pods[1..]| && pods[1..][i].node == Some(node) && Homeless(pods[1..][..i]);
        assert forall j | 0 < j <= i :: pods[j] == pods[1..][..i][j - 1];
        assert pods[..1][0] == pods[0];
        assert pods[i + 1].node == Some(node) && Homeless(pods[..i + 1]);
      }
      if FirstRuns(pods, node) {
        var i :| 0 <= i < |pods| && pods[i].node == Some(node) && Homeless(pods[..i]);
        if i > 0 {
          assert pods[1..][i - 1] == pods[i] && pods[..i][0] == pods[0];
          assert pods[1..][..i - 1] == pods[..i][1..];
        }
      }
    }
  }

  // ----- The sources of events

  /** `names` are what `list` mentions, each once, in the order of first mention. */
  ghost predicate FirstMentions(list: seq<string>, names: seq<string>) {
    && (forall n :: n in names <==> n in list && n != "")
    && (forall i, j | 0 <= i < j < |names| :: names[i] != names[j])
    && (forall i, j | 0 <= i < j < |names| :: Before(list, names[i], names[j]))
  }

  ghost predicate Before(list: seq<string>, a: string, b: string) {
    exists k | 0 <= k <= |list| :: a in list[..k] && b !in list[..k]
  }

  lemma {:induction false} AddNamesSplits(a: seq<string>, b: seq<string>, names: seq<string>)
    ensures AddNames(a + b, names) == AddNames(b, AddNames(a, names))
    decreases |a|
  {
    if a == [] {
      assert a + b == b;
    } else {
      assert (a + b)[0] == a[0] && (a + b)[1..] == a[1..] + b;
      AddNamesSplits(a[1..], b, AddName(a[0], names));
    }
  }

  lemma {:induction false} MentionsExactly(list: seq<string>)
    ensures FirstMentions(list, AddNames(list, []))
    decreases |list|
  {
    if list != [] {
      var front, last := list[..|list| - 1], list[|list| - 1];
      assert list == front + [last];
      MentionsExactly(front);
      AddNamesSplits(front, [last], []);
      assert AddNames([last], AddNames(front, [])) == AddName(last, AddNames(front, []));
      OneMore(front, last, AddNames(front, []));
    }
  }

  lemma {:induction false} OneMore(front: seq<string>, last: string, names: seq<string>)
    requires FirstMentions(front, names)
    ensures FirstMentions(front + [last], AddName(last, names))
  {
    var list, more := front + [last], AddName(last, names);
    forall i, j | 0 <= i < j < |more| ensures Before(list, more[i], more[j]) {
      if j < |names| {
        var k :| 0 <= k <= |front| && names[i] in front[..k] && names[j] !in front[..k];
        assert list[..k] == front[..k];
      } else {
        assert list[..|front|] == front;
      }
    }
  }

  /** The names of the pods, each followed by the names of its owners. */
  function Mentioned(pods: seq<Pod>): seq<string> {
    if pods == [] then []
    else
      var chain := pods[0].chain;
      [pods[0].name] + seq(|chain|, i requires 0 <= i < |chain| => chain[i].name) + Mentioned(pods[1..])
  }

  lemma {:induction false} OwnerNamesAre(chain: seq<Owner>)
    ensures OwnerNames(chain) == seq(|chain|, i requires 0 <= i < |chain| => chain[i].name)
  {
    if chain != [] {
      OwnerNamesAre(chain[1..]);
    }
  }

  lemma {:induction false} OwnersAreMentioned(pods: seq<Pod>, names: seq<string>)
    ensures WithOwners(pods, names) == AddNames(Mentioned(pods), names)
    decreases |pods|
  {
    hide AddName;
    if pods != [] {
      var pod := pods[0];
      OwnerNamesAre(pod.chain);
      AddNamesSplits([pod.name], OwnerNames(pod.chain), names);
      AddNamesSplits([pod.name] + OwnerNames(pod.chain), Mentioned(pods[1..]), names);
      assert AddNames([pod.name], names) == AddName(pod.name, names);
      OwnersAreMentioned(pods[1..], AddNames(OwnerNames(pod.chain), AddName(pod.name, names)));
    }
  }

  /** Events are asked for about the pods and their owners, or, when those have no names,
      about whatever was looked at; about each name once, and about the first four. */
  lemma {:induction false} SourcesExactly(pods: seq<Pod>, queried: seq<string>)
    ensures var names := EventSources(pods, queried);
      && FirstMentions(if exists n :: n in Mentioned(pods) && n != "" then Mentioned(pods) else queried, names)
      && FirstSources(names) == if |names| <= 4 then names else names[..4]
  {
    hide AddNames, Mentioned, WithOwners;
    OwnersAreMentioned(pods, []);
    MentionsExactly(Mentioned(pods));
    MentionsExactly(queried);
    var all := WithOwners(pods, []);
    assert all != [] ==> all[0] in all;
  }

  // ----- What is kept

  /** `d` is not newer than `e`; an event without a time counts as the oldest. */
  predicate NotNewer(d: Event, e: Event) {
    d.at == None || d.at == Some(0) || (e.at.Some? && d.at.value <= e.at.value)
  }

  /** The cap on events drops none that is newer than one it keeps, keeps the newest first,
      and those of one moment in the order they came in. */
  lemma {:induction false} NewestAreKept(events: seq<Event>, n: nat)
    ensures var sorted, kept := Sort(ByTime, events), Cut(Sort(ByTime, events), n);
      && StableOrder(ByTime, events, sorted) && |sorted| == |events| && kept <= sorted
      && |kept| == (if n < |events| then n else |events|)
      && forall i, j | 0 <= i < j < |sorted| :: NotNewer(sorted[j], sorted[i])
  {
    hide Sort, Ranked;
    SortFacts(ByTime, events);
    SortIsTheStableOrder(ByTime, events, Sort(ByTime, events));
    var sorted := Sort(ByTime, events);
    forall i, j | 0 <= i < j < |sorted| ensures NotNewer(sorted[j], sorted[i]) {
      assert !Below(ByTime(sorted[i]), ByTime(sorted[j]));
    }
  }

  predicate Undisturbed(containers: seq<Container>) {
    forall i | 0 <= i < |containers| :: containers[i].ready && containers[i].restarts == 0
  }

  /** A pod is healthy when it runs, has containers, and all of them are ready and have
      never been restarted. */
  lemma {:induction false} HealthyExactly(pod: Object)
    requires forall i | 0 <= i < |pod.containers| :: pod.containers[i].restarts >= 0
    ensures Healthy(pod) <==> pod.running && pod.containers != [] && Undisturbed(pod.containers)
  {
    NoRestarts(pod.containers);
  }

  lemma {:induction false} NoRestarts(containers: seq<Container>)
    requires forall i | 0 <= i < |containers| :: containers[i].restarts >= 0
    ensures Restarts(containers) >= 0
    ensures Restarts(containers) == 0 <==> forall i | 0 <= i < |containers| :: containers[i].restarts == 0
  {
    if containers != [] {
      NoRestarts(containers[1..]);
      assert forall i | 0 < i < |containers| :: containers[i] == containers[1..][i - 1];
    }
  }

  /** The events about an object of one kind, in their order. */
  lemma {:induction false} KindExactly(a: seq<Event>, b: seq<Event>, kind: string, e: Event)
    ensures OfKind(a + b, kind) == OfKind(a, kind) + OfKind(b, kind)
    ensures OfKind([e], kind) == if exists name :: e.about == kind + "/" + name then [e] else []
    decreases |a|
  {
    assert [e][1..] == [] && [e] + [] == [e];
    if kind + "/" <= e.about {
      assert e.about == kind + "/" + e.about[|kind| + 1..];
    }
    KindSplits(a, b, kind);
  }

  lemma {:induction false} KindSplits(a: seq<Event>, b: seq<Event>, kind: string)
    ensures OfKind(a + b, kind) == OfKind(a, kind) + OfKind(b, kind)
    decreases |a|
  {
    if a == [] {
      assert a + b == b;
    } else {
      assert (a + b)[0] == a[0] && (a + b)[1..] == a[1..] + b;
      KindSplits(a[1..], b, kind);
    }
  }

  // ----- What is asked for

  /** The pod that the alert names is the one that is read, and nothing stands in for it. */
  lemma {:induction false} NamedPodExactly(objects: nat -> Answer<Object>, lists: nat -> Answer<seq<Object>>, asked: nat,
                                           alert: Alert, namespace: string, maxPods: nat, name: string)
    requires Names(alert, "pod", name)
    ensures var c := ChoosePods(objects, lists, asked, alert, namespace, maxPods);
      if LegalName(namespace) && LegalName(name) then
        && c.sent == [PodRead(namespace, name)]
        && c.objects == if objects(asked).Found? then [objects(asked).value] else []
      else c.sent == [] && c.objects == []
  {
    LabelExactly(alert, "pod");
    hide AlertLabel, Names, LegalName, WorkloadPods, WorkloadOf;
  }

  /** Without one, its workload is read, and by the workload's selector its pods, of which the
      least healthy are kept; without either nothing is asked. */
  lemma {:induction false} WorkloadPodsExactly(objects: nat -> Answer<Object>, lists: nat -> Answer<seq<Object>>, asked: nat,
                                               alert: Alert, namespace: string, maxPods: nat)
    requires Nameless(alert, "pod")
    ensures var c, target := ChoosePods(objects, lists, asked, alert, namespace, maxPods), WorkloadOf(alert);
      if target.None? || !LegalName(namespace) || !LegalName(target.value.name) then c.sent == [] && c.objects == []
      else
        var read := OwnerRead(target.value.api, target.value.plural, namespace, target.value.name);
        if !objects(asked).Found? || objects(asked).value.selector.None? then c.sent == [read] && c.objects == []
        else
          && c.sent == [read, PodList(namespace, objects(asked).value.selector.value)]
          && c.objects == if lists(asked + 1).Found? then Cut(Sort(ByHealth, lists(asked + 1).value), maxPods) else []
  {
    LabelExactly(alert, "pod");
    hide AlertLabel, Nameless, LegalName, WorkloadOf, Sort, Cut;
  }

  /** The claim that the alert names is read, and its events when it is there. */
  lemma {:induction false} ClaimExactly(objects: nat -> Answer<Object>, asked: nat, alert: Alert, namespace: string, name: string)
    ensures Names(alert, "persistentvolumeclaim", name) && LegalName(namespace) && LegalName(name) ==>
      ClaimRequests(objects, asked, alert, namespace)
      == [ClaimRead(namespace, name)] + if objects(asked).Found? then [EventList(namespace, name)] else []
    ensures Nameless(alert, "persistentvolumeclaim") || !LegalName(namespace) ==> ClaimRequests(objects, asked, alert, namespace) == []
    ensures Names(alert, "persistentvolumeclaim", name) && !LegalName(name) ==>
      ClaimRequests(objects, asked, alert, namespace) == []
  {
    LabelExactly(alert, "persistentvolumeclaim");
    hide AlertLabel, Names, LegalName;
  }

  /** A node is asked for exactly when reads are cluster-wide and its name is legal. */
  lemma {:induction false} NodeIsAsked(scope: Scope, name: Option<string>, node: string)
    ensures NodeRead(node) in NodeRequests(scope, name) <==> scope.everywhere && name == Some(node) && LegalName(node)
    ensures |NodeRequests(scope, name)| <= 1
  {
    hide LegalName;
  }

  /** The events of a delivery chain: the lists for its first object and for those that say they
      are not ready, and of what they hold the events about an object of that kind. */
  lemma {:induction false} ChainEventsExactly(lists: nat -> Answer<seq<Event>>, asked: nat, links: seq<Link>, link: Link)
    ensures var g, more, ref := Gather(lists, asked, links), Gather(lists, asked, links + [link]), link.ref;
      if links != [] && !link.failing then more == g
      else if !LegalName(ref.namespace) || !LegalName(ref.name) then more == g
      else
        var answer := lists(asked + |g.sent|);
        && more.sent == g.sent + [EventList(ref.namespace, ref.name)]
        && more.events == g.events + OfKind(if answer.Found? then answer.value else [], ref.kind)
    ensures Gather(lists, asked, []) == Gathered([], [])
  {
    hide LegalName, Gather, ListsFor;
    var all, ref := links + [link], link.ref;
    assert all[..|links|] == links && all[|links|] == link && all[..|all|] == all;
    GatherNone(lists, asked);
    GatherOne(lists, asked, all, |links|);
    OneList(ref.namespace, ref.name);
    var g := Gather(lists, asked, links);
    assert g.sent + [] == g.sent && g.events + [] == g.events;
    assert OfKind([], ref.kind) == [];
  }

  // ----- How far is looked

  /** Of a pod the owners up to the fourth are looked up, and those with ownership labels give
      them, the nearest first. */
  lemma {:induction false} OwnersExactly(objects: nat -> Answer<Object>, asked: nat, namespace: string, obj: Object,
                                         near: seq<Owner>, owner: Owner, far: seq<Owner>)
    ensures var w, up := WalkedPod(objects, asked, namespace, obj), Climb(objects, asked, namespace, obj, {}, 4);
      && w.pods == [Pod(obj.name, obj.node, up.chain)] && w.queried == [obj.name] && w.sent == up.asks
      && |up.chain| <= 4
      && w.labels == OwnerLabels(up.chain)
    ensures var here := if owner.labels == map[] then [] else [Labelled(owner.name, owner.labels)];
      OwnerLabels(near + [owner] + far) == OwnerLabels(near) + here + OwnerLabels(far)
  {
    hide Climb;
    WalkIsBounded(objects, asked, namespace, obj, {}, 4);
    LabelsSplit(near + [owner], far);
    LabelsSplit(near, [owner]);
    assert [owner][1..] == [];
  }

  lemma {:induction false} LabelsSplit(a: seq<Owner>, b: seq<Owner>)
    ensures OwnerLabels(a + b) == OwnerLabels(a) + OwnerLabels(b)
    decreases |a|
  {
    if a == [] {
      assert a + b == b;
    } else {
      assert (a + b)[0] == a[0] && (a + b)[1..] == a[1..] + b;
      LabelsSplit(a[1..], b);
    }
  }

  /** Of a Flux object the sources up to the second are looked up. */
  lemma {:induction false} ChainExactly(flux: nat -> Answer<FluxObject>, lists: nat -> Answer<seq<Event>>, asked: nat,
                                        scope: Scope, target: FluxRef, maxEvents: nat)
    ensures var found, s := Delivery(flux, lists, asked, scope, Some(target), maxEvents).found, Sources(flux, asked, scope, target, 2);
      && |s.links| <= 3 && (found.None? <==> s.links == [])
      && (found.Some? ==> found.value.objects == Refs(s.links))
  {
    SourcesBounded(flux, asked, scope, target, 2);
    hide Sources, Gather;
  }

  lemma {:induction false} SourcesBounded(flux: nat -> Answer<FluxObject>, asked: nat, scope: Scope, ref: FluxRef, left: nat)
    ensures |Sources(flux, asked, scope, ref, left).links| <= left + 1
    decreases left
  {
    hide LegalName, IsFluxKind;
    match flux(asked)
    case Found(obj) =>
      if left > 0 && obj.source.Some? {
        SourcesBounded(flux, asked + 1, scope, obj.source.value, left - 1);
      }
    case _ =>
  }

  // ----- What may be asked

  predicate Bound(scope: Scope, namespace: string) {
    scope.everywhere || namespace in scope.namespaces
  }

  ghost predicate ReadBefore(trace: seq<Request>, namespace: string, name: string) {
    exists kind :: FluxRead(kind, namespace, name) in trace
  }

  /** A trace in scope: core objects in the namespaces the agent is bound in, Flux objects also
      in those of the Flux role, their events there only after they have been read, and nodes
      only cluster-wide. */
  lemma {:induction false} NothingOutside(scope: Scope, trace: seq<Request>, i: nat)
    requires InScope(scope, trace) && i < |trace|
    ensures match trace[i]
      case PodRead(ns, _) => Bound(scope, ns)
      case PodList(ns, _) => Bound(scope, ns)
      case OwnerRead(_, _, ns, _) => Bound(scope, ns)
      case ClaimRead(ns, _) => Bound(scope, ns)
      case FluxRead(kind, ns, _) => FluxKind(kind) && (Bound(scope, ns) || ns in scope.fluxNamespaces)
      case NodeRead(_) => scope.everywhere
      case EventList(ns, name) => Bound(scope, ns) || (ns in scope.fluxNamespaces && ReadBefore(trace[..i], ns, name))
  {
    assert Permitted(scope, trace[..i], trace[i]);
    match trace[i]
    case EventList(ns, name) =>
      if !Bound(scope, ns) {
        var j :| 0 <= j < i && trace[..i][j].FluxRead? && trace[..i][j].namespace == ns && trace[..i][j].name == name;
        assert trace[..i][j] == FluxRead(trace[..i][j].kind, ns, name);
      }
    case _ =>
  }
}
