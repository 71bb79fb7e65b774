/**
 The webhook, the operator's triggers and the poller's tick as programs over the
 agent's tables.
 */
module Handlers {
  import opened Results
  import opened Repository
  import opened Pipeline
  import opened World
  import opened Reachability
  import opened Agent
  import W = World
  import Lifecycle
  import OneOpenRun

  /** The alerts of one webhook call: their dedup keys, the numbers their rows would
      get, and what their pipelines would meet. */
  datatype Alert = Alert(key: string, id: Id, env: Env)

  datatype Handled = Duplicate | Parked | Dispatched

  lemma {:induction false} Taken(cfg: Config, start: World, before: World, a: Action)
    requires Lifecycle.Inv(before) && Reaches(cfg, start, before) && Enabled(before, a)
    ensures Lifecycle.Inv(Do(cfg, before, a)) && Reaches(cfg, start, Do(cfg, before, a))
  {
    hide Lifecycle.Inv, Reaches, Do, Enabled;
    Lifecycle.DoInv(cfg, before, a);
    ReachesByOne(cfg, before, a);
    ReachesOn(cfg, start, before, Do(cfg, before, a));
  }

  /** The handler has come from `start`, and the runs in `rest` are untouched. */
  ghost predicate Running(a: Agent, start: World, rest: set<Id>)
    reads a
  {
    && a.Valid() && Reaches(a.cfg, start, a.State())
    && forall id | id in rest :: Kept(start, a.State(), id)
  }

  lemma {:induction false} KeptOn(a: World, b: World, c: World, id: Id)
    requires Kept(a, b, id) && Kept(b, c, id)
    ensures Kept(a, c, id)
  {
  }

  lemma {:induction false} AllKeptOn(a: World, b: World, c: World, ids: set<Id>)
    requires forall id | id in ids :: Kept(a, b, id) && Kept(b, c, id)
    ensures forall id | id in ids :: Kept(a, c, id)
  {
    hide Kept;
    forall id | id in ids ensures Kept(a, c, id) {
      KeptOn(a, b, c, id);
    }
  }

  /** The handler is suspended; its own run `id` waits with it. */
  method Pause(a: Agent, id: Id, rest: set<Id>, ghost start: World)
    requires Running(a, start, rest)
    modifies a
    ensures Running(a, start, rest) && Kept(old(a.State()), a.State(), id)
    ensures old(a.schedule) == [] ==> a.State() == old(a.State()) && a.schedule == []
    ensures NoPolls(old(a.schedule)) ==> NoPolls(a.schedule) && ListingsKept(old(a.State()), a.State())
  {
    hide Lifecycle.Inv, Reaches, Kept, NoPolls, ListingsKept;
    ghost var before := a.State();
    a.Await(rest + {id});
    ReachesOn(a.cfg, start, before, a.State());
    AllKeptOn(start, before, a.State(), rest);
  }

  lemma {:induction false} Acts(cfg: Config, start: World, before: World, x: Action, id: Id, rest: set<Id>)
    requires Lifecycle.Inv(before) && Reaches(cfg, start, before) && Enabled(before, x) && id !in rest
    requires forall j | j in rest :: Kept(start, before, j)
    requires match x case Receive(j, _, _) => j == id case Submit(j, _) => j == id case Park(j) => j == id
      case Spawn(j, _) => j == id case Approve(j) => j == id case Dispatch(j, _) => j == id case _ => false
    ensures Lifecycle.Inv(Do(cfg, before, x)) && Reaches(cfg, start, Do(cfg, before, x))
    ensures forall j | j in rest :: Kept(start, Do(cfg, before, x), j)
  {
    Taken(cfg, start, before, x);
    hide Lifecycle.Inv, Reaches, Pruned, DoStep;
  }

  method InsertRow(a: Agent, id: Id, key: string, manual: bool, launch: Launch, rest: set<Id>, ghost start: World)
    requires Running(a, start, rest) && id !in rest && id !in a.past.born
    requires if manual then launch == ToSpawn(key, false) else launch == ToSpawn(key, true) || launch == ToPark
    modifies a`runs, a`inbox, a`past
    ensures Running(a, start, rest) && a.State() == Insert(old(a.State()), id, key, manual, launch)
  {
    ghost var before := a.State();
    ghost var x := if manual then Submit(id, key) else Receive(id, key, launch.ToPark?);
    assert Do(a.cfg, before, x) == Insert(before, id, key, manual, launch);
    Acts(a.cfg, start, before, x, id, rest);
    hide Lifecycle.Inv, Reaches, Kept, Do, W.Insert;
    a.Insert(id, key, manual, launch);
  }

  method ParkRow(a: Agent, id: Id, rest: set<Id>, ghost start: World)
    requires Running(a, start, rest) && id !in rest && id in a.inbox && a.inbox[id].ToPark?
    modifies a`runs, a`inbox, a`past
    ensures Running(a, start, rest) && a.State() == DoPark(old(a.State()), id)
  {
    ghost var before := a.State();
    assert Do(a.cfg, before, Park(id)) == DoPark(before, id);
    Acts(a.cfg, start, before, Park(id), id, rest);
    hide Lifecycle.Inv, Reaches, Kept, Do, DoPark;
    a.Park(id);
  }

  method CreateTask(a: Agent, id: Id, env: Env, rest: set<Id>, ghost start: World)
    requires Running(a, start, rest) && id !in rest && id in a.inbox && a.inbox[id].ToSpawn?
    modifies a`tasks, a`inbox
    ensures Running(a, start, rest) && a.State() == DoSpawn(old(a.State()), id, env)
  {
    ghost var before := a.State();
    assert Do(a.cfg, before, Spawn(id, env)) == DoSpawn(before, id, env);
    Acts(a.cfg, start, before, Spawn(id, env), id, rest);
    hide Lifecycle.Inv, Reaches, Kept, Do, DoSpawn;
    a.Spawn(id, env);
  }

  // ----- The webhook

  /** The world after one alert when nobody interferes. */
  function HandledAlone(w: World, alert: Alert, manual: bool): World {
    if HasOpenRun(w.db, alert.key) then w
    else if manual then DoPark(Insert(w, alert.id, alert.key, false, ToPark), alert.id)
    else
      var inserted := Insert(w, alert.id, alert.key, false, ToSpawn(alert.key, true));
      DoSpawn(inserted, alert.id, alert.env)
  }

  /** One alert of the batch: lookup, insert, then park or dispatch, with a suspension
      before each. */
  method HandleAlert(a: Agent, alert: Alert, manual: bool, rest: set<Id>, ghost start: World) returns (r: Handled)
    requires Running(a, start, rest) && alert.id !in rest && alert.id !in a.past.born
    modifies a
    ensures Running(a, start, rest)
    ensures r.Parked? ==> manual
    ensures r.Dispatched? ==> !manual && alert.id in a.tasks && a.tasks[alert.id] == NewTask(alert.key, true, alert.env)
    ensures r.Duplicate? ==> alert.id !in a.past.born
    ensures old(a.schedule) == [] ==> a.schedule == []
    ensures old(a.schedule) == [] ==> a.State() == HandledAlone(old(a.State()), alert, manual)
  {
    hide Running, HasOpenRun, DoPark, NewTask;
    var id := alert.id;
    Pause(a, id, rest, start);
    if HasOpenRun(a.Database(), alert.key) { return Duplicate; }
    Pause(a, id, rest, start);
    InsertRow(a, id, alert.key, false, if manual then ToPark else ToSpawn(alert.key, true), rest, start);
    Pause(a, id, rest, start);
    if manual {
      ParkRow(a, id, rest, start);
      return Parked;
    }
    CreateTask(a, id, alert.env, rest, start);
    return Dispatched;
  }

  function Ids(alerts: seq<Alert>): set<Id> {
    set i | 0 <= i < |alerts| :: alerts[i].id
  }

  ghost predicate Fresh(alerts: seq<Alert>, w: World) {
    && (forall i, j | 0 <= i < j < |alerts| :: alerts[i].id != alerts[j].id)
    && (forall i | 0 <= i < |alerts| :: alerts[i].id !in w.past.born)
  }

  /** The batch, one alert after the other, when nobody interferes. */
  function BatchAlone(w: World, alerts: seq<Alert>, manual: bool): World
    decreases |alerts|
  {
    if alerts == [] then w
    else
      var k := |alerts| - 1;
      HandledAlone(BatchAlone(w, alerts[..k], manual), alerts[k], manual)
  }

  lemma {:induction false} RestOf(alerts: seq<Alert>, i: nat, w: World)
    requires i < |alerts| && Fresh(alerts, w)
    ensures alerts[i].id !in Ids(alerts[i + 1..]) && Ids(alerts[i + 1..]) <= Ids(alerts[i..])
    ensures alerts[i].id in Ids(alerts[i..])
  {
    assert alerts[i..][0] == alerts[i];
    forall id | id in Ids(alerts[i + 1..]) ensures id in Ids(alerts[i..]) && id != alerts[i].id {
      var j :| 0 <= j < |alerts| - i - 1 && alerts[i + 1..][j].id == id;
      assert alerts[i..][j + 1].id == id && alerts[i + 1 + j].id == id;
    }
  }

  lemma {:induction false} StillFree(a: World, b: World, id: Id)
    requires Kept(a, b, id) && id !in a.past.born
    ensures id !in b.past.born
  {
  }

  lemma {:induction false} IdOf(alerts: seq<Alert>, w: World, i: nat)
    requires Fresh(alerts, w) && i < |alerts|
    ensures alerts[i].id !in w.past.born
  {
  }

  /** `alertmanager_webhook`: the mode is read once and holds for the whole batch. */
  method Webhook(a: Agent, alerts: seq<Alert>) returns (r: seq<Handled>, manual: bool)
    requires a.Valid() && Fresh(alerts, a.State())
    modifies a
    ensures a.Valid() && Reaches(a.cfg, old(a.State()), a.State())
    ensures manual == old(ManualMode(a.Database())) && |r| == |alerts|
    ensures forall i | 0 <= i < |r| :: (r[i].Parked? ==> manual) && (r[i].Dispatched? ==> !manual)
    ensures old(a.schedule) == [] ==> a.State() == BatchAlone(old(a.State()), alerts, manual)
  {
    hide Lifecycle.Inv, Reaches, Kept, HandledAlone, ManualMode, Fresh, Ids;
    ghost var start := a.State();
    manual := a.GetProcessingMode();
    r := [];
    ReachesItself(a.cfg, start);
    KeptByNothing(start);
    assert alerts[..0] == [] && alerts[0..] == alerts;
    for i := 0 to |alerts|
      invariant |r| == i && Running(a, start, Ids(alerts[i..]))
      invariant forall j | 0 <= j < i :: (r[j].Parked? ==> manual) && (r[j].Dispatched? ==> !manual)
      invariant old(a.schedule) == [] ==> a.schedule == []
      invariant old(a.schedule) == [] ==> a.State() == BatchAlone(start, alerts[..i], manual)
    {
      RestOf(alerts, i, start);
      IdOf(alerts, start, i);
      StillFree(start, a.State(), alerts[i].id);
      var handled := HandleAlert(a, alerts[i], manual, Ids(alerts[i + 1..]), start);
      r := r + [handled];
      assert alerts[..i + 1][..i] == alerts[..i];
    }
    assert alerts[..|alerts|] == alerts;
  }

  lemma {:induction false} AloneKeepsOneOpen(cfg: Config, w: World, alert: Alert, manual: bool)
    requires OneOpenRun.OpenInv(w) && alert.id !in w.past.born && OneOpenRun.Direct(alert.env)
    ensures OneOpenRun.OpenInv(HandledAlone(w, alert, manual))
  {
    hide OneOpenRun.OpenInv, Insert, DoPark, DoSpawn, HasOpenRun;
    if !HasOpenRun(w.db, alert.key) {
      var x := Receive(alert.id, alert.key, manual);
      var inserted := Insert(w, alert.id, alert.key, false, if manual then ToPark else ToSpawn(alert.key, true));
      OneOpenRun.DoOpen(cfg, w, x);
      assert inserted.inbox == w.inbox[alert.id := if manual then ToPark else ToSpawn(alert.key, true)] by {
        Inserted(w, alert.id, alert.key, if manual then ToPark else ToSpawn(alert.key, true));
      }
      OneOpenRun.DoOpen(cfg, inserted, if manual then Park(alert.id) else Spawn(alert.id, alert.env));
    }
  }

  lemma {:induction false} Inserted(w: World, id: Id, key: string, launch: Launch)
    ensures Insert(w, id, key, false, launch).inbox == w.inbox[id := launch]
    ensures Insert(w, id, key, false, launch).past.born.Keys == w.past.born.Keys + {id}
  {
  }

  lemma {:induction false} BornAlone(w: World, alert: Alert, manual: bool)
    ensures HandledAlone(w, alert, manual).past.born.Keys <= w.past.born.Keys + {alert.id}
  {
  }

  lemma {:induction false} FrontOf(alerts: seq<Alert>, w: World)
    requires alerts != [] && Fresh(alerts, w)
    ensures var k := |alerts| - 1;
      && Fresh(alerts[..k], w) && alerts[k].id !in w.past.born
      && alerts[k].id !in Ids(alerts[..k]) && Ids(alerts[..k]) + {alerts[k].id} <= Ids(alerts)
  {
  }

  /** A batch that nobody interferes with keeps at most one open run per alert. */
  lemma {:induction false} BatchKeepsOneOpen(cfg: Config, w: World, alerts: seq<Alert>, manual: bool)
    requires OneOpenRun.OpenInv(w) && Fresh(alerts, w)
    requires forall i | 0 <= i < |alerts| :: OneOpenRun.Direct(alerts[i].env)
    ensures OneOpenRun.OpenInv(BatchAlone(w, alerts, manual))
    ensures BatchAlone(w, alerts, manual).past.born.Keys <= w.past.born.Keys + Ids(alerts)
    decreases |alerts|
  {
    if alerts != [] {
      var k := |alerts| - 1;
      var before := alerts[..k];
      FrontOf(alerts, w);
      hide HandledAlone, OneOpenRun.OpenInv, Ids, OneOpenRun.Direct, Fresh;
      BatchKeepsOneOpen(cfg, w, before, manual);
      AloneKeepsOneOpen(cfg, BatchAlone(w, before, manual), alerts[k], manual);
      BornAlone(BatchAlone(w, before, manual), alerts[k], manual);
    }
  }

  // ----- The operator

  /** `trigger_submit`: a manual run, never held up by the breaker. */
  method TriggerSubmit(a: Agent, key: string, id: Id, env: Env)
    requires a.Valid() && id !in a.past.born
    modifies a
    ensures a.Valid() && Reaches(a.cfg, old(a.State()), a.State())
    ensures id in a.tasks && a.tasks[id] == NewTask(key, false, env)
  {
    hide Running, NewTask;
    ghost var start := a.State();
    assert Running(a, start, {}) by {
      Begun(a);
    }
    Pause(a, id, {}, start);
    InsertRow(a, id, key, true, ToSpawn(key, false), {}, start);
    Pause(a, id, {}, start);
    CreateTask(a, id, env, {}, start);
    assert a.Valid() && Reaches(a.cfg, start, a.State()) by {
      IsRunning(a, start);
    }
  }

  lemma {:induction false} Begun(a: Agent)
    requires a.Valid()
    ensures Running(a, a.State(), {})
  {
    ReachesItself(a.cfg, a.State());
    hide Lifecycle.Inv, Reaches;
  }

  lemma {:induction false} IsRunning(a: Agent, start: World)
    requires Running(a, start, {})
    ensures a.Valid() && Reaches(a.cfg, start, a.State())
  {
    hide Lifecycle.Inv, Reaches;
  }

  datatype Dispatching = NotFound | Conflict(status: Status) | Started

  method ApproveRow(a: Agent, id: Id, ghost start: World)
    requires Running(a, start, {}) && id in a.runs && a.runs[id].status == Queued && id !in a.inbox
    modifies a`inbox
    ensures Running(a, start, {}) && a.State() == DoApprove(old(a.State()), id)
  {
    ghost var before := a.State();
    assert Do(a.cfg, before, Approve(id)) == DoApprove(before, id);
    Acts(a.cfg, start, before, Approve(id), id, {});
    hide Lifecycle.Inv, Reaches, Kept, Do, DoApprove;
    a.Approve(id);
  }

  method DispatchRow(a: Agent, id: Id, env: Env, ghost start: World)
    requires Running(a, start, {}) && id in a.inbox && a.inbox[id].ToDispatch?
    modifies a`runs, a`tasks, a`inbox, a`past
    ensures Running(a, start, {}) && a.State() == DoDispatch(old(a.State()), id, env)
  {
    ghost var before := a.State();
    assert Do(a.cfg, before, Dispatch(id, env)) == DoDispatch(before, id, env);
    Acts(a.cfg, start, before, Dispatch(id, env), id, {});
    hide Lifecycle.Inv, Reaches, Kept, Do, DoDispatch;
    a.Redispatch(id, env);
  }

  /** `trigger_dispatch`: one session looks at the row, and a later one, after whatever
      happens in between, sets it to `pending`. Only a queued run starts again, the
      breaker does not apply to it, and it starts even if its row has been pruned. */
  method TriggerDispatch(a: Agent, id: Id, env: Env) returns (r: Dispatching)
    requires a.Valid() && id !in a.inbox
    modifies a
    ensures a.Valid() && Reaches(a.cfg, old(a.State()), a.State())
    ensures r.NotFound? <==> id !in old(a.runs)
    ensures r.Started? <==> id in old(a.runs) && old(a.runs[id].status) == Queued
    ensures r.Conflict? ==> id in old(a.runs) && r.status == old(a.runs[id].status)
    ensures !r.Started? ==> a.State() == old(a.State())
    ensures r.Started? ==> id in a.tasks && a.tasks[id] == NewTask(old(a.runs[id].key), false, env) && id !in a.inbox
    ensures r.Started? && id in a.runs ==> a.runs[id].status == Pending
    ensures r.Started? && old(a.schedule) == [] ==>
      a.State() == DoDispatch(DoApprove(old(a.State()), id), id, env)
  {
    hide Running, Reaches, Lifecycle.Inv, NewTask;
    ghost var start := a.State();
    ReachesItself(a.cfg, start);
    if id !in a.runs { return NotFound; }
    if a.runs[id].status != Queued { return Conflict(a.runs[id].status); }
    Begun(a);
    ApproveRow(a, id, start);
    Pause(a, id, {}, start);
    DispatchRow(a, id, env, start);
    IsRunning(a, start);
    return Started;
  }

  // ----- The pruner

  /** `prune_once`, without the timestamp it leaves for the dashboard: one session
      reads the retention and a later one deletes by it, whatever the setting has
      become in between; `before` is what that session finds. */
  method PruneOnce(a: Agent) returns (days: int, deleted: int, ghost before: World)
    requires a.Valid()
    modifies a
    ensures a.Valid() && Reaches(a.cfg, old(a.State()), a.State())
    ensures days == Retention(a.cfg, old(a.Database()))
    ensures Reaches(a.cfg, old(a.State()), before) && (old(a.schedule) == [] || days <= 0 ==> before == old(a.State()))
    ensures a.State() == if days > 0 then Do(a.cfg, before, Prune(days)) else before
    ensures deleted == |before.db.runs| - |a.runs|
  {
    hide Reaches, Lifecycle.Inv, Retention, DeleteOlder, Kept;
    ghost var start := a.State();
    ReachesItself(a.cfg, start);
    days := a.ReadRetentionDays();
    deleted, before := 0, start;
    if days > 0 {
      a.Await({});
      before := a.State();
      Taken(a.cfg, start, before, Prune(days));
      deleted := a.DeleteRunsOlderThan(days);
    }
  }

  // ----- The poller

  /** What GitHub answers about a row's pull request, open or not. */
  type Hears = (Id, bool) -> string

  predicate SaysClosed(status: string) {
    status == "closed" || status == "merged"
  }

  /** `run.pr_status or "open"`. */
  function Had(run: Run): string {
    if run.prStatus.Some? && run.prStatus.value != "" then run.prStatus.value else "open"
  }

  /** The pull request of this number is open, as far as it is known. */
  predicate IsOpen(pulls: map<nat, Pull>, number: Option<nat>) {
    number.Some? && number.value in pulls ==> pulls[number.value].open
  }

  /** A row once it has been asked about. */
  function Heard(run: Run, status: string, now: Time): Run {
    if status == Had(run) then run else run.WithPrStatus(status, now)
  }

  /** The world once the rows in `done` have been asked about and nothing else has happened. */
  function PolledAlone(w: World, hears: Hears, done: set<Id>): World {
    w.(db := Db(map id | id in w.db.runs ::
                  if id in done then Heard(w.db.runs[id], hears(id, IsOpen(w.pulls, w.db.runs[id].prNumber)), w.now)
                  else w.db.runs[id],
                w.db.settings))
  }

  /** One listed row is brought up to date, if it is still there. */
  function Updated(w: World, id: Id, status: string): World {
    if id in w.db.runs then w.(db := SetRow(w.db, id, w.db.runs[id].WithPrStatus(status, w.now))) else w
  }

  lemma {:induction false} PolledNext(w: World, hears: Hears, done: set<Id>, id: Id)
    requires id in OpenPrs(w.db) && id !in done
    ensures var before := PolledAlone(w, hears, done);
      var status := hears(id, IsOpen(w.pulls, w.db.runs[id].prNumber));
      PolledAlone(w, hears, done + {id}) == if status == Had(w.db.runs[id]) then before else Updated(before, id, status)
  {
    hide Run.ListedAsOpen, IsOpen, Had;
    var before, after := PolledAlone(w, hears, done), PolledAlone(w, hears, done + {id});
    var status := hears(id, IsOpen(w.pulls, w.db.runs[id].prNumber));
    assert before.db.runs[id] == w.db.runs[id];
    if status == Had(w.db.runs[id]) {
      assert after.db.runs == before.db.runs;
    } else {
      assert after.db.runs == Updated(before, id, status).db.runs;
    }
  }

  lemma {:induction false} PolledNone(w: World, hears: Hears)
    ensures PolledAlone(w, hears, {}) == w
  {
    assert PolledAlone(w, hears, {}).db.runs == w.db.runs;
  }

  /** Writing what was heard about a listed row is a step of the system, although other
      steps lie between loading the row, hearing about it and writing. */
  lemma {:induction false} UpdateIsPoll(w: World, listed: Run, id: Id, status: string)
    requires Listed(listed, w, id) && status != Had(listed) && id in w.db.runs
    requires SaysClosed(status) && listed.prNumber.value in w.pulls ==> ClosedPull(w, listed.prNumber.value)
    ensures Enabled(w, Poll(id, status)) && DoPoll(w, id, status) == Updated(w, id, status)
  {
  }

  /** Only the polled row has changed, so what holds of the other listed rows still does. */
  lemma {:induction false} OthersListed(w: World, id: Id, status: string, listed: Run, j: Id)
    requires Listed(listed, w, j) && j != id
    ensures Listed(listed, Updated(w, id, status), j)
  {
  }

  /** The last session for one row: `update_pr_status`. */
  method UpdateRow(a: Agent, id: Id, listed: Run, status: string, ghost start: World)
    requires Running(a, start, {}) && Listed(listed, a.State(), id) && status != Had(listed)
    requires SaysClosed(status) && listed.prNumber.value in a.pulls ==> ClosedPull(a.State(), listed.prNumber.value)
    modifies a`runs
    ensures Running(a, start, {}) && a.State() == Updated(old(a.State()), id, status)
  {
    ghost var before := a.State();
    IsRunning(a, start);
    if id in a.runs {
      UpdateIsPoll(before, listed, id, status);
      assert Do(a.cfg, before, Poll(id, status)) == DoPoll(before, id, status);
      Taken(a.cfg, start, before, Poll(id, status));
    }
    hide Lifecycle.Inv, Reaches, Do, DoPoll, Listed, Running;
    a.UpdatePrStatus(id, status);
    KeepsRunning(a, start);
  }

  /** One listed row: it is asked about, and written if the answer differs from the
      status that was loaded with the list. */
  method PollListed(a: Agent, id: Id, listed: Run, hears: Hears, ghost start: World)
    requires Running(a, start, {}) && Listed(listed, a.State(), id) && NoPolls(a.schedule)
    requires !SaysClosed(hears(id, true))
    modifies a
    ensures Running(a, start, {}) && NoPolls(a.schedule)
    ensures forall row, j | j != id && Listed(row, old(a.State()), j) :: Listed(row, a.State(), j)
    ensures old(a.schedule) == [] ==> a.schedule == []
    ensures old(a.schedule) == [] ==>
      var status := hears(id, IsOpen(old(a.pulls), listed.prNumber));
      a.State() == if status == Had(listed) then old(a.State()) else Updated(old(a.State()), id, status)
  {
    hide Running, Listed, ClosedPull, NoPolls, Updated, Had, Kept;
    ListingsKeptIs(a.State());
    Pause(a, id, {}, start);
    var open := IsOpen(a.pulls, listed.prNumber);
    var status := hears(id, open);
    HeardClosed(a.State(), listed, id, hears);
    if status != Had(listed) {
      ghost var heard := a.State();
      Pause(a, id, {}, start);
      ClosedThen(heard, a.State(), listed, status);
      ghost var before := a.State();
      UpdateRow(a, id, listed, status, start);
      forall row, j | j != id && Listed(row, before, j) ensures Listed(row, a.State(), j) {
        OthersListed(before, id, status, row, j);
      }
    }
  }

  lemma {:induction false} ListingsKeptIs(w: World)
    ensures forall v, row, j | ListingsKept(w, v) && Listed(row, w, j) :: Listed(row, v, j)
  {
  }

  lemma {:induction false} HeardClosed(w: World, listed: Run, id: Id, hears: Hears)
    requires Listed(listed, w, id) && !SaysClosed(hears(id, true))
    ensures listed.prNumber.Some?
    ensures SaysClosed(hears(id, IsOpen(w.pulls, listed.prNumber))) ==> ClosedPull(w, listed.prNumber.value)
  {
  }

  lemma {:induction false} ClosedThen(w: World, v: World, listed: Run, status: string)
    requires ListingsKept(w, v) && listed.prNumber.Some? && (SaysClosed(status) ==> ClosedPull(w, listed.prNumber.value))
    ensures SaysClosed(status) ==> ClosedPull(v, listed.prNumber.value)
  {
  }

  /** One tick of the poller: the rows are loaded once, and then asked about one after
      the other while everything else goes on. */
  method PollTick(a: Agent, hears: Hears)
    requires a.Valid() && NoPolls(a.schedule)
    requires forall id :: !SaysClosed(hears(id, true))
    modifies a
    ensures a.Valid() && Reaches(a.cfg, old(a.State()), a.State())
    ensures old(a.schedule) == [] ==> a.State() == PolledAlone(old(a.State()), hears, OpenPrs(old(a.Database())))
  {
    hide Running, IsOpen, OpenPrs, PolledAlone, Listed, NoPolls, Updated, Had;
    ghost var start := a.State();
    Begun(a);
    var ids := OpenPrs(a.Database());
    var rows := a.runs;
    ghost var all := ids;
    LoadedAreListed(start);
    PolledNone(start, hears);
    assert all - ids == {};
    while ids != {}
      invariant Running(a, start, {}) && NoPolls(a.schedule) && ids <= all == OpenPrs(start.db)
      invariant forall id | id in ids :: id in rows && Listed(rows[id], a.State(), id)
      invariant old(a.schedule) == [] ==> a.schedule == [] && a.State() == PolledAlone(start, hears, all - ids)
      decreases |ids|
    {
      var id :| id in ids;
      PolledNext(start, hears, all - ids, id);
      assert all - (ids - {id}) == (all - ids) + {id};
      ids := ids - {id};
      PolledPulls(start, hears, all - ids - {id});
      PollListed(a, id, rows[id], hears, start);
    }
    assert all - ids == all;
    IsRunning(a, start);
  }

  lemma {:induction false} PolledPulls(w: World, hears: Hears, done: set<Id>)
    ensures PolledAlone(w, hears, done).pulls == w.pulls
  {
  }

  lemma {:induction false} LoadedAreListed(w: World)
    requires Lifecycle.Inv(w)
    ensures forall id | id in OpenPrs(w.db) :: id in w.db.runs && Listed(w.db.runs[id], w, id)
  {
    forall id | id in OpenPrs(w.db) ensures Listed(w.db.runs[id], w, id) {
      Lifecycle.RowFacts(w, id);
    }
    hide Lifecycle.Inv;
  }

  lemma {:induction false} KeepsRunning(a: Agent, start: World)
    requires a.Valid() && Reaches(a.cfg, start, a.State())
    ensures Running(a, start, {})
  {
    hide Lifecycle.Inv, Reaches;
  }
}
