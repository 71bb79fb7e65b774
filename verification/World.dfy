/**
 The whole agent as a transition system: one database, any number of pipelines
 and request handlers interleaved at their commits, a poller, a pruner, GitHub
 and an operator. A step is one commit; nothing else is atomic.
 */
module World {
  import opened Results
  import opened Repository
  import opened Pipeline

  /** What a handler still has to do: with the row it has just inserted, or with the
      queued row it has just found. */
  datatype Launch = ToPark | ToSpawn(key: string, enforceBreaker: bool) | ToDispatch(key: string)

  /** A pull request on GitHub. */
  datatype Pull = Pull(key: string, run: Id, open: bool)

  datatype Birth = Birth(key: string, at: Time)

  /** What the history remembers after rows are pruned: when and for which key a
      run was created, the statuses its row has had, when it passed the breaker
      and the backoff gate, and which runs ended without a pull request. */
  datatype Past = Past(
    born: map<Id, Birth>,
    statuses: map<Id, seq<Status>>,
    passed: map<Id, Time>,
    gated: map<Id, Time>,
    spent: set<Id>)

  datatype World = World(
    db: Db,
    now: Time,
    tasks: map<Id, Task>,
    inbox: map<Id, Launch>,
    pulls: map<nat, Pull>,
    nextPull: nat,
    past: Past)

  datatype Action =
    | Tick(elapsed: nat)
    | Receive(id: Id, key: string, park: bool)
    | Submit(id: Id, key: string)
    | Park(id: Id)
    | Spawn(id: Id, env: Env)
    | Approve(id: Id)
    | Dispatch(id: Id, env: Env)
    | Step(id: Id)
    | Close(number: nat)
    | Poll(id: Id, status: string)
    | Prune(days: int)
    | Put(setting: string, value: string)
    | Crash

  /** What the poller may write about a row's pull request: an open one is never
      reported closed, and a closed one may be reported as it was a moment ago. */
  predicate Truthful(w: World, id: Id, status: string) {
    (status == "closed" || status == "merged") && id in w.db.runs ==>
      match w.db.runs[id].prNumber
      case None => true
      case Some(number) => number in w.pulls ==> !w.pulls[number].open
  }

  predicate Enabled(w: World, a: Action) {
    match a
    case Tick(_) => true
    case Receive(id, _, _) => id !in w.past.born
    case Submit(id, _) => id !in w.past.born
    case Park(id) => id in w.inbox && w.inbox[id].ToPark?
    case Spawn(id, _) => id in w.inbox && w.inbox[id].ToSpawn?
    case Approve(id) => id in w.db.runs && w.db.runs[id].status == Queued && id !in w.inbox
    case Dispatch(id, _) => id in w.inbox && w.inbox[id].ToDispatch?
    case Step(id) => id in w.tasks
    case Close(number) => number in w.pulls
    case Poll(id, status) => id in OpenPrs(w.db) && Truthful(w, id, status)
    case Prune(days) => days > 0
    case Put(_, _) => true
    case Crash => true
  }

  /** Appends the row's new status to its history when the status has changed. */
  function Noted(statuses: map<Id, seq<Status>>, id: Id, before: Db, after: Db): map<Id, seq<Status>> {
    if id in before.runs && id in after.runs && id in statuses && before.runs[id].status != after.runs[id].status then
      statuses[id := statuses[id] + [after.runs[id].status]]
    else statuses
  }

  function Insert(w: World, id: Id, key: string, manual: bool, launch: Launch): World {
    w.(db := CreateRun(w.db, id, key, w.now, manual),
       inbox := w.inbox[id := launch],
       past := w.past.(born := w.past.born[id := Birth(key, w.now)],
                       statuses := w.past.statuses[id := [Pending]]))
  }

  function SetStatus(db: Db, id: Id, status: Status, error: Option<string>): Db {
    if id in db.runs then SetRow(db, id, db.runs[id].WithStatus(status, error)) else db
  }

  function DoPark(w: World, id: Id): World {
    var db := SetStatus(w.db, id, Queued, Some("processing_mode=manual"));
    w.(db := db, inbox := w.inbox - {id}, past := w.past.(statuses := Noted(w.past.statuses, id, w.db, db)))
  }

  function DoSpawn(w: World, id: Id, env: Env): World
    requires id in w.inbox && w.inbox[id].ToSpawn?
  {
    w.(inbox := w.inbox - {id},
       tasks := w.tasks[id := NewTask(w.inbox[id].key, w.inbox[id].enforceBreaker, env)])
  }

  /** The first half of a dispatch: the row has been seen queued. */
  function DoApprove(w: World, id: Id): World
    requires id in w.db.runs
  {
    w.(inbox := w.inbox[id := ToDispatch(w.db.runs[id].key)])
  }

  /** The second half, whether the row is still there or not. */
  function DoDispatch(w: World, id: Id, env: Env): World
    requires id in w.inbox && w.inbox[id].ToDispatch?
  {
    var db := SetStatus(w.db, id, Pending, None);
    w.(db := db, inbox := w.inbox - {id}, tasks := w.tasks[id := NewTask(w.inbox[id].key, false, env)],
       past := w.past.(statuses := Noted(w.past.statuses, id, w.db, db)))
  }

  /** The run ended `done` or `failed` without a pull request. */
  predicate EndedUnproductive(db: Db, id: Id, pc: Pc) {
    pc == Ended && id in db.runs && db.runs[id].status.Unproductive() && !db.runs[id].prOpened
  }

  /** What the history remembers of a session that left `a` behind. */
  function PastAfter(w: World, id: Id, a: After): Past
    requires id in w.tasks
  {
    var t := w.tasks[id];
    w.past.(
      statuses := Noted(w.past.statuses, id, w.db, a.db),
      passed := if t.pc == Breaker && t.pc !in t.env.raises && a.task.pc == DedupGate
                then w.past.passed[id := w.now] else w.past.passed,
      gated := if t.pc == BackoffGate && a.task.pc == GraceGate then w.past.gated[id := w.now] else w.past.gated,
      spent := if EndedUnproductive(a.db, id, a.task.pc) then w.past.spent + {id} else w.past.spent)
  }

  /** The world once a session of run `id` has left `a` behind. */
  function Settled(w: World, id: Id, a: After): World
    requires id in w.tasks
  {
    var opens := w.tasks[id].pc == OpenPr && a.task.pc == SavePr;
    w.(db := a.db,
       tasks := if a.task.pc == Ended then w.tasks - {id} else w.tasks[id := a.task],
       pulls := if opens then w.pulls[w.nextPull := Pull(w.tasks[id].key, id, true)] else w.pulls,
       nextPull := if opens then w.nextPull + 1 else w.nextPull,
       past := PastAfter(w, id, a))
  }

  function DoStep(cfg: Config, w: World, id: Id): World
    requires id in w.tasks
  {
    Settled(w, id, Block(cfg, w.db, w.now, w.nextPull, id, w.tasks[id]))
  }

  /** The poller writes only what differs from the status it had. */
  function DoPoll(w: World, id: Id, status: string): World
    requires id in w.db.runs
  {
    var run := w.db.runs[id];
    var had := if run.prStatus.Some? && run.prStatus.value != "" then run.prStatus.value else "open";
    if status == had then w else w.(db := SetRow(w.db, id, run.WithPrStatus(status, w.now)))
  }

  function Do(cfg: Config, w: World, a: Action): World
    requires Enabled(w, a)
  {
    match a
    case Tick(elapsed) => w.(now := w.now + elapsed)
    case Receive(id, key, park) => Insert(w, id, key, false, if park then ToPark else ToSpawn(key, true))
    case Submit(id, key) => Insert(w, id, key, true, ToSpawn(key, false))
    case Park(id) => DoPark(w, id)
    case Spawn(id, env) => DoSpawn(w, id, env)
    case Approve(id) => DoApprove(w, id)
    case Dispatch(id, env) => DoDispatch(w, id, env)
    case Step(id) => DoStep(cfg, w, id)
    case Close(number) => w.(pulls := w.pulls[number := w.pulls[number].(open := false)])
    case Poll(id, status) => DoPoll(w, id, status)
    case Prune(days) => w.(db := Pruned(w.db, w.now, days))
    case Put(setting, value) => w.(db := SetSetting(w.db, setting, value))
    case Crash => w.(tasks := map[], inbox := map[])
  }

  /** An empty database with any settings, at any time. */
  ghost predicate Initial(w: World) {
    && w.db.runs == map[] && w.tasks == map[] && w.inbox == map[] && w.pulls == map[]
    && w.past == Past(map[], map[], map[], map[], {})
  }

  /** Where the actions lead, up to the first one that cannot be taken. */
  function End(cfg: Config, w: World, run: seq<Action>): World
    decreases |run|
  {
    if run == [] || !Enabled(w, run[0]) then w else End(cfg, Do(cfg, w, run[0]), run[1..])
  }
}
