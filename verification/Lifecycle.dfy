/**
 The life of one run, in every reachable state: its status history is a path of
 one automaton, it is queued at most once, and it ends with a definite outcome.
 */
module Lifecycle {
  import opened Results
  import opened Repository
  import opened Pipeline
  import opened World
  import opened Patch

  // ----- The automaton

  predicate Edge(a: Status, b: Status) {
    match a
    case Pending => b.Queued? || b.Triaging? || b.Collecting? || b.Skipped? || b.Failed?
    case Queued => b.Pending?
    case Triaging => b.Collecting? || b.Skipped? || b.Failed?
    case Collecting => b.Investigating? || b.Generating? || b.Skipped? || b.Failed?
    case Investigating => b.Generating? || b.Failed?
    case Generating => b.Posting? || b.Failed?
    case Posting => b.Done? || b.Failed?
    case _ => false
  }

  /** Begins pending, follows the edges, and is queued at most once. */
  ghost predicate IsPath(h: seq<Status>) {
    && h != [] && h[0] == Pending
    && (forall i | 0 <= i < |h| - 1 :: Edge(h[i], h[i + 1]))
    && (forall i, j | 0 <= i < j < |h| :: !(h[i] == Queued && h[j] == Queued))
  }

  /** How far a status is from the end of the pipeline. */
  function Rank(s: Status): nat {
    match s
    case Queued => 8
    case Pending => 7
    case Triaging => 6
    case Collecting => 5
    case Investigating => 4
    case Generating => 3
    case Posting => 2
    case _ => 1
  }

  /** The measure of a history: whether it may still be queued, then the rank. */
  ghost function Measure(h: seq<Status>): (nat, nat)
    requires h != []
  {
    (if Queued in h then 0 else 1, Rank(Last(h)))
  }

  ghost predicate Smaller(a: (nat, nat), b: (nat, nat)) {
    a.0 < b.0 || (a.0 == b.0 && a.1 < b.1)
  }

  /** Every status change makes the measure smaller. */
  lemma {:induction false} MeasureFalls(h: seq<Status>, i: nat)
    requires IsPath(h) && i < |h| - 1
    ensures Smaller(Measure(h[..i + 2]), Measure(h[..i + 1]))
  {
    var a, b := h[..i + 1], h[..i + 2];
    assert Last(a) == h[i] && Last(b) == h[i + 1] && Edge(h[i], h[i + 1]);
    assert b == a + [h[i + 1]];
    if h[i + 1] == Queued {
      assert b[i + 1] == Queued;
      forall k | 0 <= k < |a| ensures a[k] != Queued {
        assert a[k] == h[k];
      }
    } else {
      assert Queued in b <==> Queued in a;
    }
  }

  /** So a run changes status at most eight times. */
  lemma {:induction false} PathIsShort(h: seq<Status>, n: nat)
    requires IsPath(h) && 0 < n <= |h|
    ensures Measure(h[..n]).1 + n <= if Queued in h[..n] then 10 else 8
    ensures n <= 9
  {
    if n == 1 {
      assert h[..1] == [Pending];
    } else {
      PathIsShort(h, n - 1);
      var a, b := h[..n - 1], h[..n];
      assert Edge(h[n - 2], h[n - 1]);
      assert b == a + [h[n - 1]] && Last(a) == h[n - 2] && Last(b) == h[n - 1];
      if h[n - 1] == Queued {
        assert b[n - 1] == Queued && h[n - 2] == Pending;
      } else {
        assert Queued in b <==> Queued in a;
      }
    }
  }

  // ----- One run's part of the state

  datatype View = View(
    run: Option<Run>,
    task: Option<Task>,
    launch: Option<Launch>,
    birth: Option<Birth>,
    history: seq<Status>)

  function Find<V>(m: map<Id, V>, id: Id): Option<V> {
    if id in m then Some(m[id]) else None
  }

  function History(w: World, id: Id): seq<Status> {
    if id in w.past.statuses then w.past.statuses[id] else []
  }

  function ViewOf(w: World, id: Id): View {
    View(Find(w.db.runs, id), Find(w.tasks, id), Find(w.inbox, id), Find(w.past.born, id), History(w, id))
  }

  /** The row can have status `s` when its pipeline is about to run the session at `pc`. */
  predicate StatusAt(pc: Pc, s: Status) {
    match pc
    case SaveTriage => s.Triaging?
    case Collect => s.Pending? || s.Triaging?
    case SaveContext => s.Collecting?
    case Investigate => s.Collecting?
    case SaveInvestigation => s.Investigating?
    case Generate => s.Collecting? || s.Investigating?
    case SaveLlm => s.Generating?
    case Post => s.Generating?
    case OpenPr => s.Posting?
    case SavePr => s.Posting?
    case SaveSkip => s.Posting?
    case SaveApplyError => s.Posting?
    case ApplyFailed => s.Posting?
    case Notify => s.Posting?
    case Finish => s.Posting?
    case Skip => s.Pending? || s.Triaging? || s.Collecting?
    case Fail => !s.Terminal() && !s.Queued?
    case Ended => false
    case _ => s.Pending?
  }

  /** The pipeline has not recorded its outcome yet. */
  predicate Undecided(run: Run) {
    !run.prOpened && run.prNumber.None? && run.prSkip.None? && run.prStatus.None?
  }

  predicate BeforeLlm(pc: Pc) {
    Left(pc) >= Left(SaveLlm)
  }

  /** The sessions before the one that records the outcome. */
  predicate BeforeOutcome(pc: Pc) {
    Left(pc) >= Left(SaveSkip)
  }

  /** What holds of every row at rest. */
  predicate RowOk(run: Run) {
    && (run.prOpened <==> run.prNumber.Some?)
    && (run.status == Queued ==> Undecided(run) && !run.llm)
    && (run.status == Done ==> (run.prOpened <==> run.prSkip.None?))
    && (run.status == Skipped ==> Undecided(run))
    && (run.prStatus.Some? ==> run.prOpened)
  }

  /** What holds of a row while its pipeline is at `pc`. */
  predicate TaskRow(run: Run, pc: Pc) {
    && StatusAt(pc, run.status)
    && (BeforeLlm(pc) ==> !run.llm)
    && (BeforeOutcome(pc) ==> Undecided(run))
    && (pc.Notify? || pc.Finish? ==> (run.prOpened <==> run.prSkip.None?))
    && (pc.SaveApplyError? || pc.Skip? ==> Undecided(run))
    && (pc == ApplyFailed ==> !run.prOpened)
  }

  predicate TaskOk(v: View, t: Task)
    requires v.birth.Some?
  {
    && t.pc != Ended && t.key == v.birth.value.key
    && (t.pc.Breaker? || t.pc.TripMode? || t.pc.TripQueue? ==> t.enforceBreaker)
    && (t.enforceBreaker ==> Queued !in v.history)
    && (v.run.Some? ==> TaskRow(v.run.value, t.pc))
  }

  predicate LaunchOk(v: View, launch: Launch)
    requires v.birth.Some?
  {
    && v.task.None? && v.history != []
    && (if launch.ToDispatch? then Last(v.history) == Queued else v.history == [Pending])
    && (launch.ToSpawn? || launch.ToDispatch? ==> launch.key == v.birth.value.key)
    && (v.run.Some? ==> Undecided(v.run.value) && !v.run.value.llm)
  }

  ghost predicate Ok(v: View) {
    if v.birth.None? then v.run.None? && v.task.None? && v.launch.None?
    else
      && IsPath(v.history)
      && (v.run.Some? ==>
        && RowOk(v.run.value) && v.run.value.status == Last(v.history)
        && v.run.value.createdAt == v.birth.value.at && v.run.value.key == v.birth.value.key)
      && (v.task.Some? ==> TaskOk(v, v.task.value))
      && (v.launch.Some? ==> LaunchOk(v, v.launch.value))
  }

  /** Pull requests are numbered in order. */
  ghost predicate Numbered(w: World) {
    forall n | n in w.pulls :: n < w.nextPull
  }

  ghost predicate Inv(w: World) {
    && w.past.born.Keys == w.past.statuses.Keys && Numbered(w)
    && forall id :: Ok(ViewOf(w, id))
  }

  // ----- Each kind of change to one run

  /** The history after the row has changed from `before` to `after`. */
  function Extend(h: seq<Status>, before: Option<Run>, after: Option<Run>): seq<Status> {
    if before.Some? && after.Some? && before.value.status != after.value.status then h + [after.value.status] else h
  }

  lemma {:induction false} PathExtends(h: seq<Status>, next: Status)
    requires IsPath(h) && Edge(Last(h), next) && (next == Queued ==> Queued !in h)
    ensures IsPath(h + [next])
  {
    var e := h + [next];
    forall i | 0 <= i < |e| - 1 ensures Edge(e[i], e[i + 1]) {
      if i == |h| - 1 {
        assert e[i] == Last(h) && e[i + 1] == next;
      }
    }
  }

  /** The row, the pipeline and the history after one session. */
  function StepView(v: View, t: Task, raised: bool, next: Task): View
    requires v.task == Some(t)
  {
    var run := if raised || v.run.None? then v.run else Some(RowAfter(v.run.value, t));
    View(run, if next.pc == Ended then None else Some(next), v.launch, v.birth, Extend(v.history, v.run, run))
  }

  predicate StepTo(t: Task, raised: bool, next: Task) {
    && next.key == t.key && next.enforceBreaker == t.enforceBreaker
    && (if raised then next.pc == OnRaise(t.pc) else Follows(t.pc, next.pc))
    && (t.pc == ReadSettings && next.pc == Breaker ==> t.enforceBreaker)
  }

  function StatusThen(pc: Pc, s: Status): Status {
    match StatusWritten(pc) case Some(written) => written case None => s
  }

  lemma {:induction false} StatusFlows(pc: Pc, s: Status, next: Pc)
    requires StatusAt(pc, s) && Follows(pc, next) && !next.Ended?
    ensures StatusAt(next, StatusThen(pc, s))
  {
  }

  lemma {:induction false} StatusEdges(pc: Pc, s: Status)
    requires StatusAt(pc, s)
    ensures StatusThen(pc, s) != s ==> Edge(s, StatusThen(pc, s))
    ensures StatusThen(pc, s).Queued? ==> pc.TripQueue?
    ensures StatusThen(pc, s).Done? ==> pc.Finish?
    ensures StatusThen(pc, s).Skipped? ==> pc.Skip?
  {
  }

  lemma {:induction false} RowStatus(run: Run, t: Task)
    ensures RowAfter(run, t).status == StatusThen(t.pc, run.status)
  {
  }

  /** Before the outcome is recorded, a session leaves the outcome alone. */
  lemma {:induction false} UndecidedAfter(run: Run, t: Task, next: Pc)
    requires !t.pc.SavePr? && !t.pc.SaveSkip? && !t.pc.SaveApplyError?
    ensures var after := RowAfter(run, t);
      && after.prOpened == run.prOpened && after.prNumber == run.prNumber
      && after.prSkip == run.prSkip && after.prStatus == run.prStatus
    ensures !t.pc.SaveLlm? ==> RowAfter(run, t).llm == run.llm
  {
  }

  lemma {:induction false} DecidedAfter(run: Run, t: Task)
    requires t.pc.SavePr? || t.pc.SaveSkip? || t.pc.SaveApplyError?
    ensures var after := RowAfter(run, t);
      && after.prOpened == t.pc.SavePr? && (after.prNumber.Some? <==> t.pc.SavePr?)
      && (after.prSkip.None? <==> t.pc.SavePr?) && after.prStatus == run.prStatus
      && after.status == run.status && after.llm == run.llm
  {
  }

  /** What a session needs of the outcome fields carries over to the next one. */
  lemma {:induction false} OrderOfPhases(pc: Pc, next: Pc)
    requires Follows(pc, next)
    ensures BeforeLlm(next) ==> BeforeLlm(pc) && !pc.SaveLlm?
    ensures BeforeOutcome(next) || next.SaveApplyError? || next.Skip? ==>
      BeforeOutcome(pc) && !pc.SavePr? && !pc.SaveSkip?
    ensures next.Notify? || next.Finish? ==> pc.SavePr? || pc.SaveSkip? || pc.Notify?
    ensures next.ApplyFailed? ==> pc.SaveApplyError?
    ensures pc.SaveApplyError? ==> next.ApplyFailed?
  {
  }

  lemma {:induction false} OutcomeAfter(run: Run, t: Task, next: Pc)
    requires RowOk(run) && TaskRow(run, t.pc) && t.pc != Ended && Follows(t.pc, next)
    ensures var after := RowAfter(run, t);
      && (after.prOpened <==> after.prNumber.Some?)
      && (t.pc.Finish? ==> (after.prOpened <==> after.prSkip.None?))
      && (t.pc.Skip? ==> Undecided(after))
      && (after.prStatus.Some? ==> after.prOpened)
    ensures var after := RowAfter(run, t);
      && (BeforeLlm(next) ==> !after.llm) && (BeforeOutcome(next) ==> Undecided(after))
      && (next.Notify? || next.Finish? ==> (after.prOpened <==> after.prSkip.None?))
      && (next.SaveApplyError? || next.Skip? ==> Undecided(after))
      && (next.ApplyFailed? ==> !after.prOpened)
  {
    OrderOfPhases(t.pc, next);
    if t.pc.SavePr? || t.pc.SaveSkip? || t.pc.SaveApplyError? {
      assert Undecided(run);
      DecidedAfter(run, t);
    } else {
      UndecidedAfter(run, t, next);
    }
    hide StatusAt, RowAfter, Follows, BeforeLlm, BeforeOutcome;
  }

  lemma {:induction false} RowAfterOk(run: Run, t: Task, next: Pc)
    requires RowOk(run) && TaskRow(run, t.pc) && t.pc != Ended && Follows(t.pc, next)
    ensures RowOk(RowAfter(run, t)) && (next != Ended ==> TaskRow(RowAfter(run, t), next))
    ensures RowAfter(run, t).status != run.status ==> Edge(run.status, RowAfter(run, t).status)
    ensures RowAfter(run, t).status == Queued ==> t.pc.TripQueue?
    ensures RowAfter(run, t).createdAt == run.createdAt && RowAfter(run, t).key == run.key
  {
    if !next.Ended? {
      StatusFlows(t.pc, run.status, next);
    }
    StatusEdges(t.pc, run.status);
    RowStatus(run, t);
    OutcomeAfter(run, t, next);
    KeepsIdentity(run, t);
    hide StatusAt, StatusThen, Edge, RowAfter, Follows, BeforeLlm, BeforeOutcome;
  }

  /** Only the poller writes what has become of a pull request. */
  lemma {:induction false} StatusStays(run: Run, t: Task)
    ensures RowAfter(run, t).prStatus == run.prStatus
  {
  }

  lemma {:induction false} MergeStays(run: Run, t: Task)
    ensures RowAfter(run, t).mergedAt == run.mergedAt
  {
  }

  lemma {:induction false} KeepsIdentity(run: Run, t: Task)
    ensures RowAfter(run, t).createdAt == run.createdAt && RowAfter(run, t).key == run.key
    ensures t.pc.TripQueue? ==> RowAfter(run, t) == run.WithStatus(Queued, Some("cost breaker"))
  {
  }

  lemma {:induction false} RaiseOk(run: Run, pc: Pc)
    requires RowOk(run) && TaskRow(run, pc) && OnRaise(pc) != Ended
    ensures TaskRow(run, OnRaise(pc))
  {
  }

  lemma {:induction false} StepOk(v: View, t: Task, raised: bool, next: Task)
    requires Ok(v) && v.task == Some(t) && StepTo(t, raised, next)
    ensures Ok(StepView(v, t, raised, next))
  {
    hide TaskRow, RowOk, RowAfter, IsPath, Edge;
    if v.run.Some? {
      if raised {
        if next.pc != Ended {
          RaiseOk(v.run.value, t.pc);
        }
      } else {
        RowAfterOk(v.run.value, t, next.pc);
        var after := RowAfter(v.run.value, t);
        if after.status != v.run.value.status {
          PathExtends(v.history, after.status);
        }
      }
    }
  }

  // ----- Each action

  /** `after` is `before`, or has lost its row, its pipeline or its handler. */
  predicate Weaker(before: View, after: View) {
    && after.birth == before.birth && after.history == before.history
    && (after.run == before.run || after.run.None?)
    && (after.task == before.task || after.task.None?)
    && (after.launch == before.launch || after.launch.None?)
  }

  lemma {:induction false} WeakerOk(before: View, after: View)
    requires Ok(before) && Weaker(before, after)
    ensures Ok(after)
  {
    hide TaskRow, RowOk, IsPath, Undecided;
  }

  /** The action changed nothing of any other run than `id`, or lost some of it. */
  ghost predicate Others(before: World, after: World, id: Id) {
    && after.past.born.Keys == before.past.born.Keys + {id}
    && after.past.statuses.Keys == before.past.statuses.Keys + {id}
    && (Numbered(before) ==> Numbered(after))
    && forall j | j != id :: Weaker(ViewOf(before, j), ViewOf(after, j))
  }

  lemma {:induction false} InvByTarget(before: World, after: World, id: Id)
    requires Inv(before) && Others(before, after, id) && Ok(ViewOf(after, id))
    ensures Inv(after)
  {
    hide Ok, Weaker, ViewOf;
    forall j ensures Ok(ViewOf(after, j)) {
      if j != id {
        WeakerOk(ViewOf(before, j), ViewOf(after, j));
      }
    }
  }

  /** The action changed nothing of any run, or lost some of it. */
  ghost predicate Losing(before: World, after: World) {
    && after.past == before.past && (Numbered(before) ==> Numbered(after))
    && forall j :: Weaker(ViewOf(before, j), ViewOf(after, j))
  }

  lemma {:induction false} InvLosing(before: World, after: World)
    requires Inv(before) && Losing(before, after)
    ensures Inv(after)
  {
    hide Ok, Weaker, ViewOf;
    forall j ensures Ok(ViewOf(after, j)) {
      WeakerOk(ViewOf(before, j), ViewOf(after, j));
    }
  }

  lemma {:induction false} InsertedOk(key: string, now: Time, manual: bool, launch: Launch)
    requires launch.ToSpawn? ==> launch.key == key
    requires !launch.ToDispatch?
    ensures Ok(View(Some(NewRun(key, now, manual)), None, Some(launch), Some(Birth(key, now)), [Pending]))
  {
  }

  lemma {:induction false} InsertInv(w: World, id: Id, key: string, manual: bool, launch: Launch)
    requires Inv(w) && id !in w.past.born
    requires launch.ToSpawn? ==> launch.key == key
    requires !launch.ToDispatch?
    ensures Inv(Insert(w, id, key, manual, launch))
  {
    var after := Insert(w, id, key, manual, launch);
    InsertedOk(key, w.now, manual, launch);
    assert Ok(ViewOf(w, id));
    hide Ok, NewRun;
    assert ViewOf(after, id) ==
      View(Some(NewRun(key, w.now, manual)), None, Some(launch), Some(Birth(key, w.now)), [Pending]);
    assert Others(w, after, id);
    hide *;
    InvByTarget(w, after, id);
  }

  lemma {:induction false} ParkedOk(v: View)
    requires Ok(v) && v.launch == Some(ToPark)
    ensures Ok(v.(launch := None))
    ensures v.run.Some? ==>
      var run := v.run.value.WithStatus(Queued, Some("processing_mode=manual"));
      v.run.value.status != Queued && Ok(v.(run := Some(run), launch := None, history := v.history + [Queued]))
  {
    WeakerOk(v, v.(launch := None));
    PathExtends(v.history, Queued);
  }

  lemma {:induction false} ParkInv(w: World, id: Id)
    requires Inv(w) && id in w.inbox && w.inbox[id].ToPark?
    ensures Inv(DoPark(w, id))
  {
    ParkedOk(ViewOf(w, id));
    hide Ok;
    assert Others(w, DoPark(w, id), id);
    hide *;
    InvByTarget(w, DoPark(w, id), id);
  }

  lemma {:induction false} SpawnedOk(v: View, env: Env)
    requires Ok(v) && v.launch.Some? && v.launch.value.ToSpawn?
    ensures v.birth.Some?
    ensures Ok(v.(launch := None, task := Some(NewTask(v.launch.value.key, v.launch.value.enforceBreaker, env))))
  {
    hide IsPath;
  }

  lemma {:induction false} SpawnInv(w: World, id: Id, env: Env)
    requires Inv(w) && id in w.inbox && w.inbox[id].ToSpawn?
    ensures Inv(DoSpawn(w, id, env))
  {
    hide Ok, NewTask;
    SpawnedOk(ViewOf(w, id), env);
    assert Others(w, DoSpawn(w, id, env), id);
    InvByTarget(w, DoSpawn(w, id, env), id);
  }

  lemma {:induction false} ApprovedOk(v: View)
    requires Ok(v) && v.run.Some? && v.run.value.status == Queued && v.launch.None?
    ensures v.birth.Some? && Ok(v.(launch := Some(ToDispatch(v.run.value.key))))
  {
    if v.task.Some? {
      NotWaiting(v);
    }
    PathNotEmpty(v.history);
    hide IsPath, Edge;
  }

  lemma {:induction false} ApproveInv(w: World, id: Id)
    requires Inv(w) && id in w.db.runs && w.db.runs[id].status == Queued && id !in w.inbox
    ensures Inv(DoApprove(w, id))
  {
    hide Ok;
    ApprovedOk(ViewOf(w, id));
    assert Others(w, DoApprove(w, id), id);
    hide *;
    InvByTarget(w, DoApprove(w, id), id);
  }

  lemma {:induction false} DispatchedOk(v: View, env: Env)
    requires Ok(v) && v.launch.Some? && v.launch.value.ToDispatch?
    ensures v.birth.Some?
    ensures v.run.None? ==> Ok(v.(launch := None, task := Some(NewTask(v.launch.value.key, false, env))))
    ensures v.run.Some? ==>
      && v.run.value.status == Queued
      && Ok(v.(run := Some(v.run.value.WithStatus(Pending, None)), history := v.history + [Pending], launch := None,
               task := Some(NewTask(v.launch.value.key, false, env))))
  {
    PathExtends(v.history, Pending);
    hide IsPath, Edge;
  }

  lemma {:induction false} DispatchInv(w: World, id: Id, env: Env)
    requires Inv(w) && id in w.inbox && w.inbox[id].ToDispatch?
    ensures Inv(DoDispatch(w, id, env))
  {
    hide Ok, NewTask;
    DispatchedOk(ViewOf(w, id), env);
    assert Others(w, DoDispatch(w, id, env), id);
    InvByTarget(w, DoDispatch(w, id, env), id);
  }

  lemma {:induction false} PolledOk(v: View, status: string, now: Time)
    requires Ok(v) && v.run.Some? && v.run.value.prOpened
    ensures v.birth.Some?
    ensures Ok(v.(run := Some(v.run.value.WithPrStatus(status, now))))
  {
    hide IsPath;
  }

  lemma {:induction false} PollInv(w: World, id: Id, status: string)
    requires Inv(w) && id in OpenPrs(w.db)
    ensures Inv(DoPoll(w, id, status))
  {
    hide Ok;
    PolledOk(ViewOf(w, id), status, w.now);
    assert Others(w, DoPoll(w, id, status), id);
    InvByTarget(w, DoPoll(w, id, status), id);
  }

  /** What the session leaves behind. */
  function TaskAfter(cfg: Config, w: World, id: Id): Task
    requires id in w.tasks
  {
    Block(cfg, w.db, w.now, w.nextPull, id, w.tasks[id]).task
  }

  lemma {:induction false} TripModeKeeps(run: Run, t: Task)
    requires t.pc == TripMode
    ensures RowAfter(run, t) == run
  {
  }

  lemma {:induction false} BlockRow(cfg: Config, db: Db, now: Time, number: nat, id: Id, t: Task)
    ensures Find(Block(cfg, db, now, number, id, t).db.runs, id) ==
      if t.pc in t.env.raises || id !in db.runs then Find(db.runs, id) else Some(RowAfter(db.runs[id], t))
  {
    if t.pc == TripMode && id in db.runs {
      TripModeKeeps(db.runs[id], t);
    }
    hide Next, Window, RowAfter, OnRaise;
  }

  lemma {:induction false} BlockTask(cfg: Config, db: Db, now: Time, number: nat, id: Id, t: Task)
    ensures StepTo(t, t.pc in t.env.raises, Block(cfg, db, now, number, id, t).task)
  {
    NextIsSuccessor(cfg, db, now, id, t);
    assert OnRaise(ReadSettings) == Fail;
    hide Next, Window, Commit, Follows, OnRaise;
  }

  lemma {:induction false} StepLeads(cfg: Config, w: World, id: Id)
    requires id in w.tasks && id in w.past.statuses
    ensures ViewOf(DoStep(cfg, w, id), id) ==
      StepView(ViewOf(w, id), w.tasks[id], w.tasks[id].pc in w.tasks[id].env.raises, TaskAfter(cfg, w, id))
  {
    BlockRow(cfg, w.db, w.now, w.nextPull, id, w.tasks[id]);
    hide Block, RowAfter, EndedUnproductive;
  }

  lemma {:induction false} StepElsewhere(cfg: Config, w: World, id: Id)
    requires id in w.tasks && id in w.past.born && id in w.past.statuses
    ensures Others(w, DoStep(cfg, w, id), id)
  {
    BlockIsLocal(cfg, w.db, w.now, w.nextPull, id, w.tasks[id]);
    hide Block, EndedUnproductive;
    var after := DoStep(cfg, w, id);
    forall j | j != id ensures Weaker(ViewOf(w, j), ViewOf(after, j)) {
      assert Find(after.db.runs, j) == Find(w.db.runs, j);
      assert History(after, j) == History(w, j);
    }
  }

  lemma {:induction false} StepInv(cfg: Config, w: World, id: Id)
    requires Inv(w) && id in w.tasks
    ensures Inv(DoStep(cfg, w, id))
  {
    assert Ok(ViewOf(w, id));
    BlockTask(cfg, w.db, w.now, w.nextPull, id, w.tasks[id]);
    StepLeads(cfg, w, id);
    hide Ok, Block, StepView;
    StepOk(ViewOf(w, id), w.tasks[id], w.tasks[id].pc in w.tasks[id].env.raises, TaskAfter(cfg, w, id));
    StepElsewhere(cfg, w, id);
    hide *;
    InvByTarget(w, DoStep(cfg, w, id), id);
  }

  /** Every action keeps the invariant. */
  lemma {:induction false} DoInv(cfg: Config, w: World, a: Action)
    requires Inv(w) && Enabled(w, a)
    ensures Inv(Do(cfg, w, a))
  {
    match a
    case Receive(id, key, park) => InsertInv(w, id, key, false, if park then ToPark else ToSpawn(key, true));
    case Submit(id, key) => InsertInv(w, id, key, true, ToSpawn(key, false));
    case Park(id) => ParkInv(w, id);
    case Spawn(id, env) => SpawnInv(w, id, env);
    case Approve(id) => ApproveInv(w, id);
    case Dispatch(id, env) => DispatchInv(w, id, env);
    case Step(id) => StepInv(cfg, w, id);
    case Poll(id, status) => PollInv(w, id, status);
    case _ => LosingAction(cfg, w, a); InvLosing(w, Do(cfg, w, a));
  }

  lemma {:induction false} LosingAction(cfg: Config, w: World, a: Action)
    requires Enabled(w, a) && (a.Tick? || a.Close? || a.Prune? || a.Put? || a.Crash?)
    ensures Losing(w, Do(cfg, w, a))
  {
  }

  lemma {:induction false} InitialInv(w: World)
    requires Initial(w)
    ensures Inv(w)
  {
  }

  /** So the invariant holds in every reachable state. */
  lemma {:induction false} EndInv(cfg: Config, w: World, run: seq<Action>)
    requires Inv(w)
    ensures Inv(End(cfg, w, run))
    decreases |run|
  {
    hide Inv, Do, Enabled;
    if run != [] && Enabled(w, run[0]) {
      DoInv(cfg, w, run[0]);
      EndInv(cfg, Do(cfg, w, run[0]), run[1..]);
    }
  }

  // ----- What the invariant says of one run

  /** A run with a pipeline has no handler and is not queued. */
  lemma {:induction false} NotWaiting(v: View)
    requires Ok(v) && v.task.Some?
    ensures v.launch.None? && v.birth.Some? && (v.run.Some? ==> v.run.value.status != Queued)
  {
    if v.run.Some? {
      TaskStatus(v, v.task.value);
      NotQueuedAtWork(v.task.value.pc, v.run.value.status);
    }
    hide StatusAt, IsPath, RowOk, TaskOk;
  }

  lemma {:induction false} TaskFacts(w: World, id: Id)
    requires Inv(w) && id in w.tasks
    ensures id in w.past.born && id !in w.inbox
    ensures w.tasks[id].pc != Ended && w.tasks[id].key == w.past.born[id].key
    ensures id in w.db.runs ==>
      && w.db.runs[id].key == w.tasks[id].key
      && RowOk(w.db.runs[id]) && TaskRow(w.db.runs[id], w.tasks[id].pc)
  {
    assert Ok(ViewOf(w, id));
    NotWaiting(ViewOf(w, id));
    hide IsPath, RowOk, TaskRow;
  }

  lemma {:induction false} RowFacts(w: World, id: Id)
    requires Inv(w) && id in w.db.runs
    ensures id in w.past.born && w.past.born[id] == Birth(w.db.runs[id].key, w.db.runs[id].createdAt)
  {
    assert Ok(ViewOf(w, id));
    hide IsPath, RowOk, TaskOk, LaunchOk;
  }

  // ----- What the invariant says of every run

  /** In every reachable state, a run's history is a path of the automaton, its row
      shows the last status of it, and a `done` row names either its pull request
      or the reason it has none. */
  lemma {:induction false} EveryHistoryIsAPath(cfg: Config, w: World, run: seq<Action>, id: Id)
    requires Initial(w)
    ensures var v := ViewOf(End(cfg, w, run), id);
      && (v.birth.Some? ==> IsPath(v.history) && |v.history| <= 9)
      && (v.run.Some? ==> v.birth.Some? && v.run.value.status == Last(v.history))
      && (v.run.Some? && v.run.value.status == Done ==> (v.run.value.prNumber.Some? <==> v.run.value.prSkip.None?))
      && (v.run.Some? && v.run.value.status == Queued ==> v.run.value.prNumber.None? && !v.run.value.llm)
  {
    hide End, IsPath, TaskOk, LaunchOk;
    InitialInv(w);
    EndInv(cfg, w, run);
    var v := ViewOf(End(cfg, w, run), id);
    assert Ok(v);
    if v.birth.Some? {
      assert |v.history| > 0 by {
        PathNotEmpty(v.history);
      }
      PathIsShort(v.history, |v.history|);
    }
  }

  lemma {:induction false} PathNotEmpty(h: seq<Status>)
    requires IsPath(h)
    ensures h != []
  {
  }

  ghost predicate HasLlm(v: View) {
    v.birth.Some? && (v.run.Some? ==> v.run.value.llm)
  }

  lemma {:induction false} StepKeepsLlm(cfg: Config, w: World, id: Id, j: Id)
    requires Inv(w) && id in w.tasks && HasLlm(ViewOf(w, j))
    ensures HasLlm(ViewOf(DoStep(cfg, w, id), j))
  {
    assert Ok(ViewOf(w, id));
    StepElsewhere(cfg, w, id);
    BlockRow(cfg, w.db, w.now, w.nextPull, id, w.tasks[id]);
    if id in w.db.runs {
      LlmStays(w.db.runs[id], w.tasks[id]);
    }
    StepLeads(cfg, w, id);
    hide Block, RowAfter, DoStep, Ok;
  }

  lemma {:induction false} LlmStays(run: Run, t: Task)
    ensures run.llm ==> RowAfter(run, t).llm
  {
  }

  lemma {:induction false} DoKeepsLlm(cfg: Config, w: World, a: Action, j: Id)
    requires Inv(w) && Enabled(w, a) && HasLlm(ViewOf(w, j))
    ensures HasLlm(ViewOf(Do(cfg, w, a), j))
  {
    if a.Step? {
      StepKeepsLlm(cfg, w, a.id, j);
    }
    hide Inv, DoStep;
  }

  /** Once a model result has been recorded the run is never queued again. */
  lemma {:induction false} NeverQueuedAfterLlm(cfg: Config, w: World, run: seq<Action>, id: Id)
    requires Inv(w) && id in w.db.runs && w.db.runs[id].llm
    ensures var v := ViewOf(End(cfg, w, run), id); v.run.Some? ==> v.run.value.llm && v.run.value.status != Queued
  {
    assert Ok(ViewOf(w, id)) && HasLlm(ViewOf(w, id));
    LlmToTheEnd(cfg, w, run, id);
    EndInv(cfg, w, run);
    assert Ok(ViewOf(End(cfg, w, run), id));
    hide End, IsPath, TaskOk, LaunchOk;
  }

  lemma {:induction false} LlmToTheEnd(cfg: Config, w: World, run: seq<Action>, id: Id)
    requires Inv(w) && HasLlm(ViewOf(w, id))
    ensures HasLlm(ViewOf(End(cfg, w, run), id))
    decreases |run|
  {
    hide Inv, Do, Enabled, HasLlm, ViewOf;
    if run != [] && Enabled(w, run[0]) {
      DoInv(cfg, w, run[0]);
      DoKeepsLlm(cfg, w, run[0], id);
      LlmToTheEnd(cfg, Do(cfg, w, run[0]), run[1..], id);
    }
  }

  // ----- How long a run takes

  /** The sessions a run can still have, at most. */
  function Budget(v: View): nat {
    if v.birth.None? then 46
    else
      (if v.task.Some? then Left(v.task.value.pc) else if v.launch.Some? then 23 else 0)
      + (if Queued !in v.history || (v.run.Some? && v.run.value.status == Queued && v.launch.None?) then 23 else 0)
  }

  /** The sessions of run `id` among the actions taken. */
  function Sessions(cfg: Config, w: World, run: seq<Action>, id: Id): nat
    decreases |run|
  {
    if run == [] || !Enabled(w, run[0]) then 0
    else (if run[0] == Step(id) then 1 else 0) + Sessions(cfg, Do(cfg, w, run[0]), run[1..], id)
  }

  lemma {:induction false} StepSpends(v: View, t: Task, raised: bool, next: Task)
    requires Ok(v) && v.task == Some(t) && StepTo(t, raised, next)
    ensures Budget(StepView(v, t, raised, next)) < Budget(v)
  {
    SuccessorsAreLower(t.pc);
    StepOk(v, t, raised, next);
    hide TaskRow, RowOk, RowAfter, Left, OnRaise, Follows, Edge;
    if v.run.Some? {
      assert StatusAt(t.pc, v.run.value.status) by {
        TaskStatus(v, t);
      }
      NotQueuedAtWork(t.pc, v.run.value.status);
    }
  }

  lemma {:induction false} TaskStatus(v: View, t: Task)
    requires Ok(v) && v.task == Some(t) && v.run.Some?
    ensures StatusAt(t.pc, v.run.value.status)
  {
    hide StatusAt, IsPath, RowOk;
  }

  lemma {:induction false} NotQueuedAtWork(pc: Pc, s: Status)
    requires StatusAt(pc, s)
    ensures s != Queued
  {
  }

  lemma {:induction false} WeakerSpends(before: View, after: View)
    requires Ok(before) && Weaker(before, after)
    ensures Budget(after) <= Budget(before)
  {
  }

  /** The run an action is about, if it is about one. */
  function Target(a: Action): Option<Id> {
    match a
    case Receive(id, _, _) => Some(id)
    case Submit(id, _) => Some(id)
    case Park(id) => Some(id)
    case Spawn(id, _) => Some(id)
    case Approve(id) => Some(id)
    case Dispatch(id, _) => Some(id)
    case Step(id) => Some(id)
    case Poll(id, _) => Some(id)
    case _ => None
  }

  lemma {:induction false} InsertElsewhere(w: World, id: Id, key: string, manual: bool, launch: Launch, j: Id)
    requires j != id
    ensures ViewOf(Insert(w, id, key, manual, launch), j) == ViewOf(w, j)
  {
    hide NewRun;
  }

  lemma {:induction false} ParkElsewhere(w: World, id: Id, j: Id)
    requires j != id
    ensures ViewOf(DoPark(w, id), j) == ViewOf(w, j)
  {
  }

  lemma {:induction false} SpawnElsewhere(w: World, id: Id, env: Env, j: Id)
    requires j != id && id in w.inbox && w.inbox[id].ToSpawn?
    ensures ViewOf(DoSpawn(w, id, env), j) == ViewOf(w, j)
  {
    hide NewTask;
  }

  lemma {:induction false} ApproveElsewhere(w: World, id: Id, j: Id)
    requires j != id && id in w.db.runs
    ensures ViewOf(DoApprove(w, id), j) == ViewOf(w, j)
  {
  }

  lemma {:induction false} DispatchElsewhere(w: World, id: Id, env: Env, j: Id)
    requires j != id && id in w.inbox && w.inbox[id].ToDispatch?
    ensures ViewOf(DoDispatch(w, id, env), j) == ViewOf(w, j)
  {
    hide NewTask;
  }

  lemma {:induction false} PollElsewhere(w: World, id: Id, status: string, j: Id)
    requires j != id && id in w.db.runs
    ensures ViewOf(DoPoll(w, id, status), j) == ViewOf(w, j)
  {
  }

  /** An action about one run, other than a session, leaves every other run as it is. */
  lemma {:induction false} TargetElsewhere(cfg: Config, w: World, a: Action, j: Id)
    requires Enabled(w, a) && Target(a).Some? && Target(a).value != j && !a.Step?
    ensures ViewOf(Do(cfg, w, a), j) == ViewOf(w, j)
  {
    hide ViewOf, DoStep, Insert, DoPark, DoSpawn, DoApprove, DoDispatch, DoPoll, Truthful;
    match a
    case Receive(id, key, park) => InsertElsewhere(w, id, key, false, if park then ToPark else ToSpawn(key, true), j);
    case Submit(id, key) => InsertElsewhere(w, id, key, true, ToSpawn(key, false), j);
    case Park(id) => ParkElsewhere(w, id, j);
    case Spawn(id, env) => SpawnElsewhere(w, id, env, j);
    case Approve(id) => ApproveElsewhere(w, id, j);
    case Dispatch(id, env) => DispatchElsewhere(w, id, env, j);
    case Poll(id, status) => PollElsewhere(w, id, status, j);
    case _ =>
  }

  /** Nothing an action does improves the situation of another run. */
  lemma {:induction false} DoElsewhere(cfg: Config, w: World, a: Action, j: Id)
    requires Inv(w) && Enabled(w, a) && Target(a) != Some(j)
    ensures Weaker(ViewOf(w, j), ViewOf(Do(cfg, w, a), j))
  {
    if a.Step? {
      assert Ok(ViewOf(w, a.id));
      StepElsewhere(cfg, w, a.id);
      hide Inv, DoStep, Ok, Weaker, ViewOf;
    } else if Target(a).None? {
      LosingAction(cfg, w, a);
      hide Inv, Do, Ok, Weaker, ViewOf, Enabled;
    } else {
      hide Inv, Do, Ok, ViewOf, Enabled;
      TargetElsewhere(cfg, w, a, j);
    }
  }

  lemma {:induction false} DoSpends(cfg: Config, w: World, a: Action, id: Id)
    requires Inv(w) && Enabled(w, a)
    ensures Budget(ViewOf(Do(cfg, w, a), id)) + (if a == Step(id) then 1 else 0) <= Budget(ViewOf(w, id))
  {
    assert Ok(ViewOf(w, id));
    if Target(a) != Some(id) {
      DoElsewhere(cfg, w, a, id);
      hide Ok, ViewOf, Inv, Do, Enabled, Weaker, Budget;
      WeakerSpends(ViewOf(w, id), ViewOf(Do(cfg, w, a), id));
    } else if a.Step? {
      StepSpendsHere(cfg, w, id);
    } else {
      TargetSpends(cfg, w, a, id);
    }
  }

  lemma {:induction false} StepSpendsHere(cfg: Config, w: World, id: Id)
    requires Inv(w) && id in w.tasks
    ensures Budget(ViewOf(DoStep(cfg, w, id), id)) < Budget(ViewOf(w, id))
  {
    assert Ok(ViewOf(w, id));
    BlockTask(cfg, w.db, w.now, w.nextPull, id, w.tasks[id]);
    StepLeads(cfg, w, id);
    hide Ok, Block, StepView, Budget, DoStep;
    StepSpends(ViewOf(w, id), w.tasks[id], w.tasks[id].pc in w.tasks[id].env.raises, TaskAfter(cfg, w, id));
  }

  lemma {:induction false} TargetSpends(cfg: Config, w: World, a: Action, id: Id)
    requires Ok(ViewOf(w, id)) && Enabled(w, a) && Target(a) == Some(id) && !a.Step?
    ensures Budget(ViewOf(Do(cfg, w, a), id)) <= Budget(ViewOf(w, id))
  {
    assert Left(ReadSettings) == 23;
    hide RowOk, TaskOk, IsPath, Left;
  }

  /** Whatever else happens, the pipelines of one run never have more than 46
      sessions in all: 23 for the first one and 23 for one dispatch. */
  lemma {:induction false} SessionsAreBounded(cfg: Config, w: World, run: seq<Action>, id: Id)
    requires Inv(w)
    ensures Sessions(cfg, w, run, id) + Budget(ViewOf(End(cfg, w, run), id)) <= Budget(ViewOf(w, id)) <= 46
    decreases |run|
  {
    hide Inv, Do, Enabled, Budget, ViewOf;
    if run != [] && Enabled(w, run[0]) {
      DoInv(cfg, w, run[0]);
      DoSpends(cfg, w, run[0], id);
      SessionsAreBounded(cfg, Do(cfg, w, run[0]), run[1..], id);
    }
    BudgetIsSmall(ViewOf(w, id));
  }

  lemma {:induction false} LeftIsSmall(pc: Pc)
    ensures Left(pc) <= 23
  {
  }

  lemma {:induction false} BudgetIsSmall(v: View)
    ensures Budget(v) <= 46
  {
    hide Left;
    if v.task.Some? {
      LeftIsSmall(v.task.value.pc);
    }
  }

  // ----- How a run ends

  /** No crash, and no pipeline whose last resort, writing `failed`, raises. */
  predicate Calm(a: Action) {
    !a.Crash? && (a.Spawn? || a.Dispatch? ==> Fail !in a.env.raises)
  }

  predicate Settled(s: Status) {
    s.Terminal() || s.Queued?
  }

  /** A row nobody is working on is terminal or waits to be dispatched. */
  predicate Placed(v: View) {
    && (v.task.Some? ==> Fail !in v.task.value.env.raises)
    && (v.run.Some? && v.task.None? && v.launch.None? ==> Settled(v.run.value.status))
  }

  lemma {:induction false} EndsSettled(pc: Pc, s: Status)
    requires StatusAt(pc, s) && Follows(pc, Ended)
    ensures Settled(StatusThen(pc, s))
  {
  }

  lemma {:induction false} StepPlaced(v: View, t: Task, raised: bool, next: Task)
    requires Ok(v) && v.task == Some(t) && StepTo(t, raised, next) && next.env == t.env
    requires Placed(v) && (raised ==> t.pc in t.env.raises)
    ensures Placed(StepView(v, t, raised, next))
  {
    hide RowAfter, Follows, Settled, StatusThen, Ok;
    if v.run.Some? && next.pc == Ended {
      TaskStatus(v, t);
      if !raised {
        EndsSettled(t.pc, v.run.value.status);
        RowStatus(v.run.value, t);
      }
    }
  }

  lemma {:induction false} DoPlaced(cfg: Config, w: World, a: Action, id: Id)
    requires Inv(w) && Enabled(w, a) && Calm(a) && Placed(ViewOf(w, id))
    ensures Placed(ViewOf(Do(cfg, w, a), id))
  {
    assert Ok(ViewOf(w, id));
    if a == Step(id) {
      BlockTask(cfg, w.db, w.now, w.nextPull, id, w.tasks[id]);
      BlockEnv(cfg, w.db, w.now, w.nextPull, id, w.tasks[id]);
      StepLeads(cfg, w, id);
      hide Ok, Block, StepView, Placed, DoStep;
      StepPlaced(ViewOf(w, id), w.tasks[id], w.tasks[id].pc in w.tasks[id].env.raises, TaskAfter(cfg, w, id));
    } else {
      OtherPlaced(cfg, w, a, id);
    }
  }

  lemma {:induction false} BlockEnv(cfg: Config, db: Db, now: Time, number: nat, id: Id, t: Task)
    ensures Block(cfg, db, now, number, id, t).task.env == t.env
  {
    hide Next, Window, Commit, OnRaise;
  }

  lemma {:induction false} OtherPlaced(cfg: Config, w: World, a: Action, id: Id)
    requires Inv(w) && Enabled(w, a) && Calm(a) && Placed(ViewOf(w, id)) && a != Step(id)
    ensures Placed(ViewOf(Do(cfg, w, a), id))
  {
    if a.Step? {
      assert Ok(ViewOf(w, a.id));
      StepKeepsTasks(cfg, w, a.id, id);
      hide Ok, Inv, DoStep, ViewOf, Calm;
    } else if Target(a).Some? && Target(a).value != id {
      hide Inv, Do, Ok, ViewOf, Enabled, Placed;
      TargetElsewhere(cfg, w, a, id);
    } else if Target(a).Some? {
      TargetPlaced(cfg, w, a, id);
    } else {
      hide Ok, Inv, DoStep, DoPoll;
    }
  }

  lemma {:induction false} TargetPlaced(cfg: Config, w: World, a: Action, id: Id)
    requires Enabled(w, a) && Calm(a) && Placed(ViewOf(w, id)) && Target(a) == Some(id) && !a.Step?
    ensures Placed(ViewOf(Do(cfg, w, a), id))
  {
    hide Left, DoStep;
  }

  lemma {:induction false} StepKeepsTasks(cfg: Config, w: World, id: Id, j: Id)
    requires id in w.tasks && id != j
    ensures ViewOf(DoStep(cfg, w, id), j).run == ViewOf(w, j).run
    ensures ViewOf(DoStep(cfg, w, id), j).task == ViewOf(w, j).task
    ensures ViewOf(DoStep(cfg, w, id), j).launch == ViewOf(w, j).launch
  {
    BlockIsLocal(cfg, w.db, w.now, w.nextPull, id, w.tasks[id]);
    hide Block, EndedUnproductive, Noted;
  }

  /** Without crashes and failing last resorts, no run is ever left behind: every row
      is terminal, queued, or still in the hands of a handler or a pipeline. */
  lemma {:induction false} NoRunIsLost(cfg: Config, w: World, run: seq<Action>, id: Id)
    requires Inv(w) && Placed(ViewOf(w, id)) && forall i | 0 <= i < |run| :: Calm(run[i])
    ensures Placed(ViewOf(End(cfg, w, run), id))
    decreases |run|
  {
    hide Inv, Do, Enabled, Placed, ViewOf, Calm;
    if run != [] && Enabled(w, run[0]) {
      DoInv(cfg, w, run[0]);
      DoPlaced(cfg, w, run[0], id);
      NoRunIsLost(cfg, Do(cfg, w, run[0]), run[1..], id);
    }
  }
}
