/**
 At most one open pull request per alert on GitHub itself: when pipelines of one
 key do not overlap, what is opened is recorded, and rows in use are not pruned.
 */
module OnePull {
  import opened Results
  import opened Repository
  import opened Pipeline
  import opened World
  import opened OnePr
  import Lifecycle

  predicate OpenFor(w: World, n: nat, key: string) {
    n in w.pulls && w.pulls[n].open && w.pulls[n].key == key
  }

  /** Nothing between opening a pull request and recording it is lost: no crash in
      between, no failing write, and pruning keeps the rows that are in use. */
  predicate Careful(cfg: Config, w: World, a: Action) {
    match a
    case Spawn(_, env) => SavePr !in env.raises
    case Dispatch(_, env) => SavePr !in env.raises
    case Crash => forall id | id in w.tasks :: w.tasks[id].pc != SavePr
    case Prune(days) =>
      && (forall id | id in w.db.runs && (id in w.tasks || id in w.inbox) :: id in Pruned(w.db, w.now, days).runs)
      && (forall n | n in w.pulls && w.pulls[n].open && w.pulls[n].run in w.db.runs ::
        w.pulls[n].run in Pruned(w.db, w.now, days).runs)
    case _ => true
  }

  predicate AllCareful(cfg: Config, w: World, run: seq<Action>)
    decreases |run|
  {
    run == [] || !Enabled(w, run[0]) || (Careful(cfg, w, run[0]) && AllCareful(cfg, Do(cfg, w, run[0]), run[1..]))
  }

  /** The pull request has just been opened by a pipeline that is about to record it. */
  predicate AboutToBeRecorded(w: World, n: nat) {
    n in w.pulls && var id := w.pulls[n].run;
    && id in w.tasks && id in w.db.runs && w.tasks[id].pc == SavePr && w.tasks[id].pr == n
    && w.tasks[id].key == w.pulls[n].key
  }

  predicate Recorded(w: World, n: nat) {
    n in w.pulls && BlocksKey(w.db, w.pulls[n].run, w.pulls[n].key)
    && w.db.runs[w.pulls[n].run].prNumber == Some(n)
  }

  ghost predicate Live(w: World) {
    && (forall id | id in w.tasks :: id in w.db.runs && SavePr !in w.tasks[id].env.raises)
    && (forall id | id in w.inbox :: id in w.db.runs)
  }

  ghost predicate AllAccounted(w: World) {
    forall n | n in w.pulls && w.pulls[n].open :: AboutToBeRecorded(w, n) || Recorded(w, n)
  }

  ghost predicate PullInv(w: World) {
    OneInv(w) && Live(w) && AllAccounted(w)
  }

  // ----- One pull request over one action

  lemma {:induction false} RecordedStays(run: Run, t: Task)
    requires Lifecycle.RowOk(run) && Lifecycle.TaskRow(run, t.pc) && t.pc != Ended && run.Blocking()
    ensures RowAfter(run, t).Blocking() && RowAfter(run, t).prNumber == run.prNumber
    ensures RowAfter(run, t).key == run.key
  {
    assert t.pc.Notify? || t.pc.Finish? || t.pc.Fail?;
  }

  lemma {:induction false} RecordsNow(run: Run, t: Task)
    requires Lifecycle.TaskRow(run, t.pc) && t.pc == SavePr
    ensures RowAfter(run, t).Blocking() && RowAfter(run, t).prNumber == Some(t.pr)
    ensures RowAfter(run, t).key == run.key
  {
  }

  lemma {:induction false} StepRecorded(cfg: Config, w: World, id: Id, n: nat)
    requires PullInv(w) && id in w.tasks && Recorded(w, n)
    ensures Recorded(DoStep(cfg, w, id).(pulls := w.pulls), n)
  {
    var t := w.tasks[id];
    BlockIsLocal(cfg, w.db, w.now, w.nextPull, id, t);
    Lifecycle.BlockRow(cfg, w.db, w.now, w.nextPull, id, t);
    if w.pulls[n].run == id {
      Lifecycle.TaskFacts(w, id);
      RecordedStays(w.db.runs[id], t);
    }
    hide Block, RowAfter, EndedUnproductive, Noted, PullInv, Lifecycle.RowOk, Lifecycle.TaskRow;
  }

  lemma {:induction false} StepRecords(cfg: Config, w: World, id: Id, n: nat)
    requires PullInv(w) && id in w.tasks && AboutToBeRecorded(w, n) && w.pulls[n].run == id
    ensures Recorded(DoStep(cfg, w, id).(pulls := w.pulls), n)
  {
    var t := w.tasks[id];
    assert SavePr !in t.env.raises;
    Lifecycle.TaskFacts(w, id);
    RecordsNow(w.db.runs[id], t);
    Lifecycle.BlockRow(cfg, w.db, w.now, w.nextPull, id, t);
    hide Block, RowAfter, EndedUnproductive, Noted, PullInv, Lifecycle.RowOk, Lifecycle.TaskRow;
  }

  lemma {:induction false} StepElsewhere(cfg: Config, w: World, id: Id, n: nat)
    requires id in w.tasks && AboutToBeRecorded(w, n) && w.pulls[n].run != id
    ensures AboutToBeRecorded(DoStep(cfg, w, id).(pulls := w.pulls), n)
  {
    BlockIsLocal(cfg, w.db, w.now, w.nextPull, id, w.tasks[id]);
    hide Block, EndedUnproductive, Noted;
  }

  /** A session that opens a pull request leaves its pipeline about to record it. */
  lemma {:induction false} StepOpens(cfg: Config, w: World, id: Id)
    requires PullInv(w) && id in w.tasks
    ensures var after := DoStep(cfg, w, id);
      (after.pulls == w.pulls && after.nextPull == w.nextPull)
      || (after.pulls == w.pulls[w.nextPull := Pull(w.tasks[id].key, id, true)] && after.nextPull == w.nextPull + 1
          && AboutToBeRecorded(after, w.nextPull))
  {
    BlockIsLocal(cfg, w.db, w.now, w.nextPull, id, w.tasks[id]);
    OpensWithNumber(cfg, w.db, w.now, w.nextPull, id, w.tasks[id]);
    hide Block, EndedUnproductive, Noted;
  }

  lemma {:induction false} OpensWithNumber(cfg: Config, db: Db, now: Time, number: nat, id: Id, t: Task)
    ensures var next := Block(cfg, db, now, number, id, t).task;
      next.key == t.key && (t.pc == OpenPr && next.pc == SavePr ==> next.pr == number)
  {
    hide Next, Commit, Window;
  }

  lemma {:induction false} SamePull(w: World, v: World, n: nat)
    requires n in w.pulls && n in v.pulls && v.pulls[n] == w.pulls[n]
    requires w.db == v.db && w.tasks == v.tasks
    ensures AboutToBeRecorded(w, n) <==> AboutToBeRecorded(v, n)
    ensures Recorded(w, n) <==> Recorded(v, n)
  {
  }

  lemma {:induction false} StepAccounted(cfg: Config, w: World, id: Id)
    requires PullInv(w) && id in w.tasks
    ensures AllAccounted(DoStep(cfg, w, id))
  {
    var after := DoStep(cfg, w, id);
    StepOpens(cfg, w, id);
    hide Do, DoStep, OneInv, Live, Recorded, AboutToBeRecorded;
    forall n | n in after.pulls && after.pulls[n].open ensures AboutToBeRecorded(after, n) || Recorded(after, n) {
      if n in w.pulls {
        assert n != w.nextPull && after.pulls[n] == w.pulls[n];
        SamePull(after.(pulls := w.pulls), after, n);
        if Recorded(w, n) {
          StepRecorded(cfg, w, id, n);
        } else if w.pulls[n].run == id {
          StepRecords(cfg, w, id, n);
        } else {
          StepElsewhere(cfg, w, id, n);
        }
      }
    }
  }

  /** The other actions leave what is about to be recorded alone. */
  lemma {:induction false} OtherPending(cfg: Config, w: World, a: Action, n: nat)
    requires PullInv(w) && Enabled(w, a) && Careful(cfg, w, a) && !a.Step? && AboutToBeRecorded(w, n)
    ensures AboutToBeRecorded(Do(cfg, w, a), n)
  {
    var id := w.pulls[n].run;
    assert Lifecycle.Ok(Lifecycle.ViewOf(w, id));
    Lifecycle.NotWaiting(Lifecycle.ViewOf(w, id));
    hide Lifecycle.Ok, Pruned, PullInv;
  }

  /** A truthful poller never marks an open pull request as closed. */
  lemma {:induction false} PollRecorded(w: World, id: Id, status: string, n: nat)
    requires id in OpenPrs(w.db) && Truthful(w, id, status) && Recorded(w, n) && w.pulls[n].open
    ensures Recorded(DoPoll(w, id, status), n)
  {
  }

  lemma {:induction false} OtherRecorded(cfg: Config, w: World, a: Action, n: nat)
    requires PullInv(w) && Enabled(w, a) && Careful(cfg, w, a) && !a.Step? && Recorded(w, n) && w.pulls[n].open
    ensures Recorded(Do(cfg, w, a), n)
  {
    Lifecycle.RowFacts(w, w.pulls[n].run);
    if a.Prune? {
      PruneKeeps(w, w.pulls[n].run, a.days);
    }
    if a.Poll? {
      PollRecorded(w, a.id, a.status, n);
    }
    hide Pruned, PullInv, DoPoll;
  }

  lemma {:induction false} PruneKeeps(w: World, id: Id, days: int)
    requires id in w.db.runs && id in Pruned(w.db, w.now, days).runs
    ensures Pruned(w.db, w.now, days).runs[id] == w.db.runs[id]
  {
  }

  lemma {:induction false} OtherAccounted(cfg: Config, w: World, a: Action)
    requires PullInv(w) && Enabled(w, a) && Careful(cfg, w, a) && !a.Step?
    ensures AllAccounted(Do(cfg, w, a))
  {
    var after := Do(cfg, w, a);
    assert after.pulls.Keys == w.pulls.Keys && after.nextPull == w.nextPull;
    assert forall n | n in after.pulls && after.pulls[n].open :: w.pulls[n].open;
    hide Do, OneInv, Live, Recorded, AboutToBeRecorded, Careful, Enabled;
    forall n | n in after.pulls && after.pulls[n].open ensures AboutToBeRecorded(after, n) || Recorded(after, n) {
      if Recorded(w, n) {
        OtherRecorded(cfg, w, a, n);
      } else {
        OtherPending(cfg, w, a, n);
      }
    }
  }

  lemma {:induction false} LiveAfterStep(cfg: Config, w: World, id: Id)
    requires Live(w) && id in w.tasks
    ensures Live(DoStep(cfg, w, id))
  {
    BlockIsLocal(cfg, w.db, w.now, w.nextPull, id, w.tasks[id]);
    Lifecycle.BlockEnv(cfg, w.db, w.now, w.nextPull, id, w.tasks[id]);
    hide Block, EndedUnproductive, Noted;
  }

  lemma {:induction false} LiveAfter(cfg: Config, w: World, a: Action)
    requires Live(w) && Enabled(w, a) && Careful(cfg, w, a)
    ensures Live(Do(cfg, w, a))
  {
    if a.Step? {
      LiveAfterStep(cfg, w, a.id);
    }
    hide DoStep, Pruned;
  }

  lemma {:induction false} DoPull(cfg: Config, w: World, a: Action)
    requires PullInv(w) && Enabled(w, a) && Alone(w, a) && Careful(cfg, w, a)
    ensures PullInv(Do(cfg, w, a))
  {
    DoOne(cfg, w, a);
    LiveAfter(cfg, w, a);
    hide OneInv, Live, AllAccounted, Alone, DoStep, Careful;
    if a.Step? {
      StepAccounted(cfg, w, a.id);
    } else {
      OtherAccounted(cfg, w, a);
    }
  }

  lemma {:induction false} PullToTheEnd(cfg: Config, w: World, run: seq<Action>)
    requires PullInv(w) && NoOverlap(cfg, w, run) && AllCareful(cfg, w, run)
    ensures PullInv(End(cfg, w, run))
    decreases |run|
  {
    hide Do, Enabled, PullInv, Alone, Careful;
    if run != [] && Enabled(w, run[0]) {
      DoPull(cfg, w, run[0]);
      PullToTheEnd(cfg, Do(cfg, w, run[0]), run[1..]);
    }
  }

  lemma {:induction false} OpenOnce(w: World, n: nat, m: nat, key: string)
    requires PullInv(w) && OpenFor(w, n, key) && OpenFor(w, m, key)
    ensures n == m
  {
    NotGuardedAtFirst();
    if AboutToBeRecorded(w, n) && AboutToBeRecorded(w, m) {
      assert w.pulls[n].run == w.pulls[m].run;
    } else if AboutToBeRecorded(w, n) {
      PendingIsNotRecorded(w, n, m);
    } else if AboutToBeRecorded(w, m) {
      PendingIsNotRecorded(w, m, n);
    } else {
      assert w.pulls[n].run == w.pulls[m].run;
    }
    hide BlocksKey, Guarded, Lifecycle.Inv;
  }

  lemma {:induction false} PendingDoesNotBlock(w: World, id: Id)
    requires Lifecycle.Inv(w) && id in w.tasks && id in w.db.runs && w.tasks[id].pc == SavePr
    ensures !w.db.runs[id].Blocking()
  {
    Lifecycle.TaskFacts(w, id);
    hide Lifecycle.Inv, Lifecycle.RowOk;
  }

  lemma {:induction false} PendingIsNotRecorded(w: World, n: nat, m: nat)
    requires OneInv(w) && AboutToBeRecorded(w, n) && m in w.pulls && w.pulls[m].key == w.pulls[n].key
    ensures !Recorded(w, m)
  {
    PendingDoesNotBlock(w, w.pulls[n].run);
    NotGuardedAtFirst();
    hide Guarded, Lifecycle.Inv, SingleTasks, OneBlocking, Run.Blocking;
  }

  /** In every reachable state each key has at most one open pull request on GitHub. */
  lemma {:induction false} OnePullPerKey(cfg: Config, w: World, run: seq<Action>, n: nat, m: nat, key: string)
    requires Initial(w) && NoOverlap(cfg, w, run) && AllCareful(cfg, w, run)
    requires OpenFor(End(cfg, w, run), n, key) && OpenFor(End(cfg, w, run), m, key)
    ensures n == m
  {
    InitialOne(w);
    assert PullInv(w);
    hide End, NoOverlap, AllCareful, PullInv, OpenFor;
    PullToTheEnd(cfg, w, run);
    OpenOnce(End(cfg, w, run), n, m, key);
  }
}
