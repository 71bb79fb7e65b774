/**
 How a run ends when nothing comes between its sessions: said on its row, on what
 the world answers, and on the gates.
 */
module Outcomes {
  import opened Results
  import opened Repository
  import opened Pipeline
  import opened World

  /** The database once the pipeline has run to its end. */
  ghost function RunOut(cfg: Config, db: Db, now: Time, number: nat, id: Id, t: Task): Db
    decreases Left(t.pc)
  {
    if t.pc == Ended then db
    else
      BlocksEnd(cfg, db, now, number, id, t);
      var a := Block(cfg, db, now, number, id, t);
      RunOut(cfg, a.db, now, if t.pc == OpenPr && a.task.pc == SavePr then number + 1 else number, id, a.task)
  }

  /** The world once the pipeline of run `id` has run to its end. */
  ghost function Ahead(cfg: Config, w: World, id: Id): World
    decreases if id in w.tasks then Left(w.tasks[id].pc) + 1 else 0
  {
    if id !in w.tasks then w
    else if w.tasks[id].pc == Ended then w
    else
      BlocksEnd(cfg, w.db, w.now, w.nextPull, id, w.tasks[id]);
      Ahead(cfg, DoStep(cfg, w, id), id)
  }

  lemma {:induction false} StepGives(cfg: Config, w: World, id: Id)
    requires id in w.tasks
    ensures var a, v := Block(cfg, w.db, w.now, w.nextPull, id, w.tasks[id]), DoStep(cfg, w, id);
      && v.db == a.db && v.now == w.now
      && v.nextPull == (if w.tasks[id].pc == OpenPr && a.task.pc == SavePr then w.nextPull + 1 else w.nextPull)
      && (a.task.pc == Ended ==> id !in v.tasks) && (a.task.pc != Ended ==> id in v.tasks && v.tasks[id] == a.task)
  {
    hide Block, PastAfter;
  }

  lemma {:induction false} RunOutUnfold(cfg: Config, db: Db, now: Time, number: nat, id: Id, t: Task)
    requires t.pc != Ended
    ensures var a := Block(cfg, db, now, number, id, t);
      RunOut(cfg, db, now, number, id, t)
      == RunOut(cfg, a.db, now, if t.pc == OpenPr && a.task.pc == SavePr then number + 1 else number, id, a.task)
  {
    hide Block;
  }

  lemma {:induction false} AheadUnfold(cfg: Config, w: World, id: Id)
    ensures id !in w.tasks ==> Ahead(cfg, w, id) == w
    ensures id in w.tasks && w.tasks[id].pc == Ended ==> Ahead(cfg, w, id) == w
    ensures id in w.tasks && w.tasks[id].pc != Ended ==> Ahead(cfg, w, id) == Ahead(cfg, DoStep(cfg, w, id), id)
  {
    hide DoStep;
  }

  lemma {:induction false} AheadIsRunOut(cfg: Config, w: World, id: Id)
    requires id in w.tasks
    ensures Ahead(cfg, w, id).db == RunOut(cfg, w.db, w.now, w.nextPull, id, w.tasks[id])
    decreases Left(w.tasks[id].pc)
  {
    hide *;
    var t := w.tasks[id];
    AheadUnfold(cfg, w, id);
    if t.pc == Ended {
      EndedIsOut(cfg, w.db, w.now, w.nextPull, id, t);
    } else {
      BlocksEnd(cfg, w.db, w.now, w.nextPull, id, t);
      StepGives(cfg, w, id);
      RunOutUnfold(cfg, w.db, w.now, w.nextPull, id, t);
      var v, a := DoStep(cfg, w, id), Block(cfg, w.db, w.now, w.nextPull, id, t);
      if id in v.tasks {
        AheadIsRunOut(cfg, v, id);
      } else {
        AheadUnfold(cfg, v, id);
        EndedIsOut(cfg, v.db, v.now, v.nextPull, id, a.task);
      }
    }
  }

  lemma {:induction false} EndedIsOut(cfg: Config, db: Db, now: Time, number: nat, id: Id, t: Task)
    requires t.pc == Ended
    ensures RunOut(cfg, db, now, number, id, t) == db
  {
  }

  // ----- Endings

  /** The run has neither a pull request nor a reason for none that it had not before,
      and nobody was notified. */
  predicate Untouched(before: Run, after: Run) {
    && after.prOpened == before.prOpened && after.prNumber == before.prNumber && after.prSkip == before.prSkip
    && after.prStatus == before.prStatus && after.notified == before.notified
  }

  /** The ends after a model result: a patch that does not apply fails the run, without a
      pull request and without a notification; an opened pull request is recorded; anything
      else is a reason for none; and the run is done. */
  predicate PostEnd(env: Env, before: Run, after: Run, number: nat) {
    match env.post
    case DoesNotApply =>
      && after.status == Failed && !after.prOpened && after.prNumber == None
      && after.prSkip == Some("patch verification failed") && after.notified == before.notified
    case Opens =>
      && after.status == Done && after.prOpened && after.prNumber == Some(number) && after.prSkip == None
      && after.notified == env.notified
    case _ =>
      && after.status == Done && !after.prOpened && after.prNumber == None && after.prSkip.Some?
      && after.notified == env.notified
  }

  /** The ends behind the gates. */
  predicate PipelineEnd(env: Env, before: Run, after: Run, number: nat) {
    if !env.patcher || env.triage == Triaged(true) then after.status == Skipped && Untouched(before, after)
    else if env.collectRaises then after.status == Failed && Untouched(before, after)
    else if env.suspended then after.status == Skipped && Untouched(before, after)
    else if env.generateRaises then after.status == Failed && Untouched(before, after)
    else PostEnd(env, before, after, number)
  }

  // ----- One session at a time

  /** The session at `t.pc` does not raise, writes what it writes, and goes on at `next`. */
  lemma {:induction false} Unroll(cfg: Config, db: Db, now: Time, number: nat, id: Id, t: Task, next: Pc)
    requires id in db.runs && t.pc !in t.env.raises && t.pc != Ended && t.pc != TripMode && t.pc != DedupGate
    requires Next(cfg, db, now, id, t) == next
    ensures RunOut(cfg, db, now, number, id, t)
      == RunOut(cfg, SetRow(db, id, RowAfter(db.runs[id], t)), now,
        if t.pc == OpenPr && next == SavePr then number + 1 else number,
        id, t.(pc := next, pr := if t.pc == OpenPr then number else t.pr))
  {
    hide RowAfter, Next, Window, RunOut;
    RunOutUnfold(cfg, db, now, number, id, t);
  }

  lemma {:induction false} UnrollRaised(cfg: Config, db: Db, now: Time, number: nat, id: Id, t: Task)
    requires t.pc in t.env.raises && t.pc != Ended
    ensures RunOut(cfg, db, now, number, id, t) == RunOut(cfg, db, now, number, id, t.(pc := OnRaise(t.pc)))
  {
    hide Commit, Next, Window, RunOut, OnRaise;
    RunOutUnfold(cfg, db, now, number, id, t);
    OpensNot(t.pc);
  }

  lemma {:induction false} OpensNot(pc: Pc)
    ensures pc == OpenPr ==> OnRaise(pc) == SaveSkip
  {
  }

  // ----- From the end to the beginning

  /** The row of the run, once its pipeline has run out from where `t` stands. */
  ghost function EndRow(cfg: Config, db: Db, now: Time, number: nat, id: Id, t: Task): Run
    requires id in db.runs
  {
    RowStays(cfg, db, now, number, id, t);
    RunOut(cfg, db, now, number, id, t).runs[id]
  }

  lemma {:induction false} RowStays(cfg: Config, db: Db, now: Time, number: nat, id: Id, t: Task)
    ensures RunOut(cfg, db, now, number, id, t).runs.Keys == db.runs.Keys
    decreases Left(t.pc)
  {
    if t.pc != Ended {
      BlocksEnd(cfg, db, now, number, id, t);
      BlockIsLocal(cfg, db, now, number, id, t);
      hide Block, Left, RunOut;
      RunOutUnfold(cfg, db, now, number, id, t);
      var a := Block(cfg, db, now, number, id, t);
      RowStays(cfg, a.db, now, if t.pc == OpenPr && a.task.pc == SavePr then number + 1 else number, id, a.task);
    } else {
      EndedIsOut(cfg, db, now, number, id, t);
    }
  }

  /** A session that writes a last status. */
  lemma {:induction false} LastStatus(cfg: Config, db: Db, now: Time, number: nat, id: Id, t: Task, status: Status)
    requires id in db.runs && t.pc !in t.env.raises
    requires match t.pc case Skip => status == Skipped case TripQueue => status == Queued case ApplyFailed => status == Failed
      case Finish => status == Done case Fail => status == Failed case _ => false
    ensures var end := EndRow(cfg, db, now, number, id, t);
      end.status == status && Untouched(db.runs[id], end)
  {
    hide RunOut;
    Unroll(cfg, db, now, number, id, t, Ended);
    EndedIsOut(cfg, SetRow(db, id, RowAfter(db.runs[id], t)), now, number, id, t.(pc := Ended, pr := t.pr));
  }

  /** The session at `t.pc` commits, and the run goes on from `next`. */
  lemma {:induction false} Goes(cfg: Config, db: Db, now: Time, number: nat, id: Id, t: Task, next: Pc)
    returns (after: Db, rest: Task)
    requires id in db.runs && t.pc !in t.env.raises && t.pc != Ended && t.pc != TripMode && t.pc != DedupGate
    requires t.pc != OpenPr || next != SavePr
    requires Next(cfg, db, now, id, t) == next
    ensures id in after.runs && after.runs[id] == RowAfter(db.runs[id], t)
    ensures after == SetRow(db, id, RowAfter(db.runs[id], t))
    ensures rest.pc == next && rest.env == t.env && rest.key == t.key && rest.enforceBackoff == t.enforceBackoff
    ensures t.pc != OpenPr ==> rest.pr == t.pr && rest == t.(pc := next)
    ensures EndRow(cfg, db, now, number, id, t) == EndRow(cfg, after, now, number, id, rest)
  {
    hide RunOut, RowAfter, Next;
    Unroll(cfg, db, now, number, id, t, next);
    after := SetRow(db, id, RowAfter(db.runs[id], t));
    rest := t.(pc := next, pr := if t.pc == OpenPr then number else t.pr);
  }

  function AfterContext(env: Env): Pc {
    if env.suspended then Skip else if env.investigation.NoInvestigator? then Generate else Investigate
  }

  /** Behind the gates, where a session goes on is a matter of what the world answers. */
  lemma {:induction false} Onward(cfg: Config, db: Db, now: Time, id: Id, t: Task)
    ensures t.pc == Triage ==> Next(cfg, db, now, id, t) == if t.env.triage.Triaged? then SaveTriage else Collect
    ensures t.pc == SaveTriage && t.env.triage.Triaged? ==>
      Next(cfg, db, now, id, t) == if t.env.triage.skip then Skip else Collect
    ensures t.pc == Collect ==> Next(cfg, db, now, id, t) == if t.env.collectRaises then Fail else SaveContext
    ensures t.pc == SaveContext ==> Next(cfg, db, now, id, t) == AfterContext(t.env)
    ensures t.pc == Investigate ==>
      Next(cfg, db, now, id, t) == if t.env.investigation.Investigated? then SaveInvestigation else Generate
    ensures t.pc == SaveInvestigation ==> Next(cfg, db, now, id, t) == Generate
    ensures t.pc == Generate ==> Next(cfg, db, now, id, t) == if t.env.generateRaises then Fail else SaveLlm
    ensures t.pc == SaveLlm ==> Next(cfg, db, now, id, t) == Post
    ensures t.pc == Post ==> Next(cfg, db, now, id, t) == if t.env.post.NothingToPost? then SaveSkip else OpenPr
    ensures t.pc == OpenPr && t.env.post.Opens? ==> Next(cfg, db, now, id, t) == SavePr
    ensures t.pc == OpenPr && t.env.post.DoesNotApply? ==> Next(cfg, db, now, id, t) == SaveApplyError
    ensures t.pc == OpenPr && !t.env.post.Opens? && !t.env.post.DoesNotApply? ==> Next(cfg, db, now, id, t) == SaveSkip
    ensures t.pc == SavePr || t.pc == SaveSkip ==> Next(cfg, db, now, id, t) == Notify
    ensures t.pc == SaveApplyError ==> Next(cfg, db, now, id, t) == ApplyFailed
    ensures t.pc == Notify ==> Next(cfg, db, now, id, t) == Finish
  {
    hide HasBlockingPr, HasRecentUnproductive, WithinGrace, CeilingReached, Backoff, Grace, Window;
  }

  lemma {:induction false} FromNotify(cfg: Config, db: Db, now: Time, number: nat, id: Id, t: Task)
    requires id in db.runs && t.pc == Notify && Notify !in t.env.raises && Finish !in t.env.raises
    ensures var before, end := db.runs[id], EndRow(cfg, db, now, number, id, t);
      && end.status == Done && end.prOpened == before.prOpened && end.prNumber == before.prNumber
      && end.prSkip == before.prSkip && end.notified == t.env.notified
  {
    hide RunOut, Next, EndRow;
    Onward(cfg, db, now, id, t);
    var after, rest := Goes(cfg, db, now, number, id, t, Finish);
    LastStatus(cfg, after, now, number, id, rest, Done);
  }

  lemma {:induction false} FromSaveSkip(cfg: Config, db: Db, now: Time, number: nat, id: Id, t: Task)
    requires id in db.runs && t.pc == SaveSkip
    requires SaveSkip !in t.env.raises && Notify !in t.env.raises && Finish !in t.env.raises
    ensures var end := EndRow(cfg, db, now, number, id, t);
      end.status == Done && !end.prOpened && end.prNumber == None && end.prSkip.Some? && end.notified == t.env.notified
  {
    hide RunOut, Next, EndRow;
    Onward(cfg, db, now, id, t);
    var after, rest := Goes(cfg, db, now, number, id, t, Notify);
    FromNotify(cfg, after, now, number, id, rest);
  }

  lemma {:induction false} FromSavePr(cfg: Config, db: Db, now: Time, number: nat, id: Id, t: Task)
    requires id in db.runs && t.pc == SavePr && t.env.raises == {}
    ensures var end := EndRow(cfg, db, now, number, id, t);
      end.status == Done && end.prOpened && end.prNumber == Some(t.pr) && end.prSkip == None && end.notified == t.env.notified
  {
    hide RunOut, Next, EndRow;
    Onward(cfg, db, now, id, t);
    var after, rest := Goes(cfg, db, now, number, id, t, Notify);
    FromNotify(cfg, after, now, number, id, rest);
  }

  lemma {:induction false} FromApplyError(cfg: Config, db: Db, now: Time, number: nat, id: Id, t: Task)
    requires id in db.runs && t.pc == SaveApplyError && t.env.raises == {}
    ensures var before, end := db.runs[id], EndRow(cfg, db, now, number, id, t);
      && end.status == Failed && !end.prOpened && end.prNumber == None
      && end.prSkip == Some("patch verification failed") && end.notified == before.notified
  {
    hide RunOut, Next, EndRow;
    Onward(cfg, db, now, id, t);
    var after, rest := Goes(cfg, db, now, number, id, t, ApplyFailed);
    LastStatus(cfg, after, now, number, id, rest, Failed);
  }

  lemma {:induction false} FromOpenPr(cfg: Config, db: Db, now: Time, number: nat, id: Id, t: Task)
    requires id in db.runs && t.pc == OpenPr && t.env.raises == {}
    ensures PostEnd(t.env, db.runs[id], EndRow(cfg, db, now, number, id, t), number)
  {
    hide RunOut, Next, EndRow;
    Onward(cfg, db, now, id, t);
    match t.env.post
    case Opens =>
      Opened(cfg, db, now, number, id, t);
      FromSavePr(cfg, SetRow(db, id, db.runs[id]), now, number + 1, id, t.(pc := SavePr, pr := number));
    case DoesNotApply =>
      var after, rest := Goes(cfg, db, now, number, id, t, SaveApplyError);
      FromApplyError(cfg, after, now, number, id, rest);
    case _ =>
      var after, rest := Goes(cfg, db, now, number, id, t, SaveSkip);
      FromSaveSkip(cfg, after, now, number, id, rest);
  }

  lemma {:induction false} Opened(cfg: Config, db: Db, now: Time, number: nat, id: Id, t: Task)
    requires id in db.runs && t.pc == OpenPr && t.env.raises == {} && Next(cfg, db, now, id, t) == SavePr
    ensures EndRow(cfg, db, now, number, id, t)
      == EndRow(cfg, SetRow(db, id, db.runs[id]), now, number + 1, id, t.(pc := SavePr, pr := number))
  {
    hide RunOut, Next;
    Unroll(cfg, db, now, number, id, t, SavePr);
  }

  lemma {:induction false} FromPost(cfg: Config, db: Db, now: Time, number: nat, id: Id, t: Task)
    requires id in db.runs && t.pc == Post && t.env.raises == {}
    ensures PostEnd(t.env, db.runs[id], EndRow(cfg, db, now, number, id, t), number)
  {
    hide RunOut, Next, EndRow;
    Onward(cfg, db, now, id, t);
    var after, rest := Goes(cfg, db, now, number, id, t, if t.env.post.NothingToPost? then SaveSkip else OpenPr);
    if t.env.post.NothingToPost? {
      FromSaveSkip(cfg, after, now, number, id, rest);
    } else {
      FromOpenPr(cfg, after, now, number, id, rest);
    }
  }

  /** From synthesis on. */
  predicate SynthesisEnd(env: Env, before: Run, after: Run, number: nat) {
    if env.generateRaises then after.status == Failed && Untouched(before, after) else PostEnd(env, before, after, number)
  }

  lemma {:induction false} FromGenerate(cfg: Config, db: Db, now: Time, number: nat, id: Id, t: Task)
    requires id in db.runs && t.pc == Generate && t.env.raises == {}
    ensures SynthesisEnd(t.env, db.runs[id], EndRow(cfg, db, now, number, id, t), number)
  {
    hide RunOut, Next, EndRow;
    Onward(cfg, db, now, id, t);
    var after, rest := Goes(cfg, db, now, number, id, t, if t.env.generateRaises then Fail else SaveLlm);
    if t.env.generateRaises {
      LastStatus(cfg, after, now, number, id, rest, Failed);
    } else {
      FromSaveLlm(cfg, after, now, number, id, rest);
    }
  }

  lemma {:induction false} FromSaveLlm(cfg: Config, db: Db, now: Time, number: nat, id: Id, t: Task)
    requires id in db.runs && t.pc == SaveLlm && t.env.raises == {}
    ensures PostEnd(t.env, db.runs[id], EndRow(cfg, db, now, number, id, t), number)
  {
    hide RunOut, Next, EndRow;
    Onward(cfg, db, now, id, t);
    var after, rest := Goes(cfg, db, now, number, id, t, Post);
    FromPost(cfg, after, now, number, id, rest);
  }

  lemma {:induction false} FromInvestigate(cfg: Config, db: Db, now: Time, number: nat, id: Id, t: Task)
    requires id in db.runs && t.pc == Investigate && t.env.raises == {}
    ensures SynthesisEnd(t.env, db.runs[id], EndRow(cfg, db, now, number, id, t), number)
  {
    hide RunOut, Next, EndRow;
    Onward(cfg, db, now, id, t);
    var after, rest := Goes(cfg, db, now, number, id, t, if t.env.investigation.Investigated? then SaveInvestigation else Generate);
    if t.env.investigation.Investigated? {
      Onward(cfg, after, now, id, rest);
      var saved, next := Goes(cfg, after, now, number, id, rest, Generate);
      FromGenerate(cfg, saved, now, number, id, next);
    } else {
      FromGenerate(cfg, after, now, number, id, rest);
    }
  }

  /** From the collection of context on. */
  predicate CollectEnd(env: Env, before: Run, after: Run, number: nat) {
    if env.collectRaises then after.status == Failed && Untouched(before, after)
    else if env.suspended then after.status == Skipped && Untouched(before, after)
    else SynthesisEnd(env, before, after, number)
  }

  lemma {:induction false} FromCollect(cfg: Config, db: Db, now: Time, number: nat, id: Id, t: Task)
    requires id in db.runs && t.pc == Collect && t.env.raises == {}
    ensures CollectEnd(t.env, db.runs[id], EndRow(cfg, db, now, number, id, t), number)
  {
    hide RunOut, Next, EndRow;
    Onward(cfg, db, now, id, t);
    var after, rest := Goes(cfg, db, now, number, id, t, if t.env.collectRaises then Fail else SaveContext);
    if t.env.collectRaises {
      LastStatus(cfg, after, now, number, id, rest, Failed);
    } else {
      FromSaveContext(cfg, after, now, number, id, rest);
    }
  }

  lemma {:induction false} FromSaveContext(cfg: Config, db: Db, now: Time, number: nat, id: Id, t: Task)
    requires id in db.runs && t.pc == SaveContext && t.env.raises == {} && !t.env.collectRaises
    ensures CollectEnd(t.env, db.runs[id], EndRow(cfg, db, now, number, id, t), number)
  {
    hide RunOut, Next, EndRow, SynthesisEnd;
    Onward(cfg, db, now, id, t);
    var after, rest := Goes(cfg, db, now, number, id, t, AfterContext(t.env));
    if t.env.suspended {
      LastStatus(cfg, after, now, number, id, rest, Skipped);
    } else if t.env.investigation.NoInvestigator? {
      FromGenerate(cfg, after, now, number, id, rest);
    } else {
      FromInvestigate(cfg, after, now, number, id, rest);
    }
  }

  lemma {:induction false} FromSaveTriage(cfg: Config, db: Db, now: Time, number: nat, id: Id, t: Task)
    requires id in db.runs && t.pc == SaveTriage && t.env.raises == {} && t.env.patcher && t.env.triage.Triaged?
    ensures PipelineEnd(t.env, db.runs[id], EndRow(cfg, db, now, number, id, t), number)
  {
    hide RunOut, Next, EndRow, PostEnd;
    Onward(cfg, db, now, id, t);
    var after, rest := Goes(cfg, db, now, number, id, t, if t.env.triage.skip then Skip else Collect);
    if t.env.triage.skip {
      LastStatus(cfg, after, now, number, id, rest, Skipped);
    } else {
      FromCollect(cfg, after, now, number, id, rest);
      SameBefore(t.env, db.runs[id], after.runs[id], EndRow(cfg, db, now, number, id, t), number);
    }
  }

  lemma {:induction false} FromTriage(cfg: Config, db: Db, now: Time, number: nat, id: Id, t: Task)
    requires id in db.runs && t.pc == Triage && t.env.raises == {} && t.env.patcher
    ensures PipelineEnd(t.env, db.runs[id], EndRow(cfg, db, now, number, id, t), number)
  {
    hide RunOut, Next, EndRow, PostEnd, CollectEnd;
    Onward(cfg, db, now, id, t);
    var after, rest := Goes(cfg, db, now, number, id, t, if t.env.triage.Triaged? then SaveTriage else Collect);
    var end := EndRow(cfg, db, now, number, id, t);
    if t.env.triage.Triaged? {
      FromSaveTriage(cfg, after, now, number, id, rest);
      SameEnd(t.env, db.runs[id], after.runs[id], end, number);
    } else {
      FromCollect(cfg, after, now, number, id, rest);
      SameBefore(t.env, db.runs[id], after.runs[id], end, number);
    }
  }

  lemma {:induction false} SameEnd(env: Env, before: Run, mid: Run, after: Run, number: nat)
    requires Untouched(before, mid) && PipelineEnd(env, mid, after, number)
    ensures PipelineEnd(env, before, after, number)
  {
  }

  lemma {:induction false} SameBefore(env: Env, before: Run, mid: Run, after: Run, number: nat)
    requires Untouched(before, mid) && CollectEnd(env, mid, after, number) && env.patcher && env.triage != Triaged(true)
    ensures PipelineEnd(env, before, after, number)
  {
  }

  lemma {:induction false} BehindTheGates(cfg: Config, db: Db, now: Time, number: nat, id: Id, t: Task)
    requires id in db.runs && t.pc == AfterGates(t.env) && t.env.raises == {}
    ensures PipelineEnd(t.env, db.runs[id], EndRow(cfg, db, now, number, id, t), number)
  {
    hide RunOut, Next, EndRow, PostEnd;
    if !t.env.patcher {
      LastStatus(cfg, db, now, number, id, t, Skipped);
    } else if t.env.triage.NoTriage? {
      FromCollect(cfg, db, now, number, id, t);
      SameBefore(t.env, db.runs[id], db.runs[id], EndRow(cfg, db, now, number, id, t), number);
    } else {
      FromTriage(cfg, db, now, number, id, t);
    }
  }

  // ----- The gates

  lemma {:induction false} SameRow(db: Db, id: Id)
    requires id in db.runs
    ensures SetRow(db, id, db.runs[id]) == db
  {
    assert db.runs[id := db.runs[id]] == db.runs;
  }

  /** A session that only looks. */
  lemma {:induction false} Looks(cfg: Config, db: Db, now: Time, number: nat, id: Id, t: Task, next: Pc)
    requires id in db.runs && t.env.raises == {} && (t.pc == ReadSettings || t.pc == Breaker || t.pc == BackoffGate || t.pc == GraceGate)
    requires Next(cfg, db, now, id, t) == next
    ensures EndRow(cfg, db, now, number, id, t) == EndRow(cfg, db, now, number, id, t.(pc := next))
    ensures RunOut(cfg, db, now, number, id, t) == RunOut(cfg, db, now, number, id, t.(pc := next))
  {
    hide RunOut, Next;
    SameRow(db, id);
    Unroll(cfg, db, now, number, id, t, next);
  }

  predicate GraceEnd(cfg: Config, db: Db, now: Time, id: Id, t: Task, after: Run, number: nat)
    requires id in db.runs
  {
    match Grace(cfg, db)
    case None => after.status == Failed && Untouched(db.runs[id], after)
    case Some(minutes) =>
      if WithinGrace(db, t.key, id, now, minutes * MINUTE) then after.status == Skipped && Untouched(db.runs[id], after)
      else PipelineEnd(t.env, db.runs[id], after, number)
  }

  lemma {:induction false} FromGrace(cfg: Config, db: Db, now: Time, number: nat, id: Id, t: Task)
    requires id in db.runs && t.pc == GraceGate && t.env.raises == {}
    ensures GraceEnd(cfg, db, now, id, t, EndRow(cfg, db, now, number, id, t), number)
  {
    hide RunOut, EndRow, WithinGrace, Grace, PipelineEnd, AfterGates;
    var next := AfterGrace(cfg, db, now, id, t);
    assert Next(cfg, db, now, id, t) == next;
    hide Next;
    Looks(cfg, db, now, number, id, t, next);
    var rest := t.(pc := next);
    if Grace(cfg, db).None? {
      LastStatus(cfg, db, now, number, id, rest, Failed);
    } else if WithinGrace(db, t.key, id, now, Grace(cfg, db).value * MINUTE) {
      LastStatus(cfg, db, now, number, id, rest, Skipped);
    } else {
      BehindTheGates(cfg, db, now, number, id, rest);
    }
  }

  predicate BackoffEnd(cfg: Config, db: Db, now: Time, id: Id, t: Task, after: Run, number: nat)
    requires id in db.runs
  {
    match Backoff(cfg, db)
    case None => after.status == Failed && Untouched(db.runs[id], after)
    case Some(minutes) =>
      if t.enforceBackoff && minutes > 0 && HasRecentUnproductive(db, t.key, now - minutes * MINUTE, id) then
        after.status == Skipped && Untouched(db.runs[id], after)
      else GraceEnd(cfg, db, now, id, t, after, number)
  }

  lemma {:induction false} Dedups(cfg: Config, db: Db, now: Time, number: nat, id: Id, t: Task)
    requires id in db.runs && t.env.raises == {} && t.pc == DedupGate
    ensures EndRow(cfg, db, now, number, id, t) == EndRow(cfg, db, now, number, id,
      t.(pc := if HasBlockingPr(db, t.key, id) then Skip else AfterDedup(cfg, db, t), window := Window(cfg, db)))
  {
    hide RunOut, Window, HasBlockingPr, AfterDedup;
    SameRow(db, id);
    RunOutUnfold(cfg, db, now, number, id, t);
  }

  lemma {:induction false} FromBackoff(cfg: Config, db: Db, now: Time, number: nat, id: Id, t: Task, minutes: int)
    requires id in db.runs && t.env.raises == {} && t.pc == BackoffGate && t.window == minutes * MINUTE
    ensures var end := EndRow(cfg, db, now, number, id, t);
      if HasRecentUnproductive(db, t.key, now - minutes * MINUTE, id) then end.status == Skipped && Untouched(db.runs[id], end)
      else GraceEnd(cfg, db, now, id, t, end, number)
  {
    hide RunOut, EndRow, HasRecentUnproductive, GraceEnd;
    var next := if HasRecentUnproductive(db, t.key, now - t.window, id) then Skip else GraceGate;
    assert Next(cfg, db, now, id, t) == next;
    hide Next;
    Looks(cfg, db, now, number, id, t, next);
    var rest := t.(pc := next);
    if next == Skip {
      LastStatus(cfg, db, now, number, id, rest, Skipped);
    } else {
      FromGrace(cfg, db, now, number, id, rest);
      SameGrace(cfg, db, now, id, t, rest, EndRow(cfg, db, now, number, id, rest), number);
    }
  }

  lemma {:induction false} SameGrace(cfg: Config, db: Db, now: Time, id: Id, t: Task, s: Task, after: Run, number: nat)
    requires id in db.runs && t.key == s.key && t.env == s.env
    ensures GraceEnd(cfg, db, now, id, t, after, number) <==> GraceEnd(cfg, db, now, id, s, after, number)
  {
  }

  /** From the first gate on. */
  predicate DedupEnd(cfg: Config, db: Db, now: Time, id: Id, t: Task, after: Run, number: nat)
    requires id in db.runs
  {
    if HasBlockingPr(db, t.key, id) then after.status == Skipped && Untouched(db.runs[id], after)
    else BackoffEnd(cfg, db, now, id, t, after, number)
  }

  lemma {:induction false} FromDedup(cfg: Config, db: Db, now: Time, number: nat, id: Id, t: Task)
    requires id in db.runs && t.env.raises == {} && t.pc == DedupGate
    ensures DedupEnd(cfg, db, now, id, t, EndRow(cfg, db, now, number, id, t), number)
  {
    hide RunOut, EndRow, HasBlockingPr, HasRecentUnproductive, GraceEnd, Backoff;
    Dedups(cfg, db, now, number, id, t);
    var next := if HasBlockingPr(db, t.key, id) then Skip else AfterDedup(cfg, db, t);
    var rest := t.(pc := next, window := Window(cfg, db));
    if HasBlockingPr(db, t.key, id) {
      LastStatus(cfg, db, now, number, id, rest, Skipped);
    } else if Backoff(cfg, db).None? {
      LastStatus(cfg, db, now, number, id, rest, Failed);
    } else if next == BackoffGate {
      FromBackoff(cfg, db, now, number, id, rest, Backoff(cfg, db).value);
      SameGrace(cfg, db, now, id, t, rest, EndRow(cfg, db, now, number, id, rest), number);
    } else {
      FromGrace(cfg, db, now, number, id, rest);
      SameGrace(cfg, db, now, id, t, rest, EndRow(cfg, db, now, number, id, rest), number);
    }
  }

  /** The whole run: filtered alerts are skipped; past a ceiling an enforced run is parked;
      an open pull request, a recent fruitless run and a recent merge skip it, in this
      order; an unreadable setting fails it; behind the gates it ends as `PipelineEnd` says. */
  predicate RunEnd(cfg: Config, db: Db, now: Time, id: Id, t: Task, after: Run, number: nat)
    requires id in db.runs
  {
    if t.env.filtered then after.status == Skipped && Untouched(db.runs[id], after)
    else if t.enforceBreaker && (CeilingReached(cfg, db, now) || t.env.overBudget) then
      after.status == Queued && Untouched(db.runs[id], after)
    else DedupEnd(cfg, db, now, id, t, after, number)
  }

  lemma {:induction false} Trips(cfg: Config, db: Db, now: Time, number: nat, id: Id, t: Task)
    requires id in db.runs && t.env.raises == {} && t.pc == TripMode
    ensures var end := RunOut(cfg, db, now, number, id, t);
      && id in end.runs && end.runs[id].status == Queued && Untouched(db.runs[id], end.runs[id])
      && "processing_mode" in end.settings && end.settings["processing_mode"] == "manual"
  {
    var manual := SetSetting(db, PROCESSING_MODE, "manual");
    RunOutUnfold(cfg, db, now, number, id, t);
    hide RunOut;
    var rest := t.(pc := TripQueue);
    Unroll(cfg, manual, now, number, id, rest, Ended);
    EndedIsOut(cfg, SetRow(manual, id, RowAfter(manual.runs[id], rest)), now, number, id, rest.(pc := Ended, pr := rest.pr));
  }

  lemma {:induction false} SameDedup(cfg: Config, db: Db, now: Time, id: Id, t: Task, s: Task, after: Run, number: nat)
    requires id in db.runs && t.key == s.key && t.env == s.env && t.enforceBackoff == s.enforceBackoff
    ensures DedupEnd(cfg, db, now, id, t, after, number) <==> DedupEnd(cfg, db, now, id, s, after, number)
  {
  }

  lemma {:induction false} FromBreaker(cfg: Config, db: Db, now: Time, number: nat, id: Id, t: Task)
    requires id in db.runs && t.env.raises == {} && t.pc == Breaker
    ensures var end := EndRow(cfg, db, now, number, id, t);
      if CeilingReached(cfg, db, now) || t.env.overBudget then end.status == Queued && Untouched(db.runs[id], end)
      else DedupEnd(cfg, db, now, id, t, end, number)
  {
    hide RunOut, CeilingReached, DedupEnd;
    var next := if CeilingReached(cfg, db, now) || t.env.overBudget then TripMode else DedupGate;
    assert Next(cfg, db, now, id, t) == next;
    hide Next;
    Looks(cfg, db, now, number, id, t, next);
    var rest := t.(pc := next);
    if next == TripMode {
      Trips(cfg, db, now, number, id, rest);
    } else {
      FromDedup(cfg, db, now, number, id, rest);
      SameDedup(cfg, db, now, id, t, rest, EndRow(cfg, db, now, number, id, rest), number);
    }
  }

  /** How a run ends when nothing comes between its sessions and none of them raises. */
  lemma {:induction false} RunEndsExactly(cfg: Config, db: Db, now: Time, number: nat, id: Id, t: Task)
    requires id in db.runs && t.env.raises == {} && t.pc == ReadSettings
    ensures RunEnd(cfg, db, now, id, t, EndRow(cfg, db, now, number, id, t), number)
  {
    hide RunOut, EndRow, CeilingReached, DedupEnd;
    var next := if t.env.filtered then Skip else if t.enforceBreaker then Breaker else DedupGate;
    assert Next(cfg, db, now, id, t) == next;
    hide Next;
    Looks(cfg, db, now, number, id, t, next);
    var rest := t.(pc := next);
    if t.env.filtered {
      LastStatus(cfg, db, now, number, id, rest, Skipped);
    } else if t.enforceBreaker {
      FromBreaker(cfg, db, now, number, id, rest);
      SameDedup(cfg, db, now, id, t, rest, EndRow(cfg, db, now, number, id, rest), number);
    } else {
      FromDedup(cfg, db, now, number, id, rest);
      SameDedup(cfg, db, now, id, t, rest, EndRow(cfg, db, now, number, id, rest), number);
    }
  }

  // ----- Sessions that raise

  /** A session that raises when its turn has come ends the run as failed, with its other
      columns as they are, unless it is the breaker, the opening or recording of the pull
      request, or the last write itself. */
  lemma {:induction false} RaisedFails(cfg: Config, db: Db, now: Time, number: nat, id: Id, t: Task)
    requires id in db.runs && t.pc in t.env.raises && Fail !in t.env.raises
    requires t.pc !in {Breaker, OpenPr, SavePr, Ended}
    ensures var end := EndRow(cfg, db, now, number, id, t); end.status == Failed && Untouched(db.runs[id], end)
  {
    hide RunOut;
    UnrollRaised(cfg, db, now, number, id, t);
    LastStatus(cfg, db, now, number, id, t.(pc := Fail), Failed);
  }

  /** A breaker that raises lets the run pass: it goes on at the first gate. */
  lemma {:induction false} RaisedBreakerPasses(cfg: Config, db: Db, now: Time, number: nat, id: Id, t: Task)
    requires t.pc == Breaker && Breaker in t.env.raises
    ensures RunOut(cfg, db, now, number, id, t) == RunOut(cfg, db, now, number, id, t.(pc := DedupGate))
  {
    hide RunOut;
    UnrollRaised(cfg, db, now, number, id, t);
  }

  /** A pull request that cannot be opened or recorded is a reason for none, and the run is
      done: after a recording that raised, GitHub has a pull request the row denies. */
  lemma {:induction false} RaisedPullRequestIsAReason(cfg: Config, db: Db, now: Time, number: nat, id: Id, t: Task)
    requires id in db.runs && (t.pc == OpenPr || t.pc == SavePr) && t.pc in t.env.raises
    requires SaveSkip !in t.env.raises && Notify !in t.env.raises && Finish !in t.env.raises
    ensures var end := EndRow(cfg, db, now, number, id, t);
      end.status == Done && !end.prOpened && end.prNumber == None && end.prSkip.Some? && end.notified == t.env.notified
  {
    hide RunOut;
    UnrollRaised(cfg, db, now, number, id, t);
    FromSaveSkip(cfg, db, now, number, id, t.(pc := SaveSkip));
  }

  /** Where even the last write raises, the row is left as it is. */
  lemma {:induction false} RaisedLastWriteIsLost(cfg: Config, db: Db, now: Time, number: nat, id: Id, t: Task)
    requires t.pc == Fail && Fail in t.env.raises
    ensures RunOut(cfg, db, now, number, id, t) == db
  {
    hide RunOut;
    UnrollRaised(cfg, db, now, number, id, t);
    EndedIsOut(cfg, db, now, number, id, t.(pc := Ended));
  }
}
