/**
 One run's pipeline, cut at its commits: each block is one database session of
 `process_alert` together with the calls up to the next one.
 */
module Pipeline {
  import opened Results
  import opened Repository

  /** The next session the pipeline opens. */
  datatype Pc =
    | ReadSettings | Skip
    | Breaker | TripMode | TripQueue
    | DedupGate | BackoffGate | GraceGate
    | Triage | SaveTriage
    | Collect | SaveContext
    | Investigate | SaveInvestigation
    | Generate | SaveLlm
    | Post | OpenPr | SavePr | SaveSkip | SaveApplyError | ApplyFailed
    | Notify | Finish | Fail
    | Ended

  datatype TriageResult = NoTriage | TriageRaised | Triaged(skip: bool)
  datatype InvestigationResult = NoInvestigator | InvestigationRaised | Investigated
  datatype PostResult = NothingToPost(why: string) | DoesNotApply | OpenRaised | Opens

  /** What the world outside the database answers to this run: filters, model
      calls, GitHub, the notifier, and the sessions that raise. */
  datatype Env = Env(
    filtered: bool,
    overBudget: bool,
    patcher: bool,
    triage: TriageResult,
    collectRaises: bool,
    suspended: bool,
    investigation: InvestigationResult,
    generateRaises: bool,
    post: PostResult,
    notified: bool,
    raises: set<Pc>)

  datatype Task = Task(
    key: string,
    enforceBreaker: bool,
    enforceBackoff: bool,
    env: Env,
    pc: Pc,
    window: int,
    pr: nat)

  function NewTask(key: string, enforceBreaker: bool, env: Env): Task {
    Task(key, enforceBreaker, true, env, ReadSettings, 0, 0)
  }

  /** Where an exception in this session leads. The breaker swallows its own, a
      failed pull request is a reason to skip, and a failed `failed` is dropped. */
  function OnRaise(pc: Pc): Pc {
    match pc
    case Breaker => DedupGate
    case OpenPr => SaveSkip
    case SavePr => SaveSkip
    case Fail => Ended
    case Ended => Ended
    case _ => Fail
  }

  function AfterGates(env: Env): Pc {
    if !env.patcher then Skip else if env.triage.NoTriage? then Collect else Triage
  }

  function AfterDedup(cfg: Config, db: Db, t: Task): Pc {
    match Backoff(cfg, db)
    case None => Fail
    case Some(minutes) => if t.enforceBackoff && minutes > 0 then BackoffGate else GraceGate
  }

  function AfterGrace(cfg: Config, db: Db, now: Time, id: Id, t: Task): Pc {
    match Grace(cfg, db)
    case None => Fail
    case Some(minutes) =>
      if WithinGrace(db, t.key, id, now, minutes * MINUTE) then Skip else AfterGates(t.env)
  }

  function AfterOpenPr(post: PostResult): Pc {
    match post
    case Opens => SavePr
    case DoesNotApply => SaveApplyError
    case OpenRaised => SaveSkip
    case NothingToPost(_) => SaveSkip
  }

  /** Where the pipeline goes after the session at `t.pc`, when it does not raise. */
  function Next(cfg: Config, db: Db, now: Time, id: Id, t: Task): Pc {
    var env := t.env;
    match t.pc
    case ReadSettings => if env.filtered then Skip else if t.enforceBreaker then Breaker else DedupGate
    case Skip => Ended
    case Breaker => if CeilingReached(cfg, db, now) || env.overBudget then TripMode else DedupGate
    case TripMode => TripQueue
    case TripQueue => Ended
    case DedupGate => if HasBlockingPr(db, t.key, id) then Skip else AfterDedup(cfg, db, t)
    case BackoffGate => if HasRecentUnproductive(db, t.key, now - t.window, id) then Skip else GraceGate
    case GraceGate => AfterGrace(cfg, db, now, id, t)
    case Triage => if env.triage.Triaged? then SaveTriage else Collect
    case SaveTriage => if env.triage.Triaged? && env.triage.skip then Skip else Collect
    case Collect => if env.collectRaises then Fail else SaveContext
    case SaveContext =>
      if env.suspended then Skip else if env.investigation.NoInvestigator? then Generate else Investigate
    case Investigate => if env.investigation.Investigated? then SaveInvestigation else Generate
    case SaveInvestigation => Generate
    case Generate => if env.generateRaises then Fail else SaveLlm
    case SaveLlm => Post
    case Post => if env.post.NothingToPost? then SaveSkip else OpenPr
    case OpenPr => AfterOpenPr(env.post)
    case SavePr => Notify
    case SaveSkip => Notify
    case SaveApplyError => ApplyFailed
    case ApplyFailed => Ended
    case Notify => Finish
    case Finish => Ended
    case Fail => Ended
    case Ended => Ended
  }

  /** The status a session writes, if it writes one. */
  function StatusWritten(pc: Pc): Option<Status> {
    match pc
    case Skip => Some(Skipped)
    case TripQueue => Some(Queued)
    case Triage => Some(Triaging)
    case Collect => Some(Collecting)
    case Investigate => Some(Investigating)
    case Generate => Some(Generating)
    case Post => Some(Posting)
    case ApplyFailed => Some(Failed)
    case Finish => Some(Done)
    case Fail => Some(Failed)
    case _ => None
  }

  /** The message that goes with a status. */
  function Message(pc: Pc): Option<string> {
    match pc
    case Skip => Some("skipped")
    case TripQueue => Some("cost breaker")
    case ApplyFailed => Some("patch verification failed")
    case Fail => Some("processing failed")
    case _ => None
  }

  /** The columns other than the status that a session writes. */
  function Record(run: Run, t: Task): Run {
    match t.pc
    case SaveLlm => run.(llm := true)
    case SavePr => run.WithPr(Some(t.pr), None)
    case SaveSkip => run.WithPr(None, Some("no pull request"))
    case SaveApplyError => run.WithPr(None, Some("patch verification failed"))
    case Notify => run.(notified := t.env.notified)
    case _ => run
  }

  /** The run's row once the session at `t.pc` has committed. */
  function RowAfter(run: Run, t: Task): Run {
    match StatusWritten(t.pc)
    case Some(status) => run.WithStatus(status, Message(t.pc))
    case None => Record(run, t)
  }

  /** What the session at `t.pc` commits, when it does not raise. */
  function Commit(db: Db, id: Id, t: Task): Db {
    if t.pc == TripMode then SetSetting(db, PROCESSING_MODE, "manual")
    else if id in db.runs then SetRow(db, id, RowAfter(db.runs[id], t))
    else db
  }

  datatype After = After(db: Db, task: Task)

  function Window(cfg: Config, db: Db): int {
    match Backoff(cfg, db) case Some(minutes) => minutes * MINUTE case None => 0
  }

  /** One session of the pipeline of run `id`, begun at `now`. `number` is the
      number GitHub gives the next pull request. */
  function Block(cfg: Config, db: Db, now: Time, number: nat, id: Id, t: Task): After {
    if t.pc in t.env.raises then After(db, t.(pc := OnRaise(t.pc)))
    else
      After(Commit(db, id, t), t.(
        pc := Next(cfg, db, now, id, t),
        window := if t.pc == DedupGate then Window(cfg, db) else t.window,
        pr := if t.pc == OpenPr then number else t.pr))
  }

  /** Steps the pipeline has left, at most. */
  function Left(pc: Pc): nat {
    match pc
    case ReadSettings => 23
    case Breaker => 22
    case TripMode => 21
    case TripQueue => 20
    case DedupGate => 19
    case BackoffGate => 18
    case GraceGate => 17
    case Triage => 16
    case SaveTriage => 15
    case Collect => 14
    case SaveContext => 13
    case Investigate => 12
    case SaveInvestigation => 11
    case Generate => 10
    case SaveLlm => 9
    case Post => 8
    case OpenPr => 7
    case SavePr => 6
    case SaveSkip => 5
    case Notify => 4
    case Finish => 3
    case SaveApplyError => 3
    case ApplyFailed => 2
    case Skip => 2
    case Fail => 1
    case Ended => 0
  }

  /** The session at `next` can follow the one at `pc` when that one does not raise. */
  predicate Follows(pc: Pc, next: Pc) {
    match pc
    case ReadSettings => next.Skip? || next.Breaker? || next.DedupGate?
    case Breaker => next.TripMode? || next.DedupGate?
    case TripMode => next.TripQueue?
    case DedupGate => next.Skip? || next.BackoffGate? || next.GraceGate? || next.Fail?
    case BackoffGate => next.Skip? || next.GraceGate?
    case GraceGate => next.Skip? || next.Triage? || next.Collect? || next.Fail?
    case Triage => next.SaveTriage? || next.Collect?
    case SaveTriage => next.Skip? || next.Collect?
    case Collect => next.SaveContext? || next.Fail?
    case SaveContext => next.Skip? || next.Investigate? || next.Generate?
    case Investigate => next.SaveInvestigation? || next.Generate?
    case SaveInvestigation => next.Generate?
    case Generate => next.SaveLlm? || next.Fail?
    case SaveLlm => next.Post?
    case Post => next.OpenPr? || next.SaveSkip?
    case OpenPr => next.SavePr? || next.SaveSkip? || next.SaveApplyError?
    case SavePr => next.Notify?
    case SaveSkip => next.Notify?
    case SaveApplyError => next.ApplyFailed?
    case Notify => next.Finish?
    case _ => next.Ended?
  }

  lemma {:induction false} NextIsSuccessor(cfg: Config, db: Db, now: Time, id: Id, t: Task)
    ensures Follows(t.pc, Next(cfg, db, now, id, t))
    ensures t.pc == ReadSettings && Next(cfg, db, now, id, t) == Breaker ==> t.enforceBreaker
  {
    hide HasBlockingPr, HasRecentUnproductive, WithinGrace, CeilingReached, Backoff, Grace, Window;
  }

  lemma {:induction false} SuccessorsAreLower(pc: Pc)
    requires pc != Ended
    ensures Left(OnRaise(pc)) < Left(pc)
    ensures forall next | Follows(pc, next) :: Left(next) < Left(pc)
  {
  }

  /** Every block brings the pipeline closer to its end, whatever happens outside. */
  lemma {:induction false} BlocksEnd(cfg: Config, db: Db, now: Time, number: nat, id: Id, t: Task)
    requires t.pc != Ended
    ensures Left(Block(cfg, db, now, number, id, t).task.pc) < Left(t.pc)
  {
    hide Next, Commit, Window, Left, Follows, OnRaise;
    NextIsSuccessor(cfg, db, now, id, t);
    SuccessorsAreLower(t.pc);
  }

  /** `after` differs from `before` at most in row `id` and in the processing mode. */
  ghost predicate OnlyRow(before: Db, after: Db, id: Id) {
    && after.runs.Keys == before.runs.Keys
    && (forall j | j in before.runs && j != id :: after.runs[j] == before.runs[j])
    && (forall k | k in after.settings && k != PROCESSING_MODE ::
      k in before.settings && after.settings[k] == before.settings[k])
    && (forall k | k in before.settings :: k in after.settings)
  }

  /** A block touches no row but its own, and no setting but the processing mode. */
  lemma {:induction false} BlockIsLocal(cfg: Config, db: Db, now: Time, number: nat, id: Id, t: Task)
    ensures OnlyRow(db, Block(cfg, db, now, number, id, t).db, id)
  {
    hide Next, Window, RowAfter;
  }
}
