/** The life of a dispatch job (`dispatch/jobs.py`, `dispatch/reconcile.py`, `dispatch/abort.py`).

    Every SQL statement is one atomic step; the worker that finishes, the human who aborts and the
    daemon that boots interleave theirs in any order. */
module Jobs {
  import opened Prelude
  import Headless

  type JobId = nat
  type TaskId = nat
  type Path = nat

  datatype JobStatus = Running | Done | Failed | Killed | RateLimited | Interrupted
  datatype TaskStatus = Todo | InProgress | Finished | Shelved
  datatype Error = Observed(why: Headless.Why) | AbortedByHuman

  datatype Job = Job(task: TaskId, status: JobStatus, pid: Option<nat>, session: Option<nat>, log: Option<Path>,
                     figures: Headless.Figures, wall: Option<real>, error: Option<Error>, ended: Option<nat>)

  datatype Db = Db(jobs: map<JobId, Job>, tasks: map<TaskId, TaskStatus>)

  // --- the statements -------------------------------------------------------------------------------

  datatype Statement =
    | Insert(id: JobId, task: TaskId, session: nat, log: Option<Path>)
    | SetPid(id: JobId, pid: nat)
    | Finish(id: JobId, parsed: Headless.Parsed, wall: Option<real>, forced: Option<JobStatus>,
             reason: Option<Error>, at: nat)
    | Kill(id: JobId, at: nat)
    | Blame(id: JobId)         // the only write on a job that is not guarded by `status = 'running'`
    | Begin(task: TaskId)
    | Requeue(task: TaskId)
    | Close(task: TaskId)

  /** The status `record_finish` gives. */
  function FinalStatus(parsed: Headless.Parsed): JobStatus {
    if parsed.rateLimited then RateLimited
    else if parsed.interrupted then Interrupted
    else if parsed.ok then Done
    else Failed
  }

  function Settled(job: Job, st: Statement): Job
    requires st.Finish? || st.Kill?
  {
    match st
    case Finish(_, parsed, wall, forced, reason, at) =>
      job.(status := if forced.Some? then forced.value else FinalStatus(parsed),
           session := if parsed.figures.session.Some? then parsed.figures.session else job.session,
           figures := parsed.figures, wall := wall, error := reason, ended := Some(at))
    case Kill(_, at) => job.(status := Killed, ended := Some(at))
  }

  predicate IsRunning(db: Db, id: JobId) {
    id in db.jobs && db.jobs[id].status == Running
  }

  /** A statement that ends job `id`, if it is still running. */
  predicate Ends(st: Statement, id: JobId) {
    (st.Finish? || st.Kill?) && st.id == id
  }

  function Born(task: TaskId, session: nat, log: Option<Path>): Job {
    Job(task, Running, None, Some(session), log, Headless.NO_FIGURES, None, None, None)
  }

  function Exec(db: Db, st: Statement): Db {
    match st
    case Insert(id, task, session, log) =>
      if id in db.jobs then db
      else db.(jobs := db.jobs[id := Born(task, session, log)])
    case SetPid(id, pid) =>
      if IsRunning(db, id) then db.(jobs := db.jobs[id := db.jobs[id].(pid := Some(pid))]) else db
    case Finish(id, _, _, _, _, _) =>
      if IsRunning(db, id) then db.(jobs := db.jobs[id := Settled(db.jobs[id], st)]) else db
    case Kill(id, _) =>
      if IsRunning(db, id) then db.(jobs := db.jobs[id := Settled(db.jobs[id], st)]) else db
    case Blame(id) =>
      if id in db.jobs then db.(jobs := db.jobs[id := db.jobs[id].(error := Some(AbortedByHuman))]) else db
    case Begin(task) => if task in db.tasks then db.(tasks := db.tasks[task := InProgress]) else db
    case Requeue(task) => Moved(db, task, Todo)
    case Close(task) => Moved(db, task, Finished)
  }

  /** `UPDATE tasks SET status = … WHERE … AND status = 'in_progress'`. */
  function Moved(db: Db, task: TaskId, status: TaskStatus): Db {
    if task in db.tasks && db.tasks[task] == InProgress then db.(tasks := db.tasks[task := status]) else db
  }

  function Execs(db: Db, sts: seq<Statement>): Db
    decreases sts
  {
    if sts == [] then db else Execs(Exec(db, sts[0]), sts[1..])
  }

  lemma {:induction false} ExecsSplit(db: Db, a: seq<Statement>, b: seq<Statement>)
    ensures Execs(db, a + b) == Execs(Execs(db, a), b)
    decreases a
  {
    if a == [] {
      assert a + b == b;
    } else {
      assert (a + b)[0] == a[0] && (a + b)[1..] == a[1..] + b;
      ExecsSplit(Exec(db, a[0]), a[1..], b);
    }
  }

  lemma TwoStatements(db: Db, sts: seq<Statement>)
    requires |sts| == 2
    ensures Execs(db, sts) == Exec(Exec(db, sts[0]), sts[1])
  {
    assert sts[1..][1..] == [];
    assert Execs(Exec(db, sts[0]), sts[1..]) == Execs(Exec(Exec(db, sts[0]), sts[1..][0]), []);
  }

  // --- over any interleaving ------------------------------------------------------------------------

  /** FINAL. A job that is no longer running keeps its status, its figures, its wall time, its session
      and its end, whatever any sequence of statements does; only its `error` can still be rewritten. */
  lemma {:induction false} FinishedIsFinal(db: Db, sts: seq<Statement>, id: JobId)
    requires id in db.jobs && db.jobs[id].status != Running
    ensures id in Execs(db, sts).jobs
    ensures Execs(db, sts).jobs[id] == db.jobs[id].(error := Execs(db, sts).jobs[id].error)
    ensures Execs(db, sts).jobs[id].error != db.jobs[id].error ==> exists i :: 0 <= i < |sts| && sts[i] == Blame(id)
    decreases sts
  {
    if sts != [] {
      var next := Exec(db, sts[0]);
      assert next.jobs[id] == db.jobs[id].(error := next.jobs[id].error);
      FinishedIsFinal(next, sts[1..], id);
      if Execs(db, sts).jobs[id].error != next.jobs[id].error {
        var i :| 0 <= i < |sts[1..]| && sts[1..][i] == Blame(id);
        assert sts[i + 1] == Blame(id);
      }
    }
  }

  /** How often job `id` leaves `running`. */
  function Exits(db: Db, sts: seq<Statement>, id: JobId): nat
    decreases sts
  {
    if sts == [] then 0
    else (if IsRunning(db, id) && !IsRunning(Exec(db, sts[0]), id) then 1 else 0)
         + Exits(Exec(db, sts[0]), sts[1..], id)
  }

  lemma {:induction false} LeavesRunningAtMostOnce(db: Db, sts: seq<Statement>, id: JobId)
    ensures Exits(db, sts, id) <= 1
    ensures IsRunning(db, id) ==> (Exits(db, sts, id) == 1 <==> !IsRunning(Execs(db, sts), id))
    ensures id in db.jobs && !IsRunning(db, id) ==> Exits(db, sts, id) == 0
    decreases sts
  {
    if sts != [] {
      var next := Exec(db, sts[0]);
      LeavesRunningAtMostOnce(next, sts[1..], id);
      if id in next.jobs && !IsRunning(next, id) {
        FinishedIsFinal(next, sts[1..], id);
      }
    }
  }

  /** The statement that ended the job: the FIRST that tried to. */
  function FirstEnd(sts: seq<Statement>, id: JobId): (first: Option<Statement>)
    ensures first.Some? ==> Ends(first.value, id) && first.value in sts
  {
    if sts == [] then None else if Ends(sts[0], id) then Some(sts[0]) else FirstEnd(sts[1..], id)
  }

  /** FIRST VERDICT WINS: a running job ends exactly as the first statement to end it says -- the
      later ones, however they were interleaved, are lost. */
  lemma {:induction false} FirstVerdictWins(db: Db, sts: seq<Statement>, id: JobId)
    requires IsRunning(db, id)
    requires forall st :: st in sts && st.Finish? ==> st.forced != Some(Running)
    ensures id in Execs(db, sts).jobs
    ensures match FirstEnd(sts, id)
            case None => IsRunning(Execs(db, sts), id)
            case Some(st) =>
              Execs(db, sts).jobs[id].status == Settled(db.jobs[id], st).status
              && Execs(db, sts).jobs[id].ended == Settled(db.jobs[id], st).ended
              && Execs(db, sts).jobs[id].wall == Settled(db.jobs[id], st).wall
              && (st.Finish? ==> Execs(db, sts).jobs[id].figures == st.parsed.figures)
    decreases sts
  {
    if sts != [] {
      var next := Exec(db, sts[0]);
      assert sts[0] in sts && forall st :: st in sts[1..] ==> st in sts;
      if Ends(sts[0], id) {
        FinishedIsFinal(next, sts[1..], id);
      } else {
        FirstVerdictWins(next, sts[1..], id);
      }
    }
  }

  // --- reconciling one job -----------------------------------------------------------------------------

  type Logs = map<Path, Headless.Output>

  function LogOf(job: Job, logs: Logs): Option<Headless.Output> {
    if job.log.Some? && job.log.value in logs then Some(logs[job.log.value]) else None
  }

  function Verdict(job: Job, logs: Logs): Option<Result<Headless.Parsed, Headless.Escape>> {
    Headless.Terminal(LogOf(job, logs))
  }

  /** What `mark_job_orphan` answers once it has read the log. */
  function Answer(verdict: Option<Headless.Parsed>): JobStatus {
    if verdict.Some? then FinalStatus(verdict.value) else Killed
  }

  function SecondsOf(ms: Option<real>): Option<real> {
    match ms case None => None case Some(d) => Some(d / 1000.0)
  }

  function Why(p: Headless.Parsed): Option<Error> {
    if p.error.Some? then Some(Observed(p.error.value)) else None
  }

  /** The statements `mark_job_orphan` runs AFTER its `SELECT` and its reading of the log. */
  function Conclusion(id: JobId, task: TaskId, verdict: Option<Headless.Parsed>, at: nat): seq<Statement> {
    [match verdict
     case Some(p) => Finish(id, p, SecondsOf(p.figures.durationMs), None, Why(p), at)
     case None => Kill(id, at),
     Requeue(task)]
  }

  /** MARK, under interference. Between the `SELECT` and the guarded write, other statements run. What
      is answered is what is stored if and only if none of them ended the job first, or ended it with
      the very same status. */
  lemma AnswerIsExactUnlessOvertaken(db: Db, between: seq<Statement>, id: JobId, verdict: Option<Headless.Parsed>,
                                     at: nat)
    requires IsRunning(db, id)
    requires forall st :: st in between && st.Finish? ==> st.forced != Some(Running)
    ensures var after := Execs(Execs(db, between), Conclusion(id, db.jobs[id].task, verdict, at));
            id in after.jobs
            && (after.jobs[id].status == Answer(verdict) <==>
                  match FirstEnd(between, id)
                  case None => true
                  case Some(st) => Settled(db.jobs[id], st).status == Answer(verdict))
  {
    FirstVerdictWins(db, between, id);
    var mid := Execs(db, between);
    var c := Conclusion(id, db.jobs[id].task, verdict, at);
    TwoStatements(mid, c);
  }

  /** ABORT, under interference. A worker that succeeds between the `SELECT` and the guarded `killed`
      keeps its status and its figures; but the abort, told `killed`, writes "aborted by human" on
      that successful job, and its task goes back to be done: the success is paid for and replayed. */
  lemma AbortCanBlameASuccess(db: Db, id: JobId, p: Headless.Parsed, at: nat)
    requires IsRunning(db, id) && p.ok && Headless.Exclusive(p)
    requires db.jobs[id].task in db.tasks && db.tasks[db.jobs[id].task] == InProgress
    ensures var task := db.jobs[id].task;
            var race := [Finish(id, p, None, None, Why(p), at)] + Conclusion(id, task, None, at)
                        + [Blame(id), Close(task)];
            var after := Execs(db, race);
            id in after.jobs && after.jobs[id].status == Done && after.jobs[id].figures == p.figures
            && after.jobs[id].error == Some(AbortedByHuman)
            && task in after.tasks && after.tasks[task] == Todo
  {
    var task := db.jobs[id].task;
    var race := [Finish(id, p, None, None, Why(p), at), Kill(id, at), Requeue(task), Blame(id), Close(task)];
    assert [Finish(id, p, None, None, Why(p), at)] + Conclusion(id, task, None, at) + [Blame(id), Close(task)] == race;
    var d1 := Exec(db, race[0]);
    var d2 := Exec(d1, race[1]);
    var d3 := Exec(d2, race[2]);
    var d4 := Exec(d3, race[3]);
    assert d2 == d1 && d3.tasks[task] == Todo && d4.tasks[task] == Todo;
    FourStatements(db, race[..4]);
    ExecsSplit(db, race[..4], [race[4]]);
    assert race[..4] + [race[4]] == race && [race[4]][1..] == [];
  }

  lemma FourStatements(db: Db, sts: seq<Statement>)
    requires |sts| == 4
    ensures Execs(db, sts) == Exec(Exec(Exec(Exec(db, sts[0]), sts[1]), sts[2]), sts[3])
  {
    hide Exec;
    TwoStatements(db, sts[..2]);
    TwoStatements(Exec(Exec(db, sts[0]), sts[1]), sts[2..]);
    ExecsSplit(db, sts[..2], sts[2..]);
    assert sts[..2] + sts[2..] == sts;
  }

  // --- without interference ----------------------------------------------------------------------------------

  class JobStore {
    var db: Db

    constructor (initial: Db)
      ensures db == initial
    {
      db := initial;
    }

    method RecordStart(id: JobId, task: TaskId, session: nat, log: Option<Path>)
      requires id !in db.jobs
      modifies this
      ensures db == Exec(old(db), Insert(id, task, session, log))
    {
      var job := Job(task, Running, None, Some(session), log, Headless.NO_FIGURES, None, None, None);
      db := db.(jobs := db.jobs[id := job]);
    }

    method RecordPid(id: JobId, pid: nat)
      modifies this
      ensures db == Exec(old(db), SetPid(id, pid))
    {
      if id in db.jobs && db.jobs[id].status == Running {
        db := db.(jobs := db.jobs[id := db.jobs[id].(pid := Some(pid))]);
      }
    }

    method RecordFinish(id: JobId, parsed: Headless.Parsed, wall: Option<real>, forced: Option<JobStatus>,
                        reason: Option<Error>, at: nat)
      modifies this
      ensures db == Exec(old(db), Finish(id, parsed, wall, forced, reason, at))
      ensures IsRunning(old(db), id) && Headless.Exclusive(parsed) ==>
                id in db.jobs && EndedAs(parsed, forced, db.jobs[id].status)
    {
      if id in db.jobs && db.jobs[id].status == Running {
        var job := db.jobs[id];
        job := job.(status := if forced.Some? then forced.value else FinalStatus(parsed), error := reason);
        job := job.(figures := parsed.figures, wall := wall, ended := Some(at));
        if parsed.figures.session.Some? {
          job := job.(session := parsed.figures.session);
        }
        db := db.(jobs := db.jobs[id := job]);
      }
    }

    /** `mark_job_orphan`, alone on the base: an exception of the parser leaves everything untouched. */
    method MarkJobOrphan(id: JobId, logs: Logs, at: nat) returns (answer: Result<Option<JobStatus>, Headless.Escape>)
      modifies this
      ensures db == Marked(old(db), id, logs, at) && answer == MarkAnswer(old(db), id, logs)
      ensures answer.Ok? && answer.value.Some? ==>
                id in db.jobs && db.jobs[id].status == answer.value.value && !IsRunning(db, id)
                && Concluded(old(db).jobs[id], db.jobs[id], logs, at, false)
    {
      if id !in db.jobs || db.jobs[id].status != Running {
        return Ok(None);
      }
      MarkedMeans(db, id, logs, at);
      if Legible(db, id, logs) {
        MarkConcludes(db, id, logs, at);
      }
      hide Concluded, Spoke;
      var task := db.jobs[id].task;
      var verdict := Verdict(db.jobs[id], logs);
      match verdict {
        case Some(Err(escape)) => return Err(escape);
        case Some(Ok(parsed)) =>
          RecordFinish(id, parsed, SecondsOf(parsed.figures.durationMs), None, Why(parsed), at);
          answer := Ok(Some(FinalStatus(parsed)));
        case None =>
          db := Exec(db, Kill(id, at));
          answer := Ok(Some(Killed));
      }
      db := Moved(db, task, Todo);
    }

    /** `reconcile_orphans`: `listing` is the running jobs, in the order of the `SELECT`. */
    method ReconcileOrphans(listing: seq<JobId>, logs: Logs, alive: set<nat>, at: nat)
      returns (reaped: Result<seq<JobId>, Headless.Escape>)
      requires forall id :: id in listing <==> IsRunning(db, id)
      requires forall i, j :: 0 <= i < j < |listing| ==> listing[i] != listing[j]
      modifies this
      ensures db == Swept(old(db), listing, logs, alive, at)
      ensures reaped.Ok? <==> forall id :: id in listing && Dead(old(db), id, alive) ==> Legible(old(db), id, logs)
      ensures reaped.Ok? ==> reaped.value == DeadOnes(old(db), listing, alive)
    {
      hide Marked, Verdict, MarkAnswer, Exec;
      ghost var start := db;
      assert forall k :: 0 <= k < |listing| ==> listing[k] in listing;
      var ids: seq<JobId> := [];
      for i := 0 to |listing|
        invariant Swept(start, listing, logs, alive, at) == Swept(db, listing[i..], logs, alive, at)
        invariant DeadOnes(start, listing, alive) == ids + DeadOnes(start, listing[i..], alive)
        invariant forall k :: i <= k < |listing| ==>
                    listing[k] in db.jobs && db.jobs[listing[k]] == start.jobs[listing[k]]
        invariant forall k :: 0 <= k < i && Dead(start, listing[k], alive) ==> Legible(start, listing[k], logs)
      {
        var id := listing[i];
        assert listing[i..][0] == id && listing[i..][1..] == listing[i+1..] && id in listing;
        if db.jobs[id].pid.Some? && db.jobs[id].pid.value != 0 && db.jobs[id].pid.value in alive {
          continue;
        }
        ghost var before := db;
        MarkTouchesOnlyItsJob(db, id, logs, at);
        MarkRaisesOnlyWhenIllegible(db, id, logs, at);
        var answer := MarkJobOrphan(id, logs, at);
        if answer.Err? {
          return Err(answer.error);
        }
        ids := ids + [id];
      }
      reaped := Ok(ids);
    }

    /** Its loop body: marked, then blamed if nothing else ended it. */
    method AbortJob(id: JobId, logs: Logs, at: nat) returns (answer: Result<Option<JobStatus>, Headless.Escape>)
      requires IsRunning(db, id)
      modifies this
      ensures answer.Ok? <==> Legible(old(db), id, logs)
      ensures answer.Ok? ==> db == AbortOne(old(db), id, logs, at)
      ensures answer.Err? ==> db == old(db)
      ensures forall other :: other in old(db).jobs && other != id ==>
                other in db.jobs && db.jobs[other] == old(db).jobs[other]
    {
      hide Marked, Verdict, MarkAnswer, Exec;
      MarkRaisesOnlyWhenIllegible(db, id, logs, at);
      if Legible(db, id, logs) {
        AbortOneMeans(db, id, logs, at);
      }
      answer := MarkJobOrphan(id, logs, at);
      if answer == Ok(Some(Killed)) {
        db := Exec(db, Blame(id));
      }
    }

    /** `request_abort`, after the groups were killed: `listing` is the running jobs it found. A job
        that had finished keeps its verdict; only the others are blamed on the human. It raises exactly
        when one of the logs makes the parser raise, and stops there. */
    method RequestAbort(listing: seq<JobId>, logs: Logs, at: nat) returns (aborted: Result<nat, Headless.Escape>)
      requires Listing(db, listing)
      modifies this
      ensures db == AbortedAll(old(db), listing, logs, at)
      ensures aborted.Ok? <==> forall id :: id in listing ==> Legible(old(db), id, logs)
      ensures aborted.Ok? ==>
                aborted.value == |listing| && forall id :: id in listing ==> Aborted(old(db), db, id, logs)
      ensures forall id :: id in old(db).jobs && id !in listing ==>
                id in db.jobs && db.jobs[id] == old(db).jobs[id]
    {
      hide Legible, Aborted, AbortOne, Exec;
      ghost var start := db;
      AbortIsExact(db, listing, logs, at);
      assert forall k :: 0 <= k < |listing| ==> listing[k] in listing;
      for i := 0 to |listing|
        invariant AbortedAll(start, listing, logs, at) == AbortedAll(db, listing[i..], logs, at)
        invariant forall k :: 0 <= k < i ==> Legible(start, listing[k], logs)
        invariant forall k :: i <= k < |listing| ==>
                    listing[k] in start.jobs && listing[k] in db.jobs && db.jobs[listing[k]] == start.jobs[listing[k]]
      {
        var id := listing[i];
        assert listing[i..][0] == id && listing[i..][1..] == listing[i+1..] && id in listing;
        LegibleIsAboutTheJob(start, db, id, logs);
        var answer := AbortJob(id, logs, at);
        if answer.Err? {
          return Err(answer.error);
        }
      }
      aborted := Ok(|listing|);
    }
  }

  /** How an abort leaves job `id`, alone on the base. */
  ghost predicate Aborted(before: Db, after: Db, id: JobId, logs: Logs) {
    id in before.jobs && id in after.jobs
    && match Verdict(before.jobs[id], logs)
       case None => after.jobs[id].status == Killed && after.jobs[id].error == Some(AbortedByHuman)
       case Some(Err(_)) => false
       case Some(Ok(p)) => after.jobs[id].status == FinalStatus(p) && after.jobs[id].error == Why(p)
                           && after.jobs[id].figures == p.figures
  }

  lemma LegibleIsAboutTheJob(start: Db, now: Db, id: JobId, logs: Logs)
    requires id in start.jobs && id in now.jobs && start.jobs[id] == now.jobs[id]
    ensures Legible(start, id, logs) <==> Legible(now, id, logs)
  {
  }

  /** Marked, then blamed unless its log held a verdict. */
  function AbortOne(db: Db, id: JobId, logs: Logs, at: nat): Db {
    var marked := Marked(db, id, logs, at);
    if MarkAnswer(db, id, logs) == Ok(Some(Killed)) then Exec(marked, Blame(id)) else marked
  }

  /** The base after an abort: it stops at the first log that makes the parser raise. */
  function AbortedAll(db: Db, listing: seq<JobId>, logs: Logs, at: nat): Db
    decreases listing
  {
    if listing == [] then db
    else if !Legible(db, listing[0], logs) then db
    else AbortedAll(AbortOne(db, listing[0], logs, at), listing[1..], logs, at)
  }

  lemma AbortOneMeans(db: Db, id: JobId, logs: Logs, at: nat)
    requires IsRunning(db, id) && Legible(db, id, logs)
    ensures AbortOne(db, id, logs, at).tasks == Moved(db, db.jobs[id].task, Todo).tasks
    ensures forall other :: other in db.jobs && other != id ==>
              other in AbortOne(db, id, logs, at).jobs && AbortOne(db, id, logs, at).jobs[other] == db.jobs[other]
  {
    MarkedMeans(db, id, logs, at);
  }

  /** An abort that goes through puts back to be done every task one of its jobs was on, and no other. */
  lemma {:induction false} AbortRequeues(db: Db, listing: seq<JobId>, logs: Logs, at: nat, t: TaskId)
    requires Listing(db, listing) && t in db.tasks
    requires forall id :: id in listing ==> Legible(db, id, logs)
    ensures var after := AbortedAll(db, listing, logs, at);
            t in after.tasks
            && after.tasks[t] == if db.tasks[t] == InProgress && exists id :: id in listing && db.jobs[id].task == t
                                 then Todo else db.tasks[t]
    decreases listing
  {
    hide Verdict, AbortOne;
    if listing != [] {
      var head := listing[0];
      assert head in listing && forall id :: id in listing <==> id == head || id in listing[1..];
      var next := AbortOne(db, head, logs, at);
      AbortOneMeans(db, head, logs, at);
      ListingShrinks(db, next, listing);
      AbortRequeues(next, listing[1..], logs, at, t);
    }
  }

  /** HALF AN ABORT: once the groups are killed, one illegible log leaves its own job and every one listed
      after it `running`, untouched, with no process behind. */
  lemma {:induction false} AbortStopsAtAnIllegibleLog(db: Db, listing: seq<JobId>, logs: Logs, at: nat, i: nat, k: nat)
    requires Listing(db, listing) && i <= k < |listing| && !Legible(db, listing[i], logs)
    ensures var after := AbortedAll(db, listing, logs, at);
            IsRunning(after, listing[k]) && listing[k] in db.jobs && after.jobs[listing[k]] == db.jobs[listing[k]]
    decreases listing
  {
    hide Verdict, AbortOne;
    assert listing[k] in listing && listing[i] in listing;
    if Legible(db, listing[0], logs) {
      var next := AbortOne(db, listing[0], logs, at);
      assert listing[0] in listing;
      AbortOneMeans(db, listing[0], logs, at);
      ListingShrinks(db, next, listing);
      assert listing[1..][i - 1] == listing[i] && listing[1..][k - 1] == listing[k];
      AbortStopsAtAnIllegibleLog(next, listing[1..], logs, at, i - 1, k - 1);
    }
  }

  lemma AbortEndsItsJob(db: Db, id: JobId, logs: Logs, at: nat)
    requires IsRunning(db, id)
    ensures id in Marked(db, id, logs, at).jobs && id in Exec(Marked(db, id, logs, at), Blame(id)).jobs
    ensures var marked := Marked(db, id, logs, at);
            match MarkAnswer(db, id, logs)
            case Err(_) => true
            case Ok(None) => false
            case Ok(Some(Killed)) => Aborted(db, Exec(marked, Blame(id)), id, logs)
            case Ok(Some(_)) => Aborted(db, marked, id, logs)
  {
    MarkedMeans(db, id, logs, at);
  }

  lemma AbortedIsAboutOneJob(start: Db, next: Db, after: Db, id: JobId, logs: Logs)
    requires id in start.jobs && id in next.jobs && start.jobs[id] == next.jobs[id]
    ensures Aborted(start, after, id, logs) <==> Aborted(next, after, id, logs)
  {
  }

  lemma StaysAborted(start: Db, next: Db, after: Db, id: JobId, logs: Logs)
    requires Aborted(start, next, id, logs) && id in after.jobs && after.jobs[id] == next.jobs[id]
    ensures Aborted(start, after, id, logs)
  {
  }

  /** An abort whose logs are all legible ends every job listed; whatever the logs, it touches no other. */
  lemma {:induction false} AbortIsExact(db: Db, listing: seq<JobId>, logs: Logs, at: nat)
    requires Listing(db, listing)
    ensures var after := AbortedAll(db, listing, logs, at);
            ((forall id :: id in listing ==> Legible(db, id, logs)) ==>
               forall id :: id in listing ==> Aborted(db, after, id, logs))
            && (forall id :: id in db.jobs && id !in listing ==> id in after.jobs && after.jobs[id] == db.jobs[id])
    decreases listing
  {
    hide Verdict, AbortOne, Aborted;
    if listing != [] {
      var head := listing[0];
      assert head in listing && forall id :: id in listing <==> id == head || id in listing[1..];
      if Legible(db, head, logs) {
        var next := AbortOne(db, head, logs, at);
        AbortOneMeans(db, head, logs, at);
        AbortOneAborts(db, head, logs, at);
        ListingShrinks(db, next, listing);
        AbortIsExact(next, listing[1..], logs, at);
        var after := AbortedAll(db, listing, logs, at);
        assert head !in listing[1..];
        StaysAborted(db, next, after, head, logs);
        forall id | id in listing[1..] ensures Aborted(db, after, id, logs) <==> Aborted(next, after, id, logs) {
          AbortedIsAboutOneJob(db, next, after, id, logs);
        }
      }
    }
  }

  lemma AbortOneAborts(db: Db, id: JobId, logs: Logs, at: nat)
    requires IsRunning(db, id) && Legible(db, id, logs)
    ensures id in AbortOne(db, id, logs, at).jobs && Aborted(db, AbortOne(db, id, logs, at), id, logs)
  {
    AbortEndsItsJob(db, id, logs, at);
  }

  predicate Legible(db: Db, id: JobId, logs: Logs) {
    id in db.jobs && !(Verdict(db.jobs[id], logs).Some? && Verdict(db.jobs[id], logs).value.Err?)
  }

  function MarkAnswer(db: Db, id: JobId, logs: Logs): Result<Option<JobStatus>, Headless.Escape> {
    if !IsRunning(db, id) then Ok(None)
    else match Verdict(db.jobs[id], logs)
         case None => Ok(Some(Killed))
         case Some(Err(e)) => Err(e)
         case Some(Ok(p)) => Ok(Some(FinalStatus(p)))
  }

  function Marked(db: Db, id: JobId, logs: Logs, at: nat): Db {
    if !IsRunning(db, id) then db
    else match Verdict(db.jobs[id], logs)
         case None => Execs(db, Conclusion(id, db.jobs[id].task, None, at))
         case Some(Err(_)) => db
         case Some(Ok(p)) => Execs(db, Conclusion(id, db.jobs[id].task, Some(p), at))
  }

  lemma MarkedMeans(db: Db, id: JobId, logs: Logs, at: nat)
    requires IsRunning(db, id)
    ensures match Verdict(db.jobs[id], logs)
            case None => Marked(db, id, logs, at) == Moved(Exec(db, Kill(id, at)), db.jobs[id].task, Todo)
            case Some(Err(_)) => true
            case Some(Ok(p)) =>
              Marked(db, id, logs, at)
              == Moved(Exec(db, Finish(id, p, SecondsOf(p.figures.durationMs), None, Why(p), at)),
                       db.jobs[id].task, Todo)
  {
    forall verdict: Option<Headless.Parsed>
      ensures Execs(db, Conclusion(id, db.jobs[id].task, verdict, at))
           == Moved(Exec(db, Conclusion(id, db.jobs[id].task, verdict, at)[0]), db.jobs[id].task, Todo)
    {
      TwoStatements(db, Conclusion(id, db.jobs[id].task, verdict, at));
    }
  }

  lemma MarkRaisesOnlyWhenIllegible(db: Db, id: JobId, logs: Logs, at: nat)
    requires IsRunning(db, id)
    ensures MarkAnswer(db, id, logs).Err? <==> !Legible(db, id, logs)
    ensures !Legible(db, id, logs) ==> Marked(db, id, logs, at) == db
  {
  }

  lemma MarkTouchesOnlyItsJob(db: Db, id: JobId, logs: Logs, at: nat)
    requires IsRunning(db, id)
    ensures forall other :: other in db.jobs && other != id ==>
              other in Marked(db, id, logs, at).jobs && Marked(db, id, logs, at).jobs[other] == db.jobs[other]
  {
    MarkedMeans(db, id, logs, at);
  }

  /** No live worker behind this job. A pid of zero, or none, cannot be probed: it counts as dead. */
  predicate Dead(db: Db, id: JobId, alive: set<nat>) {
    id in db.jobs && !(db.jobs[id].pid.Some? && db.jobs[id].pid.value != 0 && db.jobs[id].pid.value in alive)
  }

  function DeadOnes(db: Db, listing: seq<JobId>, alive: set<nat>): seq<JobId> {
    if listing == [] then []
    else (if Dead(db, listing[0], alive) then [listing[0]] else []) + DeadOnes(db, listing[1..], alive)
  }

  /** The base after a sweep: it stops at the first log that makes the parser raise. */
  function Swept(db: Db, listing: seq<JobId>, logs: Logs, alive: set<nat>, at: nat): Db
    decreases listing
  {
    if listing == [] then db
    else if !Dead(db, listing[0], alive) then Swept(db, listing[1..], logs, alive, at)
    else if !Legible(db, listing[0], logs) then db
    else Swept(Marked(db, listing[0], logs, at), listing[1..], logs, alive, at)
  }

  // --- what a boot does -------------------------------------------------------------------------------------

  ghost predicate Listing(db: Db, listing: seq<JobId>) {
    && (forall id :: id in listing ==> IsRunning(db, id))
    && (forall i, j :: 0 <= i < j < |listing| ==> listing[i] != listing[j])
  }

  lemma ListingShrinks(db: Db, next: Db, listing: seq<JobId>)
    requires Listing(db, listing) && listing != []
    requires forall other :: other in db.jobs && other != listing[0] ==>
               other in next.jobs && next.jobs[other] == db.jobs[other]
    ensures Listing(next, listing[1..])
    ensures forall id :: id in listing[1..] ==>
              id != listing[0] && id in db.jobs && id in next.jobs && next.jobs[id] == db.jobs[id]
  {
    forall id | id in listing[1..] ensures id != listing[0] && id in listing {
      var k :| 0 <= k < |listing[1..]| && listing[1..][k] == id;
      assert listing[k + 1] == id;
    }
  }

  /** A boot whose logs are all legible reaps every dead job and touches no other. */
  lemma {:induction false} SweepIsExact(db: Db, listing: seq<JobId>, logs: Logs, alive: set<nat>, at: nat)
    requires Listing(db, listing)
    requires forall id :: id in listing && Dead(db, id, alive) ==> Legible(db, id, logs)
    ensures var after := Swept(db, listing, logs, alive, at);
            (forall id :: id in listing && Dead(db, id, alive) ==> id in after.jobs && !IsRunning(after, id))
            && (forall id :: id in db.jobs && !(id in listing && Dead(db, id, alive)) ==>
                  id in after.jobs && after.jobs[id] == db.jobs[id])
    decreases listing
  {
    hide Verdict, Exec;
    if listing != [] {
      var head := listing[0];
      assert head in listing && forall id :: id in listing[1..] ==> id in listing;
      assert forall id :: id in listing ==> id == head || id in listing[1..];
      if Dead(db, head, alive) {
        var next := Marked(db, head, logs, at);
        MarkTouchesOnlyItsJob(db, head, logs, at);
        MarkEndsItsJob(db, head, logs, at);
        ListingShrinks(db, next, listing);
        SweepIsExact(next, listing[1..], logs, alive, at);
      } else {
        ListingShrinks(db, db, listing);
        SweepIsExact(db, listing[1..], logs, alive, at);
      }
    }
  }

  lemma MarkEndsItsJob(db: Db, id: JobId, logs: Logs, at: nat)
    requires IsRunning(db, id) && Legible(db, id, logs)
    ensures id in Marked(db, id, logs, at).jobs && !IsRunning(Marked(db, id, logs, at), id)
  {
    MarkedMeans(db, id, logs, at);
  }

  /** IDEMPOTENT: a second boot, with the same workers alive, has nothing left to reap. */
  lemma SecondSweepIsEmpty(db: Db, listing: seq<JobId>, again: seq<JobId>, logs: Logs, alive: set<nat>, at: nat)
    requires Listing(db, listing) && forall id :: IsRunning(db, id) ==> id in listing
    requires forall id :: id in listing && Dead(db, id, alive) ==> Legible(db, id, logs)
    requires forall id :: id in again ==> IsRunning(Swept(db, listing, logs, alive, at), id)
    ensures DeadOnes(Swept(db, listing, logs, alive, at), again, alive) == []
  {
    SweepIsExact(db, listing, logs, alive, at);
    SweptKeepsTheIds(db, listing, logs, alive, at);
    var after := Swept(db, listing, logs, alive, at);
    forall id | id in again ensures !Dead(after, id, alive) {
      assert id in db.jobs;
    }
    NoDeadOnes(after, again, alive);
  }

  lemma {:induction false} SweptKeepsTheIds(db: Db, listing: seq<JobId>, logs: Logs, alive: set<nat>, at: nat)
    ensures Swept(db, listing, logs, alive, at).jobs.Keys == db.jobs.Keys
    decreases listing
  {
    if listing != [] && Dead(db, listing[0], alive) && Legible(db, listing[0], logs) {
      if IsRunning(db, listing[0]) {
        MarkedMeans(db, listing[0], logs, at);
      }
      SweptKeepsTheIds(Marked(db, listing[0], logs, at), listing[1..], logs, alive, at);
    } else if listing != [] && !Dead(db, listing[0], alive) {
      SweptKeepsTheIds(db, listing[1..], logs, alive, at);
    }
  }

  /** REAPED: each listed job without a live worker, in the order of the listing, and no other. */
  lemma {:induction false} ReapedInOrder(db: Db, a: seq<JobId>, x: JobId, b: seq<JobId>, alive: set<nat>)
    ensures DeadOnes(db, a + [x] + b, alive)
         == DeadOnes(db, a, alive)
            + (if x in db.jobs && !(exists pid: nat :: db.jobs[x].pid == Some(pid) && pid != 0 && pid in alive) then [x]
               else [])
            + DeadOnes(db, b, alive)
    ensures DeadOnes(db, [], alive) == []
  {
    var all := a + [x] + b;
    if a == [] {
      assert all[0] == x && all[1..] == b;
    } else {
      assert all[0] == a[0] && all[1..] == a[1..] + [x] + b;
      ReapedInOrder(db, a[1..], x, b, alive);
    }
  }

  lemma {:induction false} NoDeadOnes(db: Db, listing: seq<JobId>, alive: set<nat>)
    requires forall id :: id in listing ==> !Dead(db, id, alive)
    ensures DeadOnes(db, listing, alive) == []
  {
    if listing != [] {
      assert listing[0] in listing;
      NoDeadOnes(db, listing[1..], alive);
    }
  }

  /** POISON: a dead job whose log makes the parser raise is still running, unchanged, after the boot;
      so the next boot meets it again and raises again. */
  lemma {:induction false} PoisonedJobSurvives(db: Db, listing: seq<JobId>, logs: Logs, alive: set<nat>, at: nat,
                                               id: JobId)
    requires Listing(db, listing) && IsRunning(db, id) && !Legible(db, id, logs)
    ensures var after := Swept(db, listing, logs, alive, at);
            IsRunning(after, id) && after.jobs[id] == db.jobs[id] && !Legible(after, id, logs)
    decreases listing
  {
    if listing != [] && listing[0] in listing {
      if !Dead(db, listing[0], alive) {
        ListingShrinks(db, db, listing);
        PoisonedJobSurvives(db, listing[1..], logs, alive, at, id);
      } else if Legible(db, listing[0], logs) {
        MarkTouchesOnlyItsJob(db, listing[0], logs, at);
        ListingShrinks(db, Marked(db, listing[0], logs, at), listing);
        PoisonedJobSurvives(Marked(db, listing[0], logs, at), listing[1..], logs, alive, at, id);
      }
    }
  }

  // --- what each statement stores -------------------------------------------------------------------------

  /** `job` is in the base, and every other job, and the task table, are as before. */
  ghost predicate OnlyJob(before: Db, after: Db, id: JobId, job: Job) {
    after == Db(before.jobs[id := job], before.tasks)
  }

  /** A parse that says at most one thing ends a running job as `done`, `rate_limited` or `interrupted` when
      it says so, and as `failed` when it says none of them -- unless a status is forced. */
  ghost predicate EndedAs(p: Headless.Parsed, forced: Option<JobStatus>, status: JobStatus) {
    if forced.Some? then status == forced.value
    else
      (status == Done <==> p.ok) && (status == RateLimited <==> p.rateLimited)
      && (status == Interrupted <==> p.interrupted)
      && (status == Failed <==> !p.ok && !p.rateLimited && !p.interrupted)
  }

  /** FINISH. On a running job: the verdict, its figures, the reason and the end, and nothing else; on any
      other, nothing at all. */
  lemma FinishStoresTheVerdict(db: Db, id: JobId, p: Headless.Parsed, wall: Option<real>, forced: Option<JobStatus>,
                               reason: Option<Error>, at: nat)
    requires Headless.Exclusive(p)
    ensures var after := Exec(db, Finish(id, p, wall, forced, reason, at));
            if id in db.jobs && db.jobs[id].status == Running then
              id in after.jobs && EndedAs(p, forced, after.jobs[id].status)
              && OnlyJob(db, after, id,
                         Job(db.jobs[id].task, after.jobs[id].status, db.jobs[id].pid,
                             if p.figures.session.Some? then p.figures.session else db.jobs[id].session,
                             db.jobs[id].log, p.figures, wall, reason, Some(at)))
            else after == db
  {
  }

  /** The other statements on jobs: each is refused on a job that does not run, but the blame. */
  lemma OtherJobStatements(db: Db, id: JobId, task: TaskId, session: nat, log: Option<Path>, pid: nat, at: nat)
    ensures var after := Exec(db, Insert(id, task, session, log));
            if id in db.jobs then after == db
            else OnlyJob(db, after, id,
                         Job(task, Running, None, Some(session), log, Headless.NO_FIGURES, None, None, None))
    ensures var runs := id in db.jobs && db.jobs[id].status == Running;
            if runs then OnlyJob(db, Exec(db, SetPid(id, pid)), id, db.jobs[id].(pid := Some(pid)))
                         && OnlyJob(db, Exec(db, Kill(id, at)), id, db.jobs[id].(status := Killed, ended := Some(at)))
            else Exec(db, SetPid(id, pid)) == db && Exec(db, Kill(id, at)) == db
    ensures if id in db.jobs then OnlyJob(db, Exec(db, Blame(id)), id, db.jobs[id].(error := Some(AbortedByHuman)))
            else Exec(db, Blame(id)) == db
  {
  }

  /** The statements on tasks: only a task in progress is closed or put back to be done. */
  lemma TaskStatements(db: Db, t: TaskId)
    ensures Exec(db, Begin(t)) == if t in db.tasks then Db(db.jobs, db.tasks[t := InProgress]) else db
    ensures Exec(db, Requeue(t)) == if t in db.tasks && db.tasks[t] == InProgress then Db(db.jobs, db.tasks[t := Todo])
                                    else db
    ensures Exec(db, Close(t)) == if t in db.tasks && db.tasks[t] == InProgress
                                  then Db(db.jobs, db.tasks[t := Finished]) else db
  {
  }

  /** The log of the job is there and holds a result event. */
  ghost predicate Spoke(job: Job, logs: Logs) {
    job.log.Some? && job.log.value in logs && exists l :: l in logs[job.log.value].lines && Headless.IsEvent(l)
  }

  /** How a reconciliation, or an abort when `blamed`, leaves a job that was running: killed when its log holds
      no result event, else as the parser, told that the worker exited with 0, reads that log. */
  ghost predicate Concluded(before: Job, after: Job, logs: Logs, at: nat, blamed: bool) {
    after.ended == Some(at) && after.task == before.task && after.pid == before.pid && after.log == before.log
    && if !Spoke(before, logs) then
         after.status == Killed && after.figures == before.figures && after.wall == before.wall
         && after.session == before.session
         && after.error == if blamed then Some(AbortedByHuman) else before.error
       else
         var read := Headless.Parse(logs[before.log.value], 0);
         read.Ok? && EndedAs(read.value, None, after.status) && after.figures == read.value.figures
         && (match read.value.figures.durationMs
             case None => after.wall == None
             case Some(ms) => after.wall == Some(ms / 1000.0))
         && (match read.value.error
             case None => after.error == None
             case Some(why) => after.error == Some(Observed(why)))
         && after.session == if read.value.figures.session.Some? then read.value.figures.session else before.session
  }

  lemma VerdictIsOfTheLog(job: Job, logs: Logs)
    ensures Verdict(job, logs) == if Spoke(job, logs) then Some(Headless.Parse(logs[job.log.value], 0)) else None
  {
    hide Headless.Parse;
    assert forall l :: Headless.IsEvent(l) <==> Headless.IsResult(l);
  }

  /** ORPHAN. A dead job is concluded from its log, its task goes back to be done, and nothing else moves. */
  lemma MarkConcludes(db: Db, id: JobId, logs: Logs, at: nat)
    requires IsRunning(db, id) && Legible(db, id, logs)
    ensures var after := Marked(db, id, logs, at);
            id in after.jobs && Concluded(db.jobs[id], after.jobs[id], logs, at, false)
            && after == Db(db.jobs[id := after.jobs[id]],
                           var t := db.jobs[id].task;
                           if t in db.tasks && db.tasks[t] == InProgress then db.tasks[t := Todo] else db.tasks)
  {
    hide Headless.Parse;
    VerdictIsOfTheLog(db.jobs[id], logs);
    MarkedMeans(db, id, logs, at);
    if Spoke(db.jobs[id], logs) {
      ParsedIsExclusive(logs[db.jobs[id].log.value]);
    }
  }

  lemma ParsedIsExclusive(out: Headless.Output)
    ensures Headless.Parse(out, 0).Ok? ==> Headless.Exclusive(Headless.Parse(out, 0).value)
  {
    Headless.VerdictsAreExclusive(out, 0);
  }

  /** ABORT. The same, and the human is blamed exactly for the jobs whose log held no result event. */
  lemma AbortConcludes(db: Db, id: JobId, logs: Logs, at: nat)
    requires IsRunning(db, id) && Legible(db, id, logs)
    ensures var after := AbortOne(db, id, logs, at);
            id in after.jobs && Concluded(db.jobs[id], after.jobs[id], logs, at, true)
            && after.jobs == db.jobs[id := after.jobs[id]] && after.tasks == Marked(db, id, logs, at).tasks
  {
    hide Headless.Parse, Marked;
    VerdictIsOfTheLog(db.jobs[id], logs);
    MarkConcludes(db, id, logs, at);
    if Spoke(db.jobs[id], logs) {
      ParsedIsExclusive(logs[db.jobs[id].log.value]);
    }
  }

  /** A worker is behind the job if and only if its pid is known, is not zero, and is alive. */
  lemma DeadExactly(db: Db, id: JobId, alive: set<nat>)
    requires id in db.jobs
    ensures Dead(db, id, alive) <==> forall pid: nat :: pid != 0 && pid in alive ==> db.jobs[id].pid != Some(pid)
  {
    if !Dead(db, id, alive) {
      assert db.jobs[id].pid == Some(db.jobs[id].pid.value);
    }
  }

  /** RECONCILED. With legible logs, every dead job ends exactly as its log says. */
  lemma {:induction false} SweepConcludes(db: Db, listing: seq<JobId>, logs: Logs, alive: set<nat>, at: nat, id: JobId)
    requires Listing(db, listing) && id in listing && Dead(db, id, alive)
    requires forall x :: x in listing && Dead(db, x, alive) ==> Legible(db, x, logs)
    ensures var after := Swept(db, listing, logs, alive, at);
            id in after.jobs && Concluded(db.jobs[id], after.jobs[id], logs, at, false)
    decreases listing
  {
    hide Verdict, Marked, Concluded, Exec;
    var head := listing[0];
    assert head in listing && forall x :: x in listing ==> x == head || x in listing[1..];
    var next := if Dead(db, head, alive) then Marked(db, head, logs, at) else db;
    if Dead(db, head, alive) {
      MarkTouchesOnlyItsJob(db, head, logs, at);
      MarkEndsItsJob(db, head, logs, at);
    }
    ListingShrinks(db, next, listing);
    assert forall x :: x in listing[1..] ==> x in listing;
    if id == head {
      MarkConcludes(db, id, logs, at);
      assert head !in listing[1..];
      SweepIsExact(next, listing[1..], logs, alive, at);
    } else {
      SweepConcludes(next, listing[1..], logs, alive, at, id);
    }
  }

  /** ABORTED. With legible logs, every listed job ends exactly as its log says, or blamed on the human. */
  lemma {:induction false} AbortAllConcludes(db: Db, listing: seq<JobId>, logs: Logs, at: nat, id: JobId)
    requires Listing(db, listing) && id in listing
    requires forall x :: x in listing ==> Legible(db, x, logs)
    ensures var after := AbortedAll(db, listing, logs, at);
            id in after.jobs && Concluded(db.jobs[id], after.jobs[id], logs, at, true)
    decreases listing
  {
    hide Verdict, AbortOne, Concluded, Aborted;
    var head := listing[0];
    assert head in listing && forall x :: x in listing ==> x == head || x in listing[1..];
    var next := AbortOne(db, head, logs, at);
    AbortOneMeans(db, head, logs, at);
    ListingShrinks(db, next, listing);
    assert forall x :: x in listing[1..] ==> x in listing;
    if id == head {
      AbortConcludes(db, id, logs, at);
      assert head !in listing[1..];
      AbortIsExact(next, listing[1..], logs, at);
    } else {
      AbortAllConcludes(next, listing[1..], logs, at, id);
    }
  }
}
