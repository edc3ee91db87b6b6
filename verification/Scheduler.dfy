/**
 The scheduler's tick (src/lib/scheduler.ts) over the job files, as the application wires it
 (src/runtime/app-bootstrap.ts, src/lib/scheduler-management.ts). Clock readings are inputs, one
 for each pass that reads the clock.
 */
module Scheduler {
  import opened Prelude
  import opened Schedule
  import opened JobFiles

  function InitialNextRunAt(job: Job, now: int): Option<int> {
    var c := job.config;
    if job.runtime.nextRunAt.Some? then job.runtime.nextRunAt
    else if c.kind == At then c.at
    else if c.kind == Daily && c.time.Some? then Some(NextDailyRunAt(c.time.value, now))
    else if c.kind == Weekly && c.time.Some? && c.weekday.Some?
    then Some(NextWeeklyRunAt(c.weekday.value, c.time.value, now))
    else Some(c.createdAt.GetOr(now))
  }

  function Normalize(job: Job, now: int): Job {
    Job(job.config.(createdAt := Some(job.config.createdAt.GetOr(now)),
                    updatedAt := Some(job.config.updatedAt.GetOr(now))),
        job.runtime.(nextRunAt := InitialNextRunAt(job, now)))
  }

  function NormalizeAll(jobs: seq<Job>, now: int): seq<Job> {
    seq(|jobs|, i requires 0 <= i < |jobs| => Normalize(jobs[i], now))
  }

  predicate IsJobDue(job: Job, now: int) {
    job.config.enabled && job.runtime.nextRunAt.Some? && job.runtime.nextRunAt.value <= now
  }

  function DueJobs(jobs: seq<Job>, now: int): seq<Job> {
    if jobs == [] then []
    else if IsJobDue(jobs[0], now) then [jobs[0]] + DueJobs(jobs[1..], now)
    else DueJobs(jobs[1..], now)
  }

  /** How one execution ended: `ok` is false when it threw or was not delivered. */
  datatype Outcome = Outcome(finishedAt: int, ok: bool, summary: string)

  function NextAfterRun(c: Config, now: int): Option<int> {
    if c.kind == At then None
    else if c.kind == Daily && c.time.Some? then Some(NextDailyRunAt(c.time.value, now))
    else if c.kind == Weekly && c.time.Some? && c.weekday.Some?
    then Some(NextWeeklyRunAt(c.weekday.value, c.time.value, now))
    else Some(now + c.everySec.GetOr(0) * 1000)
  }

  function AdvanceJobAfterRun(job: Job, o: Outcome): Job {
    Job(job.config.(enabled := job.config.kind != At, updatedAt := Some(o.finishedAt)),
        Runtime(NextAfterRun(job.config, o.finishedAt),
                Some(o.finishedAt),
                Some(if o.ok then RunOk else RunError),
                if o.ok then None else Some(o.summary),
                if o.ok then Some(o.summary) else None))
  }

  function AdvanceById(jobs: seq<Job>, id: string, o: Outcome): seq<Job> {
    seq(|jobs|, i requires 0 <= i < |jobs| => if jobs[i].config.id == id then AdvanceJobAfterRun(jobs[i], o) else jobs[i])
  }

  /** The jobs after the first n due jobs have been executed. */
  function RunDue(jobs: seq<Job>, due: seq<Job>, outcome: int -> Outcome, n: int): (after: seq<Job>)
    requires 0 <= n <= |due|
    ensures |after| == |jobs|
  {
    if n == 0 then jobs else AdvanceById(RunDue(jobs, due, outcome, n - 1), due[n - 1].config.id, outcome(n - 1))
  }

  /** StatusOnly is the application: it loads normalized jobs and saves statuses. WholeJobs loads the job
      files and saves them with saveSchedulerJobs. */
  datatype Wiring = StatusOnly(builtIns: seq<Config>) | WholeJobs

  function Load(w: Wiring, files: Files, now: int): seq<Job> {
    match w
    case StatusOnly(builtIns) =>
      NormalizeAll(LoadJobs(files), now) + NormalizeAll(MergeStatuses(builtIns, files.statuses), now)
    case WholeJobs => LoadJobs(files)
  }

  function Persist(w: Wiring, files: Files, jobs: seq<Job>): Files {
    if w.WholeJobs? then SaveJobs(jobs) else files.(statuses := ProjectStatuses(jobs))
  }

  /** The clock readings of one tick and what its executions return. */
  datatype TickInput = TickInput(loadAt: int, normalizeAt: int, dueAt: int, outcome: int -> Outcome, endAt: int)

  ghost predicate Timely(input: TickInput) {
    && input.loadAt <= input.normalizeAt <= input.dueAt <= input.endAt
    && forall k :: input.dueAt <= input.outcome(k).finishedAt <= input.endAt
  }

  /** One execution: the job and the slot it was due for. */
  datatype Execution = Execution(id: string, slot: int)

  function Executions(due: seq<Job>): seq<Execution> {
    seq(|due|, k requires 0 <= k < |due| => Execution(due[k].config.id, due[k].runtime.nextRunAt.GetOr(0)))
  }

  function JobsOfTick(w: Wiring, files: Files, input: TickInput): seq<Job> {
    NormalizeAll(Load(w, files, input.loadAt), input.normalizeAt)
  }

  function DueInTick(w: Wiring, files: Files, input: TickInput): seq<Job> {
    DueJobs(JobsOfTick(w, files, input), input.dueAt)
  }

  function FilesAfterTick(w: Wiring, files: Files, input: TickInput): Files {
    var loaded, jobs, due := Load(w, files, input.loadAt), JobsOfTick(w, files, input), DueInTick(w, files, input);
    var normalized := if loaded != jobs then Persist(w, files, jobs) else files;
    if due == [] then normalized else Persist(w, normalized, RunDue(jobs, due, input.outcome, |due|))
  }

  class SchedulerService {
    const wiring: Wiring
    var running: bool
    var files: Files

    constructor (wiring: Wiring, files: Files)
      ensures this.wiring == wiring && this.files == files && !running
    {
      this.wiring, this.files, running := wiring, files, false;
    }

    method Tick(input: TickInput) returns (executed: seq<Execution>)
      modifies this
      ensures running == old(running)
      ensures old(running) ==> files == old(files) && executed == []
      ensures !old(running) ==> files == FilesAfterTick(wiring, old(files), input)
      ensures !old(running) ==> executed == Executions(DueInTick(wiring, old(files), input))
    {
      hide Load, NormalizeAll, DueJobs, AdvanceById, Persist;
      executed := [];
      if running { return; }
      running := true;
      var loaded := Load(wiring, files, input.loadAt);
      var jobs := NormalizeAll(loaded, input.normalizeAt);
      if loaded != jobs { files := Persist(wiring, files, jobs); }
      var due := DueJobs(jobs, input.dueAt);
      if |due| == 0 {
        running := false;
        return;
      }
      var mutated := jobs;
      for k := 0 to |due|
        invariant mutated == RunDue(jobs, due, input.outcome, k)
        invariant executed == Executions(due[..k])
        invariant running && files == old(if loaded != jobs then Persist(wiring, files, jobs) else files)
      {
        executed := executed + [Execution(due[k].config.id, due[k].runtime.nextRunAt.GetOr(0))];
        mutated := AdvanceById(mutated, due[k].config.id, input.outcome(k));
        assert due[..k + 1] == due[..k] + [due[k]];
      }
      assert due[..|due|] == due;
      files := Persist(wiring, files, mutated);
      running := false;
    }
  }
}
