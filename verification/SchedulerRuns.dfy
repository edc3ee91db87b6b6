/**
 What the scheduler keeps over runs of ticks. Ids are unique, and no tick is cut short.
 */
module SchedulerRuns {
  import opened Prelude
  import opened Schedule
  import opened JobFiles
  import opened Scheduler

  /** The configurations the application's ticks see. */
  function AllConfigs(builtIns: seq<Config>, files: Files): seq<Config> {
    CustomConfigs(files.configs) + builtIns
  }

  ghost predicate UniqueConfigIds(configs: seq<Config>) {
    forall i, j :: 0 <= i < j < |configs| ==> configs[i].id != configs[j].id
  }

  /** Jobs that have a further run after every run. */
  predicate Repeats(c: Config) {
    && c.kind != At
    && ((c.kind == Daily && c.time.Some?) || (c.kind == Weekly && c.time.Some? && c.weekday.Some?)
        || c.everySec.GetOr(0) > 0)
  }

  /** The stored next run of a job. */
  function Stored(files: Files, id: string): Option<int> {
    match StatusOf(files.statuses, id)
    case Some(r) => r.nextRunAt
    case None => None
  }

  /** The first daily or weekly slot after a moment. */
  ghost predicate IsNextDaily(time: TimeOfDay, now: int, t: int) {
    t > now && IsDailySlot(time, t) && forall u :: u > now && IsDailySlot(time, u) ==> t <= u
  }

  ghost predicate IsNextWeekly(weekday: Weekday, time: TimeOfDay, now: int, t: int) {
    t > now && IsWeeklySlot(weekday, time, t) && forall u :: u > now && IsWeeklySlot(weekday, time, u) ==> t <= u
  }

  /** When a job that ran until `ranAt` should run next. */
  ghost predicate NextRunIs(c: Config, ranAt: int, next: Option<int>) {
    if c.kind == At then next == None
    else if c.kind == Daily && c.time.Some? then
      next.Some? && (IsNextDaily(c.time.value, ranAt, next.value) || InTwoDigitYear(ranAt))
    else if c.kind == Weekly && c.time.Some? && c.weekday.Some? then
      next.Some? && (IsNextWeekly(c.weekday.value, c.time.value, ranAt, next.value) || InTwoDigitYear(ranAt))
    else next == Some(ranAt + 1000 * c.everySec.GetOr(0))
  }

  lemma {:induction false} DailyIsNext(time: TimeOfDay, now: int)
    requires !InTwoDigitYear(now)
    ensures IsNextDaily(time, now, NextDailyRunAt(time, now))
  {
    var isSlot := t => IsDailySlot(time, t);
    DailyIsFirstSlot(time, now);
    hide InTwoDigitYear, NextDailyRunAt, IsDailySlot;
    assert isSlot(NextDailyRunAt(time, now));
    forall u | u > now && IsDailySlot(time, u) ensures NextDailyRunAt(time, now) <= u { assert isSlot(u); }
  }

  lemma {:induction false} WeeklyIsNext(weekday: Weekday, time: TimeOfDay, now: int)
    requires !InTwoDigitYear(now)
    ensures IsNextWeekly(weekday, time, now, NextWeeklyRunAt(weekday, time, now))
  {
    var isSlot := t => IsWeeklySlot(weekday, time, t);
    WeeklyIsFirstSlot(weekday, time, now);
    hide InTwoDigitYear, NextWeeklyRunAt, IsWeeklySlot;
    assert isSlot(NextWeeklyRunAt(weekday, time, now));
    forall u | u > now && IsWeeklySlot(weekday, time, u) ensures NextWeeklyRunAt(weekday, time, now) <= u {
      assert isSlot(u);
    }
  }

  lemma {:induction false} NextAfterRunIs(c: Config, now: int)
    ensures NextRunIs(c, now, NextAfterRun(c, now))
  {
    if c.kind == Daily && c.time.Some? && !InTwoDigitYear(now) {
      DailyIsNext(c.time.value, now);
    } else if c.kind == Weekly && c.time.Some? && c.weekday.Some? && !InTwoDigitYear(now) {
      WeeklyIsNext(c.weekday.value, c.time.value, now);
    }
    hide IsNextDaily, IsNextWeekly, InTwoDigitYear, NextDailyRunAt, NextWeeklyRunAt;
  }

  /** What is kept about a job's last run: when it ended, how, and when the job runs next. */
  ghost predicate RecordsRun(c: Config, r: Runtime, o: Outcome) {
    && r.lastRunAt == Some(o.finishedAt)
    && (o.ok ==> r.lastStatus == Some(RunOk) && r.lastResult == Some(o.summary) && r.lastError == None)
    && (!o.ok ==> r.lastStatus == Some(RunError) && r.lastError == Some(o.summary) && r.lastResult == None)
    && NextRunIs(c, o.finishedAt, r.nextRunAt)
  }

  lemma {:induction false} AdvanceRecords(job: Job, o: Outcome)
    ensures RecordsRun(job.config, AdvanceJobAfterRun(job, o).runtime, o)
  {
    NextAfterRunIs(job.config, o.finishedAt);
    hide NextRunIs, NextAfterRun;
  }

  /** A job that has just run is not due at that moment, if and only if it repeats. */
  lemma {:induction false} AdvancedIsNotDue(c: Config, now: int)
    requires c.kind != At
    ensures NextAfterRun(c, now).Some?
    ensures Repeats(c) ==> NextAfterRun(c, now).value > now
    ensures c.everySec.GetOr(0) >= 0 && NextAfterRun(c, now).value > now ==> Repeats(c)
  {
    if c.kind == Daily && c.time.Some? {
      DailyIsFirstSlot(c.time.value, now);
    } else if c.kind == Weekly && c.time.Some? && c.weekday.Some? {
      WeeklyIsFirstSlot(c.weekday.value, c.time.value, now);
    }
  }

  lemma {:induction false} NormalizeTwice(jobs: seq<Job>, a: int, b: int)
    ensures NormalizeAll(NormalizeAll(jobs, a), b) == NormalizeAll(jobs, a)
  {
  }

  /** The application loads jobs that are normalized already, so a tick without due jobs saves nothing. */
  lemma {:induction false} IdleTickSavesNothing(builtIns: seq<Config>, files: Files, input: TickInput)
    ensures var w := StatusOnly(builtIns);
            && JobsOfTick(w, files, input) == Load(w, files, input.loadAt)
            && (DueInTick(w, files, input) == [] ==> FilesAfterTick(w, files, input) == files)
  {
    var w := StatusOnly(builtIns);
    NormalizeTwice(LoadJobs(files) + MergeStatuses(builtIns, files.statuses), input.loadAt, input.normalizeAt);
    assert Load(w, files, input.loadAt)
        == NormalizeAll(LoadJobs(files) + MergeStatuses(builtIns, files.statuses), input.loadAt);
  }

  /** The i-th job of a tick is its configuration with its stored status, normalized. */
  lemma {:induction false} JobOfTick(builtIns: seq<Config>, files: Files, input: TickInput)
    ensures var w, configs := StatusOnly(builtIns), AllConfigs(builtIns, files);
            && |JobsOfTick(w, files, input)| == |configs|
            && forall i :: 0 <= i < |configs| ==>
                 JobsOfTick(w, files, input)[i] == Normalize(WithStatus(configs[i], files.statuses), input.loadAt)
  {
    IdleTickSavesNothing(builtIns, files, input);
  }

  lemma {:induction false} DueAreJobs(jobs: seq<Job>, now: int)
    requires UniqueIds(jobs)
    ensures var due := DueJobs(jobs, now);
            && UniqueIds(due)
            && (forall k :: 0 <= k < |due| ==> due[k] in jobs && IsJobDue(due[k], now))
            && (forall i :: 0 <= i < |jobs| && IsJobDue(jobs[i], now) ==> jobs[i] in due)
    decreases |jobs|
  {
    if jobs != [] {
      var rest, due := jobs[1..], DueJobs(jobs[1..], now);
      forall i, j | 0 <= i < j < |rest| ensures rest[i].config.id != rest[j].config.id {
        assert rest[i] == jobs[i + 1] && rest[j] == jobs[j + 1];
      }
      DueAreJobs(rest, now);
      assert forall e :: e in jobs <==> e == jobs[0] || e in rest;
      forall k | 0 <= k < |due| ensures due[k].config.id != jobs[0].config.id {
        assert due[k] in rest;
        var j :| 0 <= j < |rest| && rest[j] == due[k];
        assert jobs[j + 1] == rest[j];
      }
    }
  }

  lemma {:induction false} AdvanceKeepsId(job: Job, o: Outcome)
    ensures AdvanceJobAfterRun(job, o).config.id == job.config.id
  {
  }

  /** One more due job advances the job with its id. */
  lemma {:induction false} RunDueStep(jobs: seq<Job>, due: seq<Job>, outcome: int -> Outcome, n: int, i: int)
    requires 0 < n <= |due| && 0 <= i < |jobs|
    ensures var before := RunDue(jobs, due, outcome, n - 1)[i];
            RunDue(jobs, due, outcome, n)[i]
            == if before.config.id == due[n - 1].config.id then AdvanceJobAfterRun(before, outcome(n - 1)) else before
  {
  }

  /** After the due jobs have run, each of them is advanced exactly once and the others are as before. */
  lemma {:induction false} RunDueOnce(jobs: seq<Job>, due: seq<Job>, outcome: int -> Outcome, n: int, i: int)
    requires UniqueIds(due) && 0 <= n <= |due| && 0 <= i < |jobs|
    ensures var after, id := RunDue(jobs, due, outcome, n)[i], jobs[i].config.id;
            && ((forall k :: 0 <= k < n ==> due[k].config.id != id) ==> after == jobs[i])
            && (forall k :: 0 <= k < n && due[k].config.id == id ==> after == AdvanceJobAfterRun(jobs[i], outcome(k)))
            && after.config.id == id
  {
    if n > 0 {
      RunDueStep(jobs, due, outcome, n, i);
      hide RunDue, AdvanceJobAfterRun;
      RunDueOnce(jobs, due, outcome, n - 1, i);
      AdvanceKeepsId(RunDue(jobs, due, outcome, n - 1)[i], outcome(n - 1));
    }
  }

  lemma {:induction false} RunDueIds(jobs: seq<Job>, due: seq<Job>, outcome: int -> Outcome)
    requires UniqueIds(jobs) && UniqueIds(due)
    ensures UniqueIds(RunDue(jobs, due, outcome, |due|))
  {
    forall i | 0 <= i < |jobs| ensures RunDue(jobs, due, outcome, |due|)[i].config.id == jobs[i].config.id {
      RunDueOnce(jobs, due, outcome, |due|, i);
    }
  }

  /** The k-th due job of a tick is the one with this id. */
  predicate IsRunOf(due: seq<Job>, k: int, id: string) {
    0 <= k < |due| && due[k].config.id == id
  }

  /** The part of one tick that concerns one configuration: whether and for which slot it runs, and the slot
      stored afterwards. */
  ghost predicate TickOfJob(c: Config, slot: Option<int>, due: seq<Job>, files: Files, after: Files, input: TickInput) {
    && after.configs == files.configs
    && (Stored(files, c.id).Some? ==> slot == Stored(files, c.id))
    && (forall k, l :: IsRunOf(due, k, c.id) && IsRunOf(due, l, c.id) ==> k == l)
    && (forall k :: IsRunOf(due, k, c.id) ==>
         && slot.Some? && slot.value <= input.dueAt
         && NextRunIs(c, input.outcome(k).finishedAt, Stored(after, c.id))
         && (Repeats(c) ==> Stored(after, c.id).Some? && Stored(after, c.id).value > input.outcome(k).finishedAt))
    && ((forall k :: !IsRunOf(due, k, c.id)) ==> after == files || (slot.Some? ==> Stored(after, c.id) == slot))
  }

  function SlotOf(c: Config, files: Files, input: TickInput): Option<int> {
    Normalize(WithStatus(c, files.statuses), input.loadAt).runtime.nextRunAt
  }

  predicate RunsIn(c: Config, files: Files, input: TickInput) {
    IsJobDue(Normalize(WithStatus(c, files.statuses), input.loadAt), input.dueAt)
  }

  lemma {:induction false} ExecutionsOfTick(builtIns: seq<Config>, files: Files, input: TickInput, i: int)
    requires var configs := AllConfigs(builtIns, files); UniqueConfigIds(configs) && 0 <= i < |configs|
    ensures var w, c := StatusOnly(builtIns), AllConfigs(builtIns, files)[i];
            var jobs, due := JobsOfTick(w, files, input), DueInTick(w, files, input);
            && UniqueIds(jobs) && UniqueIds(due) && |jobs| == |AllConfigs(builtIns, files)|
            && jobs[i] == Normalize(WithStatus(c, files.statuses), input.loadAt)
            && (forall k :: 0 <= k < |due| && due[k].config.id == c.id ==> RunsIn(c, files, input) && due[k] == jobs[i])
            && (RunsIn(c, files, input) ==> jobs[i] in due)
  {
    var w, c := StatusOnly(builtIns), AllConfigs(builtIns, files)[i];
    var jobs, due := JobsOfTick(w, files, input), DueInTick(w, files, input);
    JobOfTick(builtIns, files, input);
    assert UniqueIds(jobs);
    DueAreJobs(jobs, input.dueAt);
    forall k | 0 <= k < |due| && due[k].config.id == c.id ensures due[k] == jobs[i] {
      var j :| 0 <= j < |jobs| && jobs[j] == due[k];
      assert j == i;
    }
  }

  /** The run-time state of job i after the due jobs have run. */
  function RuntimeAfter(builtIns: seq<Config>, files: Files, input: TickInput, i: int): Runtime
    requires 0 <= i < |JobsOfTick(StatusOnly(builtIns), files, input)|
  {
    var jobs, due := JobsOfTick(StatusOnly(builtIns), files, input), DueInTick(StatusOnly(builtIns), files, input);
    RunDue(jobs, due, input.outcome, |due|)[i].runtime
  }

  lemma {:induction false} StatusAfterTick(builtIns: seq<Config>, files: Files, input: TickInput, i: int)
    requires var configs := AllConfigs(builtIns, files); UniqueConfigIds(configs) && 0 <= i < |configs|
    requires DueInTick(StatusOnly(builtIns), files, input) != []
    ensures |JobsOfTick(StatusOnly(builtIns), files, input)| == |AllConfigs(builtIns, files)|
    ensures var w, r := StatusOnly(builtIns), RuntimeAfter(builtIns, files, input, i);
            StatusOf(FilesAfterTick(w, files, input).statuses, AllConfigs(builtIns, files)[i].id)
            == if HasRuntimeState(r) then Some(r) else None
  {
    var w := StatusOnly(builtIns);
    var jobs, due := JobsOfTick(w, files, input), DueInTick(w, files, input);
    ExecutionsOfTick(builtIns, files, input, i);
    RunDueIds(jobs, due, input.outcome);
    RunDueOnce(jobs, due, input.outcome, |due|, i);
    StatusReadBack(RunDue(jobs, due, input.outcome, |due|), i);
  }

  /** The stored slot of a job that ran follows the end of its own run. */
  lemma {:induction false} SlotAfterRun(builtIns: seq<Config>, files: Files, input: TickInput, i: int, k: int)
    requires var configs := AllConfigs(builtIns, files); UniqueConfigIds(configs) && 0 <= i < |configs|
    requires IsRunOf(DueInTick(StatusOnly(builtIns), files, input), k, AllConfigs(builtIns, files)[i].id)
    ensures var c := AllConfigs(builtIns, files)[i];
            && RunsIn(c, files, input)
            && Stored(FilesAfterTick(StatusOnly(builtIns), files, input), c.id)
               == NextAfterRun(c, input.outcome(k).finishedAt)
  {
    ExecutionsOfTick(builtIns, files, input, i);
    StatusAfterTick(builtIns, files, input, i);
    RuntimeOfRun(builtIns, files, input, i, k);
    hide DueInTick, FilesAfterTick, JobsOfTick, RuntimeAfter;
  }

  /** A job that did not run in a tick that ran others keeps its slot. */
  lemma {:induction false} SlotAfterIdle(builtIns: seq<Config>, files: Files, input: TickInput, i: int)
    requires var configs := AllConfigs(builtIns, files); UniqueConfigIds(configs) && 0 <= i < |configs|
    requires DueInTick(StatusOnly(builtIns), files, input) != []
    requires !RunsIn(AllConfigs(builtIns, files)[i], files, input)
    requires SlotOf(AllConfigs(builtIns, files)[i], files, input).Some?
    ensures var c := AllConfigs(builtIns, files)[i];
            Stored(FilesAfterTick(StatusOnly(builtIns), files, input), c.id) == SlotOf(c, files, input)
  {
    ExecutionsOfTick(builtIns, files, input, i);
    StatusAfterTick(builtIns, files, input, i);
    RuntimeOfIdle(builtIns, files, input, i);
    hide DueInTick, FilesAfterTick, JobsOfTick, RuntimeAfter;
  }

  lemma {:induction false} RuntimeOfRun(builtIns: seq<Config>, files: Files, input: TickInput, i: int, k: int)
    requires var configs := AllConfigs(builtIns, files); UniqueConfigIds(configs) && 0 <= i < |configs|
    requires var w := StatusOnly(builtIns);
             var jobs, due := JobsOfTick(w, files, input), DueInTick(w, files, input);
             0 <= k < |due| && i < |jobs| && due[k] == jobs[i]
    ensures RuntimeAfter(builtIns, files, input, i)
            == AdvanceJobAfterRun(JobsOfTick(StatusOnly(builtIns), files, input)[i], input.outcome(k)).runtime
  {
    var w := StatusOnly(builtIns);
    ExecutionsOfTick(builtIns, files, input, i);
    RunDueOnce(JobsOfTick(w, files, input), DueInTick(w, files, input), input.outcome, |DueInTick(w, files, input)|, i);
  }

  lemma {:induction false} RuntimeOfIdle(builtIns: seq<Config>, files: Files, input: TickInput, i: int)
    requires var configs := AllConfigs(builtIns, files); UniqueConfigIds(configs) && 0 <= i < |configs|
    requires !RunsIn(AllConfigs(builtIns, files)[i], files, input)
    requires i < |JobsOfTick(StatusOnly(builtIns), files, input)|
    ensures RuntimeAfter(builtIns, files, input, i) == JobsOfTick(StatusOnly(builtIns), files, input)[i].runtime
  {
    var w := StatusOnly(builtIns);
    ExecutionsOfTick(builtIns, files, input, i);
    RunDueOnce(JobsOfTick(w, files, input), DueInTick(w, files, input), input.outcome, |DueInTick(w, files, input)|, i);
  }

  lemma {:induction false} ConfigsKept(builtIns: seq<Config>, files: Files, input: TickInput)
    ensures FilesAfterTick(StatusOnly(builtIns), files, input).configs == files.configs
  {
  }

  /** The job runs exactly when it is due, and once. */
  lemma {:induction false} RunsOnceIff(builtIns: seq<Config>, files: Files, input: TickInput, i: int)
    requires var configs := AllConfigs(builtIns, files); UniqueConfigIds(configs) && 0 <= i < |configs|
    ensures var c, due := AllConfigs(builtIns, files)[i], DueInTick(StatusOnly(builtIns), files, input);
            && (RunsIn(c, files, input) <==> exists k :: IsRunOf(due, k, c.id))
            && (forall k, l :: IsRunOf(due, k, c.id) && IsRunOf(due, l, c.id) ==> k == l)
  {
    var c, due := AllConfigs(builtIns, files)[i], DueInTick(StatusOnly(builtIns), files, input);
    ExecutionsOfTick(builtIns, files, input, i);
    var job := JobsOfTick(StatusOnly(builtIns), files, input)[i];
    assert job.config.id == c.id;
    hide DueInTick, JobsOfTick;
    if RunsIn(c, files, input) {
      var k :| 0 <= k < |due| && due[k] == job;
      assert IsRunOf(due, k, c.id);
    }
  }

  /** One tick of the application, seen from one job: it runs at most once, for its stored slot if it has one;
      the slot stored afterwards follows the end of its own run, later than that for a repeating job; a job
      that does not run keeps its slot. */
  lemma {:induction false} TickForJob(builtIns: seq<Config>, files: Files, input: TickInput, i: int)
    requires var configs := AllConfigs(builtIns, files); UniqueConfigIds(configs) && 0 <= i < |configs|
    ensures var w, c := StatusOnly(builtIns), AllConfigs(builtIns, files)[i];
            && TickOfJob(c, SlotOf(c, files, input), DueInTick(w, files, input), files,
                         FilesAfterTick(w, files, input), input)
            && (RunsIn(c, files, input) <==> exists k :: IsRunOf(DueInTick(w, files, input), k, c.id))
  {
    var w, c := StatusOnly(builtIns), AllConfigs(builtIns, files)[i];
    var due := DueInTick(w, files, input);
    IdleTickSavesNothing(builtIns, files, input);
    ConfigsKept(builtIns, files, input);
    RunsOnceIff(builtIns, files, input, i);
    hide DueInTick, FilesAfterTick, JobsOfTick, AllConfigs, NextRunIs, NextAfterRun, Repeats;
    forall k | IsRunOf(due, k, c.id)
      ensures Stored(FilesAfterTick(w, files, input), c.id) == NextAfterRun(c, input.outcome(k).finishedAt)
      ensures NextRunIs(c, input.outcome(k).finishedAt, NextAfterRun(c, input.outcome(k).finishedAt))
      ensures Repeats(c) ==> NextAfterRun(c, input.outcome(k).finishedAt).Some?
      ensures Repeats(c) ==> NextAfterRun(c, input.outcome(k).finishedAt).value > input.outcome(k).finishedAt
    {
      SlotAfterRun(builtIns, files, input, i, k);
      NextAfterRunIs(c, input.outcome(k).finishedAt);
      if Repeats(c) {
        AdvancedIsNotDue(c, input.outcome(k).finishedAt);
      }
    }
    if due != [] && !RunsIn(c, files, input) && SlotOf(c, files, input).Some? {
      SlotAfterIdle(builtIns, files, input, i);
    }
  }

  /** After a tick the status file tells, for every job that ran, when and how its run ended and when it runs next. */
  lemma {:induction false} RunIsRecorded(builtIns: seq<Config>, files: Files, input: TickInput, i: int, k: int)
    requires var configs := AllConfigs(builtIns, files); UniqueConfigIds(configs) && 0 <= i < |configs|
    requires IsRunOf(DueInTick(StatusOnly(builtIns), files, input), k, AllConfigs(builtIns, files)[i].id)
    ensures var c := AllConfigs(builtIns, files)[i];
            var saved := StatusOf(FilesAfterTick(StatusOnly(builtIns), files, input).statuses, c.id);
            saved.Some? && RecordsRun(c, saved.value, input.outcome(k))
  {
    ExecutionsOfTick(builtIns, files, input, i);
    StatusAfterTick(builtIns, files, input, i);
    RuntimeOfRun(builtIns, files, input, i, k);
    var job := JobsOfTick(StatusOnly(builtIns), files, input)[i];
    assert Repeats(job.config) <==> Repeats(AllConfigs(builtIns, files)[i]);
    AdvanceRecords(job, input.outcome(k));
    SameNextRun(AllConfigs(builtIns, files)[i], job.config, input.outcome(k).finishedAt,
                AdvanceJobAfterRun(job, input.outcome(k)).runtime.nextRunAt);
    hide DueInTick, FilesAfterTick, JobsOfTick, RuntimeAfter, NextRunIs, AdvanceJobAfterRun;
  }

  lemma {:induction false} SameNextRun(a: Config, b: Config, ranAt: int, next: Option<int>)
    requires a.kind == b.kind && a.time == b.time && a.weekday == b.weekday && a.everySec == b.everySec
    ensures NextRunIs(a, ranAt, next) <==> NextRunIs(b, ranAt, next)
  {
  }

  /** One tick executes a job at most once, and for exactly its slot. */
  lemma {:induction false} ExecutedInTick(builtIns: seq<Config>, files: Files, input: TickInput, i: int)
    requires var configs := AllConfigs(builtIns, files); UniqueConfigIds(configs) && 0 <= i < |configs|
    ensures var w, c := StatusOnly(builtIns), AllConfigs(builtIns, files)[i];
            var executed := Executions(DueInTick(w, files, input));
            && (forall k :: 0 <= k < |executed| && executed[k].id == c.id ==>
                  RunsIn(c, files, input) && Some(executed[k].slot) == SlotOf(c, files, input))
            && (RunsIn(c, files, input) ==> Execution(c.id, SlotOf(c, files, input).value) in executed)
            && (forall k, l :: 0 <= k < l < |executed| ==> executed[k].id != executed[l].id)
  {
    var w, c := StatusOnly(builtIns), AllConfigs(builtIns, files)[i];
    var due := DueInTick(w, files, input);
    ExecutionsOfTick(builtIns, files, input, i);
    if RunsIn(c, files, input) {
      var k :| 0 <= k < |due| && due[k] == JobsOfTick(w, files, input)[i];
      assert Executions(due)[k] == Execution(c.id, SlotOf(c, files, input).value);
    }
  }

  /* ---- runs ---- */

  function RunTicks(w: Wiring, files: Files, inputs: seq<TickInput>): (Files, seq<Execution>) {
    if inputs == [] then (files, [])
    else
      var (before, log) := RunTicks(w, files, inputs[..|inputs| - 1]);
      var input := inputs[|inputs| - 1];
      (FilesAfterTick(w, before, input), log + Executions(DueInTick(w, before, input)))
  }

  /** Every execution of a job is for a later slot than the ones before it, and the stored slot is later still. */
  ghost predicate SlotsRise(log: seq<Execution>, id: string, stored: Option<int>) {
    && (forall k, l :: 0 <= k < l < |log| && log[k].id == id && log[l].id == id ==> log[k].slot < log[l].slot)
    && (forall k :: 0 <= k < |log| && log[k].id == id ==> stored.Some? && log[k].slot < stored.value)
  }

  /** Over any run of the application's ticks, with statuses saved and loaded between them, a repeating job
      runs at most once for a slot, and its slots strictly increase. */
  lemma {:induction false} AtMostOncePerSlot(builtIns: seq<Config>, files: Files, inputs: seq<TickInput>, i: int)
    requires var configs := AllConfigs(builtIns, files); UniqueConfigIds(configs) && 0 <= i < |configs|
    requires Repeats(AllConfigs(builtIns, files)[i])
    requires forall n :: 0 <= n < |inputs| ==> Timely(inputs[n])
    ensures var (after, log) := RunTicks(StatusOnly(builtIns), files, inputs);
            var id := AllConfigs(builtIns, files)[i].id;
            after.configs == files.configs && SlotsRise(log, id, Stored(after, id))
    decreases |inputs|
  {
    if inputs != [] {
      var w, c := StatusOnly(builtIns), AllConfigs(builtIns, files)[i];
      var init, input := inputs[..|inputs| - 1], inputs[|inputs| - 1];
      AtMostOncePerSlot(builtIns, files, init, i);
      var (before, log) := RunTicks(w, files, init);
      assert AllConfigs(builtIns, before) == AllConfigs(builtIns, files);
      OneTickMore(builtIns, before, log, input, i);
    }
  }

  /** More executions, at most one of them of the job and for its stored slot. */
  lemma {:induction false} SlotsStillRise(log: seq<Execution>, more: seq<Execution>, id: string,
                                          before: Option<int>, after: Option<int>)
    requires SlotsRise(log, id, before)
    requires forall k, l :: 0 <= k < l < |more| ==> more[k].id != more[l].id
    requires forall k :: 0 <= k < |more| && more[k].id == id ==>
               (before.Some? ==> more[k].slot == before.value) && after.Some? && more[k].slot < after.value
    requires (forall k :: 0 <= k < |more| ==> more[k].id != id) && before.Some? ==> after == before
    ensures SlotsRise(log + more, id, after)
  {
  }

  /** One more tick executes a repeating job at most once, at a slot after all earlier ones. */
  lemma {:induction false} OneTickMore(builtIns: seq<Config>, before: Files, log: seq<Execution>, input: TickInput, i: int)
    requires var configs := AllConfigs(builtIns, before); UniqueConfigIds(configs) && 0 <= i < |configs|
    requires Repeats(AllConfigs(builtIns, before)[i]) && Timely(input)
    requires var id := AllConfigs(builtIns, before)[i].id; SlotsRise(log, id, Stored(before, id))
    ensures var w, id := StatusOnly(builtIns), AllConfigs(builtIns, before)[i].id;
            var after := FilesAfterTick(w, before, input);
            && after.configs == before.configs
            && SlotsRise(log + Executions(DueInTick(w, before, input)), id, Stored(after, id))
  {
    var c, due := AllConfigs(builtIns, before)[i], DueInTick(StatusOnly(builtIns), before, input);
    var after := FilesAfterTick(StatusOnly(builtIns), before, input);
    TickForJob(builtIns, before, input, i);
    ExecutedInTick(builtIns, before, input, i);
    assert forall k :: 0 <= k < |due| ==> (IsRunOf(due, k, c.id) <==> Executions(due)[k].id == c.id);
    assert |Executions(due)| == |due|;
    hide SlotsRise, DueInTick, FilesAfterTick, Executions, AllConfigs, Stored, RunsIn, SlotOf, NextAfterRun, Repeats;
    SlotsStillRise(log, Executions(due), c.id, Stored(before, c.id), Stored(after, c.id));
  }

  /* ---- jobs without a stored status ---- */

  /** A calendar slot of the job lies after `from` and no later than `to`. */
  ghost predicate HasSlotIn(c: Config, from: int, to: int) {
    || (c.kind == Daily && c.time.Some? && exists u :: from < u <= to && IsDailySlot(c.time.value, u))
    || (c.kind == Weekly && c.time.Some? && c.weekday.Some?
        && exists u :: from < u <= to && IsWeeklySlot(c.weekday.value, c.time.value, u))
  }

  predicate IsCalendarJob(c: Config) {
    (c.kind == Daily && c.time.Some?) || (c.kind == Weekly && c.time.Some? && c.weekday.Some?)
  }

  /** The next daily run is in a range if and only if a slot is. */
  lemma {:induction false} DailyInRange(time: TimeOfDay, from: int, to: int)
    requires !InTwoDigitYear(from)
    ensures NextDailyRunAt(time, from) <= to <==> exists u :: from < u <= to && IsDailySlot(time, u)
  {
    var isSlot, next := t => IsDailySlot(time, t), NextDailyRunAt(time, from);
    DailyIsFirstSlot(time, from);
    hide InTwoDigitYear, NextDailyRunAt, IsDailySlot;
    assert isSlot(next);
    if u :| from < u <= to && IsDailySlot(time, u) {
      assert isSlot(u);
    }
  }

  lemma {:induction false} WeeklyInRange(weekday: Weekday, time: TimeOfDay, from: int, to: int)
    requires !InTwoDigitYear(from)
    ensures NextWeeklyRunAt(weekday, time, from) <= to <==> exists u :: from < u <= to && IsWeeklySlot(weekday, time, u)
  {
    var isSlot, next := t => IsWeeklySlot(weekday, time, t), NextWeeklyRunAt(weekday, time, from);
    WeeklyIsFirstSlot(weekday, time, from);
    hide InTwoDigitYear, NextWeeklyRunAt, IsWeeklySlot;
    assert isSlot(next);
    if u :| from < u <= to && IsWeeklySlot(weekday, time, u) {
      assert isSlot(u);
    }
  }

  lemma {:induction false} FreshSlot(c: Config, files: Files, input: TickInput)
    requires IsCalendarJob(c) && c.enabled && StatusOf(files.statuses, c.id) == None
    ensures RunsIn(c, files, input) <==>
      (if c.kind == Daily then NextDailyRunAt(c.time.value, input.loadAt)
       else NextWeeklyRunAt(c.weekday.value, c.time.value, input.loadAt)) <= input.dueAt
  {
    hide NextDailyRunAt, NextWeeklyRunAt;
  }

  /** A daily or weekly job that was never saved runs in a tick if and only if a slot falls between the tick's
      load and its due check: its next run is computed anew in every tick. */
  lemma {:induction false} FreshJobRunsIff(c: Config, files: Files, input: TickInput)
    requires IsCalendarJob(c) && c.enabled && StatusOf(files.statuses, c.id) == None
    requires !InTwoDigitYear(input.loadAt)
    ensures RunsIn(c, files, input) <==> HasSlotIn(c, input.loadAt, input.dueAt)
  {
    var from, to := input.loadAt, input.dueAt;
    FreshSlot(c, files, input);
    hide RunsIn, NextDailyRunAt, NextWeeklyRunAt, IsDailySlot, IsWeeklySlot, InTwoDigitYear;
    if c.kind == Daily {
      DailyInRange(c.time.value, from, to);
    } else {
      WeeklyInRange(c.weekday.value, c.time.value, from, to);
    }
  }

  /** When an enabled job is due in a tick: at its stored next run, else as its configuration says. */
  ghost predicate ShouldRun(c: Config, stored: Option<int>, loadAt: int, dueAt: int) {
    && c.enabled
    && if stored.Some? then stored.value <= dueAt
       else if c.kind == At then c.at.Some? && c.at.value <= dueAt
       else if IsCalendarJob(c) then HasSlotIn(c, loadAt, dueAt)
       else c.createdAt.GetOr(loadAt) <= dueAt
  }

  /** Exactly when a job runs in a tick. */
  lemma {:induction false} RunsIff(c: Config, files: Files, input: TickInput)
    requires !InTwoDigitYear(input.loadAt)
    ensures RunsIn(c, files, input) <==> ShouldRun(c, Stored(files, c.id), input.loadAt, input.dueAt)
  {
    var from, to := input.loadAt, input.dueAt;
    hide NextDailyRunAt, NextWeeklyRunAt, IsDailySlot, IsWeeklySlot, InTwoDigitYear;
    if c.kind == Daily && c.time.Some? {
      DailyInRange(c.time.value, from, to);
    } else if c.kind == Weekly && c.time.Some? && c.weekday.Some? {
      WeeklyInRange(c.weekday.value, c.time.value, from, to);
    }
  }

  /** Every job is a calendar job without a slot between the tick's load and its due check. */
  ghost predicate NoSlotDuring(configs: seq<Config>, input: TickInput) {
    && !InTwoDigitYear(input.loadAt)
    && forall i :: 0 <= i < |configs| ==>
         IsCalendarJob(configs[i]) && !HasSlotIn(configs[i], input.loadAt, input.dueAt)
  }

  lemma {:induction false} FreshTick(builtIns: seq<Config>, files: Files, input: TickInput)
    requires files.statuses == [] && NoSlotDuring(AllConfigs(builtIns, files), input)
    ensures DueInTick(StatusOnly(builtIns), files, input) == []
    ensures FilesAfterTick(StatusOnly(builtIns), files, input) == files
  {
    var configs, jobs := AllConfigs(builtIns, files), JobsOfTick(StatusOnly(builtIns), files, input);
    IdleTickSavesNothing(builtIns, files, input);
    JobOfTick(builtIns, files, input);
    forall i | 0 <= i < |jobs| ensures !IsJobDue(jobs[i], input.dueAt) {
      if configs[i].enabled {
        FreshJobRunsIff(configs[i], files, input);
      }
    }
    NoneDue(jobs, input.dueAt);
  }

  /** So a scheduler whose calendar jobs have no status yet never runs them and never saves one, for as long
      as no slot falls between the load and the due check of a tick. */
  lemma {:induction false} FreshJobsStarve(builtIns: seq<Config>, files: Files, inputs: seq<TickInput>)
    requires files.statuses == []
    requires forall n :: 0 <= n < |inputs| ==> NoSlotDuring(AllConfigs(builtIns, files), inputs[n])
    ensures RunTicks(StatusOnly(builtIns), files, inputs) == (files, [])
    decreases |inputs|
  {
    if inputs != [] {
      var w, init, input := StatusOnly(builtIns), inputs[..|inputs| - 1], inputs[|inputs| - 1];
      assert NoSlotDuring(AllConfigs(builtIns, files), input);
      FreshTick(builtIns, files, input);
      FreshJobsStarve(builtIns, files, init);
      NothingExecuted(w, files, inputs);
    }
  }

  lemma {:induction false} NothingExecuted(w: Wiring, files: Files, inputs: seq<TickInput>)
    requires inputs != [] && RunTicks(w, files, inputs[..|inputs| - 1]) == (files, [])
    requires DueInTick(w, files, inputs[|inputs| - 1]) == [] && FilesAfterTick(w, files, inputs[|inputs| - 1]) == files
    ensures RunTicks(w, files, inputs) == (files, [])
  {
    var before, input := RunTicks(w, files, inputs[..|inputs| - 1]), inputs[|inputs| - 1];
    assert before.0 == files && before.1 == [];
    assert before.1 + Executions(DueInTick(w, files, input)) == [];
    assert RunTicks(w, files, inputs)
           == (FilesAfterTick(w, before.0, input), before.1 + Executions(DueInTick(w, before.0, input)));
  }

  lemma {:induction false} NoneDue(jobs: seq<Job>, now: int)
    requires forall i :: 0 <= i < |jobs| ==> !IsJobDue(jobs[i], now)
    ensures DueJobs(jobs, now) == []
    decreases |jobs|
  {
    if jobs != [] {
      NoneDue(jobs[1..], now);
    }
  }

  /* ---- one-shot jobs ---- */

  /** Under the application's wiring a one-shot job that has run is due again in every later tick: the status
      file does not say that it was disabled. */
  lemma {:induction false} OneShotRunsAgain(builtIns: seq<Config>, files: Files, first: TickInput, second: TickInput, i: int)
    requires var configs := AllConfigs(builtIns, files); UniqueConfigIds(configs) && 0 <= i < |configs|
    requires var c := AllConfigs(builtIns, files)[i];
             c.kind == At && RunsIn(c, files, first) && c.at.Some? && c.at.value <= second.dueAt
    ensures RunsIn(AllConfigs(builtIns, files)[i], FilesAfterTick(StatusOnly(builtIns), files, first), second)
  {
    TickForJob(builtIns, files, first, i);
  }

  /** With saveSchedulerJobs every job comes back from the files as it was saved. */
  lemma {:induction false} WholeJobsComeBack(jobs: seq<Job>, i: int)
    requires UniqueIds(jobs) && 0 <= i < |jobs|
    requires forall j :: 0 <= j < |jobs| ==> !IsBuiltInReview(jobs[j].config)
    ensures |LoadJobs(SaveJobs(jobs))| == |jobs| && LoadJobs(SaveJobs(jobs))[i].config == jobs[i].config
  {
    CustomKeepsAll(ProjectConfigs(jobs));
  }

  ghost predicate Disabled(jobs: seq<Job>, id: string) {
    forall j :: 0 <= j < |jobs| && jobs[j].config.id == id ==> !jobs[j].config.enabled
  }

  /** The loaded jobs of a run with saveSchedulerJobs: unique ids, no built-in reviews, and the one-shot kind
      of `id` does not change. */
  ghost predicate WholeOk(jobs: seq<Job>, id: string) {
    && UniqueIds(jobs)
    && forall j :: 0 <= j < |jobs| ==>
         !IsBuiltInReview(jobs[j].config) && (jobs[j].config.id == id ==> jobs[j].config.kind == At)
  }

  lemma {:induction false} WholeSaved(jobs: seq<Job>, id: string)
    requires WholeOk(jobs, id)
    ensures WholeOk(LoadJobs(SaveJobs(jobs)), id)
    ensures Disabled(jobs, id) ==> Disabled(LoadJobs(SaveJobs(jobs)), id)
  {
    forall i | 0 <= i < |jobs|
      ensures |LoadJobs(SaveJobs(jobs))| == |jobs| && LoadJobs(SaveJobs(jobs))[i].config == jobs[i].config
    {
      WholeJobsComeBack(jobs, i);
    }
    CustomKeepsAll(ProjectConfigs(jobs));
  }

  /** What running due jobs makes of all jobs. */
  ghost predicate RanFrom(jobs: seq<Job>, due: seq<Job>, ran: seq<Job>) {
    && |ran| == |jobs|
    && forall i :: 0 <= i < |jobs| ==>
         && ran[i].config.id == jobs[i].config.id && ran[i].config.kind == jobs[i].config.kind
         && ran[i].config.action == jobs[i].config.action
         && (ran[i] == jobs[i] || !ran[i].config.enabled || jobs[i].config.kind != At)
         && ((exists k :: 0 <= k < |due| && due[k].config.id == jobs[i].config.id) && jobs[i].config.kind == At
             ==> !ran[i].config.enabled)
  }

  lemma {:induction false} RanKeeps(jobs: seq<Job>, due: seq<Job>, ran: seq<Job>, id: string)
    requires WholeOk(jobs, id) && RanFrom(jobs, due, ran)
    requires forall k :: 0 <= k < |due| ==> due[k] in jobs && due[k].config.enabled
    ensures WholeOk(ran, id)
    ensures Disabled(jobs, id) ==> Disabled(ran, id) && forall k :: 0 <= k < |due| ==> due[k].config.id != id
    ensures (exists k :: 0 <= k < |due| && due[k].config.id == id) ==> Disabled(ran, id)
  {
    forall i, j | 0 <= i < j < |ran| ensures ran[i].config.id != ran[j].config.id {
      assert jobs[i].config.id != jobs[j].config.id;
    }
  }

  lemma {:induction false} AllRan(jobs: seq<Job>, due: seq<Job>, outcome: int -> Outcome)
    requires UniqueIds(due)
    ensures RanFrom(jobs, due, RunDue(jobs, due, outcome, |due|))
  {
    hide UniqueIds;
    forall i | 0 <= i < |jobs|
      ensures var ran := RunDue(jobs, due, outcome, |due|)[i];
              && ran.config.id == jobs[i].config.id && ran.config.kind == jobs[i].config.kind
              && ran.config.action == jobs[i].config.action
              && (ran == jobs[i] || !ran.config.enabled || jobs[i].config.kind != At)
              && ((exists k :: 0 <= k < |due| && due[k].config.id == jobs[i].config.id) && jobs[i].config.kind == At
                  ==> !ran.config.enabled)
    {
      RanOnce(jobs, due, outcome, i);
    }
  }

  /** The files after a tick that saves whole jobs. */
  lemma {:induction false} WholeAfter(files: Files, input: TickInput)
    ensures var jobs, due := JobsOfTick(WholeJobs, files, input), DueInTick(WholeJobs, files, input);
            FilesAfterTick(WholeJobs, files, input)
            == if due != [] then SaveJobs(RunDue(jobs, due, input.outcome, |due|))
               else if LoadJobs(files) != jobs then SaveJobs(jobs) else files
  {
    hide NormalizeAll, DueJobs, RunDue, LoadJobs, SaveJobs;
  }

  /** A tick that saves whole jobs and runs none of them only fills in missing times. */
  lemma {:induction false} WholeIdleTick(files: Files, input: TickInput, id: string, i: int)
    requires WholeOk(LoadJobs(files), id) && 0 <= i < |LoadJobs(files)| && DueInTick(WholeJobs, files, input) == []
    ensures |LoadJobs(FilesAfterTick(WholeJobs, files, input))| == |LoadJobs(files)|
    ensures var before, after := LoadJobs(files)[i].config, LoadJobs(FilesAfterTick(WholeJobs, files, input))[i].config;
            after == before.(createdAt := Some(before.createdAt.GetOr(input.normalizeAt)),
                             updatedAt := Some(before.updatedAt.GetOr(input.normalizeAt)))
  {
    var jobs := JobsOfTick(WholeJobs, files, input);
    WholeAfter(files, input);
    NormalizedOk(LoadJobs(files), input.normalizeAt, id);
    assert |jobs| == |LoadJobs(files)| && jobs[i] == Normalize(LoadJobs(files)[i], input.normalizeAt);
    WholeJobsComeBack(jobs, i);
    hide DueJobs, RunDue, LoadJobs, SaveJobs, FilesAfterTick, DueInTick;
  }

  /** The same when whole jobs are saved; an `at` job also comes back disabled, and nothing else of the
      configuration changes but the time of its update. */
  lemma {:induction false} WholeRunIsRecorded(files: Files, input: TickInput, id: string, i: int, k: int)
    requires WholeOk(LoadJobs(files), id) && 0 <= i < |LoadJobs(files)|
    requires IsRunOf(DueInTick(WholeJobs, files, input), k, LoadJobs(files)[i].config.id)
    ensures |LoadJobs(FilesAfterTick(WholeJobs, files, input))| == |LoadJobs(files)|
    ensures var before, after := LoadJobs(files)[i].config, LoadJobs(FilesAfterTick(WholeJobs, files, input))[i];
            && RecordsRun(before, after.runtime, input.outcome(k))
            && after.config == before.(enabled := before.kind != At,
                                       createdAt := Some(before.createdAt.GetOr(input.normalizeAt)),
                                       updatedAt := Some(input.outcome(k).finishedAt))
  {
    var jobs, due := JobsOfTick(WholeJobs, files, input), DueInTick(WholeJobs, files, input);
    var ran := RunDue(jobs, due, input.outcome, |due|);
    var before := LoadJobs(files)[i].config;
    WholeAfter(files, input);
    NormalizedOk(LoadJobs(files), input.normalizeAt, id);
    assert |jobs| == |LoadJobs(files)| && jobs[i] == Normalize(LoadJobs(files)[i], input.normalizeAt);
    DueAreJobs(jobs, input.dueAt);
    RunDueOnce(jobs, due, input.outcome, |due|, i);
    AdvanceRecords(jobs[i], input.outcome(k));
    SameNextRun(before, jobs[i].config, input.outcome(k).finishedAt, ran[i].runtime.nextRunAt);
    WholeComesBack(jobs, due, input.outcome, id, i);
    hide NormalizeAll, DueJobs, RunDue, LoadJobs, SaveJobs, WholeOk, FilesAfterTick, NextRunIs, NextAfterRun;
    hide JobsOfTick, DueInTick;
  }

  /** Jobs that ran are loaded as they were saved. */
  lemma {:induction false} WholeComesBack(jobs: seq<Job>, due: seq<Job>, outcome: int -> Outcome, id: string, i: int)
    requires WholeOk(jobs, id) && UniqueIds(due) && 0 <= i < |jobs|
    requires forall k :: 0 <= k < |due| ==> due[k] in jobs && due[k].config.enabled
    ensures var ran := RunDue(jobs, due, outcome, |due|);
            && |LoadJobs(SaveJobs(ran))| == |jobs| && LoadJobs(SaveJobs(ran))[i].config == ran[i].config
            && (HasRuntimeState(ran[i].runtime) ==> LoadJobs(SaveJobs(ran))[i] == ran[i])
  {
    var ran := RunDue(jobs, due, outcome, |due|);
    AllRan(jobs, due, outcome);
    RanKeeps(jobs, due, ran, id);
    WholeJobsComeBack(ran, i);
    StatusReadBack(ran, i);
    CustomKeepsAll(ProjectConfigs(ran));
    hide RunDue;
  }

  lemma {:induction false} NormalizedOk(jobs: seq<Job>, now: int, id: string)
    requires WholeOk(jobs, id)
    ensures WholeOk(NormalizeAll(jobs, now), id)
    ensures Disabled(jobs, id) ==> Disabled(NormalizeAll(jobs, now), id)
  {
  }

  lemma {:induction false} ExecutedIds(due: seq<Job>)
    requires UniqueIds(due)
    ensures |Executions(due)| == |due|
    ensures forall k :: 0 <= k < |due| ==> Executions(due)[k].id == due[k].config.id
    ensures forall k, l :: 0 <= k < l < |due| ==> Executions(due)[k].id != Executions(due)[l].id
  {
  }

  lemma {:induction false} WholeTick(files: Files, input: TickInput, id: string)
    requires WholeOk(LoadJobs(files), id)
    ensures var after, executed := FilesAfterTick(WholeJobs, files, input), Executions(DueInTick(WholeJobs, files, input));
            && WholeOk(LoadJobs(after), id)
            && (Disabled(LoadJobs(files), id) ==> Disabled(LoadJobs(after), id))
            && (Disabled(LoadJobs(files), id) ==> forall k :: 0 <= k < |executed| ==> executed[k].id != id)
            && ((exists k :: 0 <= k < |executed| && executed[k].id == id) ==> Disabled(LoadJobs(after), id))
            && (forall k, l :: 0 <= k < l < |executed| ==> executed[k].id != executed[l].id)
  {
    var jobs, due := JobsOfTick(WholeJobs, files, input), DueInTick(WholeJobs, files, input);
    var ran := RunDue(jobs, due, input.outcome, |due|);
    WholeAfter(files, input);
    NormalizedOk(LoadJobs(files), input.normalizeAt, id);
    assert UniqueIds(jobs);
    DueAreJobs(jobs, input.dueAt);
    AllRan(jobs, due, input.outcome);
    ExecutedIds(due);
    hide NormalizeAll, DueJobs, RunDue, LoadJobs, SaveJobs, WholeOk, Disabled, RanFrom;
    hide FilesAfterTick, Executions, UniqueIds;
    RanKeeps(jobs, due, ran, id);
    WholeSaved(jobs, id);
    WholeSaved(ran, id);
  }

  /** What running the due jobs does to one job: nothing, or for an `at` job that was due, disable it. */
  lemma {:induction false} RanOnce(jobs: seq<Job>, due: seq<Job>, outcome: int -> Outcome, i: int)
    requires UniqueIds(due) && 0 <= i < |jobs|
    ensures var ran := RunDue(jobs, due, outcome, |due|)[i];
            && ran.config.id == jobs[i].config.id && ran.config.kind == jobs[i].config.kind
            && ran.config.action == jobs[i].config.action
            && (ran == jobs[i] || !ran.config.enabled || jobs[i].config.kind != At)
            && ((exists k :: 0 <= k < |due| && due[k].config.id == jobs[i].config.id) && jobs[i].config.kind == At
                ==> !ran.config.enabled)
  {
    RunDueOnce(jobs, due, outcome, |due|, i);
  }

  /** When the whole jobs are saved, a one-shot job runs at most once in any run of ticks. */
  lemma {:induction false} OneShotRunsOnce(files: Files, inputs: seq<TickInput>, id: string)
    requires WholeOk(LoadJobs(files), id)
    ensures var (after, log) := RunTicks(WholeJobs, files, inputs);
            && WholeOk(LoadJobs(after), id)
            && (forall k, l :: 0 <= k < l < |log| && log[k].id == id ==> log[l].id != id)
            && ((exists k :: 0 <= k < |log| && log[k].id == id) ==> Disabled(LoadJobs(after), id))
    decreases |inputs|
  {
    if inputs != [] {
      var init, input := inputs[..|inputs| - 1], inputs[|inputs| - 1];
      OneShotRunsOnce(files, init, id);
      WholeTick(RunTicks(WholeJobs, files, init).0, input, id);
    }
  }
}
