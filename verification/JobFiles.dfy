/**
 Scheduler jobs and the two files they are kept in: configurations and run-time statuses
 (src/lib/system-workspace.ts). A file is the list it holds; JSON and schema parsing are left out.
 */
module JobFiles {
  import opened Prelude
  import opened Schedule

  datatype Kind = At | Every | Daily | Weekly

  datatype Config = Config(
    id: string,
    enabled: bool,
    channelId: string,
    prompt: string,
    kind: Kind,
    at: Option<int>,
    everySec: Option<int>,
    time: Option<TimeOfDay>,
    weekday: Option<Weekday>,
    action: Option<string>,
    createdAt: Option<int>,
    updatedAt: Option<int>)

  datatype RunStatus = RunOk | RunError

  datatype Runtime = Runtime(
    nextRunAt: Option<int>,
    lastRunAt: Option<int>,
    lastStatus: Option<RunStatus>,
    lastError: Option<string>,
    lastResult: Option<string>)

  const NO_RUNTIME := Runtime(None, None, None, None, None)

  /** A SchedulerJob: the fields of its configuration and of its run-time state. */
  datatype Job = Job(config: Config, runtime: Runtime)

  datatype Status = Status(id: string, runtime: Runtime)

  predicate NonEmpty(text: Option<string>) { text.Some? && text.value != "" }

  predicate HasRuntimeState(r: Runtime) {
    r.nextRunAt.Some? || r.lastRunAt.Some? || r.lastStatus.Some? || NonEmpty(r.lastError) || NonEmpty(r.lastResult)
  }

  predicate IsBuiltInReview(c: Config) { NonEmpty(c.action) }

  /** `new Map(statuses.map(...)).get(id)`: the last status with the id. */
  function StatusOf(statuses: seq<Status>, id: string): Option<Runtime> {
    if statuses == [] then None
    else if statuses[|statuses| - 1].id == id then Some(statuses[|statuses| - 1].runtime)
    else StatusOf(statuses[..|statuses| - 1], id)
  }

  function WithStatus(c: Config, statuses: seq<Status>): Job {
    Job(c, StatusOf(statuses, c.id).GetOr(NO_RUNTIME))
  }

  /** mergeSchedulerJobConfigsWithStatuses. */
  function MergeStatuses(configs: seq<Config>, statuses: seq<Status>): seq<Job> {
    seq(|configs|, i requires 0 <= i < |configs| => WithStatus(configs[i], statuses))
  }

  function ProjectConfigs(jobs: seq<Job>): seq<Config> {
    seq(|jobs|, i requires 0 <= i < |jobs| => jobs[i].config)
  }

  function ProjectStatuses(jobs: seq<Job>): seq<Status> {
    if jobs == [] then []
    else if HasRuntimeState(jobs[0].runtime)
    then [Status(jobs[0].config.id, jobs[0].runtime)] + ProjectStatuses(jobs[1..])
    else ProjectStatuses(jobs[1..])
  }

  function CustomConfigs(configs: seq<Config>): seq<Config> {
    if configs == [] then []
    else if IsBuiltInReview(configs[0]) then CustomConfigs(configs[1..])
    else [configs[0]] + CustomConfigs(configs[1..])
  }

  datatype Files = Files(configs: seq<Config>, statuses: seq<Status>)

  function LoadJobs(files: Files): seq<Job> {
    MergeStatuses(CustomConfigs(files.configs), files.statuses)
  }

  function SaveJobs(jobs: seq<Job>): Files {
    Files(ProjectConfigs(jobs), ProjectStatuses(jobs))
  }

  ghost predicate UniqueIds(jobs: seq<Job>) {
    forall i, j :: 0 <= i < j < |jobs| ==> jobs[i].config.id != jobs[j].config.id
  }

  /* ---- statuses written and read back ---- */

  lemma {:induction false} StatusOfAppend(a: seq<Status>, b: seq<Status>, id: string)
    ensures StatusOf(a + b, id) == if StatusOf(b, id).Some? then StatusOf(b, id) else StatusOf(a, id)
    decreases |b|
  {
    if b == [] {
      assert a + b == a;
    } else {
      assert (a + b)[..|a + b| - 1] == a + b[..|b| - 1];
      StatusOfAppend(a, b[..|b| - 1], id);
    }
  }

  lemma {:induction false} NoJobNoStatus(jobs: seq<Job>, id: string)
    requires forall j :: 0 <= j < |jobs| ==> jobs[j].config.id != id
    ensures StatusOf(ProjectStatuses(jobs), id) == None
    decreases |jobs|
  {
    if jobs != [] {
      NoJobNoStatus(jobs[1..], id);
      var head := [Status(jobs[0].config.id, jobs[0].runtime)];
      StatusOfAppend(head, ProjectStatuses(jobs[1..]), id);
      assert head[..0] == [];
    }
  }

  /** The status file gives back exactly the run-time state of jobs that have one. */
  lemma {:induction false} StatusReadBack(jobs: seq<Job>, i: int)
    requires UniqueIds(jobs) && 0 <= i < |jobs|
    ensures StatusOf(ProjectStatuses(jobs), jobs[i].config.id)
            == if HasRuntimeState(jobs[i].runtime) then Some(jobs[i].runtime) else None
    decreases |jobs|
  {
    var id, rest := jobs[i].config.id, jobs[1..];
    var head := [Status(jobs[0].config.id, jobs[0].runtime)];
    assert head[..0] == [];
    StatusOfAppend(head, ProjectStatuses(rest), id);
    if i == 0 {
      forall j | 0 <= j < |rest| ensures rest[j].config.id != id { assert rest[j] == jobs[j + 1]; }
      NoJobNoStatus(rest, id);
    } else {
      assert jobs[i] == rest[i - 1] && jobs[0].config.id != id;
      StatusReadBack(rest, i - 1);
    }
  }

  lemma {:induction false} CustomKeepsAll(configs: seq<Config>)
    ensures |CustomConfigs(configs)| <= |configs|
    ensures (forall i :: 0 <= i < |configs| ==> !IsBuiltInReview(configs[i])) <==> CustomConfigs(configs) == configs
    decreases |configs|
  {
    if configs != [] {
      CustomKeepsAll(configs[1..]);
      if CustomConfigs(configs) == configs {
        assert !IsBuiltInReview(configs[0]);
        assert CustomConfigs(configs)[1..] == CustomConfigs(configs[1..]);
        forall i | 0 <= i < |configs| ensures !IsBuiltInReview(configs[i]) {
          if i > 0 { assert configs[i] == configs[1..][i - 1]; }
        }
      } else if !IsBuiltInReview(configs[0]) {
        assert CustomConfigs(configs) == [configs[0]] + CustomConfigs(configs[1..]);
        assert configs == [configs[0]] + configs[1..];
        assert CustomConfigs(configs[1..]) != configs[1..];
        var i :| 0 <= i < |configs[1..]| && IsBuiltInReview(configs[1..][i]);
        assert IsBuiltInReview(configs[i + 1]);
      }
    }
  }

  /** What saveSchedulerJobs loses: built-in reviews, and run-time state made of empty texts only. */
  predicate SurvivesSave(job: Job) {
    !IsBuiltInReview(job.config) && (job.runtime == NO_RUNTIME || HasRuntimeState(job.runtime))
  }

  /** Loading after saveSchedulerJobs gives the same jobs if and only if every job survives a save. */
  lemma {:induction false} SaveLoadRoundTrip(jobs: seq<Job>)
    requires UniqueIds(jobs)
    ensures LoadJobs(SaveJobs(jobs)) == jobs <==> forall i :: 0 <= i < |jobs| ==> SurvivesSave(jobs[i])
  {
    var configs, statuses := ProjectConfigs(jobs), ProjectStatuses(jobs);
    CustomKeepsAll(configs);
    forall i | 0 <= i < |jobs|
      ensures WithStatus(configs[i], statuses) == jobs[i]
              <==> jobs[i].runtime == NO_RUNTIME || HasRuntimeState(jobs[i].runtime)
    {
      StatusReadBack(jobs, i);
    }
    if forall i :: 0 <= i < |jobs| ==> SurvivesSave(jobs[i]) {
      assert CustomConfigs(configs) == configs;
      assert LoadJobs(SaveJobs(jobs)) == jobs;
    }
    if LoadJobs(SaveJobs(jobs)) == jobs {
      ShorterOrEqual(configs);
      forall i | 0 <= i < |jobs| ensures SurvivesSave(jobs[i]) {
        assert LoadJobs(SaveJobs(jobs))[i] == jobs[i];
        assert !IsBuiltInReview(configs[i]);
      }
    }
  }

  /** Dropping a built-in review leaves fewer configurations. */
  lemma {:induction false} ShorterOrEqual(configs: seq<Config>)
    ensures |CustomConfigs(configs)| == |configs| ==> CustomConfigs(configs) == configs
    decreases |configs|
  {
    if configs != [] {
      ShorterOrEqual(configs[1..]);
      CustomKeepsAll(configs[1..]);
      assert configs == [configs[0]] + configs[1..];
    }
  }
}
