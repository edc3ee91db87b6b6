/**
 Migration of scheduler files that still keep run-time state beside the configuration
 (mergeSchedulerJobStatuses and migrateLegacySchedulerPersistence in src/lib/system-workspace.ts).
 `rank` places ids in their localeCompare order: every total preorder of the countably many strings
 is the order of some real-valued rank.
 */
module JobMigration {
  import opened Prelude
  import opened JobFiles

  /** The position of an id in a JavaScript Map, kept as the list of its entries. */
  function IndexOf(m: seq<Status>, id: string): (i: int)
    ensures -1 <= i < |m|
    ensures i >= 0 ==> m[i].id == id
    ensures i < 0 ==> forall j :: 0 <= j < |m| ==> m[j].id != id
  {
    if m == [] then -1
    else if m[|m| - 1].id == id then |m| - 1
    else IndexOf(m[..|m| - 1], id)
  }

  function MapSet(m: seq<Status>, entry: Status): seq<Status> {
    var i := IndexOf(m, entry.id);
    if i < 0 then m + [entry] else m[i := entry]
  }

  /** `new Map(entries)`: a repeated id keeps its first place and its last value. */
  function MapOf(entries: seq<Status>): seq<Status> {
    if entries == [] then [] else MapSet(MapOf(entries[..|entries| - 1]), entries[|entries| - 1])
  }

  function AddMissing(m: seq<Status>, incoming: seq<Status>): seq<Status> {
    if incoming == [] then m
    else
      var before := AddMissing(m, incoming[..|incoming| - 1]);
      var entry := incoming[|incoming| - 1];
      if IndexOf(before, entry.id) < 0 then before + [entry] else before
  }

  /** A stable sort by id. */
  function Insert(rank: string -> real, entry: Status, sorted: seq<Status>): seq<Status> {
    if sorted == [] || rank(entry.id) <= rank(sorted[0].id) then [entry] + sorted
    else [sorted[0]] + Insert(rank, entry, sorted[1..])
  }

  function SortById(rank: string -> real, entries: seq<Status>): seq<Status> {
    if entries == [] then [] else Insert(rank, entries[0], SortById(rank, entries[1..]))
  }

  function Merge(rank: string -> real, current: seq<Status>, incoming: seq<Status>): seq<Status> {
    SortById(rank, AddMissing(MapOf(current), incoming))
  }

  method MergeSchedulerJobStatuses(rank: string -> real, current: seq<Status>, incoming: seq<Status>)
    returns (statuses: seq<Status>)
    ensures statuses == Merge(rank, current, incoming)
  {
    var merged := MapOf(current);
    for i := 0 to |incoming|
      invariant merged == AddMissing(MapOf(current), incoming[..i])
    {
      assert incoming[..i + 1][..i] == incoming[..i];
      if IndexOf(merged, incoming[i].id) < 0 {
        merged := merged + [incoming[i]];
      }
    }
    assert incoming[..|incoming|] == incoming;
    statuses := SortById(rank, merged);
  }

  /* ---- what the merge holds ---- */

  ghost predicate DistinctIds(m: seq<Status>) {
    forall i, j :: 0 <= i < j < |m| ==> m[i].id != m[j].id
  }

  ghost predicate SortedById(rank: string -> real, m: seq<Status>) {
    forall i, j :: 0 <= i < j < |m| ==> rank(m[i].id) <= rank(m[j].id)
  }

  function FirstStatusOf(statuses: seq<Status>, id: string): Option<Runtime> {
    if statuses == [] then None
    else if statuses[0].id == id then Some(statuses[0].runtime)
    else FirstStatusOf(statuses[1..], id)
  }

  lemma {:induction false} StatusAt(m: seq<Status>, id: string)
    ensures StatusOf(m, id) == if IndexOf(m, id) < 0 then None else Some(m[IndexOf(m, id)].runtime)
    decreases |m|
  {
    if m != [] {
      StatusAt(m[..|m| - 1], id);
    }
  }

  /** Two lists of distinct ids with the same entries give every id the same status. */
  lemma {:induction false} SameEntriesSameStatus(a: seq<Status>, b: seq<Status>, id: string)
    requires DistinctIds(a) && DistinctIds(b)
    requires forall e :: e in a <==> e in b
    ensures StatusOf(a, id) == StatusOf(b, id)
  {
    StatusAt(a, id);
    StatusAt(b, id);
    var i, j := IndexOf(a, id), IndexOf(b, id);
    assert j >= 0 ==> b[j] in a;
    if i >= 0 {
      assert a[i] in b;
      var k :| 0 <= k < |b| && b[k] == a[i];
      assert k == j;
    }
  }

  lemma {:induction false} MapSetStatus(m: seq<Status>, entry: Status, id: string)
    requires DistinctIds(m)
    ensures DistinctIds(MapSet(m, entry))
    ensures StatusOf(MapSet(m, entry), id) == if entry.id == id then Some(entry.runtime) else StatusOf(m, id)
  {
    var i, r := IndexOf(m, entry.id), MapSet(m, entry);
    StatusAt(m, id);
    StatusAt(r, id);
    assert r[if i < 0 then |m| else i] == entry;
    assert forall k :: 0 <= k < |m| && k != i ==> r[k] == m[k];
    if entry.id != id && IndexOf(m, id) >= 0 {
      assert r[IndexOf(m, id)] == m[IndexOf(m, id)];
    }
  }

  lemma {:induction false} MapOfStatuses(entries: seq<Status>, id: string)
    ensures DistinctIds(MapOf(entries)) && StatusOf(MapOf(entries), id) == StatusOf(entries, id)
    decreases |entries|
  {
    if entries != [] {
      MapOfStatuses(entries[..|entries| - 1], id);
      MapSetStatus(MapOf(entries[..|entries| - 1]), entries[|entries| - 1], id);
    }
  }

  lemma {:induction false} FirstOfAppend(a: seq<Status>, e: Status, id: string)
    ensures FirstStatusOf(a + [e], id)
            == if FirstStatusOf(a, id).Some? then FirstStatusOf(a, id) else if e.id == id then Some(e.runtime) else None
    decreases |a|
  {
    if a == [] {
      assert a + [e] == [e];
    } else {
      assert (a + [e])[1..] == a[1..] + [e];
      FirstOfAppend(a[1..], e, id);
    }
  }

  lemma {:induction false} AddMissingStatuses(m: seq<Status>, incoming: seq<Status>, id: string)
    requires DistinctIds(m)
    ensures DistinctIds(AddMissing(m, incoming))
    ensures StatusOf(AddMissing(m, incoming), id)
            == if StatusOf(m, id).Some? then StatusOf(m, id) else FirstStatusOf(incoming, id)
    decreases |incoming|
  {
    if incoming != [] {
      var init, entry := incoming[..|incoming| - 1], incoming[|incoming| - 1];
      var before := AddMissing(m, init);
      AddMissingStatuses(m, init, id);
      assert incoming == init + [entry];
      FirstOfAppend(init, entry, id);
      StatusAt(before, id);
      if IndexOf(before, entry.id) < 0 {
        assert (before + [entry])[..|before|] == before;
      }
    }
  }

  lemma {:induction false} InsertKeepsEntries(rank: string -> real, entry: Status, sorted: seq<Status>)
    ensures multiset(Insert(rank, entry, sorted)) == multiset(sorted) + multiset{entry}
    decreases |sorted|
  {
    if sorted != [] && !(rank(entry.id) <= rank(sorted[0].id)) {
      InsertKeepsEntries(rank, entry, sorted[1..]);
      assert sorted == [sorted[0]] + sorted[1..];
    }
  }

  lemma {:induction false} SortedFront(rank: string -> real, first: Status, rest: seq<Status>)
    requires SortedById(rank, rest)
    requires forall e :: e in rest ==> rank(first.id) <= rank(e.id)
    ensures SortedById(rank, [first] + rest)
  {
    var r := [first] + rest;
    forall i, j | 0 <= i < j < |r| ensures rank(r[i].id) <= rank(r[j].id) {
      assert r[j] == rest[j - 1] && rest[j - 1] in rest;
      assert i > 0 ==> r[i] == rest[i - 1];
    }
  }

  lemma {:induction false} InsertKeepsSorted(rank: string -> real, entry: Status, sorted: seq<Status>)
    requires SortedById(rank, sorted)
    ensures SortedById(rank, Insert(rank, entry, sorted))
    decreases |sorted|
  {
    if sorted == [] || rank(entry.id) <= rank(sorted[0].id) {
      SortedFront(rank, entry, sorted);
    } else {
      var rest := Insert(rank, entry, sorted[1..]);
      InsertKeepsSorted(rank, entry, sorted[1..]);
      InsertKeepsEntries(rank, entry, sorted[1..]);
      forall e | e in rest ensures rank(sorted[0].id) <= rank(e.id) {
        assert e in multiset(rest);
        if e != entry {
          assert e in sorted[1..];
        }
      }
      SortedFront(rank, sorted[0], rest);
    }
  }

  lemma {:induction false} SortEntries(rank: string -> real, entries: seq<Status>)
    ensures SortedById(rank, SortById(rank, entries)) && multiset(SortById(rank, entries)) == multiset(entries)
    decreases |entries|
  {
    if entries != [] {
      SortEntries(rank, entries[1..]);
      InsertKeepsSorted(rank, entries[0], SortById(rank, entries[1..]));
      InsertKeepsEntries(rank, entries[0], SortById(rank, entries[1..]));
      assert entries == [entries[0]] + entries[1..];
    }
  }

  lemma {:induction false} SortKeepsSorted(rank: string -> real, entries: seq<Status>)
    requires SortedById(rank, entries)
    ensures SortById(rank, entries) == entries
    decreases |entries|
  {
    if entries != [] {
      SortKeepsSorted(rank, entries[1..]);
      assert entries == [entries[0]] + entries[1..];
    }
  }

  lemma {:induction false} PermutedDistinct(a: seq<Status>, b: seq<Status>)
    requires multiset(a) == multiset(b) && DistinctIds(a)
    ensures DistinctIds(b) && forall e :: e in a <==> e in b
  {
    forall e ensures e in a <==> e in b { assert e in a <==> e in multiset(b); }
    forall i, j | 0 <= i < j < |b| ensures b[i].id != b[j].id {
      if b[i] == b[j] {
        CountsOnce(a, b[i]);
        CountsTwice(b, i, j);
      } else {
        assert b[i] in b && b[j] in b;
        var k :| 0 <= k < |a| && a[k] == b[i];
        var l :| 0 <= l < |a| && a[l] == b[j];
      }
    }
  }

  lemma {:induction false} CountsOnce(a: seq<Status>, e: Status)
    requires DistinctIds(a)
    ensures multiset(a)[e] <= 1
    decreases |a|
  {
    if a != [] {
      CountsOnce(a[1..], e);
      assert a == [a[0]] + a[1..];
      if a[0] == e {
        assert e !in a[1..];
        assert multiset(a[1..])[e] == 0;
      }
    }
  }

  lemma {:induction false} CountsTwice(b: seq<Status>, i: int, j: int)
    requires 0 <= i < j < |b| && b[i] == b[j]
    ensures multiset(b)[b[i]] >= 2
  {
    assert b == b[..i] + [b[i]] + b[i + 1..j] + [b[j]] + b[j + 1..];
  }

  /** After the merge every id of either list has exactly one status: the current one if there is one,
      otherwise the first incoming one. The list is sorted. */
  lemma {:induction false} MergeHolds(rank: string -> real, current: seq<Status>, incoming: seq<Status>, id: string)
    ensures var merged := Merge(rank, current, incoming);
            && DistinctIds(merged) && SortedById(rank, merged)
            && StatusOf(merged, id)
               == if StatusOf(current, id).Some? then StatusOf(current, id) else FirstStatusOf(incoming, id)
  {
    var entries := AddMissing(MapOf(current), incoming);
    MapOfStatuses(current, id);
    AddMissingStatuses(MapOf(current), incoming, id);
    SortEntries(rank, entries);
    PermutedDistinct(entries, SortById(rank, entries));
    SameEntriesSameStatus(entries, SortById(rank, entries), id);
  }

  /** Merging nothing into a merged list changes nothing. */
  lemma {:induction false} MergeNothing(rank: string -> real, statuses: seq<Status>)
    requires DistinctIds(statuses) && SortedById(rank, statuses)
    ensures Merge(rank, statuses, []) == statuses
  {
    MapOfDistinct(statuses);
    SortKeepsSorted(rank, statuses);
  }

  lemma {:induction false} MapOfDistinct(entries: seq<Status>)
    requires DistinctIds(entries)
    ensures MapOf(entries) == entries
    decreases |entries|
  {
    if entries != [] {
      MapOfDistinct(entries[..|entries| - 1]);
      assert entries == entries[..|entries| - 1] + [entries[|entries| - 1]];
    }
  }

  /* ---- the migration ---- */

  /** The jobs file may hold whole jobs; afterwards it holds configurations only. */
  function AsJobs(configs: seq<Config>): seq<Job> {
    seq(|configs|, i requires 0 <= i < |configs| => Job(configs[i], NO_RUNTIME))
  }

  function Migrate(rank: string -> real, jobs: seq<Job>, statuses: seq<Status>): Files {
    Files(CustomConfigs(ProjectConfigs(jobs)), Merge(rank, statuses, ProjectStatuses(jobs)))
  }

  lemma {:induction false} CustomTwice(configs: seq<Config>)
    ensures CustomConfigs(CustomConfigs(configs)) == CustomConfigs(configs)
    decreases |configs|
  {
    if configs != [] {
      CustomTwice(configs[1..]);
      if !IsBuiltInReview(configs[0]) {
        assert CustomConfigs(configs)[1..] == CustomConfigs(configs[1..]);
      }
    }
  }

  lemma {:induction false} NoRuntimeNoStatuses(configs: seq<Config>)
    ensures ProjectStatuses(AsJobs(configs)) == []
    decreases |configs|
  {
    if configs != [] {
      NoRuntimeNoStatuses(configs[1..]);
      assert AsJobs(configs)[1..] == AsJobs(configs[1..]);
    }
  }

  /** Migrating migrated files changes neither file. */
  lemma {:induction false} MigrationIsIdempotent(rank: string -> real, jobs: seq<Job>, statuses: seq<Status>)
    ensures var once := Migrate(rank, jobs, statuses);
            Migrate(rank, AsJobs(once.configs), once.statuses) == once
  {
    var once := Migrate(rank, jobs, statuses);
    MergeHolds(rank, statuses, ProjectStatuses(jobs), "");
    assert ProjectConfigs(AsJobs(once.configs)) == once.configs;
    CustomTwice(ProjectConfigs(jobs));
    NoRuntimeNoStatuses(once.configs);
    MergeNothing(rank, once.statuses);
  }

  /** Migration removes exactly the built-in reviews: every other configuration stays, in order. */
  lemma {:induction false} CustomConfigsKept(configs: seq<Config>, c: Config)
    ensures c in CustomConfigs(configs) <==> c in configs && !IsBuiltInReview(c)
    ensures multiset(CustomConfigs(configs))[c] == if IsBuiltInReview(c) then 0 else multiset(configs)[c]
    decreases |configs|
  {
    if configs != [] {
      CustomConfigsKept(configs[1..], c);
      assert configs == [configs[0]] + configs[1..];
    }
  }

  /** The migration removes exactly the configurations with an action, as often as they are there. */
  lemma {:induction false} MigrationKeepsCustomJobs(rank: string -> real, jobs: seq<Job>, statuses: seq<Status>, c: Config)
    ensures multiset(Migrate(rank, jobs, statuses).configs)[c]
         == if c.action.Some? && c.action.value != "" then 0 else multiset(ProjectConfigs(jobs))[c]
  {
    CustomConfigsKept(ProjectConfigs(jobs), c);
  }

  /** What a job file and a status file mean together is kept by the migration, for jobs with unique ids:
      each custom job has the status it had, or else the run-time state it carried. */
  lemma {:induction false} MigrationKeepsRuntime(rank: string -> real, jobs: seq<Job>, statuses: seq<Status>, i: int)
    requires UniqueIds(jobs) && 0 <= i < |jobs|
    ensures var id := jobs[i].config.id;
            StatusOf(Migrate(rank, jobs, statuses).statuses, id)
            == if StatusOf(statuses, id).Some? then StatusOf(statuses, id)
               else if HasRuntimeState(jobs[i].runtime) then Some(jobs[i].runtime) else None
  {
    var id := jobs[i].config.id;
    MergeHolds(rank, statuses, ProjectStatuses(jobs), id);
    StatusReadBack(jobs, i);
    ProjectedDistinct(jobs);
    FirstIsLast(ProjectStatuses(jobs), id);
  }

  lemma {:induction false} ProjectedDistinct(jobs: seq<Job>)
    requires UniqueIds(jobs)
    ensures DistinctIds(ProjectStatuses(jobs))
    ensures forall s :: s in ProjectStatuses(jobs) ==> exists j :: 0 <= j < |jobs| && jobs[j].config.id == s.id
    decreases |jobs|
  {
    if jobs != [] {
      var rest := jobs[1..];
      forall i, j | 0 <= i < j < |rest| ensures rest[i].config.id != rest[j].config.id {
        assert rest[i] == jobs[i + 1] && rest[j] == jobs[j + 1];
      }
      ProjectedDistinct(rest);
      forall s | s in ProjectStatuses(rest)
        ensures s.id != jobs[0].config.id && exists j :: 0 <= j < |jobs| && jobs[j].config.id == s.id
      {
        var j :| 0 <= j < |rest| && rest[j].config.id == s.id;
        assert jobs[j + 1] == rest[j];
      }
    }
  }

  lemma {:induction false} FirstIsLast(m: seq<Status>, id: string)
    requires DistinctIds(m)
    ensures FirstStatusOf(m, id) == StatusOf(m, id)
    decreases |m|
  {
    if m != [] {
      FirstIsLast(m[..|m| - 1], id);
      assert m == m[..|m| - 1] + [m[|m| - 1]];
      FirstOfAppend(m[..|m| - 1], m[|m| - 1], id);
      StatusAt(m[..|m| - 1], id);
    }
  }
}
