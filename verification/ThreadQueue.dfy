/** The promise chain behind ThreadQueue, and the queue per key it amounts to. */
module ThreadQueue {
  import opened Prelude

  /**
   * The life of one enqueued job: waiting for its predecessor, running, settled, and released once
   * its finally callback has run and its successor may start.
   */
  datatype Phase = Waiting | Running | Settled(ok: bool) | Released(ok: bool)

  /** The promise made by one enqueue; `previous` is the promise it was chained to. */
  datatype Promise = Promise(key: string, previous: Option<nat>, phase: Phase)

  /** All promises in the order they were made, the map of last promises, and the jobs started so far. */
  datatype State = State(promises: seq<Promise>, jobs: map<string, nat>, started: seq<nat>)

  datatype Event = Enqueue(key: string) | Start(id: nat) | Settle(id: nat, ok: bool) | Release(id: nat)

  function Init(): State {
    State([], map[], [])
  }

  function Lookup(jobs: map<string, nat>, key: string): Option<nat> {
    if key in jobs then Some(jobs[key]) else None
  }

  /** A chained job may start when the promise before it has been released, whatever its outcome. */
  predicate Ready(promises: seq<Promise>, previous: Option<nat>) {
    previous.Some? ==> previous.value < |promises| && promises[previous.value].phase.Released?
  }

  predicate Enabled(s: State, e: Event) {
    match e
    case Enqueue(_) => true
    case Start(id) =>
      id < |s.promises| && s.promises[id].phase.Waiting? && Ready(s.promises, s.promises[id].previous)
    case Settle(id, _) => id < |s.promises| && s.promises[id].phase.Running?
    case Release(id) => id < |s.promises| && s.promises[id].phase.Settled?
  }

  function Moved(promises: seq<Promise>, id: nat, phase: Phase): seq<Promise>
    requires id < |promises|
  {
    promises[id := Promise(promises[id].key, promises[id].previous, phase)]
  }

  /** The finally callback forgets the key only if no later job has been chained to it. */
  function Forget(jobs: map<string, nat>, key: string, id: nat): map<string, nat> {
    if key in jobs && jobs[key] == id then jobs - {key} else jobs
  }

  function Next(s: State, e: Event): State
    requires Enabled(s, e)
  {
    match e
    case Enqueue(key) =>
      var promise := Promise(key, Lookup(s.jobs, key), Waiting);
      State(s.promises + [promise], s.jobs[key := |s.promises|], s.started)
    case Start(id) => State(Moved(s.promises, id, Running), s.jobs, s.started + [id])
    case Settle(id, ok) => State(Moved(s.promises, id, Settled(ok)), s.jobs, s.started)
    case Release(id) =>
      State(Moved(s.promises, id, Released(s.promises[id].phase.ok)), Forget(s.jobs, s.promises[id].key, id), s.started)
  }

  // --- the invariant of the chain ---

  ghost predicate AllReleased(promises: seq<Promise>, key: string, below: int) {
    forall j :: 0 <= j < below && j < |promises| && promises[j].key == key ==> promises[j].phase.Released?
  }

  ghost predicate NoneOfKey(promises: seq<Promise>, key: string, from: int, to: int) {
    forall j :: from <= j < to && 0 <= j < |promises| ==> promises[j].key != key
  }

  /** A promise is chained to the last one of its key, unless all of them were already released. */
  ghost predicate Linked(promises: seq<Promise>, i: nat)
    requires i < |promises|
  {
    match promises[i].previous
    case Some(p) => p < i && promises[p].key == promises[i].key && NoneOfKey(promises, promises[i].key, p + 1, i)
    case None => AllReleased(promises, promises[i].key, i)
  }

  ghost predicate Serial(promises: seq<Promise>, i: nat)
    requires i < |promises|
  {
    !promises[i].phase.Waiting? ==> AllReleased(promises, promises[i].key, i)
  }

  ghost predicate Chained(promises: seq<Promise>) {
    forall i :: 0 <= i < |promises| ==> Linked(promises, i) && Serial(promises, i)
  }

  /** The map holds the last promise of a key exactly while the key has an unreleased one. */
  ghost predicate LastOf(promises: seq<Promise>, jobs: map<string, nat>, key: string) {
    if key in jobs then
      && jobs[key] < |promises| && promises[jobs[key]].key == key && !promises[jobs[key]].phase.Released?
      && NoneOfKey(promises, key, jobs[key] + 1, |promises|)
    else AllReleased(promises, key, |promises|)
  }

  ghost predicate Inv(s: State) {
    && Chained(s.promises)
    && (forall key :: LastOf(s.promises, s.jobs, key))
    && (forall key :: StartedOf(s, key) + Select(s.promises, key, NotStarted) == Select(s.promises, key, Every))
    && (forall k :: 0 <= k < |s.started| ==> s.started[k] < |s.promises|)
  }

  // --- the queues ---

  datatype Which = Every | NotStarted | Unfinished

  predicate Keeps(promise: Promise, key: string, which: Which) {
    && promise.key == key
    && (which.NotStarted? ==> promise.phase.Waiting?)
    && (which.Unfinished? ==> !promise.phase.Released?)
  }

  /** The ids of a key's promises, all or those in a given condition, in enqueue order. */
  function Select(promises: seq<Promise>, key: string, which: Which): seq<nat> {
    if promises == [] then [] else
      var n := |promises| - 1;
      Select(promises[..n], key, which) + (if Keeps(promises[n], key, which) then [n] else [])
  }

  /** The queue of a key: its unfinished jobs in enqueue order. */
  function Queue(s: State, key: string): seq<nat> {
    Select(s.promises, key, Unfinished)
  }

  function OfKey(promises: seq<Promise>, ids: seq<nat>, key: string): seq<nat> {
    if ids == [] then [] else
      var n := |ids| - 1;
      OfKey(promises, ids[..n], key)
      + (if ids[n] < |promises| && promises[ids[n]].key == key then [ids[n]] else [])
  }

  /** The jobs of a key in the order they were started. */
  function StartedOf(s: State, key: string): seq<nat> {
    OfKey(s.promises, s.started, key)
  }

  lemma {:induction false} SelectAppend(promises: seq<Promise>, p: Promise, key: string, which: Which)
    ensures Select(promises + [p], key, which)
         == Select(promises, key, which) + (if Keeps(p, key, which) then [|promises|] else [])
  {
    assert (promises + [p])[..|promises|] == promises;
  }

  lemma {:induction false} SelectSame(promises: seq<Promise>, i: nat, p: Promise, key: string, which: Which)
    requires i < |promises| && Keeps(p, key, which) == Keeps(promises[i], key, which)
    ensures Select(promises[i := p], key, which) == Select(promises, key, which)
    decreases |promises|
  {
    var n := |promises| - 1;
    if i < n {
      assert promises[i := p][..n] == promises[..n][i := p];
      SelectSame(promises[..n], i, p, key, which);
    } else {
      assert promises[i := p][..n] == promises[..n];
    }
  }

  lemma {:induction false} SelectNone(promises: seq<Promise>, key: string, which: Which)
    requires forall j :: 0 <= j < |promises| ==> !Keeps(promises[j], key, which)
    ensures Select(promises, key, which) == []
  {
    if promises != [] {
      SelectNone(promises[..|promises| - 1], key, which);
    }
  }

  /** The first kept promise is the head, and dropping it leaves the tail. */
  lemma {:induction false} SelectHead(promises: seq<Promise>, i: nat, p: Promise, key: string, which: Which)
    requires i < |promises| && Keeps(promises[i], key, which) && !Keeps(p, key, which)
    requires forall j :: 0 <= j < i ==> !Keeps(promises[j], key, which)
    ensures Select(promises, key, which) == [i] + Select(promises[i := p], key, which)
    decreases |promises|
  {
    var n := |promises| - 1;
    if i < n {
      assert promises[i := p][..n] == promises[..n][i := p];
      SelectHead(promises[..n], i, p, key, which);
    } else {
      assert promises[i := p][..n] == promises[..n];
      SelectNone(promises[..n], key, which);
    }
  }

  /** Whatever is kept is in the list, and the list names only what is kept. */
  lemma {:induction false} SelectMember(promises: seq<Promise>, key: string, which: Which, i: nat)
    ensures i in Select(promises, key, which) <==> i < |promises| && Keeps(promises[i], key, which)
  {
    if promises != [] {
      SelectMember(promises[..|promises| - 1], key, which, i);
    }
  }

  lemma {:induction false} OfKeySame(promises: seq<Promise>, ids: seq<nat>, key: string, other: seq<Promise>)
    requires |promises| <= |other| && forall j :: 0 <= j < |promises| ==> promises[j].key == other[j].key
    requires forall k :: 0 <= k < |ids| ==> ids[k] < |promises|
    ensures OfKey(promises, ids, key) == OfKey(other, ids, key)
  {
    if ids != [] {
      OfKeySame(promises, ids[..|ids| - 1], key, other);
    }
  }

  // --- every step keeps the invariant ---

  lemma {:induction false} InitInv()
    ensures Inv(Init())
  {
  }

  lemma {:induction false} EnqueueInv(s: State, key: string)
    requires Inv(s)
    ensures Inv(Next(s, Enqueue(key)))
  {
    var p := Promise(key, Lookup(s.jobs, key), Waiting);
    var t := Next(s, Enqueue(key));
    var n := |s.promises|;
    assert LastOf(s.promises, s.jobs, key);
    forall i | 0 <= i < |t.promises| ensures Linked(t.promises, i) && Serial(t.promises, i) {
      if i < n {
        assert Linked(s.promises, i) && Serial(s.promises, i);
      }
    }
    forall k ensures LastOf(t.promises, t.jobs, k) {
      assert LastOf(s.promises, s.jobs, k);
    }
    forall k ensures StartedOf(t, k) + Select(t.promises, k, NotStarted) == Select(t.promises, k, Every) {
      OfKeySame(s.promises, s.started, k, t.promises);
      SelectAppend(s.promises, p, k, NotStarted);
      SelectAppend(s.promises, p, k, Every);
      assert StartedOf(s, k) + Select(s.promises, k, NotStarted) == Select(s.promises, k, Every);
    }
  }

  /** A job that is next in its chain has only released jobs of its key before it. */
  lemma {:induction false} ReadyMeansFirst(promises: seq<Promise>, i: nat)
    requires Chained(promises) && i < |promises| && Ready(promises, promises[i].previous)
    ensures AllReleased(promises, promises[i].key, i)
  {
    assert Linked(promises, i);
    if promises[i].previous.Some? {
      var p := promises[i].previous.value;
      assert Serial(promises, p);
    }
  }

  /** A job past waiting has only released jobs of its key before it. */
  lemma {:induction false} ActiveMeansFirst(s: State, e: Event)
    requires Inv(s) && Enabled(s, e) && !e.Enqueue?
    ensures AllReleased(s.promises, s.promises[e.id].key, e.id)
  {
    assert Serial(s.promises, e.id);
    if e.Start? {
      ReadyMeansFirst(s.promises, e.id);
    }
  }

  lemma {:induction false} MovedChained(promises: seq<Promise>, id: nat, phase: Phase)
    requires Chained(promises) && id < |promises|
    requires AllReleased(promises, promises[id].key, id)
    requires promises[id].phase.Released? ==> phase.Released?
    ensures Chained(Moved(promises, id, phase))
  {
    var moved := Moved(promises, id, phase);
    forall i | 0 <= i < |moved| ensures Linked(moved, i) && Serial(moved, i) {
      assert Linked(promises, i) && Serial(promises, i);
    }
  }

  lemma {:induction false} StartInv(s: State, id: nat)
    requires Inv(s) && Enabled(s, Start(id))
    ensures Inv(Next(s, Start(id)))
  {
    var t := Next(s, Start(id));
    ActiveMeansFirst(s, Start(id));
    MovedChained(s.promises, id, Running);
    forall k ensures LastOf(t.promises, t.jobs, k) {
      assert LastOf(s.promises, s.jobs, k);
    }
    forall k ensures StartedOf(t, k) + Select(t.promises, k, NotStarted) == Select(t.promises, k, Every) {
      StartedStep(s, id, k);
    }
  }

  lemma {:induction false} StartedStep(s: State, id: nat, key: string)
    requires Inv(s) && Enabled(s, Start(id))
    requires AllReleased(s.promises, s.promises[id].key, id)
    ensures
      var t := Next(s, Start(id));
      StartedOf(t, key) + Select(t.promises, key, NotStarted) == Select(t.promises, key, Every)
  {
    var t := Next(s, Start(id));
    var p := t.promises[id];
    assert t.started[..|s.started|] == s.started;
    assert StartedOf(s, key) + Select(s.promises, key, NotStarted) == Select(s.promises, key, Every);
    hide Inv;
    OfKeySame(s.promises, s.started, key, t.promises);
    SelectSame(s.promises, id, p, key, Every);
    if s.promises[id].key == key {
      SelectHead(s.promises, id, p, key, NotStarted);
      var rest := Select(t.promises, key, NotStarted);
      assert StartedOf(s, key) + ([id] + rest) == StartedOf(s, key) + [id] + rest;
    } else {
      SelectSame(s.promises, id, p, key, NotStarted);
      assert StartedOf(t, key) == StartedOf(s, key) + [];
    }
  }

  /** Settling and releasing change no list of started or waiting jobs. */
  lemma {:induction false} StartedKept(s: State, t: State, id: nat, key: string)
    requires Inv(s) && id < |s.promises| && !s.promises[id].phase.Waiting?
    requires t.started == s.started && exists phase: Phase :: !phase.Waiting? && t.promises == Moved(s.promises, id, phase)
    ensures StartedOf(t, key) + Select(t.promises, key, NotStarted) == Select(t.promises, key, Every)
  {
    var phase: Phase :| !phase.Waiting? && t.promises == Moved(s.promises, id, phase);
    var p := Promise(s.promises[id].key, s.promises[id].previous, phase);
    OfKeySame(s.promises, s.started, key, t.promises);
    SelectSame(s.promises, id, p, key, Every);
    SelectSame(s.promises, id, p, key, NotStarted);
    assert StartedOf(s, key) + Select(s.promises, key, NotStarted) == Select(s.promises, key, Every);
  }

  lemma {:induction false} SettleInv(s: State, id: nat, ok: bool)
    requires Inv(s) && Enabled(s, Settle(id, ok))
    ensures Inv(Next(s, Settle(id, ok)))
  {
    var t := Next(s, Settle(id, ok));
    ActiveMeansFirst(s, Settle(id, ok));
    MovedChained(s.promises, id, Settled(ok));
    forall k ensures LastOf(t.promises, t.jobs, k) {
      assert LastOf(s.promises, s.jobs, k);
    }
    forall k ensures StartedOf(t, k) + Select(t.promises, k, NotStarted) == Select(t.promises, k, Every) {
      StartedKept(s, t, id, k);
    }
  }

  lemma {:induction false} ReleaseInv(s: State, id: nat)
    requires Inv(s) && Enabled(s, Release(id))
    ensures Inv(Next(s, Release(id)))
  {
    var t := Next(s, Release(id));
    var key := s.promises[id].key;
    ActiveMeansFirst(s, Release(id));
    MovedChained(s.promises, id, Released(s.promises[id].phase.ok));
    forall k ensures LastOf(t.promises, t.jobs, k) {
      assert LastOf(s.promises, s.jobs, k);
    }
    forall k ensures StartedOf(t, k) + Select(t.promises, k, NotStarted) == Select(t.promises, k, Every) {
      StartedKept(s, t, id, k);
    }
  }

  lemma {:induction false} NextInv(s: State, e: Event)
    requires Inv(s) && Enabled(s, e)
    ensures Inv(Next(s, e))
  {
    match e
    case Enqueue(key) => EnqueueInv(s, key);
    case Start(id) => StartInv(s, id);
    case Settle(id, ok) => SettleInv(s, id, ok);
    case Release(id) => ReleaseInv(s, id);
  }

  // --- runs ---

  /** The state after a run; steps that are not enabled do not happen. */
  function Run(events: seq<Event>): State {
    if events == [] then Init() else
      var s := Run(events[..|events| - 1]);
      var e := events[|events| - 1];
      if Enabled(s, e) then Next(s, e) else s
  }

  lemma {:induction false} RunInv(events: seq<Event>)
    ensures Inv(Run(events))
  {
    if events == [] {
      InitInv();
    } else {
      var s, e := Run(events[..|events| - 1]), events[|events| - 1];
      RunInv(events[..|events| - 1]);
      if Enabled(s, e) {
        NextInv(s, e);
      }
    }
  }

  // --- main results ---

  /** One step of the queue of a key: enqueue at the back, release from the front, nothing else. */
  function QueueAfter(queue: seq<nat>, s: State, e: Event, key: string): seq<nat>
    requires Enabled(s, e)
  {
    if e.Enqueue? && e.key == key then queue + [|s.promises|]
    else if e.Release? && s.promises[e.id].key == key && queue != [] then queue[1..]
    else queue
  }

  /** The promise chain is a queue per key, and every step of a job is a step of its queue's head. */
  lemma {:induction false} RefinesQueues(s: State, e: Event, key: string)
    requires Inv(s) && Enabled(s, e)
    ensures Queue(Next(s, e), key) == QueueAfter(Queue(s, key), s, e, key)
    ensures !e.Enqueue? ==>
      var queue := Queue(s, s.promises[e.id].key);
      queue != [] && queue[0] == e.id
  {
    if e.Enqueue? {
      SelectAppend(s.promises, Promise(e.key, Lookup(s.jobs, e.key), Waiting), key, Unfinished);
    } else {
      ActiveMeansFirst(s, e);
      var own, p := s.promises[e.id].key, s.promises[e.id];
      SelectHead(s.promises, e.id, Promise(own, p.previous, Released(true)), own, Unfinished);
      var moved := Next(s, e).promises[e.id];
      if e.Release? && own == key {
        SelectHead(s.promises, e.id, moved, key, Unfinished);
      } else {
        SelectSame(s.promises, e.id, moved, key, Unfinished);
      }
    }
  }

  /** The head of a non-empty queue can always take its next step, whatever the other keys do. */
  lemma {:induction false} HeadCanMove(s: State, key: string) returns (e: Event)
    requires Inv(s) && Queue(s, key) != []
    ensures !e.Enqueue? && e.id == Queue(s, key)[0] && Enabled(s, e)
  {
    var id := Queue(s, key)[0];
    SelectMember(s.promises, key, Unfinished, id);
    var p := s.promises[id];
    assert Linked(s.promises, id);
    match p.phase
    case Running => e := Settle(id, true);
    case Settled(_) => e := Release(id);
    case Waiting =>
      e := Start(id);
      if p.previous.Some? && !s.promises[p.previous.value].phase.Released? {
        SelectSorted(s.promises, key, Unfinished, p.previous.value);
        assert false;
      }
    case Released(_) => assert false;
  }

  /** The head of a list is its least member. */
  lemma {:induction false} SelectSorted(promises: seq<Promise>, key: string, which: Which, i: nat)
    requires i < |promises| && Keeps(promises[i], key, which)
    ensures Select(promises, key, which) != [] && Select(promises, key, which)[0] <= i
  {
    var n := |promises| - 1;
    if i < n {
      SelectSorted(promises[..n], key, which, i);
    } else if Select(promises[..n], key, which) != [] {
      SelectMember(promises[..n], key, which, Select(promises[..n], key, which)[0]);
    }
  }

  /** In every run at most one job of a key is between its start and its release. */
  lemma {:induction false} OneAtATime(events: seq<Event>, i: nat, j: nat)
    requires
      var promises := Run(events).promises;
      && i < |promises| && j < |promises| && promises[i].key == promises[j].key
      && (promises[i].phase.Running? || promises[i].phase.Settled?)
      && (promises[j].phase.Running? || promises[j].phase.Settled?)
    ensures i == j
  {
    RunInv(events);
    var promises := Run(events).promises;
    assert Serial(promises, i) && Serial(promises, j);
  }

  /**
   * In every run the jobs of a key are started in the order they were enqueued, each once, whether
   * or not earlier ones failed: the started ones followed by the waiting ones are all of them.
   */
  lemma {:induction false} StartedInEnqueueOrder(events: seq<Event>, key: string)
    ensures
      var s := Run(events);
      StartedOf(s, key) + Select(s.promises, key, NotStarted) == Select(s.promises, key, Every)
  {
    RunInv(events);
  }

  /** In every run the map holds a key exactly while it has unfinished jobs, with the last of them. */
  lemma {:induction false} MapHoldsUnfinishedKeys(events: seq<Event>, key: string)
    ensures
      var s := Run(events);
      && (key in s.jobs <==> Queue(s, key) != [])
      && (key in s.jobs ==> Queue(s, key)[|Queue(s, key)| - 1] == s.jobs[key])
  {
    RunInv(events);
    var s := Run(events);
    assert LastOf(s.promises, s.jobs, key);
    if key in s.jobs {
      SelectLast(s.promises, key, s.jobs[key]);
    } else {
      SelectNone(s.promises, key, Unfinished);
    }
  }

  lemma {:induction false} SelectLast(promises: seq<Promise>, key: string, i: nat)
    requires i < |promises| && Keeps(promises[i], key, Unfinished) && NoneOfKey(promises, key, i + 1, |promises|)
    ensures
      var queue := Select(promises, key, Unfinished);
      queue != [] && queue[|queue| - 1] == i
  {
    if i < |promises| - 1 {
      SelectLast(promises[..|promises| - 1], key, i);
    }
  }

  // --- the source's class ---

  /** The queue with its map; the steps of its promises are taken by the event loop. */
  class ThreadQueue {
    var promises: seq<Promise>
    var jobs: map<string, nat>
    ghost var started: seq<nat>

    ghost function View(): State
      reads this
    {
      State(promises, jobs, started)
    }

    /** Promises of a key are chained in order, one at a time, and the map holds the last unfinished one. */
    ghost predicate Valid()
      reads this
    {
      Inv(View())
    }

    constructor ()
      ensures Valid() && View() == Init()
    {
      promises, jobs, started := [], map[], [];
      InitInv();
    }

    /** `enqueue`: chain the job to the key's last promise and remember the new one. */
    method Add(key: string)
      requires Valid()
      modifies this
      ensures Valid() && View() == Next(old(View()), Enqueue(key))
    {
      EnqueueInv(View(), key);
      hide Inv;
      var previous := if key in jobs then Some(jobs[key]) else None;
      var current := |promises|;
      promises := promises + [Promise(key, previous, Waiting)];
      jobs := jobs[key := current];
    }

    /** The chained job begins. */
    method Begin(id: nat)
      requires Valid()
      requires Enabled(View(), Start(id))
      modifies this
      ensures Valid() && View() == Next(old(View()), Start(id))
    {
      StartInv(View(), id);
      hide Inv;
      promises := Moved(promises, id, Running);
      started := started + [id];
    }

    /** The job's own promise resolves or rejects. */
    method Finish(id: nat, ok: bool)
      requires Valid()
      requires Enabled(View(), Settle(id, ok))
      modifies this
      ensures Valid() && View() == Next(old(View()), Settle(id, ok))
    {
      SettleInv(View(), id, ok);
      hide Inv;
      promises := Moved(promises, id, Settled(ok));
    }

    /** The finally callback. */
    method Cleanup(id: nat)
      requires Valid()
      requires Enabled(View(), Release(id))
      modifies this
      ensures Valid() && View() == Next(old(View()), Release(id))
    {
      ReleaseInv(View(), id);
      hide Inv;
      var key := promises[id].key;
      if key in jobs && jobs[key] == id {
        jobs := jobs - {key};
      }
      promises := Moved(promises, id, Released(promises[id].phase.ok));
    }
  }
}
