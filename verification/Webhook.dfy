/** Receiving and processing issue webhooks as steps over the delivery ledger and the serial queue. */
module Webhook {
  import opened Prelude
  import opened WebhookLedger

  /** What a delivery id always carries: an issue-created event with its names, or something else. */
  datatype Delivery = Delivery(isIssue: bool, issueId: string, identifier: string)

  type Source = string -> Delivery

  /** What looking the issue up gives. */
  datatype Lookup = Unavailable | OutsideTeam | InsideTeam

  /** How the handler ends: with a status and the issues it created, or with an exception. */
  datatype Result = Returned(status: Status, created: seq<string>) | Threw

  datatype Phase = Idle | Handling | Notifying

  /** A job taken off the queue, whether its issue was handled, and the created issues it recorded. */
  datatype Record = Record(id: string, handled: bool, created: seq<string>)

  /**
   * The saved ledger, the deliveries waiting in the queue, what the current job (the last of the
   * history) is doing, all jobs taken so far, and all deliveries ever queued.
   */
  datatype State = State(ledger: Ledger, queue: seq<string>, phase: Phase, history: seq<Record>,
                         accepted: seq<string>)

  datatype Event =
    | ReceiveIssue(id: string, now: int)
    | ReceiveOther(id: string, now: int)
    | Begin(lookup: Lookup, now: int)
    | Finish(result: Result, now: int)
    | Notified(ok: bool, now: int)

  function Init(): State {
    State([], [], Idle, [], [])
  }

  function Names(source: Source, id: string): set<string> {
    {source(id).issueId, source(id).identifier}
  }

  function Fresh(source: Source, id: string, status: Status, now: int): Entry {
    Entry(id, source(id).issueId, source(id).identifier, now, status, [])
  }

  /** The record of a webhook that is not about a new issue. */
  function Unsupported(id: string, now: int): Entry {
    Entry(id, "unknown", "unknown", now, IgnoredUnsupported, [])
  }

  predicate Enabled(source: Source, s: State, e: Event) {
    match e
    case ReceiveIssue(id, _) => source(id).isIssue
    case ReceiveOther(id, _) => !source(id).isIssue
    case Begin(_, _) => s.phase.Idle? && s.queue != []
    case Finish(result, _) =>
      && s.phase.Handling? && s.history != []
      && (result.Returned? ==> result.status in {Noop, Committed, Failed})
    case Notified(_, _) => s.phase.Notifying? && s.history != []
  }

  /** The delivery whose job is running, or is taken by this step. */
  function Current(s: State, e: Event): Option<string> {
    match e
    case ReceiveIssue(_, _) => None
    case ReceiveOther(_, _) => None
    case Begin(_, _) => if s.queue != [] then Some(s.queue[0]) else None
    case _ => if s.history != [] then Some(s.history[|s.history| - 1].id) else None
  }

  // --- the ledger after a step ---

  /** A new delivery is recorded; a repeated one is marked only while it is still waiting or running. */
  function LedgerOnIssue(source: Source, ledger: Ledger, id: string, now: int): Ledger {
    match Find(ledger, id)
    case None => Trim(Upsert(ledger, Fresh(source, id, Received, now)), now)
    case Some(entry) =>
      if entry.status.Received? then Trim(Update(ledger, id, IgnoredDuplicate, None), now) else ledger
  }

  /** Loop prevention comes before looking the issue up. */
  function LedgerOnBegin(source: Source, ledger: Ledger, id: string, lookup: Lookup, now: int): Ledger {
    if IsLooped(ledger, Names(source, id)) then Trim(Update(ledger, id, IgnoredLoop, None), now)
    else match lookup
      case Unavailable => Trim(Update(ledger, id, Failed, None), now)
      case OutsideTeam => Trim(Update(ledger, id, IgnoredUnsupported, None), now)
      case InsideTeam => ledger
  }

  function LedgerOnFinish(ledger: Ledger, id: string, result: Result, now: int): Ledger {
    match result
    case Returned(status, created) => Trim(Update(ledger, id, status, Some(created)), now)
    case Threw => Trim(Update(ledger, id, Failed, None), now)
  }

  function LedgerOnNotified(ledger: Ledger, id: string, ok: bool, now: int): Ledger {
    if ok then ledger else Trim(Update(ledger, id, Failed, None), now)
  }

  function LedgerAfter(source: Source, s: State, e: Event): Ledger
    requires Enabled(source, s, e)
  {
    match e
    case ReceiveIssue(id, now) => LedgerOnIssue(source, s.ledger, id, now)
    case ReceiveOther(id, now) => Trim(Upsert(s.ledger, Unsupported(id, now)), now)
    case Begin(lookup, now) => LedgerOnBegin(source, s.ledger, s.queue[0], lookup, now)
    case Finish(result, now) => LedgerOnFinish(s.ledger, s.history[|s.history| - 1].id, result, now)
    case Notified(ok, now) => LedgerOnNotified(s.ledger, s.history[|s.history| - 1].id, ok, now)
  }

  predicate Handles(source: Source, ledger: Ledger, id: string, lookup: Lookup) {
    !IsLooped(ledger, Names(source, id)) && lookup.InsideTeam?
  }

  function Next(source: Source, s: State, e: Event): State
    requires Enabled(source, s, e)
  {
    var ledger := LedgerAfter(source, s, e);
    match e
    case ReceiveIssue(id, _) =>
      if Find(s.ledger, id).None? then State(ledger, s.queue + [id], s.phase, s.history, s.accepted + [id])
      else State(ledger, s.queue, s.phase, s.history, s.accepted)
    case ReceiveOther(_, _) => State(ledger, s.queue, s.phase, s.history, s.accepted)
    case Begin(lookup, _) =>
      var handled := Handles(source, s.ledger, s.queue[0], lookup);
      State(ledger, s.queue[1..], if handled then Handling else Idle,
            s.history + [Record(s.queue[0], handled, [])], s.accepted)
    case Finish(result, _) =>
      var n := |s.history| - 1;
      var created := if result.Returned? then result.created else [];
      var phase := if result.Returned? && !result.status.Noop? then Notifying else Idle;
      State(ledger, s.queue, phase, s.history[n := Record(s.history[n].id, s.history[n].handled, created)], s.accepted)
    case Notified(_, _) => State(ledger, s.queue, Idle, s.history, s.accepted)
  }

  /** The state after a run; steps that are not enabled do not happen. */
  function Run(source: Source, events: seq<Event>): State {
    if events == [] then Init() else
      var s := Run(source, events[..|events| - 1]);
      var e := events[|events| - 1];
      if Enabled(source, s, e) then Next(source, s, e) else s
  }

  // --- retention ---

  /** A save of this step removes the delivery's entry. */
  predicate Drops(source: Source, s: State, e: Event, id: string) {
    && Enabled(source, s, e)
    && Find(LedgerAfter(source, s, e), id).None?
    && (Find(s.ledger, id).Some? || (e.ReceiveIssue? && e.id == id))
  }

  /** No save of the run removes the delivery's entry. */
  predicate Retained(source: Source, events: seq<Event>, id: string) {
    events == [] ||
    (var before := events[..|events| - 1];
     Retained(source, before, id) && !Drops(source, Run(source, before), events[|events| - 1], id))
  }

  // --- what holds in every run ---

  function RecordIds(history: seq<Record>): seq<string> {
    seq(|history|, i requires 0 <= i < |history| => history[i].id)
  }

  /** Ids are unique in the ledger, and jobs are taken in the order they were queued. */
  ghost predicate Ordered(s: State) {
    && UniqueIds(s.ledger)
    && RecordIds(s.history) + s.queue == s.accepted
    && (!s.phase.Idle? ==> s.history != [] && s.history[|s.history| - 1].handled)
    && (s.phase.Handling? ==> s.history[|s.history| - 1].created == [])
  }

  lemma {:induction false} SavedUnique(ledger: Ledger, now: int, id: string, status: Status,
                                       created: Option<seq<string>>, next: Entry)
    requires UniqueIds(ledger) && next.id == id
    ensures UniqueIds(Trim(Update(ledger, id, status, created), now))
    ensures UniqueIds(Trim(Upsert(ledger, next), now))
  {
    IdsStayUnique(ledger, next, status, created);
    TrimIds(Update(ledger, id, status, created), now);
    TrimIds(Upsert(ledger, next), now);
  }

  lemma {:induction false} LedgerUnique(source: Source, s: State, e: Event)
    requires UniqueIds(s.ledger) && Enabled(source, s, e)
    ensures UniqueIds(LedgerAfter(source, s, e))
  {
    match e
    case ReceiveIssue(id, now) =>
      SavedUnique(s.ledger, now, id, IgnoredDuplicate, None, Fresh(source, id, Received, now));
    case ReceiveOther(id, now) =>
      SavedUnique(s.ledger, now, id, Received, None, Unsupported(id, now));
    case Begin(lookup, now) =>
      var id := s.queue[0];
      SavedUnique(s.ledger, now, id, IgnoredLoop, None, Fresh(source, id, Received, now));
      SavedUnique(s.ledger, now, id, Failed, None, Fresh(source, id, Received, now));
      SavedUnique(s.ledger, now, id, IgnoredUnsupported, None, Fresh(source, id, Received, now));
    case Finish(result, now) =>
      var id := s.history[|s.history| - 1].id;
      var status, created := if result.Returned? then result.status else Failed,
                             if result.Returned? then Some(result.created) else None;
      SavedUnique(s.ledger, now, id, status, created, Fresh(source, id, Received, now));
    case Notified(ok, now) =>
      var id := s.history[|s.history| - 1].id;
      SavedUnique(s.ledger, now, id, Failed, None, Fresh(source, id, Received, now));
  }

  lemma {:induction false} BeginOrdered(source: Source, s: State, lookup: Lookup, now: int)
    requires Ordered(s) && Enabled(source, s, Begin(lookup, now))
    ensures Ordered(Next(source, s, Begin(lookup, now)))
  {
    LedgerUnique(source, s, Begin(lookup, now));
    hide LedgerAfter, UniqueIds, Handles;
    var t := Next(source, s, Begin(lookup, now));
    assert RecordIds(t.history) == RecordIds(s.history) + [s.queue[0]];
    assert RecordIds(s.history) + [s.queue[0]] + s.queue[1..] == RecordIds(s.history) + s.queue;
  }

  lemma {:induction false} FinishOrdered(source: Source, s: State, result: Result, now: int)
    requires Ordered(s) && Enabled(source, s, Finish(result, now))
    ensures Ordered(Next(source, s, Finish(result, now)))
  {
    LedgerUnique(source, s, Finish(result, now));
    hide LedgerAfter, UniqueIds;
    var t := Next(source, s, Finish(result, now));
    assert RecordIds(t.history) == RecordIds(s.history);
  }

  lemma {:induction false} ReceiveOrdered(source: Source, s: State, e: Event)
    requires Ordered(s) && Enabled(source, s, e) && !e.Begin? && !e.Finish?
    ensures Ordered(Next(source, s, e))
  {
    LedgerUnique(source, s, e);
    hide LedgerAfter, UniqueIds;
    if e.ReceiveIssue? {
      assert RecordIds(s.history) + (s.queue + [e.id]) == RecordIds(s.history) + s.queue + [e.id];
    }
  }

  lemma {:induction false} NextOrdered(source: Source, s: State, e: Event)
    requires Ordered(s) && Enabled(source, s, e)
    ensures Ordered(Next(source, s, e))
  {
    hide Ordered, LedgerAfter;
    match e
    case Begin(lookup, now) => BeginOrdered(source, s, lookup, now);
    case Finish(result, now) => FinishOrdered(source, s, result, now);
    case _ => ReceiveOrdered(source, s, e);
  }

  /** In every run delivery ids are unique in the ledger and jobs run in arrival order. */
  lemma {:induction false} RunOrdered(source: Source, events: seq<Event>)
    ensures Ordered(Run(source, events))
  {
    if events != [] {
      var before := events[..|events| - 1];
      RunOrdered(source, before);
      if Enabled(source, Run(source, before), events[|events| - 1]) {
        NextOrdered(source, Run(source, before), events[|events| - 1]);
      }
    }
  }

  // --- the entry of one issue delivery over a step ---

  /** The created issues a step records for the delivery. */
  function CreatedAfter(s: State, e: Event, id: string, created: seq<string>): seq<string> {
    if e.Finish? && e.result.Returned? && Current(s, e) == Some(id) then e.result.created else created
  }

  lemma {:induction false} UpdateSaved(ledger: Ledger, d: string, status: Status, created: Option<seq<string>>,
                                       now: int, id: string)
    requires UniqueIds(ledger) && Find(Trim(Update(ledger, d, status, created), now), id).Some?
    ensures Find(ledger, id).Some?
    ensures Find(Trim(Update(ledger, d, status, created), now), id).value
         == if id == d then Patched(Find(ledger, id).value, status, created) else Find(ledger, id).value
  {
    UpdateIds(ledger, d, status, created);
    UniqueKept(ledger, Update(ledger, d, status, created));
    FindTrim(Update(ledger, d, status, created), now, id);
    FindUpdate(ledger, d, status, created, id);
  }

  lemma {:induction false} UpsertSaved(ledger: Ledger, next: Entry, now: int, id: string)
    requires UniqueIds(ledger) && Find(Trim(Upsert(ledger, next), now), id).Some?
    ensures Find(Trim(Upsert(ledger, next), now), id) == if id == next.id then Some(next) else Find(ledger, id)
  {
    IdsStayUnique(ledger, next, Failed, None);
    FindTrim(Upsert(ledger, next), now, id);
    FindUpsert(ledger, next, id);
  }

  /** Unless its entry is dropped, a step changes the recorded issues of a delivery only when its job ends. */
  lemma {:induction false} CreatedKept(source: Source, s: State, e: Event, id: string)
    requires UniqueIds(s.ledger) && Enabled(source, s, e) && source(id).isIssue
    requires Find(s.ledger, id).Some? && Find(LedgerAfter(source, s, e), id).Some?
    ensures Find(LedgerAfter(source, s, e), id).value.created
         == CreatedAfter(s, e, id, Find(s.ledger, id).value.created)
  {
    match e
    case ReceiveIssue(d, now) =>
      if Find(s.ledger, d).None? {
        UpsertSaved(s.ledger, Fresh(source, d, Received, now), now, id);
      } else if Find(s.ledger, d).value.status.Received? {
        UpdateSaved(s.ledger, d, IgnoredDuplicate, None, now, id);
      }
    case ReceiveOther(d, now) =>
      UpsertSaved(s.ledger, Unsupported(d, now), now, id);
    case Begin(lookup, now) =>
      if IsLooped(s.ledger, Names(source, s.queue[0])) {
        UpdateSaved(s.ledger, s.queue[0], IgnoredLoop, None, now, id);
      } else if !lookup.InsideTeam? {
        UpdateSaved(s.ledger, s.queue[0], if lookup.OutsideTeam? then IgnoredUnsupported else Failed, None, now, id);
      }
    case Finish(result, now) =>
      var d := s.history[|s.history| - 1].id;
      if result.Returned? {
        UpdateSaved(s.ledger, d, result.status, Some(result.created), now, id);
      } else {
        UpdateSaved(s.ledger, d, Failed, None, now, id);
      }
    case Notified(ok, now) =>
      if !ok {
        UpdateSaved(s.ledger, s.history[|s.history| - 1].id, Failed, None, now, id);
      }
  }

  // --- at most once, and loop prevention ---

  ghost predicate Once(ids: seq<string>, id: string) {
    forall i, j :: 0 <= i < j < |ids| && ids[i] == id ==> ids[j] != id
  }

  /** A delivery that was queued is in the ledger, and it was queued once. */
  ghost predicate Known(s: State, id: string) {
    && (id in s.accepted ==> Find(s.ledger, id).Some?)
    && Once(s.accepted, id)
  }

  lemma {:induction false} NextKnown(source: Source, s: State, e: Event, id: string)
    requires Ordered(s) && Known(s, id) && Enabled(source, s, e) && !Drops(source, s, e, id)
    ensures Known(Next(source, s, e), id)
  {
  }

  lemma {:induction false} RunKnown(source: Source, events: seq<Event>, id: string)
    requires Retained(source, events, id)
    ensures Known(Run(source, events), id)
  {
    if events != [] {
      var before := events[..|events| - 1];
      RunKnown(source, before, id);
      RunOrdered(source, before);
      if Enabled(source, Run(source, before), events[|events| - 1]) {
        NextKnown(source, Run(source, before), events[|events| - 1], id);
      }
    }
  }

  /** The ledger holds what the delivery's job recorded; a job not begun has recorded nothing. */
  ghost predicate Recorded(s: State, id: string) {
    && (id in s.queue ==> Find(s.ledger, id).Some? && Find(s.ledger, id).value.created == [])
    && (forall i :: 0 <= i < |s.history| && s.history[i].id == id ==>
         Find(s.ledger, id).Some? && Find(s.ledger, id).value.created == s.history[i].created)
  }

  /** No issue recorded as created by the delivery is handled by a later job. */
  ghost predicate NoLoop(source: Source, history: seq<Record>, id: string) {
    forall i, j :: 0 <= i < j < |history| && history[i].id == id && history[j].handled ==>
      forall k :: 0 <= k < |history[i].created| ==> history[i].created[k] !in Names(source, history[j].id)
  }

  lemma {:induction false} QueuedOnce(s: State, id: string)
    requires Ordered(s) && Known(s, id)
    ensures Once(RecordIds(s.history), id)
    ensures id in s.queue ==> id !in RecordIds(s.history)
    ensures s.queue != [] && s.queue[0] == id ==> id !in s.queue[1..]
    ensures forall i :: 0 <= i < |s.history| && s.history[i].id == id ==> id in s.accepted
  {
    var n := |s.history|;
    assert forall i :: 0 <= i < n ==> s.accepted[i] == RecordIds(s.history)[i] == s.history[i].id;
    assert forall i :: 0 <= i < |s.queue| ==> s.accepted[n + i] == s.queue[i];
  }

  lemma {:induction false} NextRecorded(source: Source, s: State, e: Event, id: string)
    requires Ordered(s) && Known(s, id) && Recorded(s, id) && source(id).isIssue
    requires Enabled(source, s, e) && !Drops(source, s, e, id)
    ensures Recorded(Next(source, s, e), id)
  {
    QueuedOnce(s, id);
    var t := Next(source, s, e);
    if Find(s.ledger, id).Some? {
      CreatedKept(source, s, e, id);
      if e.Finish? {
        LastIsCurrent(s, id);
        assert RecordIds(s.history)[|s.history| - 1] == s.history[|s.history| - 1].id;
      }
    } else if e.ReceiveIssue? && e.id == id {
      UpsertSaved(s.ledger, Fresh(source, id, Received, e.now), e.now, id);
    }
  }

  /** Of a delivery's jobs only the last of the history can be the current one. */
  lemma {:induction false} LastIsCurrent(s: State, id: string)
    requires s.history != [] && Once(RecordIds(s.history), id)
    ensures forall i :: 0 <= i < |s.history| - 1 && s.history[i].id == id ==> s.history[|s.history| - 1].id != id
  {
    assert forall i :: 0 <= i < |s.history| ==> RecordIds(s.history)[i] == s.history[i].id;
  }

  lemma {:induction false} NextNoLoop(source: Source, s: State, e: Event, id: string)
    requires Recorded(s, id) && NoLoop(source, s.history, id) && Enabled(source, s, e)
    ensures NoLoop(source, Next(source, s, e).history, id)
  {
    if e.Begin? {
      var t := Next(source, s, e);
      var n := |s.history|;
      forall i, k | 0 <= i < n && s.history[i].id == id && t.history[n].handled && 0 <= k < |s.history[i].created|
        ensures s.history[i].created[k] !in Names(source, t.history[n].id)
      {
        NotLooped(s.ledger, id, Names(source, s.queue[0]), k);
      }
    }
  }

  lemma {:induction false} NotLooped(ledger: Ledger, id: string, names: set<string>, k: nat)
    requires !IsLooped(ledger, names) && Find(ledger, id).Some? && k < |Find(ledger, id).value.created|
    ensures Find(ledger, id).value.created[k] !in names
  {
    FindIndex(ledger, id);
    var entry := Find(ledger, id).value;
    var i :| 0 <= i < |ledger| && ledger[i] == entry;
    assert ledger[i].created[k] == entry.created[k];
  }

  lemma {:induction false} RunNoLoop(source: Source, events: seq<Event>, id: string)
    requires Retained(source, events, id) && source(id).isIssue
    ensures Recorded(Run(source, events), id) && NoLoop(source, Run(source, events).history, id)
  {
    if events != [] {
      var before := events[..|events| - 1];
      var s, e := Run(source, before), events[|events| - 1];
      RunNoLoop(source, before, id);
      RunOrdered(source, before);
      RunKnown(source, before, id);
      if Enabled(source, s, e) {
        NextRecorded(source, s, e, id);
        NextNoLoop(source, s, e, id);
      }
    }
  }

  // --- main results ---

  /** In every run whose saves keep its entry, a delivery is taken off the queue at most once. */
  lemma {:induction false} ProcessedAtMostOnce(source: Source, events: seq<Event>, id: string)
    requires Retained(source, events, id)
    ensures Once(RecordIds(Run(source, events).history), id)
  {
    RunKnown(source, events, id);
    RunOrdered(source, events);
    QueuedOnce(Run(source, events), id);
  }

  /**
   * In every run whose saves keep the entry of a delivery, no job behind it handles an issue that
   * its job recorded as created, even if that issue's webhook arrived while the job was running.
   */
  lemma {:induction false} CreatedIssuesAreNotHandled(source: Source, events: seq<Event>, i: nat, j: nat, issue: string)
    requires
      var history := Run(source, events).history;
      && i < j < |history| && source(history[i].id).isIssue && Retained(source, events, history[i].id)
      && issue in history[i].created && issue in Names(source, history[j].id)
    ensures !Run(source, events).history[j].handled
  {
    var history := Run(source, events).history;
    RunNoLoop(source, events, history[i].id);
    var k :| 0 <= k < |history[i].created| && history[i].created[k] == issue;
  }

  // --- finished deliveries ---

  predicate IsFinal(status: Status) {
    !status.Received? && !status.IgnoredDuplicate?
  }

  /** The delivery's job has been taken off the queue and is not being handled. */
  ghost predicate Settled(s: State, id: string) {
    && id !in s.queue
    && (s.history != [] && s.history[|s.history| - 1].id == id ==> !s.phase.Handling?)
  }

  /** A delivery with a final status has nothing more to be handled. */
  ghost predicate FinalIsSettled(s: State, id: string) {
    Find(s.ledger, id).Some? && IsFinal(Find(s.ledger, id).value.status) ==> Settled(s, id)
  }

  /** The status a step leaves in the entry of a delivery that it keeps. */
  function StatusAfter(source: Source, s: State, e: Event, id: string, status: Status): Status {
    match e
    case ReceiveIssue(d, _) => if d == id && status.Received? then IgnoredDuplicate else status
    case ReceiveOther(_, _) => status
    case Begin(lookup, _) =>
      if Current(s, e) != Some(id) || Handles(source, s.ledger, id, lookup) then status
      else if IsLooped(s.ledger, Names(source, id)) then IgnoredLoop
      else if lookup.OutsideTeam? then IgnoredUnsupported else Failed
    case Finish(result, _) =>
      if Current(s, e) != Some(id) then status else if result.Returned? then result.status else Failed
    case Notified(ok, _) => if Current(s, e) != Some(id) || ok then status else Failed
  }

  lemma {:induction false} StatusKept(source: Source, s: State, e: Event, id: string)
    requires UniqueIds(s.ledger) && Enabled(source, s, e) && source(id).isIssue
    requires Find(s.ledger, id).Some? && Find(LedgerAfter(source, s, e), id).Some?
    ensures Find(LedgerAfter(source, s, e), id).value.status
         == StatusAfter(source, s, e, id, Find(s.ledger, id).value.status)
  {
    hide UniqueIds, Trim;
    match e
    case ReceiveIssue(d, now) =>
      if Find(s.ledger, d).None? {
        UpsertSaved(s.ledger, Fresh(source, d, Received, now), now, id);
      } else if Find(s.ledger, d).value.status.Received? {
        UpdateSaved(s.ledger, d, IgnoredDuplicate, None, now, id);
      }
    case ReceiveOther(d, now) =>
      UpsertSaved(s.ledger, Unsupported(d, now), now, id);
    case Begin(lookup, now) =>
      if IsLooped(s.ledger, Names(source, s.queue[0])) {
        UpdateSaved(s.ledger, s.queue[0], IgnoredLoop, None, now, id);
      } else if !lookup.InsideTeam? {
        UpdateSaved(s.ledger, s.queue[0], if lookup.OutsideTeam? then IgnoredUnsupported else Failed, None, now, id);
      }
    case Finish(result, now) =>
      var d := s.history[|s.history| - 1].id;
      if result.Returned? {
        UpdateSaved(s.ledger, d, result.status, Some(result.created), now, id);
      } else {
        UpdateSaved(s.ledger, d, Failed, None, now, id);
      }
    case Notified(ok, now) =>
      if !ok {
        UpdateSaved(s.ledger, s.history[|s.history| - 1].id, Failed, None, now, id);
      }
  }

  lemma {:induction false} NextFinalIsSettled(source: Source, s: State, e: Event, id: string)
    requires Ordered(s) && Known(s, id) && FinalIsSettled(s, id) && source(id).isIssue
    requires Enabled(source, s, e) && !Drops(source, s, e, id)
    ensures FinalIsSettled(Next(source, s, e), id)
  {
    hide FinalIsSettled, Known, Ordered, Drops, Next;
    if Find(s.ledger, id).Some? {
      FoundStaysSettled(source, s, e, id);
    } else {
      NewIsUnsettled(source, s, e, id);
    }
  }

  lemma {:induction false} NewIsUnsettled(source: Source, s: State, e: Event, id: string)
    requires Ordered(s) && Known(s, id) && source(id).isIssue && Find(s.ledger, id).None?
    requires Enabled(source, s, e) && !Drops(source, s, e, id)
    ensures FinalIsSettled(Next(source, s, e), id)
  {
    QueuedOnce(s, id);
    if e.ReceiveIssue? && e.id == id {
      UpsertSaved(s.ledger, Fresh(source, id, Received, e.now), e.now, id);
    }
  }

  lemma {:induction false} FoundStaysSettled(source: Source, s: State, e: Event, id: string)
    requires Ordered(s) && Known(s, id) && FinalIsSettled(s, id) && source(id).isIssue
    requires Enabled(source, s, e) && !Drops(source, s, e, id) && Find(s.ledger, id).Some?
    ensures FinalIsSettled(Next(source, s, e), id)
  {
    QueuedOnce(s, id);
    StatusKept(source, s, e, id);
    hide LedgerAfter, Trim, UniqueIds, Known;
    if e.Finish? || e.Notified? {
      assert RecordIds(s.history)[|s.history| - 1] == s.history[|s.history| - 1].id;
    }
  }

  lemma {:induction false} RunFinalIsSettled(source: Source, events: seq<Event>, id: string)
    requires Retained(source, events, id) && source(id).isIssue
    ensures FinalIsSettled(Run(source, events), id)
  {
    if events != [] {
      hide FinalIsSettled, Ordered, Known, Drops, Next;
      var before := events[..|events| - 1];
      var s, e := Run(source, before), events[|events| - 1];
      RunFinalIsSettled(source, before, id);
      RunOrdered(source, before);
      RunKnown(source, before, id);
      if Enabled(source, s, e) {
        NextFinalIsSettled(source, s, e, id);
      }
    }
  }

  /**
   * At any step of a run whose saves keep its entry, the final status of an issue delivery changes exactly
   * when the notification about it fails after something other than a failure was recorded.
   */
  lemma {:induction false} FinalStatusChangesIff(source: Source, before: seq<Event>, e: Event, id: string)
    requires source(id).isIssue && Retained(source, before, id)
    requires Enabled(source, Run(source, before), e) && !Drops(source, Run(source, before), e, id)
    requires var entry := Find(Run(source, before).ledger, id); entry.Some? && IsFinal(entry.value.status)
    ensures
      var s := Run(source, before);
      var status, after := Find(s.ledger, id).value.status, Find(LedgerAfter(source, s, e), id);
      && after.Some?
      && (after.value.status != status
          <==> e.Notified? && !e.ok && Current(s, e) == Some(id) && status != Failed)
  {
    var s := Run(source, before);
    RunOrdered(source, before);
    RunFinalIsSettled(source, before, id);
    StatusKept(source, s, e, id);
    hide LedgerAfter, UniqueIds;
  }
}
