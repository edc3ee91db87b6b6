/**
 What each step of the webhook does to the ledger's entries and to the job, said of the entries one by one,
 and that a job is passed over only for a reason.
 */
module WebhookOutcomes {
  import opened Prelude
  import opened WebhookLedger
  import opened Webhook

  /** Some delivery in the ledger has created the issue. */
  ghost predicate CreatedHere(ledger: Ledger, issue: string) {
    exists i, k :: 0 <= i < |ledger| && 0 <= k < |ledger[i].created| && ledger[i].created[k] == issue
  }

  /** The delivery is about an issue, by its id or its identifier, that a delivery in the ledger has created. */
  ghost predicate AboutCreated(source: Source, ledger: Ledger, id: string) {
    CreatedHere(ledger, source(id).issueId) || CreatedHere(ledger, source(id).identifier)
  }

  /** The entry of one delivery is the given one, or a save has dropped it; all others are as before or dropped. */
  ghost predicate Only(before: Ledger, after: Ledger, id: string, entry: Option<Entry>) {
    && (Find(after, id) == None || Find(after, id) == entry)
    && forall other :: other != id ==> Find(after, other) == None || Find(after, other) == Find(before, other)
  }

  lemma {:induction false} LoopedIff(source: Source, ledger: Ledger, id: string)
    ensures IsLooped(ledger, Names(source, id)) <==> AboutCreated(source, ledger, id)
  {
    if IsLooped(ledger, Names(source, id)) {
      var i, k :| 0 <= i < |ledger| && 0 <= k < |ledger[i].created| && ledger[i].created[k] in Names(source, id);
      assert CreatedHere(ledger, ledger[i].created[k]);
    }
  }

  lemma {:induction false} UpdateOnly(ledger: Ledger, id: string, status: Status, created: Option<seq<string>>, now: int)
    requires UniqueIds(ledger) && Find(ledger, id).Some?
    ensures Only(ledger, Trim(Update(ledger, id, status, created), now), id,
                 Some(Find(ledger, id).value.(status := status, created := created.GetOr(Find(ledger, id).value.created))))
  {
    var saved := Trim(Update(ledger, id, status, created), now);
    forall other ensures Find(saved, other).Some? ==>
      Find(saved, other) == if other == id then Some(Patched(Find(ledger, id).value, status, created)) else Find(ledger, other)
    {
      if Find(saved, other).Some? {
        UpdateSaved(ledger, id, status, created, now, other);
      }
    }
  }

  lemma {:induction false} UpdateNone(ledger: Ledger, id: string, status: Status, created: Option<seq<string>>, now: int)
    requires UniqueIds(ledger) && Find(ledger, id).None?
    ensures Only(ledger, Trim(Update(ledger, id, status, created), now), id, None)
  {
    var saved := Trim(Update(ledger, id, status, created), now);
    forall other ensures Find(saved, other).Some? ==> other != id && Find(saved, other) == Find(ledger, other) {
      if Find(saved, other).Some? {
        UpdateSaved(ledger, id, status, created, now, other);
      }
    }
  }

  lemma {:induction false} UpsertOnly(ledger: Ledger, next: Entry, now: int)
    requires UniqueIds(ledger)
    ensures Only(ledger, Trim(Upsert(ledger, next), now), next.id, Some(next))
  {
    var saved := Trim(Upsert(ledger, next), now);
    forall other ensures Find(saved, other).Some? ==>
      Find(saved, other) == if other == next.id then Some(next) else Find(ledger, other)
    {
      if Find(saved, other).Some? {
        UpsertSaved(ledger, next, now, other);
      }
    }
  }

  /** A delivery's entry with another status, if it has an entry. */
  function Marked(entry: Option<Entry>, status: Status): Option<Entry> {
    if entry.Some? then Some(entry.value.(status := status)) else None
  }

  lemma {:induction false} SavedMark(ledger: Ledger, id: string, status: Status, now: int)
    requires UniqueIds(ledger)
    ensures Only(ledger, Trim(Update(ledger, id, status, None), now), id, Marked(Find(ledger, id), status))
  {
    if Find(ledger, id).Some? {
      UpdateOnly(ledger, id, status, None, now);
    } else {
      UpdateNone(ledger, id, status, None, now);
    }
    hide Only, UniqueIds, Trim, Update, Find;
  }

  // --- webhooks ---

  /** A webhook about a new issue is recorded and queued if its delivery is not in the ledger. A repeated one
      queues nothing; it is marked while the first one has not been decided. */
  lemma {:induction false} IssueReceived(source: Source, events: seq<Event>, id: string, now: int)
    requires source(id).isIssue
    ensures
      var s, t := Run(source, events), Run(source, events + [ReceiveIssue(id, now)]);
      && t.phase == s.phase && t.history == s.history
      && (Find(s.ledger, id) == None ==>
           && t.queue == s.queue + [id]
           && Only(s.ledger, t.ledger, id, Some(Entry(id, source(id).issueId, source(id).identifier, now, Received, []))))
      && (Find(s.ledger, id) != None ==>
           && t.queue == s.queue
           && (Find(s.ledger, id).value.status == Received ==>
                Only(s.ledger, t.ledger, id, Some(Find(s.ledger, id).value.(status := IgnoredDuplicate))))
           && (Find(s.ledger, id).value.status != Received ==> t.ledger == s.ledger))
  {
    var s := Run(source, events);
    RunOrdered(source, events);
    assert (events + [ReceiveIssue(id, now)])[..|events|] == events;
    if Find(s.ledger, id).None? {
      UpsertOnly(s.ledger, Fresh(source, id, Received, now), now);
    } else {
      SavedMark(s.ledger, id, IgnoredDuplicate, now);
    }
    hide Trim, Update, Upsert, UniqueIds, Only, Find;
  }

  /** Any other webhook is only recorded. */
  lemma {:induction false} OtherReceived(source: Source, events: seq<Event>, id: string, now: int)
    requires !source(id).isIssue
    ensures
      var s, t := Run(source, events), Run(source, events + [ReceiveOther(id, now)]);
      && t == s.(ledger := t.ledger)
      && Only(s.ledger, t.ledger, id, Some(Entry(id, "unknown", "unknown", now, IgnoredUnsupported, [])))
  {
    var s := Run(source, events);
    RunOrdered(source, events);
    assert (events + [ReceiveOther(id, now)])[..|events|] == events;
    UpsertOnly(s.ledger, Unsupported(id, now), now);
    hide Trim, Upsert, UniqueIds, Only;
  }

  // --- the job ---

  /** In every run the next job is that of the next accepted delivery. Its issue is handled if and only if it can
      be looked up, belongs to the team, and no delivery in the ledger has created it. Otherwise the entry says
      why: it was created here, lies outside the team, or could not be looked up. */
  lemma {:induction false} JobBegins(source: Source, events: seq<Event>, lookup: Lookup, now: int)
    requires Enabled(source, Run(source, events), Begin(lookup, now))
    ensures
      var s, t := Run(source, events), Run(source, events + [Begin(lookup, now)]);
      var id, created := s.queue[0], AboutCreated(source, s.ledger, s.queue[0]);
      var handled := lookup.InsideTeam? && !created;
      && |s.history| < |s.accepted| && id == s.accepted[|s.history|]
      && t.accepted == s.accepted && t.queue == s.queue[1..] && t.history == s.history + [Record(id, handled, [])]
      && t.phase == (if handled then Handling else Idle)
      && (handled ==> t.ledger == s.ledger)
      && (!handled ==> Only(s.ledger, t.ledger, id,
                            Marked(Find(s.ledger, id), if created then IgnoredLoop
                                                       else if lookup.OutsideTeam? then IgnoredUnsupported else Failed)))
  {
    var s := Run(source, events);
    var id := s.queue[0];
    RunOrdered(source, events);
    assert (events + [Begin(lookup, now)])[..|events|] == events;
    assert s.accepted[|RecordIds(s.history)|] == s.queue[0];
    LoopedIff(source, s.ledger, id);
    SavedMark(s.ledger, id, IgnoredLoop, now);
    SavedMark(s.ledger, id, IgnoredUnsupported, now);
    SavedMark(s.ledger, id, Failed, now);
    hide Trim, Update, UniqueIds, Only, Find, IsLooped, Names, AboutCreated;
  }

  /** When the handler ends, the job's record and the entry of its delivery say what it created and how it ended;
      the control room is told unless there was nothing to do or it threw. */
  lemma {:induction false} JobEnds(source: Source, events: seq<Event>, result: Result, now: int)
    requires Enabled(source, Run(source, events), Finish(result, now))
    ensures
      var s, t := Run(source, events), Run(source, events + [Finish(result, now)]);
      var n := |s.history| - 1;
      var id, entry := s.history[n].id, Find(s.ledger, s.history[n].id);
      && t.queue == s.queue && t.accepted == s.accepted
      && (result.Threw? ==>
           && t.phase == Idle && t.history == s.history
           && Only(s.ledger, t.ledger, id, Marked(entry, Failed)))
      && (result.Returned? ==>
           && t.phase == (if result.status == Noop then Idle else Notifying)
           && t.history == s.history[n := Record(id, true, result.created)]
           && Only(s.ledger, t.ledger, id,
                   if entry.Some? then Some(entry.value.(status := result.status, created := result.created)) else None))
  {
    var s := Run(source, events);
    var id := s.history[|s.history| - 1].id;
    RunOrdered(source, events);
    assert (events + [Finish(result, now)])[..|events|] == events;
    if result.Threw? {
      SavedMark(s.ledger, id, Failed, now);
    } else if Find(s.ledger, id).Some? {
      UpdateOnly(s.ledger, id, result.status, Some(result.created), now);
    } else {
      UpdateNone(s.ledger, id, result.status, Some(result.created), now);
    }
    hide Trim, Update, UniqueIds, Only, Find;
  }

  /** Telling the control room changes nothing; if it fails, the delivery is marked as failed. */
  lemma {:induction false} JobNotified(source: Source, events: seq<Event>, ok: bool, now: int)
    requires Enabled(source, Run(source, events), Notified(ok, now))
    ensures
      var s, t := Run(source, events), Run(source, events + [Notified(ok, now)]);
      var id := s.history[|s.history| - 1].id;
      && t == s.(phase := Idle, ledger := t.ledger)
      && (ok ==> t.ledger == s.ledger)
      && (!ok ==> Only(s.ledger, t.ledger, id, Marked(Find(s.ledger, id), Failed)))
  {
    var s := Run(source, events);
    RunOrdered(source, events);
    assert (events + [Notified(ok, now)])[..|events|] == events;
    SavedMark(s.ledger, s.history[|s.history| - 1].id, Failed, now);
    hide Trim, Update, UniqueIds, Only, Find;
  }

  // --- nothing is passed over without a reason ---

  /** What an entry says was created, a job of its delivery has recorded. */
  ghost predicate CreatedByJobs(ledger: Ledger, history: seq<Record>) {
    forall id :: Find(ledger, id).Some? && Find(ledger, id).value.created != [] ==> ByJob(ledger, history, id)
  }

  ghost predicate ByJob(ledger: Ledger, history: seq<Record>, id: string)
    requires Find(ledger, id).Some?
  {
    exists i :: 0 <= i < |history| && history[i].id == id && history[i].created == Find(ledger, id).value.created
  }

  /** A step that changes one entry: its created issues are those of some job's record. */
  lemma {:induction false} OnlyByJobs(before: Ledger, after: Ledger, id: string, entry: Option<Entry>,
                                      history: seq<Record>, later: seq<Record>)
    requires CreatedByJobs(before, history) && Only(before, after, id, entry)
    requires forall i :: 0 <= i < |history| && history[i].created != [] ==> i < |later| && later[i] == history[i]
    requires entry.Some? && entry.value.created != [] ==>
      exists i :: 0 <= i < |later| && later[i].id == id && later[i].created == entry.value.created
    ensures CreatedByJobs(after, later)
  {
    forall other | Find(after, other).Some? && Find(after, other).value.created != []
      ensures ByJob(after, later, other)
    {
      if other != id {
        assert ByJob(before, history, other);
        var i :| 0 <= i < |history| && history[i].id == other && history[i].created == Find(before, other).value.created;
        assert later[i] == history[i];
      }
    }
  }

  /** A step that marks an entry records no created issue. */
  lemma {:induction false} MarkByJobs(before: Ledger, after: Ledger, id: string, status: Status,
                                      history: seq<Record>, later: seq<Record>)
    requires CreatedByJobs(before, history) && Only(before, after, id, Marked(Find(before, id), status))
    requires history <= later
    ensures CreatedByJobs(after, later)
  {
    var entry := Marked(Find(before, id), status);
    if entry.Some? && entry.value.created != [] {
      assert ByJob(before, history, id);
      var i :| 0 <= i < |history| && history[i].id == id && history[i].created == Find(before, id).value.created;
      assert later[i] == history[i];
    }
    OnlyByJobs(before, after, id, entry, history, later);
  }

  lemma {:induction false} SameByJobs(ledger: Ledger, history: seq<Record>, later: seq<Record>)
    requires CreatedByJobs(ledger, history) && history <= later
    ensures CreatedByJobs(ledger, later)
  {
    forall id | Find(ledger, id).Some? && Find(ledger, id).value.created != [] ensures ByJob(ledger, later, id) {
      assert ByJob(ledger, history, id);
      var i :| 0 <= i < |history| && history[i].id == id && history[i].created == Find(ledger, id).value.created;
      assert later[i] == history[i];
    }
  }

  lemma {:induction false} ReceivedByJobs(source: Source, events: seq<Event>, e: Event)
    requires Enabled(source, Run(source, events), e) && (e.ReceiveIssue? || e.ReceiveOther?)
    requires var s := Run(source, events); CreatedByJobs(s.ledger, s.history)
    ensures var t := Run(source, events + [e]); CreatedByJobs(t.ledger, t.history)
  {
    var s, t := Run(source, events), Run(source, events + [e]);
    hide CreatedByJobs, Only, Run, Find;
    if e.ReceiveOther? {
      OtherReceived(source, events, e.id, e.now);
      OnlyByJobs(s.ledger, t.ledger, e.id, Some(Unsupported(e.id, e.now)), s.history, t.history);
    } else {
      IssueReceived(source, events, e.id, e.now);
      if Find(s.ledger, e.id) == None {
        OnlyByJobs(s.ledger, t.ledger, e.id, Some(Fresh(source, e.id, Received, e.now)), s.history, t.history);
      } else if Find(s.ledger, e.id).value.status == Received {
        MarkByJobs(s.ledger, t.ledger, e.id, IgnoredDuplicate, s.history, t.history);
      }
    }
  }

  lemma {:induction false} JobByJobs(source: Source, events: seq<Event>, e: Event)
    requires Enabled(source, Run(source, events), e) && (e.Begin? || e.Notified?)
    requires var s := Run(source, events); CreatedByJobs(s.ledger, s.history)
    ensures var t := Run(source, events + [e]); CreatedByJobs(t.ledger, t.history)
  {
    var s, t := Run(source, events), Run(source, events + [e]);
    hide CreatedByJobs, Only, Run, Find, AboutCreated, Marked;
    if e.Begin? {
      JobBegins(source, events, e.lookup, e.now);
      var created := AboutCreated(source, s.ledger, s.queue[0]);
      var status := if created then IgnoredLoop else if e.lookup.OutsideTeam? then IgnoredUnsupported else Failed;
      if e.lookup.InsideTeam? && !created {
        SameByJobs(s.ledger, s.history, t.history);
      } else {
        MarkByJobs(s.ledger, t.ledger, s.queue[0], status, s.history, t.history);
      }
    } else {
      JobNotified(source, events, e.ok, e.now);
      if !e.ok {
        MarkByJobs(s.ledger, t.ledger, s.history[|s.history| - 1].id, Failed, s.history, t.history);
      }
    }
  }

  lemma {:induction false} EndByJobs(source: Source, events: seq<Event>, result: Result, now: int)
    requires Enabled(source, Run(source, events), Finish(result, now))
    requires var s := Run(source, events); CreatedByJobs(s.ledger, s.history)
    ensures var t := Run(source, events + [Finish(result, now)]); CreatedByJobs(t.ledger, t.history)
  {
    var s, t := Run(source, events), Run(source, events + [Finish(result, now)]);
    var n := |s.history| - 1;
    var id, entry := s.history[n].id, Find(s.ledger, s.history[n].id);
    RunOrdered(source, events);
    assert s.history[n].created == [];
    JobEnds(source, events, result, now);
    hide CreatedByJobs, Only, Run, Find;
    if result.Threw? {
      MarkByJobs(s.ledger, t.ledger, id, Failed, s.history, t.history);
    } else {
      assert t.history[n].id == id && t.history[n].created == result.created;
      OnlyByJobs(s.ledger, t.ledger, id,
                 if entry.Some? then Some(entry.value.(status := result.status, created := result.created)) else None,
                 s.history, t.history);
    }
  }

  lemma {:induction false} RunCreatedByJobs(source: Source, events: seq<Event>)
    ensures var s := Run(source, events); CreatedByJobs(s.ledger, s.history)
  {
    if events != [] {
      var before, e := events[..|events| - 1], events[|events| - 1];
      RunCreatedByJobs(source, before);
      assert before + [e] == events;
      if Enabled(source, Run(source, before), e) {
        hide CreatedByJobs, Run;
        match e
        case Finish(result, now) => EndByJobs(source, before, result, now);
        case ReceiveIssue(_, _) => ReceivedByJobs(source, before, e);
        case ReceiveOther(_, _) => ReceivedByJobs(source, before, e);
        case _ => JobByJobs(source, before, e);
      }
    }
  }

  lemma {:induction false} CreatedBySome(ledger: Ledger, history: seq<Record>, issue: string)
    requires UniqueIds(ledger) && CreatedByJobs(ledger, history) && CreatedHere(ledger, issue)
    ensures exists i :: 0 <= i < |history| && issue in history[i].created
  {
    var j, k :| 0 <= j < |ledger| && 0 <= k < |ledger[j].created| && ledger[j].created[k] == issue;
    FindOnly(ledger, j);
    assert ByJob(ledger, history, ledger[j].id);
  }

  /** In every run an issue of the team is passed over only if an earlier job has recorded that it created it. */
  lemma {:induction false} PassedOverIfCreated(source: Source, events: seq<Event>, now: int)
    requires Enabled(source, Run(source, events), Begin(InsideTeam, now))
    ensures
      var s, t := Run(source, events), Run(source, events + [Begin(InsideTeam, now)]);
      var n := |s.history|;
      && |t.history| == n + 1 && t.history[n].id == s.queue[0]
      && (t.history[n].handled
          || exists i :: 0 <= i < n && (source(s.queue[0]).issueId in t.history[i].created
                                        || source(s.queue[0]).identifier in t.history[i].created))
  {
    var s := Run(source, events);
    RunOrdered(source, events);
    RunCreatedByJobs(source, events);
    JobBegins(source, events, InsideTeam, now);
    var t := Run(source, events + [Begin(InsideTeam, now)]);
    if CreatedHere(s.ledger, source(s.queue[0]).issueId) {
      CreatedBySome(s.ledger, s.history, source(s.queue[0]).issueId);
      var i :| 0 <= i < |s.history| && source(s.queue[0]).issueId in s.history[i].created;
      assert t.history[i] == s.history[i];
    } else if CreatedHere(s.ledger, source(s.queue[0]).identifier) {
      CreatedBySome(s.ledger, s.history, source(s.queue[0]).identifier);
      var i :| 0 <= i < |s.history| && source(s.queue[0]).identifier in s.history[i].created;
      assert t.history[i] == s.history[i];
    }
    hide CreatedByJobs, Run, CreatedHere, Ordered;
  }
}
