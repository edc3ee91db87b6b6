/**
 The webhook endpoint and its queue job as code over the saved ledger. Between two steps a caller can count
 on unique ids in the ledger and on jobs taken in the order their deliveries were accepted.
 */
module WebhookHandler {
  import opened Prelude
  import opened WebhookLedger
  import opened Webhook

  class Handler {
    const source: Source
    var ledger: Ledger
    var queue: seq<string>
    var phase: Phase
    var history: seq<Record>
    ghost var accepted: seq<string>

    ghost function View(): State
      reads this
    {
      State(ledger, queue, phase, history, accepted)
    }

    /** Delivery ids are unique, and jobs are taken in the order of acceptance. */
    ghost predicate Valid()
      reads this
    {
      Ordered(View())
    }

    constructor (source: Source)
      ensures Valid() && View() == Init() && this.source == source
    {
      this.source := source;
      ledger, queue, phase, history, accepted := [], [], Idle, [], [];
    }

    /** Writing the ledger trims it. */
    method Save(deliveries: Ledger, now: int)
      modifies this`ledger
      ensures ledger == Trim(deliveries, now)
    {
      ledger := Trim(deliveries, now);
    }

    /** An issue-created webhook: remember and queue it, or mark a repeated one. */
    method HandleIssueWebhook(id: string, now: int)
      requires Valid()
      requires source(id).isIssue
      modifies this
      ensures Valid() && View() == Next(source, old(View()), ReceiveIssue(id, now))
    {
      NextOrdered(source, View(), ReceiveIssue(id, now));
      hide Ordered, Trim, Update, Upsert, UniqueIds;
      FindIndex(ledger, id);
      if IsDuplicate(ledger, id) {
        if Find(ledger, id).value.status.Received? {
          Save(Update(ledger, id, IgnoredDuplicate, None), now);
        }
        return;
      }
      Save(Upsert(ledger, Fresh(source, id, Received, now)), now);
      queue := queue + [id];
      accepted := accepted + [id];
    }

    /** Any other webhook: recorded as unsupported. */
    method HandleOtherWebhook(id: string, now: int)
      requires Valid()
      requires !source(id).isIssue
      modifies this
      ensures Valid() && View() == Next(source, old(View()), ReceiveOther(id, now))
    {
      NextOrdered(source, View(), ReceiveOther(id, now));
      hide Ordered, Trim, Update, Upsert, UniqueIds;
      Save(Upsert(ledger, Unsupported(id, now)), now);
    }

    /** The queue's next job up to the point where the issue is handed over. */
    method BeginJob(lookup: Lookup, now: int)
      requires Valid()
      requires Enabled(source, View(), Begin(lookup, now))
      modifies this
      ensures Valid() && View() == Next(source, old(View()), Begin(lookup, now))
    {
      NextOrdered(source, View(), Begin(lookup, now));
      hide Ordered, Trim, Update, Upsert, UniqueIds;
      var id := queue[0];
      queue := queue[1..];
      if IsLooped(ledger, Names(source, id)) {
        history := history + [Record(id, false, [])];
        Save(Update(ledger, id, IgnoredLoop, None), now);
        return;
      }
      match lookup
      case Unavailable =>
        history := history + [Record(id, false, [])];
        Save(Update(ledger, id, Failed, None), now);
      case OutsideTeam =>
        history := history + [Record(id, false, [])];
        Save(Update(ledger, id, IgnoredUnsupported, None), now);
      case InsideTeam =>
        history := history + [Record(id, true, [])];
        phase := Handling;
    }

    /** The handler returned or threw: its result is saved before anyone is notified. */
    method FinishHandling(result: Result, now: int)
      requires Valid()
      requires Enabled(source, View(), Finish(result, now))
      modifies this
      ensures Valid() && View() == Next(source, old(View()), Finish(result, now))
    {
      NextOrdered(source, View(), Finish(result, now));
      hide Ordered, Trim, Update, Upsert, UniqueIds;
      var last := history[|history| - 1];
      match result
      case Returned(status, created) =>
        Save(Update(ledger, last.id, status, Some(created)), now);
        history := history[|history| - 1 := Record(last.id, last.handled, created)];
        phase := if status.Noop? then Idle else Notifying;
      case Threw =>
        Save(Update(ledger, last.id, Failed, None), now);
        history := history[|history| - 1 := Record(last.id, last.handled, [])];
        phase := Idle;
    }

    /** The control room was told, or telling it failed and the job's catch block ran. */
    method FinishNotifying(ok: bool, now: int)
      requires Valid()
      requires Enabled(source, View(), Notified(ok, now))
      modifies this
      ensures Valid() && View() == Next(source, old(View()), Notified(ok, now))
    {
      NextOrdered(source, View(), Notified(ok, now));
      hide Ordered, View, Next;
      NotificationEnded(ok, now);
    }

    method NotificationEnded(ok: bool, now: int)
      requires Enabled(source, View(), Notified(ok, now))
      modifies this`ledger, this`phase
      ensures View() == Next(source, old(View()), Notified(ok, now))
    {
      hide Trim, Update;
      if !ok {
        Save(Update(ledger, history[|history| - 1].id, Failed, None), now);
      }
      phase := Idle;
    }
  }
}
