/**
 At most once, in terms of what arrives: a delivery is safe as long as the run stays within thirty days of
 its first arrival and fewer than a thousand further webhooks are received. Both limits are sharp.
 */
module WebhookArrivals {
  import opened Prelude
  import opened WebhookLedger
  import opened Webhook

  predicate Arrives(e: Event) { e.ReceiveIssue? || e.ReceiveOther? }

  /** How many webhooks are received. */
  function Receipts(events: seq<Event>): nat {
    if events == [] then 0
    else Receipts(events[..|events| - 1]) + (if Arrives(events[|events| - 1]) then 1 else 0)
  }

  /** The delivery arrives for the first time at position p. */
  ghost predicate FirstArrival(events: seq<Event>, id: string, p: nat) {
    && p < |events| && events[p].ReceiveIssue? && events[p].id == id
    && (forall i :: 0 <= i < p && events[i].ReceiveIssue? ==> events[i].id != id)
  }

  /** After the first arrival nothing happens later than thirty days on, and fewer than a thousand further
      webhooks are received. */
  ghost predicate InTime(events: seq<Event>, id: string) {
    forall p: nat :: FirstArrival(events, id, p) ==>
      && (forall i :: p < i < |events| ==> events[i].now <= events[p].now + 30 * 24 * 60 * 60 * 1000)
      && Receipts(events[p + 1..]) < 1000
  }

  // --- an entry and the number of entries behind it ---

  function Behind(ledger: Ledger, id: string): nat {
    if ledger == [] then 0
    else if ledger[0].id == id then |ledger| - 1
    else Behind(ledger[1..], id)
  }

  /** The entry was received at t, and at most n entries are behind it. */
  predicate Held(ledger: Ledger, id: string, t: int, n: nat) {
    Find(ledger, id).Some? && Find(ledger, id).value.receivedAt == t && Behind(ledger, id) <= n
  }

  lemma {:induction false} HeldUpdate(ledger: Ledger, d: string, status: Status, created: Option<seq<string>>,
                                      id: string, t: int, n: nat)
    requires Held(ledger, id, t, n)
    ensures Held(Update(ledger, d, status, created), id, t, n)
  {
    FindUpdate(ledger, d, status, created, id);
    BehindUpdate(ledger, d, status, created, id);
  }

  lemma {:induction false} BehindUpdate(ledger: Ledger, d: string, status: Status, created: Option<seq<string>>, id: string)
    ensures Behind(Update(ledger, d, status, created), id) == Behind(ledger, id)
  {
    UpdateIds(ledger, d, status, created);
    if ledger != [] {
      BehindUpdate(ledger[1..], d, status, created, id);
      assert Update(ledger, d, status, created)[1..] == Update(ledger[1..], d, status, created);
    }
  }

  lemma {:induction false} HeldUpsert(ledger: Ledger, next: Entry, id: string, t: int, n: nat)
    requires Held(ledger, id, t, n) && next.id != id
    ensures Held(Upsert(ledger, next), id, t, n + 1)
  {
    FindUpsert(ledger, next, id);
    BehindUpsert(ledger, next, id);
  }

  lemma {:induction false} UpsertLength(ledger: Ledger, next: Entry)
    ensures |Upsert(ledger, next)| <= |ledger| + 1
  {
    UpsertIds(ledger, next);
  }

  lemma {:induction false} BehindUpsert(ledger: Ledger, next: Entry, id: string)
    requires next.id != id && Find(ledger, id).Some?
    ensures Behind(Upsert(ledger, next), id) <= Behind(ledger, id) + 1
  {
    UpsertLength(ledger, next);
    if ledger[0].id != id {
      BehindUpsert(ledger[1..], next, id);
      assert Upsert(ledger, next)[1..] == if ledger[0].id == next.id then ledger[1..] else Upsert(ledger[1..], next);
    }
  }

  lemma {:induction false} HeldRecent(ledger: Ledger, cutoff: int, id: string, t: int, n: nat)
    requires Held(ledger, id, t, n) && t >= cutoff
    ensures Held(Recent(ledger, cutoff), id, t, n)
  {
    var own := if ledger[0].receivedAt >= cutoff then [ledger[0]] else [];
    var rest := Recent(ledger[1..], cutoff);
    assert Recent(ledger, cutoff) == own + rest;
    if ledger[0].id == id {
      RecentAll(ledger[1..], cutoff);
      assert (own + rest)[0] == ledger[0];
    } else {
      HeldRecent(ledger[1..], cutoff, id, t, n);
      assert own == [] ==> own + rest == rest;
      assert own != [] ==> (own + rest)[1..] == rest;
    }
  }

  lemma {:induction false} HeldDrop(ledger: Ledger, k: nat, id: string, t: int, n: nat)
    requires Held(ledger, id, t, n) && n + k < |ledger|
    ensures Held(ledger[k..], id, t, n)
  {
    if k > 0 {
      assert ledger[k..] == ledger[1..][k - 1..];
      HeldDrop(ledger[1..], k - 1, id, t, n);
    }
  }

  /** A save keeps an entry that is recent enough and has fewer than a thousand entries behind it. */
  lemma {:induction false} HeldTrim(ledger: Ledger, now: int, id: string, t: int, n: nat)
    requires Held(ledger, id, t, n) && now <= t + RETENTION_MS && n < MAX_ENTRIES
    ensures Held(Trim(ledger, now), id, t, n)
  {
    var recent := Recent(ledger, now - RETENTION_MS);
    HeldRecent(ledger, now - RETENTION_MS, id, t, n);
    if |recent| > MAX_ENTRIES {
      HeldDrop(recent, |recent| - MAX_ENTRIES, id, t, n);
    }
  }

  // --- a step and a run ---

  lemma {:induction false} SavedUpdateHeld(ledger: Ledger, d: string, status: Status, created: Option<seq<string>>,
                                           now: int, id: string, t: int, n: nat)
    requires Held(ledger, id, t, n) && now <= t + RETENTION_MS && n < MAX_ENTRIES
    ensures Held(Trim(Update(ledger, d, status, created), now), id, t, n)
  {
    HeldUpdate(ledger, d, status, created, id, t, n);
    HeldTrim(Update(ledger, d, status, created), now, id, t, n);
  }

  /** A step within the limits keeps the entry of a delivery. */
  lemma {:induction false} StepHeld(source: Source, s: State, e: Event, id: string, t: int, n: nat)
    requires Enabled(source, s, e) && source(id).isIssue && Held(s.ledger, id, t, n)
    requires e.now <= t + RETENTION_MS
    requires n + (if Arrives(e) then 1 else 0) < MAX_ENTRIES
    ensures Held(LedgerAfter(source, s, e), id, t, n + (if Arrives(e) then 1 else 0))
  {
    hide Trim, Update, Upsert, Find, Behind;
    match e
    case ReceiveIssue(d, now) =>
      if Find(s.ledger, d).None? {
        HeldUpsert(s.ledger, Fresh(source, d, Received, now), id, t, n);
        HeldTrim(Upsert(s.ledger, Fresh(source, d, Received, now)), now, id, t, n + 1);
      } else {
        SavedUpdateHeld(s.ledger, d, IgnoredDuplicate, None, now, id, t, n);
      }
    case ReceiveOther(d, now) =>
      HeldUpsert(s.ledger, Unsupported(d, now), id, t, n);
      HeldTrim(Upsert(s.ledger, Unsupported(d, now)), now, id, t, n + 1);
    case Begin(lookup, now) =>
      SavedUpdateHeld(s.ledger, s.queue[0], IgnoredLoop, None, now, id, t, n);
      SavedUpdateHeld(s.ledger, s.queue[0], Failed, None, now, id, t, n);
      SavedUpdateHeld(s.ledger, s.queue[0], IgnoredUnsupported, None, now, id, t, n);
    case Finish(result, now) =>
      var d := s.history[|s.history| - 1].id;
      SavedUpdateHeld(s.ledger, d, Failed, None, now, id, t, n);
      if result.Returned? {
        SavedUpdateHeld(s.ledger, d, result.status, Some(result.created), now, id, t, n);
      }
    case Notified(ok, now) =>
      SavedUpdateHeld(s.ledger, s.history[|s.history| - 1].id, Failed, None, now, id, t, n);
  }

  /** The first arrival puts the entry at the end of the ledger. */
  lemma {:induction false} ArrivalHeld(source: Source, s: State, id: string, now: int)
    requires source(id).isIssue && Find(s.ledger, id).None?
    ensures Held(LedgerAfter(source, s, ReceiveIssue(id, now)), id, now, 0)
  {
    var next := Fresh(source, id, Received, now);
    FindIndex(s.ledger, id);
    UpsertIds(s.ledger, next);
    LastIsHeld(s.ledger, next);
    HeldTrim(Upsert(s.ledger, next), now, id, now, 0);
  }

  lemma {:induction false} LastIsHeld(ledger: Ledger, next: Entry)
    requires Find(ledger, next.id).None?
    ensures Held(ledger + [next], next.id, next.receivedAt, 0)
  {
    if ledger != [] {
      LastIsHeld(ledger[1..], next);
      assert (ledger + [next])[1..] == ledger[1..] + [next];
    }
  }

  lemma {:induction false} SavedStaysUnknown(ledger: Ledger, d: string, status: Status, created: Option<seq<string>>,
                                             now: int, next: Entry, id: string)
    requires UniqueIds(ledger) && Find(ledger, id).None? && next.id != id
    ensures Find(Trim(Update(ledger, d, status, created), now), id).None?
    ensures Find(Trim(Upsert(ledger, next), now), id).None?
  {
    if Find(Trim(Update(ledger, d, status, created), now), id).Some? {
      UpdateSaved(ledger, d, status, created, now, id);
    }
    if Find(Trim(Upsert(ledger, next), now), id).Some? {
      UpsertSaved(ledger, next, now, id);
    }
  }

  /** A delivery that has not arrived is not in the ledger. */
  lemma {:induction false} StepUnknown(source: Source, s: State, e: Event, id: string)
    requires Enabled(source, s, e) && source(id).isIssue && UniqueIds(s.ledger) && Find(s.ledger, id).None?
    requires e.ReceiveIssue? ==> e.id != id
    ensures Find(LedgerAfter(source, s, e), id).None?
  {
    hide Trim, Update, Upsert, UniqueIds;
    match e
    case ReceiveIssue(d, now) =>
      SavedStaysUnknown(s.ledger, d, IgnoredDuplicate, None, now, Fresh(source, d, Received, now), id);
    case ReceiveOther(d, now) =>
      SavedStaysUnknown(s.ledger, d, IgnoredDuplicate, None, now, Unsupported(d, now), id);
    case Begin(lookup, now) =>
      if Find(LedgerAfter(source, s, e), id).Some? && !Handles(source, s.ledger, s.queue[0], lookup) {
        UpdateSaved(s.ledger, s.queue[0], if IsLooped(s.ledger, Names(source, s.queue[0])) then IgnoredLoop
                    else if lookup.OutsideTeam? then IgnoredUnsupported else Failed, None, now, id);
      }
    case Finish(result, now) =>
      var d := s.history[|s.history| - 1].id;
      if Find(LedgerAfter(source, s, e), id).Some? {
        UpdateSaved(s.ledger, d, if result.Returned? then result.status else Failed,
                    if result.Returned? then Some(result.created) else None, now, id);
      }
    case Notified(ok, now) =>
      if Find(LedgerAfter(source, s, e), id).Some? && !ok {
        UpdateSaved(s.ledger, s.history[|s.history| - 1].id, Failed, None, now, id);
      }
  }

  lemma {:induction false} NotYetArrived(source: Source, events: seq<Event>, id: string)
    requires source(id).isIssue
    requires forall i :: 0 <= i < |events| && events[i].ReceiveIssue? ==> events[i].id != id
    ensures Retained(source, events, id) && Find(Run(source, events).ledger, id).None?
  {
    if events != [] {
      var before, e := events[..|events| - 1], events[|events| - 1];
      var s := Run(source, before);
      NotYetArrived(source, before, id);
      RunOrdered(source, before);
      hide LedgerAfter;
      if Enabled(source, s, e) {
        StepUnknown(source, s, e, id);
      }
    }
  }

  /** Within the limits the entry is kept from its first arrival on. */
  lemma {:induction false} HeldInTime(source: Source, events: seq<Event>, id: string, p: nat)
    requires source(id).isIssue && FirstArrival(events, id, p)
    requires forall i :: p < i < |events| ==> events[i].now <= events[p].now + RETENTION_MS
    requires Receipts(events[p + 1..]) < MAX_ENTRIES
    ensures Retained(source, events, id)
    ensures Held(Run(source, events).ledger, id, events[p].now, Receipts(events[p + 1..]))
    decreases |events|
  {
    var n := |events| - 1;
    var before, e := events[..n], events[n];
    var s, t := Run(source, before), events[p].now;
    if p == n {
      NotYetArrived(source, before, id);
      ArrivalHeld(source, s, id, t);
      hide LedgerAfter, Trim, Find;
    } else {
      assert before[p + 1..] == events[p + 1..][..n - p - 1];
      assert FirstArrival(before, id, p);
      HeldInTime(source, before, id, p);
      hide LedgerAfter, FirstArrival;
      if Enabled(source, s, e) {
        StepHeld(source, s, e, id, t, Receipts(before[p + 1..]));
      }
    }
  }

  lemma {:induction false} FirstExists(events: seq<Event>, id: string, i: nat) returns (p: nat)
    requires i < |events| && events[i].ReceiveIssue? && events[i].id == id
    ensures p <= i && FirstArrival(events, id, p)
  {
    if j: nat :| j < i && events[j].ReceiveIssue? && events[j].id == id {
      p := FirstExists(events, id, j);
    } else {
      p := i;
    }
  }

  /** No save of a run within the limits drops the delivery's entry. */
  lemma {:induction false} RetainedInTime(source: Source, events: seq<Event>, id: string)
    requires source(id).isIssue && InTime(events, id)
    ensures Retained(source, events, id)
  {
    if i: nat :| i < |events| && events[i].ReceiveIssue? && events[i].id == id {
      var p := FirstExists(events, id, i);
      HeldInTime(source, events, id, p);
    } else {
      NotYetArrived(source, events, id);
    }
  }

  // --- main results ---

  /** Only issue creations are queued. */
  lemma {:induction false} OnlyIssuesQueued(source: Source, events: seq<Event>)
    ensures forall k :: 0 <= k < |Run(source, events).accepted| ==> source(Run(source, events).accepted[k]).isIssue
  {
    if events != [] {
      hide LedgerAfter;
      OnlyIssuesQueued(source, events[..|events| - 1]);
    }
  }

  lemma {:induction false} OnlyIssuesTaken(source: Source, events: seq<Event>, i: nat)
    requires i < |Run(source, events).history|
    ensures source(Run(source, events).history[i].id).isIssue
  {
    var s := Run(source, events);
    OnlyIssuesQueued(source, events);
    RunOrdered(source, events);
    assert s.accepted[i] == RecordIds(s.history)[i] == s.history[i].id;
  }

  /** However often it arrives, a delivery is taken off the queue at most once in every run within the limits. */
  lemma {:induction false} HandledOnceInTime(source: Source, events: seq<Event>, id: string)
    requires InTime(events, id)
    ensures Once(RecordIds(Run(source, events).history), id)
  {
    if source(id).isIssue {
      RetainedInTime(source, events, id);
      ProcessedAtMostOnce(source, events, id);
    } else {
      forall i | 0 <= i < |Run(source, events).history| ensures RecordIds(Run(source, events).history)[i] != id {
        OnlyIssuesTaken(source, events, i);
      }
    }
  }

  /** In every run within the limits no later job handles an issue that an earlier one recorded as created. */
  lemma {:induction false} NoLoopInTime(source: Source, events: seq<Event>, i: nat, j: nat, issue: string)
    requires
      var history := Run(source, events).history;
      && i < j < |history| && InTime(events, history[i].id)
      && issue in history[i].created && issue in Names(source, history[j].id)
    ensures !Run(source, events).history[j].handled
  {
    OnlyIssuesTaken(source, events, i);
    RetainedInTime(source, events, Run(source, events).history[i].id);
    CreatedIssuesAreNotHandled(source, events, i, j, issue);
  }

  // --- the limit of thirty days is sharp ---

  /** Two deliveries of the example, both for issues of the team. */
  function ExampleSource(): Source {
    (id: string) => Delivery(true, id, id)
  }

  /** "a" is handled; thirty days later another delivery makes a save drop its entry; "a" comes again. */
  function Redelivery(): seq<Event> {
    [ ReceiveIssue("a", 0), Begin(InsideTeam, 0), Finish(Returned(Noop, []), 0),
      ReceiveIssue("b", RETENTION_MS + 1), ReceiveIssue("a", RETENTION_MS + 1),
      Begin(OutsideTeam, RETENTION_MS + 1), Begin(InsideTeam, RETENTION_MS + 1) ]
  }

  function EntryOf(id: string, now: int, status: Status): Entry {
    Entry(id, id, id, now, status, [])
  }

  lemma {:induction false} RunStep(source: Source, before: seq<Event>, e: Event)
    requires Enabled(source, Run(source, before), e)
    ensures Run(source, before + [e]) == Next(source, Run(source, before), e)
  {
    assert (before + [e])[..|before|] == before;
  }

  lemma {:induction false} TrimOne(e: Entry, now: int)
    requires e.receivedAt >= now - RETENTION_MS
    ensures Trim([e], now) == [e]
  {
    assert [e][1..] == [];
    assert Recent([e], now - RETENTION_MS) == [e] + Recent([], now - RETENTION_MS);
  }

  lemma {:induction false} TrimPair(old_: Entry, e: Entry, now: int)
    requires e.receivedAt >= now - RETENTION_MS
    ensures Trim([old_, e], now) == if old_.receivedAt >= now - RETENTION_MS then [old_, e] else [e]
  {
    TrimOne(e, now);
    assert [old_, e][1..] == [e];
    assert [old_] + [e] == [old_, e];
    assert Recent([old_, e], now - RETENTION_MS)
        == (if old_.receivedAt >= now - RETENTION_MS then [old_] else []) + Recent([e], now - RETENTION_MS);
  }

  lemma {:induction false} UpdateFirst(x: Entry, y: Entry, status: Status)
    requires x.id != y.id
    ensures Update([x, y], x.id, status, None) == [Patched(x, status, None), y]
  {
    assert [x, y][1..] == [y] && [y][1..] == [];
    assert Update([y], x.id, status, None) == [y] + Update([], x.id, status, None);
  }

  lemma {:induction false} FirstHalf()
    ensures Run(ExampleSource(), Redelivery()[..3])
         == State([EntryOf("a", 0, Noop)], [], Idle, [Record("a", true, [])], ["a"])
  {
    var source := ExampleSource();
    var s1 := State([EntryOf("a", 0, Received)], ["a"], Idle, [], ["a"]);
    TrimOne(EntryOf("a", 0, Received), 0);
    assert Next(source, Init(), ReceiveIssue("a", 0)) == s1;
    RunStep(source, [], ReceiveIssue("a", 0));
    var s2 := State(s1.ledger, [], Handling, [Record("a", true, [])], ["a"]);
    assert Next(source, s1, Begin(InsideTeam, 0)) == s2;
    RunStep(source, [] + [ReceiveIssue("a", 0)], Begin(InsideTeam, 0));
    FinishExample(s2);
    RunStep(source, [] + [ReceiveIssue("a", 0)] + [Begin(InsideTeam, 0)], Finish(Returned(Noop, []), 0));
    assert Redelivery()[..3]
        == [] + [ReceiveIssue("a", 0)] + [Begin(InsideTeam, 0)] + [Finish(Returned(Noop, []), 0)];
  }

  lemma {:induction false} FinishExample(s: State)
    requires s == State([EntryOf("a", 0, Received)], [], Handling, [Record("a", true, [])], ["a"])
    ensures Next(ExampleSource(), s, Finish(Returned(Noop, []), 0))
         == State([EntryOf("a", 0, Noop)], [], Idle, [Record("a", true, [])], ["a"])
  {
    TrimOne(EntryOf("a", 0, Noop), 0);
    assert Update(s.ledger, "a", Noop, Some([])) == [EntryOf("a", 0, Noop)];
  }

  /** The save for "b" drops the old entry of "a", so "a" is queued again. */
  lemma {:induction false} DroppedAndQueued(s: State, now: int)
    requires s == State([EntryOf("a", 0, Noop)], [], Idle, [Record("a", true, [])], ["a"]) && now == RETENTION_MS + 1
    ensures
      var source := ExampleSource();
      var t := Next(source, s, ReceiveIssue("b", now));
      && t == State([EntryOf("b", now, Received)], ["b"], Idle, s.history, ["a", "b"])
      && Next(source, t, ReceiveIssue("a", now))
         == State([EntryOf("b", now, Received), EntryOf("a", now, Received)], ["b", "a"], Idle, s.history, ["a", "b", "a"])
  {
    var a, b := EntryOf("a", now, Received), EntryOf("b", now, Received);
    UpsertIds(s.ledger, b);
    assert Upsert(s.ledger, b) == [s.ledger[0], b];
    TrimPair(s.ledger[0], b, now);
    assert Next(ExampleSource(), s, ReceiveIssue("b", now)) == State([b], ["b"], Idle, s.history, ["a", "b"]);
    UpsertIds([b], a);
    assert Upsert([b], a) == [b, a];
    TrimPair(b, a, now);
    var t := State([b], ["b"], Idle, s.history, ["a", "b"]);
    assert Find(t.ledger, "a").None?;
    assert t.queue + ["a"] == ["b", "a"];
    assert t.accepted + ["a"] == ["a", "b", "a"];
    assert Next(ExampleSource(), t, ReceiveIssue("a", now)).ledger == [b, a];
  }

  lemma {:induction false} SecondHalf()
    ensures
      var now := RETENTION_MS + 1;
      Run(ExampleSource(), Redelivery()[..5])
      == State([EntryOf("b", now, Received), EntryOf("a", now, Received)], ["b", "a"], Idle,
               [Record("a", true, [])], ["a", "b", "a"])
  {
    var source, events, now := ExampleSource(), Redelivery(), RETENTION_MS + 1;
    FirstHalf();
    DroppedAndQueued(Run(source, events[..3]), now);
    RunStep(source, events[..3], ReceiveIssue("b", now));
    assert events[..3] + [ReceiveIssue("b", now)] == events[..4];
    RunStep(source, events[..4], ReceiveIssue("a", now));
    assert events[..4] + [ReceiveIssue("a", now)] == events[..5];
  }

  /** The queue reaches "a" a second time. */
  lemma {:induction false} ThirdPart(s: State, now: int)
    requires s.ledger == [EntryOf("b", now, Received), EntryOf("a", now, Received)]
    requires s.queue == ["b", "a"] && s.phase == Idle && |s.history| == 1
    ensures
      var source := ExampleSource();
      && Enabled(source, s, Begin(OutsideTeam, now))
      && var t := Next(source, s, Begin(OutsideTeam, now));
      && Enabled(source, t, Begin(InsideTeam, now))
      && Next(source, t, Begin(InsideTeam, now)).history
         == s.history + [Record("b", false, []), Record("a", true, [])]
  {
    var source := ExampleSource();
    var a, b := EntryOf("a", now, Received), EntryOf("b", now, Received);
    UpdateFirst(b, a, IgnoredUnsupported);
    TrimPair(Patched(b, IgnoredUnsupported, None), a, now);
    var t := Next(source, s, Begin(OutsideTeam, now));
    assert t.queue == ["a"] && !IsLooped(t.ledger, Names(source, "a"));
    assert t.history == s.history + [Record("b", false, [])];
  }

  /** Without retention the claim fails: after thirty days a repeated delivery is handled again. */
  lemma {:induction false} HandledTwiceAfterRetention()
    ensures
      var history := Run(ExampleSource(), Redelivery()).history;
      |history| == 3 && history[0] == history[2] == Record("a", true, [])
    ensures !Retained(ExampleSource(), Redelivery(), "a")
  {
    var source, events, now := ExampleSource(), Redelivery(), RETENTION_MS + 1;
    SecondHalf();
    ThirdPart(Run(source, events[..5]), now);
    hide Next, Enabled, Retained;
    RunStep(source, events[..5], Begin(OutsideTeam, now));
    assert events[..5] + [Begin(OutsideTeam, now)] == events[..6];
    RunStep(source, events[..6], Begin(InsideTeam, now));
    assert events[..6] + [Begin(InsideTeam, now)] == events;
    TwiceNotRetained(source, events, 0, 2);
  }

  lemma {:induction false} TwiceNotRetained(source: Source, events: seq<Event>, i: nat, j: nat)
    requires var history := Run(source, events).history; i < j < |history| && history[i].id == history[j].id
    ensures !Retained(source, events, Run(source, events).history[i].id)
  {
    hide Retained, Once;
    if Retained(source, events, Run(source, events).history[i].id) {
      ProcessedAtMostOnce(source, events, Run(source, events).history[i].id);
      TwiceIsNotOnce(Run(source, events).history, i, j);
    }
  }

  lemma {:induction false} TwiceIsNotOnce(history: seq<Record>, i: nat, j: nat)
    requires i < j < |history| && history[i].id == history[j].id
    ensures !Once(RecordIds(history), history[i].id)
  {
    assert RecordIds(history)[i] == RecordIds(history)[j];
  }

  // --- the limit of a thousand webhooks is sharp ---

  function Name(k: nat): string { seq(k, i => 'x') }

  /** n different deliveries at the same time. */
  function Flood(n: nat): seq<Event> {
    if n == 0 then [] else Flood(n - 1) + [ReceiveIssue(Name(n - 1), 0)]
  }

  function FloodEntries(n: nat): Ledger {
    seq(n, k requires 0 <= k < n => EntryOf(Name(k), 0, Received))
  }

  lemma {:induction false} NewInFlood(n: nat)
    ensures Find(FloodEntries(n), Name(n)).None?
  {
    FindIndex(FloodEntries(n), Name(n));
    forall k | 0 <= k < n ensures FloodEntries(n)[k].id != Name(n) {
      assert |Name(k)| == k && |Name(n)| == n;
    }
  }

  lemma {:induction false} FloodUpsert(n: nat)
    ensures Upsert(FloodEntries(n), EntryOf(Name(n), 0, Received)) == FloodEntries(n + 1)
  {
    NewInFlood(n);
    FindIndex(FloodEntries(n), Name(n));
    UpsertIds(FloodEntries(n), EntryOf(Name(n), 0, Received));
  }

  lemma {:induction false} FloodTrimmed(n: nat)
    requires n <= MAX_ENTRIES
    ensures Trim(FloodEntries(n), 0) == FloodEntries(n)
  {
    hide Trim, Name;
    TrimKeepsAllIff(FloodEntries(n), 0);
  }

  /** What a step of the flood does to the ledger. */
  lemma {:induction false} FloodStep(s: State, n: nat)
    requires s.ledger == FloodEntries(n)
    ensures Next(ExampleSource(), s, ReceiveIssue(Name(n), 0)).ledger == Trim(FloodEntries(n + 1), 0)
  {
    hide Trim, Upsert, FloodEntries, Name, Find;
    NewInFlood(n);
    FloodUpsert(n);
  }

  /** Up to a thousand deliveries are all kept. */
  lemma {:induction false} FloodKept(n: nat)
    requires n <= MAX_ENTRIES
    ensures Run(ExampleSource(), Flood(n)).ledger == FloodEntries(n)
  {
    if n > 0 {
      hide Trim, Next, FloodEntries, Name;
      FloodKept(n - 1);
      FloodStep(Run(ExampleSource(), Flood(n - 1)), n - 1);
      FloodTrimmed(n);
      RunStep(ExampleSource(), Flood(n - 1), ReceiveIssue(Name(n - 1), 0));
    }
  }

  /** The next one drops the first. */
  lemma {:induction false} FloodDropsTheFirst()
    ensures Find(Run(ExampleSource(), Flood(MAX_ENTRIES + 1)).ledger, Name(0)).None?
  {
    var n := MAX_ENTRIES;
    hide Next, Trim, Name;
    FloodKept(n);
    FloodStep(Run(ExampleSource(), Flood(n)), n);
    FullFloodTrimmed();
    RunStep(ExampleSource(), Flood(n), ReceiveIssue(Name(n), 0));
  }

  lemma {:induction false} FullFloodTrimmed()
    ensures Find(Trim(FloodEntries(MAX_ENTRIES + 1), 0), Name(0)).None?
  {
    var n := MAX_ENTRIES;
    var all := FloodEntries(n + 1);
    RecentAll(all, 0 - RETENTION_MS);
    assert Trim(all, 0) == all[1..];
    FindIndex(all[1..], Name(0));
    forall k | 0 <= k < n ensures all[1..][k].id != Name(0) {
      assert all[1..][k].id == Name(k + 1) && |Name(k + 1)| == k + 1;
    }
  }

  lemma {:induction false} OneReceiptMore(events: seq<Event>, e: Event)
    ensures Receipts(events + [e]) == Receipts(events) + (if Arrives(e) then 1 else 0)
  {
    assert (events + [e])[..|events|] == events;
  }

  lemma {:induction false} FloodStarts(n: nat)
    ensures |Flood(n)| == n && (n > 0 ==> Flood(n)[0] == ReceiveIssue(Name(0), 0))
  {
    hide Name;
    if n > 0 {
      FloodStarts(n - 1);
    }
  }

  lemma {:induction false} FloodReceipts(n: nat)
    requires n > 0
    ensures |Flood(n)| == n && Receipts(Flood(n)[1..]) == n - 1
  {
    hide Name, Receipts;
    FloodStarts(n);
    if n == 1 {
      assert Flood(1)[1..] == [];
      NoReceipts();
    } else {
      var before, e := Flood(n - 1), ReceiveIssue(Name(n - 1), 0);
      FloodReceipts(n - 1);
      OneReceiptMore(before[1..], e);
      assert Flood(n)[1..] == before[1..] + [e];
    }
  }

  lemma {:induction false} NoReceipts()
    ensures Receipts([]) == 0
  {
  }

  lemma {:induction false} FirstAccepted(n: nat)
    ensures n > 0 ==> Name(0) in Run(ExampleSource(), Flood(n)).accepted
  {
    if n > 0 {
      var e := ReceiveIssue(Name(n - 1), 0);
      FirstAccepted(n - 1);
      RunStep(ExampleSource(), Flood(n - 1), e);
      hide LedgerAfter;
      if n == 1 {
        assert Run(ExampleSource(), Flood(0)) == Init();
      }
    }
  }

  /** A thousand further webhooks at the same moment are one too many: the delivery is queued again. */
  lemma {:induction false} QueuedTwiceAfterAThousand()
    ensures
      var events := Flood(MAX_ENTRIES + 1);
      && events[0] == ReceiveIssue(Name(0), 0) && Receipts(events[1..]) == MAX_ENTRIES
      && !Retained(ExampleSource(), events, Name(0))
      && !Once(Run(ExampleSource(), events + [ReceiveIssue(Name(0), 0)]).accepted, Name(0))
  {
    var source, events, e := ExampleSource(), Flood(MAX_ENTRIES + 1), ReceiveIssue(Name(0), 0);
    var s := Run(source, events);
    FloodStarts(MAX_ENTRIES + 1);
    FloodReceipts(MAX_ENTRIES + 1);
    FloodDropsTheFirst();
    FirstAccepted(MAX_ENTRIES + 1);
    hide LedgerAfter;
    if Retained(source, events, Name(0)) {
      RunKnown(source, events, Name(0));
    }
    RunStep(source, events, e);
    var i :| 0 <= i < |s.accepted| && s.accepted[i] == Name(0);
    var accepted := Next(source, s, e).accepted;
    assert accepted == s.accepted + [Name(0)];
    assert accepted[i] == Name(0) && accepted[|s.accepted|] == Name(0);
  }
}
