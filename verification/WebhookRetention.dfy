/** Exactly when the ledger loses a delivery, as long as the clock does not run backwards. */
module WebhookRetention {
  import opened Prelude
  import opened WebhookLedger
  import opened Webhook
  import opened WebhookArrivals

  ghost predicate InOrder(events: seq<Event>) {
    forall i, j :: 0 <= i < j < |events| ==> events[i].now <= events[j].now
  }

  /** The step writes the ledger to disk. */
  predicate Saves(source: Source, s: State, e: Event) {
    && Enabled(source, s, e)
    && match e
       case ReceiveIssue(id, _) => Find(s.ledger, id).None? || Find(s.ledger, id).value.status.Received?
       case ReceiveOther(_, _) => true
       case Begin(lookup, _) => IsLooped(s.ledger, Names(source, s.queue[0])) || !lookup.InsideTeam?
       case Finish(_, _) => true
       case Notified(ok, _) => !ok
  }

  /** The step adds a delivery the ledger does not have. */
  predicate Adds(source: Source, s: State, e: Event) {
    Enabled(source, s, e) && Arrives(e) && Find(s.ledger, e.id).None?
  }

  /** How many deliveries the run adds after position p. */
  function Added(source: Source, events: seq<Event>, p: nat): nat {
    if |events| <= p + 1 then 0 else
      var n := |events| - 1;
      Added(source, events[..n], p) + (if Adds(source, Run(source, events[..n]), events[n]) then 1 else 0)
  }

  /** The ledger is saved more than thirty days after position p. */
  ghost predicate SavedLate(source: Source, events: seq<Event>, p: nat)
    requires p < |events|
  {
    exists i :: p < i < |events| && SaveAt(source, events, i) && events[i].now > events[p].now + 30 * 24 * 60 * 60 * 1000
  }

  predicate SaveAt(source: Source, events: seq<Event>, i: nat)
    requires i < |events|
  {
    Saves(source, Run(source, events[..i]), events[i])
  }

  // --- an entry and what is behind it ---

  /** The entry has n entries behind it, none of them received before it. */
  ghost predicate HeldAt(ledger: Ledger, id: string, t: int, n: nat) {
    && n < |ledger| && ledger[|ledger| - 1 - n].id == id && ledger[|ledger| - 1 - n].receivedAt == t
    && forall j :: |ledger| - 1 - n <= j < |ledger| ==> ledger[j].receivedAt >= t
  }

  lemma {:induction false} HeldIsFound(ledger: Ledger, id: string, t: int, n: nat)
    requires UniqueIds(ledger) && HeldAt(ledger, id, t, n)
    ensures Find(ledger, id) == Some(ledger[|ledger| - 1 - n])
  {
    FindOnly(ledger, |ledger| - 1 - n);
  }

  lemma {:induction false} UpdateTimes(ledger: Ledger, d: string, status: Status, created: Option<seq<string>>)
    ensures |Update(ledger, d, status, created)| == |ledger|
    ensures forall i :: 0 <= i < |ledger| ==>
      && Update(ledger, d, status, created)[i].id == ledger[i].id
      && Update(ledger, d, status, created)[i].receivedAt == ledger[i].receivedAt
  {
    if ledger != [] {
      UpdateTimes(ledger[1..], d, status, created);
      assert forall i :: 0 < i < |ledger| ==> ledger[i] == ledger[1..][i - 1];
    }
  }

  /** An upsert replaces one entry in place or adds one behind all others. */
  lemma {:induction false} UpsertPlaces(ledger: Ledger, next: Entry)
    ensures Find(ledger, next.id).None? ==> Upsert(ledger, next) == ledger + [next]
    ensures Find(ledger, next.id).Some? ==> |Upsert(ledger, next)| == |ledger|
    ensures forall i :: 0 <= i < |ledger| ==>
      && i < |Upsert(ledger, next)|
      && (Upsert(ledger, next)[i] == ledger[i] || (ledger[i].id == next.id && Upsert(ledger, next)[i] == next))
  {
    if ledger != [] {
      UpsertPlaces(ledger[1..], next);
      assert forall i :: 0 < i < |ledger| ==> ledger[i] == ledger[1..][i - 1];
    }
  }

  lemma {:induction false} UpdateHeld(ledger: Ledger, d: string, status: Status, created: Option<seq<string>>,
                                      id: string, t: int, n: nat)
    requires HeldAt(ledger, id, t, n)
    ensures HeldAt(Update(ledger, d, status, created), id, t, n)
  {
    UpdateTimes(ledger, d, status, created);
  }

  lemma {:induction false} UpsertHeld(ledger: Ledger, next: Entry, id: string, t: int, n: nat)
    requires HeldAt(ledger, id, t, n) && next.id != id && next.receivedAt >= t
    ensures HeldAt(Upsert(ledger, next), id, t, n + (if Find(ledger, next.id).None? then 1 else 0))
  {
    UpsertPlaces(ledger, next);
  }

  lemma {:induction false} TailHeld(front: Ledger, tail: Ledger, id: string, t: int, n: nat)
    requires |tail| == n + 1
    ensures HeldAt(front + tail, id, t, n) <==> HeldAt(tail, id, t, n)
  {
    assert forall j :: 0 <= j < |tail| ==> (front + tail)[|front| + j] == tail[j];
    assert forall j :: |front| <= j < |front + tail| ==> (front + tail)[j] == tail[j - |front|];
  }

  lemma {:induction false} LastHeld(ledger: Ledger, id: string, t: int, n: nat)
    requires HeldAt(ledger, id, t, n) && n < MAX_ENTRIES
    ensures HeldAt(LastEntries(ledger), id, t, n)
  {
    var k := |ledger| - 1 - n;
    assert ledger == ledger[..k] + ledger[k..];
    TailHeld(ledger[..k], ledger[k..], id, t, n);
    if |ledger| > MAX_ENTRIES {
      var d := |ledger| - MAX_ENTRIES;
      assert ledger[d..] == ledger[d..k] + ledger[k..];
      TailHeld(ledger[d..k], ledger[k..], id, t, n);
    }
  }

  lemma {:induction false} RecentHeld(ledger: Ledger, cutoff: int, id: string, t: int, n: nat)
    requires HeldAt(ledger, id, t, n) && t >= cutoff
    ensures HeldAt(Recent(ledger, cutoff), id, t, n)
  {
    var k := |ledger| - 1 - n;
    assert ledger == ledger[..k] + ledger[k..];
    TailHeld(ledger[..k], ledger[k..], id, t, n);
    RecentAppend(ledger[..k], ledger[k..], cutoff);
    RecentAll(ledger[k..], cutoff);
    TailHeld(Recent(ledger[..k], cutoff), ledger[k..], id, t, n);
  }

  /** A save keeps the entry if and only if it is at most thirty days old and fewer than 1000 are behind it. */
  lemma {:induction false} TrimHeldIff(ledger: Ledger, now: int, id: string, t: int, n: nat)
    requires UniqueIds(ledger) && HeldAt(ledger, id, t, n)
    ensures Find(Trim(ledger, now), id).Some? <==> now <= t + RETENTION_MS && n < MAX_ENTRIES
    ensures Find(Trim(ledger, now), id).Some? ==> HeldAt(Trim(ledger, now), id, t, n)
  {
    var cutoff, k := now - RETENTION_MS, |ledger| - 1 - n;
    HeldIsFound(ledger, id, t, n);
    FindTrim(ledger, now, id);
    FindIndex(Trim(ledger, now), id);
    TrimKeepsIff(ledger, now, k);
    RecentAll(ledger[k + 1..], cutoff);
    if t >= cutoff && n < MAX_ENTRIES {
      RecentHeld(ledger, cutoff, id, t, n);
      LastHeld(Recent(ledger, cutoff), id, t, n);
      TrimIds(ledger, now);
      FindMember(Trim(ledger, now), ledger[k]);
    }
  }

  // --- a step ---

  /** The saved ledger has the entry, with n entries behind it, if and only if the limits are kept. */
  ghost predicate KeptIff(saved: Ledger, now: int, id: string, t: int, n: nat) {
    && (Find(saved, id).Some? <==> now <= t + RETENTION_MS && n < MAX_ENTRIES)
    && (Find(saved, id).Some? ==> HeldAt(saved, id, t, n))
  }

  lemma {:induction false} SavedUpdateKept(ledger: Ledger, d: string, status: Status, created: Option<seq<string>>,
                                           now: int, id: string, t: int, n: nat)
    requires UniqueIds(ledger) && HeldAt(ledger, id, t, n)
    ensures KeptIff(Trim(Update(ledger, d, status, created), now), now, id, t, n)
  {
    UpdateIds(ledger, d, status, created);
    UniqueKept(ledger, Update(ledger, d, status, created));
    UpdateHeld(ledger, d, status, created, id, t, n);
    TrimHeldIff(Update(ledger, d, status, created), now, id, t, n);
  }

  lemma {:induction false} SavedUpsertKept(ledger: Ledger, next: Entry, now: int, id: string, t: int, n: nat)
    requires UniqueIds(ledger) && HeldAt(ledger, id, t, n) && next.id != id && next.receivedAt >= t
    ensures KeptIff(Trim(Upsert(ledger, next), now), now, id, t, n + (if Find(ledger, next.id).None? then 1 else 0))
  {
    IdsStayUnique(ledger, next, Failed, None);
    UpsertHeld(ledger, next, id, t, n);
    hide HeldAt, UniqueIds, Trim, Upsert, Find;
    TrimHeldIff(Upsert(ledger, next), now, id, t, n + (if Find(ledger, next.id).None? then 1 else 0));
  }

  /** A step that saves the ledger keeps the entry within the limits, and any other leaves the ledger as it is. */
  ghost predicate StepKeeps(source: Source, s: State, e: Event, id: string, t: int, n: nat)
    requires Enabled(source, s, e)
  {
    if Saves(source, s, e) then
      KeptIff(LedgerAfter(source, s, e), e.now, id, t, n + (if Adds(source, s, e) then 1 else 0))
    else !Adds(source, s, e) && LedgerAfter(source, s, e) == s.ledger
  }

  lemma {:induction false} IssueKept(source: Source, s: State, d: string, now: int, id: string, t: int, n: nat)
    requires UniqueIds(s.ledger) && Enabled(source, s, ReceiveIssue(d, now))
    requires HeldAt(s.ledger, id, t, n) && t <= now
    ensures StepKeeps(source, s, ReceiveIssue(d, now), id, t, n)
  {
    hide HeldAt, UniqueIds, KeptIff, Trim, Update, Upsert, Find;
    HeldIsFound(s.ledger, id, t, n);
    if Find(s.ledger, d).None? {
      SavedUpsertKept(s.ledger, Fresh(source, d, Received, now), now, id, t, n);
    } else if Find(s.ledger, d).value.status.Received? {
      SavedUpdateKept(s.ledger, d, IgnoredDuplicate, None, now, id, t, n);
    }
  }

  lemma {:induction false} OtherKept(source: Source, s: State, d: string, now: int, id: string, t: int, n: nat)
    requires UniqueIds(s.ledger) && Enabled(source, s, ReceiveOther(d, now)) && source(id).isIssue
    requires HeldAt(s.ledger, id, t, n) && t <= now
    ensures StepKeeps(source, s, ReceiveOther(d, now), id, t, n)
  {
    var next := Unsupported(d, now);
    assert next.id == d && next.receivedAt == now && d != id;
    hide HeldAt, UniqueIds, KeptIff, Trim, Upsert, Find, Unsupported;
    SavedUpsertKept(s.ledger, next, now, id, t, n);
  }

  lemma {:induction false} JobKept(source: Source, s: State, e: Event, id: string, t: int, n: nat)
    requires UniqueIds(s.ledger) && Enabled(source, s, e)
    requires HeldAt(s.ledger, id, t, n) && !Arrives(e)
    ensures StepKeeps(source, s, e, id, t, n)
  {
    hide HeldAt, UniqueIds, KeptIff, Trim, Update, Find, IsLooped;
    match e
    case Begin(lookup, now) =>
      SavedUpdateKept(s.ledger, s.queue[0], IgnoredLoop, None, now, id, t, n);
      SavedUpdateKept(s.ledger, s.queue[0], Failed, None, now, id, t, n);
      SavedUpdateKept(s.ledger, s.queue[0], IgnoredUnsupported, None, now, id, t, n);
    case Finish(result, now) =>
      var d := s.history[|s.history| - 1].id;
      if result.Returned? {
        SavedUpdateKept(s.ledger, d, result.status, Some(result.created), now, id, t, n);
      } else {
        SavedUpdateKept(s.ledger, d, Failed, None, now, id, t, n);
      }
    case Notified(ok, now) =>
      SavedUpdateKept(s.ledger, s.history[|s.history| - 1].id, Failed, None, now, id, t, n);
  }

  lemma {:induction false} StepKept(source: Source, s: State, e: Event, id: string, t: int, n: nat)
    requires UniqueIds(s.ledger) && Enabled(source, s, e) && source(id).isIssue
    requires HeldAt(s.ledger, id, t, n) && t <= e.now
    ensures StepKeeps(source, s, e, id, t, n)
  {
    hide UniqueIds, Enabled, HeldAt, StepKeeps;
    match e
    case ReceiveIssue(d, now) => IssueKept(source, s, d, now, id, t, n);
    case ReceiveOther(d, now) => OtherKept(source, s, d, now, id, t, n);
    case _ => JobKept(source, s, e, id, t, n);
  }

  /** A step drops the entry if and only if it saves the ledger too late, or adds the thousandth delivery behind it. */
  lemma {:induction false} StepDropsIff(source: Source, s: State, e: Event, id: string, t: int, n: nat)
    requires UniqueIds(s.ledger) && source(id).isIssue && HeldAt(s.ledger, id, t, n) && n < MAX_ENTRIES && t <= e.now
    ensures
      var m := n + (if Adds(source, s, e) then 1 else 0);
      && (Drops(source, s, e, id) <==> (Saves(source, s, e) && e.now > t + RETENTION_MS) || m >= MAX_ENTRIES)
      && (!Drops(source, s, e, id) && Enabled(source, s, e) ==> HeldAt(LedgerAfter(source, s, e), id, t, m))
  {
    hide HeldAt, UniqueIds, LedgerAfter, Find, Enabled;
    HeldIsFound(s.ledger, id, t, n);
    if Enabled(source, s, e) {
      hide Saves, Adds;
      StepKept(source, s, e, id, t, n);
    }
  }

  // --- a run ---

  lemma {:induction false} ArrivalHeldAt(source: Source, s: State, id: string, now: int)
    requires UniqueIds(s.ledger) && source(id).isIssue && Find(s.ledger, id).None?
    ensures HeldAt(LedgerAfter(source, s, ReceiveIssue(id, now)), id, now, 0)
    ensures Find(LedgerAfter(source, s, ReceiveIssue(id, now)), id).Some?
  {
    var next := Fresh(source, id, Received, now);
    UpsertPlaces(s.ledger, next);
    IdsStayUnique(s.ledger, next, Failed, None);
    TrimHeldIff(Upsert(s.ledger, next), now, id, now, 0);
    hide Trim, UniqueIds, Upsert;
  }

  /** The limits of a delivery that first arrived at position p. */
  ghost predicate Within(source: Source, events: seq<Event>, p: nat)
    requires p < |events|
  {
    !SavedLate(source, events, p) && Added(source, events, p) < 1000
  }

  lemma {:induction false} WithinStep(source: Source, events: seq<Event>, p: nat)
    requires p < |events| - 1
    ensures
      var n := |events| - 1;
      var s := Run(source, events[..n]);
      Within(source, events, p) <==>
        && Within(source, events[..n], p)
        && !(Saves(source, s, events[n]) && events[n].now > events[p].now + RETENTION_MS)
        && Added(source, events, p) < MAX_ENTRIES
  {
    var n := |events| - 1;
    hide Saves, Run, Adds;
    forall i | p < i < n ensures SaveAt(source, events, i) <==> SaveAt(source, events[..n], i) {
      assert events[..n][..i] == events[..i];
    }
    if SavedLate(source, events[..n], p) {
      var i :| p < i < n && SaveAt(source, events[..n], i) && events[..n][i].now > events[..n][p].now + RETENTION_MS;
      assert SaveAt(source, events, i);
    }
    assert SaveAt(source, events, n) <==> Saves(source, Run(source, events[..n]), events[n]);
  }

  /** The entry of a delivery is kept in the ledger after the run, and these are the entries behind it. */
  ghost predicate KeptAt(source: Source, events: seq<Event>, id: string, p: nat)
    requires p < |events|
  {
    HeldAt(Run(source, events).ledger, id, events[p].now, Added(source, events, p))
  }

  lemma {:induction false} KeptStep(source: Source, events: seq<Event>, id: string, p: nat)
    requires source(id).isIssue && InOrder(events) && p < |events| - 1
    requires Retained(source, events[..|events| - 1], id) && KeptAt(source, events[..|events| - 1], id, p)
    requires Added(source, events[..|events| - 1], p) < MAX_ENTRIES
    ensures
      var n := |events| - 1;
      var s := Run(source, events[..n]);
      Retained(source, events, id) <==>
        && !(Saves(source, s, events[n]) && events[n].now > events[p].now + RETENTION_MS)
        && Added(source, events, p) < MAX_ENTRIES
    ensures Retained(source, events, id) ==> KeptAt(source, events, id, p)
  {
    hide LedgerAfter, HeldAt, Drops, Saves;
    var n := |events| - 1;
    var s := Run(source, events[..n]);
    RunOrdered(source, events[..n]);
    StepDropsIff(source, s, events[n], id, events[p].now, Added(source, events[..n], p));
  }

  lemma {:induction false} KeptOnArrival(source: Source, events: seq<Event>, id: string)
    requires source(id).isIssue && events != [] && FirstArrival(events, id, |events| - 1)
    ensures Retained(source, events, id) && Within(source, events, |events| - 1)
    ensures KeptAt(source, events, id, |events| - 1)
  {
    var n := |events| - 1;
    var before := events[..n];
    RunOrdered(source, before);
    NotYetArrived(source, before, id);
    ArrivalHeldAt(source, Run(source, before), id, events[n].now);
    hide LedgerAfter, HeldAt, Find, Run;
  }

  /** From its first arrival on, a delivery is kept if and only if the limits are, and then the entries behind
      it are the deliveries added since. */
  lemma {:induction false} KeptWithin(source: Source, events: seq<Event>, id: string, p: nat)
    requires source(id).isIssue && InOrder(events) && FirstArrival(events, id, p)
    ensures Retained(source, events, id) <==> Within(source, events, p)
    ensures Retained(source, events, id) ==>
      HeldAt(Run(source, events).ledger, id, events[p].now, Added(source, events, p))
    decreases |events|
  {
    hide HeldAt, Drops, Saves, Adds, Run, SavedLate, Added;
    var n := |events| - 1;
    var before := events[..n];
    if p == n {
      KeptOnArrival(source, events, id);
    } else {
      assert FirstArrival(before, id, p);
      KeptWithin(source, before, id, p);
      WithinStep(source, events, p);
      if Retained(source, before, id) {
        assert Added(source, before, p) < MAX_ENTRIES;
        KeptStep(source, events, id, p);
      }
    }
  }

  /** In a run in time order a delivery is kept if and only if, after its first arrival, the ledger is never saved
      more than thirty days later and fewer than a thousand deliveries are added. */
  lemma {:induction false} RetainedIff(source: Source, events: seq<Event>, id: string)
    requires source(id).isIssue && InOrder(events)
    ensures Retained(source, events, id)
       <==> forall p: nat :: FirstArrival(events, id, p) ==> Within(source, events, p)
  {
    if i: nat :| i < |events| && events[i].ReceiveIssue? && events[i].id == id {
      var p := FirstExists(events, id, i);
      KeptWithin(source, events, id, p);
      hide Within, Retained;
      assert forall q: nat :: FirstArrival(events, id, q) ==> q == p;
    } else {
      NotYetArrived(source, events, id);
    }
  }
}
