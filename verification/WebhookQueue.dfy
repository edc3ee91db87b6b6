/**
 The webhook's jobs on the promise chain. Only the chain decides when a job starts; the webhook model
 assumes a queue that hands out deliveries one by one, and that is what the chain provides.
 */
module WebhookQueue {
  import opened Prelude
  import Q = ThreadQueue
  import W = Webhook

  const KEY := "linear-webhook"

  /** Promise i is the job of the i-th delivery that was accepted. */
  datatype State = State(chain: Q.State, hook: W.State)

  datatype Event =
    | Receive(webhook: W.Event)
    | JobStarts(id: nat, lookup: W.Lookup, now: int)
    | JobGoesOn(step: W.Event)
    | JobSettles(id: nat, ok: bool)
    | JobReleases(id: nat)

  function Init(): State {
    State(Q.Init(), W.Init())
  }

  /** A webhook may always arrive; a job starts when the chain lets it and settles when its body has ended. */
  predicate Enabled(source: W.Source, s: State, e: Event) {
    match e
    case Receive(w) => (w.ReceiveIssue? || w.ReceiveOther?) && W.Enabled(source, s.hook, w)
    case JobStarts(id, _, _) => Q.Enabled(s.chain, Q.Start(id))
    case JobGoesOn(w) => (w.Finish? || w.Notified?) && W.Enabled(source, s.hook, w)
    case JobSettles(id, ok) => Q.Enabled(s.chain, Q.Settle(id, ok)) && s.hook.phase.Idle?
    case JobReleases(id) => Q.Enabled(s.chain, Q.Release(id))
  }

  /** The step of the webhook model that an event is, if it is one. */
  function HookStep(e: Event): Option<W.Event> {
    match e
    case Receive(w) => Some(w)
    case JobStarts(_, lookup, now) => Some(W.Begin(lookup, now))
    case JobGoesOn(w) => Some(w)
    case _ => None
  }

  /** A webhook step that its model does not allow leaves the state as it is. */
  function HookAfter(source: W.Source, hook: W.State, step: Option<W.Event>): W.State {
    if step.Some? && W.Enabled(source, hook, step.value) then W.Next(source, hook, step.value) else hook
  }

  /** An accepted webhook puts its job on the chain. */
  function ChainAfter(chain: Q.State, before: W.State, after: W.State, e: Event): Q.State
    requires e.JobStarts? ==> Q.Enabled(chain, Q.Start(e.id))
    requires e.JobSettles? ==> Q.Enabled(chain, Q.Settle(e.id, e.ok))
    requires e.JobReleases? ==> Q.Enabled(chain, Q.Release(e.id))
  {
    match e
    case Receive(_) => if |after.accepted| > |before.accepted| then Q.Next(chain, Q.Enqueue(KEY)) else chain
    case JobStarts(id, _, _) => Q.Next(chain, Q.Start(id))
    case JobGoesOn(_) => chain
    case JobSettles(id, ok) => Q.Next(chain, Q.Settle(id, ok))
    case JobReleases(id) => Q.Next(chain, Q.Release(id))
  }

  function Next(source: W.Source, s: State, e: Event): State
    requires Enabled(source, s, e)
  {
    var hook := HookAfter(source, s.hook, HookStep(e));
    State(ChainAfter(s.chain, s.hook, hook, e), hook)
  }

  function Run(source: W.Source, events: seq<Event>): State {
    if events == [] then Init() else
      var s := Run(source, events[..|events| - 1]);
      var e := events[|events| - 1];
      if Enabled(source, s, e) then Next(source, s, e) else s
  }

  // --- what ties the two together ---

  ghost predicate OneKey(promises: seq<Q.Promise>) {
    forall i :: 0 <= i < |promises| ==> promises[i].key == KEY
  }

  /** The promises before number n have started, the others wait. */
  ghost predicate StartedUpTo(promises: seq<Q.Promise>, n: nat) {
    forall i :: 0 <= i < |promises| ==> (promises[i].phase.Waiting? <==> n <= i)
  }

  ghost predicate Linked(s: State) {
    && Q.Inv(s.chain) && W.Ordered(s.hook)
    && OneKey(s.chain.promises)
    && |s.chain.promises| == |s.hook.accepted|
    && |s.hook.history| <= |s.hook.accepted| && StartedUpTo(s.chain.promises, |s.hook.history|)
    && (!s.hook.phase.Idle? ==> s.chain.promises[|s.hook.history| - 1].phase.Running?)
  }

  /** Only the job behind all started ones can start, and none of those is still at work. */
  lemma {:induction false} StartsInOrder(s: State, id: nat)
    requires Linked(s) && Q.Enabled(s.chain, Q.Start(id))
    ensures id == |s.hook.history| && s.hook.phase.Idle?
    ensures s.hook.queue != [] && s.hook.queue[0] == s.hook.accepted[id]
  {
    var n := |s.hook.history|;
    Q.ActiveMeansFirst(s.chain, Q.Start(id));
    assert s.chain.promises[id].key == KEY;
    hide Q.Inv;
    assert n < |s.chain.promises| ==> s.chain.promises[n].phase.Waiting?;
    assert s.hook.accepted == W.RecordIds(s.hook.history) + s.hook.queue;
  }

  lemma {:induction false} StartLinked(source: W.Source, s: State, e: Event)
    requires Linked(s) && e.JobStarts? && Enabled(source, s, e)
    ensures Linked(Next(source, s, e))
  {
    StartsInOrder(s, e.id);
    Q.StartInv(s.chain, e.id);
    W.NextOrdered(source, s.hook, W.Begin(e.lookup, e.now));
    hide Q.Inv, W.Ordered, W.LedgerAfter;
  }

  lemma {:induction false} ReceiveLinked(source: W.Source, s: State, e: Event)
    requires Linked(s) && e.Receive? && Enabled(source, s, e)
    ensures Linked(Next(source, s, e))
  {
    Q.EnqueueInv(s.chain, KEY);
    W.NextOrdered(source, s.hook, e.webhook);
    hide Q.Inv, W.Ordered, W.LedgerAfter;
  }

  lemma {:induction false} GoesOnLinked(source: W.Source, s: State, e: Event)
    requires Linked(s) && e.JobGoesOn? && Enabled(source, s, e)
    ensures Linked(Next(source, s, e))
  {
    W.NextOrdered(source, s.hook, e.step);
    hide Q.Inv, W.Ordered, W.LedgerAfter;
  }

  lemma {:induction false} EndLinked(source: W.Source, s: State, e: Event)
    requires Linked(s) && (e.JobSettles? || e.JobReleases?) && Enabled(source, s, e)
    ensures Linked(Next(source, s, e))
  {
    if e.JobSettles? {
      Q.SettleInv(s.chain, e.id, e.ok);
    } else {
      Q.ReleaseInv(s.chain, e.id);
      if !s.hook.phase.Idle? && e.id != |s.hook.history| - 1 {
        assert s.chain.promises[|s.hook.history| - 1].phase.Running?;
      }
    }
    hide Q.Inv, W.Ordered;
  }

  lemma {:induction false} RunLinked(source: W.Source, events: seq<Event>)
    ensures Linked(Run(source, events))
  {
    if events == [] {
      Q.InitInv();
    } else {
      var s, e := Run(source, events[..|events| - 1]), events[|events| - 1];
      RunLinked(source, events[..|events| - 1]);
      hide Linked, Next;
      if Enabled(source, s, e) {
        match e
        case Receive(_) => ReceiveLinked(source, s, e);
        case JobStarts(_, _, _) => StartLinked(source, s, e);
        case JobGoesOn(_) => GoesOnLinked(source, s, e);
        case _ => EndLinked(source, s, e);
      }
    }
  }

  // --- main results ---

  /** In every run, whenever the chain lets a job start, no other job is at work, and the job is that of the
      delivery next in the order of acceptance. */
  lemma {:induction false} ChainServesTheQueue(source: W.Source, events: seq<Event>, id: nat, lookup: W.Lookup, now: int)
    requires Q.Enabled(Run(source, events).chain, Q.Start(id))
    ensures var hook := Run(source, events).hook;
            && W.Enabled(source, hook, W.Begin(lookup, now))
            && id == |hook.history| < |hook.accepted| && hook.queue[0] == hook.accepted[id]
  {
    RunLinked(source, events);
    StartsInOrder(Run(source, events), id);
  }

  /** The webhook steps a run takes. */
  function HookSteps(source: W.Source, events: seq<Event>): seq<W.Event> {
    if events == [] then [] else
      var before, e := events[..|events| - 1], events[|events| - 1];
      var taken := Enabled(source, Run(source, before), e) && HookStep(e).Some?;
      HookSteps(source, before) + (if taken then [HookStep(e).value] else [])
  }

  lemma {:induction false} HookRunStep(source: W.Source, steps: seq<W.Event>, step: W.Event)
    ensures W.Run(source, steps + [step]) == HookAfter(source, W.Run(source, steps), Some(step))
  {
    hide W.Next, W.Enabled;
    assert (steps + [step])[..|steps|] == steps;
  }

  lemma {:induction false} HookOfNext(source: W.Source, s: State, e: Event)
    requires Enabled(source, s, e)
    ensures Next(source, s, e).hook == HookAfter(source, s.hook, HookStep(e))
  {
  }

  /** On the chain the webhook takes a run of its own model, so what holds of those runs holds here. */
  lemma {:induction false} ChainRunsTheWebhook(source: W.Source, events: seq<Event>)
    ensures Run(source, events).hook == W.Run(source, HookSteps(source, events))
  {
    if events != [] {
      var before, e := events[..|events| - 1], events[|events| - 1];
      var s, steps := Run(source, before), HookSteps(source, before);
      ChainRunsTheWebhook(source, before);
      if Enabled(source, s, e) {
        HookOfNext(source, s, e);
        if HookStep(e).Some? {
          HookRunStep(source, steps, HookStep(e).value);
        }
      }
      assert steps + [] == steps;
      hide Next, Enabled, W.Run, W.Enabled, W.Next, ChainAfter;
    }
  }

  /** Nothing is lost between the two: a run's accepted deliveries are those its jobs took and those whose
      jobs still wait, in order. */
  lemma {:induction false} AcceptedAreJobs(source: W.Source, events: seq<Event>)
    ensures var s := Run(source, events);
            && |s.hook.history| <= |s.chain.promises| == |s.hook.accepted|
            && (forall i :: 0 <= i < |s.chain.promises| && !s.chain.promises[i].phase.Waiting? ==>
                  i < |s.hook.history| && s.hook.history[i].id == s.hook.accepted[i])
            && (forall i :: 0 <= i < |s.hook.history| ==> !s.chain.promises[i].phase.Waiting?)
  {
    RunLinked(source, events);
    var s := Run(source, events);
    hide Q.Inv;
    forall i | 0 <= i < |s.hook.history| ensures s.hook.history[i].id == s.hook.accepted[i] {
      assert W.RecordIds(s.hook.history)[i] == s.hook.history[i].id;
    }
  }
}
