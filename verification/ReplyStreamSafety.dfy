/**
 Safety of the reply stream over every run: any number of deltas, timers, enable and disable
 calls and Slack answers, in any order.
 */
module ReplyStreamSafety {
  import opened Prelude
  import opened ReplyStreamProtocol

  /** The messages Slack shows as long as finalizeReply has not delivered the reply. */
  function Expected(s: State): map<Ts, string> {
    if s.streamTs.Some? then map[s.streamTs.value := s.sent]
    else if s.placeholderTs.Some? then map[s.placeholderTs.value := PROCESSING_NOTICE]
    else map[]
  }

  /** Neither a notice on the page nor one on its way. */
  predicate NoNotice(s: State) { s.placeholderTs.None? && !s.posting }

  predicate InFlight(f: Flush) { f.Calling? || f.Reposting? }

  ghost predicate IdsUsed(messages: map<Ts, string>, nextTs: Ts) {
    forall t :: t in messages ==> t < nextTs
  }

  /** The promise chain: every link before one that has begun is settled. */
  ghost predicate Chained(flushes: seq<Flush>) {
    forall i, j :: 0 <= i < j < |flushes| && !flushes[j].Waiting? ==> flushes[i].Settled?
  }

  /** What is known while a flush is in flight. */
  ghost predicate FlushesOk(flushes: seq<Flush>, noNotice: bool, posting: bool, failed: bool,
                            streamTs: Option<Ts>, sent: string) {
    forall k :: 0 <= k < |flushes| ==>
      var f := flushes[k];
      && (f.Calling? ==>
            && f.target == streamTs && f.rendered == sent + f.append && f.append != ""
            && noNotice && (streamTs.None? ==> !failed))
      && (f.Reposting? ==> posting && failed && streamTs.None?)
  }

  ghost predicate NoneCalling(flushes: seq<Flush>) {
    forall k :: 0 <= k < |flushes| ==> !flushes[k].Calling?
  }

  /** The message a pending enableStreaming means to delete. */
  function DeleteTarget(e: Enable): Option<Ts> {
    match e
    case HavePlaceholder(ts) => ts
    case Deleting(ts) => Some(ts)
    case _ => None
  }

  /** What is known while calls of enableStreaming are pending. */
  ghost predicate EnablesOk(enables: map<int, Enable>, placeholderTs: Option<Ts>, posting: bool, failed: bool,
                            streamTs: Option<Ts>, messages: map<Ts, string>, nextTs: Ts) {
    forall id :: id in enables ==>
      var e := enables[id];
      && (e.WaitPost? ==> posting && !failed)
      && (e.CanEnable? || e == HavePlaceholder(None) ==> failed || (placeholderTs.None? && !posting))
      && (DeleteTarget(e).Some? ==>
            var ts := DeleteTarget(e).value;
            && ts < nextTs
            && streamTs != Some(ts)
            && (placeholderTs == Some(ts) ==> !failed)
            && (ts in messages ==> placeholderTs == Some(ts)))
  }

  ghost predicate Inv(s: State) {
    && IdsUsed(s.messages, s.nextTs)
    && Chained(s.flushes)
    && FlushesOk(s.flushes, NoNotice(s), s.posting, s.failed, s.streamTs, s.sent)
    && EnablesOk(s.enables, s.placeholderTs, s.posting, s.failed, s.streamTs, s.messages, s.nextTs)
    && (s.streamTs.Some? ==> NoNotice(s) && s.streamTs.value < s.nextTs)
    && (s.streamTs.None? <==> s.sent == "")
    && (s.placeholderTs.Some? ==> !s.posting && s.placeholderTs.value < s.nextTs)
    && (s.placeholderTimer ==> NoNotice(s) && !s.enabled && |s.flushes| == 0 && |s.enables| == 0)
    && (s.flushTimer ==> s.enabled)
    && (s.failed || s.streamTs.Some? ==> |s.flushes| > 0)
    && (s.enabled || |s.flushes| > 0 ==> s.failed || NoNotice(s))
    && (s.final.NotCalled? ==> !s.finalized && !s.updateFailed)
    && (s.failed && s.final.NotCalled? ==> NoneCalling(s.flushes))
    && (!s.final.Done? ==> s.messages == Expected(s))
    && (s.final.Stopping? ==> s.streamTs == Some(s.final.ts))
  }

  lemma {:induction false} InitInv(delayed: bool)
    ensures Inv(Init(delayed))
  {
  }

  lemma {:induction false} ExtendsItself(s: State)
    ensures Extends(s, s)
  {
  }

  lemma {:induction false} ExtendsOn(s: State, t: State, u: State)
    requires Extends(s, t) && Extends(t, u)
    ensures Extends(s, u)
  {
  }

  lemma {:induction false} SettleInv(s: State, k: int)
    requires Inv(s) && 0 <= k < |s.flushes|
    requires forall i :: 0 <= i < k ==> s.flushes[i].Settled?
    ensures Inv(Settle(s, k)) && Extends(s, Settle(s, k))
  {
  }

  /** Flush k has computed what to send. */
  lemma {:induction false} CallInv(s: State, k: int, rendered: string)
    requires Inv(s) && CanBegin(s, k) && s.enabled && !s.failed && s.sent < rendered
    ensures var t := s.(flushes := s.flushes[k := Calling(s.streamTs, rendered[|s.sent|..], rendered)]);
            Inv(t) && Extends(s, t)
  {
  }

  lemma {:induction false} FailFlushInv(s: State, k: int)
    requires Inv(s) && 0 <= k < |s.flushes| && !s.flushes[k].Settled?
    requires forall i :: 0 <= i < k ==> s.flushes[i].Settled?
    ensures Inv(FailFlush(s, k)) && Extends(s, FailFlush(s, k))
  {
    forall j | k < j < |s.flushes| ensures s.flushes[j].Waiting? { assert !s.flushes[k].Settled?; }
  }

  lemma {:induction false} BeforeTheFirstWaiting(s: State, k: int)
    requires Chained(s.flushes) && CanBegin(s, k)
    ensures forall i :: 0 <= i < k ==> s.flushes[i].Settled?
  {
  }

  lemma {:induction false} FlushBeginsInv(cfg: Config, s: State, k: int)
    requires Inv(s)
    ensures Inv(OnFlushBegins(cfg, s, k)) && Extends(s, OnFlushBegins(cfg, s, k))
  {
    ExtendsItself(s);
    if CanBegin(s, k) {
      BeforeTheFirstWaiting(s, k);
      hide Inv, Extends, Settle, FailFlush;
      SettleInv(s, k);
      FailFlushInv(s, k);
      var rendered := cfg.render(s.buffered);
      if s.enabled && !s.failed && s.sent < rendered {
        CallInv(s, k, rendered);
      }
    }
  }

  lemma {:induction false} StreamStartedInv(s: State, k: int)
    requires Inv(s) && 0 <= k < |s.flushes| && s.flushes[k].Calling? && s.flushes[k].target.None?
    ensures Inv(StreamStarted(s, k)) && Extends(s, StreamStarted(s, k))
  {
    forall j | k < j < |s.flushes| ensures s.flushes[j].Waiting? { assert !s.flushes[k].Settled?; }
    assert s.flushes[k].rendered == s.flushes[k].append;
  }

  lemma {:induction false} StreamAppendedInv(s: State, k: int)
    requires Inv(s) && 0 <= k < |s.flushes| && s.flushes[k].Calling?
    requires s.flushes[k].target.Some? && s.flushes[k].target.value in s.messages
    ensures Inv(StreamAppended(s, k)) && Extends(s, StreamAppended(s, k))
  {
    forall j | k < j < |s.flushes| ensures s.flushes[j].Waiting? { assert !s.flushes[k].Settled?; }
  }

  /** Recording what was sent and settling the link is one step. */
  lemma {:induction false} StartSettles(s: State, k: int)
    requires 0 <= k < |s.flushes| && s.flushes[k].Calling? && s.flushes[k].target.None?
    ensures Settle(Recorded(s, s.flushes[k]), k) == StreamStarted(s, k)
  {
  }

  lemma {:induction false} AppendSettles(s: State, k: int)
    requires 0 <= k < |s.flushes| && s.flushes[k].Calling?
    requires s.flushes[k].target.Some? && s.flushes[k].target.value in s.messages
    ensures Settle(Recorded(s, s.flushes[k]), k) == StreamAppended(s, k)
  {
  }

  lemma {:induction false} RecordedSettles(s: State, k: int)
    requires 0 <= k < |s.flushes| && s.flushes[k].Calling?
    requires s.flushes[k].target.Some? ==> s.flushes[k].target.value in s.messages
    ensures Settle(Recorded(s, s.flushes[k]), k) == OnFlushAnswered(s, k, true)
  {
    if s.flushes[k].target.None? {
      StartSettles(s, k);
    } else {
      AppendSettles(s, k);
    }
  }

  lemma {:induction false} FlushAnsweredInv(s: State, k: int, ok: bool)
    requires Inv(s)
    ensures Inv(OnFlushAnswered(s, k, ok)) && Extends(s, OnFlushAnswered(s, k, ok))
  {
    if 0 <= k < |s.flushes| && s.flushes[k].Calling? {
      if !ok {
        FailFlushInv(s, k);
      } else if s.flushes[k].target.None? {
        StreamStartedInv(s, k);
      } else if s.flushes[k].target.value in s.messages {
        StreamAppendedInv(s, k);
      }
    }
  }

  lemma {:induction false} PushInv(s: State, delta: string)
    requires Inv(s)
    ensures Inv(OnPush(s, delta)) && Extends(s, OnPush(s, delta))
  {
  }

  lemma {:induction false} FlushTimerInv(s: State)
    requires Inv(s)
    ensures Inv(OnFlushTimer(s)) && Extends(s, OnFlushTimer(s))
  {
  }

  lemma {:induction false} EnableCalledInv(cfg: Config, s: State, id: int)
    requires Inv(s)
    ensures Inv(OnEnableCalled(cfg, s, id)) && Extends(s, OnEnableCalled(cfg, s, id))
  {
  }

  lemma {:induction false} StreamingOnInv(s: State, id: int)
    requires Inv(s) && id in s.enables && s.enables[id].CanEnable?
    ensures Inv(StreamingOn(s, id)) && Extends(s, StreamingOn(s, id))
  {
  }

  lemma {:induction false} EnableMovesInv(s: State, id: int, next: Enable)
    requires Inv(s) && id in s.enables && s.enables[id].HavePlaceholder?
    requires next == AfterPlaceholder(s.enables[id].ts)
    ensures var t := s.(enables := s.enables[id := next]);
            Inv(t) && Extends(s, t)
  {
  }

  lemma {:induction false} EnableResumesInv(s: State, id: int)
    requires Inv(s)
    ensures Inv(OnEnableResumes(s, id)) && Extends(s, OnEnableResumes(s, id))
  {
    ExtendsItself(s);
    hide Inv, Extends, StreamingOn, AfterPlaceholder;
    if id in s.enables && s.enables[id].CanEnable? {
      StreamingOnInv(s, id);
    } else if id in s.enables && s.enables[id].HavePlaceholder? {
      EnableMovesInv(s, id, AfterPlaceholder(s.enables[id].ts));
    }
  }

  lemma {:induction false} DeleteAnsweredInv(s: State, id: int, ok: bool)
    requires Inv(s)
    ensures Inv(OnDeleteAnswered(s, id, ok)) && Extends(s, OnDeleteAnswered(s, id, ok))
  {
  }

  lemma {:induction false} DisableInv(s: State)
    requires Inv(s)
    ensures Inv(OnDisable(s)) && Extends(s, OnDisable(s))
  {
  }

  lemma {:induction false} PlaceholderTimerInv(s: State)
    requires Inv(s)
    ensures Inv(OnPlaceholderTimer(s)) && Extends(s, OnPlaceholderTimer(s))
  {
  }

  lemma {:induction false} NoticePostedInv(s: State, ok: bool)
    requires Inv(s)
    ensures Inv(OnNoticePosted(s, ok)) && Extends(s, OnNoticePosted(s, ok))
  {
  }

  lemma {:induction false} FinalMovesInv(s: State, finalized: bool, next: Final)
    requires Inv(s) && !s.final.Done? && !next.Done?
    requires !next.NotCalled?
    requires next.Stopping? ==> s.streamTs == Some(next.ts)
    ensures Inv(s.(finalized := finalized, final := next))
  {
  }

  lemma {:induction false} FinalizeCalledInv(cfg: Config, s: State, reply: string)
    requires Inv(s)
    ensures Inv(OnFinalizeCalled(cfg, s, reply)) && Extends(s, OnFinalizeCalled(cfg, s, reply))
  {
  }

  lemma {:induction false} FinalizeResumesInv(cfg: Config, s: State)
    requires Inv(s)
    ensures Inv(OnFinalizeResumes(cfg, s)) && Extends(s, OnFinalizeResumes(cfg, s))
  {
    if s.final.FlushDone? {
      FinalMovesInv(s, s.finalized || !StopsStream(cfg, s), AfterFlush(cfg, s));
    }
  }

  ghost predicate NoNewIds(messages: map<Ts, string>, before: map<Ts, string>, added: Ts) {
    forall t :: t in messages ==> t in before || t == added
  }

  /** finalizeReply has delivered: in a message that was shown or in a new one. */
  lemma {:induction false} DeliveredInv(s: State, messages: map<Ts, string>, nextTs: Ts, finalized: bool)
    requires Inv(s) && !s.final.NotCalled? && !s.final.Done? && !s.final.Thrown?
    requires s.nextTs <= nextTs && IdsUsed(messages, nextTs) && NoNewIds(messages, s.messages, s.nextTs)
    requires s.finalized ==> finalized
    ensures var t := s.(messages := messages, nextTs := nextTs, finalized := finalized, final := Done);
            Inv(t) && Extends(s, t)
  {
  }

  /** finalizeReply goes on to another way of delivering. */
  lemma {:induction false} FallbackInv(s: State, failed: bool, finalized: bool, next: Final, updateFailed: bool)
    requires s.finalized ==> finalized
    requires Inv(s) && !s.final.NotCalled? && !s.final.Done?
    requires failed ==> s.failed || s.final.Stopping?
    requires Rank(s.final) < Rank(next) && !next.Stopping? && !next.Done? && (s.failed ==> failed)
    ensures var t := s.(failed := failed, finalized := finalized, final := next, updateFailed := updateFailed);
            Inv(t) && Extends(s, t)
  {
  }

  lemma {:induction false} StopAnsweredInv(s: State, ok: bool)
    requires Inv(s)
    ensures Inv(OnStopAnswered(s, ok)) && Extends(s, OnStopAnswered(s, ok))
  {
    ExtendsItself(s);
    if s.final.Stopping? {
      FallbackInv(s, true, true, FallbackTarget(s), s.updateFailed);
      if s.final.ts in s.messages {
        DeliveredInv(s, s.messages[s.final.ts := s.messages[s.final.ts] + s.final.append], s.nextTs, true);
      }
    }
    hide Inv, Extends, FallbackTarget;
  }

  /** The message that is being stopped is on the page. */
  lemma {:induction false} StreamIsShown(s: State)
    requires Inv(s) && s.final.Stopping?
    ensures s.streamTs == Some(s.final.ts) && s.final.ts in s.messages
  {
  }

  lemma {:induction false} UpdateAnsweredInv(cfg: Config, s: State, ok: bool)
    requires Inv(s)
    ensures Inv(OnUpdateAnswered(cfg, s, ok)) && Extends(s, OnUpdateAnswered(cfg, s, ok))
  {
    ExtendsItself(s);
    if s.final.Updating? {
      FallbackInv(s, s.failed, s.finalized, Posting, true);
      if s.final.ts in s.messages {
        DeliveredInv(s, s.messages[s.final.ts := cfg.render(s.reply)], s.nextTs, s.finalized);
      }
    }
    hide Inv, Extends;
  }

  /** The reply is a message of its own. */
  lemma {:induction false} PostedInv(s: State, text: string)
    requires Inv(s) && s.final.Posting?
    ensures var t := s.(messages := s.messages[s.nextTs := text], nextTs := s.nextTs + 1, final := Done);
            Inv(t) && Extends(s, t)
  {
    assert IdsUsed(s.messages, s.nextTs);
    hide Inv, Extends;
    DeliveredInv(s, s.messages[s.nextTs := text], s.nextTs + 1, s.finalized);
  }

  lemma {:induction false} ReplyPostedInv(cfg: Config, s: State, ok: bool)
    requires Inv(s)
    ensures Inv(OnReplyPosted(cfg, s, ok)) && Extends(s, OnReplyPosted(cfg, s, ok))
  {
    ExtendsItself(s);
    hide Inv, Extends;
    if s.final.Posting? {
      FallbackInv(s, s.failed, s.finalized, Thrown, s.updateFailed);
      PostedInv(s, cfg.render(s.reply));
    }
  }

  lemma {:induction false} StepInv(cfg: Config, s: State, e: Event)
    requires Inv(s)
    ensures Inv(Step(cfg, s, e)) && Extends(s, Step(cfg, s, e))
  {
    hide Inv, Extends;
    hide OnPlaceholderTimer, OnNoticePosted, OnPush, OnFlushTimer, OnFlushBegins, OnFlushAnswered, OnEnableCalled;
    hide OnEnableResumes, OnDeleteAnswered, OnDisable, OnFinalizeCalled, OnFinalizeResumes, OnStopAnswered;
    hide OnUpdateAnswered, OnReplyPosted;
    match e
    case PlaceholderTimerFires => PlaceholderTimerInv(s);
    case NoticePosted(ok) => NoticePostedInv(s, ok);
    case Push(delta) => PushInv(s, delta);
    case FlushTimerFires => FlushTimerInv(s);
    case FlushBegins(k) => FlushBeginsInv(cfg, s, k);
    case FlushAnswered(k, ok) => FlushAnsweredInv(s, k, ok);
    case EnableCalled(id) => EnableCalledInv(cfg, s, id);
    case EnableResumes(id) => EnableResumesInv(s, id);
    case DeleteAnswered(id, ok) => DeleteAnsweredInv(s, id, ok);
    case Disable => DisableInv(s);
    case FinalizeCalled(reply) => FinalizeCalledInv(cfg, s, reply);
    case FinalizeResumes => FinalizeResumesInv(cfg, s);
    case StopAnswered(ok) => StopAnsweredInv(s, ok);
    case UpdateAnswered(ok) => UpdateAnsweredInv(cfg, s, ok);
    case ReplyPosted(ok) => ReplyPostedInv(cfg, s, ok);
  }

  lemma {:induction false} NextInv(cfg: Config, s: State, e: Event)
    requires Inv(s)
    ensures Inv(Next(cfg, s, e)) && Extends(s, Next(cfg, s, e))
  {
    ExtendsItself(s);
    hide Inv, Extends, Step;
    StepInv(cfg, s, e);
  }

  lemma {:induction false} RunInv(cfg: Config, s: State, events: seq<Event>)
    requires Inv(s)
    ensures Inv(Run(cfg, s, events)) && Extends(s, Run(cfg, s, events))
    decreases |events|
  {
    ExtendsItself(s);
    hide Inv, Extends, Next;
    if events != [] {
      var t := Next(cfg, s, events[0]);
      NextInv(cfg, s, events[0]);
      RunInv(cfg, t, events[1..]);
      ExtendsOn(s, t, Run(cfg, t, events[1..]));
    }
  }

  /** In every run at most one flush is in flight, and every flush before it has ended. */
  lemma {:induction false} FlushesNeverOverlap(cfg: Config, delayed: bool, events: seq<Event>)
    ensures var s := Run(cfg, Init(delayed), events);
            forall i, j | 0 <= i < |s.flushes| && 0 <= j < |s.flushes| ::
              InFlight(s.flushes[i]) && InFlight(s.flushes[j]) ==> i == j
  {
    InitInv(delayed);
    RunInv(cfg, Init(delayed), events);
  }

  /** In every run, until the reply is delivered, the stream shows exactly what the controller
      recorded as sent, and nothing but the stream (or, before it, the one notice) is shown. */
  lemma {:induction false} ShownIsRecorded(cfg: Config, delayed: bool, events: seq<Event>)
    ensures var s := Run(cfg, Init(delayed), events);
            && (!s.final.Done? ==> s.messages == Expected(s))
            && (s.streamTs.Some? && !s.final.Done? ==> s.messages == map[s.streamTs.value := s.sent])
  {
    InitInv(delayed);
    RunInv(cfg, Init(delayed), events);
  }

  /** Streamed text only grows by extension: for every run and every later moment of it. */
  lemma {:induction false} StreamOnlyGrows(cfg: Config, delayed: bool, before: seq<Event>, after: seq<Event>)
    ensures var s := Run(cfg, Init(delayed), before);
            var t := Run(cfg, s, after);
            && s.sent <= t.sent
            && (s.streamTs.Some? ==> t.streamTs == s.streamTs)
            && (s.streamTs.Some? && !s.final.Done? && !t.final.Done? ==>
                  s.streamTs.value in s.messages && s.streamTs.value in t.messages
                  && s.messages[s.streamTs.value] <= t.messages[s.streamTs.value])
  {
    InitInv(delayed);
    RunInv(cfg, Init(delayed), before);
    RunInv(cfg, Run(cfg, Init(delayed), before), after);
  }
}
