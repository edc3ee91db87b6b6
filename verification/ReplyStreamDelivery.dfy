/**
 What finalizeReply leaves on the page: one live message with the rendered reply, whatever happens after
 the call, provided it is called at a quiet moment and no later delta can still be shown. The invariant
 behind it holds phase by phase, and comes in two readings: for runs with late deltas and for runs without.
 */
module ReplyStreamDelivery {
  import opened Prelude
  import opened ReplyStreamProtocol
  import opened ReplyStreamSafety

  ghost predicate EnablesQuiet(enables: map<int, Enable>, messages: map<Ts, string>) {
    forall id :: id in enables ==>
      var e := enables[id];
      !e.WaitPost? && (DeleteTarget(e).Some? ==> DeleteTarget(e).value !in messages)
  }

  /** No enableStreaming is about to delete the shown notice, and no stream call is under way while
      streaming is off. */
  ghost predicate Quiet(s: State) {
    && EnablesQuiet(s.enables, s.messages)
    && (NoneCalling(s.flushes) || (s.enabled && !s.disabled))
  }

  predicate NoPush(events: seq<Event>) {
    forall i :: 0 <= i < |events| ==> !events[i].Push?
  }

  /** Exactly one live message of this controller, and it shows `text`. */
  ghost predicate OnlyMessage(messages: map<Ts, string>, text: string) {
    exists ts :: messages == map[ts := text]
  }

  /* ---- what a later delta can still show ---- */

  /** All text sent, or under way, is a beginning of `text`. */
  ghost predicate Fits(sent: string, flushes: seq<Flush>, text: string) {
    && sent <= text
    && forall k :: 0 <= k < |flushes| && flushes[k].Calling? ==> flushes[k].rendered <= text
  }

  /** Text that can arrive: anything, or nothing when late deltas are excluded. */
  predicate Arrives(deltas: bool, text: string) { deltas || text == "" }

  /** The stream could come to show `buffered + a`, which the reply still extends, and then grow by b. */
  predicate Extendable(cfg: Config, reply: string, buffered: string, a: string, b: string) {
    var shown := cfg.render(buffered + a);
    shown != "" && shown <= cfg.render(reply) && shown < cfg.render(buffered + a + b)
  }

  /** If the stream is stopped after the last flush, no later flush has anything to add. */
  ghost predicate LastFlushIsLast(cfg: Config, reply: string, sent: string, flushes: seq<Flush>, buffered: string,
                                  deltas: bool) {
    forall a, b {:trigger Extendable(cfg, reply, buffered, a, b)} ::
      Arrives(deltas, a) && Arrives(deltas, b) && Fits(sent, flushes, cfg.render(buffered + a)) ==>
        !Extendable(cfg, reply, buffered, a, b)
  }

  /** If the stream can be stopped as it is, no flush adds to it any more. */
  ghost predicate Stuck(cfg: Config, reply: string, sent: string, buffered: string, deltas: bool) {
    sent != "" && sent <= cfg.render(reply) ==>
      forall b :: Arrives(deltas, b) ==> !(sent < cfg.render(buffered + b))
  }

  /** Streaming is on and has not failed: finalizeReply flushes before it stops the stream. */
  predicate Streaming(s: State) { s.enabled && !s.disabled && !s.failed }

  /** A delta that arrives after the reply was handed over can still be shown: the last flush can leave the
      stream with a beginning of the reply, so that it is stopped, and more text extends that beginning. */
  ghost predicate LateTextShows(cfg: Config, s: State, reply: string) {
    Streaming(s) && !LastFlushIsLast(cfg, reply, s.sent, s.flushes, reply, true)
  }

  /** Without deltas the last flush is the last. */
  lemma {:induction false} NothingArrives(cfg: Config, reply: string, sent: string, flushes: seq<Flush>, buffered: string)
    ensures LastFlushIsLast(cfg, reply, sent, flushes, buffered, false)
  {
    assert buffered + "" + "" == buffered + "";
  }

  lemma {:induction false} LastAfterDelta(cfg: Config, reply: string, sent: string, flushes: seq<Flush>, buffered: string,
                                          delta: string)
    requires LastFlushIsLast(cfg, reply, sent, flushes, buffered, true)
    ensures LastFlushIsLast(cfg, reply, sent, flushes, buffered + delta, true)
  {
    forall a, b | Fits(sent, flushes, cfg.render(buffered + delta + a))
      ensures !Extendable(cfg, reply, buffered + delta, a, b)
    {
      assert buffered + delta + a == buffered + (delta + a);
      assert buffered + delta + a + b == buffered + (delta + a) + b;
      assert !Extendable(cfg, reply, buffered, delta + a, b);
    }
  }

  lemma {:induction false} StuckAfterDelta(cfg: Config, reply: string, sent: string, buffered: string, delta: string)
    requires Stuck(cfg, reply, sent, buffered, true)
    ensures Stuck(cfg, reply, sent, buffered + delta, true)
  {
    if sent != "" && sent <= cfg.render(reply) {
      forall b ensures !(sent < cfg.render(buffered + delta + b)) {
        assert buffered + delta + b == buffered + (delta + b);
      }
    }
  }

  /** Once the stream shows what is buffered it is stuck. */
  lemma {:induction false} StuckAtTheEnd(cfg: Config, reply: string, sent: string, flushes: seq<Flush>, buffered: string,
                                         deltas: bool)
    requires LastFlushIsLast(cfg, reply, sent, flushes, buffered, deltas)
    requires Fits(sent, flushes, cfg.render(buffered))
    ensures Stuck(cfg, reply, cfg.render(buffered), buffered, deltas)
  {
    var shown := cfg.render(buffered);
    if shown != "" && shown <= cfg.render(reply) {
      forall b | Arrives(deltas, b) ensures !(shown < cfg.render(buffered + b)) {
        assert buffered + "" == buffered;
        assert !Extendable(cfg, reply, buffered, "", b);
      }
    }
  }

  lemma {:induction false} StuckNow(cfg: Config, reply: string, sent: string, buffered: string, deltas: bool)
    requires Stuck(cfg, reply, sent, buffered, deltas) && sent != "" && sent <= cfg.render(reply)
    ensures !(sent < cfg.render(buffered))
  {
    assert buffered + "" == buffered;
  }

  /* ---- phase by phase ---- */

  ghost predicate NoneInFlight(flushes: seq<Flush>) {
    forall k :: 0 <= k < |flushes| ==> !InFlight(flushes[k])
  }

  /** No flush can add to the stream: it failed, was turned off, or is stuck. */
  ghost predicate Capped(cfg: Config, deltas: bool, s: State) {
    s.failed || s.disabled || Stuck(cfg, s.reply, s.sent, s.buffered, deltas)
  }

  /** What holds from the call of finalizeReply on, phase by phase. */
  ghost predicate Phase(cfg: Config, deltas: bool, s: State) {
    var full := cfg.render(s.reply);
    match s.final
    case NotCalled => false
    case WaitFlush(k) =>
      && 0 <= k < |s.flushes| && !s.flushes[k].Settled? && !s.finalized
      && (s.flushes[k].Calling? ==> s.disabled || Stuck(cfg, s.reply, s.flushes[k].rendered, s.buffered, deltas))
    case FlushDone => !s.finalized && Capped(cfg, deltas, s) && NoneInFlight(s.flushes)
    case Stopping(ts, append) =>
      !s.finalized && s.sent + append == full && Capped(cfg, deltas, s) && NoneInFlight(s.flushes)
    case WaitPlaceholder => s.finalized && s.posting && NoneCalling(s.flushes)
    case Updating(ts) =>
      && s.finalized && !s.posting && NoneInFlight(s.flushes) && !s.updateFailed
      && (s.streamTs == Some(ts) || s.placeholderTs == Some(ts))
    case Done =>
      s.finalized && !s.posting && NoneInFlight(s.flushes) && (s.updateFailed || OnlyMessage(s.messages, full))
    case _ =>
      && s.finalized && !s.posting && NoneInFlight(s.flushes)
      && (s.updateFailed || (s.streamTs.None? && s.placeholderTs.None?))
  }

  /** Before finalizing, as long as nothing failed, the flushes to come are known to end with the last. */
  ghost predicate Ahead(cfg: Config, deltas: bool, s: State) {
    !s.disabled && !s.finalized ==>
      s.enabled && (s.failed || LastFlushIsLast(cfg, s.reply, s.sent, s.flushes, s.buffered, deltas))
  }

  predicate Early(final: Final) {
    final.WaitFlush? || final.FlushDone? || final.Stopping? || final.WaitPlaceholder?
  }

  ghost predicate Finishing(cfg: Config, deltas: bool, s: State) {
    && Inv(s)
    && !s.placeholderTimer
    && EnablesQuiet(s.enables, s.messages)
    && Ahead(cfg, deltas, s)
    && (Early(s.final) ==> !s.updateFailed)
    && Phase(cfg, deltas, s)
  }

  /** The phase facts only speak of flushes that are in flight. */
  lemma {:induction false} PhaseWithFlushes(cfg: Config, deltas: bool, s: State, flushes: seq<Flush>)
    requires Phase(cfg, deltas, s)
    requires NoneInFlight(s.flushes) ==> NoneInFlight(flushes)
    requires NoneCalling(s.flushes) ==> NoneCalling(flushes)
    requires s.final.WaitFlush? ==> s.final.index < |flushes| && flushes[s.final.index] == s.flushes[s.final.index]
    ensures Phase(cfg, deltas, s.(flushes := flushes))
  {
  }

  lemma {:induction false} OneMoreFlush(cfg: Config, deltas: bool, s: State)
    requires Phase(cfg, deltas, s) && Ahead(cfg, deltas, s)
    ensures var t := s.(flushes := s.flushes + [Waiting]);
            Phase(cfg, deltas, t) && Ahead(cfg, deltas, t)
  {
    PhaseWithFlushes(cfg, deltas, s, s.flushes + [Waiting]);
    if !s.disabled && !s.finalized && !s.failed {
      OneMoreWaiting(cfg, s.reply, s.sent, s.flushes, s.buffered, deltas);
    }
  }

  lemma {:induction false} FallbackStarts(cfg: Config, deltas: bool, s: State, reply: string)
    requires Inv(s) && s.final.NotCalled? && Quiet(s) && !Streaming(s)
    ensures Finishing(cfg, deltas, OnFinalizeCalled(cfg, s, reply))
  {
    FinalizeCalledInv(cfg, s, reply);
    if !s.posting {
      assert NoneInFlight(s.flushes);
    }
  }

  lemma {:induction false} StreamStarts(cfg: Config, deltas: bool, s: State, reply: string)
    requires Inv(s) && s.final.NotCalled? && Quiet(s) && Streaming(s)
    requires LastFlushIsLast(cfg, reply, s.sent, s.flushes, reply, deltas)
    ensures Finishing(cfg, deltas, OnFinalizeCalled(cfg, s, reply))
  {
    FinalizeCalledInv(cfg, s, reply);
    var t := OnFinalizeCalled(cfg, s, reply);
    assert Ahead(cfg, deltas, t) by {
      OneMoreWaiting(cfg, reply, s.sent, s.flushes, reply, deltas);
    }
  }

  /** A waiting flush does not matter for what has been sent. */
  lemma {:induction false} OneMoreWaiting(cfg: Config, reply: string, sent: string, flushes: seq<Flush>, buffered: string,
                                          deltas: bool)
    requires LastFlushIsLast(cfg, reply, sent, flushes, buffered, deltas)
    ensures LastFlushIsLast(cfg, reply, sent, flushes + [Waiting], buffered, deltas)
  {
    SameCalls(cfg, reply, sent, flushes, sent, flushes + [Waiting], buffered, deltas);
  }

  /** What fits later must have fitted before. */
  lemma {:induction false} SameCalls(cfg: Config, reply: string, sent: string, flushes: seq<Flush>,
                                     sent': string, flushes': seq<Flush>, buffered: string, deltas: bool)
    requires LastFlushIsLast(cfg, reply, sent, flushes, buffered, deltas)
    requires sent <= sent'
    requires forall k :: 0 <= k < |flushes| && flushes[k].Calling? ==>
               (k < |flushes'| && flushes'[k] == flushes[k]) || flushes[k].rendered <= sent'
    ensures LastFlushIsLast(cfg, reply, sent', flushes', buffered, deltas)
  {
    forall a, b | Arrives(deltas, a) && Arrives(deltas, b) && Fits(sent', flushes', cfg.render(buffered + a))
      ensures !Extendable(cfg, reply, buffered, a, b)
    {
      assert Fits(sent, flushes, cfg.render(buffered + a));
    }
  }

  /* ---- every event keeps it ---- */

  lemma {:induction false} FailFlushFinishing(cfg: Config, deltas: bool, s: State, k: int)
    requires Finishing(cfg, deltas, s) && 0 <= k < |s.flushes| && !s.flushes[k].Settled? && !s.finalized
    requires forall i :: 0 <= i < k ==> s.flushes[i].Settled?
    requires s.failed || s.final.WaitFlush? || s.streamTs.Some?
    ensures Finishing(cfg, deltas, FailFlush(s, k))
  {
    FailFlushInv(s, k);
  }

  lemma {:induction false} LastToSettle(flushes: seq<Flush>, k: int)
    requires Chained(flushes) && 0 <= k < |flushes| && !flushes[k].Settled?
    requires forall i :: 0 <= i < k ==> flushes[i].Settled?
    ensures NoneInFlight(flushes[k := Settled]) && NoneCalling(flushes[k := Settled])
  {
    forall j | k < j < |flushes| ensures flushes[j].Waiting? { assert !flushes[k].Settled?; }
  }

  lemma {:induction false} PhaseSettles(cfg: Config, deltas: bool, s: State, k: int)
    requires Phase(cfg, deltas, s) && Chained(s.flushes) && 0 <= k < |s.flushes| && s.flushes[k].Waiting?
    requires forall i :: 0 <= i < k ==> s.flushes[i].Settled?
    requires s.final.WaitFlush? ==> Capped(cfg, deltas, s)
    ensures Phase(cfg, deltas, Settle(s, k))
  {
    LastToSettle(s.flushes, k);
    var t := s.(flushes := s.flushes[k := Settled]);
    if s.final == WaitFlush(k) {
      assert Settle(s, k) == t.(final := FlushDone);
      assert Capped(cfg, deltas, t);
    } else {
      assert Settle(s, k) == t;
      PhaseWithFlushes(cfg, deltas, s, s.flushes[k := Settled]);
      hide Phase;
    }
    hide Stuck, Settle;
  }

  lemma {:induction false} SettleFinishing(cfg: Config, deltas: bool, s: State, k: int)
    requires Finishing(cfg, deltas, s) && CanBegin(s, k)
    requires s.final.WaitFlush? ==> Capped(cfg, deltas, s)
    ensures Finishing(cfg, deltas, Settle(s, k))
  {
    BeforeTheFirstWaiting(s, k);
    SettleInv(s, k);
    PhaseSettles(cfg, deltas, s, k);
    if !s.disabled && !s.finalized && !s.failed {
      SameCalls(cfg, s.reply, s.sent, s.flushes, s.sent, s.flushes[k := Settled], s.buffered, deltas);
    }
    hide Inv, Phase, EnablesQuiet;
  }

  /** What flush k finds when it begins while streaming. */
  lemma {:induction false} LastFlushFits(cfg: Config, deltas: bool, s: State, k: int)
    requires Finishing(cfg, deltas, s) && CanBegin(s, k) && Streaming(s) && !s.finalized
    requires s.sent <= cfg.render(s.buffered)
    ensures Stuck(cfg, s.reply, cfg.render(s.buffered), s.buffered, deltas) && NoneCalling(s.flushes)
  {
    assert Fits(s.sent, s.flushes, cfg.render(s.buffered));
    StuckAtTheEnd(cfg, s.reply, s.sent, s.flushes, s.buffered, deltas);
  }

  lemma {:induction false} CallFinishing(cfg: Config, deltas: bool, s: State, k: int, rendered: string)
    requires Finishing(cfg, deltas, s) && CanBegin(s, k) && Streaming(s) && !s.finalized
    requires s.sent < rendered && rendered == cfg.render(s.buffered) && !s.final.FlushDone?
    ensures Finishing(cfg, deltas, s.(flushes := s.flushes[k := Calling(s.streamTs, rendered[|s.sent|..], rendered)]))
  {
    LastFlushFits(cfg, deltas, s, k);
    CallInv(s, k, rendered);
    SameCalls(cfg, s.reply, s.sent, s.flushes, s.sent, s.flushes[k := Calling(s.streamTs, rendered[|s.sent|..], rendered)],
              s.buffered, deltas);
    if s.final.Stopping? {
      StuckNow(cfg, s.reply, s.sent, s.buffered, deltas);
    }
    hide Inv, EnablesQuiet;
  }

  lemma {:induction false} FlushBeginsFinishing(cfg: Config, deltas: bool, s: State, k: int)
    requires Finishing(cfg, deltas, s) && !s.final.FlushDone?
    ensures Finishing(cfg, deltas, OnFlushBegins(cfg, s, k))
  {
    if CanBegin(s, k) {
      BeforeTheFirstWaiting(s, k);
      if !Streaming(s) || !s.enabled || s.finalized {
        SettleFinishing(cfg, deltas, s, k);
      } else if !(s.sent <= cfg.render(s.buffered)) {
        FailFlushFinishing(cfg, deltas, s, k);
      } else {
        LastFlushFits(cfg, deltas, s, k);
        if s.sent == cfg.render(s.buffered) {
          SettleFinishing(cfg, deltas, s, k);
        } else {
          CallFinishing(cfg, deltas, s, k, cfg.render(s.buffered));
        }
      }
    }
  }

  lemma {:induction false} OnlyWhileWaiting(cfg: Config, deltas: bool, s: State, k: int)
    requires Finishing(cfg, deltas, s) && 0 <= k < |s.flushes| && s.flushes[k].Calling?
    ensures s.final.WaitFlush? && !s.finalized && forall i :: 0 <= i < k ==> s.flushes[i].Settled?
  {
  }

  lemma {:induction false} SentFinishing(cfg: Config, deltas: bool, s: State, k: int, t: State)
    requires Finishing(cfg, deltas, s) && 0 <= k < |s.flushes| && s.flushes[k].Calling? && s.final.WaitFlush?
    requires forall i :: 0 <= i < k ==> s.flushes[i].Settled?
    requires Inv(t) && EnablesQuiet(t.enables, t.messages)
    requires t == s.(streamTs := t.streamTs, sent := s.flushes[k].rendered, messages := t.messages, nextTs := t.nextTs,
                     flushes := s.flushes[k := Settled], final := Awaken(s.final, k))
    ensures Finishing(cfg, deltas, t)
  {
    LastToSettle(s.flushes, k);
    assert s.sent <= s.flushes[k].rendered;
    assert Ahead(cfg, deltas, t) by {
      if !s.disabled && !s.failed {
        SameCalls(cfg, s.reply, s.sent, s.flushes, t.sent, t.flushes, s.buffered, deltas);
      }
    }
    hide Inv, EnablesQuiet;
  }

  lemma {:induction false} FlushAnsweredFinishing(cfg: Config, deltas: bool, s: State, k: int, ok: bool)
    requires Finishing(cfg, deltas, s)
    ensures Finishing(cfg, deltas, OnFlushAnswered(s, k, ok))
  {
    if 0 <= k < |s.flushes| && s.flushes[k].Calling? {
      OnlyWhileWaiting(cfg, deltas, s, k);
      if !ok {
        FailFlushFinishing(cfg, deltas, s, k);
      } else if s.flushes[k].target.None? {
        StreamStartedInv(s, k);
        SentFinishing(cfg, deltas, s, k, StreamStarted(s, k));
      } else if s.flushes[k].target.value in s.messages {
        StreamAppendedInv(s, k);
        SentFinishing(cfg, deltas, s, k, StreamAppended(s, k));
      }
    }
  }

  lemma {:induction false} PushFinishing(cfg: Config, deltas: bool, s: State, delta: string)
    requires Finishing(cfg, deltas, s) && (deltas || s.finalized)
    ensures Finishing(cfg, deltas, OnPush(s, delta))
  {
    PushInv(s, delta);
    if delta != "" && !s.disabled && !s.finalized {
      if !s.failed {
        LastAfterDelta(cfg, s.reply, s.sent, s.flushes, s.buffered, delta);
      }
      if Capped(cfg, deltas, s) && !s.failed {
        StuckAfterDelta(cfg, s.reply, s.sent, s.buffered, delta);
      }
      if s.final.WaitFlush? && s.flushes[s.final.index].Calling? {
        StuckAfterDelta(cfg, s.reply, s.flushes[s.final.index].rendered, s.buffered, delta);
      }
    }
  }

  lemma {:induction false} FlushTimerFinishing(cfg: Config, deltas: bool, s: State)
    requires Finishing(cfg, deltas, s)
    ensures Finishing(cfg, deltas, OnFlushTimer(s))
  {
    FlushTimerInv(s);
    OneMoreFlush(cfg, deltas, s);
  }

  lemma {:induction false} EnableCalledFinishing(cfg: Config, deltas: bool, s: State, id: int)
    requires Finishing(cfg, deltas, s)
    ensures Finishing(cfg, deltas, OnEnableCalled(cfg, s, id))
  {
    EnableCalledInv(cfg, s, id);
  }

  lemma {:induction false} StreamingOnFinishing(cfg: Config, deltas: bool, s: State, id: int)
    requires Finishing(cfg, deltas, s) && id in s.enables && s.enables[id].CanEnable?
    ensures Finishing(cfg, deltas, StreamingOn(s, id))
  {
    StreamingOnInv(s, id);
    OneMoreFlush(cfg, deltas, s);
  }

  lemma {:induction false} EnableMovesFinishing(cfg: Config, deltas: bool, s: State, id: int, next: Enable)
    requires Finishing(cfg, deltas, s) && id in s.enables && s.enables[id].HavePlaceholder?
    requires next == AfterPlaceholder(s.enables[id].ts)
    ensures Finishing(cfg, deltas, s.(enables := s.enables[id := next]))
  {
    EnableMovesInv(s, id, next);
  }

  lemma {:induction false} EnableResumesFinishing(cfg: Config, deltas: bool, s: State, id: int)
    requires Finishing(cfg, deltas, s)
    ensures Finishing(cfg, deltas, OnEnableResumes(s, id))
  {
    hide Finishing, StreamingOn, AfterPlaceholder;
    if id in s.enables && s.enables[id].CanEnable? {
      StreamingOnFinishing(cfg, deltas, s, id);
    } else if id in s.enables && s.enables[id].HavePlaceholder? {
      EnableMovesFinishing(cfg, deltas, s, id, AfterPlaceholder(s.enables[id].ts));
    }
  }

  lemma {:induction false} DeleteAnsweredFinishing(cfg: Config, deltas: bool, s: State, id: int, ok: bool)
    requires Finishing(cfg, deltas, s)
    ensures Finishing(cfg, deltas, OnDeleteAnswered(s, id, ok))
  {
    DeleteAnsweredInv(s, id, ok);
    hide Stuck;
  }

  lemma {:induction false} DisableFinishing(cfg: Config, deltas: bool, s: State)
    requires Finishing(cfg, deltas, s)
    ensures Finishing(cfg, deltas, OnDisable(s))
  {
    DisableInv(s);
  }

  lemma {:induction false} NoticePostedFinishing(cfg: Config, deltas: bool, s: State, ok: bool)
    requires Finishing(cfg, deltas, s)
    ensures Finishing(cfg, deltas, OnNoticePosted(s, ok))
  {
    NoticePostedInv(s, ok);
  }

  lemma {:induction false} FinalizeResumesFinishing(cfg: Config, deltas: bool, s: State)
    requires Finishing(cfg, deltas, s)
    ensures Finishing(cfg, deltas, OnFinalizeResumes(cfg, s))
  {
    FinalizeResumesInv(cfg, s);
  }

  lemma {:induction false} DeliveredQuiet(s: State, messages: map<Ts, string>)
    requires Inv(s) && EnablesQuiet(s.enables, s.messages) && NoNewIds(messages, s.messages, s.nextTs)
    ensures EnablesQuiet(s.enables, messages)
  {
  }

  lemma {:induction false} DeliveredFinishing(cfg: Config, deltas: bool, s: State, t: State)
    requires Finishing(cfg, deltas, s) && !s.posting && NoneInFlight(s.flushes)
    requires Inv(t) && NoNewIds(t.messages, s.messages, s.nextTs)
    requires t == s.(messages := t.messages, nextTs := t.nextTs, finalized := true, final := Done)
    requires s.updateFailed || OnlyMessage(t.messages, cfg.render(s.reply))
    ensures Finishing(cfg, deltas, t)
  {
    DeliveredQuiet(s, t.messages);
    hide Inv, EnablesQuiet, NoneInFlight;
  }

  lemma {:induction false} StopAnsweredFinishing(cfg: Config, deltas: bool, s: State, ok: bool)
    requires Finishing(cfg, deltas, s)
    ensures Finishing(cfg, deltas, OnStopAnswered(s, ok))
  {
    StopAnsweredInv(s, ok);
    if s.final.Stopping? && ok && s.final.ts in s.messages {
      assert OnStopAnswered(s, ok).messages == map[s.final.ts := cfg.render(s.reply)];
      DeliveredFinishing(cfg, deltas, s, OnStopAnswered(s, ok));
      hide Finishing;
    }
  }

  lemma {:induction false} UpdateAnsweredFinishing(cfg: Config, deltas: bool, s: State, ok: bool)
    requires Finishing(cfg, deltas, s)
    ensures Finishing(cfg, deltas, OnUpdateAnswered(cfg, s, ok))
  {
    UpdateAnsweredInv(cfg, s, ok);
    if s.final.Updating? && ok && s.final.ts in s.messages {
      assert OnUpdateAnswered(cfg, s, ok).messages == map[s.final.ts := cfg.render(s.reply)];
      DeliveredFinishing(cfg, deltas, s, OnUpdateAnswered(cfg, s, ok));
      hide Finishing;
    }
  }

  lemma {:induction false} ReplyPostedFinishing(cfg: Config, deltas: bool, s: State, ok: bool)
    requires Finishing(cfg, deltas, s)
    ensures Finishing(cfg, deltas, OnReplyPosted(cfg, s, ok))
  {
    ReplyPostedInv(cfg, s, ok);
    if s.final.Posting? && ok {
      if !s.updateFailed {
        assert OnReplyPosted(cfg, s, ok).messages == map[s.nextTs := cfg.render(s.reply)];
      }
      DeliveredFinishing(cfg, deltas, s, OnReplyPosted(cfg, s, ok));
      hide Finishing;
    }
  }

  /** The placeholder's timer is off, and finalizeReply is called once. */
  lemma {:induction false} NothingToStart(cfg: Config, deltas: bool, s: State, reply: string)
    requires Finishing(cfg, deltas, s)
    ensures OnPlaceholderTimer(s) == s && OnFinalizeCalled(cfg, s, reply) == s
  {
  }

  lemma {:induction false} StepFinishing(cfg: Config, deltas: bool, s: State, e: Event)
    requires Finishing(cfg, deltas, s) && (e.Push? ==> deltas || s.finalized) && !PutOff(s, e)
    ensures Finishing(cfg, deltas, Step(cfg, s, e))
  {
    hide Finishing;
    hide OnPlaceholderTimer, OnNoticePosted, OnPush, OnFlushTimer, OnFlushBegins, OnFlushAnswered, OnEnableCalled;
    hide OnEnableResumes, OnDeleteAnswered, OnDisable, OnFinalizeCalled, OnFinalizeResumes, OnStopAnswered;
    hide OnUpdateAnswered, OnReplyPosted;
    match e
    case PlaceholderTimerFires => NothingToStart(cfg, deltas, s, "");
    case NoticePosted(ok) => NoticePostedFinishing(cfg, deltas, s, ok);
    case Push(delta) => PushFinishing(cfg, deltas, s, delta);
    case FlushTimerFires => FlushTimerFinishing(cfg, deltas, s);
    case FlushBegins(k) => FlushBeginsFinishing(cfg, deltas, s, k);
    case FlushAnswered(k, ok) => FlushAnsweredFinishing(cfg, deltas, s, k, ok);
    case EnableCalled(id) => EnableCalledFinishing(cfg, deltas, s, id);
    case EnableResumes(id) => EnableResumesFinishing(cfg, deltas, s, id);
    case DeleteAnswered(id, ok) => DeleteAnsweredFinishing(cfg, deltas, s, id, ok);
    case Disable => DisableFinishing(cfg, deltas, s);
    case FinalizeCalled(reply) => NothingToStart(cfg, deltas, s, reply);
    case FinalizeResumes => FinalizeResumesFinishing(cfg, deltas, s);
    case StopAnswered(ok) => StopAnsweredFinishing(cfg, deltas, s, ok);
    case UpdateAnswered(ok) => UpdateAnsweredFinishing(cfg, deltas, s, ok);
    case ReplyPosted(ok) => ReplyPostedFinishing(cfg, deltas, s, ok);
  }

  lemma {:induction false} NextFinishing(cfg: Config, deltas: bool, s: State, e: Event)
    requires Finishing(cfg, deltas, s) && (e.Push? ==> deltas || s.finalized)
    ensures Finishing(cfg, deltas, Next(cfg, s, e))
  {
    hide Finishing, Step;
    if !PutOff(s, e) {
      StepFinishing(cfg, deltas, s, e);
    }
  }

  lemma {:induction false} NextKeepsReply(cfg: Config, deltas: bool, s: State, e: Event)
    requires Finishing(cfg, deltas, s)
    ensures Next(cfg, s, e).reply == s.reply && (s.finalized ==> Next(cfg, s, e).finalized)
  {
    hide Inv, Next;
    NextInv(cfg, s, e);
  }

  /** What holds from finalizeReply on is kept by every run, with late deltas or, in the reading without
      them, by every run in which none arrives before `finalized` is set. */
  lemma {:induction false} RunFinishing(cfg: Config, deltas: bool, s: State, events: seq<Event>)
    requires Finishing(cfg, deltas, s) && (deltas || s.finalized || NoPush(events))
    ensures Finishing(cfg, deltas, Run(cfg, s, events)) && Run(cfg, s, events).reply == s.reply
    decreases |events|
  {
    hide Finishing, Next;
    if events != [] {
      NextFinishing(cfg, deltas, s, events[0]);
      NextKeepsReply(cfg, deltas, s, events[0]);
      RunFinishing(cfg, deltas, Next(cfg, s, events[0]), events[1..]);
    }
  }

  /** Called at a quiet moment, finalizeReply leaves one live message with the rendered reply, unless
      chat.update failed, and it stays so for the rest of the run: in every run if no late delta can
      show, and in every run without late deltas. */
  lemma {:induction false} QuietLeavesOneMessage(cfg: Config, deltas: bool, s: State, reply: string, events: seq<Event>)
    requires Inv(s) && s.final.NotCalled? && Quiet(s)
    requires if deltas then !LateTextShows(cfg, s, reply) else NoPush(events)
    ensures var t := Run(cfg, OnFinalizeCalled(cfg, s, reply), events);
            t.final.Done? && !t.updateFailed ==> OnlyMessage(t.messages, cfg.render(reply))
  {
    var s1 := OnFinalizeCalled(cfg, s, reply);
    assert Finishing(cfg, deltas, s1) by {
      if Streaming(s) {
        NothingArrives(cfg, reply, s.sent, s.flushes, reply);
        StreamStarts(cfg, deltas, s, reply);
      } else {
        FallbackStarts(cfg, deltas, s, reply);
      }
    }
    assert s1.reply == reply;
    hide OnFinalizeCalled, Inv;
    RunFinishing(cfg, deltas, s1, events);
  }
}
