/**
 Exactly when finalizeReply is safe to call. For every state it is not safe in there is a run in which
 the page ends up with no message, two messages, or a text that is not the reply.
 */
module ReplyStreamBreaks {
  import opened Prelude
  import opened ReplyStreamProtocol
  import opened ReplyStreamSafety
  import opened ReplyStreamDelivery

  /** The outcome a caller of finalizeReply counts on, in all runs or in those without late deltas. */
  ghost predicate AlwaysOneMessage(cfg: Config, s: State, reply: string, deltas: bool) {
    forall events :: deltas || NoPush(events) ==>
      var t := Run(cfg, OnFinalizeCalled(cfg, s, reply), events);
      t.final.Done? && !t.updateFailed ==> OnlyMessage(t.messages, cfg.render(reply))
  }

  ghost predicate Spoiled(t: State, text: string) {
    t.final.Done? && !t.updateFailed && !OnlyMessage(t.messages, text)
  }

  ghost predicate Breaks(cfg: Config, s: State, reply: string, events: seq<Event>) {
    Spoiled(Run(cfg, OnFinalizeCalled(cfg, s, reply), events), cfg.render(reply))
  }

  /** Two messages, a different text, or no message: not what finalizeReply should leave. */
  lemma {:induction false} NotTheOnlyMessage(s: State, text: string, ts: Ts, other: Ts)
    requires (ts in s.messages && other in s.messages && ts != other)
             || (ts in s.messages && s.messages[ts] != text)
             || s.messages == map[]
    ensures !OnlyMessage(s.messages, text)
  {
    forall t ensures s.messages != map[t := text] {
      var only := map[t := text];
      assert only.Keys == {t} && only[t] == text;
      assert ts in s.messages && ts in only ==> ts == t;
      assert other in s.messages && other in only ==> other == t;
    }
  }

  /** startStream in flight after disableStreaming: the reply and then the stream appear as two messages. */
  lemma {:induction false} StartInFlightBreaks(cfg: Config, s: State, reply: string, k: int)
    requires Inv(s) && s.final.NotCalled? && 0 <= k < |s.flushes| && s.flushes[k].Calling?
    requires (!s.enabled || s.disabled) && s.streamTs.None?
    ensures Breaks(cfg, s, reply, [ReplyPosted(true), FlushAnswered(k, true)])
  {
    var s1 := OnFinalizeCalled(cfg, s, reply);
    assert s1.final.Posting? && s1.flushes == s.flushes && s1.messages == map[] && s1.nextTs == s.nextTs;
    var s2 := OnReplyPosted(cfg, s1, true);
    assert s2.final.Done? && s2.flushes == s.flushes && s2.nextTs == s.nextTs + 1 && s.nextTs in s2.messages;
    var s3 := OnFlushAnswered(s2, k, true);
    assert s3.final.Done? && s3.updateFailed == s.updateFailed;
    assert s3.messages == s2.messages[s2.nextTs := s.flushes[k].append];
    RunTwo(cfg, s1, ReplyPosted(true), FlushAnswered(k, true));
    NotTheOnlyMessage(s3, cfg.render(reply), s.nextTs, s2.nextTs);
  }

  /** Text added to a page that already shows the reply. */
  lemma {:induction false} AppendSpoils(s: State, text: string, ts: Ts, k: int)
    requires s.final.Done? && !s.updateFailed && s.messages == map[ts := text]
    requires 0 <= k < |s.flushes| && s.flushes[k].Calling? && s.flushes[k].target == Some(ts) && s.flushes[k].append != ""
    ensures Spoiled(OnFlushAnswered(s, k, true), text)
  {
    var u := OnFlushAnswered(s, k, true);
    assert u.messages[ts] == text + s.flushes[k].append;
    assert |u.messages[ts]| > |text|;
    NotTheOnlyMessage(u, text, ts, ts);
    hide OnlyMessage;
  }

  /** finalizeReply falls back to updating the streamed message, and the update succeeds. */
  lemma {:induction false} UpdatedStream(cfg: Config, s: State, reply: string, ts: Ts)
    requires Inv(s) && s.final.NotCalled? && (!s.enabled || s.disabled) && s.streamTs == Some(ts)
    ensures
      var s1 := OnFinalizeCalled(cfg, s, reply);
      var s2 := OnUpdateAnswered(cfg, s1, true);
      && s1.final == Updating(ts)
      && s2.final.Done? && !s2.updateFailed && s2.flushes == s.flushes && s2.messages == map[ts := cfg.render(reply)]
  {
    var s1 := OnFinalizeCalled(cfg, s, reply);
    assert s1.final == Updating(ts) && s1.flushes == s.flushes && s1.messages == map[ts := s.sent] && s1.reply == reply;
  }

  /** appendStream in flight after disableStreaming: its text is added to the finished reply. */
  lemma {:induction false} AppendInFlightBreaks(cfg: Config, s: State, reply: string, k: int)
    requires Inv(s) && s.final.NotCalled? && 0 <= k < |s.flushes| && s.flushes[k].Calling?
    requires (!s.enabled || s.disabled) && s.streamTs.Some?
    ensures Breaks(cfg, s, reply, [UpdateAnswered(true), FlushAnswered(k, true)])
  {
    var ts := s.streamTs.value;
    var s1 := OnFinalizeCalled(cfg, s, reply);
    UpdatedStream(cfg, s, reply, ts);
    assert s.flushes[k].target == Some(ts) && s.flushes[k].append != "";
    hide Inv, OnFinalizeCalled, OnUpdateAnswered, Spoiled, OnFlushAnswered;
    AppendSpoils(OnUpdateAnswered(cfg, s1, true), cfg.render(reply), ts, k);
    RunTwo(cfg, s1, UpdateAnswered(true), FlushAnswered(k, true));
  }

  /** finalizeReply updates the notice while an enableStreaming has asked for its deletion. */
  function UpdateThenDelete(id: int): seq<Event> { [EnableResumes(id), UpdateAnswered(true), DeleteAnswered(id, true)] }

  lemma {:induction false} DeletionAsked(s: State, id: int, ts: Ts)
    requires id in s.enables && DeleteTarget(s.enables[id]) == Some(ts)
    ensures OnEnableResumes(s, id) == s.(enables := s.enables[id := Deleting(ts)])
  {
    if s.enables[id].Deleting? {
      assert s.enables[id := Deleting(ts)] == s.enables;
    }
  }

  /** The answers to both calls: the update first, the deletion after it. */
  lemma {:induction false} DeletedAfterUpdate(cfg: Config, s: State, id: int, ts: Ts)
    requires s.final == Updating(ts) && !s.updateFailed && s.messages.Keys == {ts}
    requires id in s.enables && s.enables[id] == Deleting(ts)
    ensures var t := OnDeleteAnswered(OnUpdateAnswered(cfg, s, true), id, true);
            t.final.Done? && !t.updateFailed && t.messages == map[]
  {
    var s1 := OnUpdateAnswered(cfg, s, true);
    assert s1 == s.(messages := s.messages[ts := cfg.render(s.reply)], final := Done);
    assert s1.messages.Keys == {ts};
    hide OnUpdateAnswered;
    assert s1.messages - {ts} == map[];
  }

  lemma {:induction false} UpdateThenDeleteLosesTheReply(cfg: Config, s: State, id: int, ts: Ts)
    requires s.final == Updating(ts) && !s.updateFailed && s.messages.Keys == {ts}
    requires id in s.enables && DeleteTarget(s.enables[id]) == Some(ts)
    ensures Spoiled(Run(cfg, s, UpdateThenDelete(id)), cfg.render(s.reply))
  {
    var s1 := OnEnableResumes(s, id);
    DeletionAsked(s, id, ts);
    DeletedAfterUpdate(cfg, s1, id, ts);
    var s2 := OnUpdateAnswered(cfg, s1, true);
    var s3 := OnDeleteAnswered(s2, id, true);
    NotTheOnlyMessage(s3, cfg.render(s.reply), ts, ts);
    assert !s2.final.FlushDone?;
    hide OnEnableResumes, OnUpdateAnswered, OnDeleteAnswered, OnlyMessage;
    RunTwo(cfg, s, EnableResumes(id), UpdateAnswered(true));
    RunSnoc(cfg, s, [EnableResumes(id), UpdateAnswered(true)], DeleteAnswered(id, true));
    assert [EnableResumes(id), UpdateAnswered(true)] + [DeleteAnswered(id, true)] == UpdateThenDelete(id);
  }

  /** An enableStreaming that is about to delete the notice deletes the reply instead. */
  lemma {:induction false} PendingDeleteBreaks(cfg: Config, s: State, reply: string, id: int, ts: Ts)
    requires Inv(s) && s.final.NotCalled? && id in s.enables
    requires DeleteTarget(s.enables[id]) == Some(ts) && ts in s.messages
    ensures Breaks(cfg, s, reply, UpdateThenDelete(id))
  {
    var s1 := OnFinalizeCalled(cfg, s, reply);
    assert s.placeholderTs == Some(ts) && !s.failed;
    assert !s.enabled && s.streamTs.None?;
    assert s1.final == Updating(ts) && s1.messages == map[ts := PROCESSING_NOTICE] && s1.enables == s.enables;
    UpdateThenDeleteLosesTheReply(cfg, s1, id, ts);
  }

  /** The same when the notice is still being posted. */
  lemma {:induction false} PendingPostBreaks(cfg: Config, s: State, reply: string, id: int)
    requires Inv(s) && s.final.NotCalled? && id in s.enables && s.enables[id].WaitPost?
    ensures Breaks(cfg, s, reply, [NoticePosted(true)] + UpdateThenDelete(id))
  {
    var s1 := OnFinalizeCalled(cfg, s, reply);
    assert s.posting && !s.failed && !s.enabled && s.streamTs.None? && s.placeholderTs.None?;
    assert s1.final == WaitPlaceholder && s1.messages == map[] && s1.enables == s.enables && s1.posting && s1.reply == reply;
    var s2 := OnNoticePosted(s1, true);
    assert s2.final == Updating(s1.nextTs) && s2.messages == map[s1.nextTs := PROCESSING_NOTICE];
    assert s2.enables[id] == HavePlaceholder(Some(s1.nextTs)) && !s2.updateFailed && s2.reply == reply;
    UpdateThenDeleteLosesTheReply(cfg, s2, id, s1.nextTs);
    assert Run(cfg, s1, [NoticePosted(true)]) == Run(cfg, s2, []);
    RunAppend(cfg, s1, [NoticePosted(true)], UpdateThenDelete(id));
  }

  /* ---- a late delta that shows ---- */

  /** Every flush up to number n begins and is answered. */
  function Drain(k: nat, n: nat): seq<Event>
    decreases n + 1 - k
  {
    if k > n then [] else [FlushBegins(k), FlushAnswered(k, true)] + Drain(k + 1, n)
  }

  /** Flushes before number k have ended; the last one, number n, is the one finalizeReply awaits. */
  ghost predicate Draining(cfg: Config, s: State, k: nat, n: nat, text: string) {
    && Inv(s) && Streaming(s) && !s.finalized && !s.updateFailed
    && s.buffered == text && |s.flushes| == n + 1
    && (forall i :: 0 <= i < k <= n + 1 ==> s.flushes[i].Settled?)
    && Fits(s.sent, s.flushes, cfg.render(text))
    && (k <= n ==> s.final == WaitFlush(n) && s.flushes[n].Waiting?)
    && (k > n ==> s.final.FlushDone? && s.sent == cfg.render(text))
  }

  /** Flush k has ended, and the stream shows `u.sent`. */
  lemma {:induction false} FlushDrains(cfg: Config, s: State, k: nat, n: nat, text: string, u: State)
    requires Draining(cfg, s, k, n, text) && k <= n && !s.flushes[k].Settled? && Inv(u)
    requires u == s.(streamTs := u.streamTs, sent := u.sent, messages := u.messages, nextTs := u.nextTs,
                     flushes := s.flushes[k := Settled], final := Awaken(s.final, k))
    requires u.sent <= cfg.render(text) && (k == n ==> u.sent == cfg.render(text))
    ensures Draining(cfg, u, k + 1, n, text)
  {
    LastToSettle(s.flushes, k);
    hide Inv;
  }

  lemma {:induction false} DrainCalling(cfg: Config, s: State, k: nat, n: nat, text: string)
    requires Draining(cfg, s, k, n, text) && k <= n && s.flushes[k].Calling?
    ensures Draining(cfg, OnFlushAnswered(s, k, true), k + 1, n, text)
  {
    FlushAnsweredInv(s, k, true);
    FlushDrains(cfg, s, k, n, text, OnFlushAnswered(s, k, true));
    hide Draining;
  }

  /** Flush k sends what is still missing, and Slack accepts it. */
  lemma {:induction false} DrainSending(cfg: Config, s: State, k: nat, n: nat, text: string)
    requires Draining(cfg, s, k, n, text) && k <= n && s.flushes[k].Waiting? && s.sent != cfg.render(text)
    ensures Draining(cfg, OnFlushAnswered(OnFlushBegins(cfg, s, k), k, true), k + 1, n, text)
  {
    var rendered := cfg.render(text);
    var t := OnFlushBegins(cfg, s, k);
    FlushBeginsInv(cfg, s, k);
    assert t == s.(flushes := s.flushes[k := Calling(s.streamTs, rendered[|s.sent|..], rendered)]);
    var u := OnFlushAnswered(t, k, true);
    FlushAnsweredInv(t, k, true);
    hide OnFlushBegins;
    assert t.flushes[k := Settled] == s.flushes[k := Settled];
    assert t.messages == Expected(t);
    hide Inv;
    FlushDrains(cfg, s, k, n, text, u);
    hide Draining;
  }

  lemma {:induction false} DrainWaiting(cfg: Config, s: State, k: nat, n: nat, text: string)
    requires Draining(cfg, s, k, n, text) && k <= n && s.flushes[k].Waiting?
    ensures Draining(cfg, OnFlushAnswered(OnFlushBegins(cfg, s, k), k, true), k + 1, n, text)
  {
    if s.sent == cfg.render(text) {
      var t := OnFlushBegins(cfg, s, k);
      FlushBeginsInv(cfg, s, k);
      assert t == Settle(s, k) && OnFlushAnswered(t, k, true) == t;
      FlushDrains(cfg, s, k, n, text, t);
      hide Draining;
    } else {
      DrainSending(cfg, s, k, n, text);
      hide Draining;
    }
  }

  lemma {:induction false} DrainStep(cfg: Config, s: State, k: nat, n: nat, text: string)
    requires Draining(cfg, s, k, n, text) && k <= n
    ensures Draining(cfg, OnFlushAnswered(OnFlushBegins(cfg, s, k), k, true), k + 1, n, text)
  {
    if s.flushes[k].Waiting? {
      DrainWaiting(cfg, s, k, n, text);
      hide Draining;
    } else if s.flushes[k].Calling? {
      DrainCalling(cfg, s, k, n, text);
      hide Draining, OnFlushAnswered;
    }
  }

  lemma {:induction false} SettledIsNotAnswered(s: State, k: nat)
    requires k < |s.flushes|
    ensures OnFlushAnswered(Settle(s, k), k, true) == Settle(s, k)
  {
  }

  /** A flush that begins is either answered next or has already ended. */
  lemma {:induction false} BegunInDrain(cfg: Config, s: State, k: nat, n: nat, text: string)
    requires Draining(cfg, s, k, n, text) && k <= n
    ensures !s.final.FlushDone?
    ensures var t := OnFlushBegins(cfg, s, k); t.final.FlushDone? ==> OnFlushAnswered(t, k, true) == t
  {
    hide Inv;
    SettledIsNotAnswered(s, k);
    hide Settle, FailFlush, OnFlushAnswered;
  }

  lemma {:induction false} DrainTwo(cfg: Config, s: State, k: nat, n: nat, text: string)
    requires Draining(cfg, s, k, n, text) && k <= n
    ensures Run(cfg, s, [FlushBegins(k), FlushAnswered(k, true)]) == OnFlushAnswered(OnFlushBegins(cfg, s, k), k, true)
  {
    BegunInDrain(cfg, s, k, n, text);
    hide Draining, OnFlushBegins, OnFlushAnswered;
    RunTwo(cfg, s, FlushBegins(k), FlushAnswered(k, true));
    assert Next(cfg, s, FlushBegins(k)) == OnFlushBegins(cfg, s, k);
  }

  lemma {:induction false} FlushKeepsReply(cfg: Config, s: State, k: nat, n: nat, text: string)
    requires Draining(cfg, s, k, n, text)
    ensures OnFlushAnswered(OnFlushBegins(cfg, s, k), k, true).reply == s.reply
  {
    hide Inv, OnFlushBegins, OnFlushAnswered;
    FlushBeginsInv(cfg, s, k);
    FlushAnsweredInv(OnFlushBegins(cfg, s, k), k, true);
  }

  lemma {:induction false} DrainRun(cfg: Config, s: State, k: nat, n: nat, text: string)
    requires Draining(cfg, s, k, n, text) && k <= n + 1
    ensures Draining(cfg, Run(cfg, s, Drain(k, n)), n + 1, n, text)
    ensures Run(cfg, s, Drain(k, n)).reply == s.reply
    decreases n + 1 - k
  {
    hide Draining, OnFlushBegins, OnFlushAnswered, Next;
    if k <= n {
      var two := [FlushBegins(k), FlushAnswered(k, true)];
      var t := Run(cfg, s, two);
      DrainTwo(cfg, s, k, n, text);
      DrainStep(cfg, s, k, n, text);
      FlushKeepsReply(cfg, s, k, n, text);
      DrainRun(cfg, t, k + 1, n, text);
      RunAppend(cfg, s, two, Drain(k + 1, n));
    }
  }

  /** The last flush has left a beginning of the reply, and stopStream has been called with the rest. */
  ghost predicate StoppedAt(cfg: Config, s: State, n: nat, text: string) {
    && Inv(s) && Streaming(s) && !s.finalized && !s.updateFailed
    && s.buffered == text && |s.flushes| == n + 1
    && (forall i :: 0 <= i <= n ==> s.flushes[i].Settled?)
    && s.sent == cfg.render(text)
    && s.final.Stopping? && s.sent + s.final.append == cfg.render(s.reply)
  }

  lemma {:induction false} StopCalled(cfg: Config, s: State, n: nat, text: string)
    requires Draining(cfg, s, n + 1, n, text)
    requires cfg.render(text) != "" && cfg.render(text) <= cfg.render(s.reply)
    ensures StoppedAt(cfg, OnFinalizeResumes(cfg, s), n, text) && OnFinalizeResumes(cfg, s).reply == s.reply
  {
    FinalizeResumesInv(cfg, s);
    assert s.streamTs.Some?;
    hide Inv;
  }

  /** A further delta is flushed while the stream is being stopped. */
  function Late(n: nat, b: string): seq<Event> { [Push(b), FlushTimerFires, FlushBegins(n + 1)] }

  /** Text under way while the stream is being stopped. */
  ghost predicate CallUnderWay(cfg: Config, s: State, k: int) {
    && Inv(s) && !s.updateFailed && 0 <= k < |s.flushes| && s.flushes[k].Calling?
    && s.final.Stopping? && s.sent + s.final.append == cfg.render(s.reply)
  }

  lemma {:induction false} LateIsUnderWay(cfg: Config, s: State, n: nat, text: string, b: string)
    requires StoppedAt(cfg, s, n, text) && cfg.render(text) < cfg.render(text + b)
    ensures var t := OnFlushBegins(cfg, OnFlushTimer(OnPush(s, b)), n + 1);
            CallUnderWay(cfg, t, n + 1) && t.reply == s.reply
  {
    assert text + "" == text;
    assert b != "";
    var s1 := OnPush(s, b);
    PushInv(s, b);
    assert s1 == s.(buffered := text + b, flushTimer := true);
    var s2 := OnFlushTimer(s1);
    FlushTimerInv(s1);
    assert s2 == s1.(flushTimer := false, flushes := s.flushes + [Waiting]);
    FlushBeginsInv(cfg, s2, n + 1);
    hide Inv;
    assert CanBegin(s2, n + 1);
  }

  lemma {:induction false} LateRun(cfg: Config, s: State, n: nat, text: string, b: string)
    requires StoppedAt(cfg, s, n, text) && cfg.render(text) < cfg.render(text + b)
    ensures var t := Run(cfg, s, Late(n, b));
            CallUnderWay(cfg, t, n + 1) && t.reply == s.reply
  {
    LateIsUnderWay(cfg, s, n, text, b);
    assert !s.final.FlushDone? && !OnPush(s, b).final.FlushDone? && !OnFlushTimer(OnPush(s, b)).final.FlushDone?;
    hide StoppedAt, CallUnderWay, OnPush, OnFlushTimer, OnFlushBegins;
    RunTwo(cfg, s, Push(b), FlushTimerFires);
    RunSnoc(cfg, s, [Push(b), FlushTimerFires], FlushBegins(n + 1));
    assert [Push(b), FlushTimerFires] + [FlushBegins(n + 1)] == Late(n, b);
  }

  /** Slack takes the late text first, and then the rest of the reply with which the stream is stopped. */
  lemma {:induction false} CallSpoils(cfg: Config, s: State, k: int)
    requires CallUnderWay(cfg, s, k)
    ensures OnFlushAnswered(s, k, true).final.Stopping?
    ensures Spoiled(OnStopAnswered(OnFlushAnswered(s, k, true), true), cfg.render(s.reply))
  {
    var ts, text, late := s.final.ts, cfg.render(s.reply), s.flushes[k].append;
    StreamIsShown(s);
    assert s.messages == map[ts := s.sent];
    assert s.flushes[k].target == Some(ts) && late != "";
    hide Inv;
    var t := OnFlushAnswered(s, k, true);
    assert t.final == s.final && t.messages == map[ts := s.sent + late] && !t.updateFailed;
    hide OnFlushAnswered;
    StopSpoils(t, text, ts);
  }

  lemma {:induction false} StopSpoils(s: State, text: string, ts: Ts)
    requires s.final.Stopping? && s.final.ts == ts && !s.updateFailed && ts in s.messages
    requires |s.messages[ts] + s.final.append| > |text|
    ensures Spoiled(OnStopAnswered(s, true), text)
  {
    var t := OnStopAnswered(s, true);
    assert t.messages[ts] == s.messages[ts] + s.final.append != text;
    NotTheOnlyMessage(t, text, ts, ts);
    hide OnlyMessage;
  }

  lemma {:induction false} DeliverSpoils(cfg: Config, s: State, k: int)
    requires CallUnderWay(cfg, s, k)
    ensures Spoiled(Run(cfg, s, [FlushAnswered(k, true), StopAnswered(true)]), cfg.render(s.reply))
  {
    CallSpoils(cfg, s, k);
    hide Spoiled, CallUnderWay, OnStopAnswered, OnFlushAnswered;
    RunTwo(cfg, s, FlushAnswered(k, true), StopAnswered(true));
    assert Next(cfg, s, FlushAnswered(k, true)) == OnFlushAnswered(s, k, true);
  }

  lemma {:induction false} DrainBegins(cfg: Config, s: State, reply: string, a: string)
    requires Inv(s) && s.final.NotCalled? && Streaming(s) && Fits(s.sent, s.flushes, cfg.render(reply + a))
    ensures var t := OnPush(OnFinalizeCalled(cfg, s, reply), a);
            Draining(cfg, t, 0, |s.flushes|, reply + a) && t.reply == reply
  {
    var s1 := OnFinalizeCalled(cfg, s, reply);
    FinalizeCalledInv(cfg, s, reply);
    PushInv(s1, a);
    assert a == "" ==> reply + a == reply;
    assert s1.flushes == s.flushes + [Waiting];
  }

  /** Up to the call of stopStream. */
  function UntilStopped(n: nat, a: string): seq<Event> {
    [Push(a)] + Drain(0, n) + [FinalizeResumes]
  }

  function LateEvents(n: nat, a: string, b: string): seq<Event> {
    UntilStopped(n, a) + Late(n, b) + [FlushAnswered(n + 1, true), StopAnswered(true)]
  }

  lemma {:induction false} StopIsCalled(cfg: Config, s: State, reply: string, a: string)
    requires Inv(s) && s.final.NotCalled? && Streaming(s) && Fits(s.sent, s.flushes, cfg.render(reply + a))
    requires cfg.render(reply + a) != "" && cfg.render(reply + a) <= cfg.render(reply)
    ensures var t := Run(cfg, OnFinalizeCalled(cfg, s, reply), UntilStopped(|s.flushes|, a));
            StoppedAt(cfg, t, |s.flushes|, reply + a) && t.reply == reply
  {
    var n, s1 := |s.flushes|, OnFinalizeCalled(cfg, s, reply);
    DrainBegins(cfg, s, reply, a);
    hide Inv, Streaming, Fits, Draining, StoppedAt, OnPush, OnFinalizeCalled, OnFinalizeResumes, Drain;
    RunOne(cfg, s1, Push(a));
    var s2 := Run(cfg, s1, [Push(a)]);
    DrainRun(cfg, s2, 0, n, reply + a);
    var s3 := Run(cfg, s2, Drain(0, n));
    StopCalled(cfg, s3, n, reply + a);
    RunAppend(cfg, s1, [Push(a)], Drain(0, n));
    RunSnoc(cfg, s1, [Push(a)] + Drain(0, n), FinalizeResumes);
  }

  /** Deltas a and b arrive after finalizeReply was called. The last flush leaves the stream with a beginning
      of the reply, and the text b adds to it is under way while the stream is being stopped. */
  lemma {:induction false} LateTextBreaks(cfg: Config, s: State, reply: string, a: string, b: string)
    requires Inv(s) && s.final.NotCalled? && Streaming(s)
    requires Fits(s.sent, s.flushes, cfg.render(reply + a)) && Extendable(cfg, reply, reply, a, b)
    ensures Breaks(cfg, s, reply, LateEvents(|s.flushes|, a, b))
  {
    var n, s1 := |s.flushes|, OnFinalizeCalled(cfg, s, reply);
    StopIsCalled(cfg, s, reply, a);
    hide Inv, Streaming, Fits, StoppedAt, CallUnderWay, OnFinalizeCalled, UntilStopped, Late;
    var s2 := Run(cfg, s1, UntilStopped(n, a));
    LateRun(cfg, s2, n, reply + a, b);
    var s3 := Run(cfg, s2, Late(n, b));
    DeliverSpoils(cfg, s3, n + 1);
    RunAppend(cfg, s1, UntilStopped(n, a), Late(n, b));
    RunAppend(cfg, s1, UntilStopped(n, a) + Late(n, b), [FlushAnswered(n + 1, true), StopAnswered(true)]);
  }

  /* ---- exactly when finalizeReply is safe ---- */

  /** For every reachable state and every reply: finalizeReply always leaves exactly the reply if and only
      if the moment is quiet and, where deltas may still arrive, none of them can show. */
  lemma {:induction false} OneMessageIffQuiet(cfg: Config, s: State, reply: string, deltas: bool)
    requires Inv(s) && s.final.NotCalled?
    ensures AlwaysOneMessage(cfg, s, reply, deltas) <==> Quiet(s) && !(deltas && LateTextShows(cfg, s, reply))
  {
    if Quiet(s) && !(deltas && LateTextShows(cfg, s, reply)) {
      hide Quiet, LateTextShows;
      forall events | deltas || NoPush(events)
        ensures var t := Run(cfg, OnFinalizeCalled(cfg, s, reply), events);
                t.final.Done? && !t.updateFailed ==> OnlyMessage(t.messages, cfg.render(reply))
      {
        QuietLeavesOneMessage(cfg, deltas, s, reply, events);
      }
    } else {
      var events := BreakingRun(cfg, s, reply, deltas);
      assert Breaks(cfg, s, reply, events);
    }
  }

  lemma {:induction false} BreakingRun(cfg: Config, s: State, reply: string, deltas: bool) returns (events: seq<Event>)
    requires Inv(s) && s.final.NotCalled?
    requires !Quiet(s) || (deltas && LateTextShows(cfg, s, reply))
    ensures Breaks(cfg, s, reply, events) && (deltas || NoPush(events))
  {
    if Quiet(s) {
      events := BreakingDeltas(cfg, s, reply);
    } else if EnablesQuiet(s.enables, s.messages) {
      events := BreakingCall(cfg, s, reply);
    } else {
      events := BreakingEnable(cfg, s, reply);
    }
  }

  lemma {:induction false} BreakingDeltas(cfg: Config, s: State, reply: string) returns (events: seq<Event>)
    requires Inv(s) && s.final.NotCalled? && LateTextShows(cfg, s, reply)
    ensures Breaks(cfg, s, reply, events)
  {
    var a, b :| Fits(s.sent, s.flushes, cfg.render(reply + a)) && Extendable(cfg, reply, reply, a, b);
    hide Inv, Breaks;
    events := LateEvents(|s.flushes|, a, b);
    LateTextBreaks(cfg, s, reply, a, b);
  }

  lemma {:induction false} BreakingCall(cfg: Config, s: State, reply: string) returns (events: seq<Event>)
    requires Inv(s) && s.final.NotCalled? && !NoneCalling(s.flushes) && (!s.enabled || s.disabled)
    ensures Breaks(cfg, s, reply, events) && NoPush(events)
  {
    var k :| 0 <= k < |s.flushes| && s.flushes[k].Calling?;
    hide Inv, Breaks;
    if s.streamTs.None? {
      StartInFlightBreaks(cfg, s, reply, k);
      events := [ReplyPosted(true), FlushAnswered(k, true)];
    } else {
      AppendInFlightBreaks(cfg, s, reply, k);
      events := [UpdateAnswered(true), FlushAnswered(k, true)];
    }
  }

  lemma {:induction false} BreakingEnable(cfg: Config, s: State, reply: string) returns (events: seq<Event>)
    requires Inv(s) && s.final.NotCalled? && !EnablesQuiet(s.enables, s.messages)
    ensures Breaks(cfg, s, reply, events) && NoPush(events)
  {
    var id :| id in s.enables && (s.enables[id].WaitPost?
              || (DeleteTarget(s.enables[id]).Some? && DeleteTarget(s.enables[id]).value in s.messages));
    hide Inv, Breaks;
    if s.enables[id].WaitPost? {
      PendingPostBreaks(cfg, s, reply, id);
      events := [NoticePosted(true)] + UpdateThenDelete(id);
    } else {
      PendingDeleteBreaks(cfg, s, reply, id, DeleteTarget(s.enables[id]).value);
      events := UpdateThenDelete(id);
    }
  }

  /** The same for every run that leads up to the call. */
  lemma {:induction false} WhenFinalizeIsSafe(cfg: Config, delayed: bool, before: seq<Event>, reply: string, deltas: bool)
    requires Run(cfg, Init(delayed), before).final.NotCalled?
    ensures var s := Run(cfg, Init(delayed), before);
            AlwaysOneMessage(cfg, s, reply, deltas) <==> Quiet(s) && !(deltas && LateTextShows(cfg, s, reply))
  {
    InitInv(delayed);
    RunInv(cfg, Init(delayed), before);
    OneMessageIffQuiet(cfg, Run(cfg, Init(delayed), before), reply, deltas);
  }

  /** A reply that diverged from what was streamed is safe whatever arrives: the stream cannot be stopped,
      and from the fallback on every delta is ignored. */
  lemma {:induction false} DivergedReplyIsSafe(cfg: Config, s: State, reply: string)
    requires Inv(s) && s.final.NotCalled? && Quiet(s)
    requires !(s.sent <= cfg.render(reply))
    ensures AlwaysOneMessage(cfg, s, reply, true)
  {
    assert !LateTextShows(cfg, s, reply);
    hide AlwaysOneMessage, LateTextShows, Quiet;
    OneMessageIffQuiet(cfg, s, reply, true);
  }

  /* ---- a delta after finalizeReply has begun ---- */

  function Plain(): Config { Config((text: string) => text, true) }

  /** The stream shows "hello" and nothing else is pending. */
  function Hello(): State {
    State(None, false, false, true, false, false, Some(0), false, "hello", "hello", false, [Settled], map[],
          NotCalled, "", false, map[0 := "hello"], 1)
  }

  /** Streaming is on, and a flush of "hello" waits. */
  function HelloWaits(): State {
    Hello().(streamTs := None, sent := "", flushes := [Waiting], messages := map[], nextTs := 0)
  }

  function EnableAndPush(): seq<Event> { [EnableCalled(0), EnableResumes(0)] + [Push("hello"), FlushTimerFires] }

  function HelloStreamed(): seq<Event> { EnableAndPush() + [FlushBegins(0), FlushAnswered(0, true)] }

  lemma {:induction false} EnableThenPush()
    ensures Run(Plain(), Init(true), EnableAndPush()) == HelloWaits()
  {
    var c, s := Plain(), Init(true);
    var s1 := OnEnableCalled(c, s, 0);
    assert s1 == s.(placeholderTimer := false, enables := map[0 := CanEnable]);
    var s2 := OnEnableResumes(s1, 0);
    assert s2 == s1.(enabled := true, enables := map[]) by { assert s1.enables - {0} == map[]; }
    var s3 := OnPush(s2, "hello");
    assert OnFlushTimer(s3) == HelloWaits();
    hide OnEnableCalled, OnEnableResumes, OnPush, OnFlushTimer, HelloWaits, Init;
    RunTwo(c, s, EnableCalled(0), EnableResumes(0));
    RunTwo(c, s2, Push("hello"), FlushTimerFires);
    RunAppend(c, s, [EnableCalled(0), EnableResumes(0)], [Push("hello"), FlushTimerFires]);
  }

  lemma {:induction false} HelloIsSent()
    ensures var s1 := OnFlushBegins(Plain(), HelloWaits(), 0);
            s1.flushes == [Calling(None, "hello", "hello")] && OnFlushAnswered(s1, 0, true) == Hello()
            && !s1.final.FlushDone?
  {
    var s := HelloWaits();
    assert OnFlushBegins(Plain(), s, 0) == s.(flushes := [Calling(None, "hello", "hello")]);
  }

  /** A run that streams "hello". */
  lemma {:induction false} HelloIsStreamed()
    ensures Run(Plain(), Init(true), HelloStreamed()) == Hello()
  {
    var c, s := Plain(), HelloWaits();
    assert !s.final.FlushDone?;
    hide OnFlushBegins, OnFlushAnswered, HelloWaits, Hello, Init, EnableAndPush;
    HelloIsSent();
    EnableThenPush();
    RunTwo(c, s, FlushBegins(0), FlushAnswered(0, true));
    RunAppend(c, Init(true), EnableAndPush(), [FlushBegins(0), FlushAnswered(0, true)]);
  }

  /** Streaming and quiet; the reply "hello" is what is shown, and any delta would show behind it. */
  lemma {:induction false} HelloIsQuiet()
    ensures Quiet(Hello()) && LateTextShows(Plain(), Hello(), "hello")
  {
    var s := Hello();
    assert Fits(s.sent, s.flushes, Plain().render("hello" + ""));
    assert Extendable(Plain(), "hello", "hello", "", "!");
  }

  /** Even from a quiet moment late deltas can spoil the reply: the page ends up with more than "hello". */
  lemma {:induction false} LateDeltaBreaks()
    ensures var s := Run(Plain(), Init(true), HelloStreamed());
            && s.final.NotCalled? && Quiet(s)
            && Spoiled(Run(Plain(), OnFinalizeCalled(Plain(), s, "hello"), LateEvents(1, "", "!")), "hello")
  {
    HelloIsStreamed();
    HelloIsQuiet();
    InitInv(true);
    RunInv(Plain(), Init(true), HelloStreamed());
    var s := Hello();
    assert Fits(s.sent, s.flushes, Plain().render("hello" + ""));
    assert Extendable(Plain(), "hello", "hello", "", "!");
    assert |s.flushes| == 1;
    hide Inv, LateEvents, Quiet;
    LateTextBreaks(Plain(), s, "hello", "", "!");
  }

  /* ---- a moment that is not quiet ---- */

  /** The notice is still being posted when streaming is asked for: that moment is not quiet. */
  lemma {:induction false} EnabledBeforeTheNotice()
    ensures var s := Run(Plain(), Init(false), [EnableCalled(0)]);
            s.final.NotCalled? && !Quiet(s)
  {
    RunOne(Plain(), Init(false), EnableCalled(0));
    var s := OnEnableCalled(Plain(), Init(false), 0);
    assert 0 in s.enables && s.enables[0].WaitPost?;
  }
}
