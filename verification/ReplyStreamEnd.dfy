/** finalizeReply gets through: it ends whatever fails on the way, and throws only if its own post does. */
module ReplyStreamEnd {
  import opened Prelude
  import opened ReplyStreamProtocol
  import opened ReplyStreamSafety

  lemma {:induction false} TargetsDoNotThrow(cfg: Config, s: State, k: int, flushes: seq<Flush>, result: Option<Ts>)
    ensures !FallbackTarget(s).Thrown? && !AfterFlush(cfg, s).Thrown?
    ensures !s.final.Thrown? ==> !Awaken(s.final, k).Thrown? && !DeliverToFinal(s.final, flushes, result).Thrown?
  {
  }

  lemma {:induction false} SettleDoesNotThrow(cfg: Config, s: State, k: int)
    requires !s.final.Thrown? && 0 <= k < |s.flushes|
    ensures !Settle(s, k).final.Thrown? && !FailFlush(s, k).final.Thrown?
  {
    TargetsDoNotThrow(cfg, s, k, s.flushes, None);
    hide FallbackTarget, AfterFlush, Awaken, DeliverToFinal, Reposts;
  }

  lemma {:induction false} BeginDoesNotThrow(cfg: Config, s: State, k: int)
    requires !s.final.Thrown?
    ensures !OnFlushBegins(cfg, s, k).final.Thrown?
  {
    if CanBegin(s, k) {
      SettleDoesNotThrow(cfg, s, k);
    }
    hide Settle, FailFlush, CanBegin;
  }

  lemma {:induction false} AnswerDoesNotThrow(cfg: Config, s: State, k: int, ok: bool)
    requires !s.final.Thrown?
    ensures !OnFlushAnswered(s, k, ok).final.Thrown?
  {
    if 0 <= k < |s.flushes| {
      SettleDoesNotThrow(cfg, s, k);
    }
    TargetsDoNotThrow(cfg, s, k, s.flushes, None);
    hide FallbackTarget, AfterFlush, Awaken, DeliverToFinal, FailFlush, Settle;
  }

  lemma {:induction false} NoticeDoesNotThrow(cfg: Config, s: State, ok: bool)
    requires !s.final.Thrown?
    ensures !OnNoticePosted(s, ok).final.Thrown?
  {
    TargetsDoNotThrow(cfg, s, 0, s.flushes, if ok then Some(s.nextTs) else None);
    hide FallbackTarget, AfterFlush, Awaken, DeliverToFinal, DeliverToEnables, DeliverToFlushes;
  }

  lemma {:induction false} EnableDoesNotThrow(cfg: Config, s: State, id: int)
    requires !s.final.Thrown?
    ensures !OnEnableCalled(cfg, s, id).final.Thrown?
  {
    hide FirstEnablePhase;
  }

  lemma {:induction false} OnDoesNotThrow(s: State, id: int)
    requires !s.final.Thrown?
    ensures !StreamingOn(s, id).final.Thrown?
  {
  }

  lemma {:induction false} ResumeDoesNotThrow(s: State, id: int)
    requires !s.final.Thrown?
    ensures !OnEnableResumes(s, id).final.Thrown?
  {
    OnDoesNotThrow(s, id);
    hide AfterPlaceholder, StreamingOn;
  }

  lemma {:induction false} DeleteDoesNotThrow(s: State, id: int, ok: bool)
    requires !s.final.Thrown?
    ensures !OnDeleteAnswered(s, id, ok).final.Thrown?
  {
  }

  lemma {:induction false} CallDoesNotThrow(cfg: Config, s: State, reply: string)
    requires !s.final.Thrown?
    ensures !OnFinalizeCalled(cfg, s, reply).final.Thrown?
  {
    TargetsDoNotThrow(cfg, s, 0, s.flushes, None);
    hide FallbackTarget, AfterFlush, Awaken, DeliverToFinal;
  }

  lemma {:induction false} GoOnDoesNotThrow(cfg: Config, s: State)
    requires !s.final.Thrown?
    ensures !OnFinalizeResumes(cfg, s).final.Thrown?
  {
    TargetsDoNotThrow(cfg, s, 0, s.flushes, None);
    hide FallbackTarget, AfterFlush, Awaken, DeliverToFinal, StopsStream;
  }

  lemma {:induction false} StopDoesNotThrow(cfg: Config, s: State, ok: bool)
    requires !s.final.Thrown?
    ensures !OnStopAnswered(s, ok).final.Thrown?
  {
    TargetsDoNotThrow(cfg, s, 0, s.flushes, None);
    hide FallbackTarget, AfterFlush, Awaken, DeliverToFinal;
  }

  lemma {:induction false} UpdateDoesNotThrow(cfg: Config, s: State, ok: bool)
    requires !s.final.Thrown?
    ensures !OnUpdateAnswered(cfg, s, ok).final.Thrown?
  {
  }

  lemma {:induction false} PostDoesNotThrow(cfg: Config, s: State)
    requires !s.final.Thrown?
    ensures !OnReplyPosted(cfg, s, true).final.Thrown?
  {
  }

  lemma {:induction false} CallsDoNotThrow(s: State, delta: string)
    requires !s.final.Thrown?
    ensures !OnPush(s, delta).final.Thrown? && !OnFlushTimer(s).final.Thrown? && !OnPlaceholderTimer(s).final.Thrown?
    ensures !OnDisable(s).final.Thrown?
  {
  }

  lemma {:induction false} NextDoesNotThrow(cfg: Config, s: State, e: Event)
    requires !s.final.Thrown? && !(e.ReplyPosted? && !e.ok)
    ensures !Next(cfg, s, e).final.Thrown?
  {
    hide OnNoticePosted, OnFlushBegins, OnFlushAnswered, OnEnableCalled, OnEnableResumes, OnDeleteAnswered;
    hide OnFinalizeCalled, OnFinalizeResumes, OnStopAnswered, OnUpdateAnswered, OnReplyPosted;
    hide OnPush, OnFlushTimer, OnPlaceholderTimer, OnDisable, PutOff;
    match e
    case PlaceholderTimerFires => CallsDoNotThrow(s, "");
    case NoticePosted(ok) => NoticeDoesNotThrow(cfg, s, ok);
    case Push(delta) => CallsDoNotThrow(s, delta);
    case FlushTimerFires => CallsDoNotThrow(s, "");
    case FlushBegins(k) => BeginDoesNotThrow(cfg, s, k);
    case FlushAnswered(k, ok) => AnswerDoesNotThrow(cfg, s, k, ok);
    case EnableCalled(id) => EnableDoesNotThrow(cfg, s, id);
    case EnableResumes(id) => ResumeDoesNotThrow(s, id);
    case DeleteAnswered(id, ok) => DeleteDoesNotThrow(s, id, ok);
    case Disable => CallsDoNotThrow(s, "");
    case FinalizeCalled(reply) => CallDoesNotThrow(cfg, s, reply);
    case FinalizeResumes => GoOnDoesNotThrow(cfg, s);
    case StopAnswered(ok) => StopDoesNotThrow(cfg, s, ok);
    case UpdateAnswered(ok) => UpdateDoesNotThrow(cfg, s, ok);
    case ReplyPosted(ok) => PostDoesNotThrow(cfg, s);
  }

  /** finalizeReply throws only if posting the reply failed. */
  lemma {:induction false} OnlyThePostThrows(cfg: Config, s: State, events: seq<Event>)
    requires !s.final.Thrown?
    requires forall i :: 0 <= i < |events| ==> !(events[i].ReplyPosted? && !events[i].ok)
    ensures !Run(cfg, s, events).final.Thrown?
    decreases |events|
  {
    hide Next;
    if events != [] {
      NextDoesNotThrow(cfg, s, events[0]);
      OnlyThePostThrows(cfg, Next(cfg, s, events[0]), events[1..]);
    }
  }

  /** The answers that end finalizing: the first call succeeds, or it fails and the next one does. */
  function Ending(final: Final, ok: bool): seq<Event> {
    match final
    case Stopping(_, _) => if ok then [StopAnswered(true)] else [StopAnswered(false), UpdateAnswered(true)]
    case WaitPlaceholder => if ok then [NoticePosted(true), UpdateAnswered(true)] else [NoticePosted(false), ReplyPosted(true)]
    case Updating(_) => if ok then [UpdateAnswered(true)] else [UpdateAnswered(false), ReplyPosted(true)]
    case Posting => [ReplyPosted(true)]
    case _ => []
  }

  ghost predicate Delivered(t: State, text: string) {
    t.final.Done? && exists ts :: ts in t.messages && t.messages[ts] == text
  }

  lemma {:induction false} UpdateDelivers(cfg: Config, s: State)
    requires s.final.Updating? && s.final.ts in s.messages
    ensures Delivered(OnUpdateAnswered(cfg, s, true), cfg.render(s.reply))
  {
    assert s.final.ts in OnUpdateAnswered(cfg, s, true).messages;
  }

  lemma {:induction false} PostDelivers(cfg: Config, s: State)
    requires s.final.Posting?
    ensures Delivered(OnReplyPosted(cfg, s, true), cfg.render(s.reply))
  {
    assert s.nextTs in OnReplyPosted(cfg, s, true).messages;
  }

  lemma {:induction false} UpdatingEnds(cfg: Config, s: State, ok: bool)
    requires s.final.Updating? && s.final.ts in s.messages
    ensures Delivered(Run(cfg, s, Ending(s.final, ok)), cfg.render(s.reply))
  {
    var u := OnUpdateAnswered(cfg, s, false);
    assert u == s.(final := Posting, updateFailed := true);
    hide Delivered, OnUpdateAnswered, OnReplyPosted;
    if ok {
      UpdateDelivers(cfg, s);
      RunOne(cfg, s, UpdateAnswered(true));
    } else {
      PostDelivers(cfg, u);
      RunTwo(cfg, s, UpdateAnswered(false), ReplyPosted(true));
    }
  }

  lemma {:induction false} WaitingEnds(cfg: Config, s: State, ok: bool)
    requires s.final.WaitPlaceholder? && s.posting
    ensures Delivered(Run(cfg, s, Ending(s.final, ok)), cfg.render(s.reply))
  {
    var u := OnNoticePosted(s, ok);
    assert u.reply == s.reply && !u.final.FlushDone?;
    assert if ok then u.final == Updating(s.nextTs) && s.nextTs in u.messages else u.final == Posting;
    hide Delivered, OnUpdateAnswered, OnReplyPosted, OnNoticePosted;
    if ok {
      UpdateDelivers(cfg, u);
      RunTwo(cfg, s, NoticePosted(true), UpdateAnswered(true));
    } else {
      PostDelivers(cfg, u);
      RunTwo(cfg, s, NoticePosted(false), ReplyPosted(true));
    }
  }

  lemma {:induction false} StopEnds(cfg: Config, s: State, ok: bool)
    requires Inv(s) && s.final.Stopping?
    ensures
      var t := OnStopAnswered(s, ok);
      if ok then Delivered(t, s.sent + s.final.append)
      else t.final == Updating(s.final.ts) && t.reply == s.reply && s.final.ts in t.messages
  {
    StreamIsShown(s);
    assert s.messages == map[s.final.ts := s.sent];
    hide Inv;
    assert s.final.ts in OnStopAnswered(s, ok).messages;
  }

  lemma {:induction false} StoppingEnds(cfg: Config, s: State, ok: bool)
    requires Inv(s) && s.final.Stopping?
    ensures Delivered(Run(cfg, s, Ending(s.final, ok)), if ok then s.sent + s.final.append else cfg.render(s.reply))
  {
    StopEnds(cfg, s, ok);
    hide Inv, Delivered, OnStopAnswered, OnUpdateAnswered;
    var u := OnStopAnswered(s, ok);
    if ok {
      RunOne(cfg, s, StopAnswered(true));
    } else {
      UpdateDelivers(cfg, u);
      RunTwo(cfg, s, StopAnswered(false), UpdateAnswered(true));
    }
  }

  /** Wherever finalizing waits for an answer, it goes on to the end if the answer fails, as long as the next one
      does not, and then some message shows the reply, or the stream with the missing text added. */
  lemma {:induction false} FinalizingEnds(cfg: Config, s: State, ok: bool)
    requires Inv(s) && (s.final.Stopping? || s.final.WaitPlaceholder? || s.final.Updating? || s.final.Posting?)
    requires s.final.WaitPlaceholder? ==> s.posting
    requires s.final.Updating? ==> s.final.ts in s.messages
    ensures Delivered(Run(cfg, s, Ending(s.final, ok)),
                      if s.final.Stopping? && ok then s.sent + s.final.append else cfg.render(s.reply))
  {
    hide Inv, Delivered, OnReplyPosted;
    match s.final
    case Stopping(_, _) => StoppingEnds(cfg, s, ok);
    case WaitPlaceholder => WaitingEnds(cfg, s, ok);
    case Updating(_) => UpdatingEnds(cfg, s, ok);
    case Posting =>
      PostDelivers(cfg, s);
      RunOne(cfg, s, ReplyPosted(true));
  }
}
