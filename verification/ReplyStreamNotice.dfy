/**
 The notice and the switch: when the notice is shown, how streaming is turned on, and when nothing more is
 streamed.
 */
module ReplyStreamNotice {
  import opened Prelude
  import opened ReplyStreamProtocol
  import opened ReplyStreamSafety

  // --- the notice ---

  /** Before finalizing ends, the page shows exactly the notice once its post has succeeded. */
  lemma {:induction false} NoticeIsShown(cfg: Config, s: State)
    requires Inv(s) && s.posting && !s.final.Done? && !s.final.FlushDone?
    ensures var t := Next(cfg, s, NoticePosted(true));
            t.messages == map[s.nextTs := PROCESSING_NOTICE] && t.placeholderTs == Some(s.nextTs)
    ensures var t := Next(cfg, s, NoticePosted(false)); t.messages == map[] && !t.posting && t.placeholderTs == None
  {
    assert s.messages == map[];
  }

  /** The notice is posted at once, or when its timer fires. */
  lemma {:induction false} NoticeComes(cfg: Config, delayed: bool)
    ensures var s := if delayed then Run(cfg, Init(true), [PlaceholderTimerFires]) else Init(false);
            s.posting && Run(cfg, s, [NoticePosted(true)]).messages == map[0 := PROCESSING_NOTICE]
  {
    InitInv(delayed);
    RunOne(cfg, Init(true), PlaceholderTimerFires);
    var s := if delayed then Run(cfg, Init(true), [PlaceholderTimerFires]) else Init(false);
    RunInv(cfg, Init(true), [PlaceholderTimerFires]);
    InitInv(true);
    assert s.posting && s.nextTs == 0;
    NoticeIsShown(cfg, s);
    RunOne(cfg, s, NoticePosted(true));
  }

  /** If streaming cannot even be started, the page gets its notice back, once. */
  lemma {:induction false} FailedStartBringsTheNoticeBack(cfg: Config, s: State, k: int)
    requires Inv(s) && s.final.NotCalled? && 0 <= k < |s.flushes| && s.flushes[k].Calling? && s.streamTs.None?
    ensures var t := Run(cfg, s, [FlushAnswered(k, false), NoticePosted(true)]);
            t.failed && t.messages == map[s.nextTs := PROCESSING_NOTICE]
  {
    var u := OnFlushAnswered(s, k, false);
    assert !s.failed && s.placeholderTs.None?;
    FlushAnsweredInv(s, k, false);
    assert u.posting && u.failed && u.nextTs == s.nextTs && u.final.NotCalled?;
    NoticeIsShown(cfg, u);
    hide Inv, OnFlushAnswered;
    RunTwo(cfg, s, FlushAnswered(k, false), NoticePosted(true));
    assert Next(cfg, s, FlushAnswered(k, false)) == u;
  }

  /** A stream that fails later keeps what it shows. */
  lemma {:induction false} FailedAppendKeepsTheStream(cfg: Config, s: State, k: int)
    requires Inv(s) && s.final.NotCalled? && 0 <= k < |s.flushes| && s.flushes[k].Calling? && s.streamTs.Some?
    ensures var t := Next(cfg, s, FlushAnswered(k, false));
            t.failed && !t.posting && t.messages == s.messages && t.sent == s.sent && t.streamTs == s.streamTs
  {
  }

  // --- turning streaming on ---

  predicate CanTurnOn(cfg: Config, s: State) {
    cfg.hasTeamId && !s.disabled && !s.finalized && !s.failed && !s.enabled
  }

  /** Without a notice streaming is turned on at once. */
  lemma {:induction false} TurnsOn(cfg: Config, s: State, id: int)
    requires CanTurnOn(cfg, s) && id !in s.enables && s.placeholderTs.None? && !s.posting && s.final.NotCalled?
    ensures var t := Run(cfg, s, [EnableCalled(id), EnableResumes(id)]);
            t.enabled && t.messages == s.messages && t.buffered == s.buffered && !t.placeholderTimer
  {
    var u := OnEnableCalled(cfg, s, id);
    assert u == s.(placeholderTimer := false, enables := s.enables[id := CanEnable]);
    var t := OnEnableResumes(u, id);
    assert t.enabled && t.messages == s.messages && t.buffered == s.buffered && !t.placeholderTimer;
    hide OnEnableCalled, OnEnableResumes;
    RunTwo(cfg, s, EnableCalled(id), EnableResumes(id));
    assert Next(cfg, s, EnableCalled(id)) == u && Next(cfg, u, EnableResumes(id)) == t;
  }

  /** With a notice on the page streaming is turned on once the notice is deleted, and stays off if it is not. */
  lemma {:induction false} TurnsOnInPlaceOfTheNotice(cfg: Config, s: State, id: int, ok: bool)
    requires Inv(s) && CanTurnOn(cfg, s) && id !in s.enables && s.placeholderTs.Some? && s.final.NotCalled?
    ensures var t := Run(cfg, s, [EnableCalled(id), EnableResumes(id)] + [DeleteAnswered(id, ok), EnableResumes(id)]);
            && t.enabled == ok && t.buffered == s.buffered
            && t.messages == (if ok then map[] else map[s.placeholderTs.value := PROCESSING_NOTICE])
  {
    var ts := s.placeholderTs.value;
    assert s.streamTs.None? && s.messages == map[ts := PROCESSING_NOTICE];
    hide Inv;
    var u := s.(placeholderTimer := false, enables := s.enables[id := Deleting(ts)]);
    NoticeKnown(cfg, s, id, ts, u);
    NoticeAnswered(cfg, u, id, ts, ok);
    RunAppend(cfg, s, [EnableCalled(id), EnableResumes(id)], [DeleteAnswered(id, ok), EnableResumes(id)]);
  }

  lemma {:induction false} NoticeKnown(cfg: Config, s: State, id: int, ts: Ts, u: State)
    requires CanTurnOn(cfg, s) && id !in s.enables && s.placeholderTs == Some(ts) && s.final.NotCalled?
    requires u == s.(placeholderTimer := false, enables := s.enables[id := Deleting(ts)])
    ensures Run(cfg, s, [EnableCalled(id), EnableResumes(id)]) == u
  {
    var s1 := OnEnableCalled(cfg, s, id);
    assert s1 == s.(placeholderTimer := false, enables := s.enables[id := HavePlaceholder(Some(ts))]);
    assert OnEnableResumes(s1, id) == u by { assert s1.enables[id := Deleting(ts)] == s.enables[id := Deleting(ts)]; }
    hide OnEnableCalled, OnEnableResumes;
    RunTwo(cfg, s, EnableCalled(id), EnableResumes(id));
    assert Next(cfg, s, EnableCalled(id)) == s1 && Next(cfg, s1, EnableResumes(id)) == u;
  }

  lemma {:induction false} NoticeAnswered(cfg: Config, u: State, id: int, ts: Ts, ok: bool)
    requires id in u.enables && u.enables[id] == Deleting(ts) && u.messages == map[ts := PROCESSING_NOTICE]
    requires u.final.NotCalled? && !u.enabled
    ensures var t := Run(cfg, u, [DeleteAnswered(id, ok), EnableResumes(id)]);
            && t.enabled == ok && t.buffered == u.buffered
            && t.messages == if ok then map[] else u.messages
  {
    var v := OnDeleteAnswered(u, id, ok);
    var t := OnEnableResumes(v, id);
    if ok {
      assert v.messages == map[] && v.enables[id] == CanEnable && v.buffered == u.buffered && v.final.NotCalled?;
    } else {
      assert v == u.(enables := u.enables - {id}) && t == v;
    }
    assert t.enabled == ok && t.buffered == u.buffered && t.messages == if ok then map[] else u.messages;
    hide OnDeleteAnswered, OnEnableResumes;
    RunTwo(cfg, u, DeleteAnswered(id, ok), EnableResumes(id));
    assert Next(cfg, u, DeleteAnswered(id, ok)) == v && Next(cfg, v, EnableResumes(id)) == t;
  }

  // --- when nothing is streamed ---

  /** Nothing is being sent, and nothing will be. */
  ghost predicate SendsNothing(cfg: Config, s: State) {
    NoneCalling(s.flushes) && (s.failed || s.disabled || (!cfg.hasTeamId && !s.enabled && s.enables == map[]))
  }

  ghost predicate SameStream(s: State, t: State) {
    t.sent == s.sent && t.streamTs == s.streamTs
  }

  /** Another state that sends nothing either, with the same stream. */
  ghost predicate StaysSilent(cfg: Config, s: State, t: State) {
    SendsNothing(cfg, s) ==> SendsNothing(cfg, t) && SameStream(s, t)
  }

  lemma {:induction false} SettleStaysSilent(cfg: Config, s: State, k: int)
    requires 0 <= k < |s.flushes|
    ensures StaysSilent(cfg, s, Settle(s, k)) && StaysSilent(cfg, s, FailFlush(s, k))
  {
    hide Reposts, Awaken;
  }

  lemma {:induction false} BeginStaysSilent(cfg: Config, s: State, k: int)
    ensures StaysSilent(cfg, s, OnFlushBegins(cfg, s, k))
  {
    if CanBegin(s, k) {
      SettleStaysSilent(cfg, s, k);
    }
    assert SendsNothing(cfg, s) ==> !s.enabled || s.disabled || s.failed;
    assert StaysSilent(cfg, s, s);
    hide StaysSilent, Settle, FailFlush;
    if !SendsNothing(cfg, s) {
      AnyIsSilent(cfg, s, OnFlushBegins(cfg, s, k));
    }
  }

  lemma {:induction false} AnyIsSilent(cfg: Config, s: State, t: State)
    requires !SendsNothing(cfg, s)
    ensures StaysSilent(cfg, s, t)
  {
  }

  lemma {:induction false} AnswerStaysSilent(cfg: Config, s: State, k: int, ok: bool)
    ensures StaysSilent(cfg, s, OnFlushAnswered(s, k, ok))
  {
    if SendsNothing(cfg, s) {
      assert OnFlushAnswered(s, k, ok) == s;
    }
    hide OnFlushAnswered;
  }

  lemma {:induction false} EnableStaysSilent(cfg: Config, s: State, id: int)
    ensures StaysSilent(cfg, s, OnEnableCalled(cfg, s, id))
  {
    hide FirstEnablePhase;
  }

  lemma {:induction false} DeleteStaysSilent(cfg: Config, s: State, id: int, ok: bool)
    ensures StaysSilent(cfg, s, OnDeleteAnswered(s, id, ok))
  {
  }

  lemma {:induction false} OnStaysSilent(cfg: Config, s: State, id: int)
    requires id in s.enables
    ensures StaysSilent(cfg, s, StreamingOn(s, id))
  {
  }

  lemma {:induction false} ResumeStaysSilent(cfg: Config, s: State, id: int)
    ensures StaysSilent(cfg, s, OnEnableResumes(s, id))
  {
    if id in s.enables {
      OnStaysSilent(cfg, s, id);
    }
    hide AfterPlaceholder, StreamingOn;
  }

  lemma {:induction false} NoticeStaysSilent(cfg: Config, s: State, ok: bool)
    ensures StaysSilent(cfg, s, OnNoticePosted(s, ok))
  {
    assert s.enables == map[] ==> DeliverToEnables(s.enables, if ok then Some(s.nextTs) else None) == map[];
    hide DeliverToEnables, DeliverToFinal;
  }

  lemma {:induction false} FinalizeStaysSilent(cfg: Config, s: State, reply: string)
    ensures StaysSilent(cfg, s, OnFinalizeCalled(cfg, s, reply))
  {
    hide FallbackTarget;
  }

  lemma {:induction false} StopStaysSilent(cfg: Config, s: State, ok: bool)
    ensures StaysSilent(cfg, s, OnFinalizeResumes(cfg, s)) && StaysSilent(cfg, s, OnStopAnswered(s, ok))
  {
    hide FallbackTarget, AfterFlush, StopsStream;
  }

  lemma {:induction false} SameFieldsSilent(cfg: Config, s: State, t: State)
    requires t.flushes == s.flushes && t.failed == s.failed && t.disabled == s.disabled && t.enabled == s.enabled
    requires t.enables == s.enables && t.sent == s.sent && t.streamTs == s.streamTs
    ensures StaysSilent(cfg, s, t)
  {
  }

  lemma {:induction false} UpdateStaysSilent(cfg: Config, s: State, ok: bool)
    ensures StaysSilent(cfg, s, OnUpdateAnswered(cfg, s, ok))
  {
    hide StaysSilent;
    SameFieldsSilent(cfg, s, OnUpdateAnswered(cfg, s, ok));
  }

  lemma {:induction false} PostStaysSilent(cfg: Config, s: State, ok: bool)
    ensures StaysSilent(cfg, s, OnReplyPosted(cfg, s, ok))
  {
    hide StaysSilent;
    SameFieldsSilent(cfg, s, OnReplyPosted(cfg, s, ok));
  }

  lemma {:induction false} PushStaysSilent(cfg: Config, s: State, delta: string)
    ensures StaysSilent(cfg, s, OnPush(s, delta)) && StaysSilent(cfg, s, OnDisable(s))
  {
  }

  lemma {:induction false} TimersStaySilent(cfg: Config, s: State)
    ensures StaysSilent(cfg, s, OnFlushTimer(s)) && StaysSilent(cfg, s, OnPlaceholderTimer(s))
  {
  }

  lemma {:induction false} StepStaysSilent(cfg: Config, s: State, e: Event)
    ensures StaysSilent(cfg, s, Step(cfg, s, e))
  {
    hide StaysSilent;
    hide OnPlaceholderTimer, OnNoticePosted, OnPush, OnFlushTimer, OnFlushBegins, OnFlushAnswered, OnEnableCalled;
    hide OnEnableResumes, OnDeleteAnswered, OnDisable, OnFinalizeCalled, OnFinalizeResumes, OnStopAnswered;
    hide OnUpdateAnswered, OnReplyPosted;
    match e
    case PlaceholderTimerFires => TimersStaySilent(cfg, s);
    case NoticePosted(ok) => NoticeStaysSilent(cfg, s, ok);
    case Push(delta) => PushStaysSilent(cfg, s, delta);
    case FlushTimerFires => TimersStaySilent(cfg, s);
    case FlushBegins(k) => BeginStaysSilent(cfg, s, k);
    case FlushAnswered(k, ok) => AnswerStaysSilent(cfg, s, k, ok);
    case EnableCalled(id) => EnableStaysSilent(cfg, s, id);
    case EnableResumes(id) => ResumeStaysSilent(cfg, s, id);
    case DeleteAnswered(id, ok) => DeleteStaysSilent(cfg, s, id, ok);
    case Disable => PushStaysSilent(cfg, s, "");
    case FinalizeCalled(reply) => FinalizeStaysSilent(cfg, s, reply);
    case FinalizeResumes => StopStaysSilent(cfg, s, true);
    case StopAnswered(ok) => StopStaysSilent(cfg, s, ok);
    case UpdateAnswered(ok) => UpdateStaysSilent(cfg, s, ok);
    case ReplyPosted(ok) => PostStaysSilent(cfg, s, ok);
  }

  lemma {:induction false} NextStaysSilent(cfg: Config, s: State, e: Event)
    requires SendsNothing(cfg, s)
    ensures SendsNothing(cfg, Next(cfg, s, e)) && SameStream(s, Next(cfg, s, e))
  {
    StepStaysSilent(cfg, s, e);
    hide SendsNothing, Step, PutOff;
  }

  /** Once streaming has failed or was disabled, and no call is under way, no run streams anything more. */
  lemma {:induction false} NothingMoreIsStreamed(cfg: Config, s: State, events: seq<Event>)
    requires SendsNothing(cfg, s)
    ensures SendsNothing(cfg, Run(cfg, s, events)) && SameStream(s, Run(cfg, s, events))
    decreases |events|
  {
    if events != [] {
      var t := Next(cfg, s, events[0]);
      NextStaysSilent(cfg, s, events[0]);
      NothingMoreIsStreamed(cfg, t, events[1..]);
    }
    hide SendsNothing, Next;
  }

  /** Without a team id nothing is ever streamed. */
  lemma {:induction false} NoTeamNoStream(cfg: Config, delayed: bool, events: seq<Event>)
    requires !cfg.hasTeamId
    ensures var s := Run(cfg, Init(delayed), events); s.streamTs.None? && s.sent == ""
  {
    NothingMoreIsStreamed(cfg, Init(delayed), events);
  }
}
