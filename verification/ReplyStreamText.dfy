/**
 What the stream shows comes from the deltas: while streaming is neither disabled nor finalized, what was
 sent is the rendering of the text pushed so far or of a beginning of it, and of all of it once nothing is
 pending.
 */
module ReplyStreamText {
  import opened Prelude
  import opened ReplyStreamProtocol
  import opened ReplyStreamSafety

  function Concat(deltas: seq<string>): string {
    if deltas == [] then "" else Concat(deltas[..|deltas| - 1]) + deltas[|deltas| - 1]
  }

  /** The deltas of a run, in order. */
  function Deltas(events: seq<Event>): seq<string> {
    if events == [] then [] else
      var e := events[|events| - 1];
      Deltas(events[..|events| - 1]) + (if e.Push? then [e.delta] else [])
  }

  /** Streaming is never disabled and finalizeReply never called. */
  predicate Ongoing(events: seq<Event>) {
    forall i :: 0 <= i < |events| ==> !events[i].Disable? && !events[i].FinalizeCalled?
  }

  /** The rendering of the first n deltas, for some n. */
  ghost predicate ShowsSome(cfg: Config, deltas: seq<string>, text: string) {
    exists n :: 0 <= n <= |deltas| && text == cfg.render(Concat(deltas[..n]))
  }

  ghost predicate CallsShowSome(cfg: Config, deltas: seq<string>, flushes: seq<Flush>) {
    forall k :: 0 <= k < |flushes| && flushes[k].Calling? ==> ShowsSome(cfg, deltas, flushes[k].rendered)
  }

  ghost predicate FromDeltas(cfg: Config, s: State, deltas: seq<string>) {
    && s.final.NotCalled? && !s.finalized && !s.disabled
    && s.buffered == Concat(deltas)
    && (s.sent == "" || ShowsSome(cfg, deltas, s.sent))
    && CallsShowSome(cfg, deltas, s.flushes)
  }

  /** Some flush waits, or one that sends all the text is under way. */
  ghost predicate UnderWay(cfg: Config, flushes: seq<Flush>, buffered: string) {
    exists k :: 0 <= k < |flushes|
      && (flushes[k].Waiting? || (flushes[k].Calling? && flushes[k].rendered == cfg.render(buffered)))
  }

  /** No text is forgotten: what is not yet sent has a timer or a flush. */
  ghost predicate NothingForgotten(cfg: Config, s: State) {
    s.enabled && !s.disabled && !s.failed && s.buffered != "" ==>
      s.flushTimer || UnderWay(cfg, s.flushes, s.buffered)
      || (NoneCalling(s.flushes) && s.sent == cfg.render(s.buffered))
  }

  lemma {:induction false} ConcatSnoc(deltas: seq<string>, delta: string)
    ensures Concat(deltas + [delta]) == Concat(deltas) + delta
  {
    assert (deltas + [delta])[..|deltas|] == deltas;
  }

  lemma {:induction false} ShowsSomeMore(cfg: Config, deltas: seq<string>, delta: string, text: string)
    requires ShowsSome(cfg, deltas, text)
    ensures ShowsSome(cfg, deltas + [delta], text)
  {
    var n :| 0 <= n <= |deltas| && text == cfg.render(Concat(deltas[..n]));
    assert (deltas + [delta])[..n] == deltas[..n];
  }

  lemma {:induction false} ShowsAll(cfg: Config, deltas: seq<string>)
    ensures ShowsSome(cfg, deltas, cfg.render(Concat(deltas)))
  {
    assert deltas[..|deltas|] == deltas;
  }

  lemma {:induction false} PushFromDeltas(cfg: Config, s: State, deltas: seq<string>, delta: string)
    requires FromDeltas(cfg, s, deltas)
    ensures FromDeltas(cfg, OnPush(s, delta), deltas + [delta])
  {
    ConcatSnoc(deltas, delta);
    assert delta == "" ==> Concat(deltas) + delta == Concat(deltas);
    if s.sent != "" {
      ShowsSomeMore(cfg, deltas, delta, s.sent);
    }
    forall k | 0 <= k < |s.flushes| && s.flushes[k].Calling?
      ensures ShowsSome(cfg, deltas + [delta], s.flushes[k].rendered)
    {
      ShowsSomeMore(cfg, deltas, delta, s.flushes[k].rendered);
    }
  }

  /** The text and what was sent of it are the same, and no flush has begun to send. */
  ghost predicate SameText(s: State, t: State) {
    && (s.final.NotCalled? ==> t.final.NotCalled?)
    && t.finalized == s.finalized && t.disabled == s.disabled && t.buffered == s.buffered && t.sent == s.sent
    && forall k :: 0 <= k < |t.flushes| && t.flushes[k].Calling? ==> k < |s.flushes| && t.flushes[k] == s.flushes[k]
  }

  lemma {:induction false} SameFromDeltas(cfg: Config, s: State, t: State, deltas: seq<string>)
    requires FromDeltas(cfg, s, deltas) && SameText(s, t)
    ensures FromDeltas(cfg, t, deltas)
  {
    hide ShowsSome, Concat;
  }

  lemma {:induction false} SettleSameText(s: State, k: int)
    requires 0 <= k < |s.flushes|
    ensures SameText(s, Settle(s, k)) && SameText(s, FailFlush(s, k))
  {
  }

  lemma {:induction false} CallFromDeltas(cfg: Config, s: State, deltas: seq<string>, k: int, append: string)
    requires FromDeltas(cfg, s, deltas) && 0 <= k < |s.flushes|
    ensures FromDeltas(cfg, s.(flushes := s.flushes[k := Calling(s.streamTs, append, cfg.render(s.buffered))]), deltas)
  {
    ShowsAll(cfg, deltas);
    hide ShowsSome, Concat;
  }

  lemma {:induction false} FlushBeginsFromDeltas(cfg: Config, s: State, deltas: seq<string>, k: int)
    requires FromDeltas(cfg, s, deltas)
    ensures FromDeltas(cfg, OnFlushBegins(cfg, s, k), deltas)
  {
    var rendered := cfg.render(s.buffered);
    hide FromDeltas, SameText, Settle, FailFlush;
    if CanBegin(s, k) {
      SettleSameText(s, k);
      SameFromDeltas(cfg, s, Settle(s, k), deltas);
      SameFromDeltas(cfg, s, FailFlush(s, k), deltas);
      if s.sent <= rendered {
        CallFromDeltas(cfg, s, deltas, k, rendered[|s.sent|..]);
      }
    }
  }

  lemma {:induction false} FlushAnsweredFromDeltas(cfg: Config, s: State, deltas: seq<string>, k: int, ok: bool)
    requires FromDeltas(cfg, s, deltas)
    ensures FromDeltas(cfg, OnFlushAnswered(s, k, ok), deltas)
  {
    hide ShowsSome, Concat;
  }

  lemma {:induction false} NoticeSameText(s: State, ok: bool)
    ensures s.final.NotCalled? ==> SameText(s, OnNoticePosted(s, ok))
  {
  }

  lemma {:induction false} EnableCalledSameText(cfg: Config, s: State, id: int)
    ensures SameText(s, OnEnableCalled(cfg, s, id))
  {
  }

  lemma {:induction false} StreamingOnSameText(s: State, id: int)
    ensures SameText(s, StreamingOn(s, id))
  {
    hide Inv;
  }

  lemma {:induction false} EnableResumesSameText(s: State, id: int)
    ensures SameText(s, OnEnableResumes(s, id))
  {
    StreamingOnSameText(s, id);
    hide StreamingOn, AfterPlaceholder;
  }

  lemma {:induction false} DeleteSameText(s: State, id: int, ok: bool)
    ensures SameText(s, OnDeleteAnswered(s, id, ok))
  {
  }

  lemma {:induction false} TimerSameText(s: State)
    ensures SameText(s, OnPlaceholderTimer(s)) && SameText(s, OnFlushTimer(s))
  {
  }

  lemma {:induction false} FinalSameText(cfg: Config, s: State, ok: bool)
    requires s.final.NotCalled?
    ensures OnFinalizeResumes(cfg, s) == OnStopAnswered(s, ok) == OnUpdateAnswered(cfg, s, ok)
         == OnReplyPosted(cfg, s, ok) == s
  {
  }

  /** Every other event leaves the text alone. */
  lemma {:induction false} OtherSameText(cfg: Config, s: State, e: Event)
    requires s.final.NotCalled?
    requires !e.Push? && !e.FlushBegins? && !e.FlushAnswered? && !e.Disable? && !e.FinalizeCalled?
    ensures SameText(s, Next(cfg, s, e))
  {
    assert SameText(s, s);
    TimerSameText(s);
    hide SameText, OnPlaceholderTimer, OnNoticePosted, OnFlushTimer, OnEnableCalled, OnEnableResumes, OnDeleteAnswered;
    hide OnFinalizeResumes, OnStopAnswered, OnUpdateAnswered, OnReplyPosted;
    match e
    case NoticePosted(ok) => NoticeSameText(s, ok);
    case EnableCalled(id) => EnableCalledSameText(cfg, s, id);
    case EnableResumes(id) => EnableResumesSameText(s, id);
    case DeleteAnswered(id, ok) => DeleteSameText(s, id, ok);
    case FinalizeResumes => FinalSameText(cfg, s, true);
    case StopAnswered(ok) => FinalSameText(cfg, s, ok);
    case UpdateAnswered(ok) => FinalSameText(cfg, s, ok);
    case ReplyPosted(ok) => FinalSameText(cfg, s, ok);
    case _ =>
  }

  lemma {:induction false} OtherFromDeltas(cfg: Config, s: State, deltas: seq<string>, e: Event)
    requires FromDeltas(cfg, s, deltas)
    requires !e.Push? && !e.FlushBegins? && !e.FlushAnswered? && !e.Disable? && !e.FinalizeCalled?
    ensures FromDeltas(cfg, Next(cfg, s, e), deltas)
  {
    assert s.final.NotCalled?;
    hide FromDeltas, SameText, Next;
    OtherSameText(cfg, s, e);
    SameFromDeltas(cfg, s, Next(cfg, s, e), deltas);
  }

  lemma {:induction false} NextFromDeltas(cfg: Config, s: State, deltas: seq<string>, e: Event)
    requires FromDeltas(cfg, s, deltas) && !e.Disable? && !e.FinalizeCalled?
    ensures FromDeltas(cfg, Next(cfg, s, e), deltas + (if e.Push? then [e.delta] else []))
  {
    assert s.final.NotCalled?;
    assert deltas + [] == deltas;
    hide FromDeltas, OnPush, OnFlushBegins, OnFlushAnswered;
    match e
    case Push(delta) => PushFromDeltas(cfg, s, deltas, delta);
    case FlushBegins(k) => FlushBeginsFromDeltas(cfg, s, deltas, k);
    case FlushAnswered(k, ok) => FlushAnsweredFromDeltas(cfg, s, deltas, k, ok);
    case _ => OtherFromDeltas(cfg, s, deltas, e);
  }

  lemma {:induction false} BeginsNotForgotten(cfg: Config, s: State, k: int)
    requires Inv(s) && NothingForgotten(cfg, s) && s.final.NotCalled?
    ensures NothingForgotten(cfg, OnFlushBegins(cfg, s, k))
  {
    assert !s.finalized;
    var t := OnFlushBegins(cfg, s, k);
    assert CanBegin(s, k) ==> NoneCalling(s.flushes);
    if CanBegin(s, k) && s.enabled && !s.disabled && !s.failed && s.sent <= cfg.render(s.buffered)
       && s.sent != cfg.render(s.buffered) {
      assert t.flushes[k].Calling? && t.flushes[k].rendered == cfg.render(t.buffered);
    }
    hide Inv;
  }

  lemma {:induction false} AnsweredNotForgotten(cfg: Config, s: State, k: int, ok: bool)
    requires Inv(s) && NothingForgotten(cfg, s) && s.final.NotCalled?
    ensures NothingForgotten(cfg, OnFlushAnswered(s, k, ok))
  {
    var t := OnFlushAnswered(s, k, ok);
    if ok && 0 <= k < |s.flushes| && s.flushes[k].Calling? && UnderWay(cfg, s.flushes, s.buffered) {
      var j :| 0 <= j < |s.flushes|
        && (s.flushes[j].Waiting? || (s.flushes[j].Calling? && s.flushes[j].rendered == cfg.render(s.buffered)));
      if j != k {
        assert |t.flushes| == |s.flushes| && t.flushes[j] == s.flushes[j];
      }
    }
  }

  lemma {:induction false} WaitsUnderWay(cfg: Config, flushes: seq<Flush>, buffered: string)
    ensures UnderWay(cfg, flushes + [Waiting], buffered)
  {
    assert (flushes + [Waiting])[|flushes|].Waiting?;
  }

  lemma {:induction false} OnNotForgotten(cfg: Config, s: State, id: int)
    ensures NothingForgotten(cfg, StreamingOn(s, id))
  {
    WaitsUnderWay(cfg, s.flushes, s.buffered);
    hide UnderWay, NoneCalling;
  }

  lemma {:induction false} EnableNotForgotten(cfg: Config, s: State, id: int)
    requires NothingForgotten(cfg, s)
    ensures NothingForgotten(cfg, OnEnableResumes(s, id))
  {
    OnNotForgotten(cfg, s, id);
    hide UnderWay, NoneCalling, AfterPlaceholder, StreamingOn;
  }

  lemma {:induction false} TimerNotForgotten(cfg: Config, s: State)
    requires NothingForgotten(cfg, s)
    ensures NothingForgotten(cfg, OnFlushTimer(s))
  {
    WaitsUnderWay(cfg, s.flushes, s.buffered);
    hide UnderWay;
  }

  lemma {:induction false} NoticeNotForgotten(cfg: Config, s: State, ok: bool)
    requires NothingForgotten(cfg, s)
    ensures NothingForgotten(cfg, OnNoticePosted(s, ok))
  {
    if UnderWay(cfg, s.flushes, s.buffered) {
      var k :| 0 <= k < |s.flushes|
        && (s.flushes[k].Waiting? || (s.flushes[k].Calling? && s.flushes[k].rendered == cfg.render(s.buffered)));
      assert DeliverToFlushes(s.flushes)[k] == s.flushes[k];
    }
  }

  lemma {:induction false} OtherNotForgotten(cfg: Config, s: State, e: Event)
    requires NothingForgotten(cfg, s) && s.final.NotCalled?
    requires !e.FlushBegins? && !e.FlushAnswered? && !e.EnableResumes? && !e.FlushTimerFires? && !e.NoticePosted?
    requires !e.FinalizeCalled?
    ensures NothingForgotten(cfg, Next(cfg, s, e))
  {
    hide UnderWay;
  }

  lemma {:induction false} NextNotForgotten(cfg: Config, s: State, e: Event)
    requires Inv(s) && NothingForgotten(cfg, s) && s.final.NotCalled? && !e.FinalizeCalled?
    ensures NothingForgotten(cfg, Next(cfg, s, e))
  {
    hide Inv, NothingForgotten, OnFlushBegins, OnFlushAnswered, OnEnableResumes, OnFlushTimer, OnNoticePosted;
    match e
    case FlushBegins(k) => BeginsNotForgotten(cfg, s, k);
    case FlushAnswered(k, ok) => AnsweredNotForgotten(cfg, s, k, ok);
    case EnableResumes(id) => EnableNotForgotten(cfg, s, id);
    case FlushTimerFires => TimerNotForgotten(cfg, s);
    case NoticePosted(ok) => NoticeNotForgotten(cfg, s, ok);
    case _ => OtherNotForgotten(cfg, s, e);
  }

  // --- main results ---

  lemma {:induction false} RunFromDeltas(cfg: Config, delayed: bool, events: seq<Event>)
    requires Ongoing(events)
    ensures var s := Run(cfg, Init(delayed), events);
            Inv(s) && FromDeltas(cfg, s, Deltas(events)) && NothingForgotten(cfg, s)
    decreases |events|
  {
    InitInv(delayed);
    RunInv(cfg, Init(delayed), events);
    if events != [] {
      var before, e := events[..|events| - 1], events[|events| - 1];
      var s := Run(cfg, Init(delayed), before);
      RunFromDeltas(cfg, delayed, before);
      assert s.final.NotCalled?;
      NextFromDeltas(cfg, s, Deltas(before), e);
      NextNotForgotten(cfg, s, e);
      hide Inv, FromDeltas, NothingForgotten, Next;
      RunSnoc(cfg, Init(delayed), before, e);
      assert before + [e] == events;
    }
  }

  /** In every run before finalizeReply in which streaming is not disabled, the buffer is all the text pushed,
      in order, and what was sent is the rendering of the first deltas. */
  lemma {:induction false} SentIsPushed(cfg: Config, delayed: bool, events: seq<Event>)
    requires Ongoing(events)
    ensures var s, deltas := Run(cfg, Init(delayed), events), Deltas(events);
            && s.buffered == Concat(deltas)
            && (s.sent != "" ==> exists n :: 0 <= n <= |deltas| && s.sent == cfg.render(Concat(deltas[..n])))
  {
    RunFromDeltas(cfg, delayed, events);
    hide Inv, NothingForgotten, Run;
  }

  /** And once streaming is on and neither a timer nor a flush is pending, the stream shows all of it. */
  lemma {:induction false} SentIsAllPushed(cfg: Config, delayed: bool, events: seq<Event>)
    requires Ongoing(events)
    ensures var s, text := Run(cfg, Init(delayed), events), Concat(Deltas(events));
            s.enabled && !s.failed && !s.flushTimer && text != ""
            && (forall k :: 0 <= k < |s.flushes| ==> s.flushes[k].Settled?) ==>
              && s.sent == cfg.render(text)
              && s.messages == if s.streamTs.Some? then map[s.streamTs.value := cfg.render(text)] else map[]
  {
    RunFromDeltas(cfg, delayed, events);
    var s := Run(cfg, Init(delayed), events);
    if s.enabled && !s.failed {
      StreamOrNothing(s);
    }
    hide Inv, Run;
  }

  lemma {:induction false} StreamOrNothing(s: State)
    requires Inv(s) && s.final.NotCalled? && s.enabled && !s.failed
    ensures s.sent != "" ==> s.streamTs.Some?
    ensures s.messages == if s.streamTs.Some? then map[s.streamTs.value := s.sent] else map[]
  {
  }
}
