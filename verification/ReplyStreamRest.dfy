/**
 When the page stays as it is for good. After finalizeReply has ended, calls that were under way may
 still answer and change what Slack shows. The page is final exactly when nothing of that kind is left,
 and in particular a stopped stream shows the reply for good exactly when no later text was sent or is
 under way at the moment stopStream answers.
 */
module ReplyStreamRest {
  import opened Prelude
  import opened ReplyStreamProtocol
  import opened ReplyStreamSafety
  import opened ReplyStreamDelivery

  /** Nothing is under way that could still post, change or delete a message. */
  ghost predicate AtRest(s: State) {
    && !s.posting && NoneCalling(s.flushes)
    && EnablesQuiet(s.enables, s.messages)
  }

  /** The page never changes again, whatever happens. */
  ghost predicate Final(cfg: Config, s: State) {
    forall events :: Run(cfg, s, events).messages == s.messages
  }

  /** Past the flush and the stopping of the stream. */
  predicate FellBack(final: Final) {
    final.WaitPlaceholder? || final.Updating? || final.Posting? || final.Done? || final.Thrown?
  }

  /** What holds from the call of finalizeReply on, late deltas or not. */
  predicate Ending(s: State) {
    && (!s.final.NotCalled? ==> !s.placeholderTimer)
    && (FellBack(s.final) ==> s.finalized)
    && (s.final.Done? && s.streamTs.Some? ==> s.streamTs.value in s.messages)
  }

  lemma {:induction false} FlushAnsweredEnding(s: State, k: int, ok: bool)
    requires Inv(s) && Ending(s)
    ensures Ending(OnFlushAnswered(s, k, ok))
  {
  }

  lemma {:induction false} FlushBeginsEnding(cfg: Config, s: State, k: int)
    requires Ending(s)
    ensures Ending(OnFlushBegins(cfg, s, k))
  {
  }

  lemma {:induction false} EnableCalledEnding(cfg: Config, s: State, id: int)
    requires Ending(s)
    ensures Ending(OnEnableCalled(cfg, s, id))
  {
  }

  lemma {:induction false} EnablesEnding(s: State, enables: map<int, Enable>)
    requires Ending(s)
    ensures Ending(s.(enables := enables))
  {
  }

  lemma {:induction false} StreamingOnEnding(s: State, id: int)
    requires Ending(s) && id in s.enables
    ensures Ending(StreamingOn(s, id))
  {
  }

  lemma {:induction false} EnableResumesEnding(s: State, id: int)
    requires Ending(s)
    ensures Ending(OnEnableResumes(s, id))
  {
    hide Ending, StreamingOn, AfterPlaceholder;
    if id in s.enables && s.enables[id].HavePlaceholder? {
      EnablesEnding(s, s.enables[id := AfterPlaceholder(s.enables[id].ts)]);
    } else if id in s.enables && s.enables[id].CanEnable? {
      StreamingOnEnding(s, id);
    }
  }

  lemma {:induction false} DeleteAnsweredEnding(s: State, id: int, ok: bool)
    requires Inv(s) && Ending(s)
    ensures Ending(OnDeleteAnswered(s, id, ok))
  {
  }

  lemma {:induction false} NoticePostedEnding(s: State, ok: bool)
    requires Inv(s) && Ending(s)
    ensures Ending(OnNoticePosted(s, ok))
  {
  }

  lemma {:induction false} TimersEnding(s: State)
    requires Ending(s)
    ensures Ending(OnPlaceholderTimer(s)) && Ending(OnFlushTimer(s))
  {
  }

  lemma {:induction false} PushEnding(s: State, delta: string)
    requires Ending(s)
    ensures Ending(OnPush(s, delta)) && Ending(OnDisable(s))
  {
  }

  lemma {:induction false} FinalizeCalledEnding(cfg: Config, s: State, reply: string)
    requires Inv(s) && Ending(s)
    ensures Ending(OnFinalizeCalled(cfg, s, reply))
  {
  }

  lemma {:induction false} FinalizeResumesEnding(cfg: Config, s: State)
    requires Ending(s)
    ensures Ending(OnFinalizeResumes(cfg, s))
  {
  }

  lemma {:induction false} StopAnsweredEnding(s: State, ok: bool)
    requires Inv(s) && Ending(s)
    ensures Ending(OnStopAnswered(s, ok))
  {
  }

  lemma {:induction false} UpdateAnsweredEnding(cfg: Config, s: State, ok: bool)
    requires Inv(s) && Ending(s)
    ensures Ending(OnUpdateAnswered(cfg, s, ok))
  {
  }

  lemma {:induction false} ReplyPostedEnding(cfg: Config, s: State, ok: bool)
    requires Inv(s) && Ending(s)
    ensures Ending(OnReplyPosted(cfg, s, ok))
  {
  }

  lemma {:induction false} StepEnding(cfg: Config, s: State, e: Event)
    requires Inv(s) && Ending(s)
    ensures Ending(Step(cfg, s, e))
  {
    hide Inv, Ending;
    hide OnPlaceholderTimer, OnNoticePosted, OnPush, OnFlushTimer, OnFlushBegins, OnFlushAnswered, OnEnableCalled;
    hide OnEnableResumes, OnDeleteAnswered, OnDisable, OnFinalizeCalled, OnFinalizeResumes, OnStopAnswered;
    hide OnUpdateAnswered, OnReplyPosted;
    match e
    case PlaceholderTimerFires => TimersEnding(s);
    case NoticePosted(ok) => NoticePostedEnding(s, ok);
    case Push(delta) => PushEnding(s, delta);
    case FlushTimerFires => TimersEnding(s);
    case FlushBegins(k) => FlushBeginsEnding(cfg, s, k);
    case FlushAnswered(k, ok) => FlushAnsweredEnding(s, k, ok);
    case EnableCalled(id) => EnableCalledEnding(cfg, s, id);
    case EnableResumes(id) => EnableResumesEnding(s, id);
    case DeleteAnswered(id, ok) => DeleteAnsweredEnding(s, id, ok);
    case Disable => PushEnding(s, "");
    case FinalizeCalled(reply) => FinalizeCalledEnding(cfg, s, reply);
    case FinalizeResumes => FinalizeResumesEnding(cfg, s);
    case StopAnswered(ok) => StopAnsweredEnding(s, ok);
    case UpdateAnswered(ok) => UpdateAnsweredEnding(cfg, s, ok);
    case ReplyPosted(ok) => ReplyPostedEnding(cfg, s, ok);
  }

  lemma {:induction false} NextEnding(cfg: Config, s: State, e: Event)
    requires Inv(s) && Ending(s)
    ensures Ending(Next(cfg, s, e))
  {
    hide Inv, Ending, Step;
    StepEnding(cfg, s, e);
  }

  lemma {:induction false} RunEnding(cfg: Config, s: State, events: seq<Event>)
    requires Inv(s) && Ending(s)
    ensures Ending(Run(cfg, s, events))
    decreases |events|
  {
    hide Inv, Ending, Next;
    if events != [] {
      NextInv(cfg, s, events[0]);
      NextEnding(cfg, s, events[0]);
      RunEnding(cfg, Next(cfg, s, events[0]), events[1..]);
    }
  }

  /* ---- a page at rest stays ---- */

  /** Finalized, nothing under way, and the page is `page`. */
  ghost predicate Resting(s: State, page: map<Ts, string>) {
    s.final.Done? && s.finalized && !s.placeholderTimer && AtRest(s) && s.messages == page
  }

  lemma {:induction false} FlushResting(cfg: Config, s: State, k: int, ok: bool, page: map<Ts, string>)
    requires Resting(s, page)
    ensures Resting(OnFlushBegins(cfg, s, k), page) && Resting(OnFlushAnswered(s, k, ok), page)
  {
  }

  lemma {:induction false} EnableCalledResting(cfg: Config, s: State, id: int, page: map<Ts, string>)
    requires Resting(s, page)
    ensures Resting(OnEnableCalled(cfg, s, id), page)
  {
  }

  lemma {:induction false} EnableMovesResting(s: State, id: int, next: Enable, page: map<Ts, string>)
    requires Resting(s, page) && id in s.enables && s.enables[id].HavePlaceholder?
    requires next == AfterPlaceholder(s.enables[id].ts)
    ensures Resting(s.(enables := s.enables[id := next]), page)
  {
  }

  lemma {:induction false} StreamingOnResting(s: State, id: int, page: map<Ts, string>)
    requires Resting(s, page) && id in s.enables
    ensures Resting(StreamingOn(s, id), page)
  {
  }

  lemma {:induction false} EnableResumesResting(s: State, id: int, page: map<Ts, string>)
    requires Resting(s, page)
    ensures Resting(OnEnableResumes(s, id), page)
  {
    hide Resting, StreamingOn, AfterPlaceholder;
    if id in s.enables && s.enables[id].HavePlaceholder? {
      EnableMovesResting(s, id, AfterPlaceholder(s.enables[id].ts), page);
    } else if id in s.enables && s.enables[id].CanEnable? {
      StreamingOnResting(s, id, page);
    }
  }

  lemma {:induction false} DeleteAnsweredResting(s: State, id: int, ok: bool, page: map<Ts, string>)
    requires Resting(s, page)
    ensures Resting(OnDeleteAnswered(s, id, ok), page)
  {
  }

  lemma {:induction false} TimersResting(s: State, ok: bool, delta: string, page: map<Ts, string>)
    requires Resting(s, page)
    ensures Resting(OnPlaceholderTimer(s), page) && Resting(OnNoticePosted(s, ok), page)
    ensures Resting(OnFlushTimer(s), page) && Resting(OnPush(s, delta), page) && Resting(OnDisable(s), page)
  {
  }

  lemma {:induction false} FinalizeResting(cfg: Config, s: State, reply: string, ok: bool, page: map<Ts, string>)
    requires Resting(s, page)
    ensures Resting(OnFinalizeCalled(cfg, s, reply), page) && Resting(OnFinalizeResumes(cfg, s), page)
    ensures Resting(OnStopAnswered(s, ok), page)
    ensures Resting(OnUpdateAnswered(cfg, s, ok), page) && Resting(OnReplyPosted(cfg, s, ok), page)
  {
  }

  lemma {:induction false} StepResting(cfg: Config, s: State, e: Event, page: map<Ts, string>)
    requires Resting(s, page)
    ensures Resting(Step(cfg, s, e), page)
  {
    hide Resting;
    hide OnPlaceholderTimer, OnNoticePosted, OnPush, OnFlushTimer, OnFlushBegins, OnFlushAnswered, OnEnableCalled;
    hide OnEnableResumes, OnDeleteAnswered, OnDisable, OnFinalizeCalled, OnFinalizeResumes, OnStopAnswered;
    hide OnUpdateAnswered, OnReplyPosted;
    match e
    case PlaceholderTimerFires => TimersResting(s, true, "", page);
    case NoticePosted(ok) => TimersResting(s, ok, "", page);
    case Push(delta) => TimersResting(s, true, delta, page);
    case FlushTimerFires => TimersResting(s, true, "", page);
    case FlushBegins(k) => FlushResting(cfg, s, k, true, page);
    case FlushAnswered(k, ok) => FlushResting(cfg, s, k, ok, page);
    case EnableCalled(id) => EnableCalledResting(cfg, s, id, page);
    case EnableResumes(id) => EnableResumesResting(s, id, page);
    case DeleteAnswered(id, ok) => DeleteAnsweredResting(s, id, ok, page);
    case Disable => TimersResting(s, true, "", page);
    case FinalizeCalled(reply) => FinalizeResting(cfg, s, reply, true, page);
    case FinalizeResumes => FinalizeResting(cfg, s, "", true, page);
    case StopAnswered(ok) => FinalizeResting(cfg, s, "", ok, page);
    case UpdateAnswered(ok) => FinalizeResting(cfg, s, "", ok, page);
    case ReplyPosted(ok) => FinalizeResting(cfg, s, "", ok, page);
  }

  lemma {:induction false} NextResting(cfg: Config, s: State, e: Event, page: map<Ts, string>)
    requires Resting(s, page)
    ensures Resting(Next(cfg, s, e), page)
  {
    hide Resting, Step;
    StepResting(cfg, s, e, page);
  }

  lemma {:induction false} RunResting(cfg: Config, s: State, events: seq<Event>, page: map<Ts, string>)
    requires Resting(s, page)
    ensures Resting(Run(cfg, s, events), page)
    decreases |events|
  {
    hide Resting, Next;
    if events != [] {
      NextResting(cfg, s, events[0], page);
      RunResting(cfg, Next(cfg, s, events[0]), events[1..], page);
    }
  }

  /* ---- and a page that is not at rest can change ---- */

  lemma {:induction false} CallChanges(cfg: Config, s: State, k: int)
    requires Inv(s) && Ending(s) && s.final.Done? && 0 <= k < |s.flushes| && s.flushes[k].Calling?
    ensures Run(cfg, s, [FlushAnswered(k, true)]).messages != s.messages
  {
    RunOne(cfg, s, FlushAnswered(k, true));
    var t := OnFlushAnswered(s, k, true);
    if s.flushes[k].target.Some? {
      var ts := s.streamTs.value;
      assert |t.messages[ts]| > |s.messages[ts]|;
    } else {
      assert s.nextTs in t.messages && s.nextTs !in s.messages;
    }
  }

  lemma {:induction false} PostChanges(cfg: Config, s: State)
    requires Inv(s) && s.final.Done? && s.posting
    ensures Run(cfg, s, [NoticePosted(true)]).messages != s.messages
  {
    RunOne(cfg, s, NoticePosted(true));
    assert s.nextTs in OnNoticePosted(s, true).messages && s.nextTs !in s.messages;
  }

  /** The two events by which a pending enableStreaming deletes its message. */
  function DeleteEvents(id: int): seq<Event> { [EnableResumes(id), DeleteAnswered(id, true)] }

  lemma {:induction false} DeletionChanges(cfg: Config, s: State, id: int)
    requires s.final.Done?
    requires id in s.enables && DeleteTarget(s.enables[id]).Some? && DeleteTarget(s.enables[id]).value in s.messages
    ensures Run(cfg, s, DeleteEvents(id)).messages != s.messages
  {
    var ts := DeleteTarget(s.enables[id]).value;
    var t := OnDeleteAnswered(OnEnableResumes(s, id), id, true);
    DeletionStarts(s, id, ts);
    assert Run(cfg, s, DeleteEvents(id)) == t by {
      hide OnDeleteAnswered, OnEnableResumes;
      RunTwo(cfg, s, EnableResumes(id), DeleteAnswered(id, true));
    }
    assert ts !in t.messages by {
      hide OnEnableResumes;
    }
  }

  lemma {:induction false} DeletionStarts(s: State, id: int, ts: Ts)
    requires id in s.enables && DeleteTarget(s.enables[id]) == Some(ts)
    ensures var t := OnEnableResumes(s, id);
            t.messages == s.messages && id in t.enables && t.enables[id] == Deleting(ts) && t.final == s.final
  {
  }

  lemma {:induction false} ChangingRun(cfg: Config, s: State) returns (events: seq<Event>)
    requires Inv(s) && Ending(s) && s.final.Done? && !AtRest(s)
    ensures Run(cfg, s, events).messages != s.messages
  {
    if s.posting {
      PostChanges(cfg, s);
      events := [NoticePosted(true)];
    } else if NoneCalling(s.flushes) {
      var id :| id in s.enables && DeleteTarget(s.enables[id]).Some? && DeleteTarget(s.enables[id]).value in s.messages;
      DeletionChanges(cfg, s, id);
      events := DeleteEvents(id);
    } else {
      var k :| 0 <= k < |s.flushes| && s.flushes[k].Calling?;
      CallChanges(cfg, s, k);
      events := [FlushAnswered(k, true)];
    }
  }

  lemma {:induction false} FinalIffAtRest(cfg: Config, s: State)
    requires Inv(s) && Ending(s) && s.final.Done?
    ensures Final(cfg, s) <==> AtRest(s)
  {
    if AtRest(s) {
      forall events ensures Run(cfg, s, events).messages == s.messages {
        RunResting(cfg, s, events, s.messages);
      }
    } else {
      var events := ChangingRun(cfg, s);
      assert Run(cfg, s, events).messages != s.messages;
    }
  }

  /** After every run in which finalizeReply has ended, late deltas included: the page is final if and
      only if no notice is being posted, no flush is under way and no pending enableStreaming means to
      delete a message that is shown. */
  lemma {:induction false} WhenThePageIsFinal(cfg: Config, delayed: bool, events: seq<Event>)
    requires Run(cfg, Init(delayed), events).final.Done?
    ensures var s := Run(cfg, Init(delayed), events);
            Final(cfg, s) <==> AtRest(s)
  {
    InitInv(delayed);
    RunInv(cfg, Init(delayed), events);
    RunEnding(cfg, Init(delayed), events);
    FinalIffAtRest(cfg, Run(cfg, Init(delayed), events));
  }

  /* ---- a reply delivered by stopStream ---- */

  /** The page shows the reply now and for the rest of every run. */
  ghost predicate ShowsForGood(cfg: Config, s: State, ts: Ts, text: string) {
    forall events :: Run(cfg, s, events).messages == map[ts := text]
  }

  lemma {:induction false} StopShows(cfg: Config, s: State, u: State)
    requires Inv(s) && s.final.FlushDone? && StopsStream(cfg, s)
    requires Inv(u) && Extends(OnFinalizeResumes(cfg, s), u) && u.final.Stopping?
    ensures OnStopAnswered(u, true).final.Done?
    ensures OnStopAnswered(u, true).messages == map[s.streamTs.value := cfg.render(s.reply)] <==> u.sent == s.sent
  {
    var ts, full, append := s.streamTs.value, cfg.render(s.reply), u.final.append;
    assert full == s.sent + append;
    assert OnStopAnswered(u, true).messages == map[ts := u.sent + append];
    assert map[ts := full][ts] == full;
    if |u.sent + append| == |full| {
      assert u.sent == s.sent;
    }
  }

  /** Once the stream exists only a flush under way can still change the page. */
  lemma {:induction false} StoppedAtRest(u: State)
    requires Inv(u) && u.final.Stopping?
    ensures var t := OnStopAnswered(u, true);
            AtRest(t) <==> NoneCalling(u.flushes)
  {
    var t := OnStopAnswered(u, true);
    assert t.messages.Keys == {u.final.ts};
  }

  lemma {:induction false} StoppedForGood(cfg: Config, s: State, events: seq<Event>)
    requires Inv(s) && Ending(s) && s.final.FlushDone? && StopsStream(cfg, s)
    requires Run(cfg, OnFinalizeResumes(cfg, s), events).final.Stopping?
    ensures var u := Run(cfg, OnFinalizeResumes(cfg, s), events);
            ShowsForGood(cfg, OnStopAnswered(u, true), s.streamTs.value, cfg.render(s.reply))
            <==> u.sent == s.sent && NoneCalling(u.flushes)
  {
    var s1 := OnFinalizeResumes(cfg, s);
    FinalizeResumesInv(cfg, s);
    FinalizeResumesEnding(cfg, s);
    RunInv(cfg, s1, events);
    RunEnding(cfg, s1, events);
    var u := Run(cfg, s1, events);
    var t := OnStopAnswered(u, true);
    StopAnsweredInv(u, true);
    StopAnsweredEnding(u, true);
    StopShows(cfg, s, u);
    StoppedAtRest(u);
    FinalIffAtRest(cfg, t);
    assert Run(cfg, t, []) == t;
  }

  /** In every run in which finalizeReply stops the stream, stopStream delivers exactly the rendered reply,
      for good, if and only if between its call and its answer no later text was sent and none is under way. */
  lemma {:induction false} StopDeliversForGood(cfg: Config, delayed: bool, before: seq<Event>, events: seq<Event>)
    requires var s := Run(cfg, Init(delayed), before);
             && s.final.FlushDone? && StopsStream(cfg, s)
             && Run(cfg, OnFinalizeResumes(cfg, s), events).final.Stopping?
    ensures var s := Run(cfg, Init(delayed), before);
            var u := Run(cfg, OnFinalizeResumes(cfg, s), events);
            ShowsForGood(cfg, OnStopAnswered(u, true), s.streamTs.value, cfg.render(s.reply))
            <==> u.sent == s.sent && NoneCalling(u.flushes)
  {
    InitInv(delayed);
    RunInv(cfg, Init(delayed), before);
    RunEnding(cfg, Init(delayed), before);
    hide Inv, Ending, OnFinalizeResumes, OnStopAnswered, ShowsForGood, NoneCalling;
    StoppedForGood(cfg, Run(cfg, Init(delayed), before), events);
  }
}
