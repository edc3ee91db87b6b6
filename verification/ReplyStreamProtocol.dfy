/**
 The Slack reply stream controller as a state machine (src/lib/slack-replies.ts).

 One event is one stretch of code between two suspension points: a call by the host,
 a timer that fires, an answer from Slack, or the continuation of an `await`. A remote
 call takes effect at Slack at the moment its successful answer arrives, and a failed call
 has no effect. `messages` is what Slack shows: the live messages this controller posted.
 */
module ReplyStreamProtocol {
  import opened Prelude

  type Ts = int

  const PROCESSING_NOTICE := "考え中..."

  /** `render` is messagePayloadText for the configured workspace. */
  datatype Config = Config(render: string -> string, hasTeamId: bool)

  /** One call of flushNow: a link of the promise chain. */
  datatype Flush =
    | Waiting
    | Calling(target: Option<Ts>, append: string, rendered: string)  // startStream or appendStream is in flight
    | Reposting                                                     // failed start: waits for the notice to be posted
    | Settled

  /** One call of enableStreaming that has passed its synchronous checks. */
  datatype Enable =
    | WaitPost
    | HavePlaceholder(ts: Option<Ts>)
    | Deleting(target: Ts)
    | CanEnable

  /** How far the one call of finalizeReply has come. */
  datatype Final =
    | NotCalled
    | WaitFlush(index: int)
    | FlushDone
    | Stopping(ts: Ts, append: string)
    | WaitPlaceholder
    | Updating(ts: Ts)
    | Posting
    | Done
    | Thrown

  datatype State = State(
    placeholderTs: Option<Ts>,
    posting: bool,
    placeholderTimer: bool,
    enabled: bool,
    disabled: bool,
    finalized: bool,
    streamTs: Option<Ts>,
    failed: bool,
    buffered: string,
    sent: string,
    flushTimer: bool,
    flushes: seq<Flush>,
    enables: map<int, Enable>,
    final: Final,
    reply: string,
    updateFailed: bool,
    messages: map<Ts, string>,
    nextTs: Ts)

  datatype Event =
    | PlaceholderTimerFires
    | NoticePosted(ok: bool)
    | Push(delta: string)
    | FlushTimerFires
    | FlushBegins(index: int)
    | FlushAnswered(index: int, ok: bool)
    | EnableCalled(id: int)
    | EnableResumes(id: int)
    | DeleteAnswered(id: int, ok: bool)
    | Disable
    | FinalizeCalled(reply: string)
    | FinalizeResumes
    | StopAnswered(ok: bool)
    | UpdateAnswered(ok: bool)
    | ReplyPosted(ok: bool)

  /** The controller right after creation: the notice is posted at once or after the delay. */
  function Init(delayed: bool): State {
    State(None, !delayed, delayed, false, false, false, None, false, "", "", false, [], map[],
          NotCalled, "", false, map[], 0)
  }

  /* ---- pieces of the closure ---- */

  /** postPlaceholderNow. */
  function PostPlaceholderNow(s: State): State {
    s.(placeholderTimer := false, posting := s.posting || s.placeholderTs.None?)
  }

  /** flushNow: one more link on the promise chain. */
  function FlushNow(s: State): State {
    s.(flushTimer := false, flushes := s.flushes + [Waiting])
  }

  /** A finalizeReply that awaited flush k becomes runnable when k settles. */
  function Awaken(final: Final, k: int): Final {
    if final == WaitFlush(k) then FlushDone else final
  }

  function Settle(s: State, k: int): State
    requires 0 <= k < |s.flushes|
  {
    s.(flushes := s.flushes[k := Settled], final := Awaken(s.final, k))
  }

  /** markStreamFailure posts the notice again when nothing was streamed yet. */
  predicate Reposts(s: State) {
    !s.failed && s.streamTs.None? && s.placeholderTs.None?
  }

  /** markStreamFailure inside flush k. */
  function FailFlush(s: State, k: int): State
    requires 0 <= k < |s.flushes|
  {
    s.(failed := true,
       placeholderTimer := s.placeholderTimer && (s.failed || s.streamTs.Some?),
       posting := s.posting || Reposts(s),
       flushes := s.flushes[k := if Reposts(s) then Reposting else Settled],
       final := if Reposts(s) then s.final else Awaken(s.final, k))
  }

  /** What finalizeReply does when it falls back: update a message, or wait for the notice, or post. */
  function FallbackTarget(s: State): Final {
    if s.streamTs.Some? then Updating(s.streamTs.value)
    else if s.placeholderTs.Some? then Updating(s.placeholderTs.value)
    else if s.posting then WaitPlaceholder
    else Posting
  }

  predicate StopsStream(cfg: Config, s: State) {
    s.streamTs.Some? && !s.failed && s.sent <= cfg.render(s.reply)
  }

  /** finalizeReply after its own flush: stop the stream with the missing text, or fall back. */
  function AfterFlush(cfg: Config, s: State): Final {
    if StopsStream(cfg, s) then Stopping(s.streamTs.value, cfg.render(s.reply)[|s.sent|..]) else FallbackTarget(s)
  }

  function Rank(final: Final): int {
    match final
    case NotCalled => 0
    case WaitFlush(_) => 1
    case FlushDone => 2
    case Stopping(_, _) => 3
    case WaitPlaceholder => 4
    case Updating(_) => 5
    case Posting => 6
    case Done => 7
    case Thrown => 8
  }

  /** The stream stays the same message, its recorded text only grows, and the one call of
      finalizeReply moves forward through its phases. */
  predicate Extends(s: State, t: State) {
    && s.sent <= t.sent
    && (s.streamTs.Some? ==> t.streamTs == s.streamTs)
    && |s.flushes| <= |t.flushes|
    && Rank(s.final) <= Rank(t.final)
    && (Rank(s.final) == Rank(t.final) ==> s.final == t.final)
    && (!s.final.NotCalled? ==> t.reply == s.reply)
    && (s.finalized ==> t.finalized)
  }

  /* ---- one function per event; a disabled event leaves the state as it is ---- */

  function OnPlaceholderTimer(s: State): State {
    if s.placeholderTimer then PostPlaceholderNow(s) else s
  }

  function DeliverToEnables(enables: map<int, Enable>, result: Option<Ts>): map<int, Enable> {
    map id | id in enables :: if enables[id].WaitPost? then HavePlaceholder(result) else enables[id]
  }

  function DeliverToFlushes(flushes: seq<Flush>): seq<Flush> {
    seq(|flushes|, i requires 0 <= i < |flushes| => if flushes[i].Reposting? then Settled else flushes[i])
  }

  function DeliverToFinal(final: Final, flushes: seq<Flush>, result: Option<Ts>): Final {
    match final
    case WaitPlaceholder => if result.Some? then Updating(result.value) else Posting
    case WaitFlush(k) => if 0 <= k < |flushes| && flushes[k].Reposting? then FlushDone else final
    case _ => final
  }

  /** The processing notice was posted, or posting failed; everything that awaited it becomes runnable. */
  function OnNoticePosted(s: State, ok: bool): State {
    if !s.posting then s
    else
      var result := if ok then Some(s.nextTs) else None;
      s.(posting := false,
         placeholderTs := if ok then result else s.placeholderTs,
         enables := DeliverToEnables(s.enables, result),
         flushes := DeliverToFlushes(s.flushes),
         final := DeliverToFinal(s.final, s.flushes, result),
         messages := if ok then s.messages[s.nextTs := PROCESSING_NOTICE] else s.messages,
         nextTs := if ok then s.nextTs + 1 else s.nextTs)
  }

  function OnPush(s: State, delta: string): State {
    if delta == "" || s.disabled || s.finalized then s
    else s.(buffered := s.buffered + delta, flushTimer := s.flushTimer || (s.enabled && !s.failed))
  }

  function OnFlushTimer(s: State): State {
    if s.flushTimer then FlushNow(s) else s
  }

  predicate CanBegin(s: State, k: int) {
    0 <= k < |s.flushes| && s.flushes[k].Waiting? && (k == 0 || s.flushes[k - 1].Settled?)
  }

  function OnFlushBegins(cfg: Config, s: State, k: int): State {
    if !CanBegin(s, k) then s
    else if !s.enabled || s.disabled || s.failed || s.finalized then Settle(s, k)
    else
      var rendered := cfg.render(s.buffered);
      if !(s.sent <= rendered) then FailFlush(s, k)
      else if s.sent == rendered then Settle(s, k)
      else s.(flushes := s.flushes[k := Calling(s.streamTs, rendered[|s.sent|..], rendered)])
  }

  function OnFlushAnswered(s: State, k: int, ok: bool): State {
    if !(0 <= k < |s.flushes| && s.flushes[k].Calling?) then s
    else if !ok then FailFlush(s, k)
    else if s.flushes[k].target.None? then StreamStarted(s, k)
    else if s.flushes[k].target.value in s.messages then StreamAppended(s, k)
    else s
  }

  function StreamStarted(s: State, k: int): State
    requires 0 <= k < |s.flushes| && s.flushes[k].Calling?
  {
    s.(streamTs := Some(s.nextTs), sent := s.flushes[k].rendered,
       messages := s.messages[s.nextTs := s.flushes[k].append], nextTs := s.nextTs + 1,
       flushes := s.flushes[k := Settled], final := Awaken(s.final, k))
  }

  function StreamAppended(s: State, k: int): State
    requires 0 <= k < |s.flushes| && s.flushes[k].Calling?
    requires s.flushes[k].target.Some? && s.flushes[k].target.value in s.messages
  {
    var ts := s.flushes[k].target.value;
    s.(sent := s.flushes[k].rendered, messages := s.messages[ts := s.messages[ts] + s.flushes[k].append],
       flushes := s.flushes[k := Settled], final := Awaken(s.final, k))
  }

  /** What a successful call leaves recorded, before its link of the chain is settled. */
  function Recorded(s: State, call: Flush): (t: State)
    requires call.Calling? && (call.target.Some? ==> call.target.value in s.messages)
    ensures t.flushes == s.flushes
  {
    if call.target.None? then
      s.(streamTs := Some(s.nextTs), sent := call.rendered, messages := s.messages[s.nextTs := call.append],
         nextTs := s.nextTs + 1)
    else
      s.(sent := call.rendered,
         messages := s.messages[call.target.value := s.messages[call.target.value] + call.append])
  }

  /** enableStreaming up to its first suspension point. */
  function FirstEnablePhase(s: State): Enable {
    if s.placeholderTs.Some? then HavePlaceholder(s.placeholderTs)
    else if s.posting then WaitPost
    else CanEnable
  }

  function OnEnableCalled(cfg: Config, s: State, id: int): State {
    if id in s.enables || s.disabled || s.finalized || !cfg.hasTeamId || s.failed || s.enabled then s
    else s.(placeholderTimer := false, enables := s.enables[id := FirstEnablePhase(s)])
  }

  /** enableStreaming after the notice is gone: it flushes what was buffered meanwhile. */
  function StreamingOn(s: State, id: int): State {
    s.(enabled := true,
       enables := s.enables - {id},
       flushTimer := s.flushTimer && s.buffered == "",
       flushes := if s.buffered == "" then s.flushes else s.flushes + [Waiting])
  }

  /** The placeholder is known, or known to be missing. */
  function AfterPlaceholder(ts: Option<Ts>): Enable {
    if ts.Some? then Deleting(ts.value) else CanEnable
  }

  function OnEnableResumes(s: State, id: int): State {
    if id !in s.enables then s
    else if s.enables[id].HavePlaceholder? then s.(enables := s.enables[id := AfterPlaceholder(s.enables[id].ts)])
    else if s.enables[id].CanEnable? then StreamingOn(s, id)
    else s
  }

  function OnDeleteAnswered(s: State, id: int, ok: bool): State {
    if !(id in s.enables && s.enables[id].Deleting?) then s
    else if !ok then s.(enables := s.enables - {id})
    else if s.enables[id].target !in s.messages then s
    else s.(messages := s.messages - {s.enables[id].target}, placeholderTs := None, posting := false,
            enables := s.enables[id := CanEnable])
  }

  function OnDisable(s: State): State {
    s.(disabled := true, enabled := false, buffered := "", flushTimer := false)
  }

  function OnFinalizeCalled(cfg: Config, s: State, reply: string): State {
    if !s.final.NotCalled? then s
    else if !s.enabled || s.disabled
    then s.(flushTimer := false, placeholderTimer := false, reply := reply,
            finalized := true, final := FallbackTarget(s))
    else if s.failed
    then s.(flushTimer := false, placeholderTimer := false, reply := reply, buffered := reply,
            finalized := true, final := FallbackTarget(s))
    else s.(flushTimer := false, placeholderTimer := false, reply := reply, buffered := reply,
            flushes := s.flushes + [Waiting], final := WaitFlush(|s.flushes|))
  }

  function OnFinalizeResumes(cfg: Config, s: State): State {
    if !s.final.FlushDone? then s
    else s.(finalized := s.finalized || !StopsStream(cfg, s), final := AfterFlush(cfg, s))
  }

  function OnStopAnswered(s: State, ok: bool): State {
    if !s.final.Stopping? then s
    else if !ok then s.(failed := true, finalized := true, final := FallbackTarget(s))
    else if s.final.ts !in s.messages then s
    else s.(messages := s.messages[s.final.ts := s.messages[s.final.ts] + s.final.append],
            finalized := true, final := Done)
  }

  function OnUpdateAnswered(cfg: Config, s: State, ok: bool): State {
    if !s.final.Updating? then s
    else if !ok then s.(final := Posting, updateFailed := true)
    else if s.final.ts !in s.messages then s
    else s.(messages := s.messages[s.final.ts := cfg.render(s.reply)], final := Done)
  }

  function OnReplyPosted(cfg: Config, s: State, ok: bool): State {
    if !s.final.Posting? then s
    else if !ok then s.(final := Thrown)
    else s.(messages := s.messages[s.nextTs := cfg.render(s.reply)], nextTs := s.nextTs + 1, final := Done)
  }

  /** Once the flush it awaits has settled, finalizeReply goes on before anything else that was put off:
      only promise continuations run in between, no timer and no answer from Slack, and the flush behind
      is chained to the end of the settled one, which comes later than the awaited promise. */
  predicate PutOff(s: State, e: Event) {
    && s.final.FlushDone?
    && (e.PlaceholderTimerFires? || e.FlushTimerFires? || e.FlushBegins?
        || e.NoticePosted? || e.FlushAnswered? || e.DeleteAnswered?)
  }

  function Next(cfg: Config, s: State, e: Event): State {
    if PutOff(s, e) then s else Step(cfg, s, e)
  }

  function Step(cfg: Config, s: State, e: Event): State {
    match e
    case PlaceholderTimerFires => OnPlaceholderTimer(s)
    case NoticePosted(ok) => OnNoticePosted(s, ok)
    case Push(delta) => OnPush(s, delta)
    case FlushTimerFires => OnFlushTimer(s)
    case FlushBegins(k) => OnFlushBegins(cfg, s, k)
    case FlushAnswered(k, ok) => OnFlushAnswered(s, k, ok)
    case EnableCalled(id) => OnEnableCalled(cfg, s, id)
    case EnableResumes(id) => OnEnableResumes(s, id)
    case DeleteAnswered(id, ok) => OnDeleteAnswered(s, id, ok)
    case Disable => OnDisable(s)
    case FinalizeCalled(reply) => OnFinalizeCalled(cfg, s, reply)
    case FinalizeResumes => OnFinalizeResumes(cfg, s)
    case StopAnswered(ok) => OnStopAnswered(s, ok)
    case UpdateAnswered(ok) => OnUpdateAnswered(cfg, s, ok)
    case ReplyPosted(ok) => OnReplyPosted(cfg, s, ok)
  }

  /** A run is any list of events in any order; one that cannot happen changes nothing. */
  function Run(cfg: Config, s: State, events: seq<Event>): State
    decreases |events|
  {
    if events == [] then s else Run(cfg, Next(cfg, s, events[0]), events[1..])
  }

  /* ---- running lists of events ---- */

  lemma {:induction false} RunOne(cfg: Config, s: State, e: Event)
    ensures Run(cfg, s, [e]) == Next(cfg, s, e)
  {
    hide Next;
    assert [e][1..] == [];
    assert Run(cfg, Next(cfg, s, e), []) == Next(cfg, s, e);
  }

  lemma {:induction false} RunAppend(cfg: Config, s: State, events: seq<Event>, more: seq<Event>)
    ensures Run(cfg, s, events + more) == Run(cfg, Run(cfg, s, events), more)
    decreases |events|
  {
    hide Next;
    if events == [] {
      assert events + more == more;
    } else {
      assert (events + more)[1..] == events[1..] + more;
      RunAppend(cfg, Next(cfg, s, events[0]), events[1..], more);
    }
  }

  lemma {:induction false} RunSnoc(cfg: Config, s: State, events: seq<Event>, e: Event)
    ensures Run(cfg, s, events + [e]) == Next(cfg, Run(cfg, s, events), e)
  {
    hide Next;
    RunAppend(cfg, s, events, [e]);
    RunOne(cfg, Run(cfg, s, events), e);
  }

  lemma {:induction false} RunTwo(cfg: Config, s: State, a: Event, b: Event)
    ensures Run(cfg, s, [a, b]) == Next(cfg, Next(cfg, s, a), b)
  {
    hide Next;
    RunSnoc(cfg, s, [a], b);
    RunOne(cfg, s, a);
    assert [a] + [b] == [a, b];
  }
}
