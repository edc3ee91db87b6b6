/**
 The closure of createSlackReplyStreamController as a class: its variables are the fields, and each
 stretch of code between two suspension points is a method. `messages` and `nextTs` are the ghost
 copy of what Slack shows. Every method that handles an event takes the protocol step of the same name and
 keeps the invariant of ReplyStreamSafety, which is what a caller can count on between two events.
 */
module ReplyStreamController {
  import opened Prelude
  import opened ReplyStreamProtocol
  import opened ReplyStreamSafety

  class Controller {
    const cfg: Config
    var placeholderTs: Option<Ts>
    var posting: bool
    var placeholderTimer: bool
    var enabled: bool
    var disabled: bool
    var finalized: bool
    var streamTs: Option<Ts>
    var failed: bool
    var buffered: string
    var sent: string
    var flushTimer: bool
    var flushes: seq<Flush>
    var enables: map<int, Enable>
    var final: Final
    var reply: string
    ghost var updateFailed: bool
    ghost var messages: map<Ts, string>
    ghost var nextTs: Ts

    ghost function View(): State
      reads this
    {
      State(placeholderTs, posting, placeholderTimer, enabled, disabled, finalized, streamTs, failed, buffered, sent,
            flushTimer, flushes, enables, final, reply, updateFailed, messages, nextTs)
    }

    /** Flushes never overlap, Slack shows what the fields record, and the rest of the invariant. */
    ghost predicate Valid()
      reads this
    {
      Inv(View())
    }

    constructor (cfg: Config, delayed: bool)
      ensures Valid() && this.cfg == cfg && View() == Init(delayed)
    {
      this.cfg := cfg;
      placeholderTs, posting, placeholderTimer := None, !delayed, delayed;
      enabled, disabled, finalized := false, false, false;
      streamTs, failed, buffered, sent, flushTimer := None, false, "", "", false;
      flushes, enables, final, reply := [], map[], NotCalled, "";
      updateFailed, messages, nextTs := false, map[], 0;
      InitInv(delayed);
    }

    /** flushNow up to the link of the promise chain. */
    method FlushNow()
      modifies this`flushTimer, this`flushes
      ensures !flushTimer && flushes == old(flushes) + [Waiting]
    {
      flushTimer := false;
      flushes := flushes + [Waiting];
    }

    /** markStreamFailure; `waits` says that the caller must wait for the notice to be posted again. */
    method MarkStreamFailure() returns (waits: bool)
      modifies this`failed, this`placeholderTimer, this`posting
      ensures waits == Reposts(old(View()))
      ensures View() == old(View()).(failed := true,
                                     placeholderTimer := old(placeholderTimer) && (old(failed) || streamTs.Some?),
                                     posting := old(posting) || waits)
    {
      waits := false;
      if failed { return; }
      failed := true;
      if streamTs.None? {
        placeholderTimer := false;
        if placeholderTs.None? {
          posting := true;
          waits := true;
        }
      }
    }

    method SettleFlush(k: int)
      requires 0 <= k < |flushes|
      modifies this`flushes, this`final
      ensures View() == Settle(old(View()), k)
    {
      flushes := flushes[k := Settled];
      if final == WaitFlush(k) { final := FlushDone; }
    }

    method PlaceholderTimerFires()
      requires Valid()
      modifies this
      ensures Valid() && View() == OnPlaceholderTimer(old(View()))
    {
      hide Inv, Extends;
      PlaceholderTimerInv(View());
      if placeholderTimer {
        placeholderTimer := false;
        if placeholderTs.None? { posting := true; }
      }
    }

    /** chat.postMessage for the notice was answered, with the ts of the new message if it succeeded. */
    method NoticePosted(answer: Option<Ts>)
      requires Valid()
      requires posting && (answer.Some? ==> answer.value == nextTs)
      modifies this
      ensures Valid() && View() == OnNoticePosted(old(View()), answer.Some?)
    {
      hide Inv, Extends;
      NoticePostedInv(View(), answer.Some?);
      WakeFinalize(answer);
      WakeWaiters(answer);
      RecordNotice(answer);
    }

    method WakeWaiters(answer: Option<Ts>)
      modifies this`enables, this`flushes
      ensures View() == old(View()).(enables := DeliverToEnables(old(enables), answer),
                                     flushes := DeliverToFlushes(old(flushes)))
    {
      enables := DeliverToEnables(enables, answer);
      flushes := DeliverToFlushes(flushes);
    }

    method RecordNotice(answer: Option<Ts>)
      requires answer.Some? ==> answer.value == nextTs
      modifies this`posting, this`placeholderTs, this`messages, this`nextTs
      ensures View() == if answer.Some?
                        then old(View()).(posting := false, placeholderTs := answer, nextTs := old(nextTs) + 1,
                                          messages := old(messages)[old(nextTs) := PROCESSING_NOTICE])
                        else old(View()).(posting := false)
    {
      posting := false;
      if answer.Some? {
        placeholderTs := answer;
        messages, nextTs := messages[nextTs := PROCESSING_NOTICE], nextTs + 1;
      }
    }

    /** A finalizeReply that waits for the notice, directly or through a failed flush, goes on. */
    method WakeFinalize(answer: Option<Ts>)
      modifies this`final
      ensures View() == old(View()).(final := DeliverToFinal(old(final), flushes, answer))
    {
      final := DeliverToFinal(final, flushes, answer);
    }

    method PushTextDelta(delta: string)
      requires Valid()
      modifies this`buffered, this`flushTimer
      ensures Valid() && View() == OnPush(old(View()), delta)
    {
      hide Inv, Extends;
      PushInv(View(), delta);
      if delta == "" || disabled || finalized { return; }
      buffered := buffered + delta;
      if enabled && !failed && !flushTimer { flushTimer := true; }
    }

    method FlushTimerFires()
      requires Valid()
      modifies this
      ensures Valid() && View() == OnFlushTimer(old(View()))
    {
      hide Inv, Extends;
      FlushTimerInv(View());
      if flushTimer { FlushNow(); }
    }

    /** flushBufferedText for link k, once the link before it is settled. */
    method FlushBegins(k: int)
      requires Valid()
      requires CanBegin(View(), k)
      modifies this
      ensures Valid() && View() == OnFlushBegins(cfg, old(View()), k)
    {
      hide Inv, Extends;
      FlushBeginsInv(cfg, View(), k);
      if !enabled || disabled || failed || finalized {
        SettleFlush(k);
        return;
      }
      var rendered := cfg.render(buffered);
      if !(sent <= rendered) {
        FlushFailed(k);
        return;
      }
      var append := rendered[|sent|..];
      if append == "" {
        assert sent == rendered;
        SettleFlush(k);
        return;
      }
      flushes := flushes[k := Calling(streamTs, append, rendered)];
    }

    method FlushFailed(k: int)
      requires 0 <= k < |flushes|
      modifies this
      ensures View() == FailFlush(old(View()), k)
    {
      var waits := MarkStreamFailure();
      if waits {
        flushes := flushes[k := Reposting];
      } else {
        SettleFlush(k);
      }
    }

    /** startStream or appendStream of link k was answered; a new stream brings its ts. */
    method FlushAnswered(k: int, ok: bool, ts: Ts)
      requires Valid()
      requires 0 <= k < |flushes| && flushes[k].Calling?
      requires ok && flushes[k].target.None? ==> ts == nextTs
      requires ok && flushes[k].target.Some? ==> flushes[k].target.value in messages
      modifies this
      ensures Valid() && View() == OnFlushAnswered(old(View()), k, ok)
    {
      assert flushes[k] == View().flushes[k] && messages == View().messages;
      FlushAnsweredInv(View(), k, ok);
      hide Inv, Extends, View, OnFlushAnswered;
      if ok {
        FlushSucceeded(k, ts);
      } else {
        FlushFailed(k);
        assert OnFlushAnswered(old(View()), k, false) == FailFlush(old(View()), k);
      }
    }

    method FlushSucceeded(k: int, ts: Ts)
      requires 0 <= k < |flushes| && flushes[k].Calling?
      requires flushes[k].target.None? ==> ts == nextTs
      requires flushes[k].target.Some? ==> flushes[k].target.value in messages
      modifies this
      ensures View() == OnFlushAnswered(old(View()), k, true)
    {
      RecordedSettles(View(), k);
      hide View, Recorded, Settle, OnFlushAnswered;
      RecordStreamed(k, ts);
      SettleFlush(k);
    }

    method RecordStreamed(k: int, ts: Ts)
      requires 0 <= k < |flushes| && flushes[k].Calling?
      requires flushes[k].target.None? ==> ts == nextTs
      requires flushes[k].target.Some? ==> flushes[k].target.value in messages
      modifies this`streamTs, this`sent, this`messages, this`nextTs
      ensures View() == Recorded(old(View()), flushes[k])
    {
      if flushes[k].target.None? {
        RecordStart(flushes[k], ts);
      } else {
        RecordAppend(flushes[k]);
      }
      hide View, Recorded;
    }

    method RecordStart(call: Flush, ts: Ts)
      requires call.Calling? && call.target.None? && ts == nextTs
      modifies this`streamTs, this`sent, this`messages, this`nextTs
      ensures View() == Recorded(old(View()), call)
    {
      streamTs, sent := Some(ts), call.rendered;
      messages, nextTs := messages[ts := call.append], nextTs + 1;
    }

    method RecordAppend(call: Flush)
      requires call.Calling? && call.target.Some? && call.target.value in messages
      modifies this`sent, this`messages
      ensures View() == Recorded(old(View()), call)
    {
      messages := messages[call.target.value := messages[call.target.value] + call.append];
      sent := call.rendered;
    }

    /** enableStreaming up to its first suspension point; `early` is what it returns at once, if it does. */
    method EnableStreaming(id: int) returns (early: Option<bool>)
      requires Valid()
      requires id !in enables
      modifies this`placeholderTimer, this`enables
      ensures Valid() && View() == OnEnableCalled(cfg, old(View()), id)
      ensures early == if disabled || finalized || !cfg.hasTeamId || failed then Some(false)
                       else if enabled then Some(true) else None
    {
      hide Inv, Extends;
      EnableCalledInv(cfg, View(), id);
      if disabled || finalized { return Some(false); }
      if !cfg.hasTeamId { return Some(false); }
      if failed { return Some(false); }
      if enabled { return Some(true); }
      placeholderTimer := false;
      if placeholderTs.None? && !posting {
        enables := enables[id := CanEnable];
      } else if placeholderTs.Some? {
        enables := enables[id := HavePlaceholder(placeholderTs)];
      } else {
        enables := enables[id := WaitPost];
      }
      early := None;
    }

    method EnableResumes(id: int)
      requires Valid()
      modifies this`enabled, this`enables, this`flushTimer, this`flushes
      ensures Valid() && View() == OnEnableResumes(old(View()), id)
    {
      hide Inv, Extends;
      EnableResumesInv(View(), id);
      if id !in enables { return; }
      if enables[id].HavePlaceholder? {
        var ts := enables[id].ts;
        MoveEnable(id, if ts.Some? then Deleting(ts.value) else CanEnable);
      } else if enables[id].CanEnable? {
        TurnStreamingOn(id);
      }
    }

    method MoveEnable(id: int, next: Enable)
      modifies this`enables
      ensures View() == old(View()).(enables := old(enables)[id := next])
    {
      enables := enables[id := next];
    }

    method TurnStreamingOn(id: int)
      modifies this`enabled, this`enables, this`flushTimer, this`flushes
      ensures View() == StreamingOn(old(View()), id)
    {
      enabled, enables := true, enables - {id};
      if buffered != "" { FlushNow(); }
    }

    /** chat.delete of the notice was answered. */
    method DeleteAnswered(id: int, ok: bool)
      requires Valid()
      requires id in enables && enables[id].Deleting?
      requires ok ==> enables[id].target in messages
      modifies this
      ensures Valid() && View() == OnDeleteAnswered(old(View()), id, ok)
    {
      DeleteAnsweredInv(View(), id, ok);
      hide Inv, Extends, View, OnDeleteAnswered;
      if ok {
        NoticeDeleted(id);
      } else {
        EnableGivenUp(id);
      }
    }

    method EnableGivenUp(id: int)
      requires id in enables && enables[id].Deleting?
      modifies this`enables
      ensures View() == OnDeleteAnswered(old(View()), id, false)
    {
      enables := enables - {id};
    }

    method NoticeDeleted(id: int)
      requires id in enables && enables[id].Deleting? && enables[id].target in messages
      modifies this`messages, this`placeholderTs, this`posting, this`enables
      ensures View() == OnDeleteAnswered(old(View()), id, true)
    {
      messages := messages - {enables[id].target};
      placeholderTs, posting := None, false;
      enables := enables[id := CanEnable];
    }

    method DisableStreaming()
      requires Valid()
      modifies this`disabled, this`enabled, this`buffered, this`flushTimer
      ensures Valid() && View() == OnDisable(old(View()))
    {
      ghost var t := OnDisable(View());
      assert Inv(t) by {
        hide Inv, Extends, OnDisable;
        DisableInv(View());
      }
      hide Inv;
      disabled, enabled, buffered, flushTimer := true, false, "", false;
      assert View() == t;
      hide View, OnDisable;
    }

    /** finalizeReply up to its first suspension point. */
    method FinalizeReply(reply: string)
      requires Valid()
      requires final.NotCalled?
      modifies this`flushTimer, this`placeholderTimer, this`reply, this`buffered, this`finalized, this`final, this`flushes
      ensures Valid() && View() == OnFinalizeCalled(cfg, old(View()), reply)
    {
      ghost var t := OnFinalizeCalled(cfg, View(), reply);
      assert Inv(t) by {
        hide Inv, Extends, OnFinalizeCalled;
        FinalizeCalledInv(cfg, View(), reply);
      }
      hide Inv;
      ClearTimers(reply);
      if enabled && !disabled { buffered := reply; }
      if enabled && !disabled && !failed {
        FlushForFinalize();
      } else {
        FallBack();
      }
      assert View() == t;
      hide View, OnFinalizeCalled;
    }

    method ClearTimers(reply: string)
      modifies this`flushTimer, this`placeholderTimer, this`reply
      ensures View() == old(View()).(flushTimer := false, placeholderTimer := false, reply := reply)
    {
      flushTimer, placeholderTimer, this.reply := false, false, reply;
    }

    method FlushForFinalize()
      modifies this`flushTimer, this`flushes, this`final
      ensures View() == old(View()).(flushTimer := false, flushes := old(flushes) + [Waiting],
                                     final := WaitFlush(|old(flushes)|))
    {
      FlushNow();
      final := WaitFlush(|flushes| - 1);
    }

    /** Whether to update a message, wait for the notice, or post. */
    method Target() returns (next: Final)
      ensures next == FallbackTarget(View())
    {
      if streamTs.Some? {
        next := Updating(streamTs.value);
      } else if placeholderTs.Some? {
        next := Updating(placeholderTs.value);
      } else if posting {
        next := WaitPlaceholder;
      } else {
        next := Posting;
      }
    }

    method FallBack()
      modifies this`finalized, this`final
      ensures View() == old(View()).(finalized := true, final := FallbackTarget(old(View())))
    {
      hide FallbackTarget;
      var next := Target();
      finalized, final := true, next;
    }

    method FinalizeResumes()
      requires Valid()
      requires final.FlushDone?
      modifies this
      ensures Valid() && View() == OnFinalizeResumes(cfg, old(View()))
    {
      hide Inv, Extends;
      FinalizeResumesInv(cfg, View());
      var rendered := cfg.render(reply);
      if streamTs.Some? && !failed && sent <= rendered {
        final := Stopping(streamTs.value, rendered[|sent|..]);
      } else {
        FallBack();
      }
    }

    method StopAnswered(ok: bool)
      requires Valid() && final.Stopping?
      modifies this
      ensures Valid() && View() == OnStopAnswered(old(View()), ok)
    {
      StreamIsShown(View());
      StopAnsweredInv(View(), ok);
      assert final.ts in messages;
      hide Inv, Extends, View, OnStopAnswered;
      if ok {
        StreamStopped();
      } else {
        StopFailed();
      }
    }

    method StreamStopped()
      requires final.Stopping? && final.ts in messages
      modifies this`messages, this`finalized, this`final
      ensures View() == OnStopAnswered(old(View()), true)
    {
      messages := messages[final.ts := messages[final.ts] + final.append];
      finalized, final := true, Done;
    }

    method StopFailed()
      requires final.Stopping? && streamTs.Some?
      modifies this`failed, this`placeholderTimer, this`posting, this`finalized, this`final
      ensures View() == OnStopAnswered(old(View()), false)
    {
      var _ := MarkStreamFailure();
      FallBack();
    }

    method UpdateAnswered(ok: bool)
      requires Valid()
      requires final.Updating? && (ok ==> final.ts in messages)
      modifies this
      ensures Valid() && View() == OnUpdateAnswered(cfg, old(View()), ok)
    {
      UpdateAnsweredInv(cfg, View(), ok);
      hide Inv, Extends, View, OnUpdateAnswered;
      if ok {
        MessageUpdated();
      } else {
        UpdateFailed();
      }
    }

    method MessageUpdated()
      requires final.Updating? && final.ts in messages
      modifies this`messages, this`final
      ensures View() == OnUpdateAnswered(cfg, old(View()), true)
    {
      messages := messages[final.ts := cfg.render(reply)];
      final := Done;
    }

    method UpdateFailed()
      requires final.Updating?
      modifies this`updateFailed, this`final
      ensures View() == OnUpdateAnswered(cfg, old(View()), false)
    {
      updateFailed := true;
      final := Posting;
    }

    /** chat.postMessage for the reply itself was answered. */
    method ReplyPosted(ok: bool)
      requires Valid()
      requires final.Posting?
      modifies this`final, this`messages, this`nextTs
      ensures Valid() && View() == OnReplyPosted(cfg, old(View()), ok)
    {
      ReplyPostedInv(cfg, View(), ok);
      hide Inv, Extends, View, OnReplyPosted;
      if ok {
        MessagePosted();
      } else {
        PostFailed();
      }
    }

    method MessagePosted()
      requires final.Posting?
      modifies this`messages, this`nextTs, this`final
      ensures View() == OnReplyPosted(cfg, old(View()), true)
    {
      messages, nextTs := messages[nextTs := cfg.render(reply)], nextTs + 1;
      final := Done;
    }

    method PostFailed()
      requires final.Posting?
      modifies this`final
      ensures View() == OnReplyPosted(cfg, old(View()), false)
    {
      final := Thrown;
    }
  }
}
