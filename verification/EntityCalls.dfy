/**
 * What a call to an entity comes to when the turns of both sides go on ending: its op is sent, the
 * entity works off whatever it holds, and the reply reaches the call.
 */
module EntityCalls {
  import opened Common
  import opened Entities
  import opened EntityRuns
  import opened EntityCounts

  // ---- the op is sent ------------------------------------------------------------------------

  /** The call's turn ends with this step: it has suspended, or returned. */
  predicate Ends(e: Setting, w: World, ev: Event, c: CallId) {
    ev.CallStep? && ev.c == c && CallOf(Do(e, w, ev), c).pc == Out
  }

  /** Some turn of the call's ends. */
  predicate TurnEnds(e: Setting, w: World, evs: seq<Event>, c: CallId)
    decreases |evs|
  {
    evs != [] && (Ends(e, w, evs[0], c) || TurnEnds(e, Do(e, w, evs[0]), evs[1..], c))
  }

  /** A message of the call's. */
  predicate Of(m: Message, c: CallId) { m.Op? && (m.id == Some(c) || m.reply == Some(c)) }

  /** Nothing the call has done can have sent its op. */
  ghost predicate Unsent(e: Setting, w: World, c: CallId) {
    && (forall m | m in w.buffer || m in w.log :: !Of(m, c))
    && (w.taken.Some? ==> !Of(w.taken.value.1, c))
    && (forall k | 0 <= k < |w.landing| :: !Of(w.landing[k].1, c))
    && var k := CallOf(w, c);
       && (k.intent == Absent || (e.request(c).awaited && k.intent == Pending(false)))
       && k.replies == [] && k.flying == []
       && (k.pc == Out || k.pc == Sending || (e.request(c).awaited && (k.pc == WaiterPut || k.pc == Seen(false))))
  }

  lemma CallUnsent(e: Setting, w: World, ev: Event, c: CallId)
    requires Unsent(e, w, c) && OfCall(ev)
    ensures Sends(e, w, ev, MessageOf(e, c)) > 0 || (Unsent(e, Do(e, w, ev), c) && !Ends(e, w, ev, c))
  {
    CallPositions(e, w, ev);
    if ev.CallStep? && CallOf(w, ev.c).pc == Sending && ev.c != c {
      assert !Of(MessageOf(e, ev.c), c);
    }
  }

  lemma ReplyUnsent(e: Setting, w: World, c: CallId)
    requires Unsent(e, w, c)
    ensures Unsent(e, Do(e, w, Reply), c)
  {
    if w.replied < w.published <= |w.ops| <= |Applied(w.log)| { assert Applied(w.log)[w.replied] in w.log; }
  }

  lemma SaveUnsent(w: World, p: nat, m: Message, c: CallId)
    requires (forall x | x in w.log :: !Of(x, c)) && !Of(m, c)
    ensures forall x | x in Save(w, p, m).log :: !Of(x, c)
  {
  }

  lemma RecordUnsent(e: Setting, w: World, ev: Event, c: CallId)
    requires Unsent(e, w, c) && (ev == Land || ev == Record)
    ensures Unsent(e, Do(e, w, ev), c)
  {
    if ev == Land && |w.landing| > 0 { SaveUnsent(w, w.landing[0].0, w.landing[0].1, c); }
    if ev == Record && w.taken.Some? { SaveUnsent(w, w.taken.value.0, w.taken.value.1, c); }
  }

  lemma OtherUnsent(e: Setting, w: World, ev: Event, c: CallId)
    requires Unsent(e, w, c) && !OfCall(ev) && ev != Reply
    ensures Unsent(e, Do(e, w, ev), c)
  {
    if ev == Land || ev == Record { RecordUnsent(e, w, ev, c); }
  }

  /** A turn of the call's that ends has sent its op, then or before. */
  lemma {:induction false} TurnSends(e: Setting, w: World, evs: seq<Event>, c: CallId)
    requires Unsent(e, w, c) && TurnEnds(e, w, evs, c)
    ensures Sent(e, w, evs, MessageOf(e, c)) > 0
    decreases |evs|
  {
    if OfCall(evs[0]) {
      CallUnsent(e, w, evs[0], c);
    } else if evs[0] == Reply {
      ReplyUnsent(e, w, c);
    } else {
      OtherUnsent(e, w, evs[0], c);
    }
    if Sends(e, w, evs[0], MessageOf(e, c)) == 0 { TurnSends(e, Do(e, w, evs[0]), evs[1..], c); }
  }

  /**
   * Every call is applied: in an orderly run in which a turn of the call's has ended, no copy of its
   * op was dropped and nothing is left to do, the entity has applied the op asked for, exactly once.
   */
  lemma EveryCallApplied(e: Setting, evs: seq<Event>, c: CallId)
    requires OrderlyRun(e, Start(), evs) && TurnEnds(e, Start(), evs, c)
    requires Dropped(e, Start(), evs, MessageOf(e, c)) == 0 && Quiet(Run(e, Start(), evs))
    ensures var w := Run(e, Start(), evs);
            exists k: nat :: AppliedAs(e, w, c, k)
                             && Applied(w.log)[k].op == e.request(c).op && Applied(w.log)[k].arg == e.request(c).arg
  {
    TurnSends(e, Start(), evs, c);
    SentAppliedIff(e, evs, c);
    var k: nat :| AppliedAs(e, Run(e, Start(), evs), c, k);
  }

  /** The call is to find its reply, or to send its op again: its intent is not marked as sent. */
  predicate ToResend(k: Call) {
    && (k.intent == Pending(false) || k.intent.Resolved?)
    && (k.pc == Out || k.pc == Seen(false) || k.pc == Sending || k.pc.Holding?
         || (k.pc.Recorded? && k.intent.Resolved?))
  }

  lemma MoveResends(k: Call, marks: bool)
    requires ToResend(k) && k.pc != Sending
    ensures var k' := Moved(k, true, marks);
            |k'.returned| > |k.returned| || (ToResend(k') && k'.pc != Out && k'.returned == k.returned)
  {
  }

  /** What anything but its own turn does to a call. */
  lemma OthersLeave(e: Setting, w: World, ev: Event, c: CallId)
    requires !(ev.CallStep? && ev.c == c)
    ensures var k, k' := CallOf(w, c), CallOf(Do(e, w, ev), c);
            && k'.returned == k.returned && (k'.pc == k.pc || (ev == CallCrash(c) && k'.pc == Out))
            && (k'.intent == k.intent || k'.intent.Resolved?)
  {
    if !OfCall(ev) && ev != Reply { assert Do(e, w, ev).calls == w.calls; }
  }

  lemma StepResends(e: Setting, w: World, ev: Event, c: CallId)
    requires e.request(c).awaited && ToResend(CallOf(w, c))
    ensures var k, k' := CallOf(w, c), CallOf(Do(e, w, ev), c);
            || Sends(e, w, ev, MessageOf(e, c)) > 0 || |k'.returned| > |k.returned|
            || (ToResend(k') && !Ends(e, w, ev, c) && k'.returned == k.returned)
  {
    if ev.CallStep? && ev.c == c {
      if CallOf(w, c).pc != Sending { MoveResends(CallOf(w, c), ev.marks); }
    } else {
      OthersLeave(e, w, ev, c);
    }
  }

  /**
   * An op not marked as sent is sent again: from any state in which the call has left its intent so,
   * whatever else happens and however often its turn dies, by the time a turn of it ends it has sent
   * its op or returned.
   */
  lemma {:induction false} SentAgain(e: Setting, w: World, evs: seq<Event>, c: CallId)
    requires e.request(c).awaited && ToResend(CallOf(w, c)) && TurnEnds(e, w, evs, c)
    ensures Sent(e, w, evs, MessageOf(e, c)) > 0 || |CallOf(Run(e, w, evs), c).returned| > |CallOf(w, c).returned|
    decreases |evs|
  {
    var next := Do(e, w, evs[0]);
    StepResends(e, w, evs[0], c);
    if |CallOf(next, c).returned| > |CallOf(w, c).returned| {
      ReturnedStays(e, next, evs[1..], c);
    } else if Sends(e, w, evs[0], MessageOf(e, c)) == 0 {
      SentAgain(e, next, evs[1..], c);
    }
  }

  lemma StepReturned(e: Setting, w: World, ev: Event, c: CallId)
    ensures CallOf(w, c).returned <= CallOf(Do(e, w, ev), c).returned
  {
    if !OfCall(ev) && ev != Reply { assert Do(e, w, ev).calls == w.calls; }
  }

  lemma {:induction false} ReturnedStays(e: Setting, w: World, evs: seq<Event>, c: CallId)
    ensures CallOf(w, c).returned <= CallOf(Run(e, w, evs), c).returned
    decreases |evs|
  {
    if evs != [] {
      StepReturned(e, w, evs[0], c);
      ReturnedStays(e, Do(e, w, evs[0]), evs[1..], c);
    }
  }

  function Steps(c: CallId, marks: bool, n: nat): seq<Event> { seq(n, _ => CallStep(c, marks)) }

  /** The turn reads its intent, and finds no reply. */
  lemma FindsNoReply(e: Setting, w: World, c: CallId, marks: bool)
    requires e.request(c).awaited && CallOf(w, c).intent == Pending(false) && CallOf(w, c).pc == Out
    requires CallOf(w, c).replies == []
    ensures Do(e, Do(e, w, CallStep(c, marks)), CallStep(c, marks)) == Set(w, c, CallOf(w, c).(pc := Sending))
  {
    assert Do(e, w, CallStep(c, marks)) == Set(w, c, CallOf(w, c).(pc := Seen(false)));
  }

  lemma SendsAndMarks(e: Setting, w: World, c: CallId, marks: bool)
    requires e.request(c).awaited && CallOf(w, c).intent == Pending(false) && CallOf(w, c).pc == Sending
    ensures Do(e, Do(e, w, CallStep(c, marks)), CallStep(c, marks))
            == Set(w.(buffer := w.buffer + [MessageOf(e, c)]), c, CallOf(w, c).(intent := Pending(marks), pc := Out))
  {
    assert Do(e, w, CallStep(c, marks))
           == Set(w.(buffer := w.buffer + [MessageOf(e, c)]), c, CallOf(w, c).(pc := Enqueued));
  }

  /**
   * Left to itself, such a turn with no reply to find buffers the op, marks it if the store can, and
   * ends.
   */
  lemma CallerSends(e: Setting, w: World, c: CallId, marks: bool)
    requires e.request(c).awaited && CallOf(w, c).intent == Pending(false) && CallOf(w, c).pc == Out
    requires CallOf(w, c).replies == []
    ensures Run(e, w, Steps(c, marks, 4))
            == Set(w.(buffer := w.buffer + [MessageOf(e, c)]), c, CallOf(w, c).(intent := Pending(marks)))
  {
    var sending := Set(w, c, CallOf(w, c).(pc := Sending));
    FindsNoReply(e, w, c, marks);
    SendsAndMarks(e, sending, c, marks);
    TwoSteps(e, w, c, marks, 4);
    TwoSteps(e, sending, c, marks, 2);
    SetTwice(w.(buffer := w.buffer + [MessageOf(e, c)]), c, CallOf(w, c).(pc := Sending),
        CallOf(w, c).(intent := Pending(marks)));
  }

  lemma SetTwice(w: World, c: CallId, a: Call, b: Call)
    ensures Set(Set(w, c, a), c, b) == Set(w, c, b)
  {
    assert w.calls[c := a][c := b] == w.calls[c := b];
  }

  lemma TwoSteps(e: Setting, w: World, c: CallId, marks: bool, n: nat)
    requires n > 1
    ensures Run(e, w, Steps(c, marks, n))
            == Run(e, Do(e, Do(e, w, CallStep(c, marks)), CallStep(c, marks)), Steps(c, marks, n - 2))
  {
    StepsUnfold(e, w, c, marks, n);
    StepsUnfold(e, Do(e, w, CallStep(c, marks)), c, marks, n - 1);
  }

  lemma StepsUnfold(e: Setting, w: World, c: CallId, marks: bool, n: nat)
    requires n > 0
    ensures Run(e, w, Steps(c, marks, n)) == Run(e, Do(e, w, CallStep(c, marks)), Steps(c, marks, n - 1))
  {
    assert Steps(c, marks, n)[1..] == Steps(c, marks, n - 1);
  }

  // ---- and not again once it is marked -------------------------------------------------------

  /** The call's op is recorded as sent, or its reply is: what is left to its turns is to look for the reply. */
  predicate NothingToSend(k: Call) {
    && (k.intent == Noted || k.intent == Pending(true) || k.intent.Resolved?)
    && (k.pc == Out || k.pc == Seen(true) || k.pc.Holding? || k.pc.Recorded?)
  }

  lemma StaysSent(e: Setting, w: World, ev: Event, c: CallId)
    requires NothingToSend(CallOf(w, c))
    ensures NothingToSend(CallOf(Do(e, w, ev), c)) && Sends(e, w, ev, MessageOf(e, c)) == 0
  {
    if !(ev.CallStep? && ev.c == c) { OthersLeave(e, w, ev, c); }
  }

  /** Whatever happens from then on, no copy of the op is sent again. */
  lemma {:induction false} SentNoMore(e: Setting, w: World, evs: seq<Event>, c: CallId)
    requires NothingToSend(CallOf(w, c))
    ensures Sent(e, w, evs, MessageOf(e, c)) == 0 && NothingToSend(CallOf(Run(e, w, evs), c))
    decreases |evs|
  {
    if evs != [] {
      StaysSent(e, w, evs[0], c);
      SentNoMore(e, Do(e, w, evs[0]), evs[1..], c);
    }
  }

  /** A signal's turn left to itself buffers its op and records that it has. */
  lemma SignallerSends(e: Setting, w: World, c: CallId, marks: bool)
    requires !e.request(c).awaited && CallOf(w, c).intent == Absent && CallOf(w, c).pc == Out
    ensures Run(e, w, Steps(c, marks, 3))
            == Set(w.(buffer := w.buffer + [MessageOf(e, c)]), c, CallOf(w, c).(intent := Noted))
  {
    var k, out := CallOf(w, c), w.(buffer := w.buffer + [MessageOf(e, c)]);
    var sending := Set(w, c, k.(pc := Sending));
    StepsUnfold(e, w, c, marks, 3);
    assert Do(e, w, CallStep(c, marks)) == sending;
    TwoSteps(e, sending, c, marks, 2);
    assert Do(e, sending, CallStep(c, marks)) == Set(Set(out, c, k.(pc := Sending)), c, k.(pc := Enqueued));
    SetTwice(out, c, k.(pc := Sending), k.(pc := Enqueued));
    SetTwice(out, c, k.(pc := Enqueued), k.(intent := Noted));
  }

  // ---- the entity works off what it holds ----------------------------------------------------

  /** No handler throws. */
  ghost predicate Handles(config: Config) {
    forall s: Value, op: string, arg: Value :: config.handle(s, op, arg).Handled?
  }

  lemma {:induction false} AllHandled(config: Config, msgs: seq<Message>, n: nat)
    requires Handles(config) && n <= |msgs| && forall k | 0 <= k < |msgs| :: msgs[k].Op?
    ensures StateAt(config, msgs, n).Some? && (n < |msgs| ==> OutcomeAt(config, msgs, n).Handled?)
  {
    if n > 0 { AllHandled(config, msgs, n - 1); }
  }

  /** The operation the entity's side does next, when nothing else happens. */
  function NextOf(w: World): Event {
    if w.landing != [] then Land
    else if w.taken.Some? then Record
    else if w.replied < w.published then
      if w.replied < |Applied(w.log)| && Applied(w.log)[w.replied].reply.Some? && !w.answered then Reply else MarkReply
    else if w.published < |w.ops| then Publish
    else if |w.ops| < |Applied(w.log)| then Apply
    else TakeNext
  }

  /** Copies still to record. */
  function ToRecord(w: World): nat { 2 * |w.buffer| + |w.landing| + if w.taken.Some? then 1 else 0 }

  /** What is left to do with the messages recorded. */
  ghost predicate Less(w: World, w': World) {
    || ToRecord(w') < ToRecord(w)
    || (ToRecord(w') == ToRecord(w) && w'.log == w.log
        && (|w'.ops| > |w.ops|
            || (|w'.ops| == |w.ops| && (w'.published > w.published
                || (w'.published == w.published && (w'.replied > w.replied
                    || (w'.replied == w.replied && w'.answered && !w.answered)))))))
  }

  /** A reply sent, or marked. */
  lemma ReplyProgress(e: Setting, w: World)
    requires Done(e, w) && w.landing == [] && w.taken == None && w.replied < w.published
    ensures var ev := NextOf(w); ev != TakeNext && Less(w, Do(e, w, ev)) && Incoming(w, ev) == None
  {
    assert w.ops[w.replied].Handled?;
    if NextOf(w) == Reply {
      assert Do(e, w, Reply).answered && Do(e, w, Reply).replied == w.replied;
    } else {
      assert NextOf(w) == MarkReply && Do(e, w, MarkReply).replied == w.replied + 1;
    }
  }

  /** An op applied, or its state published. */
  lemma OpProgress(e: Setting, w: World)
    requires Done(e, w) && Handles(e.config) && w.landing == [] && w.taken == None
    requires w.published <= w.replied < |Applied(w.log)|
    ensures var ev := NextOf(w); ev != TakeNext && Less(w, Do(e, w, ev)) && Incoming(w, ev) == None
  {
    if w.published < |w.ops| {
      assert NextOf(w) == Publish && Do(e, w, Publish).published == w.published + 1;
    } else {
      AllHandled(e.config, Applied(w.log), |w.ops|);
      assert NextOf(w) == Apply && |Do(e, w, Apply).ops| == |w.ops| + 1;
    }
  }

  lemma LoopProgress(e: Setting, w: World)
    requires Done(e, w) && Handles(e.config) && w.landing == [] && w.taken == None
    requires w.replied < |Applied(w.log)|
    ensures var ev := NextOf(w); ev != TakeNext && Less(w, Do(e, w, ev)) && Incoming(w, ev) == None
  {
    if w.replied < w.published { ReplyProgress(e, w); } else { OpProgress(e, w); }
  }

  lemma Progress(e: Setting, w: World)
    requires Done(e, w) && Consistent(w) && Handles(e.config) && !Quiet(w)
    ensures var ev := NextOf(w);
            && Less(w, Do(e, w, ev)) && !Disorderly(w, ev)
            && (ev == Land || ev == Record || ev == Apply || ev == Publish || ev == Reply || ev == MarkReply
                 || ev == TakeNext)
  {
    if w.landing == [] && w.taken == None && w.replied < |Applied(w.log)| { LoopProgress(e, w); }
  }

  /** Nothing is dropped by what the entity does of itself. */
  lemma DropsNothing(w: World, m: Message)
    ensures Drops(w, NextOf(w), m) == 0
  {
  }

  ghost predicate Sane(e: Setting, w: World) { Sound(e, w) && Consistent(w) }

  lemma {:induction false} DrainsFrom(e: Setting, w: World) returns (evs: seq<Event>)
    requires Sane(e, w) && Handles(e.config)
    ensures Quiet(Run(e, w, evs)) && OrderlyRun(e, w, evs) && forall m :: Dropped(e, w, evs, m) == 0
    decreases ToRecord(w), |Applied(w.log)| - |w.ops|, |w.ops| - w.published, w.published - w.replied,
      if w.answered then 0 else 1
  {
    if Quiet(w) {
      evs := [];
    } else {
      var ev := NextOf(w);
      var next := Do(e, w, ev);
      Progress(e, w);
      EventKeeps(e, w, ev);
      StepIsOrderly(e, w, ev);
      var rest := DrainsFrom(e, next);
      evs := [ev] + rest;
      assert evs[1..] == rest;
      forall m ensures Dropped(e, w, evs, m) == 0 { DropsNothing(w, m); }
    }
  }

  /**
   * With handlers that do not throw, after any orderly run the entity can work off all it holds, in
   * order and dropping nothing, until nothing is left to do.
   */
  lemma Drains(e: Setting, past: seq<Event>) returns (evs: seq<Event>)
    requires OrderlyRun(e, Start(), past) && Handles(e.config)
    ensures var w := Run(e, Start(), past);
            Quiet(Run(e, w, evs)) && OrderlyRun(e, w, evs) && forall m :: Dropped(e, w, evs, m) == 0
  {
    StartSound(e);
    RunKeeps(e, Start(), past);
    RunConsistent(e, Start(), past);
    evs := DrainsFrom(e, Run(e, Start(), past));
  }

  lemma {:induction false} RunConsistent(e: Setting, w: World, evs: seq<Event>)
    requires Consistent(w) && OrderlyRun(e, w, evs)
    ensures Consistent(Run(e, w, evs))
    decreases |evs|
  {
    if evs != [] {
      StepIsOrderly(e, w, evs[0]);
      RunConsistent(e, Do(e, w, evs[0]), evs[1..]);
    }
  }

  // ---- the reply reaches the call ------------------------------------------------------------

  /** A reply is with the call: buffered, on its way to its record, in its turn's hands, or recorded. */
  predicate Reached(k: Call) { k.replies != [] || k.flying != [] || k.pc.Holding? || k.intent.Resolved? }

  /** A reply is lost: its delivery's process dies, or the call's turn does with it in its hands. */
  predicate LosesReply(w: World, ev: Event, c: CallId) {
    || (ev == DropReply(c) && CallOf(w, c).flying != [])
    || (ev == CallCrash(c) && CallOf(w, c).pc.Holding?)
  }

  predicate KeepsReplies(e: Setting, w: World, evs: seq<Event>, c: CallId)
    decreases |evs|
  {
    evs == [] || (!LosesReply(w, evs[0], c) && KeepsReplies(e, Do(e, w, evs[0]), evs[1..], c))
  }

  /** No op of the call's is among those the entity has done with, nor is it one it has just answered. */
  predicate NoneReplied(msgs: seq<Message>, replied: nat, answered: bool, c: CallId) {
    && (forall k: nat | k < replied && k < |msgs| :: msgs[k].Op? ==> msgs[k].reply != Some(c))
    && (answered && replied < |msgs| && msgs[replied].Op? ==> msgs[replied].reply != Some(c))
  }

  /** If an op of the call's is, its reply has reached the call. */
  predicate Replies(w: World, c: CallId) {
    && (w.answered ==> w.replied < |Applied(w.log)|)
    && (Reached(CallOf(w, c)) || NoneReplied(Applied(w.log), w.replied, w.answered, c))
  }

  lemma StaysReached(e: Setting, w: World, ev: Event, c: CallId)
    requires Reached(CallOf(w, c)) && !LosesReply(w, ev, c)
             && (CallOf(w, c).pc == WaiterPut ==> CallOf(w, c).intent == Absent)
    requires OfCall(ev) && e.request(c).awaited
    ensures Reached(CallOf(Do(e, w, ev), c))
  {
  }

  lemma StaysReachedByOthers(e: Setting, w: World, ev: Event, c: CallId)
    requires Reached(CallOf(w, c)) && !OfCall(ev)
    ensures Reached(CallOf(Do(e, w, ev), c))
  {
    if ev != Reply { assert Do(e, w, ev).calls == w.calls; }
  }

  lemma ReplyReplies(e: Setting, w: World, c: CallId)
    requires Replies(w, c)
    ensures Replies(Do(e, w, Reply), c)
  {
    if Reached(CallOf(w, c)) { StaysReachedByOthers(e, w, Reply, c); }
  }

  /** The log only grows. */
  lemma StepGrows(e: Setting, w: World, ev: Event)
    requires Consistent(w)
    ensures Applied(w.log) <= Applied(Do(e, w, ev).log)
  {
    var w' := Do(e, w, ev);
    if ev == Land && |w.landing| > 0 {
      assert InHand(w, w.landing[0].0, w.landing[0].1);
      SaveGrows(w, w.landing[0].0, w.landing[0].1);
    } else if ev == Record && w.taken.Some? {
      assert InHand(w, w.taken.value.0, w.taken.value.1);
      SaveGrows(w, w.taken.value.0, w.taken.value.1);
    } else if OfCall(ev) {
      CallPositions(e, w, ev);
    } else if ev == Reply {
    } else {
      assert w'.log == w.log;
    }
  }

  lemma SaveGrows(w: World, p: nat, m: Message)
    requires Consistent(w) && InHand(w, p, m) && p <= |w.log|
    ensures Applied(w.log) <= Applied(Save(w, p, m).log)
  {
    if p < |w.log| { assert w.log[p := m] == w.log; } else { AppliedPrefix(w.log, [m]); }
  }

  lemma NoneToReply(msgs: seq<Message>, replied: nat, answered: bool, msgs': seq<Message>, replied': nat,
                    answered': bool, c: CallId)
    requires NoneReplied(msgs, replied, answered, c) && msgs <= msgs' && replied <= |msgs|
    requires replied' == replied || (replied' == replied + 1 && msgs' == msgs && replied < |msgs|
                                     && (msgs[replied].Op? && msgs[replied].reply != None ==> answered))
    requires answered' ==> answered && replied' == replied && replied < |msgs|
    ensures NoneReplied(msgs', replied', answered', c)
  {
    assert forall k: nat | k < |msgs| :: msgs'[k] == msgs[k];
  }

  lemma ReachedStill(e: Setting, w: World, ev: Event, c: CallId)
    requires Sane(e, w) && Reached(CallOf(w, c)) && !LosesReply(w, ev, c) && e.request(c).awaited
    ensures Reached(CallOf(Do(e, w, ev), c))
  {
    if OfCall(ev) {
      assert c in w.calls ==> CallOk(e, w, c, w.calls[c]);
      StaysReached(e, w, ev, c);
    } else {
      StaysReachedByOthers(e, w, ev, c);
    }
  }

  lemma CountersReply(e: Setting, w: World, ev: Event, c: CallId)
    requires Done(e, w) && Replies(w, c) && ev != Reply && Applied(w.log) <= Applied(Do(e, w, ev).log)
    ensures var w' := Do(e, w, ev);
            && (w'.answered ==> w'.replied < |Applied(w'.log)|)
            && (NoneReplied(Applied(w.log), w.replied, w.answered, c) ==>
                  NoneReplied(Applied(w'.log), w'.replied, w'.answered, c))
  {
    var w' := Do(e, w, ev);
    Counters(e, w, ev);
    if NoneReplied(Applied(w.log), w.replied, w.answered, c) {
      NoneToReply(Applied(w.log), w.replied, w.answered, Applied(w'.log), w'.replied, w'.answered, c);
    }
  }

  lemma StepReplies(e: Setting, w: World, ev: Event, c: CallId)
    requires Sane(e, w) && Replies(w, c) && !LosesReply(w, ev, c) && e.request(c).awaited
    ensures Replies(Do(e, w, ev), c)
  {
    if ev == Reply {
      ReplyReplies(e, w, c);
    } else {
      StepGrows(e, w, ev);
      CountersReply(e, w, ev, c);
      if Reached(CallOf(w, c)) { ReachedStill(e, w, ev, c); }
    }
  }

  lemma {:induction false} RunReplies(e: Setting, w: World, evs: seq<Event>, c: CallId)
    requires Sane(e, w) && Replies(w, c) && e.request(c).awaited
    requires OrderlyRun(e, w, evs) && KeepsReplies(e, w, evs, c)
    ensures Sane(e, Run(e, w, evs)) && Replies(Run(e, w, evs), c)
    decreases |evs|
  {
    if evs != [] {
      StepReplies(e, w, evs[0], c);
      EventKeeps(e, w, evs[0]);
      StepIsOrderly(e, w, evs[0]);
      RunReplies(e, Do(e, w, evs[0]), evs[1..], c);
    }
  }

  /** Between two turns of the call's, with no reply on its way to its record. */
  predicate Between(k: Call) { k.pc == Out && k.flying == [] }

  /**
   * The call's next turn returns: from between two turns, with a reply recorded or buffered, left to
   * itself it returns that reply, records it if it was only buffered, and then waits for no other.
   */
  lemma NextTurnReturns(e: Setting, w: World, c: CallId, marks: bool)
    requires e.request(c).awaited && Between(CallOf(w, c)) && Reached(CallOf(w, c))
    requires CallOf(w, c).intent.Pending? || CallOf(w, c).intent.Resolved?
    ensures var k := CallOf(w, c); var n: nat := if k.intent.Resolved? then 1 else 4;
            CallOf(Run(e, w, Steps(c, marks, n)), c)
            == if k.intent.Resolved? then k.(returned := k.returned + [k.intent.value])
               else k.(intent := Resolved(k.replies[0]), waiter := false, replies := k.replies[1..],
                       returned := k.returned + [k.replies[0]])
  {
    var k := CallOf(w, c);
    StepsUnfold(e, w, c, marks, 1);
    if k.intent.Pending? {
      var v := k.replies[0];
      var holding := Set(w, c, k.(replies := k.replies[1..], pc := Holding(v)));
      FindsReply(e, w, c, marks);
      ReturnsHeld(e, holding, c, marks);
      TwoSteps(e, w, c, marks, 4);
      TwoSteps(e, holding, c, marks, 2);
    }
  }

  lemma FindsReply(e: Setting, w: World, c: CallId, marks: bool)
    requires CallOf(w, c).pc == Out && CallOf(w, c).intent.Pending? && CallOf(w, c).replies != []
    ensures Do(e, Do(e, w, CallStep(c, marks)), CallStep(c, marks))
            == Set(w, c, CallOf(w, c).(replies := CallOf(w, c).replies[1..], pc := Holding(CallOf(w, c).replies[0])))
  {
    var k := CallOf(w, c);
    assert Do(e, w, CallStep(c, marks)) == Set(w, c, k.(pc := Seen(k.intent.sent)));
    SetTwice(w, c, k.(pc := Seen(k.intent.sent)), k.(replies := k.replies[1..], pc := Holding(k.replies[0])));
  }

  lemma ReturnsHeld(e: Setting, w: World, c: CallId, marks: bool)
    requires CallOf(w, c).pc.Holding?
    ensures var k := CallOf(w, c);
            CallOf(Do(e, Do(e, w, CallStep(c, marks)), CallStep(c, marks)), c)
            == k.(intent := Resolved(k.pc.value), waiter := false, pc := Out, returned := k.returned + [k.pc.value])
  {
    var k := CallOf(w, c);
    assert Do(e, w, CallStep(c, marks)) == Set(w, c, k.(intent := Resolved(k.pc.value), pc := Recorded(k.pc.value)));
  }

  /**
   * Every call returns: in an orderly run in which none of its replies was lost, once the entity has
   * applied the call's op and done with it, the next turn of the call's left to itself returns the
   * result the handler gave.
   */
  lemma CallReturns(e: Setting, evs: seq<Event>, c: CallId, k: nat, marks: bool) returns (turn: seq<Event>)
    requires e.request(c).awaited && OrderlyRun(e, Start(), evs) && KeepsReplies(e, Start(), evs, c)
    requires var w := Run(e, Start(), evs);
             AppliedAs(e, w, c, k) && k < w.replied && Between(CallOf(w, c))
    ensures |turn| <= 4 && forall i | 0 <= i < |turn| :: turn[i] == CallStep(c, marks)
    ensures var w := Run(e, Start(), evs);
            w.ops[k].Handled? && CallOf(Run(e, w, turn), c).returned == CallOf(w, c).returned + [w.ops[k].result]
  {
    var w := Run(e, Start(), evs);
    StartSound(e);
    RunReplies(e, Start(), evs, c);
    assert Reached(CallOf(w, c));
    Intended(e, w, c, k);
    turn := Steps(c, marks, if CallOf(w, c).intent.Resolved? then 1 else 4);
    NextTurnReturns(e, w, c, marks);
    ReplyIsResult(e, w, c, k, if CallOf(w, c).intent.Resolved? then CallOf(w, c).intent.value
        else CallOf(w, c).replies[0]);
  }

  lemma Intended(e: Setting, w: World, c: CallId, k: nat)
    requires Valid(e, w) && e.request(c).awaited && AppliedAs(e, w, c, k)
    ensures CallOf(w, c).intent.Pending? || CallOf(w, c).intent.Resolved?
    ensures w.ops[k].Handled? && c in w.calls && CallOk(e, w, c, CallOf(w, c))
  {
    assert w.ops[k] == OutcomeAt(e.config, Applied(w.log), k) && w.ops[k].Handled?;
    assert Answers(Applied(w.log), w.ops, c, w.ops[k].result);
    AnswerSent(e, w, c, w.ops[k].result);
  }

  lemma ReplyIsResult(e: Setting, w: World, c: CallId, k: nat, v: Value)
    requires Valid(e, w) && AppliedAs(e, w, c, k) && Answers(Applied(w.log), w.ops, c, v) && w.ops[k].Handled?
    ensures v == w.ops[k].result
  {
    var j := AnsweredOnce(e, w, c, v);
  }

  lemma Counters(e: Setting, w: World, ev: Event)
    requires ev != Reply
    ensures var w' := Do(e, w, ev);
            && (w'.replied == w.replied || (w'.replied == w.replied + 1 && ev == MarkReply))
            && (w'.answered ==> w.answered && w'.replied == w.replied)
            && (w'.replied == w.replied + 1 ==>
                  w.replied < |Applied(w.log)| && (Applied(w.log)[w.replied].reply == None || w.answered)
                    && w'.log == w.log)
  {
    if OfCall(ev) { CallPositions(e, w, ev); }
  }
}
