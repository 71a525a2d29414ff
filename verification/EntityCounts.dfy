/** How often an op is sent, dropped and recorded over a run, and so exactly when the entity applies it. */
module EntityCounts {
  import opened Common
  import opened Entities
  import opened EntityRuns

  function One(b: bool): nat { if b then 1 else 0 }

  function Times(s: seq<Message>, m: Message): nat { if s == [] then 0 else One(s[0] == m) + Times(s[1..], m) }

  function Landing(s: seq<(nat, Message)>, m: Message): nat {
    if s == [] then 0 else One(s[0].1 == m) + Landing(s[1..], m)
  }

  /** Copies of a message on their way: buffered, taken, or with a delivery. */
  function Copies(w: World, m: Message): nat {
    Times(w.buffer, m) + One(w.taken.Some? && w.taken.value.1 == m) + Landing(w.landing, m)
  }

  lemma {:induction false} TimesMore(s: seq<Message>, x: Message, m: Message)
    ensures Times(s + [x], m) == Times(s, m) + One(x == m)
  {
    if s == [] {
      assert [x][1..] == [] && s + [x] == [x];
    } else {
      assert (s + [x])[1..] == s[1..] + [x];
      TimesMore(s[1..], x, m);
    }
  }

  lemma {:induction false} LandingMore(s: seq<(nat, Message)>, p: nat, x: Message, m: Message)
    ensures Landing(s + [(p, x)], m) == Landing(s, m) + One(x == m)
  {
    if s == [] {
      assert [(p, x)][1..] == [] && s + [(p, x)] == [(p, x)];
    } else {
      assert (s + [(p, x)])[1..] == s[1..] + [(p, x)];
      LandingMore(s[1..], p, x, m);
    }
  }

  /** A copy of `m` enters: a call sends it, or it comes from outside. */
  function Sends(e: Setting, w: World, ev: Event, m: Message): nat {
    match ev
    case CallStep(c, _) => One(CallOf(w, c).pc == Sending && MessageOf(e, c) == m)
    case Plain(op, arg) => One(Op(op, arg, None, None) == m)
    case Deliver(x) => One(Incoming(w, ev).Some? && x == m)
    case _ => 0
  }

  /** A copy is dropped: its delivery's process dies, or the entity's turn does with it in its hands. */
  function Drops(w: World, ev: Event, m: Message): nat {
    match ev
    case Drop => One(|w.landing| > 0 && w.landing[0].1 == m)
    case EntityCrash => One(w.taken.Some? && w.taken.value.1 == m)
    case _ => 0
  }

  /** A copy is saved as the record of a wait. */
  function Saves(w: World, ev: Event, m: Message): nat {
    match ev
    case Land => One(|w.landing| > 0 && w.landing[0].1 == m)
    case Record => One(w.taken.Some? && w.taken.value.1 == m)
    case _ => 0
  }

  function Sent(e: Setting, w: World, evs: seq<Event>, m: Message): nat
    decreases |evs|
  {
    if evs == [] then 0 else Sends(e, w, evs[0], m) + Sent(e, Do(e, w, evs[0]), evs[1..], m)
  }

  function Dropped(e: Setting, w: World, evs: seq<Event>, m: Message): nat
    decreases |evs|
  {
    if evs == [] then 0 else Drops(w, evs[0], m) + Dropped(e, Do(e, w, evs[0]), evs[1..], m)
  }

  function Saved(e: Setting, w: World, evs: seq<Event>, m: Message): nat
    decreases |evs|
  {
    if evs == [] then 0 else Saves(w, evs[0], m) + Saved(e, Do(e, w, evs[0]), evs[1..], m)
  }

  lemma CallCounts(e: Setting, w: World, ev: Event, m: Message)
    requires OfCall(ev)
    ensures Copies(Do(e, w, ev), m) == Copies(w, m) + Sends(e, w, ev, m)
  {
    CallPositions(e, w, ev);
    if ev.CallStep? && CallOf(w, ev.c).pc == Sending { TimesMore(w.buffer, MessageOf(e, ev.c), m); }
  }

  lemma DeliveryCounts(e: Setting, w: World, ev: Event, m: Message)
    requires ev.Deliver? || ev == Pair
    ensures Copies(Do(e, w, ev), m) == Copies(w, m) + Sends(e, w, ev, m)
  {
    if Incoming(w, ev).Some? { LandingMore(w.landing, w.waiter.value, Incoming(w, ev).value.1, m); }
  }

  lemma ReplyCounts(e: Setting, w: World, m: Message)
    ensures Copies(Do(e, w, Reply), m) == Copies(w, m)
  {
  }

  lemma OtherCounts(e: Setting, w: World, ev: Event, m: Message)
    requires !OfCall(ev) && !ev.Deliver? && ev != Pair && ev != Reply
    ensures Copies(Do(e, w, ev), m) + Drops(w, ev, m) + Saves(w, ev, m) == Copies(w, m) + Sends(e, w, ev, m)
  {
    if ev.Plain? { TimesMore(w.buffer, Op(ev.op, ev.arg, None, None), m); }
  }

  /** Every copy that enters is still on its way, dropped, or saved. */
  lemma StepCounts(e: Setting, w: World, ev: Event, m: Message)
    ensures Copies(Do(e, w, ev), m) + Drops(w, ev, m) + Saves(w, ev, m) == Copies(w, m) + Sends(e, w, ev, m)
  {
    if OfCall(ev) {
      CallCounts(e, w, ev, m);
    } else if ev.Deliver? || ev == Pair {
      DeliveryCounts(e, w, ev, m);
    } else if ev == Reply {
      ReplyCounts(e, w, m);
    } else {
      OtherCounts(e, w, ev, m);
    }
  }

  lemma {:induction false} RunCounts(e: Setting, w: World, evs: seq<Event>, m: Message)
    ensures Copies(Run(e, w, evs), m) + Dropped(e, w, evs, m) + Saved(e, w, evs, m) == Copies(w, m) + Sent(e, w, evs, m)
    decreases |evs|
  {
    if evs != [] {
      StepCounts(e, w, evs[0], m);
      RunCounts(e, Do(e, w, evs[0]), evs[1..], m);
    }
  }

  /** A save records its message and keeps every other record. */
  lemma SaveRecords(w: World, p: nat, x: Message, m: Message)
    requires Consistent(w) && InHand(w, p, x) && p <= |w.log|
    ensures m in Save(w, p, x).log <==> m in w.log || x == m
  {
    if p < |w.log| {
      assert w.log[p] == x && w.log[p := x] == w.log;
    }
  }

  lemma StepRecords(e: Setting, w: World, ev: Event, m: Message)
    requires Consistent(w)
    ensures m in Do(e, w, ev).log <==> m in w.log || Saves(w, ev, m) > 0
  {
    match ev
    case Land =>
      if |w.landing| > 0 {
        assert InHand(w, w.landing[0].0, w.landing[0].1);
        SaveRecords(w, w.landing[0].0, w.landing[0].1, m);
      }
    case Record =>
      if w.taken.Some? {
        assert InHand(w, w.taken.value.0, w.taken.value.1);
        SaveRecords(w, w.taken.value.0, w.taken.value.1, m);
      }
    case _ =>
  }

  lemma {:induction false} RunRecords(e: Setting, w: World, evs: seq<Event>, m: Message)
    requires Consistent(w) && OrderlyRun(e, w, evs)
    ensures m in Run(e, w, evs).log <==> m in w.log || Saved(e, w, evs, m) > 0
    decreases |evs|
  {
    if evs != [] {
      StepIsOrderly(e, w, evs[0]);
      StepRecords(e, w, evs[0], m);
      RunRecords(e, Do(e, w, evs[0]), evs[1..], m);
    }
  }

  /** A recorded op is applied exactly once, once the loop has caught up. */
  lemma RecordedIsApplied(e: Setting, w: World, c: CallId)
    requires Valid(e, w) && Idle(w)
    ensures MessageOf(e, c) in w.log <==> exists k: nat :: AppliedAs(e, w, c, k)
  {
    var m, msgs := MessageOf(e, c), Applied(w.log);
    if m in w.log {
      var i :| 0 <= i < |w.log| && w.log[i] == m;
      assert Has(w.log, c);
      GivenIsApplied(w.log, c);
      var k :| 0 <= k < |msgs| && msgs[k].Op? && msgs[k].id == Some(c);
      assert Answers(msgs, w.ops, c, w.ops[k].result);
      var k' := AnsweredOnce(e, w, c, w.ops[k].result);
    }
  }

  /** No message is on its way, and the entity has done with all it was given. */
  predicate Quiet(w: World) { w.buffer == [] && w.taken == None && w.landing == [] && Idle(w) }

  /**
   * Exactly which ops are applied: in an orderly run, once nothing is left to do, the entity has
   * applied a call's op, and then exactly once, if and only if fewer copies of it were dropped than
   * were sent.
   */
  lemma SentAppliedIff(e: Setting, evs: seq<Event>, c: CallId)
    requires OrderlyRun(e, Start(), evs)
    requires Quiet(Run(e, Start(), evs))
    ensures var w, m := Run(e, Start(), evs), MessageOf(e, c);
            (exists k: nat :: AppliedAs(e, w, c, k)) <==> Dropped(e, Start(), evs, m) < Sent(e, Start(), evs, m)
  {
    var w, m := Run(e, Start(), evs), MessageOf(e, c);
    StartSound(e);
    RunKeeps(e, Start(), evs);
    NothingOverwritten(e, Start(), evs);
    RunCounts(e, Start(), evs, m);
    RunRecords(e, Start(), evs, m);
    RecordedIsApplied(e, w, c);
  }

  /** The call has got past its send. */
  predicate Marked(k: Call) { k.pc == Enqueued || k.intent == Pending(true) || k.intent == Noted }

  /** Only the call's own turn gets it past its send. */
  lemma OthersMarkNothing(e: Setting, w: World, ev: Event, c: CallId)
    requires !Marked(CallOf(w, c)) && !(ev.CallStep? && ev.c == c)
    ensures !Marked(CallOf(Do(e, w, ev), c))
  {
    if !OfCall(ev) && ev != Reply { assert Do(e, w, ev).calls == w.calls; }
  }

  lemma StepMarks(e: Setting, w: World, ev: Event, c: CallId)
    requires !Marked(CallOf(w, c)) && Marked(CallOf(Do(e, w, ev), c))
    ensures Sends(e, w, ev, MessageOf(e, c)) > 0
  {
    if !(ev.CallStep? && ev.c == c) { OthersMarkNothing(e, w, ev, c); }
  }

  /** A call that has marked its op as sent has sent it. */
  lemma {:induction false} MarkedIsSent(e: Setting, w: World, evs: seq<Event>, c: CallId)
    requires !Marked(CallOf(w, c)) && Marked(CallOf(Run(e, w, evs), c))
    ensures Sent(e, w, evs, MessageOf(e, c)) > 0
    decreases |evs|
  {
    if evs != [] {
      var next := Do(e, w, evs[0]);
      if Marked(CallOf(next, c)) { StepMarks(e, w, evs[0], c); } else { MarkedIsSent(e, next, evs[1..], c); }
    }
  }

  /** So an op marked as sent, of which no copy was dropped, is applied exactly once. */
  lemma MarkedIsApplied(e: Setting, evs: seq<Event>, c: CallId)
    requires OrderlyRun(e, Start(), evs)
    requires Quiet(Run(e, Start(), evs))
    requires Marked(CallOf(Run(e, Start(), evs), c)) && Dropped(e, Start(), evs, MessageOf(e, c)) == 0
    ensures exists k: nat :: AppliedAs(e, Run(e, Start(), evs), c, k)
  {
    MarkedIsSent(e, Start(), evs, c);
    SentAppliedIff(e, evs, c);
  }
}
