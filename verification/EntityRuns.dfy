/**
 * Entity calls end to end: the caller's three-write intent protocol, the entity's buffer, its wait
 * and its loop, the reply, and crashes of either side between any two store operations.
 */
module EntityRuns {
  import opened Common
  import opened Entities

  /** A call's checkpoint: nothing, a pending intent, the reply it resolved with, or (for a signal) its record. */
  datatype Intent = Absent | Pending(sent: bool) | Resolved(value: Value) | Noted

  /** How far the caller's turn has got in the call; `Out` is not in it. */
  datatype Pc = Out | WaiterPut | Sending | Seen(sent: bool) | Enqueued | Holding(value: Value) | Recorded(value: Value)

  datatype Call = Call(
    intent: Intent,
    waiter: bool,
    replies: seq<Value>,    // buffered on the reply token
    flying: seq<Value>,     // reply waiter taken, checkpoint not yet saved
    pc: Pc,
    returned: seq<Value>)

  datatype Request = Request(op: string, arg: Value, awaited: bool)

  /** Everything fixed: the entity's handlers, and what each call asks. */
  datatype Setting = Setting(config: Config, request: CallId -> Request)

  /**
   * `log` is what the entity's waits have recorded, `ops` what its op steps have, `published` and
   * `replied` how many ops have had their state published and their reply step recorded. `waiter`
   * and `taken` carry the index of the wait they are for.
   */
  datatype World = World(
    log: seq<Message>,
    ops: seq<Outcome>,
    published: nat,
    replied: nat,
    answered: bool,                     // the turn has sent the reply its next reply step records
    buffer: seq<Message>,
    waiter: Option<nat>,
    taken: Option<(nat, Message)>,      // taken from the buffer, not yet recorded
    landing: seq<(nat, Message)>,       // waiter taken by a delivery, checkpoint not yet saved
    calls: map<CallId, Call>,
    lost: seq<Message>,                 // taken from the buffer by a turn that died before recording it
    clobbered: bool)                    // a record of the log has been overwritten

  datatype Event =
    | CallStep(c: CallId, marks: bool)  // `marks`: the store can mark the intent as sent
    | CallCrash(c: CallId)
    | LandReply(c: CallId)
    | Reclaim(c: CallId)                // the signaller's second look at the reply token
    | Plain(op: string, arg: Value)     // an op sent from outside a workflow finds no waiter
    | Deliver(m: Message)               // a wake-up, or an op from outside, takes the entity's waiter
    | Pair                              // a signaller's second look pairs the waiter with the buffer
    | Land                              // a delivery saves its checkpoint...
    | Drop                              // ...or its process dies first
    | DropReply(c: CallId)
    | TakeNext | Record | Park | FreeWaiter | EntityCrash
    | Apply | Publish | Reply | MarkReply

  function MessageOf(e: Setting, c: CallId): Message {
    var r := e.request(c);
    Op(r.op, r.arg, Some(c), if r.awaited then Some(c) else None)
  }

  function Fresh(): Call { Call(Absent, false, [], [], Out, []) }

  function CallOf(w: World, c: CallId): Call { if c in w.calls then w.calls[c] else Fresh() }

  function Set(w: World, c: CallId, k: Call): World { w.(calls := w.calls[c := k]) }

  /** A call after the next operation of its caller's turn, in `callEntity` (awaited) or `signalEntity`. */
  function Moved(k: Call, awaited: bool, marks: bool): Call {
    match k.pc
    case Out =>
      (match k.intent
       case Absent => if awaited then k.(waiter := true, pc := WaiterPut) else k.(pc := Sending)
       case Pending(sent) => k.(pc := Seen(sent))
       case Resolved(v) => k.(returned := k.returned + [v])
       case Noted => k)
    case WaiterPut => k.(intent := Pending(false), pc := Sending)
    case Seen(sent) =>
      if |k.replies| > 0 then k.(replies := k.replies[1..], pc := Holding(k.replies[0]))
      else if sent then k.(pc := Out) else k.(pc := Sending)
    case Sending => k.(pc := Enqueued)
    case Enqueued =>
      if awaited then k.(intent := if marks && k.intent.Pending? then Pending(true) else k.intent, pc := Out)
      else k.(intent := Noted, pc := Out)
    case Holding(v) => k.(intent := Resolved(v), pc := Recorded(v))
    case Recorded(v) => k.(waiter := false, pc := Out, returned := k.returned + [v])
  }

  function Stepped(e: Setting, w: World, c: CallId, marks: bool): World {
    var k := CallOf(w, c);
    Set(if k.pc == Sending then w.(buffer := w.buffer + [MessageOf(e, c)]) else w,
        c, Moved(k, e.request(c).awaited, marks))
  }

  /** A checkpoint saved at wait `at`: recorded next, or written over what is recorded there. */
  function Save(w: World, at: nat, m: Message): World {
    if at < |w.log| then w.(log := w.log[at := m], clobbered := w.clobbered || w.log[at] != m)
    else w.(log := w.log + [m])
  }

  /** The signal side of a reply: straight to the waiter, or buffered. */
  function Replied(w: World, c: CallId, v: Value): World {
    var k := CallOf(w, c);
    if k.waiter then Set(w, c, k.(waiter := false, flying := k.flying + [v]))
    else Set(w, c, k.(replies := k.replies + [v]))
  }

  /** Every message given has been applied, published and answered: the loop is at its next wait. */
  predicate Idle(w: World) { |w.ops| == |Applied(w.log)| == w.replied }

  function Do(e: Setting, w: World, ev: Event): World {
    match ev
    case CallStep(c, marks) => Stepped(e, w, c, marks)
    case CallCrash(c) => Set(w, c, CallOf(w, c).(pc := Out))
    case LandReply(c) =>
      var k := CallOf(w, c);
      if |k.flying| > 0 then Set(w, c, k.(intent := Resolved(k.flying[0]), flying := k.flying[1..])) else w
    case Reclaim(c) =>
      var k := CallOf(w, c);
      if k.waiter && |k.replies| > 0 then
        Set(w, c, k.(waiter := false, flying := k.flying + [k.replies[0]], replies := k.replies[1..]))
      else w
    case Plain(op, arg) => w.(buffer := w.buffer + [Op(op, arg, None, None)])
    case Deliver(m) =>
      if w.waiter.Some? && (m.Nudge? || (m.id == None && m.reply == None))
      then w.(waiter := None, landing := w.landing + [(w.waiter.value, m)]) else w
    case Land => if |w.landing| > 0 then Save(w, w.landing[0].0, w.landing[0].1).(landing := w.landing[1..]) else w
    case Pair =>
      if w.waiter.Some? && |w.buffer| > 0
      then w.(waiter := None, landing := w.landing + [(w.waiter.value, w.buffer[0])], buffer := w.buffer[1..]) else w
    case Drop =>
      if |w.landing| > 0 then w.(landing := w.landing[1..], lost := w.lost + [w.landing[0].1]) else w
    case DropReply(c) =>
      var k := CallOf(w, c);
      if |k.flying| > 0 then Set(w, c, k.(flying := k.flying[1..])) else w
    case TakeNext =>
      if Idle(w) && w.taken == None && |w.buffer| > 0
      then w.(taken := Some((|w.log|, w.buffer[0])), buffer := w.buffer[1..]) else w
    case Record => if w.taken.Some? then Save(w, w.taken.value.0, w.taken.value.1).(taken := None) else w
    case Park => if Idle(w) && w.taken == None then w.(waiter := Some(|w.log|)) else w
    case FreeWaiter => if w.waiter.Some? && w.waiter.value < |w.log| then w.(waiter := None) else w
    case EntityCrash =>
      w.(taken := None, answered := false, lost := w.lost + if w.taken.Some? then [w.taken.value.1] else [])
    case Apply =>
      if |w.ops| < |Applied(w.log)| && w.replied == |w.ops| && OutcomeAt(e.config, Applied(w.log), |w.ops|).Handled?
      then w.(ops := w.ops + [OutcomeAt(e.config, Applied(w.log), |w.ops|)]) else w
    case Publish => if w.published < |w.ops| then w.(published := w.published + 1) else w
    case Reply =>
      if w.replied < w.published <= |w.ops| <= |Applied(w.log)|
         && Applied(w.log)[w.replied].reply.Some? && w.ops[w.replied].Handled?
      then Replied(w.(answered := true), Applied(w.log)[w.replied].reply.value, w.ops[w.replied].result) else w
    case MarkReply =>
      if w.replied < w.published && w.replied < |Applied(w.log)|
        && (Applied(w.log)[w.replied].reply == None || w.answered)
      then w.(replied := w.replied + 1, answered := false) else w
  }

  function Run(e: Setting, w: World, evs: seq<Event>): World
    decreases |evs|
  {
    if evs == [] then w else Run(e, Do(e, w, evs[0]), evs[1..])
  }

  function Start(): World { World([], [], 0, 0, false, [], None, None, [], map[], [], false) }

  /** The state `getState` reads. */
  function Published(e: Setting, w: World): Option<Value>
    requires w.published <= |w.ops|
  {
    if w.published == 0 then None
    else if w.ops[w.published - 1].Handled? then Some(w.ops[w.published - 1].state) else None
  }

  // ---- the invariant -------------------------------------------------------------------------

  /** The op steps recorded are the handlers' outcomes on the messages applied. */
  ghost predicate Done(e: Setting, w: World) {
    && w.replied <= w.published <= |w.ops| <= |Applied(w.log)|
    && forall k: nat | k < |w.ops| :: w.ops[k].Handled? && w.ops[k] == OutcomeAt(e.config, Applied(w.log), k)
  }

  /** The entity has recorded `v` as the result of call `c`'s op. */
  ghost predicate Answers(msgs: seq<Message>, ops: seq<Outcome>, c: CallId, v: Value) {
    exists k :: 0 <= k < |ops| && k < |msgs| && msgs[k].Op? && msgs[k].id == Some(c) && ops[k].Handled?
      && ops[k].result == v
  }

  /** A message on its way is the one its call sends, once the call has left its intent. */
  ghost predicate Genuine(e: Setting, calls: map<CallId, Call>, m: Message) {
    match m
    case Nudge => true
    case Op(_, _, None, reply) => reply == None
    case Op(_, _, Some(c), _) =>
      m == MessageOf(e, c) && c in calls && (e.request(c).awaited ==> calls[c].intent != Absent)
  }

  ghost predicate GenuineAll(e: Setting, calls: map<CallId, Call>, ms: seq<Message>) {
    forall k | 0 <= k < |ms| :: Genuine(e, calls, ms[k])
  }

  /** Every value that has reached call `c`'s side is the recorded result of its op. */
  ghost predicate Truthful(msgs: seq<Message>, ops: seq<Outcome>, c: CallId, k: Call) {
    && (forall j | 0 <= j < |k.replies| :: Answers(msgs, ops, c, k.replies[j]))
    && (forall j | 0 <= j < |k.flying| :: Answers(msgs, ops, c, k.flying[j]))
    && (forall j | 0 <= j < |k.returned| :: Answers(msgs, ops, c, k.returned[j]))
    && (k.pc.Holding? || k.pc.Recorded? ==> Answers(msgs, ops, c, k.pc.value))
    && (k.intent.Resolved? ==> Answers(msgs, ops, c, k.intent.value))
  }

  ghost predicate Carried(landing: seq<(nat, Message)>, m: Message) {
    exists k :: 0 <= k < |landing| && landing[k].1 == m
  }

  /** The message is somewhere between its call and the log, in the log, or lost with a turn that died. */
  ghost predicate Held(w: World, m: Message) {
    || m in w.buffer || m in w.log || (w.taken.Some? && w.taken.value.1 == m)
    || Carried(w.landing, m) || m in w.lost
  }

  ghost predicate CallOk(e: Setting, w: World, c: CallId, k: Call) {
    && Truthful(Applied(w.log), w.ops, c, k)
    && (e.request(c).awaited ==> k.intent != Noted)
    && (!e.request(c).awaited ==>
          && (k.intent == Absent || k.intent == Noted) && k.replies == [] && k.flying == []
          && (k.pc == Out || k.pc == Sending || k.pc == Enqueued))
    && (k.pc == WaiterPut ==> k.intent == Absent && e.request(c).awaited)
    && (e.request(c).awaited && (k.pc == Sending || k.pc == Enqueued || k.pc.Seen? || k.pc.Holding?) ==>
         k.intent != Absent)
    && (k.pc == Enqueued || k.intent == Pending(true) || k.intent == Noted ==> Held(w, MessageOf(e, c)))
  }

  ghost predicate Positions(w: World) {
    && (w.waiter.Some? ==> w.waiter.value <= |w.log|)
    && (w.taken.Some? ==> w.taken.value.0 <= |w.log|)
    && (forall k | 0 <= k < |w.landing| :: w.landing[k].0 <= |w.log|)
  }

  ghost predicate Valid(e: Setting, w: World) {
    && Done(e, w)
    && GenuineAll(e, w.calls, w.log) && GenuineAll(e, w.calls, w.buffer)
    && (w.taken.Some? ==> Genuine(e, w.calls, w.taken.value.1))
    && (forall k | 0 <= k < |w.landing| :: Genuine(e, w.calls, w.landing[k].1))
    && (forall c | c in w.calls :: CallOk(e, w, c, w.calls[c]))
  }

  // ---- preservation --------------------------------------------------------------------------

  ghost predicate Sound(e: Setting, w: World) { Positions(w) && (w.clobbered || Valid(e, w)) }

  lemma AnswersGrow(msgs: seq<Message>, ops: seq<Outcome>, msgs': seq<Message>, ops': seq<Outcome>, c: CallId, v: Value)
    requires msgs <= msgs' && ops <= ops' && Answers(msgs, ops, c, v)
    ensures Answers(msgs', ops', c, v)
  {
    var k :| 0 <= k < |ops| && k < |msgs| && msgs[k].Op? && msgs[k].id == Some(c) && ops[k].Handled?
      && ops[k].result == v;
    assert msgs'[k] == msgs[k] && ops'[k] == ops[k];
  }

  lemma TruthfulGrows(msgs: seq<Message>, ops: seq<Outcome>, msgs': seq<Message>, ops': seq<Outcome>,
                      c: CallId, k: Call)
    requires msgs <= msgs' && ops <= ops' && Truthful(msgs, ops, c, k)
    ensures Truthful(msgs', ops', c, k)
  {
    forall v | Answers(msgs, ops, c, v) ensures Answers(msgs', ops', c, v) {
      AnswersGrow(msgs, ops, msgs', ops', c, v);
    }
  }

  /** One call changes, and the buffer may gain messages: everything else stands. */
  lemma CallKeeps(e: Setting, w: World, c: CallId, k: Call, more: seq<Message>)
    requires Valid(e, w)
    requires var w' := Set(w.(buffer := w.buffer + more), c, k);
             GenuineAll(e, w'.calls, more) && CallOk(e, w', c, k)
    requires CallOf(w, c).intent != Absent ==> k.intent != Absent
    ensures Valid(e, Set(w.(buffer := w.buffer + more), c, k))
  {
    var w' := Set(w.(buffer := w.buffer + more), c, k);
    forall m | Genuine(e, w.calls, m) ensures Genuine(e, w'.calls, m) {
    }
    forall d | d in w'.calls ensures CallOk(e, w', d, w'.calls[d]) {
    }
  }

  /** The log or the recorded ops grow, or a message moves on: every call stands. */
  lemma EntityKeeps(e: Setting, w: World, w': World)
    requires Valid(e, w) && w'.calls == w.calls
    requires w.log <= w'.log && w.ops <= w'.ops && Done(e, w')
    requires forall m | Held(w, m) :: Held(w', m)
    requires GenuineAll(e, w'.calls, w'.log) && GenuineAll(e, w'.calls, w'.buffer)
    requires w'.taken.Some? ==> Genuine(e, w'.calls, w'.taken.value.1)
    requires forall k | 0 <= k < |w'.landing| :: Genuine(e, w'.calls, w'.landing[k].1)
    ensures Valid(e, w')
  {
    AppliedPrefix(w.log, w'.log[|w.log|..]);
    assert w'.log == w.log + w'.log[|w.log|..];
    forall c | c in w'.calls ensures CallOk(e, w', c, w'.calls[c]) {
      TruthfulGrows(Applied(w.log), w.ops, Applied(w'.log), w'.ops, c, w.calls[c]);
    }
  }

  lemma DoneGrows(e: Setting, w: World, m: Message)
    requires Done(e, w)
    ensures Done(e, w.(log := w.log + [m]))
  {
    AppliedPrefix(w.log, [m]);
    OutcomesPrefix(e.config, Applied(w.log), Applied(w.log + [m]));
  }

  lemma SavedLog(w: World, at: nat, m: Message)
    requires at <= |w.log| && !Save(w, at, m).clobbered
    ensures Save(w, at, m).log == w.log || Save(w, at, m).log == w.log + [m]
    ensures m in Save(w, at, m).log && forall x | x in w.log :: x in Save(w, at, m).log
  {
    if at < |w.log| {
      assert w.log[at := m] == w.log;
      assert w.log[at] == m;
    } else {
      assert (w.log + [m])[|w.log|] == m;
    }
  }

  /** A genuine message is recorded next. */
  lemma SaveKeeps(e: Setting, w: World, at: nat, m: Message, w': World)
    requires Valid(e, w) && at <= |w.log| && Genuine(e, w.calls, m)
    requires w' == Save(w, at, m).(taken := w'.taken, landing := w'.landing)
    requires w'.taken == None || w'.taken == w.taken
    requires forall k | 0 <= k < |w'.landing| :: Genuine(e, w.calls, w'.landing[k].1)
    requires forall x | Held(w, x) && x != m :: Held(w', x)
    ensures w'.clobbered || Valid(e, w')
  {
    if !w'.clobbered {
      if at == |w.log| {
        DoneGrows(e, w, m);
        assert w'.log[|w.log|] == m;
      } else {
        assert w'.log == w.log;
        assert w.log[at] == m;
      }
      EntityKeeps(e, w, w');
    }
  }

  lemma CallSideKeeps(e: Setting, w: World, c: CallId, k: Call)
    requires Valid(e, w) && CallOk(e, w, c, k) && (CallOf(w, c).intent != Absent ==> k.intent != Absent)
    ensures Valid(e, Set(w, c, k))
  {
    assert w.buffer + [] == w.buffer;
    CallKeeps(e, w, c, k, []);
  }

  lemma MovedTruthful(msgs: seq<Message>, ops: seq<Outcome>, c: CallId, k: Call, awaited: bool, marks: bool)
    requires Truthful(msgs, ops, c, k)
    ensures Truthful(msgs, ops, c, Moved(k, awaited, marks))
  {
  }

  lemma MovedOk(e: Setting, w: World, c: CallId, k: Call, marks: bool)
    requires CallOk(e, w, c, k) && k.pc != Sending
    ensures CallOk(e, w, c, Moved(k, e.request(c).awaited, marks))
    ensures k.intent != Absent ==> Moved(k, e.request(c).awaited, marks).intent != Absent
  {
    MovedTruthful(Applied(w.log), w.ops, c, k, e.request(c).awaited, marks);
  }

  lemma CallStepKeeps(e: Setting, w: World, c: CallId, marks: bool)
    requires Valid(e, w)
    ensures Valid(e, Stepped(e, w, c, marks))
  {
    var k := CallOf(w, c);
    var k' := Moved(k, e.request(c).awaited, marks);
    assert CallOk(e, w, c, k);
    if k.pc == Sending {
      SendingKeeps(e, w, c, k);
    } else {
      MovedOk(e, w, c, k, marks);
      CallSideKeeps(e, w, c, k');
    }
  }

  lemma SendingKeeps(e: Setting, w: World, c: CallId, k: Call)
    requires Valid(e, w) && CallOk(e, w, c, k) && k.pc == Sending && k == CallOf(w, c)
    ensures Valid(e, Set(w.(buffer := w.buffer + [MessageOf(e, c)]), c, k.(pc := Enqueued)))
  {
    var more := [MessageOf(e, c)];
    assert (w.buffer + more)[|w.buffer|] == MessageOf(e, c);
    CallKeeps(e, w, c, k.(pc := Enqueued), more);
  }

  /** A value for call `c` is only ever the recorded result of an op it has sent. */
  lemma AnswerSent(e: Setting, w: World, c: CallId, v: Value)
    requires Valid(e, w) && Answers(Applied(w.log), w.ops, c, v)
    ensures c in w.calls && (e.request(c).awaited ==> w.calls[c].intent != Absent)
  {
    var msgs := Applied(w.log);
    var j :| 0 <= j < |w.ops| && j < |msgs| && msgs[j].Op? && msgs[j].id == Some(c);
    var i :| 0 <= i < |w.log| && w.log[i] == msgs[j];
    assert Genuine(e, w.calls, w.log[i]);
  }

  lemma LandReplyKeeps(e: Setting, w: World, c: CallId)
    requires Valid(e, w) && |CallOf(w, c).flying| > 0
    requires e.request(c).awaited
    ensures Valid(e, Do(e, w, LandReply(c)))
  {
    var k := CallOf(w, c);
    AnswerSent(e, w, c, k.flying[0]);
    CallSideKeeps(e, w, c, k.(intent := Resolved(k.flying[0]), flying := k.flying[1..]));
  }

  lemma ReplyKeeps(e: Setting, w: World)
    requires Valid(e, w)
    ensures Valid(e, Do(e, w, Reply))
  {
    var msgs := Applied(w.log);
    if w.replied < w.published && msgs[w.replied].reply.Some? {
      var c, v := msgs[w.replied].reply.value, w.ops[w.replied].result;
      var i :| 0 <= i < |w.log| && w.log[i] == msgs[w.replied];
      assert Genuine(e, w.calls, w.log[i]);
      assert Answers(msgs, w.ops, c, v);
      var a, k := w.(answered := true), CallOf(w, c);
      assert CallOk(e, w, c, k);
      CallSideKeeps(e, a, c, if k.waiter then k.(waiter := false, flying := k.flying + [v])
          else k.(replies := k.replies + [v]));
    }
  }

  predicate OfCall(ev: Event) { ev.CallStep? || ev.CallCrash? || ev.LandReply? || ev.Reclaim? || ev.DropReply? }

  lemma CallEventKeeps(e: Setting, w: World, ev: Event)
    requires Valid(e, w) && OfCall(ev)
    ensures Valid(e, Do(e, w, ev))
  {
    var k := CallOf(w, ev.c);
    assert CallOk(e, w, ev.c, k);
    match ev
    case CallStep(c, marks) => CallStepKeeps(e, w, c, marks);
    case CallCrash(c) => CallSideKeeps(e, w, c, k.(pc := Out));
    case LandReply(c) => if |k.flying| > 0 { LandReplyKeeps(e, w, c); }
    case Reclaim(c) =>
      if k.waiter && |k.replies| > 0 {
        CallSideKeeps(e, w, c, k.(waiter := false, flying := k.flying + [k.replies[0]], replies := k.replies[1..]));
      }
    case DropReply(c) => if |k.flying| > 0 { CallSideKeeps(e, w, c, k.(flying := k.flying[1..])); }
  }

  lemma HeadOrTail<T>(s: seq<T>, x: T)
    requires x in s
    ensures x == s[0] || x in s[1..]
  {
    var k :| 0 <= k < |s| && s[k] == x;
    if k > 0 { assert s[1..][k - 1] == x; }
  }

  lemma CarriedHeadOrTail(landing: seq<(nat, Message)>, m: Message)
    requires Carried(landing, m)
    ensures m == landing[0].1 || Carried(landing[1..], m)
  {
    var k :| 0 <= k < |landing| && landing[k].1 == m;
    if k > 0 { assert landing[1..][k - 1].1 == m; }
  }

  lemma CarriedMore(landing: seq<(nat, Message)>, at: nat, x: Message)
    ensures forall m | Carried(landing, m) || m == x :: Carried(landing + [(at, x)], m)
  {
    var more := landing + [(at, x)];
    forall m | Carried(landing, m) || m == x ensures Carried(more, m) {
      if Carried(landing, m) {
        var k :| 0 <= k < |landing| && landing[k].1 == m;
        assert more[k].1 == m;
      } else {
        assert more[|landing|].1 == m;
      }
    }
  }

  /** No message goes missing: it moves on, or is lost with the process that held it. */
  lemma StillHeld(e: Setting, w: World, ev: Event, m: Message)
    requires Held(w, m) && (ev.Plain? || ev.Deliver? || ev.Pair? || ev.Drop? || ev.TakeNext? || ev.EntityCrash?)
    ensures Held(Do(e, w, ev), m)
  {
    match ev
    case Deliver(x) => if w.waiter.Some? { CarriedMore(w.landing, w.waiter.value, x); }
    case Pair =>
      if w.waiter.Some? && |w.buffer| > 0 {
        CarriedMore(w.landing, w.waiter.value, w.buffer[0]);
        if m in w.buffer { HeadOrTail(w.buffer, m); }
      }
    case Drop => if |w.landing| > 0 && Carried(w.landing, m) { CarriedHeadOrTail(w.landing, m); }
    case TakeNext => if |w.buffer| > 0 && m in w.buffer { HeadOrTail(w.buffer, m); }
    case _ =>
  }

  lemma MessageEventKeeps(e: Setting, w: World, ev: Event)
    requires Valid(e, w) && (ev.Plain? || ev.Deliver? || ev.Pair? || ev.Drop? || ev.TakeNext? || ev.EntityCrash?)
    ensures Valid(e, Do(e, w, ev))
  {
    forall m | Held(w, m) ensures Held(Do(e, w, ev), m) { StillHeld(e, w, ev, m); }
    StillGenuine(e, w, ev);
    EntityKeeps(e, w, Do(e, w, ev));
  }

  lemma StillGenuine(e: Setting, w: World, ev: Event)
    requires GenuineAll(e, w.calls, w.buffer) && (w.taken.Some? ==> Genuine(e, w.calls, w.taken.value.1))
    requires forall k | 0 <= k < |w.landing| :: Genuine(e, w.calls, w.landing[k].1)
    requires ev.Plain? || ev.Deliver? || ev.Pair? || ev.Drop? || ev.TakeNext? || ev.EntityCrash?
    ensures var w' := Do(e, w, ev);
            && w'.calls == w.calls && w'.log == w.log && w'.ops == w.ops
            && w'.published == w.published && w'.replied == w.replied
            && GenuineAll(e, w.calls, w'.buffer) && (w'.taken.Some? ==> Genuine(e, w.calls, w'.taken.value.1))
            && forall k | 0 <= k < |w'.landing| :: Genuine(e, w.calls, w'.landing[k].1)
  {
  }

  lemma LandKeeps(e: Setting, w: World)
    requires Valid(e, w) && Positions(w) && |w.landing| > 0
    ensures var w' := Do(e, w, Land); w'.clobbered || Valid(e, w')
  {
    var at, m, w' := w.landing[0].0, w.landing[0].1, Do(e, w, Land);
    if !w'.clobbered {
      SavedLog(w, at, m);
      forall x | Held(w, x) && x != m ensures Held(w', x) {
        if Carried(w.landing, x) { CarriedHeadOrTail(w.landing, x); }
      }
      SaveKeeps(e, w, at, m, w');
    }
  }

  lemma RecordKeeps(e: Setting, w: World)
    requires Valid(e, w) && Positions(w) && w.taken.Some?
    ensures var w' := Do(e, w, Record); w'.clobbered || Valid(e, w')
  {
    var w' := Do(e, w, Record);
    if !w'.clobbered {
      SavedLog(w, w.taken.value.0, w.taken.value.1);
      SaveKeeps(e, w, w.taken.value.0, w.taken.value.1, w');
    }
  }

  lemma OpsGrow(e: Setting, w: World, o: Outcome)
    requires Valid(e, w) && |w.ops| < |Applied(w.log)| && o == OutcomeAt(e.config, Applied(w.log), |w.ops|)
             && o.Handled?
    ensures Valid(e, w.(ops := w.ops + [o]))
  {
    EntityKeeps(e, w, w.(ops := w.ops + [o]));
  }

  lemma ApplyKeeps(e: Setting, w: World)
    requires Valid(e, w)
    ensures Valid(e, Do(e, w, Apply))
  {
    if |w.ops| < |Applied(w.log)| && OutcomeAt(e.config, Applied(w.log), |w.ops|).Handled? {
      OpsGrow(e, w, OutcomeAt(e.config, Applied(w.log), |w.ops|));
    }
  }

  lemma CountersKeep(e: Setting, w: World, w': World)
    requires Valid(e, w)
    requires w' == w.(waiter := w'.waiter, published := w'.published, replied := w'.replied, answered := w'.answered)
    requires w'.replied <= w'.published <= |w'.ops|
    ensures Valid(e, w')
  {
    EntityKeeps(e, w, w');
  }

  lemma LoopEventKeeps(e: Setting, w: World, ev: Event)
    requires Valid(e, w) && (ev.Park? || ev.FreeWaiter? || ev.Publish? || ev.MarkReply?)
    ensures Valid(e, Do(e, w, ev))
  {
    CountersKeep(e, w, Do(e, w, ev));
  }

  lemma SavePositions(w: World, at: nat, m: Message)
    requires Positions(w)
    ensures Positions(Save(w, at, m)) && (w.clobbered ==> Save(w, at, m).clobbered)
  {
  }

  lemma CallPositions(e: Setting, w: World, ev: Event)
    requires OfCall(ev)
    ensures var w' := Do(e, w, ev);
            w' == w.(calls := w'.calls, buffer := w'.buffer)
  {
  }

  lemma OtherPositions(e: Setting, w: World, ev: Event)
    requires Positions(w) && !OfCall(ev) && ev != Land && ev != Record
    ensures Positions(Do(e, w, ev)) && Do(e, w, ev).clobbered == w.clobbered
  {
  }

  lemma PositionsKeep(e: Setting, w: World, ev: Event)
    requires Positions(w)
    ensures Positions(Do(e, w, ev)) && (w.clobbered ==> Do(e, w, ev).clobbered)
  {
    if OfCall(ev) {
      CallPositions(e, w, ev);
    } else if ev == Land {
      if |w.landing| > 0 { SavePositions(w, w.landing[0].0, w.landing[0].1); }
    } else if ev == Record {
      if w.taken.Some? { SavePositions(w, w.taken.value.0, w.taken.value.1); }
    } else {
      OtherPositions(e, w, ev);
    }
  }

  lemma EventKeeps(e: Setting, w: World, ev: Event)
    requires Sound(e, w)
    ensures Sound(e, Do(e, w, ev))
  {
    PositionsKeep(e, w, ev);
    if !w.clobbered {
      match ev
      case Land => if |w.landing| > 0 { LandKeeps(e, w); }
      case Record => if w.taken.Some? { RecordKeeps(e, w); }
      case Reply => ReplyKeeps(e, w);
      case CallStep(_, _) => CallEventKeeps(e, w, ev);
      case CallCrash(_) => CallEventKeeps(e, w, ev);
      case LandReply(_) => CallEventKeeps(e, w, ev);
      case Reclaim(_) => CallEventKeeps(e, w, ev);
      case DropReply(_) => CallEventKeeps(e, w, ev);
      case Park => LoopEventKeeps(e, w, ev);
      case FreeWaiter => LoopEventKeeps(e, w, ev);
      case Apply => ApplyKeeps(e, w);
      case Publish => LoopEventKeeps(e, w, ev);
      case MarkReply => LoopEventKeeps(e, w, ev);
      case _ => MessageEventKeeps(e, w, ev);
    }
  }

  lemma {:induction false} RunKeeps(e: Setting, w: World, evs: seq<Event>)
    requires Sound(e, w)
    ensures Sound(e, Run(e, w, evs))
    decreases |evs|
  {
    if evs != [] {
      EventKeeps(e, w, evs[0]);
      RunKeeps(e, Do(e, w, evs[0]), evs[1..]);
    }
  }

  lemma StartSound(e: Setting)
    ensures Sound(e, Start())
  {
  }

  // ---- the theorems --------------------------------------------------------------------------

  /** Call `c`'s op is applied by the entity exactly once, as message `k`. */
  ghost predicate AppliedAs(e: Setting, w: World, c: CallId, k: nat) {
    && k < |w.ops| && k < |Applied(w.log)| && Applied(w.log)[k] == MessageOf(e, c)
    && forall j | 0 <= j < |Applied(w.log)| && Applied(w.log)[j].id == Some(c) :: j == k
  }

  lemma AnsweredOnce(e: Setting, w: World, c: CallId, v: Value) returns (k: nat)
    requires Valid(e, w) && Answers(Applied(w.log), w.ops, c, v)
    ensures AppliedAs(e, w, c, k) && w.ops[k].Handled? && w.ops[k].result == v
  {
    var msgs := Applied(w.log);
    var k' :| 0 <= k' < |w.ops| && k' < |msgs| && msgs[k'].Op? && msgs[k'].id == Some(c) && w.ops[k'].Handled?
      && w.ops[k'].result == v;
    k := k';
    var i :| 0 <= i < |w.log| && w.log[i] == msgs[k];
    assert Genuine(e, w.calls, w.log[i]);
    AppliedOnce(w.log);
  }

  /**
   * Exactly once, end to end: whatever crashed and however often ops were re-sent, as long as no
   * record of the entity's waits has been overwritten, every value a call has returned is the result
   * recorded for its op, which the entity has applied exactly once.
   */
  lemma CallsExactlyOnce(e: Setting, evs: seq<Event>, c: CallId, j: nat)
    requires var w := Run(e, Start(), evs); !w.clobbered && c in w.calls && j < |w.calls[c].returned|
    ensures var w := Run(e, Start(), evs);
            exists k: nat :: AppliedAs(e, w, c, k) && w.ops[k].Handled? && w.ops[k].result == w.calls[c].returned[j]
  {
    StartSound(e);
    RunKeeps(e, Start(), evs);
    var w := Run(e, Start(), evs);
    assert CallOk(e, w, c, w.calls[c]);
    var k := AnsweredOnce(e, w, c, w.calls[c].returned[j]);
  }

  /**
   * The entity's state is the fold of its handlers over the messages given to it with wake-ups and
   * repeated ids dropped; what `getState` reads is that fold, up to the last op published.
   */
  lemma StateIsFold(e: Setting, evs: seq<Event>)
    requires !Run(e, Start(), evs).clobbered
    ensures var w := Run(e, Start(), evs); var msgs := Applied(w.log);
            && |w.ops| <= |msgs|
            && (forall k: nat | k < |w.ops| :: w.ops[k].Handled? && w.ops[k] == OutcomeAt(e.config, msgs, k))
            && w.published <= |w.ops| && (w.published > 0 ==> Published(e, w) == StateAt(e.config, msgs, w.published))
            && forall i, j | 0 <= i < j < |msgs| && msgs[i].id.Some? :: msgs[i].id != msgs[j].id
  {
    StartSound(e);
    RunKeeps(e, Start(), evs);
    AppliedOnce(Run(e, Start(), evs).log);
  }

  /**
   * Nothing sent goes missing: once a call's op has been sent, it is in the buffer, on its way into
   * the log, in the log, or lost with a process that died between taking it and recording it. When
   * nothing is left to do and nothing was lost, the entity has applied it exactly once.
   */
  lemma SentIsApplied(e: Setting, evs: seq<Event>, c: CallId)
    requires var w := Run(e, Start(), evs);
             !w.clobbered && c in w.calls && (w.calls[c].intent == Pending(true) || w.calls[c].intent == Noted)
    ensures var w := Run(e, Start(), evs);
            && Held(w, MessageOf(e, c))
            && (w.buffer == [] && w.taken == None && w.landing == [] && MessageOf(e, c) !in w.lost && Idle(w)
                ==> exists k: nat :: AppliedAs(e, w, c, k))
  {
    StartSound(e);
    RunKeeps(e, Start(), evs);
    var w := Run(e, Start(), evs);
    assert CallOk(e, w, c, w.calls[c]);
    if w.buffer == [] && w.taken == None && w.landing == [] && MessageOf(e, c) !in w.lost && Idle(w) {
      assert MessageOf(e, c) in w.log;
      var i :| 0 <= i < |w.log| && w.log[i] == MessageOf(e, c);
      assert Has(w.log, c);
      GivenIsApplied(w.log, c);
      var k :| 0 <= k < |Applied(w.log)| && Applied(w.log)[k].Op? && Applied(w.log)[k].id == Some(c);
      var v := w.ops[k].result;
      assert Answers(Applied(w.log), w.ops, c, v);
      var k' := AnsweredOnce(e, w, c, v);
    }
  }

  // ---- where it stops holding ----------------------------------------------------------------

  /** A message on its way to the record of wait `p`: taken from the buffer, or with a delivery. */
  predicate InHand(w: World, p: nat, m: Message) { w.taken == Some((p, m)) || (p, m) in w.landing }

  /** Whatever is in hand for a wait is what the wait has recorded, or what everything else in hand for it says. */
  ghost predicate Consistent(w: World) {
    && !w.clobbered && Positions(w)
    && (forall p: nat, m | InHand(w, p, m) && p < |w.log| :: w.log[p] == m)
    && (forall m, x | InHand(w, |w.log|, m) && InHand(w, |w.log|, x) :: m == x)
  }

  /** The message a step takes in hand, and for which wait. */
  function Incoming(w: World, ev: Event): Option<(nat, Message)> {
    match ev
    case Deliver(m) =>
      if w.waiter.Some? && (m.Nudge? || (m.id == None && m.reply == None)) then Some((w.waiter.value, m)) else None
    case Pair => if w.waiter.Some? && |w.buffer| > 0 then Some((w.waiter.value, w.buffer[0])) else None
    case TakeNext => if Idle(w) && w.taken == None && |w.buffer| > 0 then Some((|w.log|, w.buffer[0])) else None
    case _ => None
  }

  /** Another message is recorded for that wait already, or in hand for it. */
  ghost predicate Clashes(w: World, p: nat, m: Message) {
    (p < |w.log| && w.log[p] != m) || exists x :: InHand(w, p, x) && x != m
  }

  /** A step takes a message for a wait that has another. */
  ghost predicate Disorderly(w: World, ev: Event) {
    Incoming(w, ev).Some? && Clashes(w, Incoming(w, ev).value.0, Incoming(w, ev).value.1)
  }

  ghost predicate OrderlyRun(e: Setting, w: World, evs: seq<Event>)
    decreases |evs|
  {
    evs == [] || (!Disorderly(w, evs[0]) && OrderlyRun(e, Do(e, w, evs[0]), evs[1..]))
  }

  /** Steps that only save what is in hand. */
  predicate OnlySaves(evs: seq<Event>) { forall k | 0 <= k < |evs| :: evs[k] == Land || evs[k] == Record }

  /** Saving what is in hand, in whatever order, overwrites no record. */
  ghost predicate Safe(e: Setting, w: World) { forall saves | OnlySaves(saves) :: !Run(e, w, saves).clobbered }

  ghost predicate AlwaysSafe(e: Setting, w: World, evs: seq<Event>)
    decreases |evs|
  {
    Safe(e, w) && (evs == [] || AlwaysSafe(e, Do(e, w, evs[0]), evs[1..]))
  }

  lemma SaveInHand(w: World, p: nat, m: Message, w': World)
    requires Consistent(w) && InHand(w, p, m) && p <= |w.log|
    requires w' == Save(w, p, m).(taken := w'.taken, landing := w'.landing)
    requires forall q: nat, x | InHand(w', q, x) :: InHand(w, q, x)
    ensures Consistent(w')
  {
    forall q: nat, x | InHand(w', q, x) && q < |w'.log| ensures w'.log[q] == x {
      if q == |w.log| { assert x == m; }
    }
    assert p < |w.log| ==> w.log[p := m] == w.log;
    forall k | 0 <= k < |w'.landing| ensures w'.landing[k].0 <= |w'.log| {
      assert InHand(w', w'.landing[k].0, w'.landing[k].1);
      Reached(w, w'.landing[k].0, w'.landing[k].1);
    }
    if w'.taken.Some? {
      assert InHand(w', w'.taken.value.0, w'.taken.value.1);
      Reached(w, w'.taken.value.0, w'.taken.value.1);
    }
  }

  lemma Reached(w: World, p: nat, m: Message)
    requires Positions(w) && InHand(w, p, m)
    ensures p <= |w.log|
  {
    if (p, m) in w.landing {
      var k :| 0 <= k < |w.landing| && w.landing[k] == (p, m);
    }
  }

  lemma SavesStayConsistent(e: Setting, w: World, ev: Event)
    requires Consistent(w) && (ev == Land || ev == Record)
    ensures Consistent(Do(e, w, ev))
  {
    if ev == Land && |w.landing| > 0 {
      assert w.landing[0] in w.landing && InHand(w, w.landing[0].0, w.landing[0].1);
      SaveInHand(w, w.landing[0].0, w.landing[0].1, Do(e, w, Land));
    }
    if ev == Record && w.taken.Some? {
      assert InHand(w, w.taken.value.0, w.taken.value.1);
      SaveInHand(w, w.taken.value.0, w.taken.value.1, Do(e, w, Record));
    }
  }

  lemma TakesInHand(e: Setting, w: World, ev: Event, p: nat, m: Message)
    requires Consistent(w) && Incoming(w, ev) == Some((p, m))
    ensures var w' := Do(e, w, ev);
            && w'.log == w.log && Positions(w') && !w'.clobbered && p <= |w.log|
            && forall q: nat, x :: InHand(w', q, x) <==> InHand(w, q, x) || (q == p && x == m)
  {
  }

  /** A step that takes nothing in hand and saves nothing adds nothing. */
  lemma OthersStayConsistent(e: Setting, w: World, ev: Event)
    requires Consistent(w) && Incoming(w, ev) == None && ev != Land && ev != Record
    ensures Consistent(Do(e, w, ev))
  {
    if OfCall(ev) {
      CallPositions(e, w, ev);
      assert forall q: nat, x | InHand(Do(e, w, ev), q, x) :: InHand(w, q, x);
    } else {
      OtherPositions(e, w, ev);
      OthersAddNothing(e, w, ev);
    }
  }

  lemma OthersAddNothing(e: Setting, w: World, ev: Event)
    requires Incoming(w, ev) == None && ev != Land && ev != Record && !OfCall(ev)
    ensures var w' := Do(e, w, ev); w'.log == w.log && forall q: nat, x | InHand(w', q, x) :: InHand(w, q, x)
  {
  }

  /** A step keeps what is in hand consistent exactly when it is not disorderly. */
  lemma StepIsOrderly(e: Setting, w: World, ev: Event)
    requires Consistent(w)
    ensures Consistent(Do(e, w, ev)) <==> !Disorderly(w, ev)
  {
    if Incoming(w, ev).Some? {
      IncomingIsOrderly(e, w, ev, Incoming(w, ev).value.0, Incoming(w, ev).value.1);
    } else if ev == Land || ev == Record {
      SavesStayConsistent(e, w, ev);
    } else {
      OthersStayConsistent(e, w, ev);
    }
  }

  lemma IncomingIsOrderly(e: Setting, w: World, ev: Event, p: nat, m: Message)
    requires Consistent(w) && Incoming(w, ev) == Some((p, m))
    ensures Consistent(Do(e, w, ev)) <==> !Clashes(w, p, m)
  {
    var w' := Do(e, w, ev);
    TakesInHand(e, w, ev, p, m);
    assert InHand(w', p, m);
    assert forall x | InHand(w, p, x) :: InHand(w', p, x);
  }

  lemma {:induction false} ConsistentIsSafe(e: Setting, w: World, saves: seq<Event>)
    requires Consistent(w) && OnlySaves(saves)
    ensures !Run(e, w, saves).clobbered
    decreases |saves|
  {
    if saves != [] {
      SavesStayConsistent(e, w, saves[0]);
      ConsistentIsSafe(e, Do(e, w, saves[0]), saves[1..]);
    }
  }

  /** What one save leaves: the record it made, in a log that has only grown. */
  lemma SaveShows(w: World, p: nat, m: Message)
    requires p <= |w.log|
    ensures var s := Save(w, p, m); s.clobbered || (w.log <= s.log && p < |s.log| && s.log[p] == m)
  {
    assert p < |w.log| && w.log[p] == m ==> w.log[p := m] == w.log;
  }

  lemma {:induction false} StaysClobbered(e: Setting, w: World, evs: seq<Event>)
    requires Positions(w) && w.clobbered
    ensures Run(e, w, evs).clobbered
    decreases |evs|
  {
    if evs != [] {
      PositionsKeep(e, w, evs[0]);
      StaysClobbered(e, Do(e, w, evs[0]), evs[1..]);
    }
  }

  function Lands(n: nat): seq<Event> { seq(n, _ => Land) }

  /** Everything with a delivery saved: each message is where it belongs, unless one was overwritten. */
  lemma {:induction false} LandsShow(e: Setting, w: World)
    requires Positions(w)
    ensures var w' := Run(e, w, Lands(|w.landing|));
            w'.clobbered || (w.log <= w'.log && forall k | 0 <= k < |w.landing| ::
                w.landing[k].0 < |w'.log| && w'.log[w.landing[k].0] == w.landing[k].1)
    decreases |w.landing|
  {
    if w.landing != [] {
      var next := Do(e, w, Land);
      PositionsKeep(e, w, Land);
      SaveShows(w, w.landing[0].0, w.landing[0].1);
      assert Lands(|w.landing|)[1..] == Lands(|next.landing|);
      LandsShow(e, next);
      if next.clobbered {
        StaysClobbered(e, next, Lands(|next.landing|));
      } else {
        var w' := Run(e, next, Lands(|next.landing|));
        forall k | 0 <= k < |w.landing| && !w'.clobbered
          ensures w.landing[k].0 < |w'.log| && w'.log[w.landing[k].0] == w.landing[k].1
        {
          if k > 0 { assert next.landing[k - 1] == w.landing[k]; }
        }
      }
    }
  }

  /** Everything in hand saved. */
  lemma FlushShows(e: Setting, w: World) returns (saves: seq<Event>)
    requires Positions(w)
    ensures OnlySaves(saves)
    ensures var w' := Run(e, w, saves);
            w'.clobbered || (w.log <= w'.log && forall p: nat, m | InHand(w, p, m) :: p < |w'.log| && w'.log[p] == m)
  {
    var next := Do(e, w, Record);
    PositionsKeep(e, w, Record);
    if w.taken.Some? { SaveShows(w, w.taken.value.0, w.taken.value.1); }
    saves := [Record] + Lands(|w.landing|);
    assert saves[1..] == Lands(|next.landing|);
    LandsShow(e, next);
    if next.clobbered {
      StaysClobbered(e, next, saves[1..]);
    } else {
      var w' := Run(e, next, saves[1..]);
      forall p: nat, m | InHand(w, p, m) && !w'.clobbered ensures p < |w'.log| && w'.log[p] == m {
        if (p, m) in w.landing {
          var k :| 0 <= k < |w.landing| && w.landing[k] == (p, m);
          assert next.landing[k] == (p, m);
        }
      }
    }
  }

  /** What is in hand can be saved without overwriting a record exactly when it is consistent. */
  lemma SafeIff(e: Setting, w: World)
    requires Positions(w) && !w.clobbered
    ensures Safe(e, w) <==> Consistent(w)
  {
    if Consistent(w) {
      forall saves | OnlySaves(saves) ensures !Run(e, w, saves).clobbered { ConsistentIsSafe(e, w, saves); }
    } else {
      var saves := FlushShows(e, w);
      assert Run(e, w, saves).clobbered;
    }
  }

  lemma {:induction false} OrderlyIffFrom(e: Setting, w: World, evs: seq<Event>)
    requires Consistent(w)
    ensures OrderlyRun(e, w, evs) <==> AlwaysSafe(e, w, evs)
    decreases |evs|
  {
    SafeIff(e, w);
    if evs != [] {
      var next := Do(e, w, evs[0]);
      StepIsOrderly(e, w, evs[0]);
      if Disorderly(w, evs[0]) {
        PositionsKeep(e, w, evs[0]);
        NotOverwrittenYet(e, w, evs[0]);
        SafeIff(e, next);
      } else {
        OrderlyIffFrom(e, next, evs[1..]);
      }
    }
  }

  lemma NotOverwrittenYet(e: Setting, w: World, ev: Event)
    requires Consistent(w) && Disorderly(w, ev)
    ensures !Do(e, w, ev).clobbered
  {
    TakesInHand(e, w, ev, Incoming(w, ev).value.0, Incoming(w, ev).value.1);
  }

  /**
   * The exact order of steps: at no point of a run can saving what is in hand overwrite a record, if
   * and only if no step of it takes a message for a wait that has another one recorded or in hand. So
   * every disorderly step has a continuation that overwrites, and no orderly run does.
   */
  lemma OrderlyIff(e: Setting, evs: seq<Event>)
    ensures OrderlyRun(e, Start(), evs) <==> AlwaysSafe(e, Start(), evs)
  {
    OrderlyIffFrom(e, Start(), evs);
  }

  lemma {:induction false} NothingOverwritten(e: Setting, w: World, evs: seq<Event>)
    requires Consistent(w) && OrderlyRun(e, w, evs)
    ensures !Run(e, w, evs).clobbered
    decreases |evs|
  {
    if evs != [] {
      StepIsOrderly(e, w, evs[0]);
      NothingOverwritten(e, Do(e, w, evs[0]), evs[1..]);
    }
  }

  /** In an orderly run every call that returns has had its op applied exactly once, and returns its result. */
  lemma OrderlyExactlyOnce(e: Setting, evs: seq<Event>, c: CallId, j: nat)
    requires OrderlyRun(e, Start(), evs)
    requires var w := Run(e, Start(), evs); c in w.calls && j < |w.calls[c].returned|
    ensures var w := Run(e, Start(), evs);
            exists k: nat :: AppliedAs(e, w, c, k) && w.ops[k].Handled? && w.ops[k].result == w.calls[c].returned[j]
  {
    NothingOverwritten(e, Start(), evs);
    CallsExactlyOnce(e, evs, c, j);
  }

  /** And the entity's state is the fold of its handlers over the messages given to it, each op once. */
  lemma OrderlyStateIsFold(e: Setting, evs: seq<Event>)
    requires OrderlyRun(e, Start(), evs)
    ensures var w := Run(e, Start(), evs); var msgs := Applied(w.log);
            && |w.ops| <= |msgs| && w.published <= |w.ops|
            && (forall k: nat | k < |w.ops| :: w.ops[k].Handled? && w.ops[k] == OutcomeAt(e.config, msgs, k))
            && (w.published > 0 ==> Published(e, w) == StateAt(e.config, msgs, w.published))
            && forall i, j | 0 <= i < j < |msgs| && msgs[i].id.Some? :: msgs[i].id != msgs[j].id
  {
    NothingOverwritten(e, Start(), evs);
    StateIsFold(e, evs);
  }

  lemma {:induction false} RunMore(e: Setting, w: World, evs: seq<Event>, ev: Event)
    ensures Run(e, w, evs + [ev]) == Do(e, Run(e, w, evs), ev)
    decreases |evs|
  {
    if evs == [] {
      assert [ev][1..] == [];
    } else {
      assert (evs + [ev])[1..] == evs[1..] + [ev];
      RunMore(e, Do(e, w, evs[0]), evs[1..], ev);
    }
  }

  /** One more event of a run from the start. */
  lemma Then(e: Setting, evs: seq<Event>, w: World, ev: Event) returns (evs': seq<Event>, w': World)
    requires w == Run(e, Start(), evs)
    ensures evs' == evs + [ev] && w' == Do(e, w, ev) == Run(e, Start(), evs')
  {
    RunMore(e, Start(), evs, ev);
    evs', w' := evs + [ev], Do(e, w, ev);
  }

  function SentWorld(e: Setting, c: CallId): World {
    Set(Start().(buffer := [MessageOf(e, c)], waiter := Some(0)), c, Fresh().(waiter := true, intent := Pending(true)))
  }

  /** The entity waits, and the call's op reaches its buffer. */
  lemma SentRun(e: Setting, c: CallId) returns (evs: seq<Event>, w: World)
    requires e.request(c).awaited
    ensures w == Run(e, Start(), evs) == SentWorld(e, c)
  {
    evs, w := Then(e, [], Start(), Park);
    assert w == Start().(waiter := Some(0));
    evs, w := Then(e, evs, w, CallStep(c, true));
    assert w == Set(Start().(waiter := Some(0)), c, Fresh().(waiter := true, pc := WaiterPut));
    evs, w := Then(e, evs, w, CallStep(c, true));
    assert w == Set(Start().(waiter := Some(0)), c, Fresh().(waiter := true, intent := Pending(false), pc := Sending));
    evs, w := Then(e, evs, w, CallStep(c, true));
    assert w == Set(Start().(waiter := Some(0), buffer := [MessageOf(e, c)]), c,
             Fresh().(waiter := true, intent := Pending(false), pc := Enqueued));
    evs, w := Then(e, evs, w, CallStep(c, true));
  }

  /**
   * An op can be lost: the buffer is read destructively and the wait recorded after, so a turn that
   * dies in between drops an op whose call has marked it sent, and which is never sent again.
   */
  lemma OpLostRun(e: Setting, c: CallId) returns (evs: seq<Event>)
    requires e.request(c).awaited
    ensures var w := Run(e, Start(), evs);
            && !w.clobbered && c in w.calls && w.calls[c].intent == Pending(true)
            && w.log == [] && w.buffer == [] && w.taken == None && w.landing == [] && MessageOf(e, c) in w.lost
  {
    var w;
    evs, w := SentRun(e, c);
    evs, w := Then(e, evs, w, TakeNext);
    assert w == SentWorld(e, c).(buffer := [], taken := Some((0, MessageOf(e, c))));
    evs, w := Then(e, evs, w, EntityCrash);
  }

  lemma OneApplied(e: Setting, m: Message)
    requires m.Op?
    ensures Applied([m]) == [m] && OutcomeAt(e.config, [m], 0) == e.config.handle(e.config.initial, m.op, m.arg)
  {
    assert [m][..0] == [];
    assert Applied([]) == [];
    assert StateAt(e.config, [m], 0) == Some(e.config.initial);
  }

  function GivenWorld(e: Setting, c: CallId): World { SentWorld(e, c).(buffer := [], log := [MessageOf(e, c)]) }

  lemma GivenRun(e: Setting, c: CallId) returns (evs: seq<Event>, w: World)
    requires e.request(c).awaited
    ensures w == Run(e, Start(), evs) == GivenWorld(e, c)
  {
    evs, w := SentRun(e, c);
    evs, w := Then(e, evs, w, TakeNext);
    assert w == SentWorld(e, c).(buffer := [], taken := Some((0, MessageOf(e, c))));
    evs, w := Then(e, evs, w, Record);
  }

  function PublishedWorld(e: Setting, c: CallId, o: Outcome): World { GivenWorld(e, c).(ops := [o], published := 1) }

  lemma PublishedRun(e: Setting, c: CallId, o: Outcome) returns (evs: seq<Event>, w: World)
    requires e.request(c).awaited && o.Handled?
             && o == e.config.handle(e.config.initial, e.request(c).op, e.request(c).arg)
    ensures w == Run(e, Start(), evs) == PublishedWorld(e, c, o)
  {
    evs, w := GivenRun(e, c);
    OneApplied(e, MessageOf(e, c));
    evs, w := Then(e, evs, w, Apply);
    assert w == GivenWorld(e, c).(ops := [o]);
    evs, w := Then(e, evs, w, Publish);
  }

  /** The published world with call `c` as `k`, the reply sent. */
  function AnsweredWorld(e: Setting, c: CallId, o: Outcome, k: Call): World {
    Set(PublishedWorld(e, c, o).(answered := true), c, k)
  }

  lemma ReplySent(e: Setting, c: CallId, o: Outcome)
    requires e.request(c).awaited && o.Handled?
    ensures Do(e, PublishedWorld(e, c, o), Reply)
            == AnsweredWorld(e, c, o, Fresh().(intent := Pending(true), flying := [o.result]))
  {
    var w := PublishedWorld(e, c, o);
    OneApplied(e, MessageOf(e, c));
    assert Applied(w.log) == [MessageOf(e, c)];
    assert CallOf(w, c) == Fresh().(waiter := true, intent := Pending(true));
    assert [] + [o.result] == [o.result];
  }

  lemma ReplyLanded(e: Setting, c: CallId, o: Outcome)
    requires o.Handled?
    ensures Do(e, AnsweredWorld(e, c, o, Fresh().(intent := Pending(true), flying := [o.result])), LandReply(c))
            == AnsweredWorld(e, c, o, Fresh().(intent := Resolved(o.result)))
  {
    assert [o.result][1..] == [];
  }

  lemma CallReturned(e: Setting, c: CallId, o: Outcome)
    requires o.Handled?
    ensures Do(e, AnsweredWorld(e, c, o, Fresh().(intent := Resolved(o.result))), CallStep(c, true))
            == AnsweredWorld(e, c, o, Fresh().(intent := Resolved(o.result), returned := [o.result]))
  {
    assert [] + [o.result] == [o.result];
  }

  /** The call has returned its result; the waiter its entity registered at wait 0 is still there. */
  lemma ReturnedRun(e: Setting, c: CallId, o: Outcome) returns (evs: seq<Event>, w: World)
    requires e.request(c).awaited && o.Handled?
             && o == e.config.handle(e.config.initial, e.request(c).op, e.request(c).arg)
    ensures w == Run(e, Start(), evs)
            == AnsweredWorld(e, c, o, Fresh().(intent := Resolved(o.result), returned := [o.result]))
  {
    evs, w := PublishedRun(e, c, o);
    ReplySent(e, c, o);
    evs, w := Then(e, evs, w, Reply);
    ReplyLanded(e, c, o);
    evs, w := Then(e, evs, w, LandReply(c));
    CallReturned(e, c, o);
    evs, w := Then(e, evs, w, CallStep(c, true));
  }

  /**
   * And a record can be overwritten: a turn that reads its buffer before it parks leaves its earlier
   * waiter registered, so a later wake-up takes it and writes over the wait it has since recorded.
   * The call has returned its result, and the entity's log no longer holds the op.
   */
  lemma ClobberedRun(e: Setting, c: CallId, o: Outcome) returns (evs: seq<Event>)
    requires e.request(c).awaited && o.Handled?
             && o == e.config.handle(e.config.initial, e.request(c).op, e.request(c).arg)
    ensures var w := Run(e, Start(), evs);
            w.clobbered && c in w.calls && w.calls[c].returned == [o.result] && !Has(w.log, c)
  {
    var w;
    evs, w := ReturnedRun(e, c, o);
    evs, w := Then(e, evs, w, Deliver(Nudge));
    assert w.landing == [] + [(0, Nudge)];
    assert w.landing[0] == (0, Nudge) && w.log == [MessageOf(e, c)];
    evs, w := Then(e, evs, w, Land);
    assert w.log == [MessageOf(e, c)][0 := Nudge];
    assert w.log[0] == Nudge;
  }
}
