/**
 * Durable entities: a keyed actor that applies the ops sent to it one at a time, and the workflow
 * calls that send them. A crash may fall between any two writes of either side, and the sides
 * interleave freely.
 */
module Entities {
  import opened Common

  /** A call's stable id: the position of its run that makes it. */
  datatype CallId = CallId(runId: string, at: nat)

  /** `reply` names the call whose reply token receives the result. */
  datatype Message = Nudge | Op(op: string, arg: Value, id: Option<CallId>, reply: Option<CallId>)

  /** What a handler does to the state; a missing handler throws too. */
  datatype Outcome = Handled(result: Value, state: Value) | Thrown

  datatype Config = Config(initial: Value, handle: (Value, string, Value) -> Outcome)

  // ---- the loop, as functions of what it has been given --------------------------------------

  predicate Has(msgs: seq<Message>, id: CallId) {
    exists k :: 0 <= k < |msgs| && msgs[k].Op? && msgs[k].id == Some(id)
  }

  /** The loop passes over wake-ups and over copies of an op it has already applied. */
  predicate Skips(applied: seq<Message>, m: Message) { m.Nudge? || (m.id.Some? && Has(applied, m.id.value)) }

  /** The messages the loop applies, of those it has been given. */
  function Applied(log: seq<Message>): (msgs: seq<Message>)
    ensures |msgs| <= |log| && forall k | 0 <= k < |msgs| :: msgs[k].Op? && msgs[k] in log
  {
    if log == [] then []
    else
      var before, m := Applied(log[..|log| - 1]), log[|log| - 1];
      if Skips(before, m) then before else before + [m]
  }

  /** The state after the first `n` messages; `None` once a handler has thrown. */
  function StateAt(c: Config, msgs: seq<Message>, n: nat): Option<Value>
    requires n <= |msgs| && forall k | 0 <= k < |msgs| :: msgs[k].Op?
  {
    if n == 0 then Some(c.initial)
    else
      match StateAt(c, msgs, n - 1)
      case None => None
      case Some(s) =>
        match c.handle(s, msgs[n - 1].op, msgs[n - 1].arg)
        case Handled(_, s') => Some(s')
        case Thrown => None
  }

  /** What handling message `n` comes to. */
  function OutcomeAt(c: Config, msgs: seq<Message>, n: nat): Outcome
    requires n < |msgs| && forall k | 0 <= k < |msgs| :: msgs[k].Op?
  {
    match StateAt(c, msgs, n)
    case None => Thrown
    case Some(s) => c.handle(s, msgs[n].op, msgs[n].arg)
  }

  lemma {:induction false} AppliedPrefix(log: seq<Message>, more: seq<Message>)
    ensures Applied(log) <= Applied(log + more)
    decreases |more|
  {
    if more == [] {
      assert log + more == log;
    } else {
      AppliedPrefix(log, more[..|more| - 1]);
      assert (log + more)[..|log + more| - 1] == log + more[..|more| - 1];
    }
  }

  /** No op is applied twice. */
  lemma {:induction false} AppliedOnce(log: seq<Message>)
    ensures forall j, k | 0 <= j < k < |Applied(log)| :: Applied(log)[j].id.Some? ==>
              Applied(log)[j].id != Applied(log)[k].id
  {
    if log != [] { AppliedOnce(log[..|log| - 1]); }
  }

  /** Every op given is applied. */
  lemma {:induction false} GivenIsApplied(log: seq<Message>, id: CallId)
    requires Has(log, id)
    ensures Has(Applied(log), id)
  {
    var n := |log| - 1;
    var k :| 0 <= k <= n && log[k].Op? && log[k].id == Some(id);
    var before := Applied(log[..n]);
    if k < n {
      assert log[..n][k] == log[k];
      GivenIsApplied(log[..n], id);
      var j :| 0 <= j < |before| && before[j].Op? && before[j].id == Some(id);
      assert Applied(log)[j] == before[j];
    } else if !Skips(before, log[n]) {
      assert Applied(log)[|before|].id == Some(id);
    }
  }

  lemma AppliedWasGiven(log: seq<Message>, id: CallId)
    requires Has(Applied(log), id)
    ensures Has(log, id)
  {
    var msgs := Applied(log);
    var j :| 0 <= j < |msgs| && msgs[j].Op? && msgs[j].id == Some(id);
    assert msgs[j] in log;
  }

  /**
   * What the loop does with the next message: it is passed over exactly when it is a wake-up, or its id
   * came with an earlier message, and is applied after all the others otherwise.
   */
  lemma NextApplied(log: seq<Message>, m: Message)
    ensures Applied(log + [m])
            == if m.Nudge? || (m.id.Some? && exists k :: 0 <= k < |log| && log[k].Op? && log[k].id == m.id)
               then Applied(log) else Applied(log) + [m]
  {
    assert (log + [m])[..|log|] == log;
    if m.Op? && m.id.Some? {
      if Has(Applied(log), m.id.value) { AppliedWasGiven(log, m.id.value); }
      if Has(log, m.id.value) { GivenIsApplied(log, m.id.value); }
    }
  }

  lemma {:induction false} StatePrefix(c: Config, a: seq<Message>, b: seq<Message>, n: nat)
    requires a <= b && n <= |a| && forall k | 0 <= k < |b| :: b[k].Op?
    ensures forall k | 0 <= k < |a| :: a[k].Op?
    ensures StateAt(c, a, n) == StateAt(c, b, n)
  {
    assert forall k | 0 <= k < |a| :: a[k] == b[k];
    if n > 0 { StatePrefix(c, a, b, n - 1); }
  }

  // ---- the loop itself -----------------------------------------------------------------------

  /** The runner's loop state: carried forward, and rebuilt by replaying the recorded messages. */
  class Runner {
    const config: Config
    var state: Value
    var seen: set<CallId>
    ghost var log: seq<Message>

    /** The loop has handled what it was given without throwing, and holds what it must. */
    ghost predicate Valid()
      reads this
    {
      && StateAt(config, Applied(log), |Applied(log)|) == Some(state)
      && forall id: CallId :: id in seen <==> Has(Applied(log), id)
    }

    constructor (config: Config)
      ensures Valid() && this.config == config && log == [] && state == config.initial
    {
      this.config, state, seen, log := config, config.initial, {}, [];
    }

    /**
     * One message of the loop. `recorded` is what the op's checkpoint holds, if it has one: the
     * handler then does not run again.
     */
    method Receive(m: Message, recorded: Option<Outcome>) returns (o: Option<Outcome>)
      requires Valid()
      requires recorded.Some? && !Skips(Applied(log), m) ==>
                 recorded.value == OutcomeAt(config, Applied(log) + [m], |Applied(log)|)
      modifies this
      ensures log == old(log) + [m]
      ensures o == None <==> Skips(Applied(old(log)), m)
      ensures o.Some? ==>
                Applied(log) == Applied(old(log)) + [m]
                && o.value == OutcomeAt(config, Applied(log), |Applied(old(log))|)
      ensures o == None ==> Applied(log) == Applied(old(log)) && state == old(state)
      ensures !(o.Some? && o.value.Thrown?) ==> Valid()
    {
      ghost var was := log;
      log := log + [m];
      Given(was, m);
      if m.Nudge? {
        return None;
      }
      if m.id.Some? {
        if m.id.value in seen {
          return None;
        }
        seen := seen + {m.id.value};
      }
      ghost var applied := Applied(was);
      SeenGrows(applied, m);
      Handles(config, applied, m, state);
      assert Applied(log) == applied + [m];
      var out := if recorded.Some? then recorded.value else config.handle(state, m.op, m.arg);
      if out.Handled? {
        state := out.state;
      }
      o := Some(out);
    }
  }

  lemma Given(log: seq<Message>, m: Message)
    ensures Applied(log + [m]) == if Skips(Applied(log), m) then Applied(log) else Applied(log) + [m]
  {
    assert (log + [m])[..|log|] == log;
  }

  lemma Handles(c: Config, msgs: seq<Message>, m: Message, state: Value)
    requires m.Op? && (forall k | 0 <= k < |msgs| :: msgs[k].Op?) && StateAt(c, msgs, |msgs|) == Some(state)
    ensures OutcomeAt(c, msgs + [m], |msgs|) == c.handle(state, m.op, m.arg)
    ensures var out := c.handle(state, m.op, m.arg);
            out.Handled? ==> StateAt(c, msgs + [m], |msgs| + 1) == Some(out.state)
  {
    StatePrefix(c, msgs, msgs + [m], |msgs|);
  }

  lemma SeenGrows(before: seq<Message>, m: Message)
    requires m.Op?
    ensures forall id: CallId :: Has(before + [m], id) <==> Has(before, id) || m.id == Some(id)
  {
    forall id: CallId ensures Has(before + [m], id) <==> Has(before, id) || m.id == Some(id) {
      if Has(before, id) {
        var k :| 0 <= k < |before| && before[k].Op? && before[k].id == Some(id);
        assert (before + [m])[k] == before[k];
      }
      if m.id == Some(id) { assert (before + [m])[|before|] == m; }
    }
  }

  lemma OutcomesPrefix(c: Config, a: seq<Message>, b: seq<Message>)
    requires a <= b && forall k | 0 <= k < |b| :: b[k].Op?
    ensures forall k | 0 <= k < |a| :: a[k].Op?
    ensures forall k: nat | k < |a| :: OutcomeAt(c, a, k) == OutcomeAt(c, b, k)
  {
    assert forall k | 0 <= k < |a| :: a[k] == b[k];
    forall k: nat | k < |a| ensures OutcomeAt(c, a, k) == OutcomeAt(c, b, k) {
      StatePrefix(c, a, b, k);
    }
  }

  lemma {:induction false} ThrownStays(c: Config, a: seq<Message>, b: seq<Message>, n: nat)
    requires a <= b && n < |a| && forall k | 0 <= k < |b| :: b[k].Op?
    requires forall k | 0 <= k < |a| :: a[k].Op?
    requires OutcomeAt(c, a, n).Thrown?
    ensures StateAt(c, b, |b|) == None
  {
    OutcomesPrefix(c, a, b);
    ThrownFrom(c, b, n, |b|);
  }

  lemma {:induction false} ThrownFrom(c: Config, b: seq<Message>, n: nat, m: nat)
    requires n < m <= |b| && forall k | 0 <= k < |b| :: b[k].Op?
    requires OutcomeAt(c, b, n).Thrown?
    ensures StateAt(c, b, m) == None
  {
    if m > n + 1 { ThrownFrom(c, b, n, m - 1); }
  }

  /** Every message was handled, with these results. */
  ghost predicate AllHandled(c: Config, msgs: seq<Message>, results: seq<Value>) {
    && |results| == |msgs| && (forall k | 0 <= k < |msgs| :: msgs[k].Op?)
    && forall k: nat | k < |msgs| :: OutcomeAt(c, msgs, k).Handled? && OutcomeAt(c, msgs, k).result == results[k]
  }

  lemma HandledGrows(c: Config, msgs: seq<Message>, m: Message, results: seq<Value>, o: Outcome)
    requires AllHandled(c, msgs, results) && m.Op? && o.Handled? && o == OutcomeAt(c, msgs + [m], |msgs|)
    ensures AllHandled(c, msgs + [m], results + [o.result])
  {
    OutcomesPrefix(c, msgs, msgs + [m]);
  }

  /** From the initial state, each handler takes its op to its result and the next state. */
  predicate Chain(c: Config, msgs: seq<Message>, results: seq<Value>, states: seq<Value>) {
    && |states| == |msgs| + 1 && |results| == |msgs| && states[0] == c.initial
    && forall k | 0 <= k < |msgs| ::
       msgs[k].Op? && c.handle(states[k], msgs[k].op, msgs[k].arg) == Handled(results[k], states[k + 1])
  }

  lemma {:induction false} ChainOf(c: Config, msgs: seq<Message>, results: seq<Value>) returns (states: seq<Value>)
    requires AllHandled(c, msgs, results)
    ensures Chain(c, msgs, results, states) && StateAt(c, msgs, |msgs|) == Some(states[|msgs|])
  {
    if msgs == [] {
      states := [c.initial];
    } else {
      var n := |msgs| - 1;
      OutcomesPrefix(c, msgs[..n], msgs);
      var before := ChainOf(c, msgs[..n], results[..n]);
      StatePrefix(c, msgs[..n], msgs, n);
      assert OutcomeAt(c, msgs, n).Handled? && OutcomeAt(c, msgs, n).result == results[n];
      states := before + [c.handle(before[n], msgs[n].op, msgs[n].arg).state];
      forall k | 0 <= k < n ensures c.handle(states[k], msgs[k].op, msgs[k].arg) == Handled(results[k], states[k + 1]) {
        assert msgs[..n][k] == msgs[k] && results[..n][k] == results[k];
      }
    }
  }

  /** The loop over everything it has been given, from the start: a replay. */
  method Replay(config: Config, log: seq<Message>) returns (state: Option<Value>, results: seq<Value>)
    ensures state == StateAt(config, Applied(log), |Applied(log)|)
    ensures state.Some? ==> AllHandled(config, Applied(log), results)
    ensures state.Some? ==>
              exists states :: Chain(config, Applied(log), results, states) && states[|Applied(log)|] == state.value
  {
    var runner := new Runner(config);
    results := [];
    var i := 0;
    while i < |log|
      invariant 0 <= i <= |log| && fresh(runner) && runner.Valid() && runner.config == config && runner.log == log[..i]
      invariant AllHandled(config, Applied(runner.log), results)
    {
      ghost var was := runner.log;
      var o := runner.Receive(log[i], None);
      assert runner.log == log[..i + 1];
      if o.Some? {
        if o.value.Thrown? {
          ThrownForGood(config, log, i, |Applied(was)|);
          return None, [];
        }
        HandledGrows(config, Applied(was), log[i], results, o.value);
        results := results + [o.value.result];
      }
      i := i + 1;
    }
    assert log[..i] == log;
    state := Some(runner.state);
    ghost var states := ChainOf(config, Applied(log), results);
  }

  lemma ThrownForGood(c: Config, log: seq<Message>, i: nat, n: nat)
    requires i < |log| && n < |Applied(log[..i + 1])| && OutcomeAt(c, Applied(log[..i + 1]), n).Thrown?
    ensures StateAt(c, Applied(log), |Applied(log)|) == None
  {
    AppliedPrefix(log[..i + 1], log[i + 1..]);
    assert log[..i + 1] + log[i + 1..] == log;
    ThrownStays(c, Applied(log[..i + 1]), Applied(log), n);
  }
}
