/** Where replay stops being deterministic, and that it is nowhere else. */
module ReplayLimits {
  import opened Common
  import opened Replay
  import opened ReplayRuns
  import ReplayProofs

  lemma Four(e: Setting, s: System, a: Event, b: Event, c: Event, d: Event)
    ensures Run(e, s, [a, b, c, d]) == Do(e, Do(e, Do(e, Do(e, s, a), b), c), d)
  {
    var s1, s2 := Do(e, s, a), Do(e, Do(e, s, a), b);
    assert [a, b, c, d][1..] == [b, c, d] && [b, c, d][1..] == [c, d] && [c, d][1..] == [d];
    assert Run(e, s, [a, b, c, d]) == Run(e, s1, [b, c, d]);
    assert Run(e, s1, [b, c, d]) == Run(e, s2, [c, d]);
    assert Run(e, s2, [c, d]) == Run(e, Do(e, s2, c), [d]);
    assert [d][1..] == [];
    assert Run(e, Do(e, s2, c), [d]) == Do(e, Do(e, s2, c), d);
  }

  /** Waits for child `id`, then publishes a value under a key that says how it failed. */
  function TellsFailuresApart(id: string, f: Failure, v: Value): Body {
    (h: seq<Result>) =>
      if |h| == 0 then Call(Child(Some(id)))
      else if |h| == 1 then (if h[0] == Threw(f) then Call(SetEvent("as notified", v))
          else Call(SetEvent("as recovered", v)))
      else Return(v)
  }

  function Waiting(id: string): Checkpoint { Checkpoint("signal:child:" + id, Running, Nothing, None) }

  function Told(id: string, f: Failure): Checkpoint { Instant("signal:child:" + id, Settled(Err(f))) }

  function Published(v: Value): Checkpoint { Instant("event:" + "as recovered", Output(v)) }

  /** The parent registers its wait for a child that is already running. */
  lemma ParentRegisters(e: Setting, id: string, f: Failure, v: Value) returns (s: System)
    requires e.body == TellsFailuresApart(id, f, v) && !e.track
    ensures s == Run(e, Start("r"), [StartChild(id), Begin, Proceed(Succeeds(v)), Proceed(Succeeds(v))])
    ensures s == System(World("r", map[0 := Waiting(id)], map[id := 0], map[], map[id := InFlight], 0,
                              Active(map[0 := Waiting(id)], 0, [], Registered)), {}, [], [], [])
  {
    var go := Proceed(Succeeds(v));
    Four(e, Start("r"), StartChild(id), Begin, go, go);
    s := Do(e, Do(e, Do(e, Do(e, Start("r"), StartChild(id)), Begin), go), go);
  }

  /** The child settles and takes the waiter; the parent finds nothing buffered and reads the row. */
  lemma ParentReadsRow(e: Setting, id: string, f: Failure, v: Value, s: System) returns (s': System)
    requires e.body == TellsFailuresApart(id, f, v) && !e.track && e.outcome(id) == Err(f)
    requires s == System(World("r", map[0 := Waiting(id)], map[id := 0], map[], map[id := InFlight], 0,
                               Active(map[0 := Waiting(id)], 0, [], Registered)), {}, [], [], [])
    ensures s' == Run(e, s, [SettleChild(id), TakeWaiter(id), Proceed(Succeeds(v)), Proceed(Succeeds(v))])
    ensures s' == System(World("r", map[0 := Waiting(id)], map[], map[], map[id := Terminal(Err(f))], 0,
                               Active(map[0 := Waiting(id)], 0, [], Resolving(FromRow(Err(f))))), {(0, id)}, [], [], [])
  {
    var go := Proceed(Succeeds(v));
    Four(e, s, SettleChild(id), TakeWaiter(id), go, go);
    var s2 := SettlesAndTakes(e, id, f, s);
    s' := FindsRow(e, id, f, v, s2);
  }

  lemma SettlesAndTakes(e: Setting, id: string, f: Failure, s: System) returns (s': System)
    requires e.outcome(id) == Err(f)
    requires s == System(World("r", map[0 := Waiting(id)], map[id := 0], map[], map[id := InFlight], 0,
                               Active(map[0 := Waiting(id)], 0, [], Registered)), {}, [], [], [])
    ensures s' == Do(e, Do(e, s, SettleChild(id)), TakeWaiter(id))
    ensures s' == System(World("r", map[0 := Waiting(id)], map[], map[], map[id := Terminal(Err(f))], 0,
                               Active(map[0 := Waiting(id)], 0, [], Registered)), {(0, id)}, [], [], [])
  {
    s' := Do(e, Do(e, s, SettleChild(id)), TakeWaiter(id));
    assert s'.world.waiters == map[];
  }

  lemma FindsRow(e: Setting, id: string, f: Failure, v: Value, s: System) returns (s': System)
    requires e.body == TellsFailuresApart(id, f, v)
    requires s == System(World("r", map[0 := Waiting(id)], map[], map[], map[id := Terminal(Err(f))], 0,
                               Active(map[0 := Waiting(id)], 0, [], Registered)), {(0, id)}, [], [], [])
    ensures s' == Do(e, Do(e, s, Proceed(Succeeds(v))), Proceed(Succeeds(v)))
    ensures s' == s.(world := At(s.world, Resolving(FromRow(Err(f)))))
  {
    var s1 := Do(e, s, Proceed(Succeeds(v)));
    assert s1 == s.(world := At(s.world, Unbuffered));
    s' := Do(e, s1, Proceed(Succeeds(v)));
  }

  lemma RecoversFromRow(e: Setting, id: string, f: Failure, v: Value, s: System) returns (s': System)
    requires e.body == TellsFailuresApart(id, f, v) && !e.track
    requires s == System(World("r", map[0 := Waiting(id)], map[], map[], map[id := Terminal(Err(f))], 0,
                               Active(map[0 := Waiting(id)], 0, [], Resolving(FromRow(Err(f))))), {(0, id)}, [], [], [])
    ensures s' == Do(e, Do(e, s, Proceed(Succeeds(v))), Proceed(Succeeds(v)))
    ensures s'.landing == {(0, id)} && s'.world.runId == "r"
    ensures var cp := Told(id, FromRow(Err(f)).failure);
            s'.world.journal == map[0 := cp]
            && s'.world.turn == Active(map[0 := cp], 1, [Threw(FromRow(Err(f)).failure)], Ready)
  {
    var s1 := Do(e, s, Proceed(Succeeds(v)));
    assert s1 == s.(world := At(s.world, Recording(FromRow(Err(f)))));
    s' := Do(e, s1, Proceed(Succeeds(v)));
  }

  /** The parent records what the row says and publishes; the notification overwrites the record. */
  lemma NotificationOverwrites(e: Setting, id: string, f: Failure, v: Value, s: System) returns (s': System)
    requires e.body == TellsFailuresApart(id, f, v) && !e.track && e.outcome(id) == Err(f) && FromRow(Err(f)) != Err(f)
    requires s == System(World("r", map[0 := Waiting(id)], map[], map[], map[id := Terminal(Err(f))], 0,
                               Active(map[0 := Waiting(id)], 0, [], Resolving(FromRow(Err(f))))), {(0, id)}, [], [], [])
    ensures s' == Run(e, s, [Proceed(Succeeds(v)), Proceed(Succeeds(v)), Proceed(Succeeds(v)), Land(0, id)])
    ensures s'.world.journal == map[0 := Told(id, f), 1 := Published(v)]
  {
    var go := Proceed(Succeeds(v));
    Four(e, s, go, go, go, Land(0, id));
    var s2 := RecoversFromRow(e, id, f, v, s);
    var s3 := Publishes(e, id, f, v, s2);
    s' := Do(e, s3, Land(0, id));
    Overwritten(e, id, f, v, s3);
  }

  lemma Overwritten(e: Setting, id: string, f: Failure, v: Value, s: System)
    requires e.outcome(id) == Err(f) && (0, id) in s.landing
    requires s.world.journal == map[0 := Told(id, FromRow(Err(f)).failure)][1 := Published(v)]
    ensures Do(e, s, Land(0, id)).world.journal == map[0 := Told(id, f), 1 := Published(v)]
  {
  }

  lemma Publishes(e: Setting, id: string, f: Failure, v: Value, s: System) returns (s': System)
    requires e.body == TellsFailuresApart(id, f, v) && FromRow(Err(f)) != Err(f) && s.world.runId == "r"
    requires var cp := Told(id, FromRow(Err(f)).failure);
             s.world.journal == map[0 := cp]
               && s.world.turn == Active(map[0 := cp], 1, [Threw(FromRow(Err(f)).failure)], Ready)
    ensures s' == Do(e, s, Proceed(Succeeds(v))) && s'.landing == s.landing
    ensures s'.world.journal == s.world.journal[1 := Published(v)]
  {
    assert e.body(s.world.turn.trace) == Call(SetEvent("as recovered", v));
    s' := Do(e, s, Proceed(Succeeds(v)));
  }

  /** The next turn is told of the failure as notified, and asks for another event name. */
  lemma NextTurnDiffers(e: Setting, id: string, f: Failure, v: Value, s: System)
    requires e.body == TellsFailuresApart(id, f, v) && !e.track
    requires s.world.journal == map[0 := Told(id, f), 1 := Published(v)]
    ensures Run(e, s, [Crash, Begin, Proceed(Succeeds(v)), Proceed(Succeeds(v))]).world.turn == Idle(NonDeterminism)
  {
    var go := Proceed(Succeeds(v));
    var s2 := Do(e, Do(e, s, Crash), Begin);
    assert s2.world.turn == Active(s.world.journal, 0, [], Ready);
    var s3 := Do(e, s2, go);
    assert s3.world.turn == Active(s.world.journal, 1, [Threw(f)], Ready);
    KeysDiffer(e, id, f, v, s3);
    Four(e, s, Crash, Begin, go, go);
  }

  lemma KeysDiffer(e: Setting, id: string, f: Failure, v: Value, s: System)
    requires e.body == TellsFailuresApart(id, f, v)
    requires s.world.turn.Active? && s.world.turn.pos == 1 && s.world.turn.trace == [Threw(f)]
             && s.world.turn.pc == Ready
    requires 1 in s.world.turn.snapshot && s.world.turn.snapshot[1] == Published(v)
    ensures Do(e, s, Proceed(Succeeds(v))).world.turn == Idle(NonDeterminism)
  {
    assert ("event:" + "as notified")[9] != ("event:" + "as recovered")[9];
  }

  /**
   * A child settles while its parent is between registering the wait and reading the row: the parent
   * resolves from the row, the notification then overwrites the checkpoint, and the next turn is told
   * the `code` and `details` the first one was not.
   */
  lemma LossyRun(outcome: string -> Completion, id: string, v: Value) returns (e: Setting, evs: seq<Event>)
    requires FromRow(outcome(id)) != Notified(outcome(id))
    ensures e.outcome == outcome && CatchesNoFailedStep(e.body)
    ensures Run(e, Start("r"), evs).world.turn == Idle(NonDeterminism)
  {
    var f := outcome(id).failure;
    e := Setting(TellsFailuresApart(id, f, v), false, outcome);
    var go := Proceed(Succeeds(v));
    var s4 := ParentRegisters(e, id, f, v);
    var s8 := ParentReadsRow(e, id, f, v, s4);
    var s12 := NotificationOverwrites(e, id, f, v, s8);
    NextTurnDiffers(e, id, f, v, s12);
    var a, b, c, d := [StartChild(id), Begin, go, go], [SettleChild(id), TakeWaiter(id), go, go],
                      [go, go, go, Land(0, id)], [Crash, Begin, go, go];
    evs := a + (b + (c + d));
    ReplayProofs.RunSplits(e, Start("r"), a, b + (c + d));
    ReplayProofs.RunSplits(e, s4, b, c + d);
    ReplayProofs.RunSplits(e, s8, c, d);
  }

  /** The guard never fires, whatever the body, exactly when every child's row says as much as its notification. */
  lemma DeterministicIffLossless(outcome: string -> Completion, runId: string)
    ensures (forall e: Setting, evs: seq<Event> | e.outcome == outcome && CatchesNoFailedStep(e.body) ::
               Run(e, Start("r"), evs).world.turn != Idle(NonDeterminism))
            <==> Lossless(outcome)
  {
    if Lossless(outcome) {
      forall e: Setting, evs: seq<Event> | e.outcome == outcome && CatchesNoFailedStep(e.body)
        ensures Run(e, Start("r"), evs).world.turn != Idle(NonDeterminism)
      {
        ReplayProofs.ReplayDeterminism(e, "r", evs, []);
      }
    } else {
      var id :| FromRow(outcome(id)) != Notified(outcome(id));
      var v: Value :| true;
      var e, evs := LossyRun(outcome, id, v);
    }
  }

  /** A child's row loses nothing exactly when the child completed, or failed with neither code nor details. */
  lemma LosslessChild(o: Completion)
    ensures FromRow(o) == Notified(o) <==> (o.Err? ==> o.failure.code == None && o.failure.details == None)
  {
  }

  /** Carries on after a failed step, and differently from how it carries on after a successful one. */
  function CatchesAndBranches(v: Value): Body {
    (h: seq<Result>) =>
      if |h| == 0 then Call(LocalStep("charge", 1))
      else if |h| == 1 then (if h[0].Threw? then Call(LocalStep("apologise", 1)) else Call(LocalStep("ship", 1)))
      else Return(v)
  }

  /** The first turn: the step fails for good, and the body goes on to apologise. */
  lemma FirstTurnApologises(e: Setting, v: Value, f: Failure) returns (s: System)
    requires e.body == CatchesAndBranches(v) && !e.track
    ensures s == Run(e, Start("r"), [Begin, Proceed(Succeeds(v)), Proceed(Fails(f, true)), Proceed(Succeeds(v))])
    ensures s.world.turn == Active(map[], 1, [Threw(f)], Ready)
    ensures s.world.runId == "r" && s.world.journal == map[0 := Checkpoint("charge", Failed, Nothing, None)]
  {
    var go, fail := Proceed(Succeeds(v)), Proceed(Fails(f, true));
    Four(e, Start("r"), Begin, go, fail, go);
    s := Do(e, Do(e, Do(e, Do(e, Start("r"), Begin), go), fail), go);
  }

  lemma ApologyRecorded(e: Setting, v: Value, f: Failure, s: System) returns (s': System)
    requires e.body == CatchesAndBranches(v) && !e.track
    requires s.world.turn == Active(map[], 1, [Threw(f)], Ready)
    requires s.world.runId == "r" && s.world.journal == map[0 := Checkpoint("charge", Failed, Nothing, None)]
    ensures s' == Run(e, s, [Proceed(Succeeds(v)), Proceed(Succeeds(v)), Proceed(Succeeds(v)), Crash])
    ensures s'.world.runId == "r" && s'.world.turn == Idle(Died)
    ensures s'.world.journal
            == map[0 := Checkpoint("charge", Failed, Nothing, None), 1 := Instant("apologise", Output(v))]
  {
    var go := Proceed(Succeeds(v));
    Four(e, s, go, go, go, Crash);
    s' := Do(e, Do(e, Do(e, Do(e, s, go), go), go), Crash);
  }

  /** On replay the step succeeds, and the body goes on to ship. */
  lemma SecondTurnShips(e: Setting, v: Value, s: System) returns (s': System)
    requires e.body == CatchesAndBranches(v) && !e.track
    requires s.world.runId == "r" && s.world.turn == Idle(Died)
    requires s.world.journal
             == map[0 := Checkpoint("charge", Failed, Nothing, None), 1 := Instant("apologise", Output(v))]
    ensures s' == Run(e, s, [Begin, Proceed(Succeeds(v)), Proceed(Succeeds(v)), Proceed(Succeeds(v))])
    ensures s'.world.turn == Active(s.world.journal, 1, [Got(v)], Ready)
  {
    var go := Proceed(Succeeds(v));
    Four(e, s, Begin, go, go, go);
    s' := Do(e, Do(e, Do(e, Do(e, s, Begin), go), go), go);
  }

  lemma GuardFires(e: Setting, v: Value, s: System)
    requires e.body == CatchesAndBranches(v)
    requires s.world.turn.Active? && s.world.turn.pos == 1 && s.world.turn.trace == [Got(v)] && s.world.turn.pc == Ready
    requires 1 in s.world.turn.snapshot && s.world.turn.snapshot[1] == Instant("apologise", Output(v))
    ensures Run(e, s, [Proceed(Succeeds(v))]).world.turn == Idle(NonDeterminism)
  {
    assert Run(e, s, [Proceed(Succeeds(v))]) == Do(e, s, Proceed(Succeeds(v)));
    assert "apologise" != "ship";
  }

  /** A failed step the body catches runs again on replay, and may then succeed. */
  lemma CaughtStepRun(outcome: string -> Completion, v: Value, f: Failure) returns (e: Setting, evs: seq<Event>)
    ensures e.outcome == outcome && !CatchesNoFailedStep(e.body)
    ensures Run(e, Start("r"), evs).world.turn == Idle(NonDeterminism)
  {
    e := Setting(CatchesAndBranches(v), false, outcome);
    assert [] + [Threw(f)] == [Threw(f)];
    assert e.body([]).Call? && e.body([Threw(f)]).Call?;
    var go, fail := Proceed(Succeeds(v)), Proceed(Fails(f, true));
    var s4 := FirstTurnApologises(e, v, f);
    var s8 := ApologyRecorded(e, v, f, s4);
    var s12 := SecondTurnShips(e, v, s8);
    GuardFires(e, v, s12);
    var a, b, c, d := [Begin, go, fail, go], [go, go, go, Crash], [Begin, go, go, go], [go];
    evs := a + (b + (c + d));
    ReplayProofs.RunSplits(e, Start("r"), a, b + (c + d));
    ReplayProofs.RunSplits(e, s4, b, c + d);
    ReplayProofs.RunSplits(e, s8, c, d);
  }
}
