/** Replay determinism over every interleaving of turns, crashes, children and deliveries. */
module ReplayProofs {
  import opened Common
  import opened Replay
  import opened ReplayRuns

  /** What one event may do to what has been observed. */
  ghost predicate Grows(s: System, s': System) {
    && s.observed <= s'.observed
    && s.ran <= s'.ran
    && (forall k | |s.ran| <= k < |s'.ran| :: s'.ran[k] >= |s.observed|)
    && s'.world.runId == s.world.runId
    && s.world.clock <= s'.world.clock
  }

  lemma Prefixes(a: seq<Result>, b: seq<Result>)
    requires a <= b
    ensures forall n: nat | n <= |a| :: b[..n] == a[..n]
  {
  }

  /** A position stays backed while its checkpoint and the past are untouched. */
  lemma StillBacked(e: Setting, s: System, s': System, j: map<nat, Checkpoint>, j': map<nat, Checkpoint>, at: nat)
    requires at < |s.observed| && Backed(e, s, j, at)
    requires s.observed <= s'.observed && s'.world.runId == s.world.runId && s.world.clock <= s'.world.clock
    requires at in j' && j'[at] == j[at]
    ensures Backed(e, s', j', at)
  {
    Prefixes(s.observed, s'.observed);
  }

  /** Once a turn has returned, the body has nothing left to call. */
  lemma NotReturned(e: Setting, s: System)
    requires Valid(e, s)
    ensures Calls(e, s.observed) ==> s.returned == []
  {
    if s.returned != [] {
      assert e.body(s.observed) == Return(s.returned[0]);
    }
  }

  lemma PastKept(e: Setting, s: System, s': System)
    requires forall at: nat | at < |s.observed| :: Backed(e, s, s.world.journal, at)
    requires s.observed <= s'.observed && s'.world.runId == s.world.runId && s.world.clock <= s'.world.clock
    requires forall at: nat | at < |s.observed| && at in s.world.journal ::
               at in s'.world.journal && s'.world.journal[at] == s.world.journal[at]
    ensures forall at: nat | at < |s.observed| :: Backed(e, s', s'.world.journal, at)
  {
    forall at: nat | at < |s.observed| ensures Backed(e, s', s'.world.journal, at) {
      assert Backed(e, s, s.world.journal, at);
      StillBacked(e, s, s', s.world.journal, s'.world.journal, at);
    }
  }

  /** The turn is walking a prefix it has already lived through: nothing but the turn changes. */
  lemma ReplayKeeps(e: Setting, s: System, r: Result)
    requires Valid(e, s) && OnTrack(e, s) && s.world.turn.pc == Ready && s.world.turn.pos < |s.observed|
    requires r == s.observed[s.world.turn.pos]
    ensures Valid(e, s.(world := Yield(s.world, r)))
  {
    var s' := s.(world := Yield(s.world, r));
    ReplayOnTrack(e, s, s');
    PastKept(e, s, s');
  }

  lemma ReplayOnTrack(e: Setting, s: System, s': System)
    requires OnTrack(e, s) && s.world.turn.pc == Ready && s.world.turn.pos < |s.observed|
    requires s' == s.(world := Yield(s.world, s.observed[s.world.turn.pos]))
    ensures OnTrack(e, s')
  {
    var t := s.world.turn;
    assert s.observed[..t.pos + 1] == s.observed[..t.pos] + [s.observed[t.pos]];
    forall at: nat | t.pos < at < |s.observed| ensures at in t.snapshot && Backed(e, s', t.snapshot, at) {
      assert Backed(e, s, t.snapshot, at);
      StillBacked(e, s, s', t.snapshot, t.snapshot, at);
    }
  }

  /** `j` with at most its entry at the frontier replaced, by a checkpoint the primitive there writes. */
  ghost predicate Touches(e: Setting, s: System, j: map<nat, Checkpoint>, j': map<nat, Checkpoint>) {
    && Calls(e, s.observed)
    && (forall at: nat | at in j && at < |s.observed| :: at in j' && j'[at] == j[at])
    && (forall at: nat | at in j' && !(at in j && j'[at] == j[at]) ::
          at == |s.observed| && Written(e, s.world.runId, OpAt(e, s.observed), at, j'[at]))
  }

  lemma TouchedJournaled(e: Setting, s: System, s': System, j: map<nat, Checkpoint>, j': map<nat, Checkpoint>)
    requires Journaled(e, s, j) && Touches(e, s, j, j')
    requires s.observed <= s'.observed && s'.world.runId == s.world.runId
    ensures Journaled(e, s', j')
  {
    Prefixes(s.observed, s'.observed);
    assert s.observed[..|s.observed|] == s.observed;
    forall at: nat | at in j'
      ensures at <= |s'.observed| && Calls(e, s'.observed[..at])
      ensures Written(e, s'.world.runId, OpAt(e, s'.observed[..at]), at, j'[at])
    {
      assert s'.observed[..at] == s.observed[..at];
    }
  }

  lemma AwaitedStill(e: Setting, s: System, s': System, at: nat, id: string)
    requires AwaitedAt(e, s, at, id)
    requires s.observed <= s'.observed && s'.world.runId == s.world.runId
    ensures AwaitedAt(e, s', at, id)
  {
    Prefixes(s.observed, s'.observed);
  }

  lemma DeliveriesStill(e: Setting, s: System, s': System)
    requires Deliveries(e, s)
    requires s.observed <= s'.observed && s'.world.runId == s.world.runId
    requires s'.world.waiters == s.world.waiters && s'.landing == s.landing
    requires s'.world.buffered == s.world.buffered && s'.world.rows == s.world.rows
    ensures Deliveries(e, s')
  {
    forall id | id in s'.world.waiters ensures AwaitedAt(e, s', s'.world.waiters[id], id) {
      AwaitedStill(e, s, s', s.world.waiters[id], id);
    }
    forall d | d in s'.landing ensures AwaitedAt(e, s', d.0, d.1) {
      AwaitedStill(e, s, s', d.0, d.1);
    }
  }

  /** The turn has reached the first position no turn has got past, and the body calls a primitive there. */
  ghost predicate AtFrontier(e: Setting, s: System) {
    && Valid(e, s) && OnTrack(e, s)
    && s.world.turn.pos == |s.observed| && s.world.turn.trace == s.observed
    && Calls(e, s.observed)
  }

  function Wrote(j: map<nat, Checkpoint>, at: nat, cp: Option<Checkpoint>): map<nat, Checkpoint> {
    if cp.Some? then j[at := cp.value] else j
  }

  ghost predicate FrontierWrite(e: Setting, s: System, cp: Option<Checkpoint>) {
    Calls(e, s.observed) && (cp.Some? ==> Written(e, s.world.runId, OpAt(e, s.observed), |s.observed|, cp.value))
  }

  /** `w` is `s` after an operation at the frontier that may have written `cp` there. */
  ghost predicate Moved(e: Setting, s: System, w: World, cp: Option<Checkpoint>) {
    && w.runId == s.world.runId && w.clock == s.world.clock
    && w.journal == Wrote(s.world.journal, |s.observed|, cp)
    && FrontierWrite(e, s, cp)
    && Deliveries(e, s.(world := w))
  }

  lemma WroteTouches(e: Setting, s: System, j: map<nat, Checkpoint>, cp: Option<Checkpoint>)
    requires FrontierWrite(e, s, cp)
    ensures Touches(e, s, j, Wrote(j, |s.observed|, cp))
  {
  }

  lemma Quietly(e: Setting, s: System, w: World, cp: Option<Checkpoint>)
    requires Deliveries(e, s) && FrontierWrite(e, s, cp)
    requires w == s.world.(journal := Wrote(s.world.journal, |s.observed|, cp), turn := w.turn)
    ensures Moved(e, s, w, cp)
  {
    assert Deliveries(e, s.(world := w));
  }

  /** Registering the waiter of the child awaited at the frontier. */
  lemma WaiterMoved(e: Setting, s: System, w: World, id: string)
    requires Deliveries(e, s) && Calls(e, s.observed) && AwaitedAt(e, s, |s.observed|, id)
    requires w == s.world.(waiters := s.world.waiters[id := |s.observed|], turn := w.turn)
    ensures Moved(e, s, w, None)
  {
    var s' := s.(world := w);
    forall i | i in w.waiters ensures AwaitedAt(e, s', w.waiters[i], i) {
      AwaitedStill(e, s, s', w.waiters[i], i);
    }
    forall d | d in s'.landing ensures AwaitedAt(e, s', d.0, d.1) {
      AwaitedStill(e, s, s', d.0, d.1);
    }
  }

  /** Removing a waiter, or the head of a buffer, leaves only what was there. */
  lemma LessMoved(e: Setting, s: System, w: World)
    requires Deliveries(e, s) && Calls(e, s.observed)
    requires w == s.world.(waiters := w.waiters, buffered := w.buffered, turn := w.turn)
    requires forall id | id in w.waiters :: id in s.world.waiters && w.waiters[id] == s.world.waiters[id]
    requires forall id | id in w.buffered :: id in s.world.buffered &&
               (w.buffered[id] == s.world.buffered[id]
                || (s.world.buffered[id] != [] && w.buffered[id] == s.world.buffered[id][1..]))
    ensures Moved(e, s, w, None)
  {
    var s' := s.(world := w);
    forall i | i in w.waiters ensures AwaitedAt(e, s', w.waiters[i], i) {
      AwaitedStill(e, s, s', w.waiters[i], i);
    }
    forall d | d in s'.landing ensures AwaitedAt(e, s', d.0, d.1) {
      AwaitedStill(e, s, s', d.0, d.1);
    }
  }

  lemma JournalMoved(e: Setting, s: System, w: World, cp: Option<Checkpoint>)
    requires Journaled(e, s, s.world.journal)
    requires forall at: nat | at < |s.observed| :: Backed(e, s, s.world.journal, at)
    requires Moved(e, s, w, cp)
    ensures Journaled(e, s.(world := w), w.journal)
    ensures forall at: nat | at < |s.observed| :: Backed(e, s.(world := w), w.journal, at)
  {
    var s' := s.(world := w);
    WroteTouches(e, s, s.world.journal, cp);
    TouchedJournaled(e, s, s', s.world.journal, w.journal);
    PastKept(e, s, s');
  }

  lemma SnapshotMoved(e: Setting, s: System, w: World, cp: Option<Checkpoint>, from: map<nat, Checkpoint>,
                      to: map<nat, Checkpoint>)
    requires Journaled(e, s, from) && Moved(e, s, w, cp)
    requires to == from || to == Wrote(from, |s.observed|, cp)
    ensures Journaled(e, s.(world := w), to)
  {
    WroteTouches(e, s, from, cp);
    assert Touches(e, s, from, from);
    TouchedJournaled(e, s, s.(world := w), from, to);
  }

  /** The turn stops at the frontier, by suspending. */
  lemma Stops(e: Setting, s: System, w: World, cp: Option<Checkpoint>)
    requires AtFrontier(e, s) && Moved(e, s, w, cp)
    requires w.turn.Idle? && w.turn.last != NonDeterminism
    ensures Valid(e, s.(world := w))
  {
    JournalMoved(e, s, w, cp);
  }

  ghost predicate Busy(e: Setting, s: System, pc: Pc)
    requires Calls(e, s.observed)
  {
    var op := OpAt(e, s.observed);
    match pc
    case Ready => false
    case Stepping(_) => op.LocalStep?
    case Stepped(_) => op.LocalStep?
    case StepFailing(_) => op.LocalStep?
    case Resolving(c) => op.Child? && c == Notified(e.outcome(IdOf(s.world.runId, op, |s.observed|)))
    case Recording(c) => op.Child? && c == Notified(e.outcome(IdOf(s.world.runId, op, |s.observed|)))
    case _ => op.Child?
  }

  lemma BusyOnTrack(e: Setting, s: System, pc: Pc)
    requires s.world.turn.Active? && s.world.turn.pc == pc && Calls(e, s.observed) && Busy(e, s, pc)
    requires s.world.turn.pos == |s.observed| && s.world.turn.trace == s.observed
    requires Journaled(e, s, s.world.turn.snapshot)
    ensures OnTrack(e, s)
  {
    assert s.observed[..|s.observed|] == s.observed;
  }

  /** The turn is still inside the primitive at the frontier. */
  lemma Continues(e: Setting, s: System, w: World, cp: Option<Checkpoint>, snapshot: map<nat, Checkpoint>, pc: Pc)
    requires AtFrontier(e, s) && Moved(e, s, w, cp) && Busy(e, s, pc)
    requires snapshot == s.world.turn.snapshot || snapshot == Wrote(s.world.turn.snapshot, |s.observed|, cp)
    requires w.turn == Active(snapshot, |s.observed|, s.observed, pc)
    ensures Valid(e, s.(world := w))
  {
    JournalMoved(e, s, w, cp);
    SnapshotMoved(e, s, w, cp, s.world.turn.snapshot, snapshot);
    BusyOnTrack(e, s.(world := w), pc);
  }

  /** A failed step leaves its checkpoint, and the turn nothing to do but throw. */
  lemma Fails(e: Setting, s: System, w: World, cp: Option<Checkpoint>, f: Failure)
    requires AtFrontier(e, s) && Moved(e, s, w, cp)
    requires w.turn.Active? && w.turn.trace == s.observed + [Threw(f)] && w.turn.pc == Ready
             && e.body(w.turn.trace).Throw?
    ensures Valid(e, s.(world := w))
  {
    JournalMoved(e, s, w, cp);
    assert w.turn.trace[..|w.turn.trace| - 1] == s.observed;
  }

  /** `s` with the result `r` at the frontier observed, the turn ready for the next primitive. */
  function Advanced(s: System, w: World, snapshot: map<nat, Checkpoint>, r: Result): System {
    s.(world := w.(turn := Active(snapshot, |s.observed| + 1, s.observed + [r], Ready)), observed := s.observed + [r])
  }

  lemma AdvancedBacked(e: Setting, s: System, s': System, r: Result)
    requires forall at: nat | at < |s.observed| :: Backed(e, s, s.world.journal, at)
    requires s'.observed == s.observed + [r] && Calls(e, s.observed)
    requires s'.world.runId == s.world.runId && s'.world.clock == s.world.clock
    requires Touches(e, s, s.world.journal, s'.world.journal)
    requires |s.observed| in s'.world.journal
    requires var op := OpAt(e, s.observed);
             Decide(op, NameOf(s.world.runId, op, |s.observed|), Some(s'.world.journal[|s.observed|]), s.world.clock)
               == Replayed(r)
    ensures forall at: nat | at < |s'.observed| :: Backed(e, s', s'.world.journal, at)
  {
    assert s'.observed[..|s.observed|] == s.observed;
    forall at: nat | at < |s'.observed| ensures Backed(e, s', s'.world.journal, at) {
      if at < |s.observed| {
        assert Backed(e, s, s.world.journal, at);
        StillBacked(e, s, s', s.world.journal, s'.world.journal, at);
      }
    }
  }

  lemma AdvancedOnTrack(e: Setting, s: System)
    requires s.world.turn.Active? && s.world.turn.pc == Ready
    requires s.world.turn.pos == |s.observed| && s.world.turn.trace == s.observed
    requires Journaled(e, s, s.world.turn.snapshot) && |s.observed| !in s.world.turn.snapshot
    ensures OnTrack(e, s)
  {
    assert s.observed[..|s.observed|] == s.observed;
  }

  /** The frontier moves: the journal now backs `r` at the position the body has just got past. */
  lemma Advances(e: Setting, s: System, w: World, cp: Option<Checkpoint>, snapshot: map<nat, Checkpoint>, r: Result)
    requires AtFrontier(e, s) && Moved(e, s, w, cp)
    requires snapshot == s.world.turn.snapshot || snapshot == Wrote(s.world.turn.snapshot, |s.observed|, cp)
    requires |s.observed| in w.journal
    requires var op := OpAt(e, s.observed);
             Decide(op, NameOf(s.world.runId, op, |s.observed|), Some(w.journal[|s.observed|]), s.world.clock)
               == Replayed(r)
    ensures Valid(e, Advanced(s, w, snapshot, r))
  {
    var s' := Advanced(s, w, snapshot, r);
    WroteTouches(e, s, s.world.journal, cp);
    TouchedJournaled(e, s, s', s.world.journal, w.journal);
    WroteTouches(e, s, s.world.turn.snapshot, cp);
    assert Touches(e, s, s.world.turn.snapshot, s.world.turn.snapshot);
    TouchedJournaled(e, s, s', s.world.turn.snapshot, snapshot);
    DeliveriesStill(e, s.(world := w), s');
    AdvancedBacked(e, s, s', r);
    AdvancedOnTrack(e, s');
    NotReturned(e, s);
  }

  // ---- one operation of the turn -------------------------------------------------------------

  /** A primitive at the frontier finds its result already in the journal. */
  lemma Found(e: Setting, s: System, r: Result)
    requires AtFrontier(e, s) && s.world.turn.pc == Ready
    requires var t := s.world.turn; var op := OpAt(e, s.observed);
             Decide(op, NameOf(s.world.runId, op, t.pos), Read(t.snapshot, s.world.journal, t.pos), s.world.clock)
               == Replayed(r)
    ensures Valid(e, Advanced(s, s.world, s.world.turn.snapshot, r))
  {
    FoundCurrent(e, s, r);
    assert Moved(e, s, s.world, None);
    Advances(e, s, s.world, None, s.world.turn.snapshot, r);
  }

  lemma FoundCurrent(e: Setting, s: System, r: Result)
    requires OnTrack(e, s) && Journaled(e, s, s.world.journal) && Calls(e, s.observed)
    requires s.world.turn.pc == Ready && s.world.turn.pos == |s.observed|
    requires var t := s.world.turn; var op := OpAt(e, s.observed);
             Decide(op, NameOf(s.world.runId, op, t.pos), Read(t.snapshot, s.world.journal, t.pos), s.world.clock)
               == Replayed(r)
    ensures |s.observed| in s.world.journal
    ensures var op := OpAt(e, s.observed);
            Decide(op, NameOf(s.world.runId, op, |s.observed|), Some(s.world.journal[|s.observed|]), s.world.clock)
              == Replayed(r)
  {
    var t := s.world.turn;
    assert s.observed[..|s.observed|] == s.observed;
    if t.pos in t.snapshot {
      assert Current(e, s, t.snapshot);
      assert Written(e, s.world.runId, OpAt(e, s.observed), t.pos, t.snapshot[t.pos]);
    }
    assert Written(e, s.world.runId, OpAt(e, s.observed), t.pos, s.world.journal[t.pos]);
  }

  /** A checkpoint at the frontier bears the name the primitive there expects. */
  lemma NamesMatch(e: Setting, s: System)
    requires AtFrontier(e, s)
    ensures var t := s.world.turn; var op := OpAt(e, s.observed);
            var existing := Read(t.snapshot, s.world.journal, t.pos);
            existing.Some? ==> existing.value.name == NameOf(s.world.runId, op, t.pos)
  {
    assert s.observed[..|s.observed|] == s.observed;
  }

  lemma ReadyKeeps(e: Setting, s: System, attempt: Attempt)
    requires AtFrontier(e, s) && s.world.turn.pc == Ready
    ensures Valid(e, Proceeded(e, s, attempt))
  {
    var w := s.world;
    var t := w.turn;
    var op := OpAt(e, s.observed);
    var decision := Decide(op, NameOf(w.runId, op, t.pos), Read(t.snapshot, w.journal, t.pos), w.clock);
    match decision {
      case Replayed(r) =>
        Found(e, s, r);
        ProceededAdvances(e, s, attempt, w, t.snapshot, r);
      case Mismatch => NamesMatch(e, s);
      case Parked(due) => SleepParks(e, s, attempt, due);
      case Fresh => FirstOperation(e, s, attempt);
    }
  }

  lemma SleepParks(e: Setting, s: System, attempt: Attempt, due: int)
    requires AtFrontier(e, s) && s.world.turn.pc == Ready
    requires var t := s.world.turn; var op := OpAt(e, s.observed);
             Decide(op, NameOf(s.world.runId, op, t.pos), Read(t.snapshot, s.world.journal, t.pos), s.world.clock)
               == Parked(due)
    ensures Valid(e, Proceeded(e, s, attempt))
  {
    var w' := Suspend(s.world, Some(due));
    Quietly(e, s, w', None);
    Stops(e, s, w', None);
    assert Proceeded(e, s, attempt) == s.(world := w');
  }

  /** `Proceeded` when the operation yields `r` at the frontier. */
  lemma ProceededAdvances(e: Setting, s: System, attempt: Attempt, w: World, snapshot: map<nat, Checkpoint>, r: Result)
    requires s.world.turn.Active? && s.world.turn.trace == s.observed && s.world.turn.pos == |s.observed|
             && Calls(e, s.observed)
    requires !s.world.turn.pc.StepFailing? && !s.world.turn.pc.Stepping?
    requires w.turn.Active? && w.turn.snapshot == snapshot && w.turn.pos == |s.observed| && w.turn.trace == s.observed
    requires Advance(s.world, OpAt(e, s.observed), e.track, attempt) == Yield(w, r)
    ensures Proceeded(e, s, attempt) == Advanced(s, w, snapshot, r)
  {
    assert (s.observed + [r])[..|s.observed|] == s.observed;
  }

  /** Nothing that decides is recorded at the frontier: the primitive starts. */
  lemma FirstOperation(e: Setting, s: System, attempt: Attempt)
    requires AtFrontier(e, s) && s.world.turn.pc == Ready
    requires var t := s.world.turn; var op := OpAt(e, s.observed);
             Decide(op, NameOf(s.world.runId, op, t.pos), Read(t.snapshot, s.world.journal, t.pos), s.world.clock)
               == Fresh
    ensures Valid(e, Proceeded(e, s, attempt))
  {
    var w := s.world;
    var t := w.turn;
    var op := OpAt(e, s.observed);
    var name := NameOf(w.runId, op, t.pos);
    match op {
      case LocalStep(_, _) => StepStarts(e, s, attempt);
      case Sleep(ms) => SleepStarts(e, s, attempt, Checkpoint(name, Completed, Nothing, Some(w.clock + ms)));
      case SetEvent(_, value) => EventSet(e, s, attempt, Instant(name, Output(value)));
      case Child(_) => ChildStarts(e, s, attempt);
    }
  }

  lemma StepStarts(e: Setting, s: System, attempt: Attempt)
    requires AtFrontier(e, s) && s.world.turn.pc == Ready && OpAt(e, s.observed).LocalStep?
    requires var t := s.world.turn; var op := OpAt(e, s.observed);
             Decide(op, NameOf(s.world.runId, op, t.pos), Read(t.snapshot, s.world.journal, t.pos), s.world.clock)
               == Fresh
    ensures Valid(e, Proceeded(e, s, attempt))
  {
    var w := s.world;
    var t := w.turn;
    var running := Checkpoint(NameOf(w.runId, OpAt(e, s.observed), t.pos), Running, Nothing, None);
    var cp := if e.track then Some(running) else None;
    var w' := At(w.(journal := Wrote(w.journal, t.pos, cp)), Stepping(1));
    Quietly(e, s, w', cp);
    Continues(e, s, w', cp, t.snapshot, Stepping(1));
  }

  lemma SleepComputed(e: Setting, s: System, attempt: Attempt, cp: Checkpoint)
    requires s.world.turn.Active? && s.world.turn.trace == s.observed && s.world.turn.pos == |s.observed|
             && s.world.turn.pc == Ready
    requires Calls(e, s.observed) && OpAt(e, s.observed).Sleep?
    requires cp == Checkpoint("sleep", Completed, Nothing, Some(s.world.clock + OpAt(e, s.observed).ms))
    requires var t := s.world.turn; var op := OpAt(e, s.observed);
             Decide(op, NameOf(s.world.runId, op, t.pos), Read(t.snapshot, s.world.journal, t.pos), s.world.clock)
               == Fresh
    ensures Proceeded(e, s, attempt) == s.(world := Suspend(Write(s.world, cp), cp.wakeAt))
  {
  }

  lemma SleepStarts(e: Setting, s: System, attempt: Attempt, cp: Checkpoint)
    requires AtFrontier(e, s) && s.world.turn.pc == Ready && OpAt(e, s.observed).Sleep?
    requires cp == Checkpoint("sleep", Completed, Nothing, Some(s.world.clock + OpAt(e, s.observed).ms))
    requires var t := s.world.turn; var op := OpAt(e, s.observed);
             Decide(op, NameOf(s.world.runId, op, t.pos), Read(t.snapshot, s.world.journal, t.pos), s.world.clock)
               == Fresh
    ensures Valid(e, Proceeded(e, s, attempt))
  {
    var w' := Suspend(Write(s.world, cp), cp.wakeAt);
    SleepComputed(e, s, attempt, cp);
    Quietly(e, s, w', Some(cp));
    Stops(e, s, w', Some(cp));
  }

  lemma EventSet(e: Setting, s: System, attempt: Attempt, cp: Checkpoint)
    requires AtFrontier(e, s) && s.world.turn.pc == Ready && OpAt(e, s.observed).SetEvent?
    requires var op := OpAt(e, s.observed); cp == Instant(NameOf(s.world.runId, op, |s.observed|), Output(op.value))
    requires var t := s.world.turn; var op := OpAt(e, s.observed);
             Decide(op, NameOf(s.world.runId, op, t.pos), Read(t.snapshot, s.world.journal, t.pos), s.world.clock)
               == Fresh
    ensures Valid(e, Proceeded(e, s, attempt))
  {
    var w' := Write(s.world, cp);
    Quietly(e, s, w', Some(cp));
    Advances(e, s, w', Some(cp), w'.turn.snapshot, Done);
    ProceededAdvances(e, s, attempt, w', w'.turn.snapshot, Done);
  }

  lemma ChildStarts(e: Setting, s: System, attempt: Attempt)
    requires AtFrontier(e, s) && s.world.turn.pc == Ready && OpAt(e, s.observed).Child?
    requires var t := s.world.turn; var op := OpAt(e, s.observed);
             Decide(op, NameOf(s.world.runId, op, t.pos), Read(t.snapshot, s.world.journal, t.pos), s.world.clock)
               == Fresh
    ensures Valid(e, Proceeded(e, s, attempt))
  {
    var w := s.world;
    var t := w.turn;
    if Read(t.snapshot, w.journal, t.pos).Some? {
      Quietly(e, s, At(w, Registered), None);
      Continues(e, s, At(w, Registered), None, t.snapshot, Registered);
    } else {
      ChildRegisters(e, s, attempt, IdOf(w.runId, OpAt(e, s.observed), t.pos));
    }
  }

  lemma ChildRegisters(e: Setting, s: System, attempt: Attempt, id: string)
    requires AtFrontier(e, s) && s.world.turn.pc == Ready && OpAt(e, s.observed).Child?
    requires id == IdOf(s.world.runId, OpAt(e, s.observed), |s.observed|)
    requires Read(s.world.turn.snapshot, s.world.journal, s.world.turn.pos) == None
    ensures Valid(e, Proceeded(e, s, attempt))
  {
    var w := s.world;
    var w' := At(w.(waiters := w.waiters[id := |s.observed|]), WaiterPut);
    assert s.observed[..|s.observed|] == s.observed;
    WaiterMoved(e, s, w', id);
    Continues(e, s, w', None, w.turn.snapshot, WaiterPut);
  }

  /** In the middle of a local step. */
  lemma StepKeeps(e: Setting, s: System, attempt: Attempt)
    requires CatchesNoFailedStep(e.body)
    requires AtFrontier(e, s)
    requires s.world.turn.pc.Stepping? || s.world.turn.pc.Stepped? || s.world.turn.pc.StepFailing?
    ensures Valid(e, Proceeded(e, s, attempt))
  {
    match s.world.turn.pc {
      case Stepping(_) => StepRuns(e, s, attempt);
      case Stepped(v) => StepRecords(e, s, attempt, v);
      case StepFailing(f) => StepFails(e, s, attempt, f);
      case _ =>
    }
  }

  /** The log of step bodies that ran is not part of the invariant. */
  lemma StillValid(e: Setting, s: System, ran: seq<nat>)
    requires Valid(e, s)
    ensures Valid(e, s.(ran := ran))
  {
    var s' := s.(ran := ran);
    forall at: nat | at < |s.observed| ensures Backed(e, s', s.world.journal, at) {
      assert Backed(e, s, s.world.journal, at);
    }
    if s.world.turn.Active? && OnTrack(e, s) {
      forall at: nat | s.world.turn.pos <= at < |s.observed|
        ensures at in s.world.turn.snapshot && Backed(e, s', s.world.turn.snapshot, at)
      {
        assert Backed(e, s, s.world.turn.snapshot, at);
      }
      assert OnTrack(e, s');
    }
  }

  function AfterAttempt(op: Op, n: nat, attempt: Attempt): Pc
    requires op.LocalStep?
  {
    match attempt
    case Succeeds(v) => Stepped(v)
    case Fails(f, fatal) => if fatal || n >= Attempts(op) then StepFailing(f) else Stepping(n + 1)
  }

  lemma StepComputed(e: Setting, s: System, attempt: Attempt)
    requires s.world.turn.Active? && s.world.turn.trace == s.observed && s.world.turn.pc.Stepping?
    requires Calls(e, s.observed) && OpAt(e, s.observed).LocalStep?
    ensures Proceeded(e, s, attempt)
         == s.(world := At(s.world, AfterAttempt(OpAt(e, s.observed), s.world.turn.pc.attempt, attempt)),
               ran := s.ran + [s.world.turn.pos])
  {
  }

  lemma StepRuns(e: Setting, s: System, attempt: Attempt)
    requires AtFrontier(e, s) && s.world.turn.pc.Stepping?
    ensures Valid(e, Proceeded(e, s, attempt))
  {
    var pc := AfterAttempt(OpAt(e, s.observed), s.world.turn.pc.attempt, attempt);
    var w' := At(s.world, pc);
    StepComputed(e, s, attempt);
    Quietly(e, s, w', None);
    Continues(e, s, w', None, s.world.turn.snapshot, pc);
    StillValid(e, s.(world := w'), s.ran + [s.world.turn.pos]);
  }

  lemma StepRecords(e: Setting, s: System, attempt: Attempt, v: Value)
    requires AtFrontier(e, s) && s.world.turn.pc == Stepped(v)
    ensures Valid(e, Proceeded(e, s, attempt))
  {
    var w := s.world;
    var cp := Instant(NameOf(w.runId, OpAt(e, s.observed), w.turn.pos), Output(v));
    var w' := w.(journal := w.journal[w.turn.pos := cp]);
    Quietly(e, s, w', Some(cp));
    Advances(e, s, w', Some(cp), w.turn.snapshot, Got(v));
    ProceededAdvances(e, s, attempt, w', w.turn.snapshot, Got(v));
  }

  lemma StepFails(e: Setting, s: System, attempt: Attempt, f: Failure)
    requires CatchesNoFailedStep(e.body)
    requires AtFrontier(e, s) && s.world.turn.pc == StepFailing(f)
    ensures Valid(e, Proceeded(e, s, attempt))
  {
    var w := s.world;
    var cp := Checkpoint(NameOf(w.runId, OpAt(e, s.observed), w.turn.pos), Failed, Nothing, None);
    var w' := Yield(w.(journal := w.journal[w.turn.pos := cp]), Threw(f));
    Quietly(e, s, w', Some(cp));
    Fails(e, s, w', Some(cp), f);
  }

  /** In the middle of a child call. */
  lemma ChildKeeps(e: Setting, s: System, attempt: Attempt)
    requires Lossless(e.outcome)
    requires AtFrontier(e, s) && s.world.turn.pc != Ready && OpAt(e, s.observed).Child?
    ensures Valid(e, Proceeded(e, s, attempt))
  {
    var w := s.world;
    var id := IdOf(w.runId, OpAt(e, s.observed), |s.observed|);
    match w.turn.pc {
      case Recording(c) => ChildRecords(e, s, attempt, c);
      case _ =>
        AwaitComputed(e, s, attempt, id);
        AwaitKeeps(e, s, id);
    }
  }

  lemma AwaitComputed(e: Setting, s: System, attempt: Attempt, id: string)
    requires s.world.turn.Active? && s.world.turn.trace == s.observed && s.world.turn.pos == |s.observed|
    requires Calls(e, s.observed) && OpAt(e, s.observed).Child?
             && id == IdOf(s.world.runId, OpAt(e, s.observed), |s.observed|)
    requires s.world.turn.pc != Ready && !s.world.turn.pc.Recording? && !s.world.turn.pc.Stepping?
    ensures Proceeded(e, s, attempt) == s.(world := Await(s.world, id, "signal:child:" + id))
  {
    match s.world.turn.pc {
      case WaiterPut =>
      case Registered =>
      case Unbuffered =>
      case _ =>
    }
  }

  lemma AwaitKeeps(e: Setting, s: System, id: string)
    requires Lossless(e.outcome)
    requires AtFrontier(e, s) && s.world.turn.pc != Ready && !s.world.turn.pc.Recording?
    requires OpAt(e, s.observed).Child? && id == IdOf(s.world.runId, OpAt(e, s.observed), |s.observed|)
    ensures Valid(e, s.(world := Await(s.world, id, "signal:child:" + id)))
  {
    match s.world.turn.pc {
      case WaiterPut => ChildPlaceholder(e, s, id);
      case Registered => ChildTakes(e, s, id);
      case Unbuffered => ChildLooks(e, s, id);
      case Resolving(c) => ChildFrees(e, s, id, c);
      case _ =>
    }
  }

  lemma ChildPlaceholder(e: Setting, s: System, id: string)
    requires AtFrontier(e, s) && s.world.turn.pc == WaiterPut
             && id == IdOf(s.world.runId, OpAt(e, s.observed), |s.observed|)
    ensures Valid(e, s.(world := Await(s.world, id, "signal:child:" + id)))
  {
    var cp := Checkpoint("signal:child:" + id, Running, Nothing, None);
    var w' := At(Write(s.world, cp), Registered);
    Quietly(e, s, w', Some(cp));
    Continues(e, s, w', Some(cp), w'.turn.snapshot, Registered);
  }

  lemma ChildTakes(e: Setting, s: System, id: string)
    requires AtFrontier(e, s) && s.world.turn.pc == Registered
             && id == IdOf(s.world.runId, OpAt(e, s.observed), |s.observed|)
    ensures Valid(e, s.(world := Await(s.world, id, "signal:child:" + id)))
  {
    var w := s.world;
    if id in w.buffered && |w.buffered[id]| > 0 {
      var c := w.buffered[id][0];
      var w' := At(w.(buffered := w.buffered[id := w.buffered[id][1..]]), Resolving(c));
      LessMoved(e, s, w');
      Continues(e, s, w', None, w.turn.snapshot, Resolving(c));
    } else {
      Quietly(e, s, At(w, Unbuffered), None);
      Continues(e, s, At(w, Unbuffered), None, w.turn.snapshot, Unbuffered);
    }
  }

  lemma ChildLooks(e: Setting, s: System, id: string)
    requires Lossless(e.outcome)
    requires AtFrontier(e, s) && s.world.turn.pc == Unbuffered
             && id == IdOf(s.world.runId, OpAt(e, s.observed), |s.observed|)
    ensures Valid(e, s.(world := Await(s.world, id, "signal:child:" + id)))
  {
    var w := s.world;
    if id in w.rows && w.rows[id].Terminal? {
      var c := FromRow(w.rows[id].outcome);
      Quietly(e, s, At(w, Resolving(c)), None);
      Continues(e, s, At(w, Resolving(c)), None, w.turn.snapshot, Resolving(c));
    } else {
      Quietly(e, s, Suspend(w, None), None);
      Stops(e, s, Suspend(w, None), None);
    }
  }

  lemma ChildFrees(e: Setting, s: System, id: string, c: Completion)
    requires AtFrontier(e, s) && s.world.turn.pc == Resolving(c)
             && id == IdOf(s.world.runId, OpAt(e, s.observed), |s.observed|)
    ensures Valid(e, s.(world := Await(s.world, id, "signal:child:" + id)))
  {
    var w' := Await(s.world, id, "signal:child:" + id);
    LessMoved(e, s, w');
    Continues(e, s, w', None, s.world.turn.snapshot, Recording(c));
  }

  lemma ChildRecords(e: Setting, s: System, attempt: Attempt, c: Completion)
    requires AtFrontier(e, s) && s.world.turn.pc == Recording(c)
    ensures Valid(e, Proceeded(e, s, attempt))
  {
    var w := s.world;
    var cp := Instant(NameOf(w.runId, OpAt(e, s.observed), w.turn.pos), Settled(c));
    var w' := Write(w, cp);
    Quietly(e, s, w', Some(cp));
    Advances(e, s, w', Some(cp), w'.turn.snapshot, Unwrap(Settled(c)));
    ProceededAdvances(e, s, attempt, w', w'.turn.snapshot, Unwrap(Settled(c)));
  }

  /** Short of the frontier, the body still has calls to make. */
  lemma CallsBelow(e: Setting, s: System)
    requires Valid(e, s) && OnTrack(e, s)
    ensures s.world.turn.pos < |s.observed| ==> Calls(e, s.world.turn.trace)
    ensures s.world.turn.pos == |s.observed| ==> s.world.turn.trace == s.observed
  {
    if s.world.turn.pos < |s.observed| {
      assert Backed(e, s, s.world.journal, s.world.turn.pos);
    }
    assert s.observed[..|s.observed|] == s.observed;
  }

  /** The turn is over and only it changed, besides what was returned. */
  lemma Ended(e: Setting, s: System, last: Stop, returned: seq<Value>)
    requires Valid(e, s) && last != NonDeterminism
    requires forall k | 0 <= k < |returned| :: e.body(s.observed) == Return(returned[k])
    ensures Valid(e, s.(world := s.world.(turn := Idle(last)), returned := returned))
  {
    var s' := s.(world := s.world.(turn := Idle(last)), returned := returned);
    PastKept(e, s, s');
  }

  /** The body returns or throws. */
  lemma EndKeeps(e: Setting, s: System, attempt: Attempt)
    requires Valid(e, s) && s.world.turn.Active? && !Calls(e, s.world.turn.trace)
    ensures Valid(e, Proceeded(e, s, attempt))
  {
    match e.body(s.world.turn.trace) {
      case Throw(f) => Ended(e, s, Thrown(f), s.returned);
      case Return(v) =>
        assert OnTrack(e, s);
        CallsBelow(e, s);
        Ended(e, s, Returned(v), s.returned + [v]);
      case Call(_) =>
    }
  }

  lemma ProceedKeeps(e: Setting, s: System, attempt: Attempt)
    requires CatchesNoFailedStep(e.body) && Lossless(e.outcome)
    requires Valid(e, s)
    ensures Valid(e, Proceeded(e, s, attempt))
  {
    var t := s.world.turn;
    if t.Active? {
      if !Calls(e, t.trace) {
        EndKeeps(e, s, attempt);
      } else {
        TurnKeeps(e, s, attempt);
      }
    }
  }

  lemma TurnKeeps(e: Setting, s: System, attempt: Attempt)
    requires CatchesNoFailedStep(e.body) && Lossless(e.outcome)
    requires Valid(e, s) && s.world.turn.Active? && Calls(e, s.world.turn.trace)
    ensures Valid(e, Proceeded(e, s, attempt))
  {
    var t := s.world.turn;
    assert OnTrack(e, s);
    assert s.observed[..|s.observed|] == s.observed;
    if t.pos < |s.observed| {
      ReplayComputed(e, s, attempt);
      ReplayKeeps(e, s, s.observed[t.pos]);
    } else if t.pc == Ready {
      ReadyKeeps(e, s, attempt);
    } else if t.pc.Stepping? || t.pc.Stepped? || t.pc.StepFailing? {
      StepKeeps(e, s, attempt);
    } else {
      ChildKeeps(e, s, attempt);
    }
  }

  lemma ReplayComputed(e: Setting, s: System, attempt: Attempt)
    requires OnTrack(e, s) && s.world.turn.pos < |s.observed|
    ensures Proceeded(e, s, attempt) == s.(world := Yield(s.world, s.observed[s.world.turn.pos]))
  {
    var t := s.world.turn;
    assert Backed(e, s, t.snapshot, t.pos);
    assert (t.trace + [s.observed[t.pos]])[..|t.trace|] == t.trace;
  }

  // ---- one event from outside the turn -------------------------------------------------------

  /** The turn, seen from a world where only deliveries, rows or the clock have moved. */
  lemma TurnUndisturbed(e: Setting, s: System, s': System)
    requires OnTrack(e, s) && s'.observed == s.observed && s'.world.turn == s.world.turn
    requires s'.world.runId == s.world.runId && s.world.clock <= s'.world.clock && s'.world.journal == s.world.journal
    ensures OnTrack(e, s')
  {
    var t := s.world.turn;
    forall at: nat | t.pos <= at < |s.observed| ensures at in t.snapshot && Backed(e, s', t.snapshot, at) {
      assert Backed(e, s, t.snapshot, at);
      StillBacked(e, s, s', t.snapshot, t.snapshot, at);
    }
  }

  lemma OutsideKeeps(e: Setting, s: System, s': System)
    requires Valid(e, s) && Deliveries(e, s')
    requires s' == s.(world := s'.world, landing := s'.landing)
    requires s'.world.runId == s.world.runId && s.world.clock <= s'.world.clock
    requires s'.world.journal == s.world.journal && s'.world.turn == s.world.turn
    ensures Valid(e, s')
  {
    PastKept(e, s, s');
    if s.world.turn.Active? && OnTrack(e, s) {
      TurnUndisturbed(e, s, s');
    }
  }

  lemma BeginKeeps(e: Setting, s: System)
    requires Valid(e, s) && s.world.turn.Idle?
    ensures Valid(e, s.(world := s.world.(turn := Active(s.world.journal, 0, [], Ready))))
  {
    var s' := s.(world := s.world.(turn := Active(s.world.journal, 0, [], Ready)));
    PastKept(e, s, s');
    assert Journaled(e, s', s.world.journal);
    assert s.observed[..0] == [];
    forall at: nat | at < |s.observed| ensures at in s.world.journal && Backed(e, s', s.world.journal, at) {
      assert Backed(e, s, s.world.journal, at);
    }
    assert OnTrack(e, s');
  }

  /** What a child's notification saves, at the position awaiting it. */
  lemma LandedJournal(e: Setting, s: System, s': System, at: nat, id: string)
    requires AwaitedAt(e, s, at, id) && Journaled(e, s, s.world.journal)
    requires forall k: nat | k < |s.observed| :: Backed(e, s, s.world.journal, k)
    requires s'.observed == s.observed && s'.world.runId == s.world.runId && s'.world.clock == s.world.clock
    requires s'.world.journal == s.world.journal[at := Instant("signal:child:" + id, Settled(Notified(e.outcome(id))))]
    ensures Journaled(e, s', s'.world.journal)
    ensures forall k: nat | k < |s.observed| :: Backed(e, s', s'.world.journal, k)
  {
    forall k: nat | k < |s.observed| ensures Backed(e, s', s'.world.journal, k) {
      assert Backed(e, s, s.world.journal, k);
      assert Written(e, s.world.runId, OpAt(e, s.observed[..k]), k, s.world.journal[k]);
    }
  }

  lemma LandedTurn(e: Setting, s: System, s': System, at: nat, id: string)
    requires AwaitedAt(e, s, at, id) && OnTrack(e, s)
    requires s'.observed == s.observed && s'.world.turn == s.world.turn
    requires s'.world.runId == s.world.runId && s'.world.clock == s.world.clock
    requires s'.world.journal == s.world.journal[at := Instant("signal:child:" + id, Settled(Notified(e.outcome(id))))]
    ensures OnTrack(e, s')
  {
    var t := s.world.turn;
    forall k: nat | t.pos <= k < |s.observed| ensures k in t.snapshot && Backed(e, s', t.snapshot, k) {
      assert Backed(e, s, t.snapshot, k);
    }
    assert s.observed[..|s.observed|] == s.observed;
  }

  lemma LandKeeps(e: Setting, s: System, at: nat, id: string)
    requires Valid(e, s) && (at, id) in s.landing
    ensures Valid(e, Do(e, s, Land(at, id)))
  {
    var s' := Do(e, s, Land(at, id));
    assert AwaitedAt(e, s, (at, id).0, (at, id).1);
    LandedJournal(e, s, s', at, id);
    LandedDeliveries(e, s, s');
    if s.world.turn.Active? && OnTrack(e, s) {
      LandedTurn(e, s, s', at, id);
    }
  }

  lemma LandedDeliveries(e: Setting, s: System, s': System)
    requires Deliveries(e, s) && s'.observed == s.observed && s'.world.runId == s.world.runId
    requires s'.world.waiters == s.world.waiters && s'.landing <= s.landing
    requires s'.world.buffered == s.world.buffered && s'.world.rows == s.world.rows
    ensures Deliveries(e, s')
  {
    forall d | d in s'.landing ensures AwaitedAt(e, s', d.0, d.1) {
      AwaitedStill(e, s, s', d.0, d.1);
    }
    forall id | id in s'.world.waiters ensures AwaitedAt(e, s', s'.world.waiters[id], id) {
      AwaitedStill(e, s, s', s.world.waiters[id], id);
    }
  }

  lemma NewsKeeps(e: Setting, s: System, ev: Event)
    requires Deliveries(e, s)
    requires ev.Tick? || ev.StartChild? || ev.SettleChild? || ev.TakeWaiter? || ev.Buffer?
    ensures Deliveries(e, Do(e, s, ev))
  {
    match ev {
      case TakeWaiter(id) => TakenKeeps(e, s, id);
      case Tick(_) => DeliveriesStill(e, s, Do(e, s, ev));
      case _ => RowsKeep(e, s, ev);
    }
  }

  lemma TakenKeeps(e: Setting, s: System, id: string)
    requires Deliveries(e, s)
    ensures Deliveries(e, Do(e, s, TakeWaiter(id)))
  {
    var s' := Do(e, s, TakeWaiter(id));
    forall i | i in s'.world.waiters ensures AwaitedAt(e, s', s'.world.waiters[i], i) {
      AwaitedStill(e, s, s', s'.world.waiters[i], i);
    }
    forall d | d in s'.landing ensures AwaitedAt(e, s', d.0, d.1) {
      if d in s.landing {
        AwaitedStill(e, s, s', d.0, d.1);
      } else {
        AwaitedStill(e, s, s', s.world.waiters[d.1], d.1);
      }
    }
  }

  lemma RowsKeep(e: Setting, s: System, ev: Event)
    requires Deliveries(e, s)
    requires ev.StartChild? || ev.SettleChild? || ev.Buffer?
    ensures Deliveries(e, Do(e, s, ev))
  {
    var s' := Do(e, s, ev);
    forall i | i in s'.world.waiters ensures AwaitedAt(e, s', s'.world.waiters[i], i) {
      AwaitedStill(e, s, s', s'.world.waiters[i], i);
    }
    forall d | d in s'.landing ensures AwaitedAt(e, s', d.0, d.1) {
      AwaitedStill(e, s, s', d.0, d.1);
    }
  }

  /** Every event keeps the invariant. */
  lemma DoKeeps(e: Setting, s: System, ev: Event)
    requires CatchesNoFailedStep(e.body) && Lossless(e.outcome)
    requires Valid(e, s)
    ensures Valid(e, Do(e, s, ev))
  {
    match ev {
      case Begin => if s.world.turn.Idle? { BeginKeeps(e, s); }
      case Crash => Ended(e, s, Died, s.returned);
      case Proceed(attempt) => ProceedKeeps(e, s, attempt);
      case Land(at, id) => if (at, id) in s.landing { LandKeeps(e, s, at, id); }
      case _ => NewsValid(e, s, ev);
    }
  }

  lemma NewsValid(e: Setting, s: System, ev: Event)
    requires Valid(e, s)
    requires ev.Tick? || ev.StartChild? || ev.SettleChild? || ev.TakeWaiter? || ev.Buffer?
    ensures Valid(e, Do(e, s, ev))
  {
    NewsKeeps(e, s, ev);
    OutsideKeeps(e, s, Do(e, s, ev));
  }

  lemma DoGrows(e: Setting, s: System, ev: Event)
    requires s.world.turn.Active? && s.world.turn.pc.Stepping? ==> s.world.turn.pos >= |s.observed|
    ensures Grows(s, Do(e, s, ev))
  {
  }

  // ---- whole runs ----------------------------------------------------------------------------

  lemma {:induction false} RunKeeps(e: Setting, s: System, evs: seq<Event>)
    requires CatchesNoFailedStep(e.body) && Lossless(e.outcome)
    requires Valid(e, s)
    ensures Valid(e, Run(e, s, evs)) && Grows(s, Run(e, s, evs))
    decreases |evs|
  {
    if evs != [] {
      var s1 := Do(e, s, evs[0]);
      DoKeeps(e, s, evs[0]);
      SteppingAtFrontier(e, s);
      DoGrows(e, s, evs[0]);
      RunKeeps(e, s1, evs[1..]);
      GrowsTransitive(s, s1, Run(e, s, evs));
    }
  }

  lemma SteppingAtFrontier(e: Setting, s: System)
    requires Valid(e, s)
    ensures s.world.turn.Active? && s.world.turn.pc.Stepping? ==> s.world.turn.pos >= |s.observed|
  {
  }

  lemma GrowsTransitive(a: System, b: System, c: System)
    requires Grows(a, b) && Grows(b, c)
    ensures Grows(a, c)
  {
    forall k | |a.ran| <= k < |c.ran| ensures c.ran[k] >= |a.observed| {
      if k < |b.ran| {
        assert c.ran[k] == b.ran[k];
      }
    }
  }

  lemma StartValid(e: Setting, runId: string)
    ensures Valid(e, Start(runId))
  {
  }

  lemma RunSplits(e: Setting, s: System, first: seq<Event>, rest: seq<Event>)
    ensures Run(e, s, first + rest) == Run(e, Run(e, s, first), rest)
    decreases |first|
  {
    if first == [] {
      assert first + rest == rest;
    } else {
      assert (first + rest)[0] == first[0] && (first + rest)[1..] == first[1..] + rest;
      RunSplits(e, Do(e, s, first[0]), first[1..], rest);
    }
  }

  /**
   * No interleaving of turns, crashes and child completions ever trips the non-determinism guard,
   * and whatever a turn has been given so far is, but for a step that has just failed, a prefix of
   * what every later turn is given at those positions.
   */
  lemma ReplayDeterminism(e: Setting, runId: string, past: seq<Event>, future: seq<Event>)
    requires CatchesNoFailedStep(e.body) && Lossless(e.outcome)
    ensures var now := Run(e, Start(runId), past);
            var later := Run(e, Start(runId), past + future);
            && now.world.turn != Idle(NonDeterminism)
            && now.observed <= later.observed
            && (now.world.turn.Active? ==>
                  || now.world.turn.trace <= now.observed
                  || (e.body(now.world.turn.trace).Throw?
                       && now.world.turn.trace[..|now.world.turn.trace| - 1] == now.observed))
            && (forall at: nat | at < |now.observed| ::
                 Backed(e, later, later.world.journal, at) && later.observed[at] == now.observed[at])
  {
    var now := Run(e, Start(runId), past);
    var later := Run(e, Start(runId), past + future);
    StartValid(e, runId);
    RunKeeps(e, Start(runId), past);
    RunSplits(e, Start(runId), past, future);
    RunKeeps(e, now, future);
  }

  /** Once a local step has completed, its body never runs again. */
  lemma CompletedStepNeverReruns(e: Setting, runId: string, past: seq<Event>, future: seq<Event>, k: nat)
    requires CatchesNoFailedStep(e.body) && Lossless(e.outcome)
    requires var now := Run(e, Start(runId), past); var later := Run(e, Start(runId), past + future);
             |now.ran| <= k < |later.ran|
    ensures var now := Run(e, Start(runId), past); var later := Run(e, Start(runId), past + future);
            later.ran[..|now.ran|] == now.ran && later.ran[k] >= |now.observed|
  {
    StartValid(e, runId);
    RunKeeps(e, Start(runId), past);
    RunSplits(e, Start(runId), past, future);
    RunKeeps(e, Run(e, Start(runId), past), future);
  }

  /** Every turn that returns, in any run of events, returns the same value. */
  lemma SameResult(e: Setting, runId: string, evs: seq<Event>, i: nat, j: nat)
    requires CatchesNoFailedStep(e.body) && Lossless(e.outcome)
    requires i < |Run(e, Start(runId), evs).returned| && j < |Run(e, Start(runId), evs).returned|
    ensures Run(e, Start(runId), evs).returned[i] == Run(e, Start(runId), evs).returned[j]
  {
    StartValid(e, runId);
    RunKeeps(e, Start(runId), evs);
  }
}
