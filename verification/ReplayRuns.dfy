/**
 * Whole runs of the replay machine: turns that start, advance and die, interleaved with children
 * that settle and whose completions land, in any order.
 */
module ReplayRuns {
  import opened Common
  import opened Replay

  /**
   * The world plus what an observer has seen of the run: the longest list of results backed by the
   * journal that any turn handed to the body, which step bodies ran, and what turns returned.
   */
  datatype System = System(
    world: World,
    landing: set<(nat, string)>,   // waiter taken by a child's notification, checkpoint not yet saved
    observed: seq<Result>,
    ran: seq<nat>,
    returned: seq<Value>)

  datatype Event =
    | Begin                        // a turn takes the lease and loads its snapshot
    | Crash                        // the process dies; only the store survives
    | Proceed(attempt: Attempt)    // the turn's next store operation
    | Tick(ms: nat)
    | StartChild(id: string)
    | SettleChild(id: string)
    | TakeWaiter(id: string)       // a settled child's notification finds its waiter...
    | Land(at: nat, id: string)    // ...and saves the parent's checkpoint
    | Buffer(id: string)           // or finds none and buffers the completion

  /** Everything fixed for the run: the code, the engine option, and how each child will end. */
  datatype Setting = Setting(body: Body, track: bool, outcome: string -> Completion)

  function Start(runId: string): System {
    System(World(runId, map[], map[], map[], map[], 0, Idle(NotRun)), {}, [], [], [])
  }

  /** `observed` after the turn's next operation: extended when a journal-backed result is new. */
  function Observe(s: System, w: World): System {
    var grown := w.turn.Active? && |w.turn.trace| > |s.observed| && w.turn.trace[..|w.turn.trace| - 1] == s.observed;
    var backed := s.world.turn.Active? && !s.world.turn.pc.StepFailing?;
    s.(world := w, observed := if grown && backed then w.turn.trace else s.observed)
  }

  function Proceeded(e: Setting, s: System, attempt: Attempt): System {
    var w := s.world;
    if !w.turn.Active? then s
    else
      match e.body(w.turn.trace)
      case Return(v) => s.(world := w.(turn := Idle(Returned(v))), returned := s.returned + [v])
      case Throw(f) => s.(world := w.(turn := Idle(Thrown(f))))
      case Call(op) =>
        var next := Observe(s, Advance(w, op, e.track, attempt));
        if w.turn.pc.Stepping? then next.(ran := s.ran + [w.turn.pos]) else next
  }

  /** One event; an event that cannot happen now changes nothing. */
  function Do(e: Setting, s: System, ev: Event): System {
    var w := s.world;
    match ev
    case Begin => if w.turn.Idle? then s.(world := w.(turn := Active(w.journal, 0, [], Ready))) else s
    case Crash => s.(world := w.(turn := Idle(Died)))
    case Proceed(attempt) => Proceeded(e, s, attempt)
    case Tick(ms) => s.(world := w.(clock := w.clock + ms))
    case StartChild(id) => if id in w.rows then s else s.(world := w.(rows := w.rows[id := InFlight]))
    case SettleChild(id) =>
      if id in w.rows && w.rows[id].InFlight? then s.(world := w.(rows := w.rows[id := Terminal(e.outcome(id))])) else s
    case TakeWaiter(id) =>
      if id in w.rows && w.rows[id].Terminal? && id in w.waiters then
        s.(world := w.(waiters := w.waiters - {id}), landing := s.landing + {(w.waiters[id], id)})
      else s
    case Land(at, id) =>
      if (at, id) in s.landing then
        s.(world := w.(journal := w.journal[at := Instant("signal:child:" + id, Settled(Notified(e.outcome(id))))]),
           landing := s.landing - {(at, id)})
      else s
    case Buffer(id) =>
      if id in w.rows && w.rows[id].Terminal? then
        var queue := if id in w.buffered then w.buffered[id] else [];
        s.(world := w.(buffered := w.buffered[id := queue + [Notified(e.outcome(id))]]))
      else s
  }

  function Run(e: Setting, s: System, evs: seq<Event>): System
    decreases |evs|
  {
    if evs == [] then s else Run(e, Do(e, s, evs[0]), evs[1..])
  }

  // ---- the conditions ------------------------------------------------------------------------

  /** A failed local step ends the turn: the body does not catch it. */
  ghost predicate CatchesNoFailedStep(body: Body) {
    forall h: seq<Result>, f: Failure :: body(h).Call? && body(h).op.LocalStep? ==> body(h + [Threw(f)]) == Throw(f)
  }

  /** A failed child's row says as much as its notification did. */
  ghost predicate Lossless(outcome: string -> Completion) {
    forall id: string :: FromRow(outcome(id)) == Notified(outcome(id))
  }

  // ---- the invariant -------------------------------------------------------------------------

  ghost predicate Calls(e: Setting, h: seq<Result>) { e.body(h).Call? }

  function OpAt(e: Setting, h: seq<Result>): Op
    requires e.body(h).Call?
  {
    e.body(h).op
  }

  /** A checkpoint that primitive `op` (or its child's notification) can have written at `at`. */
  ghost predicate Written(e: Setting, runId: string, op: Op, at: nat, cp: Checkpoint) {
    && cp.name == NameOf(runId, op, at)
    && (op.Child? && cp.status == Completed ==> cp.output == Settled(Notified(e.outcome(IdOf(runId, op, at)))))
  }

  ghost predicate Journaled(e: Setting, s: System, journal: map<nat, Checkpoint>) {
    forall at: nat | at in journal ::
      && at <= |s.observed| && Calls(e, s.observed[..at])
      && Written(e, s.world.runId, OpAt(e, s.observed[..at]), at, journal[at])
  }

  /** Position `at` replays as observed from `journal`. */
  ghost predicate Backed(e: Setting, s: System, journal: map<nat, Checkpoint>, at: nat)
    requires at < |s.observed|
  {
    && Calls(e, s.observed[..at])
    && at in journal
    && var op := OpAt(e, s.observed[..at]);
       Decide(op, NameOf(s.world.runId, op, at), Some(journal[at]), s.world.clock) == Replayed(s.observed[at])
  }

  ghost predicate AwaitedAt(e: Setting, s: System, at: nat, id: string) {
    && at <= |s.observed| && Calls(e, s.observed[..at])
    && OpAt(e, s.observed[..at]).Child?
    && IdOf(s.world.runId, OpAt(e, s.observed[..at]), at) == id
  }

  ghost predicate Deliveries(e: Setting, s: System) {
    && (forall id | id in s.world.waiters :: AwaitedAt(e, s, s.world.waiters[id], id))
    && (forall d | d in s.landing :: AwaitedAt(e, s, d.0, d.1))
    && (forall id | id in s.world.buffered :: forall k | 0 <= k < |s.world.buffered[id]| ::
         s.world.buffered[id][k] == Notified(e.outcome(id)))
    && (forall id | id in s.world.rows && s.world.rows[id].Terminal? :: s.world.rows[id].outcome == e.outcome(id))
  }

  /** A turn that a failed step has ended: nothing is left for it to do but throw. */
  ghost predicate Doomed(e: Setting, s: System) {
    var t := s.world.turn;
    t.Active? && t.pc == Ready && |t.trace| > 0 && e.body(t.trace).Throw?
    && t.trace[..|t.trace| - 1] == s.observed
  }

  /** What the snapshot holds at the frontier is still in the journal, unless a child has completed there since. */
  ghost predicate Current(e: Setting, s: System, snapshot: map<nat, Checkpoint>)
    requires |s.observed| in snapshot
  {
    var at := |s.observed|;
    && at in s.world.journal
    && (s.world.journal[at] == snapshot[at]
        || (s.world.journal[at].status == Completed && e.body(s.observed).Call? && e.body(s.observed).op.Child?))
  }

  ghost predicate OnTrack(e: Setting, s: System) {
    var t := s.world.turn;
    && t.Active?
    && t.pos == |t.trace| <= |s.observed|
    && t.trace == s.observed[..t.pos]
    && Journaled(e, s, t.snapshot)
    && (forall at: nat | t.pos <= at < |s.observed| :: at in t.snapshot && Backed(e, s, t.snapshot, at))
    && (t.pc == Ready && |s.observed| in t.snapshot ==> Current(e, s, t.snapshot))
    && (t.pc != Ready ==> t.pos == |s.observed| && Calls(e, t.trace))
    && (t.pc.Stepping? || t.pc.Stepped? || t.pc.StepFailing? ==> OpAt(e, t.trace).LocalStep?)
    && (t.pc.WaiterPut? || t.pc.Registered? || t.pc.Unbuffered? || t.pc.Resolving? || t.pc.Recording? ==>
         OpAt(e, t.trace).Child?)
    && (t.pc.Resolving? || t.pc.Recording? ==>
          t.pc.completion == Notified(e.outcome(IdOf(s.world.runId, OpAt(e, t.trace), t.pos))))
  }

  ghost predicate Valid(e: Setting, s: System) {
    && Journaled(e, s, s.world.journal)
    && (forall at: nat | at < |s.observed| :: Backed(e, s, s.world.journal, at))
    && Deliveries(e, s)
    && (s.world.turn.Active? ==> OnTrack(e, s) || Doomed(e, s))
    && (s.world.turn.Idle? ==> s.world.turn.last != NonDeterminism)
    && (forall k | 0 <= k < |s.returned| :: e.body(s.observed) == Return(s.returned[k]))
  }
}
