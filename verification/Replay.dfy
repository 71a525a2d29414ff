/**
 * Deterministic replay of a workflow body against its checkpoint journal.
 *
 * The machine works at the granularity of one store operation: a turn may die between any two of
 * them, and the completion of a child may land between any two of them.
 */
module Replay {
  import opened Common
  import Text

  /** What a primitive hands back to the workflow body. */
  datatype Result = Done | Got(value: Value) | Threw(failure: Failure)

  /** The primitives; `now` and `sideEffect` are local steps of those names. */
  datatype Op =
    | LocalStep(name: string, retries: nat)
    | Sleep(ms: nat)
    | SetEvent(key: string, value: Value)
    | Child(childId: Option<string>)

  datatype Action = Call(op: Op) | Return(value: Value) | Throw(failure: Failure)

  /** A deterministic body: what it does next is a function of the results it has been given. */
  type Body = seq<Result> -> Action

  datatype Status = Running | Pending | Completed | Failed
  datatype Payload = Nothing | Output(value: Value) | Settled(completion: Completion)
  datatype Checkpoint = Checkpoint(name: string, status: Status, output: Payload, wakeAt: Option<int>)

  function Unwrap(p: Payload): Result {
    match p
    case Settled(Err(f)) => Threw(f)
    case Settled(Ok(v)) => Got(v)
    case Output(_) => Done
    case Nothing => Done
  }

  function OutputOf(p: Payload): Result {
    match p
    case Output(v) => Got(v)
    case _ => Done
  }

  /** How far the current primitive has got; `Ready` is between two primitives. */
  datatype Pc =
    | Ready
    | Stepping(attempt: nat)
    | Stepped(value: Value)
    | StepFailing(failure: Failure)
    | WaiterPut
    | Registered
    | Unbuffered
    | Resolving(completion: Completion)
    | Recording(completion: Completion)

  datatype Stop =
    | NotRun
    | Died
    | Suspended(wakeAt: Option<int>)
    | NonDeterminism
    | Returned(value: Value)
    | Thrown(failure: Failure)

  datatype Turn = Idle(last: Stop) | Active(snapshot: map<nat, Checkpoint>, pos: nat, trace: seq<Result>, pc: Pc)

  /** One run's durable rows and the turn executing it. */
  datatype World = World(
    runId: string,
    journal: map<nat, Checkpoint>,
    waiters: map<string, nat>,
    buffered: map<string, seq<Completion>>,
    rows: map<string, Row>,
    clock: int,
    turn: Turn)

  /** How one attempt of a local step's body ends. */
  datatype Attempt = Succeeds(value: Value) | Fails(failure: Failure, fatal: bool)

  function Get<T>(m: map<nat, T>, k: nat): Option<T> { if k in m then Some(m[k]) else None }

  /** Read through the per-execution snapshot; a position absent from it is read live. */
  function Read(snapshot: map<nat, Checkpoint>, journal: map<nat, Checkpoint>, at: nat): Option<Checkpoint> {
    if at in snapshot then Some(snapshot[at]) else Get(journal, at)
  }

  function IdOf(runId: string, op: Op, at: nat): string
    requires op.Child?
  {
    match op.childId
    case Some(id) => id
    case None => runId + ".child." + Text.Decimal(at)
  }

  function NameOf(runId: string, op: Op, at: nat): string {
    match op
    case LocalStep(name, _) => name
    case Sleep(_) => "sleep"
    case SetEvent(key, _) => "event:" + key
    case Child(_) => "signal:child:" + IdOf(runId, op, at)
  }

  datatype Decision = Replayed(result: Result) | Mismatch | Parked(wakeAt: int) | Fresh

  /** What a primitive does on what it finds at its position. */
  function Decide(op: Op, name: string, existing: Option<Checkpoint>, now: int): Decision {
    match existing
    case None => Fresh
    case Some(cp) =>
      match op
      case LocalStep(_, _) =>
        if cp.name != name then Mismatch
        else if cp.status == Completed then Replayed(OutputOf(cp.output)) else Fresh
      case SetEvent(_, _) =>
        if cp.name != name then Mismatch
        else if cp.status == Completed then Replayed(Done) else Fresh
      case Sleep(_) =>
        var due := if cp.wakeAt.Some? then cp.wakeAt.value else 0;
        if now >= due then Replayed(Done) else Parked(due)
      case Child(_) =>
        if cp.status == Completed then Replayed(Unwrap(cp.output)) else Fresh
  }

  function Instant(name: string, output: Payload): Checkpoint { Checkpoint(name, Completed, output, None) }

  /** `writeCheckpoint`: the store and the snapshot both. */
  function Write(w: World, cp: Checkpoint): World
    requires w.turn.Active?
  {
    w.(journal := w.journal[w.turn.pos := cp],
       turn := w.turn.(snapshot := w.turn.snapshot[w.turn.pos := cp]))
  }

  /** The primitive hands `r` back and the next one will claim the next position. */
  function Yield(w: World, r: Result): World
    requires w.turn.Active?
  {
    w.(turn := w.turn.(pos := w.turn.pos + 1, trace := w.turn.trace + [r], pc := Ready))
  }

  function At(w: World, pc: Pc): World
    requires w.turn.Active?
  {
    w.(turn := w.turn.(pc := pc))
  }

  function Suspend(w: World, wakeAt: Option<int>): World { w.(turn := Idle(Suspended(wakeAt))) }

  function Attempts(op: Op): nat
    requires op.LocalStep?
  {
    if op.retries > 1 then op.retries else 1
  }

  /** The first operation of a primitive at its position. */
  function Enter(w: World, op: Op, track: bool): (w': World)
    requires w.turn.Active?
    ensures w'.runId == w.runId && w'.clock == w.clock
  {
    var t := w.turn;
    var name := NameOf(w.runId, op, t.pos);
    var existing := Read(t.snapshot, w.journal, t.pos);
    match Decide(op, name, existing, w.clock)
    case Replayed(r) => Yield(w, r)
    case Mismatch => w.(turn := Idle(NonDeterminism))
    case Parked(due) => Suspend(w, Some(due))
    case Fresh => Begun(w, op, name, existing.Some?, track)
  }

  /** Nothing recorded at the position decides for the primitive. */
  function Begun(w: World, op: Op, name: string, recorded: bool, track: bool): (w': World)
    requires w.turn.Active?
    ensures w'.runId == w.runId && w'.clock == w.clock
  {
    var t := w.turn;
    match op
    case LocalStep(_, _) =>
      var started := if track then w.(journal := w.journal[t.pos := Checkpoint(name, Running, Nothing, None)]) else w;
      At(started, Stepping(1))
    case Sleep(ms) =>
      Suspend(Write(w, Checkpoint(name, Completed, Nothing, Some(w.clock + ms))), Some(w.clock + ms))
    case SetEvent(_, value) =>
      Yield(Write(w, Instant(name, Output(value))), Done)
    case Child(_) =>
      if recorded then At(w, Registered)
      else At(w.(waiters := w.waiters[IdOf(w.runId, op, t.pos) := t.pos]), WaiterPut)
  }

  /** The next operation of an awaited child's call, once it has begun. */
  function Await(w: World, id: string, name: string): (w': World)
    requires w.turn.Active?
    ensures w'.runId == w.runId && w'.clock == w.clock
  {
    var t := w.turn;
    match t.pc
    case WaiterPut =>
      At(Write(w, Checkpoint(name, Running, Nothing, None)), Registered)
    case Registered =>
      if id in w.buffered && |w.buffered[id]| > 0 then
        At(w.(buffered := w.buffered[id := w.buffered[id][1..]]), Resolving(w.buffered[id][0]))
      else At(w, Unbuffered)
    case Unbuffered =>
      if id in w.rows && w.rows[id].Terminal? then At(w, Resolving(FromRow(w.rows[id].outcome)))
      else Suspend(w, None)
    case Resolving(c) =>
      var freed := if id in w.waiters && w.waiters[id] == t.pos then w.(waiters := w.waiters - {id}) else w;
      At(freed, Recording(c))
    case Recording(c) =>
      Yield(Write(w, Instant(name, Settled(c))), Unwrap(Settled(c)))
    case _ => w
  }

  /** The next operation of a local step, once it has begun; `attempt` is how its body ends now. */
  function Step(w: World, op: Op, name: string, attempt: Attempt): (w': World)
    requires w.turn.Active? && op.LocalStep?
    ensures w'.runId == w.runId && w'.clock == w.clock
  {
    var t := w.turn;
    match t.pc
    case Stepping(n) =>
      (match attempt
       case Succeeds(v) => At(w, Stepped(v))
       case Fails(f, fatal) => if fatal || n >= Attempts(op) then At(w, StepFailing(f)) else At(w, Stepping(n + 1)))
    case Stepped(v) =>
      Yield(w.(journal := w.journal[t.pos := Instant(name, Output(v))]), Got(v))
    case StepFailing(f) =>
      Yield(w.(journal := w.journal[t.pos := Checkpoint(name, Failed, Nothing, None)]), Threw(f))
    case _ => w
  }

  /**
   * The next store operation of primitive `op`. `attempt` is how the body of a local step ends if
   * this is the operation that runs it; `track` is the engine's `trackStepStart`.
   */
  function Advance(w: World, op: Op, track: bool, attempt: Attempt): (w': World)
    requires w.turn.Active?
    ensures w'.runId == w.runId && w'.clock == w.clock
  {
    var name := NameOf(w.runId, op, w.turn.pos);
    if w.turn.pc == Ready then Enter(w, op, track)
    else
      match op
      case LocalStep(_, _) => Step(w, op, name, attempt)
      case Child(_) => Await(w, IdOf(w.runId, op, w.turn.pos), name)
      case _ => w
  }
}
