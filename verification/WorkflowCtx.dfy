/**
 * The context handed to a workflow body: a position counter, the per-execution snapshot and a store
 * it reads and writes in place. Each primitive, run with nothing interleaved, is exactly the replay
 * machine's operations run until the primitive is over.
 */
module WorkflowContext {
  import opened Common
  import Text
  import opened Replay

  /** The rows of one run, as the store keeps them. */
  class Store {
    var journal: map<nat, Checkpoint>
    var waiters: map<string, nat>
    var buffered: map<string, seq<Completion>>
    var rows: map<string, Row>

    method GetCheckpoint(at: nat) returns (cp: Option<Checkpoint>)
      ensures cp == Get(journal, at)
    {
      if at in journal { return Some(journal[at]); }
      return None;
    }

    method SaveCheckpoint(at: nat, cp: Checkpoint)
      modifies this`journal
      ensures journal == old(journal)[at := cp]
    {
      journal := journal[at := cp];
    }

    method PutSignalWaiter(id: string, at: nat)
      modifies this`waiters
      ensures waiters == old(waiters)[id := at]
    {
      waiters := waiters[id := at];
    }

    /** Removes the row only if it is the caller's own. */
    method RemoveSignalWaiter(id: string, at: nat)
      modifies this`waiters
      ensures waiters == if id in old(waiters) && old(waiters)[id] == at then old(waiters) - {id} else old(waiters)
    {
      if id in waiters && waiters[id] == at {
        waiters := waiters - {id};
      }
    }

    method TakeBufferedSignal(id: string) returns (c: Option<Completion>)
      modifies this`buffered
      ensures var queue := if id in old(buffered) then old(buffered)[id] else [];
              if |queue| > 0 then c == Some(queue[0]) && buffered == old(buffered)[id := queue[1..]]
              else c == None && buffered == old(buffered)
    {
      if id in buffered && |buffered[id]| > 0 {
        c := Some(buffered[id][0]);
        buffered := buffered[id := buffered[id][1..]];
      } else {
        c := None;
      }
    }

    method GetRun(id: string) returns (row: Option<Row>)
      ensures row == if id in rows then Some(rows[id]) else None
    {
      if id in rows { return Some(rows[id]); }
      return None;
    }
  }

  /** A primitive hands a result to the body, or ends the turn. */
  datatype Outcome = Yielded(result: Result) | Ends(stop: Stop)

  // ---- a whole primitive, in one step --------------------------------------------------------

  /** How the retry loop ends: the first attempt from `n` on that is not retried. */
  function Last(fn: nat -> Attempt, n: nat, attempts: nat): Attempt
    requires n <= attempts
    decreases attempts - n
  {
    match fn(n)
    case Fails(_, false) => if n < attempts then Last(fn, n + 1, attempts) else fn(n)
    case _ => fn(n)
  }

  lemma {:induction false} LastIsFirstNotRetried(fn: nat -> Attempt, n: nat, attempts: nat) returns (k: nat)
    requires n <= attempts
    ensures n <= k <= attempts && Last(fn, n, attempts) == fn(k)
    ensures fn(k).Succeeds? || fn(k).fatal || k == attempts
    ensures forall j: nat | n <= j < k :: fn(j).Fails? && !fn(j).fatal
    decreases attempts - n
  {
    if fn(n).Fails? && !fn(n).fatal && n < attempts {
      k := LastIsFirstNotRetried(fn, n + 1, attempts);
    } else {
      k := n;
    }
  }

  /**
   * Attempt `k` decides a step allowed `retries` attempts, at least one: every earlier one failed and
   * was not fatal, and it succeeded, failed fatally, or was the last allowed.
   */
  predicate Decides(fn: nat -> Attempt, k: nat, retries: nat) {
    && 1 <= k && (k == 1 || k <= retries)
    && (forall j: nat | 1 <= j < k :: fn(j).Fails? && !fn(j).fatal)
    && (fn(k).Succeeds? || fn(k).fatal || k >= retries)
  }

  /** Exactly one attempt decides, and it is the one the retry loop ends with. */
  lemma LastDecides(fn: nat -> Attempt, name: string, retries: nat) returns (k: nat)
    ensures Decides(fn, k, retries) && Last(fn, 1, Attempts(Op.LocalStep(name, retries))) == fn(k)
    ensures forall j: nat | Decides(fn, j, retries) :: j == k
  {
    k := LastIsFirstNotRetried(fn, 1, Attempts(Op.LocalStep(name, retries)));
    forall j: nat | Decides(fn, j, retries) ensures j == k {
    }
  }

  /**
   * A step succeeds with `v` exactly when one of its `retries` attempts does, every earlier one having
   * failed without being fatal; it throws `f` exactly when every attempt failed so, up to one that
   * failed with `f` and was fatal or the last.
   */
  lemma StepEndsIff(fn: nat -> Attempt, name: string, retries: nat, v: Value, f: Failure)
    ensures var last := Last(fn, 1, Attempts(Op.LocalStep(name, retries))); var allowed := if retries < 1 then 1
            else retries;
            && (last == Succeeds(v) <==>
                  exists k: nat :: 1 <= k <= allowed && fn(k) == Succeeds(v)
                                   && forall j: nat | 1 <= j < k :: fn(j).Fails? && !fn(j).fatal)
            && (last.Fails? && last.failure == f <==>
                  exists k: nat :: 1 <= k <= allowed && fn(k).Fails? && fn(k).failure == f
                    && (fn(k).fatal || k == allowed)
                                   && forall j: nat | 1 <= j < k :: fn(j).Fails? && !fn(j).fatal)
  {
    var k := LastDecides(fn, name, retries);
    var allowed := if retries < 1 then 1 else retries;
    forall j: nat | 1 <= j <= allowed && (fn(j).Succeeds? || fn(j).fatal || j == allowed)
                    && forall i: nat | 1 <= i < j :: fn(i).Fails? && !fn(i).fatal
      ensures j == k
    {
      assert Decides(fn, j, retries);
    }
  }

  /** What a local step writes and hands back once its last attempt has ended in `a`. */
  function Concluded(w: World, name: string, a: Attempt): World
    requires w.turn.Active?
  {
    match a
    case Succeeds(v) => Yield(w.(journal := w.journal[w.turn.pos := Instant(name, Output(v))]), Got(v))
    case Fails(f, _) => Yield(w.(journal := w.journal[w.turn.pos := Checkpoint(name, Failed, Nothing, None)]), Threw(f))
  }

  /** An awaited child's completion is in hand: the waiter is given up, the completion recorded and unwrapped. */
  function Resolved(w: World, id: string, c: Completion): World
    requires w.turn.Active?
  {
    var freed := if id in w.waiters && w.waiters[id] == w.turn.pos then w.(waiters := w.waiters - {id}) else w;
    Yield(Write(freed, Instant("signal:child:" + id, Settled(c))), Unwrap(Settled(c)))
  }

  /** A registered child: the buffered completion first, else the one its own row gives, else a wait. */
  function Collected(w: World, id: string): World
    requires w.turn.Active?
  {
    if id in w.buffered && |w.buffered[id]| > 0 then
      Resolved(w.(buffered := w.buffered[id := w.buffered[id][1..]]), id, w.buffered[id][0])
    else if id in w.rows && w.rows[id].Terminal? then Resolved(w, id, FromRow(w.rows[id].outcome))
    else Suspend(w, None)
  }

  /** The effect of a whole primitive from the position it claims; `fn(n)` is how attempt `n` of a step ends. */
  function Effect(w: World, op: Op, track: bool, fn: nat -> Attempt): World
    requires w.turn.Active?
  {
    var at, name := w.turn.pos, NameOf(w.runId, op, w.turn.pos);
    var existing := Read(w.turn.snapshot, w.journal, at);
    match Decide(op, name, existing, w.clock)
    case Replayed(r) => Yield(w, r)
    case Mismatch => w.(turn := Idle(NonDeterminism))
    case Parked(due) => Suspend(w, Some(due))
    case Fresh => Performed(w, op, name, existing.Some?, track, fn)
  }

  /** The effect when nothing recorded at the position decides for the primitive. */
  function Performed(w: World, op: Op, name: string, recorded: bool, track: bool, fn: nat -> Attempt): World
    requires w.turn.Active?
  {
    var at := w.turn.pos;
    match op
    case LocalStep(_, _) =>
      var started := if track then w.(journal := w.journal[at := Checkpoint(name, Running, Nothing, None)]) else w;
      Concluded(started, name, Last(fn, 1, Attempts(op)))
    case Sleep(ms) => Suspend(Write(w, Checkpoint(name, Completed, Nothing, Some(w.clock + ms))), Some(w.clock + ms))
    case SetEvent(_, value) => Yield(Write(w, Instant(name, Output(value))), Done)
    case Child(_) =>
      var id := IdOf(w.runId, op, at);
      Collected(if recorded then w
                else Write(w.(waiters := w.waiters[id := at]), Checkpoint(name, Running, Nothing, None)), id)
  }

  /** A placeholder or an outcome, under the child's signal name. */
  predicate AwaitRow(cp: Checkpoint, id: string) {
    && cp.name == "signal:child:" + id
    && ((cp.status == Running && cp.output == Nothing) || (cp.status == Completed && cp.output.Settled?))
  }

  predicate OnlyRow(before: map<nat, Checkpoint>, after: map<nat, Checkpoint>, at: nat, id: string) {
    after == before || (at in after && AwaitRow(after[at], id) && after == before[at := after[at]])
  }

  lemma CollectedWritesRow(w: World, id: string)
    requires w.turn.Active?
    ensures OnlyRow(w.journal, Collected(w, id).journal, w.turn.pos, id)
  {
  }

  lemma PlacedWritesRow(w: World, cp: Checkpoint, id: string)
    requires w.turn.Active? && AwaitRow(cp, id)
    ensures var put := Write(w.(waiters := w.waiters[id := w.turn.pos]), cp);
            OnlyRow(w.journal, Collected(put, id).journal, w.turn.pos, id)
  {
    var put := Write(w.(waiters := w.waiters[id := w.turn.pos]), cp);
    CollectedWritesRow(put, id);
    assert put.journal == w.journal[w.turn.pos := cp];
  }

  lemma FreshWritesRow(w: World, op: Op, recorded: bool, track: bool, fn: nat -> Attempt)
    requires w.turn.Active? && op.Child?
    ensures var id := IdOf(w.runId, op, w.turn.pos);
            OnlyRow(w.journal, Performed(w, op, "signal:child:" + id, recorded, track, fn).journal, w.turn.pos, id)
  {
    var id := IdOf(w.runId, op, w.turn.pos);
    if recorded {
      CollectedWritesRow(w, id);
    } else {
      PlacedWritesRow(w, Checkpoint("signal:child:" + id, Running, Nothing, None), id);
    }
  }

  /** All an awaited child's call writes in the journal is its own row at its own position. */
  lemma ChildWritesItsRow(w: World, op: Op, track: bool, fn: nat -> Attempt)
    requires w.turn.Active? && op.Child?
    ensures OnlyRow(w.journal, Effect(w, op, track, fn).journal, w.turn.pos, IdOf(w.runId, op, w.turn.pos))
  {
    FreshWritesRow(w, op, Read(w.turn.snapshot, w.journal, w.turn.pos).Some?, track, fn);
  }

  // ---- the machine, run to the end of one primitive ------------------------------------------

  /** How attempt `n` of the step being run ends. */
  function NextAttempt(fn: nat -> Attempt, pc: Pc): Attempt { if pc.Stepping? then fn(pc.attempt) else fn(0) }

  /** The machine's next operation, unless the primitive that claimed position `at` is over. */
  function Next(w: World, op: Op, track: bool, fn: nat -> Attempt, at: nat): World {
    if w.turn.Active? && w.turn.pos == at then Advance(w, op, track, NextAttempt(fn, w.turn.pc)) else w
  }

  /** The next `n` operations. */
  function Ops(w: World, op: Op, track: bool, fn: nat -> Attempt, at: nat, n: nat): World
    decreases n
  {
    if n == 0 then w else Ops(Next(w, op, track, fn, at), op, track, fn, at, n - 1)
  }

  lemma AttemptAdvances(w: World, op: Op, track: bool, fn: nat -> Attempt)
    requires w.turn.Active? && op.LocalStep? && w.turn.pc.Stepping?
    ensures var n := w.turn.pc.attempt;
            Next(w, op, track, fn, w.turn.pos) ==
            match fn(n)
            case Succeeds(v) => At(w, Stepped(v))
            case Fails(f, fatal) => if fatal || n >= Attempts(op) then At(w, StepFailing(f)) else At(w, Stepping(n + 1))
  {
  }

  lemma Unfold(w: World, next: World, op: Op, track: bool, fn: nat -> Attempt, at: nat, n: nat)
    requires next == Next(w, op, track, fn, at) && n > 0
    ensures Ops(w, op, track, fn, at, n) == Ops(next, op, track, fn, at, n - 1)
  {
  }

  /** Nothing happens once the primitive is over. */
  lemma {:induction false} Rest(w: World, op: Op, track: bool, fn: nat -> Attempt, at: nat, n: nat)
    requires w.turn.Active? ==> w.turn.pos != at
    ensures Ops(w, op, track, fn, at, n) == w
  {
    if n > 0 { Rest(w, op, track, fn, at, n - 1); }
  }

  /** A failing attempt that is not retried, or one that succeeds, ends the step in one more operation. */
  lemma LastAttemptEnds(w: World, op: Op, track: bool, fn: nat -> Attempt, n: nat)
    requires w.turn.Active? && op.LocalStep? && w.turn.pc.Stepping?
    requires var a := fn(w.turn.pc.attempt); a.Succeeds? || a.fatal || w.turn.pc.attempt >= Attempts(op)
    ensures Ops(w, op, track, fn, w.turn.pos, n + 2) == Concluded(w, op.name, fn(w.turn.pc.attempt))
  {
    var at, ended := w.turn.pos, Concluded(w, op.name, fn(w.turn.pc.attempt));
    var next := Next(w, op, track, fn, at);
    AttemptAdvances(w, op, track, fn);
    ConcludingAdvances(w, next, op, track, fn);
    Unfold(w, next, op, track, fn, at, n + 2);
    Unfold(next, ended, op, track, fn, at, n + 1);
    Rest(ended, op, track, fn, at, n);
  }

  lemma ConcludingAdvances(w: World, next: World, op: Op, track: bool, fn: nat -> Attempt)
    requires w.turn.Active? && op.LocalStep? && w.turn.pc.Stepping?
    requires match fn(w.turn.pc.attempt)
             case Succeeds(v) => next == At(w, Stepped(v))
             case Fails(f, _) => next == At(w, StepFailing(f))
    ensures Next(next, op, track, fn, w.turn.pos) == Concluded(w, op.name, fn(w.turn.pc.attempt))
  {
  }

  lemma RetryAdvances(w: World, op: Op, track: bool, fn: nat -> Attempt, n: nat)
    requires w.turn.Active? && op.LocalStep? && w.turn.pc.Stepping? && n > 0
    requires var a := fn(w.turn.pc.attempt); a.Fails? && !a.fatal && w.turn.pc.attempt < Attempts(op)
    ensures var next := At(w, Stepping(w.turn.pc.attempt + 1));
            && Ops(w, op, track, fn, w.turn.pos, n) == Ops(next, op, track, fn, w.turn.pos, n - 1)
            && forall a :: Concluded(next, op.name, a) == Concluded(w, op.name, a)
  {
    AttemptAdvances(w, op, track, fn);
    Unfold(w, At(w, Stepping(w.turn.pc.attempt + 1)), op, track, fn, w.turn.pos, n);
  }

  lemma {:induction false} AttemptsAreOperations(w: World, op: Op, track: bool, fn: nat -> Attempt)
    requires w.turn.Active? && op.LocalStep? && w.turn.pc.Stepping? && w.turn.pc.attempt <= Attempts(op)
    ensures var n := w.turn.pc.attempt;
            Ops(w, op, track, fn, w.turn.pos, Attempts(op) - n + 2) == Concluded(w, op.name, Last(fn, n, Attempts(op)))
    decreases Attempts(op) - w.turn.pc.attempt
  {
    var n := w.turn.pc.attempt;
    assert Last(fn, n, Attempts(op))
           == if fn(n).Fails? && !fn(n).fatal && n < Attempts(op) then Last(fn, n + 1, Attempts(op)) else fn(n);
    if fn(n).Succeeds? || fn(n).fatal || n >= Attempts(op) {
      LastAttemptEnds(w, op, track, fn, Attempts(op) - n);
    } else {
      RetryAdvances(w, op, track, fn, Attempts(op) - n + 2);
      AttemptsAreOperations(At(w, Stepping(n + 1)), op, track, fn);
    }
  }

  /** Two operations that end the primitive, then nothing. */
  lemma ResolvingAdvances(w: World, op: Op, track: bool, fn: nat -> Attempt, n: nat)
    requires w.turn.Active? && op.Child? && w.turn.pc.Resolving?
    ensures var at := w.turn.pos;
            Ops(w, op, track, fn, at, n + 2) == Resolved(w, IdOf(w.runId, op, at), w.turn.pc.completion)
  {
    var at, id, c := w.turn.pos, IdOf(w.runId, op, w.turn.pos), w.turn.pc.completion;
    var freed := if id in w.waiters && w.waiters[id] == at then w.(waiters := w.waiters - {id}) else w;
    Unfold(w, At(freed, Recording(c)), op, track, fn, at, n + 2);
    Unfold(At(freed, Recording(c)), Resolved(w, id, c), op, track, fn, at, n + 1);
    Rest(Resolved(w, id, c), op, track, fn, at, n);
  }

  lemma BufferedAdvances(w: World, op: Op, track: bool, fn: nat -> Attempt)
    requires w.turn.Active? && op.Child? && w.turn.pc == Registered
    requires var id := IdOf(w.runId, op, w.turn.pos); id in w.buffered && |w.buffered[id]| > 0
    ensures Ops(w, op, track, fn, w.turn.pos, 4) == Collected(w, IdOf(w.runId, op, w.turn.pos))
  {
    var at, id := w.turn.pos, IdOf(w.runId, op, w.turn.pos);
    var next := At(w.(buffered := w.buffered[id := w.buffered[id][1..]]), Resolving(w.buffered[id][0]));
    Unfold(w, next, op, track, fn, at, 4);
    ResolvingAdvances(next, op, track, fn, 1);
  }

  lemma TerminalAdvances(w: World, op: Op, track: bool, fn: nat -> Attempt)
    requires w.turn.Active? && op.Child? && w.turn.pc == Registered
    requires var id := IdOf(w.runId, op, w.turn.pos);
             !(id in w.buffered && |w.buffered[id]| > 0) && id in w.rows && w.rows[id].Terminal?
    ensures Ops(w, op, track, fn, w.turn.pos, 4) == Collected(w, IdOf(w.runId, op, w.turn.pos))
  {
    var at, id := w.turn.pos, IdOf(w.runId, op, w.turn.pos);
    var next := At(w, Resolving(FromRow(w.rows[id].outcome)));
    Unfold(w, At(w, Unbuffered), op, track, fn, at, 4);
    Unfold(At(w, Unbuffered), next, op, track, fn, at, 3);
    ResolvingAdvances(next, op, track, fn, 0);
  }

  lemma WaitingAdvances(w: World, op: Op, track: bool, fn: nat -> Attempt)
    requires w.turn.Active? && op.Child? && w.turn.pc == Registered
    requires var id := IdOf(w.runId, op, w.turn.pos);
             !(id in w.buffered && |w.buffered[id]| > 0) && !(id in w.rows && w.rows[id].Terminal?)
    ensures Ops(w, op, track, fn, w.turn.pos, 4) == Collected(w, IdOf(w.runId, op, w.turn.pos))
  {
    var at := w.turn.pos;
    Unfold(w, At(w, Unbuffered), op, track, fn, at, 4);
    Unfold(At(w, Unbuffered), Suspend(w, None), op, track, fn, at, 3);
    Rest(Suspend(w, None), op, track, fn, at, 2);
  }

  lemma RegisteredAdvances(w: World, op: Op, track: bool, fn: nat -> Attempt)
    requires w.turn.Active? && op.Child? && w.turn.pc == Registered
    ensures Ops(w, op, track, fn, w.turn.pos, 4) == Collected(w, IdOf(w.runId, op, w.turn.pos))
  {
    var id := IdOf(w.runId, op, w.turn.pos);
    if id in w.buffered && |w.buffered[id]| > 0 {
      BufferedAdvances(w, op, track, fn);
    } else if id in w.rows && w.rows[id].Terminal? {
      TerminalAdvances(w, op, track, fn);
    } else {
      WaitingAdvances(w, op, track, fn);
    }
  }

  lemma ResumedNext(w: World, op: Op, track: bool, fn: nat -> Attempt)
    requires w.turn.Active? && w.turn.pc == Ready && op.Child?
    requires var cp := Read(w.turn.snapshot, w.journal, w.turn.pos); cp.Some? && cp.value.status != Completed
    ensures Next(w, op, track, fn, w.turn.pos) == At(w, Registered)
  {
  }

  lemma ResumedEffect(w: World, op: Op, track: bool, fn: nat -> Attempt)
    requires w.turn.Active? && w.turn.pc == Ready && op.Child?
    requires var cp := Read(w.turn.snapshot, w.journal, w.turn.pos); cp.Some? && cp.value.status != Completed
    ensures Effect(w, op, track, fn) == Collected(w, IdOf(w.runId, op, w.turn.pos))
  {
  }

  lemma CollectedAnyway(w: World, pc: Pc, id: string)
    requires w.turn.Active?
    ensures Collected(At(w, pc), id) == Collected(w, id)
  {
    if id in w.buffered && |w.buffered[id]| > 0 {
      ResolvedAnyway(w.(buffered := w.buffered[id := w.buffered[id][1..]]), pc, id, w.buffered[id][0]);
    } else if id in w.rows && w.rows[id].Terminal? {
      ResolvedAnyway(w, pc, id, FromRow(w.rows[id].outcome));
    }
  }

  lemma ResolvedAnyway(w: World, pc: Pc, id: string, c: Completion)
    requires w.turn.Active?
    ensures Resolved(At(w, pc), id, c) == Resolved(w, id, c)
  {
  }

  function Put(w: World, op: Op): World
    requires w.turn.Active? && op.Child?
  {
    At(w.(waiters := w.waiters[IdOf(w.runId, op, w.turn.pos) := w.turn.pos]), WaiterPut)
  }

  function Placed(w: World, op: Op): World
    requires w.turn.Active? && op.Child?
  {
    At(Write(Put(w, op), Checkpoint(NameOf(w.runId, op, w.turn.pos), Running, Nothing, None)), Registered)
  }

  lemma PlacedNext(w: World, op: Op, track: bool, fn: nat -> Attempt)
    requires w.turn.Active? && w.turn.pc == Ready && op.Child?
    requires Read(w.turn.snapshot, w.journal, w.turn.pos) == None
    ensures Next(w, op, track, fn, w.turn.pos) == Put(w, op)
  {
  }

  lemma PutNext(w: World, op: Op, track: bool, fn: nat -> Attempt)
    requires w.turn.Active? && w.turn.pc == Ready && op.Child?
    ensures Next(Put(w, op), op, track, fn, w.turn.pos) == Placed(w, op)
  {
  }

  lemma PlacedEffect(w: World, op: Op, track: bool, fn: nat -> Attempt)
    requires w.turn.Active? && w.turn.pc == Ready && op.Child?
    requires Read(w.turn.snapshot, w.journal, w.turn.pos) == None
    ensures Effect(w, op, track, fn) == Collected(Placed(w, op), IdOf(w.runId, op, w.turn.pos))
  {
  }

  lemma ChildIsItsOperations(w: World, op: Op, track: bool, fn: nat -> Attempt)
    requires w.turn.Active? && w.turn.pc == Ready && op.Child?
    requires Decide(op, NameOf(w.runId, op, w.turn.pos), Read(w.turn.snapshot, w.journal, w.turn.pos), w.clock) == Fresh
    ensures exists n: nat :: Ops(w, op, track, fn, w.turn.pos, n) == Effect(w, op, track, fn)
  {
    var at := w.turn.pos;
    if Read(w.turn.snapshot, w.journal, at).Some? {
      ResumedNext(w, op, track, fn);
      ResumedEffect(w, op, track, fn);
      CollectedAnyway(w, Registered, IdOf(w.runId, op, at));
      Unfold(w, At(w, Registered), op, track, fn, at, 5);
      RegisteredAdvances(At(w, Registered), op, track, fn);
    } else {
      PlacedNext(w, op, track, fn);
      PutNext(w, op, track, fn);
      PlacedEffect(w, op, track, fn);
      Unfold(w, Put(w, op), op, track, fn, at, 6);
      Unfold(Put(w, op), Placed(w, op), op, track, fn, at, 5);
      RegisteredAdvances(Placed(w, op), op, track, fn);
    }
  }

  lemma SteppedNext(w: World, op: Op, track: bool, fn: nat -> Attempt)
    requires w.turn.Active? && w.turn.pc == Ready && op.LocalStep?
    requires Decide(op, op.name, Read(w.turn.snapshot, w.journal, w.turn.pos), w.clock) == Fresh
    ensures var begun := Next(w, op, track, fn, w.turn.pos);
            && begun.turn.Active? && begun.turn.pc == Stepping(1) && begun.turn.pos == w.turn.pos
            && Effect(w, op, track, fn) == Concluded(begun, op.name, Last(fn, 1, Attempts(op)))
  {
  }

  lemma StepIsItsOperations(w: World, op: Op, track: bool, fn: nat -> Attempt)
    requires w.turn.Active? && w.turn.pc == Ready && op.LocalStep?
    requires Decide(op, op.name, Read(w.turn.snapshot, w.journal, w.turn.pos), w.clock) == Fresh
    ensures exists n: nat :: Ops(w, op, track, fn, w.turn.pos, n) == Effect(w, op, track, fn)
  {
    SteppedNext(w, op, track, fn);
    var begun := Next(w, op, track, fn, w.turn.pos);
    Unfold(w, begun, op, track, fn, w.turn.pos, Attempts(op) + 2);
    AttemptsAreOperations(begun, op, track, fn);
  }

  /** A whole primitive is its machine operations with nothing interleaved: they end it, in its effect. */
  lemma PrimitiveIsItsOperations(w: World, op: Op, track: bool, fn: nat -> Attempt)
    requires w.turn.Active? && w.turn.pc == Ready
    ensures exists n: nat :: Ops(w, op, track, fn, w.turn.pos, n) == Effect(w, op, track, fn)
  {
    var at, name := w.turn.pos, NameOf(w.runId, op, w.turn.pos);
    var undecided := Decide(op, name, Read(w.turn.snapshot, w.journal, at), w.clock) == Fresh;
    if undecided && op.LocalStep? {
      StepIsItsOperations(w, op, track, fn);
    } else if undecided && op.Child? {
      ChildIsItsOperations(w, op, track, fn);
    } else {
      var end := Effect(w, op, track, fn);
      Unfold(w, end, op, track, fn, at, 1);
      assert Ops(end, op, track, fn, at, 0) == end;
    }
  }

  class Ctx {
    const store: Store
    const runId: string
    const track: bool
    const clock: int
    var seqNo: int
    var replay: map<nat, Checkpoint>
    /** What the body has been given in this turn. */
    ghost var trace: seq<Result>

    ghost predicate Valid()
      reads this
    {
      seqNo >= -1
    }

    /** The machine's view of this context, between two primitives. */
    ghost function Between(): World
      reads this, store
      requires Valid()
    {
      World(runId, store.journal, store.waiters, store.buffered, store.rows, clock,
          Active(replay, seqNo + 1, trace, Ready))
    }

    /** The same view once a primitive has ended in `o`. */
    ghost function After(o: Outcome): World
      reads this, store
      requires Valid()
    {
      if o.Yielded? then Between() else Between().(turn := Idle(o.stop))
    }

    /** The view while a primitive is under way at `seqNo`. */
    ghost function Claimed(): World
      reads this, store
      requires Valid() && seqNo >= 0
    {
      World(runId, store.journal, store.waiters, store.buffered, store.rows, clock, Active(replay, seqNo, trace, Ready))
    }

    constructor (store: Store, runId: string, track: bool, clock: int)
      ensures Valid() && this.store == store && this.runId == runId && this.track == track && this.clock == clock
      ensures replay == store.journal && trace == [] && seqNo == -1
    {
      this.store, this.runId, this.track, this.clock := store, runId, track, clock;
      seqNo, replay, trace := -1, store.journal, [];
    }

    /** Through the snapshot when it holds the position, else live. */
    method ReadCheckpoint(at: nat) returns (cp: Option<Checkpoint>)
      ensures cp == Read(replay, store.journal, at)
      ensures cp == if at in replay then Some(replay[at])
              else if at in store.journal then Some(store.journal[at]) else None
    {
      if at in replay { return Some(replay[at]); }
      cp := store.GetCheckpoint(at);
    }

    method WriteCheckpoint(at: nat, cp: Checkpoint)
      modifies this`replay, store`journal
      ensures store.journal == old(store.journal)[at := cp] && replay == old(replay)[at := cp]
    {
      store.SaveCheckpoint(at, cp);
      replay := replay[at := cp];
    }

    method SetEvent(key: string, value: Value) returns (o: Outcome)
      requires Valid()
      modifies this, store`journal
      ensures Valid() && forall fn :: After(o) == Effect(old(Between()), Op.SetEvent(key, value), track, fn)
      ensures o.Yielded? ==> trace == old(trace) + [o.result]
      ensures seqNo == old(seqNo) + 1
      ensures match old(Read(replay, store.journal, seqNo + 1))
              case None =>
                o == Yielded(Done)
                && store.journal == old(store.journal)[seqNo :=
                     Checkpoint("event:" + key, Completed, Output(value), None)]
              case Some(cp) =>
                if cp.name != "event:" + key then o == Ends(NonDeterminism) && store.journal == old(store.journal)
                else o == Yielded(Done) && (cp.status == Completed ==> store.journal == old(store.journal))
    {
      seqNo := seqNo + 1;
      var name := "event:" + key;
      var existing := ReadCheckpoint(seqNo);
      if existing.Some? && existing.value.name != name {
        return Ends(NonDeterminism);
      }
      if !(existing.Some? && existing.value.status == Completed) {
        WriteCheckpoint(seqNo, Instant(name, Output(value)));
      }
      trace := trace + [Done];
      o := Yielded(Done);
    }

    method Sleep(ms: nat) returns (o: Outcome)
      requires Valid()
      modifies this, store`journal
      ensures Valid() && forall fn :: After(o) == Effect(old(Between()), Op.Sleep(ms), track, fn)
      ensures o.Yielded? ==> trace == old(trace) + [o.result]
      ensures seqNo == old(seqNo) + 1
      ensures match old(Read(replay, store.journal, seqNo + 1))
              case None =>
                o == Ends(Suspended(Some(clock + ms)))
                && store.journal == old(store.journal)[seqNo :=
                     Checkpoint("sleep", Completed, Nothing, Some(clock + ms))]
              case Some(cp) =>
                store.journal == old(store.journal)
                && (cp.wakeAt.Some? ==> o == if clock >= cp.wakeAt.value then Yielded(Done)
                     else Ends(Suspended(cp.wakeAt)))
    {
      seqNo := seqNo + 1;
      var now := clock;
      var existing := ReadCheckpoint(seqNo);
      if existing.Some? {
        var due := if existing.value.wakeAt.Some? then existing.value.wakeAt.value else 0;
        if now >= due {
          trace := trace + [Done];
          return Yielded(Done);
        }
        return Ends(Suspended(Some(due)));
      }
      var at := clock + ms;
      WriteCheckpoint(seqNo, Checkpoint("sleep", Completed, Nothing, Some(at)));
      o := Ends(Suspended(Some(at)));
    }

    /** The attempt that decided a step has been recorded at the position claimed, and handed to the body. */
    ghost predicate Ran(name: string, a: Attempt, o: Outcome, journal: map<nat, Checkpoint>)
      reads this, store
      requires Valid()
    {
      && seqNo >= 0
      && match a
         case Succeeds(v) =>
           o == Yielded(Got(v)) && store.journal == journal[seqNo := Checkpoint(name, Completed, Output(v), None)]
         case Fails(f, _) =>
           o == Yielded(Threw(f)) && store.journal == journal[seqNo := Checkpoint(name, Failed, Nothing, None)]
    }

    /** `fn(n)` is how attempt `n` of the step's body ends. */
    method LocalStep(name: string, fn: nat -> Attempt, retries: nat) returns (o: Outcome)
      requires Valid()
      modifies this, store`journal
      ensures Valid() && After(o) == Effect(old(Between()), Op.LocalStep(name, retries), track, fn)
      ensures o.Yielded? ==> trace == old(trace) + [o.result]
      ensures seqNo == old(seqNo) + 1
      ensures match old(Read(replay, store.journal, seqNo + 1))
              case None => exists k: nat :: Decides(fn, k, retries) && Ran(name, fn(k), o, old(store.journal))
              case Some(cp) =>
                if cp.name != name then o == Ends(NonDeterminism) && store.journal == old(store.journal)
                else if cp.status == Completed then
                  store.journal == old(store.journal) && (cp.output.Output? ==> o == Yielded(Got(cp.output.value)))
                else exists k: nat :: Decides(fn, k, retries) && Ran(name, fn(k), o, old(store.journal))
    {
      seqNo := seqNo + 1;
      var existing := ReadCheckpoint(seqNo);
      if existing.Some? && existing.value.name != name {
        return Ends(NonDeterminism);
      }
      if existing.Some? && existing.value.status == Completed {
        var r := OutputOf(existing.value.output);
        trace := trace + [r];
        return Yielded(r);
      }
      ghost var before := store.journal;
      if track {
        store.SaveCheckpoint(seqNo, Checkpoint(name, Running, Nothing, None));
      }
      ghost var started := store.journal;
      o := Execute(name, fn, retries);
      ghost var k: nat :| Decides(fn, k, retries) && Ran(name, fn(k), o, started);
      assert Ran(name, fn(k), o, before);
    }

    /** The retry loop of a local step, at the position already claimed. */
    method Execute(name: string, fn: nat -> Attempt, retries: nat) returns (o: Outcome)
      requires Valid() && seqNo >= 0
      modifies this`trace, store`journal
      ensures Valid() && o.Yielded?
      ensures Between() == Concluded(old(Claimed()), name, Last(fn, 1, Attempts(Op.LocalStep(name, retries))))
      ensures trace == old(trace) + [o.result]
      ensures exists k: nat :: Decides(fn, k, retries) && Ran(name, fn(k), o, old(store.journal))
    {
      var maxAttempts := if retries > 1 then retries else 1;
      var attempt := 1;
      while true
        invariant 1 <= attempt <= maxAttempts
        invariant trace == old(trace) && store.journal == old(store.journal)
        invariant forall j: nat | 1 <= j < attempt :: fn(j).Fails? && !fn(j).fatal
        invariant Last(fn, attempt, maxAttempts) == Last(fn, 1, maxAttempts)
        decreases maxAttempts - attempt
      {
        match fn(attempt) {
          case Succeeds(v) =>
            store.SaveCheckpoint(seqNo, Instant(name, Output(v)));
            trace := trace + [Got(v)];
            assert Decides(fn, attempt, retries);
            return Yielded(Got(v));
          case Fails(f, fatal) =>
            if fatal || attempt >= maxAttempts {
              store.SaveCheckpoint(seqNo, Checkpoint(name, Failed, Nothing, None));
              trace := trace + [Threw(f)];
              assert Decides(fn, attempt, retries);
              return Yielded(Threw(f));
            }
        }
        attempt := attempt + 1;
      }
    }

    /** A child's completion as the body gets it: its value, or its failure thrown. */
    static predicate Told(c: Completion, o: Outcome) {
      match c
      case Ok(v) => o == Yielded(Got(v))
      case Err(f) => o == Yielded(Threw(f))
    }

    /** A settled child is recorded at the position claimed, its waiter is gone, and the body is told. */
    ghost predicate Settles(id: string, c: Completion, o: Outcome)
      reads this, store
      requires Valid()
    {
      && seqNo >= 0 && Told(c, o)
      && seqNo in store.journal && store.journal[seqNo] == Checkpoint("signal:child:" + id, Completed, Settled(c), None)
      && (id in store.waiters ==> store.waiters[id] != seqNo)
    }

    /**
     * What the lost-notify guard comes to: the oldest completion buffered for the child, else what its
     * terminal row says, without code and details, else a wait.
     */
    ghost predicate Took(id: string, buffered: map<string, seq<Completion>>, o: Outcome)
      reads this, store
      requires Valid()
    {
      if id in buffered && buffered[id] != [] then
        Settles(id, buffered[id][0], o) && store.buffered == buffered[id := buffered[id][1..]]
      else
        && store.buffered == buffered
        && if id in store.rows && store.rows[id].Terminal? then
             match store.rows[id].outcome
             case Ok(v) => Settles(id, Ok(v), o)
             case Err(f) => Settles(id, Err(Failure(f.message, None, None)), o)
           else o == Ends(Suspended(None))
    }

    /** `id` is the caller's, or minted from the run and the position. */
    method Child(childId: Option<string>) returns (o: Outcome)
      requires Valid()
      modifies this, store
      ensures Valid() && store.rows == old(store.rows)
      ensures forall fn :: After(o) == Effect(old(Between()), Op.Child(childId), track, fn)
      ensures o.Yielded? ==> trace == old(trace) + [o.result]
      ensures seqNo == old(seqNo) + 1
      ensures var id := match childId case Some(i) => i case None => runId + ".child." + Text.Decimal(seqNo);
              var found := old(Read(replay, store.journal, seqNo + 1));
              if found.Some? && found.value.status == Completed then
                && store.journal == old(store.journal) && store.waiters == old(store.waiters)
                && store.buffered == old(store.buffered)
                && (found.value.output.Settled? ==> Told(found.value.output.completion, o))
              else
                && Took(id, old(store.buffered), o)
                && (o == Ends(Suspended(None)) ==>
                      && store.journal == (if found.Some? then old(store.journal)
                                           else old(store.journal)[seqNo :=
                                               Checkpoint("signal:child:" + id, Running, Nothing, None)])
                      && store.waiters == (if found.Some? then old(store.waiters) else old(store.waiters)[id := seqNo]))
    {
      seqNo := seqNo + 1;
      var id := match childId case Some(i) => i case None => runId + ".child." + Text.Decimal(seqNo);
      var existing := ReadCheckpoint(seqNo);
      if existing.Some? && existing.value.status == Completed {
        var r := Unwrap(existing.value.output);
        trace := trace + [r];
        return Yielded(r);
      }
      if existing == None {
        store.PutSignalWaiter(id, seqNo);
        WriteCheckpoint(seqNo, Checkpoint("signal:child:" + id, Running, Nothing, None));
      }
      o := Collect(id);
    }

    /** The lost-notify guard of an awaited child, once its waiter is registered. */
    method Collect(id: string) returns (o: Outcome)
      requires Valid() && seqNo >= 0
      modifies this, store
      ensures Valid() && store.rows == old(store.rows)
      ensures After(o) == Collected(old(Claimed()), id)
      ensures seqNo == old(seqNo) && (o.Yielded? ==> trace == old(trace) + [o.result])
      ensures Took(id, old(store.buffered), o)
    {
      var buffered := store.TakeBufferedSignal(id);
      if buffered.Some? {
        o := Settle(id, buffered.value);
        return;
      }
      var row := store.GetRun(id);
      if row.Some? && row.value.Terminal? {
        o := Settle(id, FromRow(row.value.outcome));
        return;
      }
      o := Ends(Suspended(None));
    }

    /** The child's completion is in hand: give up the waiter, record it, unwrap it. */
    method Settle(id: string, c: Completion) returns (o: Outcome)
      requires Valid() && seqNo >= 0
      modifies this, store`journal, store`waiters
      ensures Valid() && o.Yielded? && Between() == Resolved(old(Claimed()), id, c)
      ensures seqNo == old(seqNo) && trace == old(trace) + [o.result] && Settles(id, c, o)
    {
      store.RemoveSignalWaiter(id, seqNo);
      WriteCheckpoint(seqNo, Instant("signal:child:" + id, Settled(c)));
      trace := trace + [Unwrap(Settled(c))];
      o := Yielded(Unwrap(Settled(c)));
    }
  }
}
