/**
 * The journals a parent writes: the primitives it calls, each at the positions it claims, and what the
 * lookups of a child's settlement make of them.
 */
module ChildJournals {
  import opened Common
  import opened ChildSignals
  import FanPlan
  import FanFold
  import FanRuns
  import FanProofs
  import FanShelter

  /**
   * A call of the parent's body and the rows there are of it: a fan's cells; an awaited child, with
   * its id when the caller chose it, and no row yet, a placeholder, or an outcome; a child started
   * and not awaited; any other primitive.
   */
  datatype Call =
    | FanCall(plan: FanPlan.Plan, inWaves: bool, cells: FanFold.Block)
    | Await(child: Option<ChildId>, row: Option<Option<Completion>>)
    | Start(child: Option<ChildId>, recorded: bool)
    | Primitive(recorded: bool)

  /** As `fan` writes it: whole waves folded, a fan without waves in one. */
  ghost predicate Good(call: Call) {
    call.FanCall? ==>
      && FanFold.OnWaves(call.plan, call.cells)
      && (if call.inWaves then call.plan.waveSize <= call.plan.size else call.plan.waveSize == call.plan.size)
  }

  ghost predicate AllGood(calls: seq<Call>) { forall k | 0 <= k < |calls| :: Good(calls[k]) }

  /** How many positions the call claims. */
  function Span(call: Call): nat { if call.FanCall? then |call.cells| else 1 }

  function IdOf(p: string, child: Option<ChildId>, at: nat): ChildId {
    if child.Some? then child.value else AtSeq(p, at)
  }

  function WaveAt(call: Call, i: nat): Option<nat>
    requires call.FanCall? && call.plan.Valid()
  {
    if call.inWaves then Some(call.plan.WaveOf(i)) else None
  }

  /** The row of a fan's cell. */
  function CellRow(p: string, at: nat, call: Call, i: nat): Checkpoint
    requires call.FanCall? && call.plan.Valid() && i < |call.cells| && call.cells[i].Some?
  {
    var signal := Signal(InFan(p, at, WaveAt(call, i), i));
    match call.cells[i].value
    case Waiting => Checkpoint(signal, false, Opaque)
    case Done(c) => Checkpoint(signal, true, Completed(c))
    case Fold(from, values) => Checkpoint(Fold(p, at, WaveAt(call, i)), true, Values(from, |values|))
    case _ => Checkpoint(Other, true, Opaque)
  }

  /** The row a call whose first position is `at` has at position `s`. */
  function RowAt(p: string, call: Call, at: nat, s: nat): Option<Checkpoint> {
    match call
    case FanCall(plan, _, cells) =>
      if plan.Valid() && at <= s < at + |cells| && cells[s - at].Some? then Some(CellRow(p, at, call, s - at)) else None
    case Await(child, row) =>
      if s != at || row == None then None
      else if row.value == None then Some(Checkpoint(Signal(IdOf(p, child, at)), false, Opaque))
      else Some(Checkpoint(Signal(IdOf(p, child, at)), true, Completed(row.value.value)))
    case Start(child, recorded) =>
      if s == at && recorded then Some(Checkpoint(Spawn(IdOf(p, child, at)), true, Opaque)) else None
    case Primitive(recorded) => if s == at && recorded then Some(Checkpoint(Other, true, Opaque)) else None
  }

  /** Where call `k` starts: the position counter after the calls before it. */
  function StartOf(calls: seq<Call>, k: nat): nat
    requires k <= |calls|
  {
    if k == 0 then 0 else StartOf(calls, k - 1) + Span(calls[k - 1])
  }

  lemma {:induction false} StartsApart(calls: seq<Call>, k: nat, m: nat)
    requires k < m <= |calls|
    ensures StartOf(calls, k) + Span(calls[k]) <= StartOf(calls, m)
  {
    if k < m - 1 { StartsApart(calls, k, m - 1); }
  }

  /** `j` is the journal of these calls. */
  ghost predicate JournalOf(p: string, calls: seq<Call>, j: Journal) {
    && (forall s | s in j :: exists k :: Writes(p, calls, k, s, j[s]))
    && (forall k, s: nat, cp | Writes(p, calls, k, s, cp) :: s in j)
  }

  predicate Writes(p: string, calls: seq<Call>, k: int, s: nat, cp: Checkpoint) {
    0 <= k < |calls| && RowAt(p, calls[k], StartOf(calls, k), s) == Some(cp)
  }

  /** A row is within its call's positions. */
  lemma WithinSpan(p: string, calls: seq<Call>, k: nat, s: nat, cp: Checkpoint)
    requires Writes(p, calls, k, s, cp)
    ensures StartOf(calls, k) <= s < StartOf(calls, k) + Span(calls[k])
  {
  }

  /** A position is one call's. */
  lemma OneCall(calls: seq<Call>, k: nat, m: nat, s: nat)
    requires k < |calls| && m < |calls|
    requires StartOf(calls, k) <= s < StartOf(calls, k) + Span(calls[k])
             && StartOf(calls, m) <= s < StartOf(calls, m) + Span(calls[m])
    ensures k == m
  {
    if m < k { StartsApart(calls, m, k); }
    if k < m { StartsApart(calls, k, m); }
  }

  /** `j` is a journal a parent `p` writes by these calls. */
  ghost predicate Written(p: string, calls: seq<Call>, j: Journal) { AllGood(calls) && JournalOf(p, calls, j) }

  /** A fold is a fan's. */
  lemma FoldRow(p: string, calls: seq<Call>, k: nat, s: nat, cp: Checkpoint)
    requires AllGood(calls) && Writes(p, calls, k, s, cp) && IsFold(p, cp)
    ensures var call, at := calls[k], StartOf(calls, k);
            && call.FanCall? && cp.name.first == at && cp.name.wave == WaveAt(call, s - at)
            && s - at == cp.output.from == call.plan.WaveOf(s - at) * call.plan.waveSize
            && (call.plan.WaveOf(s - at) == 0 ==> cp.output.count == call.plan.waveSize)
            && (!call.inWaves ==> call.plan.WaveOf(s - at) == 0)
  {
    FoldShape(calls[k].plan, calls[k].cells, s - StartOf(calls, k), calls[k].inWaves);
  }

  lemma FoldShape(plan: FanPlan.Plan, b: FanFold.Block, i: nat, inWaves: bool)
    requires FanFold.OnWaves(plan, b) && i < |b| && b[i].Some? && b[i].value.Fold?
    requires if inWaves then plan.waveSize <= plan.size else plan.waveSize == plan.size
    ensures i == b[i].value.from == plan.WaveOf(i) * plan.waveSize
    ensures plan.WaveOf(i) == 0 ==> |b[i].value.values| == plan.waveSize
    ensures !inWaves ==> plan.WaveOf(i) == 0
  {
    if !inWaves { FanPlan.Quotient(i, plan.waveSize, 0); }
  }

  /** Two folds of a fan: the second's place among the waves is told by the first wave's size. */
  lemma FoldsOfOneFan(p: string, calls: seq<Call>, j: Journal, s: nat, z: nat)
    requires AllGood(calls) && JournalOf(p, calls, j) && s in j && z in j && IsFold(p, j[s]) && IsFold(p, j[z])
    requires j[s].name.first == j[z].name.first && j[s].name.wave.Some? && j[z].name.wave == Some(0)
    ensures j[s].output.from == j[s].name.wave.value * j[z].output.count
  {
    var k :| Writes(p, calls, k, s, j[s]);
    var m :| Writes(p, calls, m, z, j[z]);
    FoldRow(p, calls, k, s, j[s]);
    FoldRow(p, calls, m, z, j[z]);
    WithinSpan(p, calls, k, s, j[s]);
    WithinSpan(p, calls, m, z, j[z]);
    OneCall(calls, k, m, j[s].name.first);
  }

  /** What a parent writes, any number of fans beside any other calls, is what the keyed lookup supposes. */
  lemma WrittenWell(p: string, calls: seq<Call>, j: Journal)
    requires Written(p, calls, j)
    ensures Folds(p, j)
  {
    forall s | s in j && IsFold(p, j[s])
      ensures s == j[s].name.first + j[s].output.from
      ensures j[s].name.wave == None || j[s].name.wave == Some(0) ==> j[s].output.from == 0
    {
      var k :| Writes(p, calls, k, s, j[s]);
      FoldRow(p, calls, k, s, j[s]);
    }
    forall s, z | s in j && z in j && IsFold(p, j[s]) && IsFold(p, j[z])
                  && j[s].name.first == j[z].name.first && j[s].name.wave.Some? && j[z].name.wave == Some(0)
      ensures j[s].output.from == j[s].name.wave.value * j[z].output.count
    {
      FoldsOfOneFan(p, calls, j, s, z);
    }
  }

  /**
   * On every journal a parent writes the keyed lookup decides as the scan by name exactly when the
   * child is neither shadowed by a row under a fold nor recorded away from its own position.
   */
  lemma KeyedIsByName(p: string, calls: seq<Call>, j: Journal, c: ChildId, expected: Option<Completion>)
    requires Written(p, calls, j) && ParentOf(c) == Some(p)
    ensures (Keyed(j, c, expected) <==> ByName(j, c, expected)) <==>
              !Shadowed(j, c, expected) && !Misplaced(j, c, expected)
  {
    WrittenWell(p, calls, j);
    KeyedIff(p, j, c, expected);
  }

  /** No caller chose an id the parent mints for a fan's child. */
  predicate NoFanLookAlike(p: string, calls: seq<Call>) {
    forall k | 0 <= k < |calls| && calls[k].Await? && calls[k].child.Some? ::
      !(calls[k].child.value.InFan? && calls[k].child.value.parent == p)
  }

  /** Then a fan's child has its signal at its own position, and only there. */
  lemma FanSignals(p: string, calls: seq<Call>, j: Journal, s: nat)
    requires JournalOf(p, calls, j) && NoFanLookAlike(p, calls) && s in j
    requires j[s].name.Signal? && j[s].name.child.InFan? && j[s].name.child.parent == p
    ensures s == j[s].name.child.first + j[s].name.child.index
  {
    var k :| Writes(p, calls, k, s, j[s]);
  }

  lemma SeqSignal(p: string, calls: seq<Call>, k: nat, s: nat, cp: Checkpoint, at: nat)
    requires Writes(p, calls, k, s, cp) && cp.name == Signal(AtSeq(p, at))
             && (calls[k].Await? ==> calls[k].child != Some(AtSeq(p, at)))
    ensures s == at
  {
  }

  /** A child by position is misplaced only by a call that awaits it by its id. */
  lemma SeqChildFound(p: string, calls: seq<Call>, j: Journal, at: nat, expected: Option<Completion>)
    requires JournalOf(p, calls, j)
    requires forall k | 0 <= k < |calls| && calls[k].Await? :: calls[k].child != Some(AtSeq(p, at))
    ensures Keyed(j, AtSeq(p, at), expected) <==> ByName(j, AtSeq(p, at), expected)
  {
    var c := AtSeq(p, at);
    forall s | s in j && HoldsSignal(j[s], Signal(c), expected) ensures s == at {
      var k :| Writes(p, calls, k, s, j[s]);
      SeqSignal(p, calls, k, s, j[s], at);
    }
    KeyedSeqIff(j, c, expected);
  }

  /** The `k`-th call is `call`, from position `at` on. */
  predicate IsCall(calls: seq<Call>, k: nat, call: Call, at: nat) {
    k < |calls| && call == calls[k] && at == StartOf(calls, k)
  }

  /** The folds that cover a fan's child are its fan's. */
  lemma FoldsOfChild(p: string, calls: seq<Call>, j: Journal, k: nat, call: Call, at: nat, i: nat, s: nat,
                     wave: Option<nat>)
    requires Written(p, calls, j) && IsCall(calls, k, call, at) && call.FanCall? && i < |call.cells|
    requires s in j && Covers(FoldOf(Some(j[s]), Fold(p, at, wave)), i)
    ensures at <= s <= at + i && FanFold.Covers(call.cells, s - at, i)
  {
    var m :| Writes(p, calls, m, s, j[s]);
    FoldRow(p, calls, m, s, j[s]);
    WithinSpan(p, calls, m, s, j[s]);
    OneCall(calls, k, m, at);
  }

  /** The row at a fan child's own position is its cell's. */
  lemma OwnRow(p: string, calls: seq<Call>, j: Journal, k: nat, call: Call, at: nat, i: nat)
    requires Written(p, calls, j) && IsCall(calls, k, call, at) && call.FanCall? && call.plan.Valid()
             && i < |call.cells| && at + i in j
    ensures call.cells[i].Some? && j[at + i] == CellRow(p, at, call, i)
  {
    var m :| Writes(p, calls, m, at + i, j[at + i]);
    WithinSpan(p, calls, m, at + i, j[at + i]);
    OneCall(calls, k, m, at + i);
  }

  /** The call is a fan in a state some run of it reaches. */
  ghost predicate Reached(call: Call, e: FanRuns.Setting, evs: seq<FanRuns.Event>) {
    call.FanCall? && call.plan == e.plan && e.plan.Valid() && call.cells == FanRuns.Run(e, FanRuns.Init(e), evs).cells
  }

  /** A row under a fold, if it is the child's signal, holds what the child says. */
  lemma SaidUnderFold(p: string, call: Call, e: FanRuns.Setting, evs: seq<FanRuns.Event>, q: nat, i: nat,
                      at: nat, name: Name)
    requires Reached(call, e, evs) && FanFold.Covers(call.cells, q, i) && i < |call.cells| && call.cells[i].Some?
    requires name.Signal? && CellRow(p, at, call, i).name == name
    ensures HoldsSignal(CellRow(p, at, call, i), name, Some(Notified(e.outcome(i))))
  {
    FanShelter.UnderFolds(e, evs, q, i);
  }

  lemma CoveredHolds(p: string, calls: seq<Call>, j: Journal, k: nat, call: Call, at: nat,
                     e: FanRuns.Setting, evs: seq<FanRuns.Event>, i: nat, wave: Option<nat>, name: Name, s: nat)
    requires Written(p, calls, j) && IsCall(calls, k, call, at) && Reached(call, e, evs) && i < |call.cells|
    requires s in j && Covers(FoldOf(Some(j[s]), Fold(p, at, wave)), i)
    requires name.Signal? && at + i in j && j[at + i].name == name
    ensures HoldsSignal(j[at + i], name, Some(Notified(e.outcome(i))))
  {
    FoldsOfChild(p, calls, j, k, call, at, i, s, wave);
    OwnRow(p, calls, j, k, call, at, i);
    SaidUnderFold(p, call, e, evs, s - at, i, at, name);
  }

  lemma NotShadowed(p: string, calls: seq<Call>, j: Journal, k: nat, call: Call, at: nat,
                    e: FanRuns.Setting, evs: seq<FanRuns.Event>, i: nat, c: ChildId)
    requires Written(p, calls, j) && IsCall(calls, k, call, at) && Reached(call, e, evs) && i < |call.cells|
    requires c.InFan? && c.parent == p && c.first == at && c.index == i
    ensures !Shadowed(j, c, Some(Notified(e.outcome(i))))
  {
    if at + i in j && j[at + i].name == Signal(c) {
      forall s | s in j && Covers(FoldOf(Some(j[s]), FoldName(c)), i)
        ensures HoldsSignal(j[at + i], Signal(c), Some(Notified(e.outcome(i))))
      {
        CoveredHolds(p, calls, j, k, call, at, e, evs, i, c.wave, Signal(c), s);
      }
    }
  }

  lemma NotMisplaced(p: string, calls: seq<Call>, j: Journal, c: ChildId, expected: Option<Completion>)
    requires JournalOf(p, calls, j) && NoFanLookAlike(p, calls) && c.InFan? && c.parent == p
    ensures !Misplaced(j, c, expected)
  {
    forall s | s in j && HoldsSignal(j[s], Signal(c), expected) ensures s == c.first + c.index {
      FanSignals(p, calls, j, s);
    }
  }

  /**
   * A fan in any state a run of it reaches is never shadowed for what its children say: the keyed
   * lookup of a child's own completion and the scan by name agree, late landings under folds included.
   */
  lemma FanChildFound(p: string, calls: seq<Call>, j: Journal, k: nat, e: FanRuns.Setting,
                      evs: seq<FanRuns.Event>, c: ChildId)
    requires Written(p, calls, j) && NoFanLookAlike(p, calls) && k < |calls| && Reached(calls[k], e, evs)
    requires c.InFan? && c.parent == p && c.first == StartOf(calls, k) && c.index < |calls[k].cells|
    ensures var said := Some(Notified(e.outcome(c.index))); Keyed(j, c, said) <==> ByName(j, c, said)
  {
    NotShadowed(p, calls, j, k, calls[k], c.first, e, evs, c.index, c);
    NotMisplaced(p, calls, j, c, Some(Notified(e.outcome(c.index))));
    KeyedIsByName(p, calls, j, c, Some(Notified(e.outcome(c.index))));
  }

  /** The calls of a fan, whatever its limit and its run, are as supposed. */
  lemma FanIsGood(size: nat, concurrency: Option<real>, e: FanRuns.Setting, evs: seq<FanRuns.Event>)
    requires size > 0 && FanPlan.PlanOf(size, concurrency) == Some(e.plan)
    ensures Good(FanCall(e.plan, FanPlan.AllWaves(size, concurrency).Bounded?,
              FanRuns.Run(e, FanRuns.Init(e), evs).cells))
  {
    FanProofs.StartValid(e);
    FanProofs.RunKeeps(e, FanRuns.Init(e), evs);
  }
}
