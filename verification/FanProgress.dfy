/** A fan whose turns are not interrupted sends every wave and ends. */
module FanProgress {
  import opened Common
  import opened FanPlan
  import opened FanFold
  import opened FanRuns
  import opened FanProofs

  // ---- a turn on its own ---------------------------------------------------------------------

  /** The turn's view says what the store does. */
  ghost predicate Linked(e: Setting, v: Block, cells: Block) {
    && OnWaves(e.plan, cells) && |v| == |cells|
    && forall i: nat | i < |v| :: Settlement(v[i]) == Reading(cells, i) && (v[i].Some? <==> ViewAt(cells, i).Some?)
  }

  /** What had a checkpoint still has one. */
  ghost predicate Kept(before: Block, cells: Block) {
    |before| == |cells| && forall i: nat | i < |cells| && ViewAt(before, i).Some? :: ViewAt(cells, i).Some?
  }

  /** Child `i` is on its way: not over, but started or about to be. */
  predicate OnItsWay(rows: map<nat, Row>, starts: set<nat>, i: nat) { !Over(rows, i) && (i in rows || i in starts) }

  /** Every child of wave `k` has a checkpoint, and has started or is about to. */
  ghost predicate RecordedWave(e: Setting, w: Fan, k: nat)
    requires |w.cells| == e.plan.size
  {
    forall i: nat | e.plan.First(k) <= i < e.plan.Past(k) :: ViewAt(w.cells, i).Some? && (i in w.rows || i in w.starts)
  }

  /** Every child of wave `k` has a checkpoint, and is over. */
  ghost predicate ReadyWave(e: Setting, rows: map<nat, Row>, cells: Block, k: nat)
    requires |cells| == e.plan.size
  {
    forall i: nat | e.plan.First(k) <= i < e.plan.Past(k) :: ViewAt(cells, i).Some? && Over(rows, i)
  }

  /** `k` is the lowest wave that was not ready, in `before`; the fan's wave count if all were. */
  ghost predicate Lowest(e: Setting, rows: map<nat, Row>, before: Block, k: nat)
    requires |before| == e.plan.size && e.plan.Valid()
  {
    k <= e.plan.Count() && forall j: nat | j < k :: ReadyWave(e, rows, before, j)
  }

  /** Wave `k` is recorded or still to be, and what is still to be recorded has no checkpoint. */
  ghost predicate Pending(e: Setting, rows: map<nat, Row>, cells: Block, k: nat, todo: set<nat>, starts: set<nat>)
    requires |cells| == e.plan.size
  {
    && (forall i: nat | e.plan.First(k) <= i < e.plan.Past(k) ::
          (ViewAt(cells, i).Some? && (i in rows || i in starts)) || i in todo)
    && (forall i | i in todo :: i < |cells| && ViewAt(cells, i) == None)
  }

  /**
   * A turn under way with nothing interleaved since its store was `before`, and, once it has
   * dispatched, bound to record wave `k`.
   */
  ghost predicate Alone(e: Setting, w: Fan, before: Block, k: nat)
    requires e.plan.Valid() && |w.cells| == e.plan.size
  {
    && Kept(before, w.cells)
    && match w.turn
       case Away => true
       case Loaded(snapshot) => snapshot == w.cells
       case Reading'(v) => Linked(e, v, w.cells)
       case Delivering(v, seen, todo, taken, freed, starts) =>
         && Linked(e, v, w.cells) && seen == w.rows
         && forall i: nat | i < |v| && v[i] == Some(Waiting) ::
            i in todo || i in taken || i in freed || OnItsWay(w.rows, starts, i)
       case Folding(v, _, starts) =>
         && Linked(e, v, w.cells)
         && forall i: nat | i < |v| && v[i] == Some(Waiting) :: OnItsWay(w.rows, starts, i)
       case Registering(v, todo, put, starts) =>
         k < e.plan.Count() && todo !! put && Pending(e, w.rows, w.cells, k, todo + put, starts)
  }

  /** The turn is still under way, or has ended with a result, or with wave `k` recorded. */
  ghost predicate AloneOrDone(e: Setting, w: Fan, before: Block, k: nat, results: nat)
    requires e.plan.Valid() && |w.cells| == e.plan.size
  {
    if w.turn.Away? then |w.results| > results || (k < e.plan.Count() && Kept(before, w.cells) && RecordedWave(e, w, k))
    else Alone(e, w, before, k)
  }

  lemma SetPlain(plan: Plan, b: Block, i: nat, cell: Cell)
    requires OnWaves(plan, b) && i < |b| && !cell.Fold? && Settlement(ViewAt(b, i)) == None
    ensures OnWaves(plan, b[i := Some(cell)])
    ensures forall j: nat | j < |b| :: ViewAt(b[i := Some(cell)], j) == if j == i then Some(cell) else ViewAt(b, j)
  {
    var c := b[i := Some(cell)];
    OnWavesFolded(plan, b);
    forall p: nat | Covers(b, p, i) ensures false { Covered(b, p, i); }
    assert !(b[i].Some? && b[i].value.Fold?) by { if b[i].Some? && b[i].value.Fold? { assert Covers(b, i, i); } }
    OnWavesFolded(plan, c);
    forall p: nat, j: nat ensures Covers(b, p, j) <==> Covers(c, p, j) {
    }
    forall j: nat | j < |b| ensures ViewAt(c, j) == if j == i then Some(cell) else ViewAt(b, j) {
      if p: nat :| Covers(b, p, j) { Covered(b, p, j); Covered(c, p, j); }
    }
  }

  lemma SeenIsView(e: Setting, b: Block)
    requires OnWaves(e.plan, b)
    ensures Seen(b, b) == View(b) && Linked(e, View(b), b)
  {
    OnWavesFolded(e.plan, b);
    ViewHasNoFolds(b);
    var m := Merged(View(b), b);
    forall i: nat | i < |b| ensures m[i] == View(b)[i] {
    }
    assert m == View(b);
  }

  lemma ReadFanAlone(e: Setting, w: Fan, before: Block, k: nat)
    requires Valid(e, w) && Alone(e, w, before, k) && w.turn.Loaded?
    ensures Alone(e, TurnStep(e, w, ReadFan), before, k)
  {
    SeenIsView(e, w.cells);
  }

  lemma ReadRowsAlone(e: Setting, w: Fan, before: Block, k: nat)
    requires Valid(e, w) && Alone(e, w, before, k) && w.turn.Reading'?
    ensures Alone(e, TurnStep(e, w, ReadRows), before, k)
  {
  }

  lemma TakeAlone(e: Setting, w: Fan, before: Block, k: nat, i: nat, listed: bool)
    requires e.plan.Valid() && |w.cells| == e.plan.size && Alone(e, w, before, k) && w.turn.Delivering?
    ensures Alone(e, TurnStep(e, w, Take(i, listed)), before, k)
  {
  }

  lemma FreeAlone(e: Setting, w: Fan, before: Block, k: nat, i: nat)
    requires Valid(e, w) && Alone(e, w, before, k) && w.turn.Delivering?
    ensures Alone(e, TurnStep(e, w, Free(i)), before, k)
  {
  }

  lemma LinkedSet(e: Setting, v: Block, cells: Block, i: nat, c: Completion, before: Block)
    requires Linked(e, v, cells) && i < |v| && v[i] == Some(Waiting) && Kept(before, cells)
    ensures Linked(e, v[i := Some(Done(c))], cells[i := Some(Done(c))]) && Kept(before, cells[i := Some(Done(c))])
  {
    SetPlain(e.plan, cells, i, Done(c));
  }

  lemma CommitAlone(e: Setting, w: Fan, before: Block, k: nat, i: nat)
    requires Valid(e, w) && Alone(e, w, before, k) && w.turn.Delivering?
    ensures Alone(e, TurnStep(e, w, Commit(i)), before, k)
  {
    if i in w.turn.freed { LinkedSet(e, w.turn.view, w.cells, i, w.turn.freed[i], before); }
  }

  lemma DecideAlone(e: Setting, w: Fan, before: Block, k: nat)
    requires Valid(e, w) && Alone(e, w, before, k) && w.turn.Delivering?
    ensures AloneOrDone(e, TurnStep(e, w, Decide), before, k, |w.results|)
  {
  }

  lemma FoldLinked(e: Setting, v: Block, cells: Block, k: nat, before: Block)
    requires Linked(e, v, cells) && |v| == e.plan.size && k < e.plan.Count() && Kept(before, cells)
    ensures Linked(e, v, FoldWave(e.plan, cells, v, k)) && Kept(before, FoldWave(e.plan, cells, v, k))
  {
    FoldWaveTransparent(e.plan, cells, v, k);
  }

  lemma FoldAlone(e: Setting, w: Fan, before: Block, k: nat)
    requires Valid(e, w) && Alone(e, w, before, k) && w.turn.Folding?
    ensures Alone(e, TurnStep(e, w, FoldNext), before, k)
  {
    if w.turn.next < e.plan.Count() { FoldLinked(e, w.turn.view, w.cells, w.turn.next, before); }
  }

  lemma PutAlone(e: Setting, w: Fan, before: Block, k: nat, i: nat)
    requires Valid(e, w) && Alone(e, w, before, k) && w.turn.Registering?
    ensures Alone(e, TurnStep(e, w, Put(i)), before, k)
  {
    if i in w.turn.todo {
      assert w.turn.todo - {i} + (w.turn.put + {i}) == w.turn.todo + w.turn.put;
    }
  }

  lemma PlacedPending(e: Setting, w: Fan, before: Block, k: nat, todo: set<nat>, starts: set<nat>, i: nat)
    requires OnWaves(e.plan, w.cells) && Pending(e, w.rows, w.cells, k, todo, starts)
             && Kept(before, w.cells) && i in todo
    ensures Pending(e, w.rows, w.cells[i := Some(Waiting)], k, todo - {i}, starts + {i})
    ensures Kept(before, w.cells[i := Some(Waiting)])
  {
    SetPlain(e.plan, w.cells, i, Waiting);
  }

  lemma PlaceAlone(e: Setting, w: Fan, before: Block, k: nat, i: nat)
    requires Valid(e, w) && Alone(e, w, before, k) && w.turn.Registering? && i !in w.turn.todo
    ensures Alone(e, TurnStep(e, w, Place(i)), before, k)
  {
    if i in w.turn.put {
      PlacedPending(e, w, before, k, w.turn.todo + w.turn.put, w.turn.starts, i);
      assert w.turn.todo + w.turn.put - {i} == w.turn.todo + (w.turn.put - {i});
    }
  }

  lemma SuspendAlone(e: Setting, w: Fan, before: Block, k: nat)
    requires Valid(e, w) && Alone(e, w, before, k) && w.turn.Registering?
    ensures AloneOrDone(e, TurnStep(e, w, Suspend), before, k, |w.results|)
  {
  }

  // ---- the dispatch --------------------------------------------------------------------------

  lemma ReadyIsSettled(e: Setting, w: Fan, before: Block, k: nat, j: nat)
    requires Valid(e, w) && Alone(e, w, before, k) && w.turn.Folding? && j < e.plan.Count()
    requires |before| == e.plan.size && ReadyWave(e, w.rows, before, j)
    ensures SettledWave(e.plan, w.turn.view, j)
  {
    e.plan.WaveNonEmpty(j);
    var v := w.turn.view;
    forall i: nat | e.plan.First(j) <= i < e.plan.Past(j) ensures Settlement(v[i]).Some? {
      assert v[i].Some?;
      assert CellOk(e, w.rows, i, v[i].value);
    }
  }

  lemma {:induction false} AllSettledNoneActive(plan: Plan, v: Block, n: nat)
    requires |v| == plan.size && forall j: nat | j < n :: SettledWave(plan, v, j)
    ensures Active(plan, v, n) == []
  {
    if n > 0 { AllSettledNoneActive(plan, v, n - 1); }
  }

  lemma {:induction false} ActiveStays(plan: Plan, v: Block, k: nat, n: nat)
    requires |v| == plan.size && k < n && k in Active(plan, v, k + 1)
    ensures k in Active(plan, v, n)
  {
    if k + 1 < n { ActiveStays(plan, v, k, n - 1); }
  }

  lemma ReadyAreSettled(e: Setting, w: Fan, before: Block, k: nat)
    requires Valid(e, w) && Alone(e, w, before, k) && w.turn.Folding?
    requires |before| == e.plan.size && Lowest(e, w.rows, before, k)
    ensures forall j: nat | j < k :: SettledWave(e.plan, w.turn.view, j)
  {
    forall j: nat | j < k ensures SettledWave(e.plan, w.turn.view, j) { ReadyIsSettled(e, w, before, k, j); }
  }

  lemma SettledItems(plan: Plan, v: Block)
    requires plan.Valid() && |v| == plan.size && forall j: nat | j < plan.Count() :: SettledWave(plan, v, j)
    ensures forall i: nat | i < |v| :: Settlement(v[i]).Some?
  {
    forall i: nat | i < |v| ensures Settlement(v[i]).Some? {
      plan.InWave(i, plan.WaveOf(i));
      assert SettledWave(plan, v, plan.WaveOf(i));
    }
  }

  /** The lowest wave not settled goes out. */
  lemma LowestGoesOut(plan: Plan, v: Block, k: nat)
    requires plan.Valid() && |v| == plan.size && k < plan.Count()
    requires !SettledWave(plan, v, k) && forall j: nat | j < k :: SettledWave(plan, v, j)
    ensures k in Active(plan, v, plan.Count())
  {
    AllSettledNoneActive(plan, v, k);
    assert Active(plan, v, k + 1) == [k];
    ActiveStays(plan, v, k, plan.Count());
  }

  /** A dispatch leaves wave `k` recorded, or to be. */
  lemma DispatchPending(e: Setting, w: Fan, before: Block, k: nat, active: seq<nat>)
    requires Valid(e, w) && Alone(e, w, before, k) && w.turn.Folding? && k < e.plan.Count()
    requires SettledWave(e.plan, w.turn.view, k) || k in active
    ensures Pending(e, w.rows, w.cells, k, ToRegister(e.plan, w.turn.view, active), w.turn.starts)
  {
    var v := w.turn.view;
    forall i: nat | e.plan.First(k) <= i < e.plan.Past(k)
      ensures (ViewAt(w.cells, i).Some? && (i in w.rows || i in w.turn.starts)) || i in ToRegister(e.plan, v, active)
    {
      e.plan.WaveNonEmpty(k);
      e.plan.InWave(i, k);
      if SettledWave(e.plan, v, k) { assert Settlement(v[i]).Some?; }
      if v[i].Some? {
        assert ViewAt(w.cells, i).Some?;
        if v[i].value == Waiting {
          assert OnItsWay(w.rows, w.turn.starts, i);
        } else {
          assert CellOk(e, w.rows, i, v[i].value);
        }
      }
    }
  }

  lemma DispatchAlone(e: Setting, w: Fan, before: Block, k: nat)
    requires Valid(e, w) && Alone(e, w, before, k) && w.turn.Folding?
    requires |before| == e.plan.size && Lowest(e, w.rows, before, k)
    ensures AloneOrDone(e, Dispatched(e, w), before, k, |w.results|)
  {
    var v := w.turn.view;
    var active := Active(e.plan, v, e.plan.Count());
    ReadyAreSettled(e, w, before, k);
    if active == [] {
      NoneActiveAllSettled(e.plan, v, e.plan.Count());
      SettledItems(e.plan, v);
    } else if k < e.plan.Count() {
      DispatchSends(e, w, active[|active| - 1]);
      if !SettledWave(e.plan, v, k) { LowestGoesOut(e.plan, v, k); }
      DispatchPending(e, w, before, k, active);
      assert ToRegister(e.plan, v, active) + {} == ToRegister(e.plan, v, active);
    } else {
      AllSettledNoneActive(e.plan, v, k);
    }
  }

  lemma {:induction false} NoneActiveAllSettled(plan: Plan, v: Block, n: nat)
    requires plan.Valid() && |v| == plan.size && Active(plan, v, n) == []
    ensures forall j: nat | j < n :: SettledWave(plan, v, j)
  {
    if n > 0 { NoneActiveAllSettled(plan, v, n - 1); }
  }

  // ---- a turn runs to its end ----------------------------------------------------------------

  /** The operation a turn does next when nothing else happens. */
  ghost function NextEvent(e: Setting, w: Fan): (ev: Event)
    requires e.plan.Valid()
    ensures OfTurn(ev)
  {
    match w.turn
    case Away => ReadFan
    case Loaded(_) => ReadFan
    case Reading'(_) => ReadRows
    case Delivering(_, _, todo, taken, freed, _) =>
      if todo != {} then var i :| i in todo; Take(i, true)
      else if taken != map[] then var i :| i in taken; Free(i)
      else if freed != map[] then var i :| i in freed; Commit(i)
      else Decide
    case Folding(_, next, _) => if Folds(e) && next < e.plan.Count() then FoldNext else Dispatch
    case Registering(_, todo, put, _) =>
      if todo != {} then var i :| i in todo; Put(i)
      else if put != {} then var i :| i in put; Place(i)
      else Suspend
  }

  /** How far a turn is from its end: the phase, then what is left in it. */
  ghost function Rank(turn: Pass): nat {
    match turn
    case Away => 0
    case Registering(_, _, _, _) => 1
    case Folding(_, _, _) => 2
    case Delivering(_, _, _, _, _, _) => 3
    case Reading'(_) => 4
    case Loaded(_) => 5
  }

  ghost function Rest(e: Setting, turn: Pass): nat
    requires e.plan.Valid()
  {
    match turn
    case Delivering(_, _, todo, taken, freed, _) => 3 * |todo| + 2 * |taken| + |freed|
    case Folding(_, next, _) => if next < e.plan.Count() then e.plan.Count() - next else 0
    case Registering(_, todo, put, _) => 2 * |todo| + |put|
    case _ => 0
  }

  ghost predicate Nearer(e: Setting, turn: Pass, turn': Pass)
    requires e.plan.Valid()
  {
    Rank(turn') < Rank(turn) || (Rank(turn') == Rank(turn) && Rest(e, turn') < Rest(e, turn))
  }

  lemma MapShrinks<V>(m: map<nat, V>, i: nat)
    requires i in m
    ensures |m - {i}| == |m| - 1
  {
    assert (m - {i}).Keys == m.Keys - {i};
  }

  lemma MapGrows<V>(m: map<nat, V>, i: nat, v: V)
    requires i !in m
    ensures |m[i := v]| == |m| + 1
  {
    assert m[i := v].Keys == m.Keys + {i};
  }

  /** The sets of a turn under way are apart, and hold items of the fan. */
  ghost predicate Apart(w: Fan) {
    match w.turn
    case Delivering(v, _, todo, taken, freed, _) =>
      && |v| == |w.cells|
      && (forall i | i in taken :: i !in freed && i !in todo) && (forall i | i in freed :: i !in todo && i < |v|)
    case Registering(_, todo, put, _) => todo !! put && forall i | i in put :: i < |w.cells|
    case _ => true
  }

  lemma TakeNearer(e: Setting, w: Fan, i: nat)
    requires e.plan.Valid() && |w.cells| == e.plan.size && Apart(w) && w.turn.Delivering? && i in w.turn.todo
    ensures Nearer(e, w.turn, TurnStep(e, w, Take(i, true)).turn)
  {
    var t := w.turn;
    assert |t.todo - {i}| == |t.todo| - 1;
    if i in w.buffered && |w.buffered[i]| > 0 {
      MapGrows(t.taken, i, w.buffered[i][0]);
    } else if Over(t.seen, i) {
      MapGrows(t.taken, i, FromRow(t.seen[i].outcome));
    }
  }

  lemma FreeNearer(e: Setting, w: Fan, i: nat)
    requires e.plan.Valid() && |w.cells| == e.plan.size && Apart(w) && w.turn.Delivering? && i in w.turn.taken
    ensures Nearer(e, w.turn, TurnStep(e, w, Free(i)).turn)
  {
    MapShrinks(w.turn.taken, i);
    MapGrows(w.turn.freed, i, w.turn.taken[i]);
  }

  lemma CommitNearer(e: Setting, w: Fan, i: nat)
    requires e.plan.Valid() && |w.cells| == e.plan.size && Apart(w) && w.turn.Delivering? && i in w.turn.freed
    ensures Nearer(e, w.turn, TurnStep(e, w, Commit(i)).turn)
  {
    MapShrinks(w.turn.freed, i);
  }

  lemma PutNearer(e: Setting, w: Fan, i: nat)
    requires e.plan.Valid() && |w.cells| == e.plan.size && Apart(w) && w.turn.Registering? && i in w.turn.todo
    ensures Nearer(e, w.turn, TurnStep(e, w, Put(i)).turn)
  {
    assert |w.turn.todo - {i}| == |w.turn.todo| - 1;
    assert |w.turn.put + {i}| == |w.turn.put| + 1;
  }

  lemma PlaceNearer(e: Setting, w: Fan, i: nat)
    requires e.plan.Valid() && |w.cells| == e.plan.size && Apart(w) && w.turn.Registering? && i in w.turn.put
    ensures Nearer(e, w.turn, TurnStep(e, w, Place(i)).turn)
  {
    assert |w.turn.put - {i}| == |w.turn.put| - 1;
  }

  lemma DispatchNearer(e: Setting, w: Fan)
    requires e.plan.Valid() && |w.cells| == e.plan.size && w.turn.Folding? && |w.turn.view| == e.plan.size
    ensures Rank(Dispatched(e, w).turn) < 2
  {
    var v := w.turn.view;
    if Active(e.plan, v, e.plan.Count()) == [] {
      NoneActiveAllSettled(e.plan, v, e.plan.Count());
      SettledItems(e.plan, v);
    }
  }

  lemma TurnNearer(e: Setting, w: Fan)
    requires e.plan.Valid() && |w.cells| == e.plan.size && Apart(w) && !w.turn.Away?
    requires w.turn.Loaded? ==> |w.turn.snapshot| == |w.cells|
    requires w.turn.Folding? ==> |w.turn.view| == e.plan.size
    ensures Nearer(e, w.turn, TurnStep(e, w, NextEvent(e, w)).turn)
  {
    match NextEvent(e, w)
    case Take(i, _) => TakeNearer(e, w, i);
    case Free(i) => FreeNearer(e, w, i);
    case Commit(i) => CommitNearer(e, w, i);
    case Put(i) => PutNearer(e, w, i);
    case Place(i) => PlaceNearer(e, w, i);
    case Dispatch => DispatchNearer(e, w);
    case _ =>
  }

  lemma DeliveringAlone(e: Setting, w: Fan, before: Block, k: nat, ev: Event)
    requires Valid(e, w) && Alone(e, w, before, k) && w.turn.Delivering?
    requires ev.Take? || ev.Free? || ev.Commit? || ev.Decide?
    ensures AloneOrDone(e, TurnStep(e, w, ev), before, k, |w.results|)
  {
    match ev
    case Take(i, listed) => TakeAlone(e, w, before, k, i, listed);
    case Free(i) => FreeAlone(e, w, before, k, i);
    case Commit(i) => CommitAlone(e, w, before, k, i);
    case Decide => DecideAlone(e, w, before, k);
  }

  lemma RegisteringAlone(e: Setting, w: Fan, before: Block, k: nat, ev: Event)
    requires Valid(e, w) && Alone(e, w, before, k) && w.turn.Registering?
    requires ev.Put? || (ev.Place? && ev.i !in w.turn.todo) || ev.Suspend?
    ensures AloneOrDone(e, TurnStep(e, w, ev), before, k, |w.results|)
  {
    match ev
    case Put(i) => PutAlone(e, w, before, k, i);
    case Place(i) => PlaceAlone(e, w, before, k, i);
    case Suspend => SuspendAlone(e, w, before, k);
  }

  /** One more operation of an uninterrupted turn. */
  lemma TurnAlone(e: Setting, w: Fan, before: Block, k: nat)
    requires Valid(e, w) && Alone(e, w, before, k) && !w.turn.Away?
    requires |before| == e.plan.size && Lowest(e, w.rows, before, k)
    ensures AloneOrDone(e, TurnStep(e, w, NextEvent(e, w)), before, k, |w.results|)
  {
    match w.turn
    case Loaded(_) => ReadFanAlone(e, w, before, k);
    case Reading'(_) => ReadRowsAlone(e, w, before, k);
    case Delivering(_, _, _, _, _, _) => DeliveringAlone(e, w, before, k, NextEvent(e, w));
    case Folding(_, _, _) =>
      FoldAlone(e, w, before, k);
      DispatchAlone(e, w, before, k);
    case Registering(_, _, _, _) => RegisteringAlone(e, w, before, k, NextEvent(e, w));
  }

  // ---- rounds --------------------------------------------------------------------------------

  /** The next `n` operations of a turn, with nothing interleaved, or fewer if it ends. */
  ghost function Drive(e: Setting, w: Fan, n: nat): (w': Fan)
    requires e.plan.Valid() && |w.cells| == e.plan.size
    ensures |w'.cells| == e.plan.size
    decreases n
  {
    if n == 0 || w.turn.Away? then w else Drive(e, TurnStep(e, w, NextEvent(e, w)), n - 1)
  }

  /** What one operation of an uninterrupted turn keeps. */
  ghost predicate Stepped(e: Setting, w: Fan, before: Block, k: nat, results: nat, rows: map<nat, Row>) {
    && Valid(e, w) && |before| == e.plan.size && Lowest(e, rows, before, k) && w.rows == rows
    && results <= |w.results| && AloneOrDone(e, w, before, k, results)
  }

  lemma StepKeeps(e: Setting, w: Fan, before: Block, k: nat, results: nat, rows: map<nat, Row>)
    requires Stepped(e, w, before, k, results, rows) && !w.turn.Away?
    ensures var w' := TurnStep(e, w, NextEvent(e, w));
            Stepped(e, w', before, k, results, rows) && Nearer(e, w.turn, w'.turn)
  {
    TurnStepKeeps(e, w, NextEvent(e, w));
    TurnNearer(e, w);
    TurnAlone(e, w, before, k);
    TurnKeepsRows(e, w, NextEvent(e, w));
  }

  lemma TurnKeepsRows(e: Setting, w: Fan, ev: Event)
    requires e.plan.Valid() && |w.cells| == e.plan.size
    ensures TurnStep(e, w, ev).rows == w.rows && w.results <= TurnStep(e, w, ev).results
  {
  }

  lemma {:induction false} DriveEnds(e: Setting, w: Fan, before: Block, k: nat, results: nat, rows: map<nat, Row>)
    returns (n: nat)
    requires Stepped(e, w, before, k, results, rows)
    ensures Stepped(e, Drive(e, w, n), before, k, results, rows) && Drive(e, w, n).turn.Away?
    decreases Rank(w.turn), Rest(e, w.turn)
  {
    if w.turn.Away? {
      n := 0;
    } else {
      StepKeeps(e, w, before, k, results, rows);
      n := DriveEnds(e, TurnStep(e, w, NextEvent(e, w)), before, k, results, rows);
      n := n + 1;
    }
  }

  // ---- rounds --------------------------------------------------------------------------------

  /** Every deferred start runs. */
  ghost function StartAll(e: Setting, w: Fan): (w': Fan)
    requires e.plan.Valid() && |w.cells| == e.plan.size
    ensures w' == w.(rows := w'.rows, starts := {})
    ensures forall i | i in w.rows :: i in w'.rows && w'.rows[i] == w.rows[i]
    ensures forall i | i in w.starts :: i in w'.rows
    decreases |w.starts|
  {
    if w.starts == {} then w
    else
      var i :| i in w.starts;
      assert |w.starts - {i}| < |w.starts|;
      StartAll(e, Do(e, w, Start(i)))
  }

  /** Every running child settles. */
  ghost function SettleAll(e: Setting, w: Fan): (w': Fan)
    requires e.plan.Valid() && |w.cells| == e.plan.size
    ensures w' == w.(rows := w'.rows)
    ensures forall i | i in w.rows :: Over(w'.rows, i)
    decreases Running(w.rows)
  {
    if InFlights(w.rows) == {} then assert forall i | i in w.rows :: i in InFlights(w.rows) || Over(w.rows, i); w
    else
      var i :| i in InFlights(w.rows);
      assert InFlights(Do(e, w, SettleChild(i)).rows) == InFlights(w.rows) - {i};
      SettleAll(e, Do(e, w, SettleChild(i)))
  }

  lemma {:induction false} StartAllKeeps(e: Setting, w: Fan)
    requires Valid(e, w)
    ensures Valid(e, StartAll(e, w))
    decreases |w.starts|
  {
    if w.starts != {} {
      forall i | i in w.starts ensures Valid(e, StartAll(e, Do(e, w, Start(i)))) {
        AroundKeeps(e, w, Start(i));
        assert |w.starts - {i}| < |w.starts|;
        StartAllKeeps(e, Do(e, w, Start(i)));
      }
    }
  }

  lemma {:induction false} SettleAllKeeps(e: Setting, w: Fan)
    requires Valid(e, w)
    ensures Valid(e, SettleAll(e, w))
    decreases Running(w.rows)
  {
    if InFlights(w.rows) != {} {
      forall i | i in InFlights(w.rows) ensures Valid(e, SettleAll(e, Do(e, w, SettleChild(i)))) {
        AroundKeeps(e, w, SettleChild(i));
        assert InFlights(Do(e, w, SettleChild(i)).rows) == InFlights(w.rows) - {i};
        SettleAllKeeps(e, Do(e, w, SettleChild(i)));
      }
    }
  }

  /** A turn of `n` operations, after which every child it started, or that was running, settles. */
  ghost function Round(e: Setting, w: Fan, n: nat): (w': Fan)
    requires e.plan.Valid() && |w.cells| == e.plan.size
    ensures |w'.cells| == e.plan.size
  {
    SettleAll(e, StartAll(e, Drive(e, Around(e, w, Begin), n)))
  }

  ghost function Rounds(e: Setting, w: Fan, ns: seq<nat>): (w': Fan)
    requires e.plan.Valid() && |w.cells| == e.plan.size
    ensures |w'.cells| == e.plan.size
    decreases |ns|
  {
    if ns == [] then w else Rounds(e, Round(e, w, ns[0]), ns[1..])
  }

  /** How many of the first `n` waves are not ready. */
  ghost function Unready(e: Setting, rows: map<nat, Row>, cells: Block, n: nat): nat
    requires |cells| == e.plan.size
  {
    if n == 0 then 0 else Unready(e, rows, cells, n - 1) + if ReadyWave(e, rows, cells, n - 1) then 0 else 1
  }

  lemma {:induction false} UnreadyShrinks(e: Setting, rows: map<nat, Row>, cells: Block, rows': map<nat, Row>,
                                          cells': Block, n: nat, k: nat)
    requires |cells| == |cells'| == e.plan.size && Kept(cells, cells') && forall i | Over(rows, i) :: Over(rows', i)
    requires ReadyWave(e, rows', cells', k) && !ReadyWave(e, rows, cells, k)
    ensures Unready(e, rows', cells', n) + (if k < n then 1 else 0) <= Unready(e, rows, cells, n)
  {
    if n > 0 {
      UnreadyShrinks(e, rows, cells, rows', cells', n - 1, k);
      if ReadyWave(e, rows, cells, n - 1) {
        forall i: nat | e.plan.First(n - 1) <= i < e.plan.Past(n - 1)
          ensures ViewAt(cells', i).Some? && Over(rows', i)
        {
          assert ViewAt(cells, i).Some?;
        }
      }
    }
  }

  lemma {:induction false} FindLowest(e: Setting, rows: map<nat, Row>, cells: Block, n: nat) returns (k: nat)
    requires e.plan.Valid() && |cells| == e.plan.size && n <= e.plan.Count()
    ensures k <= n && (forall j: nat | j < k :: ReadyWave(e, rows, cells, j))
    ensures k < n ==> !ReadyWave(e, rows, cells, k)
  {
    if n == 0 {
      k := 0;
    } else {
      k := FindLowest(e, rows, cells, n - 1);
      if k == n - 1 && ReadyWave(e, rows, cells, n - 1) { k := n; }
    }
  }

  /** A round ends with a result, or with one more wave whose children are all recorded and over. */
  lemma RoundAdvances(e: Setting, w: Fan) returns (n: nat)
    requires Valid(e, w) && w.turn.Away?
    ensures var w' := Round(e, w, n);
            && Valid(e, w') && w'.turn.Away? && w.results <= w'.results
            && (|w'.results| > |w.results|
                || Unready(e, w'.rows, w'.cells, e.plan.Count()) < Unready(e, w.rows, w.cells, e.plan.Count()))
  {
    var k := FindLowest(e, w.rows, w.cells, e.plan.Count());
    var begun := Around(e, w, Begin);
    AroundKeeps(e, w, Begin);
    n := DriveEnds(e, begun, w.cells, k, |w.results|, w.rows);
    var driven := Drive(e, begun, n);
    DriveKeepsResults(e, begun, n);
    StartAllKeeps(e, driven);
    SettleAllKeeps(e, StartAll(e, driven));
    if |driven.results| <= |w.results| { RecordedBecomesReady(e, w, driven, k); }
  }

  lemma {:induction false} DriveKeepsResults(e: Setting, w: Fan, n: nat)
    requires e.plan.Valid() && |w.cells| == e.plan.size
    ensures w.results <= Drive(e, w, n).results
    decreases n
  {
    if n > 0 && !w.turn.Away? {
      TurnKeepsRows(e, w, NextEvent(e, w));
      DriveKeepsResults(e, TurnStep(e, w, NextEvent(e, w)), n - 1);
    }
  }

  /** Once the children of a recorded wave have all run and settled, the wave is ready. */
  lemma RecordedBecomesReady(e: Setting, w: Fan, driven: Fan, k: nat)
    requires e.plan.Valid() && |w.cells| == |driven.cells| == e.plan.size && k < e.plan.Count()
    requires Kept(w.cells, driven.cells) && RecordedWave(e, driven, k) && driven.rows == w.rows
    requires !ReadyWave(e, w.rows, w.cells, k)
    ensures var w' := SettleAll(e, StartAll(e, driven));
            Unready(e, w'.rows, w'.cells, e.plan.Count()) < Unready(e, w.rows, w.cells, e.plan.Count())
  {
    var w' := SettleAll(e, StartAll(e, driven));
    UnreadyShrinks(e, w.rows, w.cells, w'.rows, w'.cells, e.plan.Count(), k);
  }

  /**
   * Every wave is sent and the fan ends: from any state a run can reach, whatever crashed before, if
   * from then on each turn runs to its end and its children settle before the next, then a result
   * comes after at most one turn more than there are waves, and it is faithful.
   */
  lemma {:induction false} FanCompletes(e: Setting, w: Fan) returns (ns: seq<nat>)
    requires Valid(e, w) && w.turn.Away?
    ensures |ns| <= Unready(e, w.rows, w.cells, e.plan.Count()) + 1
    ensures var w' := Rounds(e, w, ns);
            |w'.results| > |w.results| && w.results <= w'.results && forall r | r in w'.results :: Faithful(e, r)
    decreases Unready(e, w.rows, w.cells, e.plan.Count())
  {
    var n := RoundAdvances(e, w);
    var w1 := Round(e, w, n);
    if |w1.results| > |w.results| {
      ns := [n];
      assert Rounds(e, w1, []) == w1;
    } else {
      var rest := FanCompletes(e, w1);
      ns := [n] + rest;
      assert ns[1..] == rest;
    }
  }

  lemma {:induction false} UnreadyAtMost(e: Setting, rows: map<nat, Row>, cells: Block, n: nat)
    requires |cells| == e.plan.size
    ensures Unready(e, rows, cells, n) <= n
  {
    if n > 0 { UnreadyAtMost(e, rows, cells, n - 1); }
  }

  /** The same after any history at all: whatever ran and crashed, the fan still ends. */
  lemma FanEnds(e: Setting, evs: seq<Event>) returns (ns: seq<nat>)
    requires e.plan.Valid()
    ensures |ns| <= e.plan.Count() + 1
    ensures var w := Around(e, Run(e, Init(e), evs), Crash); var w' := Rounds(e, w, ns);
            |w'.results| > |w.results| && forall r | r in w'.results :: Faithful(e, r)
  {
    StartValid(e);
    RunKeeps(e, Init(e), evs);
    var w := Run(e, Init(e), evs);
    AroundKeeps(e, w, Crash);
    var crashed := Around(e, w, Crash);
    UnreadyAtMost(e, crashed.rows, crashed.cells, e.plan.Count());
    ns := FanCompletes(e, crashed);
  }
}
