/**
 * A fan under fair interleaving: children start and settle, and completions travel, in any order
 * during and between turns; some turns may die, and notifications may land on waves already folded.
 */
module FanFairness {
  import opened Common
  import opened FanPlan
  import opened FanFold
  import opened FanRuns
  import opened FanProofs
  import opened FanProgress
  import opened FanShelter

  predicate IsFold(c: Option<Cell>) { c.Some? && c.value.Fold? }

  /** A notification that was held up lands on the row of a fold made meanwhile. */
  predicate Overwrites(w: Fan, ev: Event) { ev.Land? && ev.i in w.landing && ev.i < |w.cells| && IsFold(w.cells[ev.i]) }

  // ---- checkpoints stay ----------------------------------------------------------------------

  /** Where the view shows a placeholder or nothing, there is no fold. */
  predicate HeadsShown(b: Block, v: Block) {
    |b| == |v| && forall q: nat | q < |b| && IsFold(b[q]) :: v[q].Some? && v[q] != Some(Waiting)
  }

  /** A turn under way writes on no fold. */
  ghost predicate Clear(w: Fan) {
    match w.turn
    case Away => true
    case Loaded(snapshot) => Followed(w.cells, snapshot)
    case Reading'(v) => HeadsShown(w.cells, v)
    case Delivering(v, _, _, _, _, _) => HeadsShown(w.cells, v)
    case Folding(v, _, _) => HeadsShown(w.cells, v)
    case Registering(_, todo, put, _) => forall i | i in todo || i in put :: i < |w.cells| && !IsFold(w.cells[i])
  }

  lemma SeenClear(e: Setting, snapshot: Block, cells: Block)
    requires OnWaves(e.plan, snapshot) && OnWaves(e.plan, cells) && Followed(cells, snapshot)
    ensures HeadsShown(cells, Seen(snapshot, cells))
  {
    OnWavesFolded(e.plan, snapshot);
    OnWavesFolded(e.plan, cells);
    MergedFolded(snapshot, cells);
    var merged := Merged(View(snapshot), cells);
    forall q: nat | q < |cells| && IsFold(cells[q])
      ensures Seen(snapshot, cells)[q].Some? && Seen(snapshot, cells)[q] != Some(Waiting)
    {
      assert Covers(snapshot, q, q);
      Covered(snapshot, q, q);
      assert merged[q].Some? && merged[q].value.Expanded?;
      if p: nat :| Covers(merged, p, q) { Covered(merged, p, q); }
    }
  }

  lemma FoldClear(e: Setting, w: Fan)
    requires Valid(e, w) && Clear(w) && w.turn.Folding?
    ensures Clear(TurnStep(e, w, FoldNext))
  {
    if w.turn.next < e.plan.Count() { e.plan.WaveNonEmpty(w.turn.next); }
  }

  lemma WriteClear(e: Setting, w: Fan, ev: Event)
    requires e.plan.Valid() && |w.cells| == e.plan.size && Clear(w)
    requires (ev.Commit? && w.turn.Delivering?) || (ev.Place? && w.turn.Registering?)
    ensures Clear(TurnStep(e, w, ev))
  {
  }

  lemma DispatchClear(e: Setting, w: Fan)
    requires e.plan.Valid() && |w.cells| == e.plan.size && Clear(w) && w.turn.Folding?
    ensures Clear(TurnStep(e, w, Dispatch))
  {
  }

  lemma OtherClear(e: Setting, w: Fan, ev: Event)
    requires e.plan.Valid() && |w.cells| == e.plan.size && Clear(w) && OfTurn(ev)
    requires ev != ReadFan && !ev.Commit? && ev != FoldNext && !ev.Place? && ev != Dispatch
    ensures Clear(TurnStep(e, w, ev))
  {
  }

  lemma TurnClear(e: Setting, w: Fan, ev: Event)
    requires Valid(e, w) && Clear(w) && OfTurn(ev)
    ensures Clear(TurnStep(e, w, ev))
  {
    if ev == ReadFan {
      if w.turn.Loaded? { SeenClear(e, w.turn.snapshot, w.cells); }
    } else if ev == FoldNext {
      if w.turn.Folding? { FoldClear(e, w); }
    } else if ev == Dispatch {
      if w.turn.Folding? { DispatchClear(e, w); }
    } else if ev.Commit? || ev.Place? {
      if (ev.Commit? && w.turn.Delivering?) || (ev.Place? && w.turn.Registering?) { WriteClear(e, w, ev); }
    } else {
      OtherClear(e, w, ev);
    }
  }

  lemma AroundClear(e: Setting, w: Fan, ev: Event)
    requires |w.cells| == e.plan.size && Clear(w) && !OfTurn(ev)
    ensures Clear(Around(e, w, ev))
  {
  }

  lemma EventClear(e: Setting, w: Fan, ev: Event)
    requires Valid(e, w) && Clear(w)
    ensures Valid(e, Do(e, w, ev)) && Clear(Do(e, w, ev))
  {
    if OfTurn(ev) {
      TurnStepKeeps(e, w, ev);
      TurnClear(e, w, ev);
    } else {
      AroundKeeps(e, w, ev);
      AroundClear(e, w, ev);
    }
  }

  lemma {:induction false} RunClear(e: Setting, w: Fan, evs: seq<Event>)
    requires Valid(e, w) && Clear(w)
    ensures Valid(e, Run(e, w, evs)) && Clear(Run(e, w, evs))
    decreases |evs|
  {
    if evs != [] {
      EventClear(e, w, evs[0]);
      RunClear(e, Do(e, w, evs[0]), evs[1..]);
    }
  }

  /** A checkpoint written on anything but a fold hides no other. */
  lemma SetKept(b: Block, i: nat, cell: Cell)
    requires i < |b| && !IsFold(b[i]) && !cell.Fold?
    ensures Kept(b, b[i := Some(cell)])
  {
    var c := b[i := Some(cell)];
    forall j: nat | j < |b| && ViewAt(b, j).Some? ensures ViewAt(c, j).Some? {
      if p: nat :| Covers(b, p, j) { assert Covers(c, p, j); }
    }
  }

  lemma FoldKept(e: Setting, w: Fan)
    requires Valid(e, w) && w.turn.Folding?
    ensures Kept(w.cells, TurnStep(e, w, FoldNext).cells)
  {
    FoldKeeps(e, w);
    var plan, b, c, k := e.plan, w.cells, TurnStep(e, w, FoldNext).cells, w.turn.next;
    if c != b {
      plan.WaveNonEmpty(k);
      OnWavesFolded(plan, b);
      OnWavesFolded(plan, c);
      forall j: nat | j < |b| && ViewAt(b, j).Some? ensures ViewAt(c, j).Some? {
        plan.InWave(j, k);
        if plan.WaveOf(j) == k { assert Covers(c, plan.First(k), j); } else { Elsewhere(plan, b, c, k, j); }
      }
    }
  }

  lemma WriteKept(e: Setting, w: Fan, ev: Event)
    requires Valid(e, w) && Clear(w)
    requires (ev.Commit? && w.turn.Delivering?) || (ev.Place? && w.turn.Registering?)
    ensures Kept(w.cells, TurnStep(e, w, ev).cells)
  {
    if ev.Commit? && ev.i in w.turn.freed {
      SetKept(w.cells, ev.i, Done(w.turn.freed[ev.i]));
    } else if ev.Place? && ev.i in w.turn.put {
      SetKept(w.cells, ev.i, Waiting);
    }
  }

  /** No other operation writes a checkpoint. */
  lemma NotWritten(e: Setting, w: Fan, ev: Event)
    requires e.plan.Valid() && |w.cells| == e.plan.size
    requires !(ev == FoldNext && w.turn.Folding?) && !(ev.Commit? && w.turn.Delivering?)
    requires !(ev.Place? && w.turn.Registering?) && !ev.Land?
    ensures Do(e, w, ev).cells == w.cells
  {
  }

  /** Every event but a notification that lands on a fold leaves every checkpoint. */
  lemma EventKept(e: Setting, w: Fan, ev: Event)
    requires Valid(e, w) && Clear(w) && !Overwrites(w, ev)
    ensures Kept(w.cells, Do(e, w, ev).cells)
  {
    if ev == FoldNext && w.turn.Folding? {
      FoldKept(e, w);
    } else if (ev.Commit? && w.turn.Delivering?) || (ev.Place? && w.turn.Registering?) {
      WriteKept(e, w, ev);
    } else if ev.Land? {
      if ev.i in w.landing && ev.i < |w.cells| { SetKept(w.cells, ev.i, Done(Notified(e.outcome(ev.i)))); }
    } else {
      NotWritten(e, w, ev);
    }
  }

  lemma EventOver(e: Setting, w: Fan, ev: Event)
    requires e.plan.Valid() && |w.cells| == e.plan.size
    ensures forall i | Over(w.rows, i) :: Over(Do(e, w, ev).rows, i)
    ensures forall i | i in w.rows :: i in Do(e, w, ev).rows
    ensures w.results <= Do(e, w, ev).results
  {
  }

  // ---- one turn, whatever happens around it --------------------------------------------------

  /** The view shows nothing that the store has not. */
  ghost predicate Behind(v: Block, cells: Block) {
    |v| == |cells| && forall i: nat | i < |v| && v[i].Some? :: ViewAt(cells, i).Some?
  }

  /** The view shows whatever had a checkpoint when the turn began. */
  ghost predicate SinceShown(before: Block, v: Block) {
    |before| == |v| && forall i: nat | i < |v| && ViewAt(before, i).Some? :: v[i].Some?
  }

  /** A placeholder still in a view past delivery: a child that was not over when the turn began, and is on its way. */
  predicate Coming(w: Fan, rows: map<nat, Row>, starts: set<nat>, i: nat) {
    !Over(rows, i) && (i in w.rows || i in starts)
  }

  /** Every placeholder of the view is still to be delivered, or such a child. */
  predicate AllComing(w: Fan, rows: map<nat, Row>, v: Block, pending: set<nat>, starts: set<nat>) {
    forall i: nat | i < |v| && v[i] == Some(Waiting) :: i in pending || Coming(w, rows, starts, i)
  }

  /** Child `i` has a checkpoint, and has started or is about to. */
  ghost predicate OnRecord(w: Fan, starts: set<nat>, i: nat) {
    i < |w.cells| && ViewAt(w.cells, i).Some? && (i in w.rows || i in starts)
  }

  /** A turn under way that began with `rows` and `before`, and, once it has dispatched, is bound to record wave `k`. */
  ghost predicate Underway(e: Setting, w: Fan, rows: map<nat, Row>, before: Block, k: nat)
    requires e.plan.Valid()
  {
    && Kept(before, w.cells) && (forall i | Over(rows, i) :: Over(w.rows, i))
    && match w.turn
       case Away => false
       case Loaded(snapshot) => snapshot == before
       case Reading'(v) => Behind(v, w.cells) && SinceShown(before, v)
       case Delivering(v, seen, todo, taken, freed, starts) =>
         && Behind(v, w.cells) && SinceShown(before, v) && (forall i | Over(rows, i) :: Over(seen, i))
         && AllComing(w, rows, v, todo + taken.Keys + freed.Keys, starts)
       case Folding(v, _, starts) =>
         && Behind(v, w.cells) && SinceShown(before, v)
         && AllComing(w, rows, v, {}, starts)
       case Registering(_, todo, put, starts) =>
         && k < e.plan.Count()
         && forall i: nat | e.plan.First(k) <= i < e.plan.Past(k) :: OnRecord(w, starts, i) || i in todo || i in put
  }

  /** The turn is still under way, or has ended with a result, or with wave `k` recorded. */
  ghost predicate UnderwayOrDone(e: Setting, w: Fan, rows: map<nat, Row>, before: Block, k: nat, results: nat)
    requires e.plan.Valid()
  {
    if w.turn.Away? then
      || |w.results| > results
      || (k < e.plan.Count() && forall i: nat | e.plan.First(k) <= i < e.plan.Past(k) :: OnRecord(w, w.starts, i))
    else Underway(e, w, rows, before, k)
  }

  lemma SeenBehind(e: Setting, before: Block, cells: Block)
    requires OnWaves(e.plan, before) && OnWaves(e.plan, cells) && Kept(before, cells)
    ensures Behind(Seen(before, cells), cells) && SinceShown(before, Seen(before, cells))
  {
    OnWavesFolded(e.plan, before);
    OnWavesFolded(e.plan, cells);
    ViewHasNoFolds(before);
    MergedFolded(before, cells);
    var merged, v := Merged(View(before), cells), Seen(before, cells);
    forall i: nat | i < |v| ensures v[i].Some? ==> ViewAt(cells, i).Some?
                            ensures ViewAt(before, i).Some? ==> v[i].Some? {
      if p: nat :| Covers(merged, p, i) {
        Covered(merged, p, i);
        assert Covers(cells, p, i);
        Covered(cells, p, i);
      } else {
        assert v[i] == merged[i];
        if p: nat :| Covers(cells, p, i) { Covered(cells, p, i); }
      }
    }
  }

  lemma ReadFanUnderway(e: Setting, w: Fan, rows: map<nat, Row>, before: Block, k: nat)
    requires Valid(e, w) && Underway(e, w, rows, before, k) && w.turn.Loaded?
    ensures Underway(e, TurnStep(e, w, ReadFan), rows, before, k)
  {
    SeenBehind(e, before, w.cells);
  }

  lemma ReadRowsUnderway(e: Setting, w: Fan, rows: map<nat, Row>, before: Block, k: nat)
    requires Valid(e, w) && Underway(e, w, rows, before, k) && w.turn.Reading'?
    ensures Underway(e, TurnStep(e, w, ReadRows), rows, before, k)
  {
  }

  lemma TakeUnderway(e: Setting, w: Fan, rows: map<nat, Row>, before: Block, k: nat, i: nat, listed: bool)
    requires e.plan.Valid() && |w.cells| == e.plan.size && Underway(e, w, rows, before, k) && w.turn.Delivering?
    ensures Underway(e, TurnStep(e, w, Take(i, listed)), rows, before, k)
  {
    if i in w.turn.todo {
      var t, w' := w.turn, TurnStep(e, w, Take(i, listed));
      assert w'.turn.view == t.view && w'.turn.todo == t.todo - {i} && w'.rows == w.rows && t.starts <= w'.turn.starts;
      assert forall j | j in t.todo + t.taken.Keys + t.freed.Keys && j != i ::
               j in w'.turn.todo + w'.turn.taken.Keys + w'.turn.freed.Keys;
      assert i in w'.turn.taken || Coming(w', rows, w'.turn.starts, i);
    }
  }

  lemma FreeUnderway(e: Setting, w: Fan, rows: map<nat, Row>, before: Block, k: nat, i: nat)
    requires e.plan.Valid() && |w.cells| == e.plan.size && Underway(e, w, rows, before, k) && w.turn.Delivering?
    ensures Underway(e, TurnStep(e, w, Free(i)), rows, before, k)
  {
    if i in w.turn.taken {
      var t, t' := w.turn, TurnStep(e, w, Free(i)).turn;
      assert t.todo + t.taken.Keys + t.freed.Keys == t'.todo + t'.taken.Keys + t'.freed.Keys;
    }
  }

  lemma BehindSet(v: Block, cells: Block, before: Block, i: nat, c: Completion)
    requires Behind(v, cells) && SinceShown(before, v) && i < |v| && Kept(before, cells) && !IsFold(cells[i])
    ensures Behind(v[i := Some(Done(c))], cells[i := Some(Done(c))]) && SinceShown(before, v[i := Some(Done(c))])
    ensures Kept(before, cells[i := Some(Done(c))])
  {
    SetKept(cells, i, Done(c));
    assert ViewAt(cells[i := Some(Done(c))], i).Some?;
  }

  lemma PendingShrinks(w: Fan, w': Fan, rows: map<nat, Row>, v: Block, i: nat, c: Completion,
                       pending: set<nat>, pending': set<nat>, starts: set<nat>)
    requires AllComing(w, rows, v, pending, starts) && pending - {i} <= pending' && w'.rows == w.rows && i < |v|
    ensures AllComing(w', rows, v[i := Some(Done(c))], pending', starts)
  {
  }

  lemma CommitUnderway(e: Setting, w: Fan, rows: map<nat, Row>, before: Block, k: nat, i: nat)
    requires e.plan.Valid() && |w.cells| == e.plan.size && Clear(w) && Underway(e, w, rows, before, k)
             && w.turn.Delivering?
    requires i in w.turn.freed ==> i < |w.turn.view| && w.turn.view[i] == Some(Waiting)
    ensures Underway(e, TurnStep(e, w, Commit(i)), rows, before, k)
  {
    if i in w.turn.freed {
      var t, w' := w.turn, TurnStep(e, w, Commit(i));
      BehindSet(t.view, w.cells, before, i, t.freed[i]);
      PendingShrinks(w, w', rows, t.view, i, t.freed[i], t.todo + t.taken.Keys + t.freed.Keys,
                     w'.turn.todo + w'.turn.taken.Keys + w'.turn.freed.Keys, t.starts);
    }
  }

  lemma FoldUnderway(e: Setting, w: Fan, rows: map<nat, Row>, before: Block, k: nat)
    requires Valid(e, w) && Underway(e, w, rows, before, k) && w.turn.Folding?
    ensures Underway(e, TurnStep(e, w, FoldNext), rows, before, k)
  {
    FoldKept(e, w);
  }

  // ---- the dispatch --------------------------------------------------------------------------

  lemma ReadySettled(e: Setting, w: Fan, rows: map<nat, Row>, before: Block, k: nat, j: nat)
    requires Valid(e, w) && Underway(e, w, rows, before, k) && w.turn.Folding? && j < e.plan.Count()
    requires |before| == e.plan.size && ReadyWave(e, rows, before, j)
    ensures SettledWave(e.plan, w.turn.view, j)
  {
    e.plan.WaveNonEmpty(j);
    var v := w.turn.view;
    forall i: nat | e.plan.First(j) <= i < e.plan.Past(j) ensures Settlement(v[i]).Some? {
      assert v[i].Some?;
      assert CellOk(e, w.rows, i, v[i].value);
    }
  }

  lemma ReadyAllSettled(e: Setting, w: Fan, rows: map<nat, Row>, before: Block, k: nat)
    requires Valid(e, w) && Underway(e, w, rows, before, k) && w.turn.Folding?
    requires |before| == e.plan.size && Lowest(e, rows, before, k)
    ensures forall j: nat | j < k :: SettledWave(e.plan, w.turn.view, j)
  {
    forall j: nat | j < k ensures SettledWave(e.plan, w.turn.view, j) { ReadySettled(e, w, rows, before, k, j); }
  }

  lemma DispatchRecords(e: Setting, w: Fan, rows: map<nat, Row>, before: Block, k: nat, active: seq<nat>)
    requires Valid(e, w) && Underway(e, w, rows, before, k) && w.turn.Folding? && k < e.plan.Count()
    requires SettledWave(e.plan, w.turn.view, k) || k in active
    ensures forall i: nat | e.plan.First(k) <= i < e.plan.Past(k) ::
              OnRecord(w, w.turn.starts, i) || i in ToRegister(e.plan, w.turn.view, active)
  {
    var v := w.turn.view;
    e.plan.WaveNonEmpty(k);
    forall i: nat | e.plan.First(k) <= i < e.plan.Past(k)
      ensures OnRecord(w, w.turn.starts, i) || i in ToRegister(e.plan, v, active)
    {
      e.plan.InWave(i, k);
      if SettledWave(e.plan, v, k) { assert Settlement(v[i]).Some?; }
      if v[i].Some? && v[i].value != Waiting { assert CellOk(e, w.rows, i, v[i].value); }
    }
  }

  lemma DispatchUnderway(e: Setting, w: Fan, rows: map<nat, Row>, before: Block, k: nat)
    requires Valid(e, w) && Underway(e, w, rows, before, k) && w.turn.Folding?
    requires |before| == e.plan.size && Lowest(e, rows, before, k)
    ensures UnderwayOrDone(e, Dispatched(e, w), rows, before, k, |w.results|)
  {
    var v := w.turn.view;
    var active := Active(e.plan, v, e.plan.Count());
    ReadyAllSettled(e, w, rows, before, k);
    if active == [] {
      NoneActiveAllSettled(e.plan, v, e.plan.Count());
      SettledItems(e.plan, v);
    } else if k < e.plan.Count() {
      DispatchSends(e, w, active[|active| - 1]);
      if !SettledWave(e.plan, v, k) { LowestGoesOut(e.plan, v, k); }
      DispatchRecords(e, w, rows, before, k, active);
    } else {
      AllSettledNoneActive(e.plan, v, k);
    }
  }

  lemma DecideUnderway(e: Setting, w: Fan, rows: map<nat, Row>, before: Block, k: nat)
    requires e.plan.Valid() && |w.cells| == e.plan.size && Underway(e, w, rows, before, k) && w.turn.Delivering?
    ensures UnderwayOrDone(e, TurnStep(e, w, Decide), rows, before, k, |w.results|)
  {
    var t := w.turn;
    if t.todo == {} && t.taken == map[] && t.freed == map[] { assert t.todo + t.taken.Keys + t.freed.Keys == {}; }
  }

  lemma PutUnderway(e: Setting, w: Fan, rows: map<nat, Row>, before: Block, k: nat, i: nat)
    requires e.plan.Valid() && |w.cells| == e.plan.size && Underway(e, w, rows, before, k) && w.turn.Registering?
    ensures Underway(e, TurnStep(e, w, Put(i)), rows, before, k)
  {
    var w' := TurnStep(e, w, Put(i));
    assert forall j, starts | OnRecord(w, starts, j) :: OnRecord(w', starts, j);
  }

  lemma PlaceUnderway(e: Setting, w: Fan, rows: map<nat, Row>, before: Block, k: nat, i: nat)
    requires e.plan.Valid() && |w.cells| == e.plan.size && Clear(w) && Underway(e, w, rows, before, k)
             && w.turn.Registering?
    ensures Underway(e, TurnStep(e, w, Place(i)), rows, before, k)
  {
    if i in w.turn.put && i < |w.cells| {
      var w' := TurnStep(e, w, Place(i));
      SetKept(w.cells, i, Waiting);
      assert ViewAt(w'.cells, i).Some?;
      assert OnRecord(w', w'.turn.starts, i);
      assert forall j | OnRecord(w, w.turn.starts, j) :: OnRecord(w', w'.turn.starts, j);
    }
  }

  lemma SuspendUnderway(e: Setting, w: Fan, rows: map<nat, Row>, before: Block, k: nat)
    requires e.plan.Valid() && |w.cells| == e.plan.size && Underway(e, w, rows, before, k) && w.turn.Registering?
    ensures UnderwayOrDone(e, TurnStep(e, w, Suspend), rows, before, k, |w.results|)
  {
    if w.turn.todo == {} && w.turn.put == {} {
      var w' := TurnStep(e, w, Suspend);
      assert w'.cells == w.cells && w'.rows == w.rows && w.turn.starts <= w'.starts;
      forall i: nat | e.plan.First(k) <= i < e.plan.Past(k) ensures OnRecord(w', w'.starts, i) {
        assert OnRecord(w, w.turn.starts, i);
      }
    }
  }

  /** What happens around the turn only adds to what it finds. */
  lemma StoreGrows(e: Setting, w: Fan, w': Fan, rows: map<nat, Row>, before: Block, k: nat)
    requires e.plan.Valid() && Underway(e, w, rows, before, k) && w'.turn == w.turn && Kept(w.cells, w'.cells)
    requires (forall i | Over(w.rows, i) :: Over(w'.rows, i)) && forall i | i in w.rows :: i in w'.rows
    ensures Underway(e, w', rows, before, k)
  {
    assert forall j, starts | OnRecord(w, starts, j) :: OnRecord(w', starts, j);
  }

  lemma DeliveringUnderway(e: Setting, w: Fan, rows: map<nat, Row>, before: Block, k: nat, ev: Event)
    requires Valid(e, w) && Clear(w) && Underway(e, w, rows, before, k) && w.turn.Delivering?
    requires ev.Take? || ev.Free? || ev.Commit? || ev.Decide?
    ensures UnderwayOrDone(e, TurnStep(e, w, ev), rows, before, k, |w.results|)
  {
    match ev
    case Take(i, listed) => TakeUnderway(e, w, rows, before, k, i, listed);
    case Free(i) => FreeUnderway(e, w, rows, before, k, i);
    case Commit(i) => CommitUnderway(e, w, rows, before, k, i);
    case Decide => DecideUnderway(e, w, rows, before, k);
  }

  lemma RegisteringUnderway(e: Setting, w: Fan, rows: map<nat, Row>, before: Block, k: nat, ev: Event)
    requires Valid(e, w) && Clear(w) && Underway(e, w, rows, before, k) && w.turn.Registering?
    requires ev.Put? || ev.Place? || ev.Suspend?
    ensures UnderwayOrDone(e, TurnStep(e, w, ev), rows, before, k, |w.results|)
  {
    match ev
    case Put(i) => PutUnderway(e, w, rows, before, k, i);
    case Place(i) => PlaceUnderway(e, w, rows, before, k, i);
    case Suspend => SuspendUnderway(e, w, rows, before, k);
  }

  /** The operations a turn has in its present phase; any other leaves everything as it is. */
  predicate InPhase(turn: Pass, ev: Event) {
    match turn
    case Away => false
    case Loaded(_) => ev == ReadFan
    case Reading'(_) => ev == ReadRows
    case Delivering(_, _, _, _, _, _) => ev.Take? || ev.Free? || ev.Commit? || ev.Decide?
    case Folding(_, _, _) => ev == FoldNext || ev == Dispatch
    case Registering(_, _, _, _) => ev.Put? || ev.Place? || ev.Suspend?
  }

  lemma OutOfPhase(e: Setting, w: Fan, ev: Event)
    requires e.plan.Valid() && |w.cells| == e.plan.size && OfTurn(ev) && !InPhase(w.turn, ev)
    ensures TurnStep(e, w, ev) == w
  {
  }

  lemma TurnUnderway(e: Setting, w: Fan, rows: map<nat, Row>, before: Block, k: nat, ev: Event)
    requires Valid(e, w) && Clear(w) && Underway(e, w, rows, before, k) && OfTurn(ev)
    requires |before| == e.plan.size && Lowest(e, rows, before, k)
    ensures UnderwayOrDone(e, TurnStep(e, w, ev), rows, before, k, |w.results|)
  {
    if !InPhase(w.turn, ev) {
      OutOfPhase(e, w, ev);
    } else {
      match w.turn
      case Loaded(_) => ReadFanUnderway(e, w, rows, before, k);
      case Reading'(_) => ReadRowsUnderway(e, w, rows, before, k);
      case Delivering(_, _, _, _, _, _) => DeliveringUnderway(e, w, rows, before, k, ev);
      case Folding(_, _, _) =>
        FoldUnderway(e, w, rows, before, k);
        DispatchUnderway(e, w, rows, before, k);
      case Registering(_, _, _, _) => RegisteringUnderway(e, w, rows, before, k, ev);
    }
  }

  lemma AroundKeepsTurn(e: Setting, w: Fan, ev: Event)
    requires |w.cells| == e.plan.size && !OfTurn(ev) && ev != Crash && !w.turn.Away?
    ensures Around(e, w, ev).turn == w.turn
  {
  }

  /** An event of a turn, or around it, that neither kills it nor lands on a fold. */
  lemma EventUnderway(e: Setting, w: Fan, rows: map<nat, Row>, before: Block, k: nat, ev: Event)
    requires Valid(e, w) && Clear(w) && Underway(e, w, rows, before, k) && ev != Crash && !Overwrites(w, ev)
    requires |before| == e.plan.size && Lowest(e, rows, before, k)
    ensures UnderwayOrDone(e, Do(e, w, ev), rows, before, k, |w.results|)
  {
    if OfTurn(ev) {
      TurnUnderway(e, w, rows, before, k, ev);
    } else {
      EventKept(e, w, ev);
      EventOver(e, w, ev);
      AroundKeepsTurn(e, w, ev);
      StoreGrows(e, w, Do(e, w, ev), rows, before, k);
    }
  }

  // ---- fair runs -----------------------------------------------------------------------------

  /** The turn under way is not killed, and ends with the last of `evs`, whatever else they are. */
  ghost predicate Whole(e: Setting, w: Fan, evs: seq<Event>)
    requires e.plan.Valid() && |w.cells| == e.plan.size
    decreases |evs|
  {
    && evs != [] && evs[0] != Crash && !w.turn.Away?
    && if |evs| == 1 then Do(e, w, evs[0]).turn.Away? else Whole(e, Do(e, w, evs[0]), evs[1..])
  }

  /** How many notifications land on folds. */
  ghost function Overwritten(e: Setting, w: Fan, evs: seq<Event>): nat
    requires e.plan.Valid() && |w.cells| == e.plan.size
    decreases |evs|
  {
    if evs == [] then 0 else (if Overwrites(w, evs[0]) then 1 else 0) + Overwritten(e, Do(e, w, evs[0]), evs[1..])
  }

  lemma {:induction false} TurnRecords(e: Setting, w: Fan, evs: seq<Event>, rows: map<nat, Row>, before: Block, k: nat)
    requires Valid(e, w) && Clear(w) && Underway(e, w, rows, before, k) && Whole(e, w, evs)
             && Overwritten(e, w, evs) == 0
    requires |before| == e.plan.size && Lowest(e, rows, before, k)
    ensures var w' := Run(e, w, evs);
            w'.turn.Away? && w.results <= w'.results && UnderwayOrDone(e, w', rows, before, k, |w.results|)
    decreases |evs|
  {
    var w' := Do(e, w, evs[0]);
    EventUnderway(e, w, rows, before, k, evs[0]);
    EventClear(e, w, evs[0]);
    EventOver(e, w, evs[0]);
    if |evs| == 1 {
      assert Run(e, w', evs[1..]) == w';
    } else {
      TurnRecords(e, w', evs[1..], rows, before, k);
    }
  }

  /** A turn that is not killed, and what happens until the next one begins. */
  datatype Epoch = Epoch(turn: seq<Event>, after: seq<Event>)

  ghost function AfterTurn(e: Setting, w: Fan, p: Epoch): (w': Fan)
    requires e.plan.Valid() && |w.cells| == e.plan.size
    ensures |w'.cells| == e.plan.size
  {
    Run(e, Do(e, w, Begin), p.turn)
  }

  ghost function EpochRun(e: Setting, w: Fan, p: Epoch): (w': Fan)
    requires e.plan.Valid() && |w.cells| == e.plan.size
    ensures |w'.cells| == e.plan.size
  {
    Run(e, AfterTurn(e, w, p), p.after)
  }

  ghost function EpochOverwrites(e: Setting, w: Fan, p: Epoch): nat
    requires e.plan.Valid() && |w.cells| == e.plan.size
  {
    Overwritten(e, Do(e, w, Begin), p.turn) + Overwritten(e, AfterTurn(e, w, p), p.after)
  }

  /**
   * A turn begins and runs to its end, and every child that had started by then, or was about to, is
   * over before the epoch is; further turns may begin, end and die meanwhile.
   */
  ghost predicate FairEpoch(e: Setting, w: Fan, p: Epoch)
    requires e.plan.Valid() && |w.cells| == e.plan.size
  {
    && w.turn.Away? && Whole(e, Do(e, w, Begin), p.turn) && EpochRun(e, w, p).turn.Away?
    && forall i | i in AfterTurn(e, w, p).rows || i in AfterTurn(e, w, p).starts :: Over(EpochRun(e, w, p).rows, i)
  }

  ghost predicate FairRun(e: Setting, w: Fan, epochs: seq<Epoch>)
    requires e.plan.Valid() && |w.cells| == e.plan.size
    decreases |epochs|
  {
    epochs == [] || (FairEpoch(e, w, epochs[0]) && FairRun(e, EpochRun(e, w, epochs[0]), epochs[1..]))
  }

  ghost function Epochs(e: Setting, w: Fan, epochs: seq<Epoch>): (w': Fan)
    requires e.plan.Valid() && |w.cells| == e.plan.size
    ensures |w'.cells| == e.plan.size
    decreases |epochs|
  {
    if epochs == [] then w else Epochs(e, EpochRun(e, w, epochs[0]), epochs[1..])
  }

  ghost function AllOverwrites(e: Setting, w: Fan, epochs: seq<Epoch>): nat
    requires e.plan.Valid() && |w.cells| == e.plan.size
    decreases |epochs|
  {
    if epochs == [] then 0
    else EpochOverwrites(e, w, epochs[0]) + AllOverwrites(e, EpochRun(e, w, epochs[0]), epochs[1..])
  }

  // ---- waves stay ready ----------------------------------------------------------------------

  lemma {:induction false} StaysReady(e: Setting, rows: map<nat, Row>, cells: Block, rows': map<nat, Row>,
                                      cells': Block, n: nat)
    requires |cells| == |cells'| == e.plan.size && Kept(cells, cells') && forall i | Over(rows, i) :: Over(rows', i)
    ensures Unready(e, rows', cells', n) <= Unready(e, rows, cells, n)
  {
    if n > 0 {
      StaysReady(e, rows, cells, rows', cells', n - 1);
      if ReadyWave(e, rows, cells, n - 1) {
        forall i: nat | e.plan.First(n - 1) <= i < e.plan.Past(n - 1)
          ensures ViewAt(cells', i).Some? && Over(rows', i)
        {
          assert ViewAt(cells, i).Some?;
        }
      }
    }
  }

  /** A notification on a fold hides checkpoints of its wave only. */
  lemma LandKeepsOthers(e: Setting, b: Block, i: nat, c: Completion, j: nat)
    requires OnWaves(e.plan, b) && i < |b| && j < |b| && ViewAt(b, j).Some? && e.plan.WaveOf(j) != e.plan.WaveOf(i)
    ensures ViewAt(b[i := Some(Done(c))], j).Some?
  {
    var b' := b[i := Some(Done(c))];
    if p: nat :| Covers(b, p, j) {
      CoverInWave(e.plan, b, p, j);
      assert Covers(b', p, j);
    }
  }

  lemma OthersStayReady(e: Setting, rows: map<nat, Row>, b: Block, i: nat, c: Completion, n: nat)
    requires OnWaves(e.plan, b) && i < |b| && n < e.plan.Count() && e.plan.WaveOf(i) != n && ReadyWave(e, rows, b, n)
    ensures ReadyWave(e, rows, b[i := Some(Done(c))], n)
  {
    var b' := b[i := Some(Done(c))];
    e.plan.WaveNonEmpty(n);
    assert forall j: nat | e.plan.First(n) <= j < e.plan.Past(n) :: Over(rows, j);
    forall j: nat | e.plan.First(n) <= j < e.plan.Past(n) ensures ViewAt(b', j).Some? {
      ThatStaysReady(e, rows, b, i, c, n, j);
    }
  }

  lemma ThatStaysReady(e: Setting, rows: map<nat, Row>, b: Block, i: nat, c: Completion, n: nat, j: nat)
    requires OnWaves(e.plan, b) && i < |b| && n < e.plan.Count() && e.plan.WaveOf(i) != n && ReadyWave(e, rows, b, n)
    requires e.plan.First(n) <= j < e.plan.Past(n) && e.plan.Past(n) <= e.plan.size
    ensures ViewAt(b[i := Some(Done(c))], j).Some?
  {
    e.plan.InWave(j, n);
    LandKeepsOthers(e, b, i, c, j);
  }

  lemma {:induction false} LandCosts(e: Setting, rows: map<nat, Row>, b: Block, i: nat, c: Completion, n: nat)
    requires OnWaves(e.plan, b) && i < |b| && n <= e.plan.Count()
    ensures Unready(e, rows, b[i := Some(Done(c))], n)
            <= Unready(e, rows, b, n) + if e.plan.WaveOf(i) < n then 1 else 0
  {
    if n > 0 {
      LandCosts(e, rows, b, i, c, n - 1);
      if e.plan.WaveOf(i) != n - 1 && ReadyWave(e, rows, b, n - 1) { OthersStayReady(e, rows, b, i, c, n - 1); }
    }
  }

  lemma EventUnready(e: Setting, w: Fan, ev: Event)
    requires Valid(e, w) && Clear(w)
    ensures var w' := Do(e, w, ev);
            Unready(e, w'.rows, w'.cells, e.plan.Count())
            <= Unready(e, w.rows, w.cells, e.plan.Count()) + if Overwrites(w, ev) then 1 else 0
  {
    var w', n := Do(e, w, ev), e.plan.Count();
    EventOver(e, w, ev);
    if Overwrites(w, ev) {
      LandCosts(e, w.rows, w.cells, ev.i, Notified(e.outcome(ev.i)), n);
    } else {
      EventKept(e, w, ev);
      StaysReady(e, w.rows, w.cells, w'.rows, w'.cells, n);
    }
  }

  lemma {:induction false} RunUnready(e: Setting, w: Fan, evs: seq<Event>)
    requires Valid(e, w) && Clear(w)
    ensures var w' := Run(e, w, evs);
            && Valid(e, w') && Clear(w') && w.results <= w'.results && (forall i | Over(w.rows, i) :: Over(w'.rows, i))
            && Unready(e, w'.rows, w'.cells, e.plan.Count())
               <= Unready(e, w.rows, w.cells, e.plan.Count()) + Overwritten(e, w, evs)
            && (Overwritten(e, w, evs) == 0 ==> Kept(w.cells, w'.cells))
    decreases |evs|
  {
    if evs != [] {
      var next := Do(e, w, evs[0]);
      EventUnready(e, w, evs[0]);
      EventClear(e, w, evs[0]);
      EventOver(e, w, evs[0]);
      if !Overwrites(w, evs[0]) { EventKept(e, w, evs[0]); }
      RunUnready(e, next, evs[1..]);
    }
  }

  // ---- every fair run ends -------------------------------------------------------------------

  lemma BeginUnderway(e: Setting, w: Fan, k: nat)
    requires Valid(e, w) && w.turn.Away?
    ensures var w' := Do(e, w, Begin);
            && Valid(e, w') && Clear(w') && w' == w.(turn := Loaded(w.cells)) && Underway(e, w', w.rows, w.cells, k)
  {
    AroundKeeps(e, w, Begin);
  }

  /** Once the children of a wave the turn left recorded are over, the wave is ready. */
  lemma RecordedThenReady(e: Setting, w: Fan, w1: Fan, w2: Fan, k: nat)
    requires Valid(e, w) && |w1.cells| == |w2.cells| == e.plan.size && k < e.plan.Count()
    requires Kept(w.cells, w1.cells) && Kept(w1.cells, w2.cells) && !ReadyWave(e, w.rows, w.cells, k)
    requires forall i | Over(w.rows, i) :: Over(w2.rows, i)
    requires forall i: nat | e.plan.First(k) <= i < e.plan.Past(k) :: OnRecord(w1, w1.starts, i)
    requires forall i | i in w1.rows || i in w1.starts :: Over(w2.rows, i)
    ensures Unready(e, w2.rows, w2.cells, e.plan.Count()) < Unready(e, w.rows, w.cells, e.plan.Count())
  {
    forall i: nat | e.plan.First(k) <= i < e.plan.Past(k) ensures ViewAt(w2.cells, i).Some? && Over(w2.rows, i) {
      assert OnRecord(w1, w1.starts, i);
    }
    UnreadyShrinks(e, w.rows, w.cells, w2.rows, w2.cells, e.plan.Count(), k);
  }

  /** An epoch ends with a result, or with fewer waves that are not ready, but for those whose folds were landed on. */
  lemma EpochAdvances(e: Setting, w: Fan, p: Epoch)
    requires Valid(e, w) && FairEpoch(e, w, p)
    ensures var w' := EpochRun(e, w, p);
            && Valid(e, w') && w'.turn.Away? && w.results <= w'.results
            && (|w'.results| > |w.results|
                || Unready(e, w'.rows, w'.cells, e.plan.Count()) + 1
                   <= Unready(e, w.rows, w.cells, e.plan.Count()) + 2 * EpochOverwrites(e, w, p))
  {
    var k := FindLowest(e, w.rows, w.cells, e.plan.Count());
    var begun, w1, w2 := Do(e, w, Begin), AfterTurn(e, w, p), EpochRun(e, w, p);
    BeginUnderway(e, w, k);
    RunUnready(e, begun, p.turn);
    RunUnready(e, w1, p.after);
    if EpochOverwrites(e, w, p) == 0 && |w2.results| <= |w.results| {
      TurnRecords(e, begun, p.turn, w.rows, w.cells, k);
      RecordedThenReady(e, w, w1, w2, k);
    }
  }

  lemma {:induction false} EpochsAdvance(e: Setting, w: Fan, epochs: seq<Epoch>)
    requires Valid(e, w) && FairRun(e, w, epochs)
    ensures var w' := Epochs(e, w, epochs);
            && Valid(e, w') && w.results <= w'.results
            && (|w'.results| > |w.results|
                || |epochs| <= Unready(e, w.rows, w.cells, e.plan.Count()) + 2 * AllOverwrites(e, w, epochs))
    decreases |epochs|
  {
    if epochs != [] {
      EpochAdvances(e, w, epochs[0]);
      EpochsAdvance(e, EpochRun(e, w, epochs[0]), epochs[1..]);
    }
  }

  // ---- how often a fold can be landed on -----------------------------------------------------

  /** A turn may yet register a waiter for item `i`. */
  predicate MayRegister(w: Fan, i: nat)
    requires i < |w.cells|
  {
    || w.cells[i] == None
    || match w.turn
       case Away => false
       case Loaded(snapshot) => i < |snapshot| && snapshot[i] == None
       case Reading'(v) => i < |v| && v[i] == None
       case Delivering(v, _, _, _, _, _) => i < |v| && v[i] == None
       case Folding(v, _, _) => i < |v| && v[i] == None
       case Registering(_, todo, _, _) => i in todo
  }

  /** At most how many notifications for item `i` can still land once it has a checkpoint. */
  function Flights(w: Fan, i: nat): nat
    requires i < |w.cells|
  {
    if MayRegister(w, i) then 2 else (if i in w.waiters then 1 else 0) + if i in w.landing then 1 else 0
  }

  lemma SeenStays(e: Setting, snapshot: Block, cells: Block, i: nat)
    requires OnWaves(e.plan, snapshot) && |cells| == |snapshot| && i < |cells| && snapshot[i].Some?
    ensures Seen(snapshot, cells)[i].Some?
  {
    OnWavesFolded(e.plan, snapshot);
    var merged := Merged(View(snapshot), cells);
    if p: nat :| Covers(snapshot, p, i) { Covered(snapshot, p, i); }
    assert merged[i].Some?;
  }

  /** The row a fold sits at keeps a checkpoint. */
  predicate IsHead(plan: Plan, i: nat)
    requires plan.Valid()
  {
    i < plan.size && i == plan.First(plan.WaveOf(i))
  }

  lemma FoldKeepsHead(e: Setting, w: Fan, i: nat)
    requires Valid(e, w) && w.turn.Folding? && IsHead(e.plan, i)
    ensures Flights(TurnStep(e, w, FoldNext), i) <= Flights(w, i)
  {
    var k := w.turn.next;
    if k < e.plan.Count() {
      e.plan.WaveNonEmpty(k);
      e.plan.InWave(i, k);
      e.plan.InWave(e.plan.First(k), k);
    }
  }

  /** Past the reading of the fan a turn writes only checkpoints, and registers only what it has to do. */
  lemma WritesKeepFlights(e: Setting, w: Fan, ev: Event, i: nat)
    requires e.plan.Valid() && |w.cells| == e.plan.size && InPhase(w.turn, ev) && i < |w.cells|
    requires w.turn.Reading'? || w.turn.Delivering? || w.turn.Registering?
    ensures Flights(TurnStep(e, w, ev), i) <= Flights(w, i)
  {
  }

  lemma DispatchKeepsFlights(e: Setting, w: Fan, i: nat)
    requires e.plan.Valid() && |w.cells| == e.plan.size && w.turn.Folding? && i < |w.cells|
    ensures Flights(TurnStep(e, w, Dispatch), i) <= Flights(w, i)
  {
  }

  lemma ReadKeepsFlights(e: Setting, w: Fan, i: nat)
    requires Valid(e, w) && w.turn.Loaded? && i < |w.cells|
    ensures Flights(TurnStep(e, w, ReadFan), i) <= Flights(w, i)
  {
    if w.turn.snapshot[i].Some? { SeenStays(e, w.turn.snapshot, w.cells, i); }
  }

  lemma TurnFlights(e: Setting, w: Fan, ev: Event, i: nat)
    requires Valid(e, w) && OfTurn(ev) && IsHead(e.plan, i)
    ensures Flights(TurnStep(e, w, ev), i) <= Flights(w, i)
  {
    if !InPhase(w.turn, ev) {
      OutOfPhase(e, w, ev);
    } else if w.turn.Loaded? {
      ReadKeepsFlights(e, w, i);
    } else if ev == FoldNext {
      FoldKeepsHead(e, w, i);
    } else if ev == Dispatch {
      DispatchKeepsFlights(e, w, i);
    } else {
      WritesKeepFlights(e, w, ev, i);
    }
  }

  lemma AroundFlights(e: Setting, w: Fan, ev: Event, i: nat)
    requires Valid(e, w) && Clear(w) && !OfTurn(ev) && i < |w.cells|
    ensures Flights(Around(e, w, ev), i) + (if Overwrites(w, ev) && ev.i == i then 1 else 0) <= Flights(w, i)
  {
  }

  ghost function AllFlights(e: Setting, w: Fan, n: nat): nat
    requires e.plan.Valid() && |w.cells| == e.plan.size && n <= e.plan.Count()
  {
    if n == 0 then 0 else e.plan.WaveNonEmpty(n - 1); AllFlights(e, w, n - 1) + Flights(w, e.plan.First(n - 1))
  }

  lemma {:induction false} EventFlights(e: Setting, w: Fan, ev: Event, n: nat)
    requires Valid(e, w) && Clear(w) && n <= e.plan.Count()
    ensures AllFlights(e, Do(e, w, ev), n) + (if Overwrites(w, ev) && e.plan.WaveOf(ev.i) < n then 1 else 0)
            <= AllFlights(e, w, n)
  {
    if n > 0 {
      EventFlights(e, w, ev, n - 1);
      e.plan.WaveNonEmpty(n - 1);
      var i := e.plan.First(n - 1);
      e.plan.InWave(i, n - 1);
      if OfTurn(ev) { TurnFlights(e, w, ev, i); } else { AroundFlights(e, w, ev, i); }
    }
  }

  lemma {:induction false} RunFlights(e: Setting, w: Fan, evs: seq<Event>)
    requires Valid(e, w) && Clear(w)
    ensures Valid(e, Run(e, w, evs)) && Clear(Run(e, w, evs))
    ensures AllFlights(e, Run(e, w, evs), e.plan.Count()) + Overwritten(e, w, evs) <= AllFlights(e, w, e.plan.Count())
    decreases |evs|
  {
    if evs != [] {
      var ev := evs[0];
      EventClear(e, w, ev);
      EventFlights(e, w, ev, e.plan.Count());
      if Overwrites(w, ev) { e.plan.InWave(ev.i, e.plan.WaveOf(ev.i)); }
      RunFlights(e, Do(e, w, ev), evs[1..]);
    }
  }

  lemma {:induction false} EpochsFlights(e: Setting, w: Fan, epochs: seq<Epoch>)
    requires Valid(e, w) && FairRun(e, w, epochs)
    ensures AllOverwrites(e, w, epochs) <= AllFlights(e, w, e.plan.Count())
    decreases |epochs|
  {
    if epochs != [] {
      var p := epochs[0];
      BeginUnderway(e, w, 0);
      EventFlights(e, w, Begin, e.plan.Count());
      RunFlights(e, Do(e, w, Begin), p.turn);
      RunFlights(e, AfterTurn(e, w, p), p.after);
      EpochsFlights(e, EpochRun(e, w, p), epochs[1..]);
    }
  }

  lemma {:induction false} FlightsAtMost(e: Setting, w: Fan, n: nat)
    requires e.plan.Valid() && |w.cells| == e.plan.size && n <= e.plan.Count()
    ensures AllFlights(e, w, n) <= 2 * n
  {
    if n > 0 { FlightsAtMost(e, w, n - 1); }
  }

  /**
   * Every fair run ends: after any history, if turns go on being begun and run to their ends now and
   * then, and each child started is over in the end, in whatever order children start and settle,
   * completions land, and further turns begin or die, then a result comes, and it is faithful. It
   * takes at most one epoch for each wave, and two more for each notification that lands on a fold,
   * of which there are at most two a wave.
   */
  lemma FairFanEnds(e: Setting, past: seq<Event>, epochs: seq<Epoch>)
    requires e.plan.Valid() && FairRun(e, Run(e, Init(e), past), epochs)
    ensures var w := Run(e, Init(e), past); var w', late := Epochs(e, w, epochs), AllOverwrites(e, w, epochs);
            && late <= 2 * e.plan.Count()
            && (|epochs| > e.plan.Count() + 2 * late ==> |w'.results| > |w.results|)
            && (|epochs| > 5 * e.plan.Count() ==> |w'.results| > |w.results|)
            && w.results <= w'.results && forall r | r in w'.results :: Faithful(e, r)
  {
    StartValid(e);
    RunKeeps(e, Init(e), past);
    var w := Run(e, Init(e), past);
    EpochsAdvance(e, w, epochs);
    EpochsFlights(e, w, epochs);
    FlightsAtMost(e, w, e.plan.Count());
    UnreadyAtMost(e, w.rows, w.cells, e.plan.Count());
  }

  // ---- fair runs exist -----------------------------------------------------------------------

  /** The operations of a turn left to itself, up to its end. */
  lemma {:induction false} DrivenToEnd(e: Setting, w: Fan, before: Block, k: nat, results: nat)
    returns (evs: seq<Event>)
    requires Stepped(e, w, before, k, results, w.rows) && !w.turn.Away?
    ensures Whole(e, w, evs) && Valid(e, Run(e, w, evs)) && Run(e, w, evs).turn.Away?
    decreases Rank(w.turn), Rest(e, w.turn)
  {
    var ev := NextEvent(e, w);
    var w' := TurnStep(e, w, ev);
    StepKeeps(e, w, before, k, results, w.rows);
    if w'.turn.Away? {
      evs := [ev];
      assert Run(e, w', evs[1..]) == w';
    } else {
      var rest := DrivenToEnd(e, w', before, k, results);
      evs := [ev] + rest;
      assert evs[1..] == rest;
    }
  }

  lemma ChildStarts(e: Setting, w: Fan, i: nat)
    requires |w.cells| == e.plan.size && (i in w.rows || i in w.starts)
    ensures var w' := Around(e, w, Start(i));
            && w'.turn == w.turn && i in w'.rows && (forall j | Over(w.rows, j) :: Over(w'.rows, j))
            && forall j | j in w.rows || j in w.starts :: j in w'.rows || j in w'.starts
  {
  }

  lemma ChildEnds(e: Setting, w: Fan, i: nat)
    requires |w.cells| == e.plan.size && i in w.rows
    ensures var w' := Around(e, w, SettleChild(i));
            && w'.turn == w.turn && Over(w'.rows, i) && (forall j | Over(w.rows, j) :: Over(w'.rows, j))
            && forall j | j in w.rows || j in w.starts :: j in w'.rows || j in w'.starts
  {
  }

  /** A child about to run starts and settles. */
  lemma ChildSettles(e: Setting, w: Fan, i: nat)
    requires Valid(e, w) && w.turn.Away? && (i in w.rows || i in w.starts)
    ensures var w' := Do(e, Do(e, w, Start(i)), SettleChild(i));
            && Valid(e, w') && w'.turn.Away? && Over(w'.rows, i) && (forall j | Over(w.rows, j) :: Over(w'.rows, j))
            && forall j | j in w.rows || j in w.starts :: j in w'.rows || j in w'.starts
  {
    var w1 := Around(e, w, Start(i));
    assert Do(e, w, Start(i)) == w1 && Do(e, w1, SettleChild(i)) == Around(e, w1, SettleChild(i));
    AroundKeeps(e, w, Start(i));
    AroundKeeps(e, w1, SettleChild(i));
    ChildStarts(e, w, i);
    ChildEnds(e, w1, i);
  }

  lemma TwoEvents(e: Setting, w: Fan, a: Event, b: Event, rest: seq<Event>)
    requires e.plan.Valid() && |w.cells| == e.plan.size
    ensures Run(e, w, [a, b] + rest) == Run(e, Do(e, Do(e, w, a), b), rest)
  {
    assert ([a, b] + rest)[1..] == [b] + rest && ([b] + rest)[1..] == rest;
  }

  /** The children of `s` start and settle, one after the other. */
  lemma {:induction false} ChildrenSettle(e: Setting, w: Fan, s: set<nat>) returns (evs: seq<Event>)
    requires Valid(e, w) && w.turn.Away? && forall i | i in s :: i in w.rows || i in w.starts
    ensures var w' := Run(e, w, evs);
            && Valid(e, w') && w'.turn.Away? && (forall i | i in s :: Over(w'.rows, i))
            && forall i | Over(w.rows, i) :: Over(w'.rows, i)
    decreases |s|
  {
    if s == {} {
      evs := [];
    } else {
      var i :| i in s;
      ChildSettles(e, w, i);
      var rest := ChildrenSettle(e, Do(e, Do(e, w, Start(i)), SettleChild(i)), s - {i});
      evs := [Start(i), SettleChild(i)] + rest;
      TwoEvents(e, w, Start(i), SettleChild(i), rest);
    }
  }

  lemma EpochExists(e: Setting, w: Fan) returns (p: Epoch)
    requires Valid(e, w) && w.turn.Away?
    ensures FairEpoch(e, w, p) && Valid(e, EpochRun(e, w, p))
  {
    var k := FindLowest(e, w.rows, w.cells, e.plan.Count());
    var begun := Do(e, w, Begin);
    AroundKeeps(e, w, Begin);
    var turn := DrivenToEnd(e, begun, w.cells, k, |w.results|);
    var w1 := Run(e, begun, turn);
    var after := ChildrenSettle(e, w1, w1.rows.Keys + w1.starts);
    p := Epoch(turn, after);
  }

  /** From any state between turns a fair run can go on for any number of epochs. */
  lemma {:induction false} FairRunExists(e: Setting, w: Fan, n: nat) returns (epochs: seq<Epoch>)
    requires Valid(e, w) && w.turn.Away?
    ensures |epochs| == n && FairRun(e, w, epochs)
    decreases n
  {
    if n == 0 {
      epochs := [];
    } else {
      var p := EpochExists(e, w);
      var rest := FairRunExists(e, EpochRun(e, w, p), n - 1);
      epochs := [p] + rest;
      assert epochs[1..] == rest;
    }
  }
}
