/**
 * What lies under the folds of a fan: a notification that lands late writes its child's row under a
 * fold already made, and nothing else does.
 */
module FanShelter {
  import opened Common
  import opened FanPlan
  import opened FanFold
  import opened FanRuns
  import opened FanProofs

  predicate Plain(c: Option<Cell>) { c == None || c.value.Done? }

  /** Under a fold there is nothing but a completion. */
  ghost predicate Sheltered(b: Block) { forall q: nat, i: nat | Covers(b, q, i) && q < i < |b| :: Plain(b[i]) }

  /** The view shows something wherever there is a fold. */
  ghost predicate Shown(b: Block, v: Block) {
    |b| == |v| && forall q: nat, i: nat | Covers(b, q, i) && i < |b| :: v[i].Some?
  }

  /** The snapshot has the folds the store has. */
  ghost predicate Followed(b: Block, snapshot: Block) {
    |b| == |snapshot| && forall q: nat | q < |b| && b[q].Some? && b[q].value.Fold? :: snapshot[q] == b[q]
  }

  ghost predicate TurnShows(b: Block, turn: Pass) {
    match turn
    case Away => true
    case Loaded(snapshot) => Followed(b, snapshot)
    case Reading'(v) => Shown(b, v)
    case Delivering(v, _, _, _, _, _) => Shown(b, v)
    case Folding(v, _, _) => Shown(b, v)
    case Registering(v, todo, put, _) => Shown(b, v) && forall i | i in todo || i in put :: i < |v| && v[i] == None
  }

  ghost predicate ShelterOk(w: Fan) { Sheltered(w.cells) && TurnShows(w.cells, w.turn) }

  lemma CompletionSet(b: Block, i: nat, c: Completion, turn: Pass)
    requires i < |b| && Sheltered(b) && TurnShows(b, turn)
    ensures Sheltered(b[i := Some(Done(c))]) && TurnShows(b[i := Some(Done(c))], turn)
  {
    var b' := b[i := Some(Done(c))];
    assert forall q: nat, j: nat | Covers(b', q, j) :: Covers(b, q, j);
  }

  lemma PlaceholderSet(b: Block, i: nat, turn: Pass)
    requires i < |b| && Sheltered(b) && TurnShows(b, turn) && !(exists q: nat :: Covers(b, q, i))
    ensures Sheltered(b[i := Some(Waiting)]) && TurnShows(b[i := Some(Waiting)], turn)
  {
    var b' := b[i := Some(Waiting)];
    assert forall q: nat, j: nat | Covers(b', q, j) :: Covers(b, q, j);
  }

  lemma ViewAgain(e: Setting, b: Block, v: Block, i: nat, c: Completion)
    requires Shown(b, v) && i < |v|
    ensures Shown(b, v[i := Some(Done(c))])
  {
  }

  lemma SeenShows(e: Setting, snapshot: Block, cells: Block)
    requires OnWaves(e.plan, snapshot) && OnWaves(e.plan, cells) && Followed(cells, snapshot)
    ensures Shown(cells, Seen(snapshot, cells))
  {
    OnWavesFolded(e.plan, snapshot);
    OnWavesFolded(e.plan, cells);
    MergedFolded(snapshot, cells);
    var merged := Merged(View(snapshot), cells);
    forall q: nat, i: nat | Covers(cells, q, i) && i < |cells| ensures Seen(snapshot, cells)[i].Some? {
      assert Covers(snapshot, q, i);
      Covered(snapshot, q, i);
      assert merged[i].Some?;
      if p: nat :| Covers(merged, p, i) { Covered(merged, p, i); }
    }
  }

  lemma CompactShelters(b: Block, v: Block, first: nat, past: nat, values: seq<Value>)
    requires Sheltered(b) && Shown(b, v) && first < past <= |b| && |values| == past - first
    requires forall i: nat | first <= i < past :: v[i].Some?
    requires Folded(Compact(b, first, past, values))
    ensures Sheltered(Compact(b, first, past, values)) && Shown(Compact(b, first, past, values), v)
  {
    var c := Compact(b, first, past, values);
    forall q: nat, i: nat | Covers(c, q, i) && i < |c| ensures v[i].Some? && (q < i ==> Plain(c[i])) {
      if q != first {
        assert c[q] == b[q] && Covers(b, q, i);
        assert i != first by { if i == first { assert Covers(c, first, first); CoverUnique(c, q, first, first); } }
      }
    }
  }

  lemma FoldWaveShelters(plan: Plan, b: Block, v: Block, k: nat)
    requires plan.Valid() && |b| == |v| == plan.size && k < plan.Count() && Sheltered(b) && Shown(b, v)
    requires OnWaves(plan, FoldWave(plan, b, v, k))
    ensures Sheltered(FoldWave(plan, b, v, k)) && Shown(FoldWave(plan, b, v, k), v)
  {
    var c := FoldWave(plan, b, v, k);
    OnWavesFolded(plan, c);
    plan.WaveNonEmpty(k);
    if c != b { CompactShelters(b, v, plan.First(k), plan.Past(k), ValuesOf(plan, v, k)); }
  }

  lemma FoldShelters(e: Setting, w: Fan)
    requires e.plan.Valid() && |w.cells| == e.plan.size && ShelterOk(w) && w.turn.Folding?
    requires OnWaves(e.plan, TurnStep(e, w, FoldNext).cells)
    ensures ShelterOk(TurnStep(e, w, FoldNext))
  {
    if Folds(e) && w.turn.next < e.plan.Count() && |w.turn.view| == e.plan.size {
      FoldWaveShelters(e.plan, w.cells, w.turn.view, w.turn.next);
    }
  }

  lemma StillOnWaves(e: Setting, w: Fan)
    requires Valid(e, w) && w.turn.Folding?
    ensures OnWaves(e.plan, TurnStep(e, w, FoldNext).cells)
  {
    FoldKeeps(e, w);
  }

  lemma CommitShelters(e: Setting, w: Fan, i: nat)
    requires ShelterOk(w) && w.turn.Delivering? && |w.cells| == e.plan.size && e.plan.Valid()
    ensures ShelterOk(TurnStep(e, w, Commit(i)))
  {
    var v := w.turn.view;
    if i in w.turn.freed && i < |v| == |w.cells| {
      CompletionSet(w.cells, i, w.turn.freed[i], w.turn);
      ViewAgain(e, w.cells[i := Some(Done(w.turn.freed[i]))], v, i, w.turn.freed[i]);
    }
  }

  lemma PlaceShelters(e: Setting, w: Fan, i: nat)
    requires ShelterOk(w) && w.turn.Registering? && |w.cells| == e.plan.size && e.plan.Valid()
    ensures ShelterOk(TurnStep(e, w, Place(i)))
  {
    if i in w.turn.put && i < |w.cells| { PlaceholderSet(w.cells, i, w.turn); }
  }

  lemma DispatchShelters(e: Setting, w: Fan)
    requires ShelterOk(w) && w.turn.Folding? && |w.cells| == e.plan.size && e.plan.Valid()
    ensures ShelterOk(TurnStep(e, w, Dispatch))
  {
  }

  /** The rest of a turn changes no row. */
  lemma OthersShelter(e: Setting, w: Fan, ev: Event)
    requires ShelterOk(w) && |w.cells| == e.plan.size && e.plan.Valid() && OfTurn(ev)
    requires ev != ReadFan && !ev.Commit? && ev != FoldNext && !ev.Place? && ev != Dispatch
    ensures ShelterOk(TurnStep(e, w, ev))
  {
  }

  lemma TurnShelters(e: Setting, w: Fan, ev: Event)
    requires Valid(e, w) && ShelterOk(w) && OfTurn(ev)
    ensures ShelterOk(TurnStep(e, w, ev))
  {
    if ev == ReadFan {
      if w.turn.Loaded? { SeenShows(e, w.turn.snapshot, w.cells); }
    } else if ev.Commit? {
      if w.turn.Delivering? { CommitShelters(e, w, ev.i); }
    } else if ev == FoldNext {
      if w.turn.Folding? {
        StillOnWaves(e, w);
        FoldShelters(e, w);
      }
    } else if ev.Place? {
      if w.turn.Registering? { PlaceShelters(e, w, ev.i); }
    } else if ev == Dispatch {
      if w.turn.Folding? { DispatchShelters(e, w); }
    } else {
      OthersShelter(e, w, ev);
    }
  }

  lemma StepShelters(e: Setting, w: Fan, ev: Event)
    requires Valid(e, w) && ShelterOk(w)
    ensures ShelterOk(Do(e, w, ev))
  {
    if OfTurn(ev) {
      TurnShelters(e, w, ev);
    } else if ev.Land? && ev.i in w.landing && ev.i < |w.cells| {
      CompletionSet(w.cells, ev.i, Notified(e.outcome(ev.i)), w.turn);
    }
  }

  lemma {:induction false} RunShelters(e: Setting, w: Fan, evs: seq<Event>)
    requires Valid(e, w) && ShelterOk(w)
    ensures Valid(e, Run(e, w, evs)) && ShelterOk(Run(e, w, evs))
    decreases |evs|
  {
    if evs != [] {
      StepShelters(e, w, evs[0]);
      RunKeeps(e, w, [evs[0]]);
      OneStep(e, w, evs[0]);
      RunShelters(e, Do(e, w, evs[0]), evs[1..]);
    }
  }

  lemma OneStep(e: Setting, w: Fan, ev: Event)
    requires e.plan.Valid() && |w.cells| == e.plan.size
    ensures Run(e, w, [ev]) == Do(e, w, ev)
  {
    assert [ev][1..] == [];
  }

  /**
   * In every state a fan can reach, whatever crashed and whatever landed late, a row under a fold is
   * the completion its child was notified with, and what the fold stands for.
   */
  lemma UnderFolds(e: Setting, evs: seq<Event>, q: nat, i: nat)
    requires e.plan.Valid()
    requires var b := Run(e, Init(e), evs).cells; Covers(b, q, i) && q < i < |b| && b[i].Some?
    ensures Run(e, Init(e), evs).cells[i] == Some(Done(Notified(e.outcome(i))))
    ensures Notified(e.outcome(i)) == Ok(Run(e, Init(e), evs).cells[q].value.values[i - q])
  {
    StartValid(e);
    RunShelters(e, Init(e), evs);
    var w := Run(e, Init(e), evs);
    assert CellOk(e, w.rows, q, w.cells[q].value);
    assert Tells(e, w.rows, q + (i - q), Ok(w.cells[q].value.values[i - q]));
    assert CellOk(e, w.rows, i, w.cells[i].value);
  }
}
