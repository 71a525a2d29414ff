/** A fan that fails fast: the turn that sees a failure throws it at once, and nothing is sent after it. */
module FanFailFast {
  import opened Common
  import opened FanPlan
  import opened FanFold
  import opened FanRuns
  import opened FanProofs
  import opened FanShelter

  // ---- what a turn has seen to fail, the store holds -----------------------------------------

  ghost predicate Backs(cells: Block, v: Block) { forall i: nat | FailedAt(v, i) :: FailedAt(cells, i) }

  /** A failure the turn under way has seen is in the store. */
  ghost predicate Backed(w: Fan) {
    match w.turn
    case Away => true
    case Loaded(snapshot) => Backs(w.cells, snapshot)
    case Reading'(v) => Backs(w.cells, v)
    case Delivering(v, _, _, _, _, _) => Backs(w.cells, v)
    case Folding(v, _, _) => Backs(w.cells, v)
    case Registering(v, _, _, _) => Backs(w.cells, v)
  }

  lemma SeenBacked(e: Setting, snapshot: Block, cells: Block)
    requires OnWaves(e.plan, snapshot) && OnWaves(e.plan, cells) && Backs(cells, snapshot)
    ensures Backs(cells, Seen(snapshot, cells))
  {
    OnWavesFolded(e.plan, snapshot);
    OnWavesFolded(e.plan, cells);
    MergedFolded(snapshot, cells);
    var merged := Merged(View(snapshot), cells);
    forall i: nat | FailedAt(Seen(snapshot, cells), i) ensures FailedAt(cells, i) {
      if p: nat :| Covers(merged, p, i) { Covered(merged, p, i); }
      if p: nat :| Covers(snapshot, p, i) { Covered(snapshot, p, i); }
    }
  }

  lemma FoldBacked(e: Setting, w: Fan)
    requires Valid(e, w) && Backed(w) && w.turn.Folding?
    ensures Backed(TurnStep(e, w, FoldNext))
  {
    var k, v := w.turn.next, w.turn.view;
    if k < e.plan.Count() {
      e.plan.WaveNonEmpty(k);
      assert Successful(e.plan, v, k) ==> forall i: nat | e.plan.First(k) <= i < e.plan.Past(k) :: !FailedAt(v, i);
    }
  }

  lemma SetBacks(cells: Block, v: Block, i: nat, cell: Option<Cell>)
    requires Backs(cells, v) && i < |cells| && i < |v|
    ensures Backs(cells[i := cell], v[i := cell])
    ensures !FailedAt(v, i) ==> Backs(cells[i := cell], v)
  {
    var cells', v' := cells[i := cell], v[i := cell];
    forall j: nat | FailedAt(v', j) ensures FailedAt(cells', j) {
      if j != i { assert FailedAt(v, j); }
    }
    if !FailedAt(v, i) {
      forall j: nat | FailedAt(v, j) ensures FailedAt(cells', j) { assert j != i; }
    }
  }

  lemma WriteBacked(e: Setting, w: Fan, ev: Event)
    requires e.plan.Valid() && |w.cells| == e.plan.size && Backed(w) && TurnShows(w.cells, w.turn)
    requires (ev.Commit? && w.turn.Delivering?) || (ev.Place? && w.turn.Registering?)
    ensures Backed(TurnStep(e, w, ev))
  {
    if ev.Commit? && ev.i in w.turn.freed && ev.i < |w.cells| {
      SetBacks(w.cells, w.turn.view, ev.i, Some(Done(w.turn.freed[ev.i])));
    }
    if ev.Place? && ev.i in w.turn.put && ev.i < |w.cells| { SetBacks(w.cells, w.turn.view, ev.i, Some(Waiting)); }
  }

  lemma OtherBacked(e: Setting, w: Fan, ev: Event)
    requires e.plan.Valid() && |w.cells| == e.plan.size && Backed(w) && OfTurn(ev)
    requires ev != ReadFan && ev != FoldNext && !ev.Commit? && !ev.Place?
    ensures Backed(TurnStep(e, w, ev))
  {
  }

  /** A notification that lands where a failure has been seen tells the same failure. */
  lemma LandBacked(e: Setting, w: Fan, v: Block, i: nat)
    requires BlockOk(e, w.rows, w.sent, v) && Backs(w.cells, v) && i < |w.cells|
    ensures Backs(w.cells[i := Some(Done(Notified(e.outcome(i))))], v)
  {
    if FailedAt(v, i) { assert CellOk(e, w.rows, i, v[i].value); }
  }

  lemma AroundBacked(e: Setting, w: Fan, ev: Event)
    requires Valid(e, w) && Backed(w) && !OfTurn(ev)
    ensures Backed(Around(e, w, ev))
  {
    if ev.Land? && ev.i in w.landing && ev.i < |w.cells| {
      match w.turn
      case Away =>
      case Loaded(snapshot) => LandBacked(e, w, snapshot, ev.i);
      case Reading'(v) => LandBacked(e, w, v, ev.i);
      case Delivering(v, _, _, _, _, _) => LandBacked(e, w, v, ev.i);
      case Folding(v, _, _) => LandBacked(e, w, v, ev.i);
      case Registering(v, _, _, _) => LandBacked(e, w, v, ev.i);
    }
  }

  lemma EventBacked(e: Setting, w: Fan, ev: Event)
    requires Valid(e, w) && ShelterOk(w) && Backed(w)
    ensures Backed(Do(e, w, ev))
  {
    if !OfTurn(ev) {
      AroundBacked(e, w, ev);
    } else if ev == ReadFan {
      if w.turn.Loaded? { SeenBacked(e, w.turn.snapshot, w.cells); }
    } else if ev == FoldNext {
      if w.turn.Folding? { FoldBacked(e, w); }
    } else if ev.Commit? || ev.Place? {
      if (ev.Commit? && w.turn.Delivering?) || (ev.Place? && w.turn.Registering?) { WriteBacked(e, w, ev); }
    } else {
      OtherBacked(e, w, ev);
    }
  }

  lemma {:induction false} RunBacked(e: Setting, w: Fan, evs: seq<Event>)
    requires Valid(e, w) && ShelterOk(w) && Backed(w)
    ensures Valid(e, Run(e, w, evs)) && Backed(Run(e, w, evs))
    decreases |evs|
  {
    if evs != [] {
      EventBacked(e, w, evs[0]);
      StepShelters(e, w, evs[0]);
      RunKeeps(e, w, [evs[0]]);
      OneStep(e, w, evs[0]);
      RunBacked(e, Do(e, w, evs[0]), evs[1..]);
    }
  }

  // ---- once a failure is in the store --------------------------------------------------------

  /** Child `i` has failed in the store, and any turn since has read it or is about to. */
  ghost predicate Stopped(w: Fan, i: nat) {
    && FailedAt(w.cells, i)
    && match w.turn
       case Away => true
       case Loaded(snapshot) => FailedAt(snapshot, i)
       case Reading'(v) => FailedAt(v, i)
       case Delivering(v, _, _, _, _, _) => FailedAt(v, i)
       case _ => false
  }

  lemma CoveredSucceeded(e: Setting, rows: map<nat, Row>, sent: nat, b: Block, p: nat, i: nat)
    requires BlockOk(e, rows, sent, b) && Covers(b, p, i)
    ensures e.outcome(i).Ok?
  {
    assert CellOk(e, rows, p, b[p].value);
    assert Tells(e, rows, p + (i - p), Ok(b[p].value.values[i - p]));
  }

  /** A failed row lies under no fold: folds stand for children that succeeded. */
  lemma FailureShows(e: Setting, w: Fan, b: Block, i: nat)
    requires BlockOk(e, w.rows, w.sent, b) && FailedAt(b, i)
    ensures ViewAt(b, i) == b[i]
  {
    assert CellOk(e, w.rows, i, b[i].value);
    forall p: nat | Covers(b, p, i) ensures e.outcome(i).Ok? { CoveredSucceeded(e, w.rows, w.sent, b, p, i); }
  }

  lemma SeenStopped(e: Setting, w: Fan, i: nat)
    requires Valid(e, w) && w.turn.Loaded? && FailedAt(w.turn.snapshot, i)
    ensures FailedAt(Seen(w.turn.snapshot, w.cells), i)
  {
    var snapshot := w.turn.snapshot;
    var merged := Merged(View(snapshot), w.cells);
    FailureShows(e, w, snapshot, i);
    ViewBlockOk(e, w.rows, w.sent, snapshot);
    MergedOk(e, w.rows, w.sent, View(snapshot), w.cells);
    assert merged[i] == snapshot[i];
    FailureShows(e, w, merged, i);
  }

  /** A result a stopped fan can add. */
  predicate ThrowsFast(before: seq<Ended>, after: seq<Ended>) {
    before <= after && forall k | |before| <= k < |after| :: after[k].FailedFast?
  }

  lemma DeliveringStopped(e: Setting, w: Fan, i: nat, ev: Event)
    requires Valid(e, w) && Stopped(w, i) && e.failFast && w.turn.Delivering? && OfTurn(ev)
    ensures var w' := TurnStep(e, w, ev);
            Stopped(w', i) && w'.sent == w.sent && w'.waiters <= w.waiters && ThrowsFast(w.results, w'.results)
  {
    if ev.Commit? && ev.i in w.turn.freed { assert ev.i != i; }
  }

  lemma AroundStopped(e: Setting, w: Fan, i: nat, ev: Event)
    requires Valid(e, w) && Stopped(w, i) && !OfTurn(ev)
    ensures var w' := Around(e, w, ev);
            Stopped(w', i) && w'.sent == w.sent && w'.waiters <= w.waiters && w'.results == w.results
  {
    if ev.Land? { assert CellOk(e, w.rows, i, w.cells[i].value); }
  }

  lemma ReadingStopped(e: Setting, w: Fan, i: nat, ev: Event)
    requires Valid(e, w) && Stopped(w, i) && OfTurn(ev) && !w.turn.Delivering?
    ensures var w' := TurnStep(e, w, ev);
            Stopped(w', i) && w'.sent == w.sent && w'.waiters == w.waiters && w'.results == w.results
  {
    if w.turn.Loaded? && ev == ReadFan { SeenStopped(e, w, i); }
  }

  lemma EventStopped(e: Setting, w: Fan, i: nat, ev: Event)
    requires Valid(e, w) && Stopped(w, i) && e.failFast
    ensures var w' := Do(e, w, ev);
            Stopped(w', i) && w'.sent == w.sent && w'.waiters <= w.waiters && ThrowsFast(w.results, w'.results)
  {
    if !OfTurn(ev) {
      AroundStopped(e, w, i, ev);
    } else if w.turn.Delivering? {
      DeliveringStopped(e, w, i, ev);
    } else {
      ReadingStopped(e, w, i, ev);
    }
  }

  /**
   * Once a failure is in the store of a fan that fails fast and no turn is under way, no turn sends a
   * wave or registers a child ever again: each that ends throws.
   */
  lemma {:induction false} NothingSentAfter(e: Setting, w: Fan, i: nat, evs: seq<Event>)
    requires Valid(e, w) && Stopped(w, i) && e.failFast
    ensures var w' := Run(e, w, evs);
            Stopped(w', i) && w'.sent == w.sent && w'.waiters <= w.waiters && ThrowsFast(w.results, w'.results)
    decreases |evs|
  {
    if evs != [] {
      EventStopped(e, w, i, evs[0]);
      RunKeeps(e, w, [evs[0]]);
      OneStep(e, w, evs[0]);
      NothingSentAfter(e, Do(e, w, evs[0]), i, evs[1..]);
    }
  }

  /** The turn has delivered all it could, and is about to decide. */
  predicate AboutToDecide(w: Fan) {
    w.turn.Delivering? && w.turn.todo == {} && w.turn.taken == map[] && w.turn.freed == map[]
  }

  /** What a turn about to decide does, on what it has seen. */
  lemma DecidesOn(e: Setting, w: Fan)
    requires e.plan.Valid() && |w.cells| == e.plan.size && AboutToDecide(w)
    ensures var v, w1 := w.turn.view, Do(e, w, Decide);
            if e.failFast && exists i: nat :: FailedAt(v, i) then
              && w1 == w.(turn := Away, starts := w.starts + w.turn.starts, results := w1.results)
              && exists i: nat :: FailedAt(v, i) && (forall j: nat | j < i :: !FailedAt(v, j))
                   && w1.results == w.results + [FailedFast(i, v[i].value.completion.failure.message)]
            else w1 == w.(turn := Folding(v, 0, w.turn.starts))
  {
    var first := FirstFailed(w.turn.view, 0);
    if e.failFast && first.Some? { assert FailedAt(w.turn.view, first.value); }
  }

  /**
   * Failing fast, exactly: after any history, a turn that has delivered all it could ends there and
   * then if and only if the fan fails fast and the turn sees a failed child; it then throws the failure
   * of the lowest, and however the run goes on no wave is sent, no child registered, and no turn ends
   * but by throwing. Otherwise it goes on with what it has seen.
   */
  lemma FailsFastIff(e: Setting, past: seq<Event>, evs: seq<Event>)
    requires e.plan.Valid() && AboutToDecide(Run(e, Init(e), past))
    ensures var w := Run(e, Init(e), past); var w1 := Do(e, w, Decide); var w2 := Run(e, w1, evs);
            if e.failFast && exists i: nat :: FailedAt(w.turn.view, i) then
              && w1.turn == Away && w1.sent == w.sent
              && (exists i: nat :: FailedAt(w.turn.view, i) && (forall j: nat | j < i :: !FailedAt(w.turn.view, j))
                    && w1.results == w.results + [FailedFast(i, w.turn.view[i].value.completion.failure.message)])
              && w2.sent == w.sent && w2.waiters <= w.waiters && ThrowsFast(w1.results, w2.results)
            else w1 == w.(turn := Folding(w.turn.view, 0, w.turn.starts))
  {
    var w := Run(e, Init(e), past);
    StartValid(e);
    RunBacked(e, Init(e), past);
    DecidesOn(e, w);
    TurnStepKeeps(e, w, Decide);
    if e.failFast && exists i: nat :: FailedAt(w.turn.view, i) {
      var i: nat :| FailedAt(w.turn.view, i);
      NothingSentAfter(e, Do(e, w, Decide), i, evs);
    }
  }
}
