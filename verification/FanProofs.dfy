/** What every run of a fan keeps. */
module FanProofs {
  import opened Common
  import opened FanPlan
  import opened FanFold
  import opened FanRuns

  // ---- blocks --------------------------------------------------------------------------------

  lemma BlockGrows(e: Setting, rows: map<nat, Row>, sent: nat, rows': map<nat, Row>, sent': nat, b: Block)
    requires BlockOk(e, rows, sent, b) && sent <= sent' && forall i | Over(rows, i) :: Over(rows', i)
    ensures BlockOk(e, rows', sent', b)
  {
  }

  lemma CellSet(e: Setting, rows: map<nat, Row>, sent: nat, b: Block, i: nat, cell: Cell)
    requires BlockOk(e, rows, sent, b) && i < |b| && Sent(e, sent, i) && CellOk(e, rows, i, cell) && !cell.Fold?
    ensures BlockOk(e, rows, sent, b[i := Some(cell)])
  {
  }

  lemma ViewBlockOk(e: Setting, rows: map<nat, Row>, sent: nat, b: Block)
    requires BlockOk(e, rows, sent, b)
    ensures BlockOk(e, rows, sent, View(b)) && forall i: nat | i < |b| && View(b)[i].Some? :: !View(b)[i].value.Fold?
  {
    OnWavesFolded(e.plan, b);
    ViewHasNoFolds(b);
    var v := View(b);
    forall i: nat | i < |b| && v[i].Some? ensures Sent(e, sent, i) && CellOk(e, rows, i, v[i].value) {
      if p: nat :| Covers(b, p, i) {
        Covered(b, p, i);
        CoverInWave(e.plan, b, p, i);
        assert CellOk(e, rows, p, b[p].value) && i == p + (i - p);
      }
    }
  }

  lemma MergedOk(e: Setting, rows: map<nat, Row>, sent: nat, a: Block, b: Block)
    requires BlockOk(e, rows, sent, a) && BlockOk(e, rows, sent, b)
    ensures BlockOk(e, rows, sent, Merged(a, b))
  {
    var m := Merged(a, b);
    forall i: nat | i < |m| && m[i].Some? ensures m[i] == a[i] || m[i] == b[i] {
    }
  }

  lemma SeenOk(e: Setting, rows: map<nat, Row>, sent: nat, snapshot: Block, cells: Block)
    requires BlockOk(e, rows, sent, snapshot) && BlockOk(e, rows, sent, cells)
    ensures BlockOk(e, rows, sent, Seen(snapshot, cells))
    ensures forall i: nat | i < |cells| && Seen(snapshot, cells)[i].Some? :: !Seen(snapshot, cells)[i].value.Fold?
  {
    ViewBlockOk(e, rows, sent, snapshot);
    MergedOk(e, rows, sent, View(snapshot), cells);
    ViewBlockOk(e, rows, sent, Merged(View(snapshot), cells));
  }

  lemma FoldOk(e: Setting, rows: map<nat, Row>, sent: nat, b: Block, v: Block, k: nat)
    requires StoreOk(e, rows, sent, b) && BlockOk(e, rows, sent, v) && k < e.plan.Count()
    requires forall i: nat | i < |v| && v[i].Some? :: !v[i].value.Fold?
    ensures StoreOk(e, rows, sent, FoldWave(e.plan, b, v, k))
  {
    var plan := e.plan;
    plan.WaveNonEmpty(k);
    var first := plan.First(k);
    plan.InWave(first, k);
    if Successful(plan, v, k) {
      var values := ValuesOf(plan, v, k);
      forall j: nat | j < |values| ensures Tells(e, rows, first + j, Ok(values[j])) {
        assert Settlement(v[first + j]) == Some(Ok(values[j]));
      }
      CompactOk(e, rows, sent, b, k, values);
    }
  }

  lemma CompactOk(e: Setting, rows: map<nat, Row>, sent: nat, b: Block, k: nat, values: seq<Value>)
    requires StoreOk(e, rows, sent, b)
    requires k < e.plan.Count() && e.plan.First(k) < e.plan.Past(k) <= |b| && Sent(e, sent, e.plan.First(k))
    requires |values| == e.plan.Past(k) - e.plan.First(k)
    requires forall j: nat | j < |values| :: Tells(e, rows, e.plan.First(k) + j, Ok(values[j]))
    ensures StoreOk(e, rows, sent, Compact(b, e.plan.First(k), e.plan.Past(k), values))
  {
    var c := Compact(b, e.plan.First(k), e.plan.Past(k), values);
    e.plan.InWave(e.plan.First(k), k);
    assert OnWaves(e.plan, c);
  }

  // ---- the dispatch --------------------------------------------------------------------------

  lemma {:induction false} ActiveSorted(plan: Plan, v: Block, n: nat)
    requires |v| == plan.size
    ensures forall i, j | 0 <= i < j < |Active(plan, v, n)| :: Active(plan, v, n)[i] < Active(plan, v, n)[j]
  {
    if n > 0 { ActiveSorted(plan, v, n - 1); }
  }

  /** While the limit leaves room, every unsettled wave is active. */
  lemma {:induction false} ActiveComplete(plan: Plan, v: Block, n: nat)
    requires |v| == plan.size && |Active(plan, v, n)| < plan.maxWaves
    ensures forall k: nat | k < n && !SettledWave(plan, v, k) :: k in Active(plan, v, n)
  {
    if n > 0 {
      ActiveComplete(plan, v, n - 1);
    }
  }

  lemma {:induction false} ActiveSplits(plan: Plan, v: Block, n: nat, k: nat)
    requires |v| == plan.size && k in Active(plan, v, n)
    ensures k < n && Active(plan, v, k) <= Active(plan, v, n)
    ensures !SettledWave(plan, v, k) && (SentWave(plan, v, k) || |Active(plan, v, k)| < plan.maxWaves)
  {
    if k != n - 1 { ActiveSplits(plan, v, n - 1, k); }
  }

  /** Waves that are over are the only ones the count of live waves can leave out. */
  lemma {:induction false} LiveIsActive(e: Setting, rows: map<nat, Row>, sent: nat, v: Block, n: nat)
    requires BlockOk(e, rows, sent, v) && n <= e.plan.Count() && |Active(e.plan, v, n)| < e.plan.maxWaves
    ensures Live(e.plan, rows, n) <= |Active(e.plan, v, n)|
  {
    if n > 0 {
      LiveIsActive(e, rows, sent, v, n - 1);
      if SettledWave(e.plan, v, n - 1) { SettledIsOver(e, rows, sent, v, n - 1); }
    }
  }

  lemma SettledIsOver(e: Setting, rows: map<nat, Row>, sent: nat, v: Block, k: nat)
    requires BlockOk(e, rows, sent, v) && SettledWave(e.plan, v, k) && k < e.plan.Count()
    ensures WaveOver(e.plan, rows, k)
  {
    e.plan.WaveNonEmpty(k);
    forall i: nat | e.plan.First(k) <= i < e.plan.Past(k) ensures Over(rows, i) {
      assert Settlement(v[i]).Some?;
    }
  }

  /** A wave never sent has no checkpoint. */
  lemma UnsentIsEmpty(e: Setting, rows: map<nat, Row>, sent: nat, v: Block, k: nat)
    requires BlockOk(e, rows, sent, v) && sent <= k < e.plan.Count()
    ensures !SentWave(e.plan, v, k) && !SettledWave(e.plan, v, k)
  {
    e.plan.WaveNonEmpty(k);
    forall i: nat | e.plan.First(k) <= i < e.plan.Past(k) ensures v[i] == None {
      e.plan.InWave(i, k);
    }
    assert Settlement(v[e.plan.First(k)]) == None;
  }

  /** A dispatch sends the next waves, in order, and never more than the limit lets be live. */
  lemma DispatchBounded(e: Setting, rows: map<nat, Row>, sent: nat, v: Block, k: nat)
    requires BlockOk(e, rows, sent, v) && k in Active(e.plan, v, e.plan.Count()) && sent <= k
    ensures Live(e.plan, rows, k + 1) <= e.plan.maxWaves
    ensures forall j: nat | sent <= j <= k :: j in Active(e.plan, v, e.plan.Count())
  {
    ActiveSplits(e.plan, v, e.plan.Count(), k);
    UnsentIsEmpty(e, rows, sent, v, k);
    LiveIsActive(e, rows, sent, v, k);
    ActiveComplete(e.plan, v, k);
    forall j: nat | sent <= j < k ensures j in Active(e.plan, v, e.plan.Count()) {
      UnsentIsEmpty(e, rows, sent, v, j);
      assert j in Active(e.plan, v, k);
    }
  }

  lemma {:induction false} LiveShrinks(plan: Plan, rows: map<nat, Row>, rows': map<nat, Row>, k: nat)
    requires forall i | Over(rows, i) :: Over(rows', i)
    ensures Live(plan, rows', k) <= Live(plan, rows, k)
  {
    if k > 0 {
      LiveShrinks(plan, rows, rows', k - 1);
      if WaveOver(plan, rows, k - 1) { assert WaveOver(plan, rows', k - 1); }
    }
  }

  // ---- results -------------------------------------------------------------------------------

  lemma {:induction false} FailuresExact(v: Block, n: nat)
    requires n <= |v|
    ensures var fs := Failures(v, n);
            && (forall j | 0 <= j < |fs| :: fs[j].0 < n && Settlement(v[fs[j].0]) == Some(Err(fs[j].1)))
            && (forall j, k | 0 <= j < k < |fs| :: fs[j].0 < fs[k].0)
            && (forall i: nat | i < n && Settlement(v[i]).Some? && Settlement(v[i]).value.Err? ::
                 exists j :: 0 <= j < |fs| && fs[j].0 == i)
  {
    if n > 0 {
      FailuresExact(v, n - 1);
      var fs, before := Failures(v, n), Failures(v, n - 1);
      forall i: nat | i < n && Settlement(v[i]).Some? && Settlement(v[i]).value.Err?
        ensures exists j :: 0 <= j < |fs| && fs[j].0 == i
      {
        if i == n - 1 {
          assert fs[|fs| - 1].0 == i;
        } else {
          var j :| 0 <= j < |before| && before[j].0 == i;
          assert fs[j].0 == i;
        }
      }
    }
  }

  /** Every child has settled, as it says it did. */
  ghost predicate Told(e: Setting, rows: map<nat, Row>, v: Block) {
    forall i: nat | i < |v| :: Settlement(v[i]).Some? && Tells(e, rows, i, Settlement(v[i]).value)
  }

  lemma OutputsFaithful(e: Setting, rows: map<nat, Row>, v: Block)
    requires Told(e, rows, v) && |v| == e.plan.size && Failures(v, |v|) == []
    ensures Accurate(e, Gather(v))
  {
    NoFailures(v, |v|);
    var values := Values(v, |v|);
    forall i: nat | i < |v| ensures e.outcome(i) == Ok(values[i]) {
      assert Settlement(v[i]) == Some(Ok(values[i]));
    }
  }

  lemma GatheredFaithful(e: Setting, rows: map<nat, Row>, v: Block)
    requires Told(e, rows, v) && |v| == e.plan.size && Failures(v, |v|) != []
    ensures Accurate(e, Gathered(Failures(v, |v|)))
  {
    FailuresExact(v, |v|);
    var fs := Failures(v, |v|);
    forall j | 0 <= j < |fs|
      ensures fs[j].0 < |v| && e.outcome(fs[j].0).Err? && fs[j].1.message == e.outcome(fs[j].0).failure.message
    {
      assert Tells(e, rows, fs[j].0, Err(fs[j].1));
    }
    forall i: nat | i < |v| && e.outcome(i).Err? ensures exists j :: 0 <= j < |fs| && fs[j].0 == i {
      assert Tells(e, rows, i, Settlement(v[i]).value);
    }
  }

  lemma GatherFaithful(e: Setting, rows: map<nat, Row>, sent: nat, v: Block)
    requires BlockOk(e, rows, sent, v) && forall i: nat | i < |v| :: Settlement(v[i]).Some?
    ensures Accurate(e, Gather(v))
  {
    assert Told(e, rows, v);
    if Failures(v, |v|) == [] {
      OutputsFaithful(e, rows, v);
    } else {
      GatheredFaithful(e, rows, v);
    }
  }

  // ---- one event keeps the invariant ---------------------------------------------------------

  lemma ReadFanKeeps(e: Setting, w: Fan)
    requires Valid(e, w) && w.turn.Loaded?
    ensures Valid(e, TurnStep(e, w, ReadFan))
  {
    SeenOk(e, w.rows, w.sent, w.turn.snapshot, w.cells);
  }

  lemma ReadRowsKeeps(e: Setting, w: Fan)
    requires Valid(e, w) && w.turn.Reading'?
    ensures Valid(e, TurnStep(e, w, ReadRows))
  {
  }

  lemma HeldGrows(e: Setting, w: Fan, i: nat, c: Completion)
    requires Valid(e, w) && w.turn.Delivering? && i in w.turn.todo && Tells(e, w.rows, i, c)
    ensures var t := w.turn;
            TurnOk(e, w.(turn := Delivering(t.view, t.seen, t.todo - {i}, t.taken[i := c], t.freed, t.starts)))
  {
  }

  lemma BufferShrinks(e: Setting, w: Fan, i: nat)
    requires e.plan.Valid() && Travelling(e, w) && i in w.buffered && |w.buffered[i]| > 0
    ensures Travelling(e, w.(buffered := w.buffered[i := w.buffered[i][1..]]))
    ensures Tells(e, w.rows, i, w.buffered[i][0])
  {
  }

  lemma TakeKeeps(e: Setting, w: Fan, i: nat, listed: bool)
    requires Valid(e, w) && w.turn.Delivering?
    ensures Valid(e, TurnStep(e, w, Take(i, listed)))
  {
    if i in w.turn.todo {
      if listed && i in w.buffered && |w.buffered[i]| > 0 {
        BufferShrinks(e, w, i);
        HeldGrows(e, w, i, w.buffered[i][0]);
      } else if Over(w.turn.seen, i) {
        HeldGrows(e, w, i, FromRow(w.turn.seen[i].outcome));
      }
    }
  }

  lemma FreeKeeps(e: Setting, w: Fan, i: nat)
    requires Valid(e, w) && w.turn.Delivering?
    ensures Valid(e, TurnStep(e, w, Free(i)))
  {
  }

  lemma CommitKeeps(e: Setting, w: Fan, i: nat)
    requires Valid(e, w) && w.turn.Delivering?
    ensures Valid(e, TurnStep(e, w, Commit(i)))
  {
    if i in w.turn.freed {
      var c := w.turn.freed[i];
      CellSet(e, w.rows, w.sent, w.cells, i, Done(c));
      CellSet(e, w.rows, w.sent, w.turn.view, i, Done(c));
    }
  }

  /**
   * What a turn takes for a placeholder it goes through: the oldest buffered completion, if the fan's
   * token listing showed one; else what the child's terminal row says, without code and details; else it
   * starts the child again, if it has no row or is over.
   */
  lemma TakeIs(e: Setting, w: Fan, i: nat, listed: bool)
    requires e.plan.Valid() && |w.cells| == e.plan.size && w.turn.Delivering? && i in w.turn.todo
    ensures var w' := Do(e, w, Take(i, listed));
            var todo, taken, starts := w.turn.todo - {i}, w.turn.taken, w.turn.starts;
            if listed && i in w.buffered && w.buffered[i] != [] then
              w' == w.(buffered := w.buffered[i := w.buffered[i][1..]],
                       turn := Delivering(w.turn.view, w.turn.seen, todo, taken[i := w.buffered[i][0]],
                           w.turn.freed, starts))
            else if i in w.turn.seen && w.turn.seen[i].Terminal? then
              var c := match w.turn.seen[i].outcome case Ok(v) => Ok(v) case Err(f) =>
                Err(Failure(f.message, None, None));
              w' == w.(turn := Delivering(w.turn.view, w.turn.seen, todo, taken[i := c], w.turn.freed, starts))
            else w' == w.(turn := Delivering(w.turn.view, w.turn.seen, todo, taken, w.turn.freed, starts + {i}))
  {
  }

  lemma DecideKeeps(e: Setting, w: Fan)
    requires Valid(e, w) && w.turn.Delivering?
    ensures Valid(e, TurnStep(e, w, Decide))
  {
  }

  lemma FoldKeeps(e: Setting, w: Fan)
    requires Valid(e, w) && w.turn.Folding?
    ensures Valid(e, TurnStep(e, w, FoldNext))
  {
    if w.turn.next < e.plan.Count() {
      FoldOk(e, w.rows, w.sent, w.cells, w.turn.view, w.turn.next);
    }
  }

  /** A fan that fails fast gathers no failure: its turn would have ended. */
  lemma NoneGathered(v: Block)
    requires NoneFailed(v) && forall i: nat | i < |v| :: Settlement(v[i]).Some?
    ensures Gather(v).Outputs?
  {
    FailuresExact(v, |v|);
    if Failures(v, |v|) != [] { assert FailedAt(v, Failures(v, |v|)[0].0); }
  }

  lemma ResultKeeps(e: Setting, w: Fan, r: Ended)
    requires Valid(e, w) && w.turn.Folding? && Faithful(e, r)
    ensures Valid(e, Leave(w, w.turn.starts).(results := w.results + [r]))
  {
  }

  lemma GatherKeeps(e: Setting, w: Fan)
    requires Valid(e, w) && w.turn.Folding? && Active(e.plan, w.turn.view, e.plan.Count()) == []
    ensures Valid(e, Dispatched(e, w))
  {
    var v := w.turn.view;
    if forall i: nat | i < |v| :: Settlement(v[i]).Some? {
      GatherFaithful(e, w.rows, w.sent, v);
      if e.failFast { NoneGathered(v); }
      ResultKeeps(e, w, Gather(v));
    }
  }

  function Sending(w: Fan, sent: nat, todo: set<nat>): Fan
    requires w.turn.Folding?
  {
    w.(sent := sent, turn := Registering(w.turn.view, todo, {}, w.turn.starts))
  }

  /** More waves are sent: nothing already known changes. */
  lemma SentGrows(e: Setting, w: Fan, sent: nat, todo: set<nat>)
    requires Valid(e, w) && w.turn.Folding? && w.sent <= sent <= e.plan.Count() && AllSent(e, sent, todo)
    requires Live(e.plan, w.rows, sent) <= e.plan.maxWaves
    ensures Valid(e, Sending(w, sent, todo))
  {
    BlockGrows(e, w.rows, w.sent, w.rows, sent, w.turn.view);
    BlockGrows(e, w.rows, w.sent, w.rows, sent, w.cells);
  }

  lemma DispatchSends(e: Setting, w: Fan, last: nat)
    requires e.plan.Valid() && w.turn.Folding? && |w.turn.view| == e.plan.size
    requires var active := Active(e.plan, w.turn.view, e.plan.Count()); active != [] && last == active[|active| - 1]
    ensures var todo := ToRegister(e.plan, w.turn.view, Active(e.plan, w.turn.view, e.plan.Count()));
            Dispatched(e, w) == Sending(w, if last >= w.sent then last + 1 else w.sent, todo)
              && AllSent(e, last + 1, todo)
  {
    ActiveSorted(e.plan, w.turn.view, e.plan.Count());
  }

  lemma DispatchKeeps(e: Setting, w: Fan)
    requires Valid(e, w) && w.turn.Folding?
    ensures Valid(e, Dispatched(e, w))
  {
    var active := Active(e.plan, w.turn.view, e.plan.Count());
    if active == [] {
      GatherKeeps(e, w);
    } else {
      var last := active[|active| - 1];
      DispatchSends(e, w, last);
      if last >= w.sent { DispatchBounded(e, w.rows, w.sent, w.turn.view, last); }
      SentGrows(e, w, if last >= w.sent then last + 1 else w.sent, ToRegister(e.plan, w.turn.view, active));
    }
  }

  lemma PutKeeps(e: Setting, w: Fan, i: nat)
    requires Valid(e, w) && w.turn.Registering?
    ensures Valid(e, TurnStep(e, w, Put(i)))
  {
  }

  lemma PlaceKeeps(e: Setting, w: Fan, i: nat)
    requires Valid(e, w) && w.turn.Registering?
    ensures Valid(e, TurnStep(e, w, Place(i)))
  {
    if i in w.turn.put { CellSet(e, w.rows, w.sent, w.cells, i, Waiting); }
  }

  lemma SuspendKeeps(e: Setting, w: Fan)
    requires Valid(e, w) && w.turn.Registering?
    ensures Valid(e, TurnStep(e, w, Suspend))
  {
  }

  lemma RowsKeep(e: Setting, w: Fan, rows: map<nat, Row>, starts: set<nat>)
    requires Valid(e, w) && starts <= w.starts
    requires forall i | Over(w.rows, i) :: i in rows && rows[i] == w.rows[i]
    requires forall i | i in rows :: i in w.rows || i in w.starts
    requires forall i | Over(rows, i) :: rows[i].outcome == e.outcome(i)
    ensures Valid(e, w.(rows := rows, starts := starts))
  {
    LiveShrinks(e.plan, w.rows, rows, w.sent);
  }

  lemma LandKeeps(e: Setting, w: Fan, i: nat)
    requires Valid(e, w)
    ensures Valid(e, Around(e, w, Land(i)))
  {
    if i in w.landing { CellSet(e, w.rows, w.sent, w.cells, i, Done(Notified(e.outcome(i)))); }
  }

  lemma ChildKeeps(e: Setting, w: Fan, ev: Event)
    requires Valid(e, w) && (ev.Start? || ev.Lose? || ev.SettleChild?)
    ensures Valid(e, Around(e, w, ev))
  {
    match ev
    case Start(i) =>
      if i in w.starts {
        RowsKeep(e, w, if i in w.rows then w.rows else w.rows[i := InFlight], w.starts - {i});
      }
    case Lose(i) => RowsKeep(e, w, w.rows, w.starts - {i});
    case SettleChild(i) =>
      if i in w.rows && w.rows[i].InFlight? { RowsKeep(e, w, w.rows[i := Terminal(e.outcome(i))], w.starts); }
  }

  lemma AroundKeeps(e: Setting, w: Fan, ev: Event)
    requires Valid(e, w) && !OfTurn(ev)
    ensures Valid(e, Around(e, w, ev))
  {
    match ev
    case Start(_) => ChildKeeps(e, w, ev);
    case Lose(_) => ChildKeeps(e, w, ev);
    case SettleChild(_) => ChildKeeps(e, w, ev);
    case Land(i) => LandKeeps(e, w, i);
    case _ =>
  }

  lemma TurnStepKeeps(e: Setting, w: Fan, ev: Event)
    requires Valid(e, w) && OfTurn(ev)
    ensures Valid(e, TurnStep(e, w, ev))
  {
    match (ev, w.turn)
    case (ReadFan, Loaded(_)) => ReadFanKeeps(e, w);
    case (ReadRows, Reading'(_)) => ReadRowsKeeps(e, w);
    case (Take(i, listed), Delivering(_, _, _, _, _, _)) => TakeKeeps(e, w, i, listed);
    case (Free(i), Delivering(_, _, _, _, _, _)) => FreeKeeps(e, w, i);
    case (Commit(i), Delivering(_, _, _, _, _, _)) => CommitKeeps(e, w, i);
    case (Decide, Delivering(_, _, _, _, _, _)) => DecideKeeps(e, w);
    case (FoldNext, Folding(_, _, _)) => FoldKeeps(e, w);
    case (Dispatch, Folding(_, _, _)) => DispatchKeeps(e, w);
    case (Put(i), Registering(_, _, _, _)) => PutKeeps(e, w, i);
    case (Place(i), Registering(_, _, _, _)) => PlaceKeeps(e, w, i);
    case (Suspend, Registering(_, _, _, _)) => SuspendKeeps(e, w);
    case _ =>
  }

  /** The child's outcome is in the view, and is a success. */
  predicate Succeeded(c: Option<Cell>) { c.Some? && ((c.value.Done? && c.value.completion.Ok?) || c.value.Expanded?) }

  /**
   * `c` is `b` with wave `k` folded, if every child of it has succeeded and it is not folded yet: one
   * row holds their values in order, and the others go.
   */
  ghost predicate FoldedIff(b: Block, v: Block, first: nat, past: nat, c: Block)
    requires first < past <= |v| && |b| == |v| == |c|
  {
    if (forall i: nat | first <= i < past :: Succeeded(v[i])) && !v[first].value.Expanded? then
      && IsFoldOf(c[first], v, first, past)
      && forall i: nat | i < |v| && i != first :: c[i] == if first < i < past then None else b[i]
    else c == b
  }

  predicate IsFoldOf(cell: Option<Cell>, v: Block, first: nat, past: nat)
    requires first < past <= |v|
  {
    && cell.Some? && cell.value.Fold? && cell.value.from == first && |cell.value.values| == past - first
    && forall i: nat | first <= i < past ::
         v[i] == Some(Done(Ok(cell.value.values[i - first]))) || v[i] == Some(Expanded(cell.value.values[i - first]))
  }

  lemma FoldWaveIff(plan: Plan, b: Block, v: Block, k: nat)
    requires plan.Valid() && |b| == |v| == plan.size && k < plan.Count()
    ensures plan.First(k) < plan.Past(k) <= |v|
    ensures FoldedIff(b, v, plan.First(k), plan.Past(k), FoldWave(plan, b, v, k))
  {
    plan.WaveNonEmpty(k);
    forall i: nat | plan.First(k) <= i < plan.Past(k)
      ensures Succeeded(v[i]) <==> Settlement(v[i]).Some? && Settlement(v[i]).value.Ok?
    {
    }
  }

  /**
   * Which waves are folded: with a store that can and a fan of 100 or more, each in turn before any
   * wave is sent, exactly when all its children have succeeded and it is not folded yet.
   */
  lemma FoldsIff(e: Setting, w: Fan)
    requires e.plan.Valid() && w.turn.Folding? && |w.cells| == |w.turn.view| == e.plan.size
    requires w.turn.next < e.plan.Count()
    ensures var k, v := w.turn.next, w.turn.view;
            var w' := Do(e, w, FoldNext);
            if !(e.compacts && e.plan.size >= 100) then w' == w
            else
              && Do(e, w, Dispatch) == w && w' == w.(cells := w'.cells, turn := Folding(v, k + 1, w.turn.starts))
              && e.plan.First(k) < e.plan.Past(k) <= |v|
              && FoldedIff(w.cells, v, e.plan.First(k), e.plan.Past(k), w'.cells)
  {
    FoldWaveIff(e.plan, w.cells, w.turn.view, w.turn.next);
  }

  lemma {:induction false} RunKeeps(e: Setting, w: Fan, evs: seq<Event>)
    requires Valid(e, w)
    ensures Valid(e, Run(e, w, evs))
    decreases |evs|
  {
    if evs != [] {
      if OfTurn(evs[0]) { TurnStepKeeps(e, w, evs[0]); } else { AroundKeeps(e, w, evs[0]); }
      RunKeeps(e, Do(e, w, evs[0]), evs[1..]);
    }
  }

  lemma StartValid(e: Setting)
    requires e.plan.Valid()
    ensures Valid(e, Init(e))
  {
  }

  // ---- the theorems --------------------------------------------------------------------------

  /** How many children are running. */
  function Running(rows: map<nat, Row>): nat { |InFlights(rows)| }

  function InFlights(rows: map<nat, Row>): set<nat> { set i | i in rows && rows[i].InFlight? }

  lemma {:induction false} RunningBelow(e: Setting, rows: map<nat, Row>, k: nat, running: set<nat>)
    requires e.plan.Valid() && k <= e.plan.Count()
    requires forall i | i in running :: Sent(e, k, i) && i in rows && rows[i].InFlight?
    ensures |running| <= e.plan.waveSize * Live(e.plan, rows, k)
  {
    if k == 0 {
      assert running == {};
    } else {
      e.plan.WaveNonEmpty(k - 1);
      var inside := set i | i in running && e.plan.WaveOf(i) == k - 1;
      RunningBelow(e, rows, k - 1, running - inside);
      assert running == (running - inside) + inside;
      forall i | i in inside ensures e.plan.First(k - 1) <= i < e.plan.Past(k - 1) { e.plan.InWave(i, k - 1); }
      RangeSize(inside, e.plan.First(k - 1), e.plan.Past(k - 1));
      if inside != {} {
        var i :| i in inside;
        assert e.plan.First(k - 1) <= i < e.plan.Past(k - 1) && !Over(rows, i);
        assert !WaveOver(e.plan, rows, k - 1);
      }
      Distribute(e.plan.waveSize, Live(e.plan, rows, k - 1));
    }
  }

  lemma Distribute(a: nat, b: nat)
    ensures a * (b + 1) == a * b + a
  {
  }

  lemma {:induction false} RangeSize(s: set<nat>, lo: nat, hi: nat)
    requires lo <= hi && forall i | i in s :: lo <= i < hi
    ensures |s| <= hi - lo
    decreases hi
  {
    if lo == hi {
      assert s == {};
    } else {
      RangeSize(s - {hi - 1}, lo, hi - 1);
    }
  }

  /**
   * Concurrency over whole runs: whatever the interleaving of turns, crashes, settlements and lost
   * starts, at most `maxWaves` of the waves sent have a child that is not over, every running child
   * belongs to a wave that has been sent, and no more children run than the waves have room for.
   */
  lemma FanBounded(e: Setting, evs: seq<Event>)
    requires e.plan.Valid()
    ensures var w := Run(e, Init(e), evs);
            && Live(e.plan, w.rows, w.sent) <= e.plan.maxWaves
            && (forall i | i in w.rows :: Sent(e, w.sent, i))
            && Running(w.rows) <= e.plan.waveSize * e.plan.maxWaves
  {
    StartValid(e);
    RunKeeps(e, Init(e), evs);
    BoundedNow(e, Run(e, Init(e), evs));
  }

  lemma BoundedNow(e: Setting, w: Fan)
    requires Valid(e, w)
    ensures Running(w.rows) <= e.plan.waveSize * e.plan.maxWaves
  {
    RunningBelow(e, w.rows, w.sent, InFlights(w.rows));
    Product(Live(e.plan, w.rows, w.sent), e.plan.maxWaves, e.plan.waveSize);
    Commute(e.plan.waveSize, Live(e.plan, w.rows, w.sent));
    Commute(e.plan.waveSize, e.plan.maxWaves);
  }

  lemma Commute(a: nat, b: nat)
    ensures a * b == b * a
  {
  }

  /** Under a `concurrency` limit that binds, no more than that many children ever run at once. */
  lemma ConcurrencyRespected(size: nat, concurrency: real, e: Setting, evs: seq<Event>)
    requires size > 0 && PlanOf(size, Some(concurrency)) == Some(e.plan)
    ensures Running(Run(e, Init(e), evs).rows) as real <= concurrency
  {
    FanBounded(e, evs);
    var running := Running(Run(e, Init(e), evs).rows);
    match AllWaves(size, Some(concurrency))
    case Bounded(w) =>
      assert e.plan.waveSize * e.plan.maxWaves == w.waveSize * w.maxWaves <= concurrency.Floor;
      assert running <= concurrency.Floor;
    case Unbounded =>
      assert e.plan.waveSize * e.plan.maxWaves == size;
      assert IsInteger(concurrency) && size as real <= concurrency.Floor as real;
      assert running <= concurrency.Floor;
  }

  /** Every result a turn returns or throws says of each child what that child said, in input order. */
  lemma ResultsFaithful(e: Setting, evs: seq<Event>)
    requires e.plan.Valid()
    ensures forall r | r in Run(e, Init(e), evs).results :: Faithful(e, r)
  {
    StartValid(e);
    RunKeeps(e, Init(e), evs);
  }

  /** Waves go out in order: a dispatch sends exactly the waves between those sent and its last. */
  lemma WavesSentInOrder(e: Setting, evs: seq<Event>)
    requires e.plan.Valid()
    ensures var w := Run(e, Init(e), evs); var w' := Do(e, w, Dispatch);
            w'.sent > w.sent ==>
              && w'.turn.Registering?
              && (forall k: nat | w.sent <= k < w'.sent :: k in Active(e.plan, w.turn.view, e.plan.Count()))
              && (forall i: nat | i < e.plan.size && w.sent <= e.plan.WaveOf(i) < w'.sent :: i in w'.turn.todo)
  {
    StartValid(e);
    RunKeeps(e, Init(e), evs);
    var w := Run(e, Init(e), evs);
    if w.turn.Folding? && Do(e, w, Dispatch).sent > w.sent {
      DispatchBounded(e, w.rows, w.sent, w.turn.view, Do(e, w, Dispatch).sent - 1);
    }
  }
}
