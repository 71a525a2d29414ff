/**
 * A `ctx.all` fan over whole runs: parent turns that read, deliver, fold, dispatch and register one
 * store operation at a time, interleaved with crashes, with children that start and settle, with
 * lost starts and with completions that land or are buffered, in any order.
 */
module FanRuns {
  import opened Common
  import opened FanPlan
  import opened FanFold

  const FOLD_MIN_FAN: nat := 100

  /** Everything fixed for the run: the fan, the engine's store, and how each child will end. */
  datatype Setting = Setting(plan: Plan, failFast: bool, compacts: bool, outcome: nat -> Completion)

  datatype Ended =
    | Outputs(values: seq<Value>)
    | Gathered(failures: seq<(nat, Failure)>)
    | FailedFast(index: nat, message: string)

  /**
   * The parent's turn inside `fan`. `starts` are the child starts it has deferred; `taken` and
   * `freed` are the completions it holds for a placeholder, before and after freeing the waiter.
   */
  datatype Pass =
    | Away
    | Loaded(snapshot: Block)
    | Reading'(view: Block)
    | Delivering(view: Block, seen: map<nat, Row>, todo: set<nat>, taken: map<nat, Completion>,
        freed: map<nat, Completion>, starts: set<nat>)
    | Folding(view: Block, next: nat, starts: set<nat>)
    | Registering(view: Block, todo: set<nat>, put: set<nat>, starts: set<nat>)

  /** `sent` is how many waves turns have decided to send; items are counted from the fan's first position. */
  datatype Fan = Fan(
    cells: Block,
    waiters: set<nat>,
    rows: map<nat, Row>,
    buffered: map<nat, seq<Completion>>,
    landing: set<nat>,      // waiter taken by a child's notification, checkpoint not yet saved
    starts: set<nat>,       // deferred starts of turns that have ended
    sent: nat,
    turn: Pass,
    results: seq<Ended>)

  datatype Event =
    | Begin | Crash
    | ReadFan | ReadRows
    | Take(i: nat, listed: bool)   // `listed`: the fan's token listing shows a buffered completion
    | Free(i: nat) | Commit(i: nat)
    | Decide | FoldNext | Dispatch
    | Put(i: nat) | Place(i: nat) | Suspend
    | Start(i: nat) | Lose(i: nat)
    | SettleChild(i: nat) | TakeWaiter(i: nat) | Land(i: nat) | Buffer(i: nat)

  // ---- what a turn computes ------------------------------------------------------------------

  predicate Over(rows: map<nat, Row>, i: nat) { i in rows && rows[i].Terminal? }

  predicate Folds(e: Setting) { e.compacts && e.plan.size >= FOLD_MIN_FAN }

  /** Some child of wave `k` has a checkpoint. */
  predicate SentWave(plan: Plan, v: Block, k: nat)
    requires |v| == plan.size
  {
    exists i: nat | plan.First(k) <= i < plan.Past(k) :: v[i].Some?
  }

  predicate SettledWave(plan: Plan, v: Block, k: nat)
    requires |v| == plan.size
  {
    forall i: nat | plan.First(k) <= i < plan.Past(k) :: Settlement(v[i]).Some?
  }

  /** The unsettled waves among the first `n` that are sent, or that the limit lets go out. */
  function Active(plan: Plan, v: Block, n: nat): (active: seq<nat>)
    requires |v| == plan.size
    ensures forall j | 0 <= j < |active| :: active[j] < n
  {
    if n == 0 then []
    else
      var before := Active(plan, v, n - 1);
      if SettledWave(plan, v, n - 1) then before
      else if SentWave(plan, v, n - 1) || |before| < plan.maxWaves then before + [n - 1]
      else before
  }

  /** The children of the active waves that have no checkpoint. */
  function ToRegister(plan: Plan, v: Block, active: seq<nat>): (todo: set<nat>)
    requires plan.Valid() && |v| == plan.size
    ensures forall i | i in todo :: i < |v| && v[i] == None && plan.WaveOf(i) in active
  {
    set i: nat | 0 <= i < plan.size && v[i] == None && plan.WaveOf(i) in active
  }

  /** Item `i` is seen to have failed. */
  predicate FailedAt(v: Block, i: nat) { i < |v| && v[i].Some? && v[i].value.Done? && v[i].value.completion.Err? }

  predicate NoneFailed(v: Block) { forall i: nat | i < |v| :: !FailedAt(v, i) }

  /** The lowest item that has failed, at or after `i`. */
  function FirstFailed(v: Block, i: nat): (f: Option<nat>)
    requires i <= |v|
    ensures f == None ==> forall j: nat | i <= j < |v| :: !FailedAt(v, j)
    ensures f.Some? ==> i <= f.value && FailedAt(v, f.value) && forall j: nat | i <= j < f.value :: !FailedAt(v, j)
    decreases |v| - i
  {
    if i == |v| then None
    else if Settlement(v[i]).Some? && Settlement(v[i]).value.Err? then Some(i)
    else FirstFailed(v, i + 1)
  }

  function Values(v: Block, n: nat): (values: seq<Value>)
    requires n <= |v| && forall i: nat | i < n :: Settlement(v[i]).Some? && Settlement(v[i]).value.Ok?
    ensures |values| == n && forall i: nat | i < n :: Settlement(v[i]) == Some(Ok(values[i]))
  {
    seq(n, i requires 0 <= i < n => Settlement(v[i]).value.value)
  }

  function Failures(v: Block, n: nat): (failures: seq<(nat, Failure)>)
    requires n <= |v|
  {
    if n == 0 then []
    else
      match Settlement(v[n - 1])
      case Some(Err(f)) => Failures(v, n - 1) + [(n - 1, f)]
      case _ => Failures(v, n - 1)
  }

  lemma {:induction false} NoFailures(v: Block, n: nat)
    requires n <= |v| && Failures(v, n) == []
    ensures forall i: nat | i < n && Settlement(v[i]).Some? :: Settlement(v[i]).value.Ok?
  {
    if n > 0 { NoFailures(v, n - 1); }
  }

  /** The outputs in input order, or every failure, of a fan whose children have all settled. */
  function Gather(v: Block): Ended
    requires forall i: nat | i < |v| :: Settlement(v[i]).Some?
  {
    if Failures(v, |v|) != [] then Gathered(Failures(v, |v|))
    else NoFailures(v, |v|); Outputs(Values(v, |v|))
  }

  // ---- one operation -------------------------------------------------------------------------

  function Init(e: Setting): Fan
  {
    Fan(seq(e.plan.size, _ => None), {}, map[], map[], {}, {}, 0, Away, [])
  }

  /** The turn ends: the starts it deferred are now the engine's to run. */
  function Leave(w: Fan, starts: set<nat>): Fan { w.(turn := Away, starts := w.starts + starts) }

  function Placeholders(v: Block): set<nat> { set i: nat | 0 <= i < |v| && v[i] == Some(Waiting) }

  function Delivered(w: Fan, i: nat, listed: bool): Fan
    requires w.turn.Delivering? && i in w.turn.todo
  {
    var t, todo := w.turn, w.turn.todo - {i};
    if listed && i in w.buffered && |w.buffered[i]| > 0 then
      w.(buffered := w.buffered[i := w.buffered[i][1..]],
         turn := Delivering(t.view, t.seen, todo, t.taken[i := w.buffered[i][0]], t.freed, t.starts))
    else if Over(t.seen, i) then
      w.(turn := Delivering(t.view, t.seen, todo, t.taken[i := FromRow(t.seen[i].outcome)], t.freed, t.starts))
    else w.(turn := Delivering(t.view, t.seen, todo, t.taken, t.freed, t.starts + {i}))
  }

  function Decided(e: Setting, w: Fan): Fan
    requires w.turn.Delivering?
  {
    var failed := FirstFailed(w.turn.view, 0);
    if e.failFast && failed.Some? then
      Leave(w, w.turn.starts).(results :=
        w.results + [FailedFast(failed.value, Settlement(w.turn.view[failed.value]).value.failure.message)])
    else w.(turn := Folding(w.turn.view, 0, w.turn.starts))
  }

  function Dispatched(e: Setting, w: Fan): Fan
    requires e.plan.Valid() && w.turn.Folding? && |w.turn.view| == e.plan.size
  {
    var v, active := w.turn.view, Active(e.plan, w.turn.view, e.plan.Count());
    if active == [] then
      if forall i: nat | i < |v| :: Settlement(v[i]).Some?
      then Leave(w, w.turn.starts).(results := w.results + [Gather(v)]) else w
    else
      var last := active[|active| - 1];
      w.(sent := if last >= w.sent then last + 1 else w.sent,
         turn := Registering(v, ToRegister(e.plan, v, active), {}, w.turn.starts))
  }

  ghost function TurnStep(e: Setting, w: Fan, ev: Event): Fan
    requires e.plan.Valid() && |w.cells| == e.plan.size
  {
    match (ev, w.turn)
    case (ReadFan, Loaded(snapshot)) =>
      if |snapshot| == |w.cells| then w.(turn := Reading'(Seen(snapshot, w.cells))) else w
    case (ReadRows, Reading'(v)) =>
      var todo := set i | i in Placeholders(v) && (i !in w.rows || w.rows[i].Terminal?);
      w.(turn := Delivering(v, w.rows, todo, map[], map[], {}))
    case (Take(i, listed), Delivering(_, _, todo, _, _, _)) => if i in todo then Delivered(w, i, listed) else w
    case (Free(i), Delivering(v, seen, todo, taken, freed, starts)) =>
      if i in taken then
        w.(waiters := w.waiters - {i}, turn := Delivering(v, seen, todo, taken - {i}, freed[i := taken[i]], starts))
      else w
    case (Commit(i), Delivering(v, seen, todo, taken, freed, starts)) =>
      if i in freed && i < |v| == |w.cells| then
        w.(cells := w.cells[i := Some(Done(freed[i]))],
           turn := Delivering(v[i := Some(Done(freed[i]))], seen, todo, taken, freed - {i}, starts))
      else w
    case (Decide, Delivering(_, _, todo, taken, freed, _)) =>
      if todo == {} && taken == map[] && freed == map[] then Decided(e, w) else w
    case (FoldNext, Folding(v, next, starts)) =>
      if Folds(e) && next < e.plan.Count() && |v| == e.plan.size then
        w.(cells := FoldWave(e.plan, w.cells, v, next), turn := Folding(v, next + 1, starts))
      else w
    case (Dispatch, Folding(v, next, _)) =>
      if (Folds(e) ==> next >= e.plan.Count()) && |v| == e.plan.size then Dispatched(e, w) else w
    case (Put(i), Registering(v, todo, put, starts)) =>
      if i in todo then
        w.(waiters := w.waiters + {i}, turn := Registering(v, todo - {i}, put + {i}, starts)) else w
    case (Place(i), Registering(v, todo, put, starts)) =>
      if i in put && i < |w.cells| then
        w.(cells := w.cells[i := Some(Waiting)], turn := Registering(v, todo, put - {i}, starts + {i}))
      else w
    case (Suspend, Registering(_, todo, put, starts)) => if todo == {} && put == {} then Leave(w, starts) else w
    case _ => w
  }

  /** Everything else that happens: turns begin and die, children run, completions travel. */
  function Around(e: Setting, w: Fan, ev: Event): Fan
    requires |w.cells| == e.plan.size
  {
    match ev
    case Begin => if w.turn.Away? then w.(turn := Loaded(w.cells)) else w
    case Crash => w.(turn := Away)
    case Start(i) =>
      if i in w.starts then w.(starts := w.starts - {i}, rows := if i in w.rows then w.rows else w.rows[i := InFlight])
        else w
    case Lose(i) => w.(starts := w.starts - {i})
    case SettleChild(i) =>
      if i in w.rows && w.rows[i].InFlight? then w.(rows := w.rows[i := Terminal(e.outcome(i))]) else w
    case TakeWaiter(i) =>
      if Over(w.rows, i) && i in w.waiters then w.(waiters := w.waiters - {i}, landing := w.landing + {i}) else w
    case Land(i) =>
      if i in w.landing && i < |w.cells| then
        w.(cells := w.cells[i := Some(Done(Notified(e.outcome(i))))], landing := w.landing - {i})
      else w
    case Buffer(i) =>
      if Over(w.rows, i) then
        var queue := if i in w.buffered then w.buffered[i] else [];
        w.(buffered := w.buffered[i := queue + [Notified(e.outcome(i))]])
      else w
    case _ => w
  }

  predicate OfTurn(ev: Event) {
    match ev
    case ReadFan | ReadRows | Take(_, _) | Free(_) | Commit(_) | Decide | FoldNext | Dispatch | Put(_) | Place(_)
      | Suspend => true
    case _ => false
  }

  ghost function Do(e: Setting, w: Fan, ev: Event): (w': Fan)
    requires e.plan.Valid() && |w.cells| == e.plan.size
    ensures |w'.cells| == e.plan.size
  {
    if OfTurn(ev) then TurnStep(e, w, ev) else Around(e, w, ev)
  }

  ghost function Run(e: Setting, w: Fan, evs: seq<Event>): (w': Fan)
    requires e.plan.Valid() && |w.cells| == e.plan.size
    ensures |w'.cells| == e.plan.size
    decreases |evs|
  {
    if evs == [] then w else Run(e, Do(e, w, evs[0]), evs[1..])
  }

  // ---- the invariant -------------------------------------------------------------------------

  /** Item `i` belongs to a wave that has been sent. */
  predicate Sent(e: Setting, sent: nat, i: nat)
    requires e.plan.Valid()
  {
    i < e.plan.size && e.plan.WaveOf(i) < sent
  }

  /** What child `i` says when it is over, through its notification or through its row. */
  ghost predicate Tells(e: Setting, rows: map<nat, Row>, i: nat, c: Completion) {
    Over(rows, i) && (c == Notified(e.outcome(i)) || c == FromRow(e.outcome(i)))
  }

  ghost predicate CellOk(e: Setting, rows: map<nat, Row>, i: nat, cell: Cell) {
    match cell
    case Waiting => true
    case Done(c) => Tells(e, rows, i, c)
    case Fold(_, values) => forall j: nat | j < |values| :: Tells(e, rows, i + j, Ok(values[j]))
    case Expanded(v) => Tells(e, rows, i, Ok(v))
    case Malformed => false
  }

  ghost predicate BlockOk(e: Setting, rows: map<nat, Row>, sent: nat, b: Block) {
    && OnWaves(e.plan, b)
    && forall i: nat | i < |b| && b[i].Some? :: Sent(e, sent, i) && CellOk(e, rows, i, b[i].value)
  }

  /** As the store holds it: nothing expanded. */
  ghost predicate StoreOk(e: Setting, rows: map<nat, Row>, sent: nat, b: Block) {
    && BlockOk(e, rows, sent, b)
    && forall i: nat | i < |b| && b[i].Some? :: !b[i].value.Expanded?
  }

  ghost predicate WaveOver(plan: Plan, rows: map<nat, Row>, k: nat) {
    forall i: nat | plan.First(k) <= i < plan.Past(k) :: Over(rows, i)
  }

  /** How many of the first `k` waves still have a child that is not over. */
  ghost function Live(plan: Plan, rows: map<nat, Row>, k: nat): nat {
    if k == 0 then 0 else Live(plan, rows, k - 1) + if WaveOver(plan, rows, k - 1) then 0 else 1
  }

  ghost predicate HeldOk(e: Setting, w: Fan, held: map<nat, Completion>, v: Block) {
    forall i | i in held :: i < |v| && v[i] == Some(Waiting) && Tells(e, w.rows, i, held[i])
  }

  ghost predicate AllSent(e: Setting, sent: nat, items: set<nat>)
    requires e.plan.Valid()
  {
    forall i | i in items :: Sent(e, sent, i)
  }

  ghost predicate ViewOk(e: Setting, w: Fan, v: Block) {
    && BlockOk(e, w.rows, w.sent, v)
    && forall i: nat | i < |v| && v[i].Some? :: !v[i].value.Fold?
  }

  ghost predicate TurnOk(e: Setting, w: Fan)
    requires e.plan.Valid()
  {
    match w.turn
    case Away => true
    case Loaded(snapshot) => StoreOk(e, w.rows, w.sent, snapshot)
    case Reading'(v) => ViewOk(e, w, v)
    case Delivering(v, seen, todo, taken, freed, starts) =>
      && ViewOk(e, w, v)
      && todo <= Placeholders(v) && AllSent(e, w.sent, starts)
      && HeldOk(e, w, taken, v) && HeldOk(e, w, freed, v)
      && (forall i | i in taken :: i !in freed && i !in todo) && (forall i | i in freed :: i !in todo)
      && (forall i | Over(seen, i) :: Over(w.rows, i) && seen[i] == w.rows[i])
    case Folding(v, _, starts) => ViewOk(e, w, v) && AllSent(e, w.sent, starts) && (e.failFast ==> NoneFailed(v))
    case Registering(v, todo, put, starts) =>
      (e.failFast ==> NoneFailed(v)) && ViewOk(e, w, v) && AllSent(e, w.sent, starts) && AllSent(e, w.sent, todo)
        && AllSent(e, w.sent, put)
  }

  ghost predicate Travelling(e: Setting, w: Fan)
    requires e.plan.Valid()
  {
    && (forall i | i in w.rows :: Sent(e, w.sent, i))
    && (forall i | Over(w.rows, i) :: w.rows[i].outcome == e.outcome(i))
    && AllSent(e, w.sent, w.starts)
    && (forall i | i in w.landing :: Sent(e, w.sent, i) && Over(w.rows, i))
    && (forall i | i in w.buffered && |w.buffered[i]| > 0 :: Over(w.rows, i))
    && (forall i | i in w.buffered :: forall j | 0 <= j < |w.buffered[i]| :: w.buffered[i][j] == Notified(e.outcome(i)))
  }

  /**
   * A result says of each child what the child said, in input order; only a fan that waits for all
   * gathers failures.
   */
  ghost predicate Faithful(e: Setting, r: Ended) { Accurate(e, r) && (r.Gathered? ==> !e.failFast) }

  ghost predicate Accurate(e: Setting, r: Ended) {
    match r
    case Outputs(values) => |values| == e.plan.size && forall i: nat | i < |values| :: e.outcome(i) == Ok(values[i])
    case Gathered(failures) =>
      && |failures| > 0
      && (forall j, k | 0 <= j < k < |failures| :: failures[j].0 < failures[k].0)
      && (forall j | 0 <= j < |failures| ::
            && failures[j].0 < e.plan.size && e.outcome(failures[j].0).Err?
            && failures[j].1.message == e.outcome(failures[j].0).failure.message)
      && (forall i: nat | i < e.plan.size && e.outcome(i).Err? :: exists j :: 0 <= j < |failures| && failures[j].0 == i)
    case FailedFast(i, message) =>
      e.failFast && i < e.plan.size && e.outcome(i).Err? && e.outcome(i).failure.message == message
  }

  ghost predicate Valid(e: Setting, w: Fan) {
    && e.plan.Valid()
    && w.sent <= e.plan.Count()
    && StoreOk(e, w.rows, w.sent, w.cells)
    && Travelling(e, w)
    && TurnOk(e, w)
    && Live(e.plan, w.rows, w.sent) <= e.plan.maxWaves
    && forall r | r in w.results :: Faithful(e, r)
  }
}
