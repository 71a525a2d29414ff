/**
 * The schedules of a config file, fired window by window by every worker process: the memo of windows
 * a process has seen exist, the jittered windows it has deferred, and create-by-id in the store. One
 * schedule; a window is its bucket number, which is all its run id adds to the schedule's key.
 */
module Scheduler {
  import opened Common

  /** `remembers`: the loop keeps the memo; without it every tick asks the store about every window due. */
  datatype Schedule = Schedule(everyMs: nat, maxCatchup: nat, jitter: nat, remembers: bool)

  const MEMO_CAP: nat := 64

  predicate Proper(s: Schedule) { s.everyMs > 0 }

  function Bucket(s: Schedule, now: nat): nat
    requires Proper(s)
  {
    now / s.everyMs
  }

  function Range(lo: nat, hi: nat): (r: seq<nat>)
    ensures forall b: nat :: b in r <==> lo <= b <= hi
  {
    if hi < lo then [] else if hi == lo then [hi] else Range(lo, hi - 1) + [hi]
  }

  /** `scheduleRunIdsAt`: the current window, and up to `maxCatchup` before it, oldest first. */
  function DueAt(s: Schedule, now: nat): (due: seq<nat>)
    requires Proper(s)
    ensures forall b: nat :: b in due <==> Bucket(s, now) - s.maxCatchup <= b <= Bucket(s, now)
  {
    var bucket := Bucket(s, now);
    Range(if bucket >= s.maxCatchup then bucket - s.maxCatchup else 0, bucket)
  }

  /** A window is due from its start until `maxCatchup` windows after its end. */
  lemma DueIff(s: Schedule, now: nat, b: nat)
    requires Proper(s)
    ensures b in DueAt(s, now) <==> b * s.everyMs <= now < (b + s.maxCatchup + 1) * s.everyMs
  {
    var m, q := s.everyMs, now / s.everyMs;
    assert q * m <= now < (q + 1) * m by { assert now == q * m + now % m && (q + 1) * m == q * m + m; }
    if b <= q { Scaled(b, q, m); } else { Scaled(q + 1, b, m); }
    if q < b + s.maxCatchup + 1 { Scaled(q + 1, b + s.maxCatchup + 1, m); } else { Scaled(b + s.maxCatchup + 1, q, m); }
  }

  lemma Scaled(x: nat, y: nat, m: nat)
    requires x <= y
    ensures x * m <= y * m
  {
  }

  function WindowsAt(s: Schedule, now: nat): set<nat>
    requires Proper(s)
  {
    set b | b in DueAt(s, now)
  }

  /** `remember`. */
  function Remember(s: Schedule, memo: set<nat>, b: nat): set<nat> {
    if !s.remembers then {} else if |memo + {b}| > MEMO_CAP then {b} else memo + {b}
  }

  /** A process: its memo, its deferred windows with their drawn times, and the tick it is in. */
  datatype Process = Process(memo: set<nat>, deferred: map<nat, nat>, queue: seq<nat>, starting: Option<nat>)

  predicate Idle(p: Process) { p.queue == [] && p.starting == None }

  /** What a tick may fire: the windows due, with a jitter the deferred ones too, less those known to exist. */
  function Candidates(s: Schedule, p: Process, now: nat): set<nat>
    requires Proper(s)
  {
    (if s.jitter > 0 then p.deferred.Keys else {}) + WindowsAt(s, now) - p.memo
  }

  /** When a window fires: at the time drawn when it was first seen due. */
  function FireAt(s: Schedule, p: Process, now: nat, draw: nat -> nat, b: nat): nat {
    if b in p.deferred then p.deferred[b] else now + if s.jitter > 0 then draw(b) % s.jitter else 0
  }

  function Firing(s: Schedule, p: Process, now: nat, draw: nat -> nat): set<nat>
    requires Proper(s)
  {
    if s.jitter == 0 then Candidates(s, p, now)
      else set b | b in Candidates(s, p, now) && FireAt(s, p, now, draw, b) <= now
  }

  function Deferring(s: Schedule, p: Process, now: nat, draw: nat -> nat): map<nat, nat>
    requires Proper(s)
  {
    if s.jitter == 0 then map[]
    else map b | b in Candidates(s, p, now) && FireAt(s, p, now, draw, b) > now :: FireAt(s, p, now, draw, b)
  }

  /** The head of `runSchedules` for this schedule: nothing to do, the previous run overlaps, or windows to fire. */
  function Begun(s: Schedule, p: Process, now: nat, draw: nat -> nat, overlaps: bool, order: seq<nat>): Process
    requires Proper(s)
  {
    if Candidates(s, p, now) == {} || overlaps then p
    else p.(deferred := Deferring(s, p, now, draw), queue := order)
  }

  /** Ids listed once each. */
  ghost predicate Lists(order: seq<nat>, ids: set<nat>) {
    (forall b :: b in order <==> b in ids) && forall i, j | 0 <= i < j < |order| :: order[i] != order[j]
  }

  // ---- processes over one store --------------------------------------------------------------

  /** `created` are the runs' windows, in the order they were created. */
  datatype World = World(created: seq<nat>, processes: map<nat, Process>)

  datatype Event =
    | Tick(p: nat, now: nat, draw: nat -> nat, overlaps: bool, order: seq<nat>)
    | Look(p: nat)                  // `getRun`, and the memo, before the start
    | Begin(p: nat, succeeds: bool) // `start`, which throws or creates the run by id
    | Restart(p: nat)

  function ProcessOf(w: World, p: nat): Process {
    if p in w.processes then w.processes[p] else Process({}, map[], [], None)
  }

  ghost function Do(s: Schedule, w: World, ev: Event): World
    requires Proper(s)
  {
    var q := ProcessOf(w, ev.p);
    match ev
    case Tick(p, now, draw, overlaps, order) =>
      if Idle(q) && Lists(order, Firing(s, q, now, draw)) then
        w.(processes := w.processes[p := Begun(s, q, now, draw, overlaps, order)])
      else w
    case Look(p) =>
      if q.queue != [] && q.starting == None then
        var b := q.queue[0];
        w.(processes := w.processes[p :=
            Process(Remember(s, q.memo, b), q.deferred, q.queue[1..], if b in w.created then None else Some(b))])
      else w
    case Begin(p, succeeds) =>
      if q.starting.Some? then
        if succeeds then
          World(if q.starting.value in w.created then w.created else w.created + [q.starting.value],
                w.processes[p := q.(starting := None)])
        else w.(processes := w.processes[p := q.(queue := [], starting := None)])
      else w
    case Restart(p) => w.(processes := w.processes[p := Process({}, map[], [], None)])
  }

  ghost function Run(s: Schedule, w: World, evs: seq<Event>): World
    requires Proper(s)
    decreases |evs|
  {
    if evs == [] then w else Run(s, Do(s, w, evs[0]), evs[1..])
  }

  ghost predicate Once(created: seq<nat>) { forall i, j | 0 <= i < j < |created| :: created[i] != created[j] }

  /** Each window is created at most once, whoever races and whatever throws. */
  lemma {:induction false} CreatedOnce(s: Schedule, w: World, evs: seq<Event>)
    requires Proper(s) && Once(w.created)
    ensures Once(Run(s, w, evs).created) && w.created <= Run(s, w, evs).created
    decreases |evs|
  {
    if evs != [] { CreatedOnce(s, Do(s, w, evs[0]), evs[1..]); }
  }

  /** No start throws. */
  predicate AllSucceed(evs: seq<Event>) { evs == [] || (!(evs[0].Begin? && !evs[0].succeeds) && AllSucceed(evs[1..])) }

  /** What a process remembers exists, or is being started right now. */
  ghost predicate Known(w: World, p: nat) {
    forall b | b in ProcessOf(w, p).memo :: b in w.created || ProcessOf(w, p).starting == Some(b)
  }

  lemma EventKnown(s: Schedule, w: World, ev: Event)
    requires Proper(s) && (forall p :: Known(w, p)) && !(ev.Begin? && !ev.succeeds)
    ensures forall p :: Known(Do(s, w, ev), p)
  {
    var w' := Do(s, w, ev);
    CreatedGrows(s, w, ev);
    ActorKnown(s, w, ev);
    forall p | p != ev.p ensures Known(w', p) {
      assert Known(w, p) && ProcessOf(w', p) == ProcessOf(w, p);
    }
  }

  lemma CreatedGrows(s: Schedule, w: World, ev: Event)
    requires Proper(s)
    ensures forall b | b in w.created :: b in Do(s, w, ev).created
    ensures ev.Begin? && ev.succeeds && ProcessOf(w, ev.p).starting.Some? ==>
              ProcessOf(w, ev.p).starting.value in Do(s, w, ev).created
  {
    var x := ProcessOf(w, ev.p).starting;
    if x.Some? { assert (w.created + [x.value])[|w.created|] == x.value; }
  }

  lemma ActorKnown(s: Schedule, w: World, ev: Event)
    requires Proper(s) && Known(w, ev.p) && !(ev.Begin? && !ev.succeeds)
    ensures Known(Do(s, w, ev), ev.p)
  {
    CreatedGrows(s, w, ev);
  }

  /** The memo is only ever of windows that exist, as long as no start throws. */
  lemma {:induction false} MemoIsTrue(s: Schedule, w: World, evs: seq<Event>)
    requires Proper(s) && (forall p :: Known(w, p)) && AllSucceed(evs)
    ensures forall p :: Known(Run(s, w, evs), p)
    decreases |evs|
  {
    if evs != [] {
      EventKnown(s, w, evs[0]);
      MemoIsTrue(s, Do(s, w, evs[0]), evs[1..]);
    }
  }

  // ---- exactly the windows due ---------------------------------------------------------------

  /** The windows a process is still to fire. */
  function Left(q: Process): set<nat> { (set b | b in q.queue) + if q.starting.Some? then {q.starting.value} else {} }

  ghost predicate TakesPlace(s: Schedule, w: World, ev: Event)
    requires Proper(s)
  {
    ev.Tick? && Idle(ProcessOf(w, ev.p)) && Lists(ev.order, Firing(s, ProcessOf(w, ev.p), ev.now, ev.draw))
  }

  /** The windows due at the ticks that take place without an overlap. */
  ghost function DueOf(s: Schedule, w: World, evs: seq<Event>): set<nat>
    requires Proper(s)
    decreases |evs|
  {
    if evs == [] then {} else DueThen(s, w, evs[0]) + DueOf(s, Do(s, w, evs[0]), evs[1..])
  }

  ghost function DueThen(s: Schedule, w: World, ev: Event): set<nat>
    requires Proper(s)
  {
    if TakesPlace(s, w, ev) && !ev.overlaps then WindowsAt(s, ev.now) else {}
  }

  /** The windows a process is still to fire, now or once their drawn time has come. */
  function Owed(q: Process): set<nat> { Left(q) + q.deferred.Keys }

  /** The windows an event makes a process drop: a restart all it owes, a throw those of the tick it cuts short. */
  function Drops(w: World, ev: Event): set<nat> {
    var q := ProcessOf(w, ev.p);
    if ev.Restart? then Owed(q) else if ev.Begin? && !ev.succeeds && q.starting.Some? then Left(q) else {}
  }

  ghost function LostOf(s: Schedule, w: World, evs: seq<Event>): set<nat>
    requires Proper(s)
    decreases |evs|
  {
    if evs == [] then {} else Drops(w, evs[0]) + LostOf(s, Do(s, w, evs[0]), evs[1..])
  }

  /** No start throws and no process dies. */
  predicate Undisturbed(evs: seq<Event>) {
    evs == [] || (!(evs[0].Begin? && !evs[0].succeeds) && !evs[0].Restart? && Undisturbed(evs[1..]))
  }

  lemma {:induction false} NothingDropped(s: Schedule, w: World, evs: seq<Event>)
    requires Proper(s) && Undisturbed(evs)
    ensures LostOf(s, w, evs) == {}
    decreases |evs|
  {
    if evs != [] { NothingDropped(s, Do(s, w, evs[0]), evs[1..]); }
  }

  /** What a process remembers exists, is being started, or was dropped. */
  ghost predicate Accounted(w: World, p: nat, lost: set<nat>) {
    forall b | b in ProcessOf(w, p).memo :: b in w.created || ProcessOf(w, p).starting == Some(b) || b in lost
  }

  /**
   * Of the windows due so far, each exists, was dropped, or is some process's to fire; and no other is
   * any of these.
   */
  ghost predicate OnTrack(w: World, due: set<nat>, lost: set<nat>) {
    && (forall p :: Accounted(w, p, lost) && Waiting(ProcessOf(w, p)))
    && (forall b | b in due :: b in w.created || b in lost || exists p :: b in Owed(ProcessOf(w, p)))
    && (forall b | b in w.created :: b in due)
    && lost <= due
    && (forall p, b | b in Owed(ProcessOf(w, p)) :: b in due)
  }

  /** What a tick leaves of what the process owed, and what it takes on. */
  lemma TickOwes(s: Schedule, w: World, ev: Event)
    requires Proper(s) && TakesPlace(s, w, ev) && !ev.overlaps && Waiting(ProcessOf(w, ev.p))
    requires s.jitter == 0 ==> ProcessOf(w, ev.p).deferred == map[]
    ensures var q, q' := ProcessOf(w, ev.p), ProcessOf(Do(s, w, ev), ev.p);
            forall b :: b in Owed(q') <==> b in Owed(q) || (b in WindowsAt(s, ev.now) && b !in q.memo)
  {
    var q, q' := ProcessOf(w, ev.p), ProcessOf(Do(s, w, ev), ev.p);
    forall b ensures b in Owed(q') <==> b in Owed(q) || (b in WindowsAt(s, ev.now) && b !in q.memo) {
      assert b in Owed(q) <==> b in q.deferred;
      assert b in Candidates(s, q, ev.now) <==> (b in q.deferred || (b in WindowsAt(s, ev.now) && b !in q.memo));
      assert b in ev.order <==> b in Firing(s, q, ev.now, ev.draw);
    }
  }

  /**
   * An event of process `p` keeps the books of all of them, if `p`'s own memo stays accounted for, and
   * what it no longer owes exists or was dropped, and what it owes or created is due.
   */
  lemma ActorOnTrack(s: Schedule, w: World, ev: Event, due: set<nat>, lost: set<nat>, due': set<nat>, lost': set<nat>)
    requires Proper(s) && OnTrack(w, due, lost) && due <= due' && lost <= lost' <= due'
    requires var w', q, q' := Do(s, w, ev), ProcessOf(w, ev.p), ProcessOf(Do(s, w, ev), ev.p);
             && Accounted(w', ev.p, lost')
             && (forall b | b in Owed(q) :: b in Owed(q') || b in w'.created || b in lost')
             && (forall b | b in Owed(q') || b in w'.created :: b in due')
             && (forall b | b in due' && b !in due :: b in Owed(q') || b in w'.created || b in lost')
    ensures OnTrack(Do(s, w, ev), due', lost')
  {
    var w', q, q' := Do(s, w, ev), ProcessOf(w, ev.p), ProcessOf(Do(s, w, ev), ev.p);
    EventWaits(s, w, ev);
    CreatedGrows(s, w, ev);
    forall p | p != ev.p ensures ProcessOf(w', p) == ProcessOf(w, p) && Accounted(w', p, lost') {
      assert Accounted(w, p, lost);
    }
    forall b | b in due' ensures b in w'.created || b in lost' || exists p :: b in Owed(ProcessOf(w', p)) {
      if b in due && b !in w.created && b !in lost {
        var p :| b in Owed(ProcessOf(w, p));
        assert p == ev.p || b in Owed(ProcessOf(w', p));
      }
      assert b in Owed(q') ==> exists p :: b in Owed(ProcessOf(w', p));
    }
    forall p, b | b in Owed(ProcessOf(w', p)) ensures b in due' {
      if p != ev.p { assert b in Owed(ProcessOf(w, p)); }
    }
  }

  lemma TickOnTrack(s: Schedule, w: World, ev: Event, due: set<nat>, lost: set<nat>)
    requires Proper(s) && OnTrack(w, due, lost) && ev.Tick?
    requires s.jitter == 0 ==> ProcessOf(w, ev.p).deferred == map[]
    ensures OnTrack(Do(s, w, ev), due + DueThen(s, w, ev), lost)
  {
    var q := ProcessOf(w, ev.p);
    assert Waiting(q) && Accounted(w, ev.p, lost);
    assert forall b | b in Owed(q) :: b in due;
    if TakesPlace(s, w, ev) && !ev.overlaps { TickOwes(s, w, ev); }
    ActorOnTrack(s, w, ev, due, lost, due + DueThen(s, w, ev), lost);
  }

  /**
   * A process looks whether the window at the head of its queue exists, and notes that it has; only then
   * does it start it.
   */
  lemma LookIs(s: Schedule, w: World, p: nat)
    requires Proper(s) && ProcessOf(w, p).queue != [] && ProcessOf(w, p).starting == None
    ensures var q, q' := ProcessOf(w, p), ProcessOf(Do(s, w, Look(p)), p); var b := q.queue[0];
            && q'.queue == q.queue[1..] && q'.deferred == q.deferred
            && q'.starting == (if b in w.created then None else Some(b))
            && q'.memo == if !s.remembers then {} else if |q.memo + {b}| > 64 then {b} else q.memo + {b}
    ensures Do(s, w, Look(p)).created == w.created
  {
  }

  lemma LookOwes(s: Schedule, w: World, p: nat)
    requires Proper(s)
    ensures var q, q' := ProcessOf(w, p), ProcessOf(Do(s, w, Look(p)), p);
            && (forall b | b in Owed(q) :: b in Owed(q') || b in w.created)
            && (forall b | b in Owed(q') :: b in Owed(q))
            && (forall b | b in q'.memo :: b in q.memo || b in w.created || q'.starting == Some(b))
            && (q.starting.Some? ==> q' == q)
  {
    var q := ProcessOf(w, p);
    if q.queue != [] {
      assert q.queue == [q.queue[0]] + q.queue[1..];
      assert forall b | b in q.queue :: b == q.queue[0] || b in q.queue[1..];
    }
  }

  /** A window moves from a process's queue to its start, or is found to exist. */
  lemma LookOnTrack(s: Schedule, w: World, p: nat, due: set<nat>, lost: set<nat>)
    requires Proper(s) && OnTrack(w, due, lost)
    ensures OnTrack(Do(s, w, Look(p)), due, lost)
  {
    var q := ProcessOf(w, p);
    assert Accounted(w, p, lost) && forall b | b in Owed(q) :: b in due;
    LookOwes(s, w, p);
    ActorOnTrack(s, w, Look(p), due, lost, due, lost);
  }

  /** A start creates its window, or drops it with what is queued behind it. */
  lemma BeginOnTrack(s: Schedule, w: World, ev: Event, due: set<nat>, lost: set<nat>)
    requires Proper(s) && OnTrack(w, due, lost) && ev.Begin?
    ensures OnTrack(Do(s, w, ev), due, lost + Drops(w, ev))
  {
    var w', q := Do(s, w, ev), ProcessOf(w, ev.p);
    assert Accounted(w, ev.p, lost) && forall b | b in Owed(q) :: b in due;
    CreatedGrows(s, w, ev);
    if q.starting.Some? {
      assert q.starting.value in Left(q);
      assert forall b | b in w'.created :: b in w.created || b == q.starting.value;
    }
    ActorOnTrack(s, w, ev, due, lost, due, lost + Drops(w, ev));
  }

  lemma RestartOnTrack(s: Schedule, w: World, p: nat, due: set<nat>, lost: set<nat>)
    requires Proper(s) && OnTrack(w, due, lost)
    ensures OnTrack(Do(s, w, Restart(p)), due, lost + Drops(w, Restart(p)))
  {
    assert forall b | b in Owed(ProcessOf(w, p)) :: b in due;
    ActorOnTrack(s, w, Restart(p), due, lost, due, lost + Drops(w, Restart(p)));
  }

  lemma EventOnTrack(s: Schedule, w: World, ev: Event, due: set<nat>, lost: set<nat>)
    requires Proper(s) && NoneDeferred(s, w) && OnTrack(w, due, lost)
    ensures OnTrack(Do(s, w, ev), due + DueThen(s, w, ev), lost + Drops(w, ev))
  {
    assert due + {} == due && lost + {} == lost;
    match ev
    case Tick(_, _, _, _, _) => TickOnTrack(s, w, ev, due, lost);
    case Look(p) => LookOnTrack(s, w, p, due, lost);
    case Begin(_, _) => BeginOnTrack(s, w, ev, due, lost);
    case Restart(p) => RestartOnTrack(s, w, p, due, lost);
  }

  /** Without jitter nothing is deferred. */
  ghost predicate NoneDeferred(s: Schedule, w: World) {
    s.jitter == 0 ==> forall p :: ProcessOf(w, p).deferred == map[]
  }

  lemma EventDefersNone(s: Schedule, w: World, ev: Event)
    requires Proper(s) && NoneDeferred(s, w)
    ensures NoneDeferred(s, Do(s, w, ev))
  {
    forall p | s.jitter == 0 ensures ProcessOf(Do(s, w, ev), p).deferred == map[] {
      assert ProcessOf(w, p).deferred == map[];
    }
  }

  lemma {:induction false} RunOnTrack(s: Schedule, w: World, evs: seq<Event>, due: set<nat>, lost: set<nat>)
    requires Proper(s) && NoneDeferred(s, w) && OnTrack(w, due, lost)
    ensures OnTrack(Run(s, w, evs), due + DueOf(s, w, evs), lost + LostOf(s, w, evs))
    decreases |evs|
  {
    if evs == [] {
      assert due + {} == due && lost + {} == lost;
    } else {
      var w', due', lost' := Do(s, w, evs[0]), due + DueThen(s, w, evs[0]), lost + Drops(w, evs[0]);
      EventOnTrack(s, w, evs[0], due, lost);
      EventDefersNone(s, w, evs[0]);
      RunOnTrack(s, w', evs[1..], due', lost');
      assert due' + DueOf(s, w', evs[1..]) == due + DueOf(s, w, evs);
      assert lost' + LostOf(s, w', evs[1..]) == lost + LostOf(s, w, evs);
    }
  }

  /**
   * What becomes of the windows due: however the ticks of any number of processes interleave, overlap,
   * throw or die, once every process is between ticks the windows that were due at some tick are
   * exactly those created, each once, those that a throw or a restart made a process drop, and with a
   * jitter those some process still defers. Undisturbed, nothing is dropped: the memo changes nothing.
   */
  lemma CreatesExactlyWhatIsDue(s: Schedule, evs: seq<Event>)
    requires Proper(s)
    requires forall p :: Idle(ProcessOf(Run(s, World([], map[]), evs), p))
    ensures var start := World([], map[]);
            var w, due, lost := Run(s, start, evs), DueOf(s, start, evs), LostOf(s, start, evs);
            && Once(w.created)
            && (forall b :: b in due <==> b in w.created || b in lost || exists p :: b in ProcessOf(w, p).deferred)
            && (s.jitter == 0 ==> forall b :: b in due <==> b in w.created || b in lost)
            && (Undisturbed(evs) ==> lost == {})
  {
    var start, w := World([], map[]), Run(s, World([], map[]), evs);
    var due, lost := DueOf(s, start, evs), LostOf(s, start, evs);
    RunOnTrack(s, start, evs, {}, {});
    RunDefersNone(s, start, evs);
    CreatedOnce(s, start, evs);
    if Undisturbed(evs) { NothingDropped(s, start, evs); }
    assert {} + due == due && {} + lost == lost;
    forall p ensures Owed(ProcessOf(w, p)) == ProcessOf(w, p).deferred.Keys {
      assert Idle(ProcessOf(w, p));
    }
    forall b ensures b in due <==> b in w.created || b in lost || exists p :: b in ProcessOf(w, p).deferred {
      if p :| b in ProcessOf(w, p).deferred { assert b in Owed(ProcessOf(w, p)); }
      if b in due && b !in w.created && b !in lost {
        var p :| b in Owed(ProcessOf(w, p));
        assert b in ProcessOf(w, p).deferred;
      }
    }
  }

  /** The windows due at a list of ticks. */
  function DueAll(s: Schedule, times: seq<nat>): set<nat>
    requires Proper(s)
  {
    if times == [] then {} else DueAll(s, times[..|times| - 1]) + WindowsAt(s, times[|times| - 1])
  }

  /** Each tick comes at most `maxCatchup` whole windows after the one before. */
  predicate Close(s: Schedule, times: seq<nat>)
    requires Proper(s)
  {
    |times| <= 1
    || (Bucket(s, times[|times| - 1]) <= Bucket(s, times[|times| - 2]) + s.maxCatchup + 1
         && Close(s, times[..|times| - 1]))
  }

  /** Backfill covers any outage of up to `maxCatchup` windows: none is left out between the first tick and the last. */
  lemma {:induction false} BackfillCovers(s: Schedule, times: seq<nat>, b: nat)
    requires Proper(s) && times != []
    requires Close(s, times)
    requires Bucket(s, times[0]) <= b <= Bucket(s, times[|times| - 1])
    ensures b in DueAll(s, times)
  {
    var n := |times| - 1;
    if n > 0 && b <= Bucket(s, times[n - 1]) {
      BackfillCovers(s, times[..n], b);
    } else {
      assert b in DueAt(s, times[n]);
    }
  }

  // ---- deferred windows ----------------------------------------------------------------------

  /** A deferred window has not been fired, and is not being. */
  ghost predicate Waiting(q: Process) { forall b | b in q.deferred :: b !in q.memo && b !in Left(q) }

  lemma {:induction false} DeferredWait(s: Schedule, w: World, evs: seq<Event>)
    requires Proper(s) && forall p :: Waiting(ProcessOf(w, p))
    ensures forall p :: Waiting(ProcessOf(Run(s, w, evs), p))
    decreases |evs|
  {
    if evs != [] {
      EventWaits(s, w, evs[0]);
      DeferredWait(s, Do(s, w, evs[0]), evs[1..]);
    }
  }

  lemma ActorWaits(s: Schedule, w: World, ev: Event)
    requires Proper(s) && Waiting(ProcessOf(w, ev.p))
    ensures Waiting(ProcessOf(Do(s, w, ev), ev.p))
  {
    var q := ProcessOf(w, ev.p);
    if ev.Look? && q.queue != [] { assert q.queue[0] in Left(q) && forall b | b in q.queue[1..] :: b in Left(q); }
  }

  lemma EventWaits(s: Schedule, w: World, ev: Event)
    requires Proper(s) && forall p :: Waiting(ProcessOf(w, p))
    ensures forall p :: Waiting(ProcessOf(Do(s, w, ev), p))
  {
    var w' := Do(s, w, ev);
    assert Waiting(ProcessOf(w, ev.p));
    ActorWaits(s, w, ev);
    forall p | p != ev.p ensures Waiting(ProcessOf(w', p)) {
      assert Waiting(ProcessOf(w, p));
    }
  }

  /**
   * A deferred window fires at the first tick at or after its drawn time, even once the schedule has
   * moved on to later windows; until then every tick keeps it with the time it drew.
   */
  lemma DeferredFires(s: Schedule, evs: seq<Event>, tick: Event, b: nat)
    requires Proper(s) && s.jitter > 0 && tick.Tick? && !tick.overlaps
    requires var w := Run(s, World([], map[]), evs); TakesPlace(s, w, tick) && b in ProcessOf(w, tick.p).deferred
    ensures var w := Run(s, World([], map[]), evs);
            var q, q' := ProcessOf(w, tick.p), ProcessOf(Do(s, w, tick), tick.p);
            if tick.now >= q.deferred[b] then b in q'.queue && b !in q'.deferred
            else b !in q'.queue && b in q'.deferred && q'.deferred[b] == q.deferred[b]
  {
    DeferredWait(s, World([], map[]), evs);
    var w := Run(s, World([], map[]), evs);
    assert Waiting(ProcessOf(w, tick.p));
    assert b in Candidates(s, ProcessOf(w, tick.p), tick.now);
  }

  /**
   * A window first seen due draws its delay: it fires at that tick when there is no jitter or the draw
   * leaves none, and otherwise waits for the tick's time and its draw, modulo the jitter.
   */
  lemma FirstSeenDraws(s: Schedule, w: World, tick: Event, b: nat)
    requires Proper(s) && tick.Tick? && !tick.overlaps && TakesPlace(s, w, tick)
    requires var q := ProcessOf(w, tick.p); b in WindowsAt(s, tick.now) && b !in q.memo && b !in q.deferred
    ensures var q' := ProcessOf(Do(s, w, tick), tick.p);
            if s.jitter == 0 || tick.draw(b) % s.jitter == 0 then b in q'.queue && b !in q'.deferred
            else b !in q'.queue && b in q'.deferred && q'.deferred[b] == tick.now + tick.draw(b) % s.jitter
  {
    assert b in Candidates(s, ProcessOf(w, tick.p), tick.now);
  }

  /** The process lives, and none of its ticks reaches the time. */
  ghost predicate NotYet(s: Schedule, w: World, evs: seq<Event>, p: nat, at: nat)
    requires Proper(s)
    decreases |evs|
  {
    evs == [] || (&& (evs[0].p == p ==> !evs[0].Restart? && (evs[0].Tick? && !evs[0].overlaps ==> evs[0].now < at))
                  && NotYet(s, Do(s, w, evs[0]), evs[1..], p, at))
  }

  lemma {:induction false} KeepsItsTime(s: Schedule, w: World, evs: seq<Event>, p: nat, b: nat, at: nat)
    requires Proper(s) && s.jitter > 0 && (forall q :: Waiting(ProcessOf(w, q))) && NotYet(s, w, evs, p, at)
    requires b in ProcessOf(w, p).deferred && ProcessOf(w, p).deferred[b] == at
    ensures var q := ProcessOf(Run(s, w, evs), p); b in q.deferred && q.deferred[b] == at
    decreases |evs|
  {
    if evs != [] {
      assert Waiting(ProcessOf(w, p));
      var w' := Do(s, w, evs[0]);
      EventWaits(s, w, evs[0]);
      if evs[0].p == p && TakesPlace(s, w, evs[0]) && !evs[0].overlaps {
        assert b in Candidates(s, ProcessOf(w, p), evs[0].now);
      }
      assert b in ProcessOf(w', p).deferred && ProcessOf(w', p).deferred[b] == at;
      KeepsItsTime(s, w', evs[1..], p, b, at);
    }
  }

  /**
   * So whatever happens in between, short of the process dying, a window a process sees due at one tick
   * fires at its first tick at or after that tick's time and the delay drawn then, and at none before.
   */
  lemma JitteredFires(s: Schedule, evs: seq<Event>, seen: Event, after: seq<Event>, tick: Event, b: nat)
    requires Proper(s) && s.jitter > 0 && seen.Tick? && !seen.overlaps && tick.Tick? && !tick.overlaps
             && tick.p == seen.p
    requires var w := Run(s, World([], map[]), evs); var q := ProcessOf(w, seen.p);
             && TakesPlace(s, w, seen) && b in WindowsAt(s, seen.now) && b !in q.memo && b !in q.deferred
             && seen.draw(b) % s.jitter > 0
             && NotYet(s, Do(s, w, seen), after, seen.p, seen.now + seen.draw(b) % s.jitter)
             && TakesPlace(s, Run(s, Do(s, w, seen), after), tick)
    ensures var w := Run(s, Do(s, Run(s, World([], map[]), evs), seen), after);
            b in ProcessOf(Do(s, w, tick), tick.p).queue <==> tick.now >= seen.now + seen.draw(b) % s.jitter
  {
    var w := Run(s, World([], map[]), evs);
    var at := seen.now + seen.draw(b) % s.jitter;
    DeferredWait(s, World([], map[]), evs);
    EventWaits(s, w, seen);
    FirstSeenDraws(s, w, seen, b);
    var w' := Run(s, Do(s, w, seen), after);
    KeepsItsTime(s, Do(s, w, seen), after, seen.p, b, at);
    DeferredWait(s, Do(s, w, seen), after);
    assert Waiting(ProcessOf(w', tick.p));
    assert b in Candidates(s, ProcessOf(w', tick.p), tick.now);
  }

  // ---- a start that throws -------------------------------------------------------------------

  /**
   * A process's books, in any run: what it is starting it remembers, if it remembers anything; what
   * is queued is not remembered, deferred or being started, and is queued once.
   */
  ghost predicate BooksOk(s: Schedule, q: Process) {
    && Waiting(q)
    && (s.remembers && q.starting.Some? ==> q.starting.value in q.memo)
    && (!s.remembers ==> q.memo == {})
    && (forall b | b in q.queue :: b !in q.memo && q.starting != Some(b))
    && (forall i, j | 0 <= i < j < |q.queue| :: q.queue[i] != q.queue[j])
  }

  lemma EventKeepsBooks(s: Schedule, w: World, ev: Event)
    requires Proper(s) && forall p :: BooksOk(s, ProcessOf(w, p))
    ensures forall p :: BooksOk(s, ProcessOf(Do(s, w, ev), p))
  {
    var w', q := Do(s, w, ev), ProcessOf(w, ev.p);
    EventWaits(s, w, ev);
    assert BooksOk(s, q);
    if ev.Look? && q.queue != [] {
      forall b | b in q.queue[1..] ensures b in q.queue && b != q.queue[0] {
        var i :| 0 <= i < |q.queue[1..]| && q.queue[1..][i] == b;
        assert q.queue[i + 1] == b;
      }
    }
    assert BooksOk(s, ProcessOf(w', ev.p));
    forall p | p != ev.p ensures BooksOk(s, ProcessOf(w', p)) {
      assert BooksOk(s, ProcessOf(w, p));
    }
  }

  lemma {:induction false} RunKeepsBooks(s: Schedule, w: World, evs: seq<Event>)
    requires Proper(s) && forall p :: BooksOk(s, ProcessOf(w, p))
    ensures forall p :: BooksOk(s, ProcessOf(Run(s, w, evs), p))
    decreases |evs|
  {
    if evs != [] {
      EventKeepsBooks(s, w, evs[0]);
      RunKeepsBooks(s, Do(s, w, evs[0]), evs[1..]);
    }
  }

  /** The process looks its next window up, and remembers it. */
  predicate Looks(w: World, ev: Event, p: nat) {
    ev == Look(p) && ProcessOf(w, p).queue != [] && ProcessOf(w, p).starting == None
  }

  /** It forgets what it knew of window `b`: it restarts, or its memo overflows with another window. */
  predicate Forgets(s: Schedule, w: World, ev: Event, p: nat, b: nat) {
    || ev == Restart(p)
    || (Looks(w, ev, p) && ProcessOf(w, p).queue[0] != b
         && (!s.remembers || |ProcessOf(w, p).memo + {ProcessOf(w, p).queue[0]}| > MEMO_CAP))
  }

  /** Since a point at which the process held window `b` in mind or not, it has looked it up again, or forgotten it. */
  ghost predicate InMind(s: Schedule, w: World, evs: seq<Event>, p: nat, b: nat, held: bool)
    requires Proper(s)
    decreases |evs|
  {
    if evs == [] then held
    else
      InMind(s, Do(s, w, evs[0]), evs[1..], p, b,
             if Forgets(s, w, evs[0], p, b) then false
             else if Looks(w, evs[0], p) && ProcessOf(w, p).queue[0] == b then s.remembers
             else held)
  }

  lemma MemoStep(s: Schedule, w: World, ev: Event, p: nat, b: nat)
    requires Proper(s)
    ensures b in ProcessOf(Do(s, w, ev), p).memo <==>
              if Forgets(s, w, ev, p, b) then false
              else if Looks(w, ev, p) && ProcessOf(w, p).queue[0] == b then s.remembers
              else b in ProcessOf(w, p).memo
  {
  }

  lemma {:induction false} MemoIs(s: Schedule, w: World, evs: seq<Event>, p: nat, b: nat)
    requires Proper(s)
    ensures b in ProcessOf(Run(s, w, evs), p).memo <==> InMind(s, w, evs, p, b, b in ProcessOf(w, p).memo)
    decreases |evs|
  {
    if evs != [] {
      MemoStep(s, w, evs[0], p, b);
      MemoIs(s, Do(s, w, evs[0]), evs[1..], p, b);
    }
  }

  /** A tick of the process takes the window up: fires it, or defers it for the jitter. */
  ghost predicate TakesUp(s: Schedule, w: World, tick: Event, b: nat)
    requires Proper(s) && tick.Tick?
  {
    var q := ProcessOf(Do(s, w, tick), tick.p); b in q.queue || b in q.deferred
  }

  lemma TakesUpIff(s: Schedule, w: World, tick: Event, b: nat)
    requires Proper(s) && TakesPlace(s, w, tick) && !tick.overlaps && BooksOk(s, ProcessOf(w, tick.p))
    requires s.jitter == 0 ==> ProcessOf(w, tick.p).deferred == map[]
    ensures TakesUp(s, w, tick, b) <==>
              b in ProcessOf(w, tick.p).deferred || (b in WindowsAt(s, tick.now) && b !in ProcessOf(w, tick.p).memo)
  {
    TickOwes(s, w, tick);
    var q' := ProcessOf(Do(s, w, tick), tick.p);
    assert b in Owed(q') <==> b in q'.queue || b in q'.deferred;
    assert b in Owed(ProcessOf(w, tick.p)) <==> b in ProcessOf(w, tick.p).deferred;
  }

  /** After any run, process `p` is starting window `b`, and the start throws. */
  ghost function Thrown(s: Schedule, past: seq<Event>, p: nat): World
    requires Proper(s)
  {
    Do(s, Run(s, World([], map[]), past), Begin(p, false))
  }

  lemma {:induction false} RunDefersNone(s: Schedule, w: World, evs: seq<Event>)
    requires Proper(s) && NoneDeferred(s, w)
    ensures NoneDeferred(s, Run(s, w, evs))
    decreases |evs|
  {
    if evs != [] {
      EventDefersNone(s, w, evs[0]);
      RunDefersNone(s, Do(s, w, evs[0]), evs[1..]);
    }
  }

  /**
   * When a start throws, in any run of any processes, the process remembers the window all the same:
   * however the run goes on, a later tick of that process at which the window is due again takes it up
   * exactly when it has not kept the window in mind: it remembers nothing, or has forgotten it since.
   */
  lemma ThrownWindowLost(s: Schedule, past: seq<Event>, p: nat, b: nat, evs: seq<Event>, tick: Event)
    requires Proper(s) && ProcessOf(Run(s, World([], map[]), past), p).starting == Some(b)
    requires tick.Tick? && tick.p == p && !tick.overlaps && b in WindowsAt(s, tick.now)
    requires TakesPlace(s, Run(s, Thrown(s, past, p), evs), tick)
    ensures TakesUp(s, Run(s, Thrown(s, past, p), evs), tick, b) <==>
              !InMind(s, Thrown(s, past, p), evs, p, b, s.remembers)
  {
    var start, w := World([], map[]), Run(s, World([], map[]), past);
    var thrown := Thrown(s, past, p);
    var later := Run(s, thrown, evs);
    RunKeepsBooks(s, start, past);
    RunDefersNone(s, start, past);
    assert BooksOk(s, ProcessOf(w, p));
    EventKeepsBooks(s, w, Begin(p, false));
    EventDefersNone(s, w, Begin(p, false));
    RunKeepsBooks(s, thrown, evs);
    RunDefersNone(s, thrown, evs);
    assert BooksOk(s, ProcessOf(later, p));
    MemoIs(s, thrown, evs, p, b);
    TakesUpIff(s, later, tick, b);
  }

  /**
   * The windows queued behind it are dropped but not remembered: the next tick of the process takes
   * one up exactly when it is still due, so one that was deferred and that the schedule has moved past
   * is gone.
   */
  lemma QueuedBehind(s: Schedule, past: seq<Event>, p: nat, x: nat, tick: Event)
    requires Proper(s) && ProcessOf(Run(s, World([], map[]), past), p).starting.Some?
    requires x in ProcessOf(Run(s, World([], map[]), past), p).queue
    requires tick.Tick? && tick.p == p && !tick.overlaps && TakesPlace(s, Thrown(s, past, p), tick)
    ensures TakesUp(s, Thrown(s, past, p), tick, x) <==> x in WindowsAt(s, tick.now)
  {
    var start, w := World([], map[]), Run(s, World([], map[]), past);
    RunKeepsBooks(s, start, past);
    RunDefersNone(s, start, past);
    assert BooksOk(s, ProcessOf(w, p));
    assert x in Left(ProcessOf(w, p));
    EventKeepsBooks(s, w, Begin(p, false));
    EventDefersNone(s, w, Begin(p, false));
    assert BooksOk(s, ProcessOf(Thrown(s, past, p), p));
    TakesUpIff(s, Thrown(s, past, p), tick, x);
  }

  /** For instance at the first tick of a single process: the window is never created, and no later tick fires it. */
  lemma ThrownRun(s: Schedule, now: nat, draw: nat -> nat)
    requires Proper(s) && s.jitter == 0 && s.maxCatchup == 0 && s.remembers
    ensures var b := Bucket(s, now);
            var w := Run(s, World([], map[]), [Tick(0, now, draw, false, [b]), Look(0), Begin(0, false)]);
            && b !in w.created && Idle(ProcessOf(w, 0)) && b in ProcessOf(w, 0).memo
            && forall later: nat | Bucket(s, later) == b :: Candidates(s, ProcessOf(w, 0), later) == {}
  {
    var b, start := Bucket(s, now), World([], map[]);
    var tick := Tick(0, now, draw, false, [b]);
    assert b in DueAt(s, now);
    assert forall x | x in DueAt(s, now) :: x == b;
    assert Firing(s, ProcessOf(start, 0), now, draw) == {b};
    var one := Do(s, start, tick);
    assert ProcessOf(one, 0).queue == [b] && ProcessOf(one, 0).memo == {};
    var two := Do(s, one, Look(0));
    assert |{} + {b}| == 1;
    assert ProcessOf(two, 0) == Process({} + {b}, map[], [b][1..], Some(b));
    var three := Do(s, two, Begin(0, false));
    ThreeEvents(s, start, tick, Look(0), Begin(0, false));
    forall later: nat | Bucket(s, later) == b ensures Candidates(s, ProcessOf(three, 0), later) == {} {
      assert forall x | x in DueAt(s, later) :: x == b;
    }
  }

  lemma ThreeEvents(s: Schedule, w: World, a: Event, b: Event, c: Event)
    requires Proper(s)
    ensures Run(s, w, [a, b, c]) == Do(s, Do(s, Do(s, w, a), b), c)
  {
    assert [a, b, c][1..] == [b, c] && [b, c][1..] == [c] && [c][1..] == [];
    var one := Do(s, w, a);
    var two := Do(s, one, b);
    assert Run(s, two, [c]) == Run(s, Do(s, two, c), []);
    assert Run(s, one, [b, c]) == Run(s, two, [c]);
  }
}
