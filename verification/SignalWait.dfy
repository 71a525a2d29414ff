/**
 * `waitForSignal` and the signaller it pairs with: check, register, re-check on one side, take,
 * buffer, re-take on the other, any number of signals, one store operation at a time.
 */
module SignalWait {
  import opened Common

  /**
   * How far the waiting turn has got at wait `at`. `Held`: taken from the buffer, not yet recorded;
   * `late` when its waiter is registered. `Missed` has found the buffer empty after registering.
   */
  datatype Turn =
    | Gone
    | Check(at: nat)
    | Register(at: nat)
    | Recheck(at: nat)
    | Held(at: nat, signal: nat, late: bool)
    | Unregister(at: nat)
    | Missed(at: nat)
    | Asleep(at: nat)

  /**
   * Signals are told apart by number. `log` is what the run's waits have recorded; `arriving` have
   * not looked for a waiter yet, `missed` found none; `rechecking` signallers have buffered and look
   * again; `claimed` waiters were taken on that second look; `landing` are deliveries to save.
   */
  datatype World = World(
    log: seq<nat>,
    buffer: seq<nat>,
    waiter: Option<nat>,
    turn: Turn,
    arriving: seq<nat>,
    missed: seq<nat>,
    rechecking: nat,
    claimed: seq<nat>,
    landing: seq<(nat, nat)>,
    lost: seq<nat>,
    sent: seq<nat>)

  datatype Event =
    | Begin | Step | Crash                  // the waiting run's turn
    | Send(signal: nat)
    | Look(k: nat) | Buffer(k: nat) | LookAgain | Reclaim | Land(k: nat)

  function Without<T>(s: seq<T>, k: nat): seq<T>
    requires k < |s|
  {
    s[..k] + s[k + 1..]
  }

  /** A checkpoint saved at wait `at`: recorded next, or over what is recorded there, which is lost. */
  function Save(w: World, at: nat, signal: nat): World {
    if at < |w.log| then w.(log := w.log[at := signal], lost := w.lost + [w.log[at]])
    else w.(log := w.log + [signal])
  }

  function TurnStep(w: World): World {
    match w.turn
    case Check(at) =>
      if w.buffer != [] then w.(buffer := w.buffer[1..], turn := Held(at, w.buffer[0], false))
        else w.(turn := Register(at))
    case Register(at) => w.(waiter := Some(at), turn := Recheck(at))
    case Recheck(at) =>
      if w.buffer != [] then w.(buffer := w.buffer[1..], turn := Held(at, w.buffer[0], true))
        else w.(turn := Missed(at))
    case Held(at, signal, late) => Save(w, at, signal).(turn := if late then Unregister(at) else Gone)
    case Unregister(at) => w.(waiter := if w.waiter == Some(at) then None else w.waiter, turn := Gone)
    case Missed(at) => w.(turn := Asleep(at))
    case _ => w
  }

  function Do(w: World, ev: Event): World {
    match ev
    case Begin => if w.turn == Gone || w.turn.Asleep? then w.(turn := Check(|w.log|)) else w
    case Step => TurnStep(w)
    case Crash => w.(turn := Gone, lost := w.lost + if w.turn.Held? then [w.turn.signal] else [])
    case Send(signal) => w.(arriving := w.arriving + [signal], sent := w.sent + [signal])
    case Look(k) =>
      if k < |w.arriving| then
        var found := w.arriving[k];
        var rest := w.(arriving := Without(w.arriving, k));
        if w.waiter.Some? then rest.(waiter := None, landing := w.landing + [(w.waiter.value, found)])
        else rest.(missed := w.missed + [found])
      else w
    case Buffer(k) =>
      if k < |w.missed| then
        w.(missed := Without(w.missed, k), buffer := w.buffer + [w.missed[k]], rechecking := w.rechecking + 1)
      else w
    case LookAgain =>
      if w.rechecking > 0 then
        if w.waiter.Some? then w.(rechecking := w.rechecking - 1, waiter := None,
            claimed := w.claimed + [w.waiter.value])
        else w.(rechecking := w.rechecking - 1)
      else w
    case Reclaim =>
      if w.claimed != [] then
        var rest := w.(claimed := w.claimed[1..]);
        if w.buffer != [] then rest.(buffer := w.buffer[1..], landing := w.landing + [(w.claimed[0], w.buffer[0])])
          else rest
      else w
    case Land(k) =>
      if k < |w.landing| then Save(w, w.landing[k].0, w.landing[k].1).(landing := Without(w.landing, k)) else w
  }

  function Run(w: World, evs: seq<Event>): World
    decreases |evs|
  {
    if evs == [] then w else Run(Do(w, evs[0]), evs[1..])
  }

  function Start(): World { World([], [], None, Gone, [], [], 0, [], [], [], []) }

  // ---- no lost wake --------------------------------------------------------------------------

  /** A run that found nothing is woken by whoever buffers after it: that signaller still has a second look. */
  predicate Watched(w: World) {
    (w.turn.Asleep? || w.turn.Missed?) && w.waiter.Some? && w.buffer != [] ==> w.rechecking > 0
  }

  /** No one has a wait beyond the next one to record. */
  predicate InReach(w: World) {
    && (w.turn.Gone? || w.turn.at <= |w.log|)
    && (w.waiter.Some? ==> w.waiter.value <= |w.log|)
    && (forall k | 0 <= k < |w.claimed| :: w.claimed[k] <= |w.log|)
    && (forall k | 0 <= k < |w.landing| :: w.landing[k].0 <= |w.log|)
  }

  /** The run has registered at wait `at`, which is not recorded, and has nothing in hand. */
  predicate Waits(w: World, at: nat) {
    (w.turn == Recheck(at) || w.turn == Missed(at) || w.turn == Asleep(at)) && |w.log| <= at
  }

  /** Someone can still deliver to wait `at`: its waiter is registered, claimed, or has a delivery to save. */
  predicate Tended(w: World, at: nat) {
    w.waiter == Some(at) || at in w.claimed || exists k :: 0 <= k < |w.landing| && w.landing[k].0 == at
  }

  /**
   * A signaller that took the waiter of wait `at` on its second look finds the buffer empty and drops
   * it, when the wait is not registered again and no other signaller has it.
   */
  predicate GivesUp(w: World, ev: Event, at: nat) {
    && ev == Reclaim && w.claimed != [] && w.claimed[0] == at && w.buffer == []
    && !Tended(w.(claimed := w.claimed[1..]), at)
  }

  /** Wait `at` has been given up since it last registered; `so` says whether it had been before `evs`. */
  predicate GivenUp(w: World, evs: seq<Event>, at: nat, so: bool)
    decreases |evs|
  {
    if evs == [] then so
    else
      var registers := evs[0] == Step && w.turn == Register(at);
      GivenUp(Do(w, evs[0]), evs[1..], at, !registers && (so || GivesUp(w, evs[0], at)))
  }

  /** What the runs from the start keep, with `so` for wait `at`. */
  predicate Kept(w: World, at: nat, so: bool) {
    && Watched(w) && InReach(w)
    && (Waits(w, at) ==> (w.waiter == Some(at) || w.waiter == None) && (so <==> !Tended(w, at)))
  }

  lemma StepKept(w: World, at: nat, so: bool)
    requires Kept(w, at, so)
    ensures Kept(TurnStep(w), at, w.turn != Register(at) && so)
  {
  }

  lemma ReclaimKept(w: World, at: nat, so: bool)
    requires Kept(w, at, so)
    ensures Kept(Do(w, Reclaim), at, so || GivesUp(w, Reclaim, at))
  {
    if w.claimed != [] {
      var w' := Do(w, Reclaim);
      assert w.claimed == [w.claimed[0]] + w.claimed[1..];
      assert forall k | 0 <= k < |w.landing| :: w'.landing[k] == w.landing[k];
      if w.buffer != [] { assert w'.landing[|w.landing|] == (w.claimed[0], w.buffer[0]); }
    }
  }

  lemma LandKept(w: World, at: nat, so: bool, k: nat)
    requires Kept(w, at, so)
    ensures Kept(Do(w, Land(k)), at, so)
  {
    var w' := Do(w, Land(k));
    if k < |w.landing| {
      assert forall j | 0 <= j < |w'.landing| :: w'.landing[j] == w.landing[if j < k then j else j + 1];
      if Waits(w', at) {
        assert w.landing[k].0 != at;
        if j :| 0 <= j < |w.landing| && w.landing[j].0 == at {
          assert w'.landing[if j < k then j else j - 1] == w.landing[j];
        }
      }
    }
  }

  lemma LookKept(w: World, at: nat, so: bool, ev: Event)
    requires Kept(w, at, so) && (ev.Look? || ev == LookAgain)
    ensures Kept(Do(w, ev), at, so)
  {
    var w' := Do(w, ev);
    assert forall k | 0 <= k < |w.landing| :: w'.landing[k] == w.landing[k];
    assert forall k | 0 <= k < |w.claimed| :: w'.claimed[k] == w.claimed[k];
    if w.waiter.Some? {
      if ev == LookAgain && w.rechecking > 0 { assert w'.claimed[|w.claimed|] == w.waiter.value; }
      if ev.Look? && ev.k < |w.arriving| { assert w'.landing[|w.landing|].0 == w.waiter.value; }
    }
  }

  lemma EventKept(w: World, ev: Event, at: nat, so: bool)
    requires Kept(w, at, so)
    ensures Kept(Do(w, ev), at, !(ev == Step && w.turn == Register(at)) && (so || GivesUp(w, ev, at)))
  {
    match ev
    case Step => StepKept(w, at, so);
    case Reclaim => ReclaimKept(w, at, so);
    case Land(k) => LandKept(w, at, so, k);
    case Look(_) => LookKept(w, at, so, ev);
    case LookAgain => LookKept(w, at, so, ev);
    case _ =>
  }

  lemma {:induction false} RunKept(w: World, evs: seq<Event>, at: nat, so: bool)
    requires Kept(w, at, so)
    ensures Kept(Run(w, evs), at, GivenUp(w, evs, at, so))
    decreases |evs|
  {
    if evs != [] {
      EventKept(w, evs[0], at, so);
      RunKept(Do(w, evs[0]), evs[1..], at, !(evs[0] == Step && w.turn == Register(at))
          && (so || GivesUp(w, evs[0], at)));
    }
  }

  /**
   * At every moment of every run, a wait not yet recorded has someone to deliver to it exactly when it
   * has not been given up.
   */
  lemma TendedIff(evs: seq<Event>, at: nat)
    requires Waits(Run(Start(), evs), at)
    ensures Tended(Run(Start(), evs), at) <==> !GivenUp(Start(), evs, at, false)
  {
    RunKept(Start(), evs, at, false);
  }

  /**
   * When a wake is lost: however the operations interleave, and wherever the waiting turn dies, once
   * no signaller has anything left to do a run asleep at a wait not yet recorded has its waiter
   * registered, and then no payload for its token is buffered, exactly when no signaller has given the
   * wait up since it registered.
   */
  lemma NoLostWake(evs: seq<Event>, at: nat)
    requires var w := Run(Start(), evs);
             w.turn == Asleep(at) && |w.log| <= at && w.rechecking == 0 && w.claimed == [] && w.landing == []
    ensures var w := Run(Start(), evs);
            if GivenUp(Start(), evs, at, false) then w.waiter == None else w.waiter == Some(at) && w.buffer == []
  {
    RunKept(Start(), evs, at, false);
  }

  // ---- each payload once ---------------------------------------------------------------------

  // ---- each side on its own ------------------------------------------------------------------

  /**
   * A turn nothing interleaves with: a payload already buffered is recorded without registering; with
   * none, the run falls asleep with its waiter registered.
   */
  lemma WaitAlone(w: World)
    requires w.turn == Check(|w.log|)
    ensures w.buffer != [] ==>
              Run(w, [Step, Step]) == w.(log := w.log + [w.buffer[0]], buffer := w.buffer[1..], turn := Gone)
    ensures w.buffer == [] ==>
              Run(w, [Step, Step, Step, Step]) == w.(waiter := Some(|w.log|), turn := Asleep(|w.log|))
  {
    if w.buffer != [] { Two(w, Step, Step); } else { Four(w, Step, Step, Step, Step); }
  }

  /** A payload buffered since the waiter was registered is found by the second look, which then frees the waiter. */
  lemma SecondLook(w: World)
    requires w.turn == Recheck(|w.log|) && w.waiter == Some(|w.log|) && w.buffer != []
    ensures Run(w, [Step, Step, Step])
            == w.(log := w.log + [w.buffer[0]], buffer := w.buffer[1..], waiter := None, turn := Gone)
  {
    Three(w, Step, Step, Step);
  }

  /**
   * A signaller nothing interleaves with, on an empty token: a waiting run gets the payload; otherwise
   * it is buffered.
   */
  lemma SignalAlone(w: World, x: nat)
    requires w.arriving == [] && w.missed == [] && w.claimed == [] && w.landing == [] && w.rechecking == 0
    ensures w.waiter == Some(|w.log|) ==>
              Run(w, [Send(x), Look(0), Land(0)]) == w.(log := w.log + [x], waiter := None, sent := w.sent + [x])
    ensures w.waiter == None ==>
              Run(w, [Send(x), Look(0), Buffer(0), LookAgain]) == w.(buffer := w.buffer + [x], sent := w.sent + [x])
  {
    if w.waiter == Some(|w.log|) {
      Three(w, Send(x), Look(0), Land(0));
    } else if w.waiter == None {
      Four(w, Send(x), Look(0), Buffer(0), LookAgain);
    }
  }

  /** A run that registered after the signaller's first look is paired with the buffer by its second. */
  lemma SignallerPairs(w: World)
    requires w.waiter == Some(|w.log|) && w.buffer != [] && w.rechecking == 1 && w.claimed == [] && w.landing == []
    ensures Run(w, [LookAgain, Reclaim, Land(0)])
            == w.(log := w.log + [w.buffer[0]], buffer := w.buffer[1..], waiter := None, rechecking := 0)
  {
    Three(w, LookAgain, Reclaim, Land(0));
  }

  lemma Two(w: World, a: Event, b: Event)
    ensures Run(w, [a, b]) == Do(Do(w, a), b)
  {
    assert [a, b][1..] == [b] && [b][1..] == [];
    assert Run(Do(w, a), [b]) == Run(Do(Do(w, a), b), []);
  }

  lemma Three(w: World, a: Event, b: Event, c: Event)
    ensures Run(w, [a, b, c]) == Do(Do(Do(w, a), b), c)
  {
    assert [a, b, c][1..] == [b, c];
    Two(Do(w, a), b, c);
  }

  lemma Four(w: World, a: Event, b: Event, c: Event, d: Event)
    ensures Run(w, [a, b, c, d]) == Do(Do(Do(Do(w, a), b), c), d)
  {
    assert [a, b, c, d][1..] == [b, c, d];
    Three(Do(w, a), b, c, d);
  }

  /** How often `x` occurs. */
  function Times(s: seq<nat>, x: nat): nat { if s == [] then 0 else Times(s[..|s| - 1], x) + One(s[|s| - 1], x) }

  function One(y: nat, x: nat): nat { if y == x then 1 else 0 }

  function Landing(landing: seq<(nat, nat)>, x: nat): nat {
    if landing == [] then 0 else Landing(landing[..|landing| - 1], x) + One(landing[|landing| - 1].1, x)
  }

  lemma TimesMore(s: seq<nat>, y: nat, x: nat)
    ensures Times(s + [y], x) == Times(s, x) + One(y, x)
  {
    assert (s + [y])[..|s|] == s;
  }

  lemma LandingMore(landing: seq<(nat, nat)>, at: nat, y: nat, x: nat)
    ensures Landing(landing + [(at, y)], x) == Landing(landing, x) + One(y, x)
  {
    assert (landing + [(at, y)])[..|landing|] == landing;
  }

  lemma {:induction false} TimesWithout(s: seq<nat>, k: nat, x: nat)
    requires k < |s|
    ensures Times(Without(s, k), x) + One(s[k], x) == Times(s, x)
  {
    var n := |s| - 1;
    if k == n {
      assert Without(s, k) == s[..n];
    } else {
      TimesWithout(s[..n], k, x);
      assert Without(s, k) == Without(s[..n], k) + [s[n]];
      TimesMore(Without(s[..n], k), s[n], x);
    }
  }

  lemma {:induction false} LandingWithout(landing: seq<(nat, nat)>, k: nat, x: nat)
    requires k < |landing|
    ensures Landing(Without(landing, k), x) + One(landing[k].1, x) == Landing(landing, x)
  {
    var n := |landing| - 1;
    if k == n {
      assert Without(landing, k) == landing[..n];
    } else {
      LandingWithout(landing[..n], k, x);
      assert Without(landing, k) == Without(landing[..n], k) + [landing[n]];
      LandingMore(Without(landing[..n], k), landing[n].0, landing[n].1, x);
    }
  }

  lemma {:induction false} TimesReplaced(s: seq<nat>, k: nat, y: nat, x: nat)
    requires k < |s|
    ensures Times(s[k := y], x) + One(s[k], x) == Times(s, x) + One(y, x)
  {
    var n := |s| - 1;
    if k == n {
      assert s[k := y][..n] == s[..n];
    } else {
      assert s[k := y][..n] == s[..n][k := y];
      TimesReplaced(s[..n], k, y, x);
    }
  }

  lemma TimesTail(s: seq<nat>, x: nat)
    requires s != []
    ensures Times(s[1..], x) + One(s[0], x) == Times(s, x)
  {
    TimesWithout(s, 0, x);
    assert Without(s, 0) == s[1..];
  }

  function HeldOf(turn: Turn, x: nat): nat { if turn.Held? then One(turn.signal, x) else 0 }

  /** How many copies of signal `x` there are, wherever they are. */
  function Copies(w: World, x: nat): nat {
    Times(w.arriving, x) + Times(w.missed, x) + Times(w.buffer, x) + Landing(w.landing, x) + HeldOf(w.turn, x)
    + Times(w.log, x) + Times(w.lost, x)
  }

  lemma SaveCopies(w: World, at: nat, signal: nat, x: nat)
    ensures var s := Save(w, at, signal);
            && Times(s.log, x) + Times(s.lost, x) == Times(w.log, x) + Times(w.lost, x) + One(signal, x)
            && s == w.(log := s.log, lost := s.lost)
  {
    if at < |w.log| {
      TimesReplaced(w.log, at, signal, x);
      TimesMore(w.lost, w.log[at], x);
    } else {
      TimesMore(w.log, signal, x);
    }
  }

  lemma StepCopies(w: World, x: nat)
    ensures Copies(TurnStep(w), x) == Copies(w, x) && TurnStep(w).sent == w.sent
  {
    match w.turn
    case Check(_) => if w.buffer != [] { TimesTail(w.buffer, x); }
    case Recheck(_) => if w.buffer != [] { TimesTail(w.buffer, x); }
    case Held(at, signal, _) => SaveCopies(w, at, signal, x);
    case _ =>
  }

  lemma LookCopies(w: World, k: nat, x: nat)
    ensures Copies(Do(w, Look(k)), x) == Copies(w, x)
  {
    if k < |w.arriving| {
      TimesWithout(w.arriving, k, x);
      if w.waiter.Some? {
        LandingMore(w.landing, w.waiter.value, w.arriving[k], x);
      } else {
        TimesMore(w.missed, w.arriving[k], x);
      }
    }
  }

  lemma BufferCopies(w: World, k: nat, x: nat)
    ensures Copies(Do(w, Buffer(k)), x) == Copies(w, x)
  {
    if k < |w.missed| {
      TimesWithout(w.missed, k, x);
      TimesMore(w.buffer, w.missed[k], x);
    }
  }

  lemma ReclaimCopies(w: World, x: nat)
    ensures Copies(Do(w, Reclaim), x) == Copies(w, x)
  {
    if w.claimed != [] && w.buffer != [] {
      TimesTail(w.buffer, x);
      LandingMore(w.landing, w.claimed[0], w.buffer[0], x);
    }
  }

  lemma LandCopies(w: World, k: nat, x: nat)
    ensures Copies(Do(w, Land(k)), x) == Copies(w, x)
  {
    if k < |w.landing| {
      LandingWithout(w.landing, k, x);
      SaveCopies(w, w.landing[k].0, w.landing[k].1, x);
    }
  }

  lemma CrashCopies(w: World, x: nat)
    ensures Copies(Do(w, Crash), x) == Copies(w, x)
  {
    if w.turn.Held? { TimesMore(w.lost, w.turn.signal, x); } else { assert w.lost + [] == w.lost; }
  }

  lemma SendCopies(w: World, signal: nat, x: nat)
    ensures Copies(Do(w, Send(signal)), x) == Copies(w, x) + One(signal, x)
  {
    TimesMore(w.arriving, signal, x);
  }

  lemma OtherCopies(w: World, ev: Event, x: nat)
    requires ev == Begin || ev == LookAgain
    ensures Copies(Do(w, ev), x) == Copies(w, x)
  {
    var w' := Do(w, ev);
    Untouched(w, ev);
    assert HeldOf(w'.turn, x) == HeldOf(w.turn, x);
  }

  lemma Untouched(w: World, ev: Event)
    requires ev == Begin || ev == LookAgain
    ensures var w' := Do(w, ev);
            && w'.arriving == w.arriving && w'.missed == w.missed && w'.buffer == w.buffer && w'.landing == w.landing
            && w'.log == w.log && w'.lost == w.lost && (w'.turn == w.turn || (!w.turn.Held? && !w'.turn.Held?))
  {
  }

  lemma EventCopies(w: World, ev: Event, x: nat)
    ensures Copies(Do(w, ev), x) == Copies(w, x) + if ev.Send? then One(ev.signal, x) else 0
  {
    match ev
    case Begin => OtherCopies(w, ev, x);
    case Step => StepCopies(w, x);
    case Crash => CrashCopies(w, x);
    case Send(signal) => SendCopies(w, signal, x);
    case Look(k) => LookCopies(w, k, x);
    case Buffer(k) => BufferCopies(w, k, x);
    case LookAgain => OtherCopies(w, ev, x);
    case Reclaim => ReclaimCopies(w, x);
    case Land(k) => LandCopies(w, k, x);
  }

  lemma EventSent(w: World, ev: Event)
    ensures Do(w, ev).sent == if ev.Send? then w.sent + [ev.signal] else w.sent
  {
  }

  ghost predicate Conserved(w: World) { forall x: nat :: Copies(w, x) == Times(w.sent, x) }

  lemma EventConserved(w: World, ev: Event)
    requires Conserved(w)
    ensures Conserved(Do(w, ev))
  {
    forall x: nat ensures Copies(Do(w, ev), x) == Times(Do(w, ev).sent, x) {
      EventCopies(w, ev, x);
      EventSent(w, ev);
      if ev.Send? { TimesMore(w.sent, ev.signal, x); }
    }
  }

  /**
   * Each signal sent is at every moment in exactly one place: with a signaller, in the buffer, with
   * the turn that took it, recorded, or lost with a turn that died or under another record.
   */
  lemma {:induction false} EachOnce(w: World, evs: seq<Event>)
    requires Conserved(w)
    ensures Conserved(Run(w, evs))
    decreases |evs|
  {
    if evs != [] {
      EventConserved(w, evs[0]);
      EachOnce(Do(w, evs[0]), evs[1..]);
    }
  }

  // ---- any number of signals -----------------------------------------------------------------

  /**
   * A step that drops a signal: the turn dies with one in its hands, or a record is written where the
   * run's log already has one.
   */
  predicate Spills(w: World, ev: Event) {
    || (ev == Crash && w.turn.Held?)
    || (ev == Step && w.turn.Held? && w.turn.at < |w.log|)
    || (ev.Land? && ev.k < |w.landing| && w.landing[ev.k].0 < |w.log|)
  }

  predicate NoSpill(w: World, evs: seq<Event>)
    decreases |evs|
  {
    evs == [] || (!Spills(w, evs[0]) && NoSpill(Do(w, evs[0]), evs[1..]))
  }

  lemma StepSpills(w: World, ev: Event)
    ensures |Do(w, ev).lost| == |w.lost| + if Spills(w, ev) then 1 else 0
  {
  }

  lemma {:induction false} RunSpills(w: World, evs: seq<Event>)
    ensures |Run(w, evs).lost| >= |w.lost| && (|Run(w, evs).lost| == |w.lost| <==> NoSpill(w, evs))
    decreases |evs|
  {
    if evs != [] {
      StepSpills(w, evs[0]);
      RunSpills(Do(w, evs[0]), evs[1..]);
    }
  }

  lemma StartConserved()
    ensures Conserved(Start())
  {
    forall y: nat ensures Copies(Start(), y) == Times(Start().sent, y) { }
  }

  /**
   * Once no one is handling a signal, every signal sent is recorded or still buffered, as often as it
   * was sent, exactly when no step of the run dropped one.
   */
  lemma KeptIff(evs: seq<Event>)
    requires var w := Run(Start(), evs); w.arriving == [] && w.missed == [] && w.landing == [] && !w.turn.Held?
    ensures var w := Run(Start(), evs);
            (forall x: nat :: Times(w.log, x) + Times(w.buffer, x) == Times(w.sent, x)) <==> NoSpill(Start(), evs)
  {
    var w := Run(Start(), evs);
    StartConserved();
    EachOnce(Start(), evs);
    RunSpills(Start(), evs);
    assert forall x: nat :: Copies(w, x) == Times(w.sent, x);
    if w.lost != [] {
      var x := w.lost[|w.lost| - 1];
      assert Times(w.lost, x) >= 1;
      assert Copies(w, x) == Times(w.sent, x);
    }
  }

  // ---- one signal at a time ------------------------------------------------------------------

  /** The waiting turn does not die with a signal in its hands. */
  predicate HandsSafe(w: World, evs: seq<Event>)
    decreases |evs|
  {
    evs == [] || (!(evs[0] == Crash && w.turn.Held?) && HandsSafe(Do(w, evs[0]), evs[1..]))
  }

  lemma {:induction false} SentGrows(w: World, evs: seq<Event>)
    ensures w.sent <= Run(w, evs).sent
    decreases |evs|
  {
    if evs != [] {
      EventSent(w, evs[0]);
      SentGrows(Do(w, evs[0]), evs[1..]);
    }
  }

  /** A record and a second copy on its way make two. */
  lemma RecordAlone(w: World, x: nat)
    requires Conserved(w) && w.sent <= [x]
    ensures w.log != [] ==> w.landing == [] && !w.turn.Held?
  {
    if w.log != [] {
      var y := w.log[|w.log| - 1];
      var z := if w.landing != [] then w.landing[|w.landing| - 1].1 else if w.turn.Held? then w.turn.signal else y;
      SentAtMost(w.sent, x, y);
      SentAtMost(w.sent, x, z);
      assert Copies(w, z) == Times(w.sent, z) && Copies(w, y) == Times(w.sent, y);
      assert Times(w.log, y) >= 1 && (w.landing != [] ==> Landing(w.landing, z) >= 1);
    }
  }

  lemma SentAtMost(sent: seq<nat>, x: nat, y: nat)
    requires sent <= [x]
    ensures Times(sent, y) <= One(x, y)
  {
    if sent != [] { assert sent == [x] && sent[..0] == []; }
  }

  lemma NothingLost(w: World, ev: Event, x: nat)
    requires Conserved(w) && w.sent <= [x] && w.lost == [] && !(ev == Crash && w.turn.Held?)
    ensures Do(w, ev).lost == []
  {
    RecordAlone(w, x);
  }

  lemma {:induction false} OneSignalSafe(w: World, evs: seq<Event>, x: nat)
    requires Conserved(w) && w.lost == [] && Run(w, evs).sent == [x] && HandsSafe(w, evs)
    ensures Conserved(Run(w, evs)) && Run(w, evs).lost == []
    decreases |evs|
  {
    if evs != [] {
      SentGrows(w, evs);
      NothingLost(w, evs[0], x);
      EventConserved(w, evs[0]);
      OneSignalSafe(Do(w, evs[0]), evs[1..], x);
    }
  }

  /**
   * With one signal on the token, and no turn dying with it in hand, nothing is lost; once no one is
   * handling it, it is recorded exactly once or still buffered, and not both.
   */
  lemma OneSignalOnce(evs: seq<Event>, x: nat)
    requires Run(Start(), evs).sent == [x] && HandsSafe(Start(), evs)
    ensures var w := Run(Start(), evs);
            && w.lost == []
            && (w.arriving == [] && w.missed == [] && w.landing == [] && !w.turn.Held? ==>
                 Times(w.log, x) + Times(w.buffer, x) == 1)
  {
    StartConserved();
    OneSignalSafe(Start(), evs, x);
    var w := Run(Start(), evs);
    assert Copies(w, x) == Times(w.sent, x);
    assert [x][..0] == [];
  }

  // ---- two at a time -------------------------------------------------------------------------

  lemma {:induction false} RunMore(w: World, evs: seq<Event>, ev: Event)
    ensures Run(w, evs + [ev]) == Do(Run(w, evs), ev)
    decreases |evs|
  {
    if evs == [] {
      assert [ev][1..] == [];
    } else {
      assert (evs + [ev])[1..] == evs[1..] + [ev];
      RunMore(Do(w, evs[0]), evs[1..], ev);
    }
  }

  lemma {:induction false} NoCrashSafe(w: World, evs: seq<Event>)
    requires Crash !in evs
    ensures HandsSafe(w, evs)
    decreases |evs|
  {
    if evs != [] { NoCrashSafe(Do(w, evs[0]), evs[1..]); }
  }

  /** One more event of a run from the start, in which no turn dies. */
  lemma Then(evs: seq<Event>, w: World, ev: Event) returns (evs': seq<Event>, w': World)
    requires w == Run(Start(), evs) && Crash !in evs && ev != Crash
    ensures evs' == evs + [ev] && w' == Do(w, ev) == Run(Start(), evs') && Crash !in evs'
  {
    RunMore(Start(), evs, ev);
    evs', w' := evs + [ev], Do(w, ev);
  }

  /** A signal that finds no waiter is buffered. */
  lemma Buffers(evs: seq<Event>, w: World, b: nat) returns (evs': seq<Event>, w': World)
    requires w == Run(Start(), evs) && Crash !in evs && w.waiter == None && w.arriving == [] && w.missed == []
    ensures w' == Run(Start(), evs') && Crash !in evs'
    ensures w' == w.(buffer := w.buffer + [b], rechecking := w.rechecking + 1, sent := w.sent + [b])
  {
    evs', w' := Then(evs, w, Send(b));
    assert w' == w.(arriving := [b], sent := w.sent + [b]);
    evs', w' := Then(evs', w', Look(0));
    assert w' == w.(missed := [b], sent := w.sent + [b]);
    evs', w' := Then(evs', w', Buffer(0));
  }

  /** The run finds nothing, the first signal is buffered, and the run takes it on its second look. */
  lemma TakenLate(a: nat) returns (evs: seq<Event>, w: World)
    ensures w == Run(Start(), evs) && Crash !in evs
    ensures w == Start().(turn := Held(0, a, true), waiter := Some(0), rechecking := 1, sent := [a])
  {
    evs, w := Then([], Start(), Begin);
    evs, w := Then(evs, w, Step);
    evs, w := Buffers(evs, w, a);
    assert w == Start().(turn := Register(0), buffer := [a], rechecking := 1, sent := [a]);
    evs, w := Then(evs, w, Step);
    evs, w := Then(evs, w, Step);
  }

  /** It records the first signal, and before it unregisters the second finds its waiter. */
  lemma TakenTwice(a: nat, b: nat) returns (evs: seq<Event>, w: World)
    ensures w == Run(Start(), evs) && Crash !in evs
    ensures w.log == [a] && w.lost == [] && w.landing == [(0, b)] && w.sent == [a, b]
  {
    evs, w := TakenLate(a);
    evs, w := Then(evs, w, Step);
    assert w == Start().(turn := Unregister(0), waiter := Some(0), rechecking := 1, sent := [a], log := [a]);
    evs, w := Then(evs, w, Send(b));
    evs, w := Then(evs, w, Look(0));
  }

  /**
   * Two signals racing on one token can both write the same wait: the run takes the first from the
   * buffer on its second look, records it, and before it unregisters the second finds its waiter.
   */
  lemma TwoSignalsCollide(a: nat, b: nat) returns (evs: seq<Event>)
    ensures var w := Run(Start(), evs); w.sent == [a, b] && w.log == [b] && w.lost == [a] && HandsSafe(Start(), evs)
  {
    var w;
    evs, w := TakenTwice(a, b);
    evs, w := Then(evs, w, Land(0));
    NoCrashSafe(Start(), evs);
  }

  // ---- a wake lost ---------------------------------------------------------------------------

  /** Asleep with no waiter, and no one about to deliver. */
  predicate Forgotten(w: World) { w.turn.Asleep? && w.waiter == None && w.claimed == [] && w.landing == [] }

  lemma ForgottenStays(w: World, ev: Event, x: nat)
    requires Forgotten(w) && ev != Begin && ev != Crash
    ensures var w' := Do(w, ev);
            && Forgotten(w') && w'.turn == w.turn && w'.log == w.log && w'.lost == w.lost && w.buffer <= w'.buffer
            && Copies(w', x) - Copies(w, x) == Times(w'.sent, x) - Times(w.sent, x)
  {
    EventCopies(w, ev, x);
    EventSent(w, ev);
    if ev.Send? { TimesMore(w.sent, ev.signal, x); }
  }

  lemma {:induction false} SleepsOn(w: World, evs: seq<Event>, x: nat)
    requires Forgotten(w) && Begin !in evs && Crash !in evs
    ensures var w' := Run(w, evs);
            && Forgotten(w') && w'.turn == w.turn && w'.log == w.log && w'.lost == w.lost && w.buffer <= w'.buffer
            && Copies(w', x) - Copies(w, x) == Times(w'.sent, x) - Times(w.sent, x)
    decreases |evs|
  {
    if evs != [] {
      ForgottenStays(w, evs[0], x);
      SleepsOn(Do(w, evs[0]), evs[1..], x);
    }
  }

  /**
   * A wait given up stays lost: whatever is signalled afterwards, until something else begins a turn
   * the run sleeps on and records nothing, and every payload ends up in the buffer.
   */
  lemma GivenUpSleeps(evs: seq<Event>, at: nat, later: seq<Event>, x: nat)
    requires var w := Run(Start(), evs); w.turn == Asleep(at) && |w.log| <= at && w.claimed == [] && w.landing == []
    requires GivenUp(Start(), evs, at, false) && Begin !in later && Crash !in later
    ensures var w := Run(Start(), evs); var w' := Run(w, later);
            && w'.turn == Asleep(at) && w'.log == w.log && w.buffer <= w'.buffer
            && (w'.arriving == [] && w'.missed == [] ==>
                  Times(w'.buffer, x) + Times(w.sent, x)
                  == Times(w.arriving, x) + Times(w.missed, x) + Times(w.buffer, x) + Times(w'.sent, x))
  {
    var w := Run(Start(), evs);
    RunKept(Start(), evs, at, false);
    assert w.waiter == None;
    SleepsOn(w, later, x);
  }

  /** The first signal is buffered before the run looks, and its signaller has its second look to come. */
  lemma TakenAtOnce(a: nat) returns (evs: seq<Event>, w: World)
    ensures w == Run(Start(), evs) && Crash !in evs
    ensures w == Start().(log := [a], rechecking := 1, sent := [a])
  {
    evs, w := Buffers([], Start(), a);
    assert w == Start().(buffer := [a], rechecking := 1, sent := [a]);
    evs, w := Then(evs, w, Begin);
    assert w == Start().(turn := Check(0), buffer := [a], rechecking := 1, sent := [a]);
    evs, w := Then(evs, w, Step);
    assert w == Start().(turn := Held(0, a, false), rechecking := 1, sent := [a]);
    evs, w := Then(evs, w, Step);
    assert w.log == [a] && w.lost == [];
  }

  /**
   * The run's next wait finds nothing, registers and sleeps; the first signaller's second look takes its
   * waiter and drops it.
   */
  lemma DroppedAsleep(a: nat) returns (evs: seq<Event>, w: World)
    ensures w == Run(Start(), evs) && Crash !in evs
    ensures w == Start().(log := [a], turn := Asleep(1), sent := [a])
  {
    evs, w := TakenAtOnce(a);
    evs, w := Then(evs, w, Begin);
    evs, w := Then(evs, w, Step);
    evs, w := Then(evs, w, Step);
    evs, w := Then(evs, w, Step);
    evs, w := Then(evs, w, Step);
    assert w == Start().(log := [a], turn := Asleep(1), waiter := Some(1), rechecking := 1, sent := [a]);
    evs, w := Then(evs, w, LookAgain);
    assert w == Start().(log := [a], turn := Asleep(1), claimed := [1], sent := [a]);
    evs, w := Then(evs, w, Reclaim);
  }

  /**
   * A wake is lost on a token two waits share, with no turn dying and no signal dropped: the second
   * signal is buffered while the run sleeps, and no one has anything left to do.
   */
  lemma LostWakeRun(a: nat, b: nat) returns (evs: seq<Event>)
    ensures Run(Start(), evs) == World([a], [b], None, Asleep(1), [], [], 0, [], [], [], [a, b])
    ensures GivenUp(Start(), evs, 1, false) && NoSpill(Start(), evs) && Crash !in evs
  {
    var w;
    evs, w := DroppedAsleep(a);
    evs, w := Buffers(evs, w, b);
    evs, w := Then(evs, w, LookAgain);
    NoLostWake(evs, 1);
    RunSpills(Start(), evs);
  }
}
