/**
 * Persisted schedules with a fixed interval: pollers that read a due row, start its window's run and
 * advance the row by a compare-and-set on its next fire time, racing one another.
 */
module Schedules {
  import opened Common

  const ON_TIME_GRACE_MS := 60_000

  /** `offset` is the hash that spreads a window's fire within the jitter. */
  datatype Spec = Spec(everyMs: int, jitterMs: int, skipOverlap: bool, skipMissed: bool, offset: int -> nat)

  datatype Record = Record(
    paused: bool, nextFireAt: Option<int>, window: Option<int>,
    lastFireAt: Option<int>, fires: nat)

  /** `toSpec` takes a positive interval only. */
  predicate Proper(spec: Spec) { spec.everyMs > 0 }

  /** `latestWindowAtOrBefore`. */
  function LatestWindow(spec: Spec, at: int): (w: int)
    requires Proper(spec)
    ensures w <= at < w + spec.everyMs && w % spec.everyMs == 0
  {
    Windows(at, spec.everyMs);
    (at / spec.everyMs) * spec.everyMs
  }

  /** `nextWindowAfter`. */
  function NextWindow(spec: Spec, after: int): (w: int)
    requires Proper(spec)
    ensures after < w <= after + spec.everyMs && w % spec.everyMs == 0
  {
    Windows(after, spec.everyMs);
    (after / spec.everyMs + 1) * spec.everyMs
  }

  lemma Windows(at: int, every: int)
    requires every > 0
    ensures (at / every) * every <= at < (at / every) * every + every
    ensures ((at / every) * every) % every == 0 && (at / every + 1) * every == (at / every) * every + every
    ensures ((at / every + 1) * every) % every == 0
  {
    Multiple(at / every, every);
    Multiple(at / every + 1, every);
  }

  lemma Scaled(d: int, m: int)
    requires m > 0
    ensures d >= 1 ==> d * m >= m
    ensures d <= -1 ==> d * m <= -m
  {
    Ordered(1, d, m);
    Ordered(d, -1, m);
  }

  lemma Multiple(k: int, m: int)
    requires m > 0
    ensures (k * m) % m == 0 && (k * m) / m == k
  {
    var x := k * m;
    var d := k - x / m;
    assert d * m == x - (x / m) * m;
    Scaled(d, m);
  }

  /** Two windows have a whole interval between them. */
  lemma NoneBetween(spec: Spec, a: int, b: int)
    requires Proper(spec) && a % spec.everyMs == 0 && b % spec.everyMs == 0 && a < b
    ensures b >= a + spec.everyMs
  {
    var m := spec.everyMs;
    Ordered(b / m, a / m, m);
    Ordered(a / m + 1, b / m, m);
  }

  lemma Ordered(x: int, y: int, m: int)
    requires m > 0
    ensures x <= y ==> x * m <= y * m
  {
  }

  /** `jitterFor`: less than the jitter, the same for a window each time. */
  function Jitter(spec: Spec, window: int): (j: int)
    ensures 0 <= j && (spec.jitterMs > 0 ==> j < spec.jitterMs) && (spec.jitterMs <= 0 ==> j == 0)
  {
    if spec.jitterMs <= 0 then 0 else spec.offset(window) % spec.jitterMs
  }

  predicate Due(r: Record, now: int) { !r.paused && r.nextFireAt.Some? && r.nextFireAt.value <= now }

  /** Would a poll at `now`, on what it read, start a run? */
  predicate Starts(spec: Spec, r: Record, now: int, overlapping: bool)
    requires Proper(spec)
  {
    var latest := LatestWindow(spec, now);
    var onTime := now - latest <= ON_TIME_GRACE_MS + spec.jitterMs;
    !(spec.skipMissed && !onTime) && !(r.window.Some? && latest < r.window.value) && !(spec.skipOverlap && overlapping)
  }

  /** The row `fire` writes from the row it read; `fired` when the start went through. */
  function Advanced(spec: Spec, read: Record, now: int, fired: bool): Record
    requires Proper(spec)
  {
    var latest := LatestWindow(spec, now);
    var next := NextWindow(spec, latest);
    Record(read.paused, Some(next + Jitter(spec, next)), Some(next),
           if fired then Some(latest) else read.lastFireAt, if fired then read.fires + 1 else read.fires)
  }

  /** `write` for a new schedule, and `resume`. */
  function Resumed(spec: Spec, r: Record, now: int): Record
    requires Proper(spec)
  {
    var window := NextWindow(spec, now);
    r.(paused := false, nextFireAt := Some(window + Jitter(spec, window)), window := Some(window))
  }

  // ---- racing pollers and resumes ------------------------------------------------------------

  /**
   * What a poller holds: the row it read, its own time, whether its start went through; `seen` fires had
   * been committed.
   */
  datatype Poll = Poll(read: Record, now: int, fired: bool, seen: nat)

  /** What a resume holds: the row it read, and the time it took to compute the next window from. */
  datatype Resuming = Resuming(read: Record, seen: nat, now: Option<int>)

  /** `fired` are the windows of the advances committed, `started` those whose runs exist. */
  datatype World = World(
    clock: int, row: Record, polls: map<nat, Poll>, resumes: map<nat, Resuming>, fired: seq<int>, started: set<int>)

  datatype Event =
    | Tick(ms: nat)
    | Read(p: nat, now: int)            // `now` was taken before the read
    | StartRun(p: nat, overlapping: bool, succeeds: bool)
    | Commit(p: nat)
    | Pause
    | ResumeRead(q: nat)
    | ResumeTime(q: nat)
    | ResumeWrite(q: nat)               // with no expected fire time: it always lands

  function Init(spec: Spec, clock: int): World
    requires Proper(spec)
  {
    World(clock, Resumed(spec, Record(false, None, None, None, 0), clock), map[], map[], [], {})
  }

  /** The commit's compare-and-set passes. */
  predicate Lands(w: World, p: nat) { p in w.polls && w.row.nextFireAt == w.polls[p].read.nextFireAt }

  function Do(spec: Spec, w: World, ev: Event): World
    requires Proper(spec)
  {
    match ev
    case Tick(ms) => w.(clock := w.clock + ms)
    case Read(p, now) =>
      if Due(w.row, now) && now <= w.clock then w.(polls := w.polls[p := Poll(w.row, now, false, |w.fired|)]) else w
    case StartRun(p, overlapping, succeeds) =>
      if p in w.polls && Starts(spec, w.polls[p].read, w.polls[p].now, overlapping) && succeeds then
        w.(polls := w.polls[p := w.polls[p].(fired := true)],
            started := w.started + {LatestWindow(spec, w.polls[p].now)})
      else w
    case Commit(p) =>
      if Lands(w, p) then
        var poll := w.polls[p];
        w.(row := Advanced(spec, poll.read, poll.now, poll.fired).(paused := w.row.paused), polls := w.polls - {p},
           fired := if poll.fired then w.fired + [LatestWindow(spec, poll.now)] else w.fired)
      else w.(polls := w.polls - {p})
    case Pause => w.(row := w.row.(paused := true))
    case ResumeRead(q) => w.(resumes := w.resumes[q := Resuming(w.row, |w.fired|, None)])
    case ResumeTime(q) =>
      if q in w.resumes then w.(resumes := w.resumes[q := w.resumes[q].(now := Some(w.clock))]) else w
    case ResumeWrite(q) =>
      if q in w.resumes && w.resumes[q].now.Some?
      then w.(row := Resumed(spec, w.resumes[q].read, w.resumes[q].now.value), resumes := w.resumes - {q}) else w
  }

  function Run(spec: Spec, w: World, evs: seq<Event>): World
    requires Proper(spec)
    decreases |evs|
  {
    if evs == [] then w else Run(spec, Do(spec, w, evs[0]), evs[1..])
  }

  /** A row waits for a window of the interval, past everything it has fired. */
  predicate RowOk(spec: Spec, r: Record)
    requires Proper(spec)
  {
    && r.window.Some? && r.window.value % spec.everyMs == 0
    && r.nextFireAt == Some(r.window.value + Jitter(spec, r.window.value))
    && (r.lastFireAt.Some? ==> r.lastFireAt.value < r.window.value)
  }

  /** A row's history is the list's: its last fire, its count, and windows that strictly increase. */
  predicate Counts(r: Record, fired: seq<int>) {
    && r.fires == |fired| && (r.lastFireAt == if fired == [] then None else Some(fired[|fired| - 1]))
    && forall i, j | 0 <= i < j < |fired| :: fired[i] < fired[j]
  }

  /** A write from a row read before the latest fire was committed. */
  predicate Loses(w: World, ev: Event) {
    || (ev.Commit? && Lands(w, ev.p) && w.polls[ev.p].seen < |w.fired|)
    || (ev.ResumeWrite? && ev.q in w.resumes && w.resumes[ev.q].now.Some? && w.resumes[ev.q].seen < |w.fired|)
  }

  predicate LosesNothing(spec: Spec, w: World, evs: seq<Event>)
    requires Proper(spec)
    decreases |evs|
  {
    evs == [] || (!Loses(w, evs[0]) && LosesNothing(spec, Do(spec, w, evs[0]), evs[1..]))
  }

  /** The row tells the history of what was fired, in every state of the run. */
  predicate AlwaysCounts(spec: Spec, w: World, evs: seq<Event>)
    requires Proper(spec)
    decreases |evs|
  {
    Counts(w.row, w.fired) && (evs == [] || AlwaysCounts(spec, Do(spec, w, evs[0]), evs[1..]))
  }

  predicate SameHistory(a: Record, b: Record) { a.lastFireAt == b.lastFireAt && a.fires == b.fires }

  /** A row once read: it told the history then, and still does if nothing has been fired since. */
  predicate ReadOk(w: World, read: Record, seen: nat) {
    && seen <= |w.fired| && read.fires == seen && (seen == |w.fired| ==> SameHistory(read, w.row))
  }

  predicate PollOk(spec: Spec, w: World, p: Poll)
    requires Proper(spec)
  {
    && ReadOk(w, p.read, p.seen) && p.read.nextFireAt.Some? && p.read.nextFireAt.value <= p.now <= w.clock
    && (p.fired ==> LatestWindow(spec, p.now) in w.started)
  }

  predicate ResumeOk(w: World, r: Resuming) {
    && ReadOk(w, r.read, r.seen)
    && (r.read.lastFireAt.Some? ==>
         r.read.lastFireAt.value <= w.clock && (r.now.Some? ==> r.read.lastFireAt.value <= r.now.value))
  }

  predicate Valid(spec: Spec, w: World)
    requires Proper(spec)
  {
    && RowOk(spec, w.row) && Counts(w.row, w.fired)
    && (w.row.lastFireAt.Some? ==> w.row.lastFireAt.value <= w.clock)
    && (forall x | x in w.fired :: x in w.started)
    && (forall p | p in w.polls :: PollOk(spec, w, w.polls[p]))
    && (forall q | q in w.resumes :: ResumeOk(w, w.resumes[q]))
  }

  /** The window a due poll fires is no earlier than the row's, and the row it writes waits beyond the poll. */
  lemma Advances(spec: Spec, r: Record, now: int, fired: bool)
    requires Proper(spec) && RowOk(spec, r) && r.nextFireAt.value <= now
    ensures LatestWindow(spec, now) >= r.window.value
    ensures Advanced(spec, r, now, fired).window == Some(LatestWindow(spec, now) + spec.everyMs)
    ensures RowOk(spec, Advanced(spec, r, now, fired)) && Advanced(spec, r, now, fired).nextFireAt.value > now
  {
    var latest := LatestWindow(spec, now);
    if latest < r.window.value { NoneBetween(spec, latest, r.window.value); }
    NoneBetween(spec, latest, NextWindow(spec, latest));
  }

  /** Only a row's history goes into the row a poll writes. */
  lemma AdvancedFrom(spec: Spec, read: Record, row: Record, now: int, fired: bool)
    requires Proper(spec) && SameHistory(read, row)
    ensures Advanced(spec, read, now, fired).(paused := row.paused) == Advanced(spec, row, now, fired)
  {
  }

  lemma CountsMore(r: Record, fired: seq<int>, latest: int)
    requires Counts(r, fired) && (r.lastFireAt.Some? ==> r.lastFireAt.value < latest)
    ensures Counts(r.(lastFireAt := Some(latest), fires := r.fires + 1), fired + [latest])
    ensures forall x | x in fired + [latest] :: x in fired || x == latest
  {
  }

  lemma CommitKeeps(spec: Spec, w: World, p: nat)
    requires Proper(spec) && Valid(spec, w) && !Loses(w, Commit(p))
    ensures Valid(spec, Do(spec, w, Commit(p)))
  {
    if Lands(w, p) {
      var poll := w.polls[p];
      assert PollOk(spec, w, poll);
      AdvancedFrom(spec, poll.read, w.row, poll.now, poll.fired);
      Advances(spec, w.row, poll.now, poll.fired);
      CountsMore(w.row, w.fired, LatestWindow(spec, poll.now));
    }
  }

  lemma ResumeKeeps(spec: Spec, w: World, q: nat)
    requires Proper(spec) && Valid(spec, w) && !Loses(w, ResumeWrite(q))
    ensures Valid(spec, Do(spec, w, ResumeWrite(q)))
  {
    if q in w.resumes && w.resumes[q].now.Some? {
      assert ResumeOk(w, w.resumes[q]);
      assert SameHistory(w.resumes[q].read, w.row);
    }
  }

  lemma EventKeeps(spec: Spec, w: World, ev: Event)
    requires Proper(spec) && Valid(spec, w) && !Loses(w, ev)
    ensures Valid(spec, Do(spec, w, ev))
  {
    match ev
    case Commit(p) => CommitKeeps(spec, w, p);
    case ResumeWrite(q) => ResumeKeeps(spec, w, q);
    case _ =>
  }

  /** A write that loses a fire shows at once: the row counts fewer than were fired. */
  lemma LossShows(spec: Spec, w: World, ev: Event)
    requires Proper(spec) && Valid(spec, w) && Loses(w, ev)
    ensures !Counts(Do(spec, w, ev).row, Do(spec, w, ev).fired)
  {
    match ev
    case Commit(p) => assert PollOk(spec, w, w.polls[p]);
    case ResumeWrite(q) => assert ResumeOk(w, w.resumes[q]);
    case _ =>
  }

  lemma {:induction false} RunKeeps(spec: Spec, w: World, evs: seq<Event>)
    requires Proper(spec) && Valid(spec, w) && LosesNothing(spec, w, evs)
    ensures Valid(spec, Run(spec, w, evs))
    decreases |evs|
  {
    if evs != [] {
      EventKeeps(spec, w, evs[0]);
      RunKeeps(spec, Do(spec, w, evs[0]), evs[1..]);
    }
  }

  lemma {:induction false} CountsIffFrom(spec: Spec, w: World, evs: seq<Event>)
    requires Proper(spec) && Valid(spec, w)
    ensures AlwaysCounts(spec, w, evs) <==> LosesNothing(spec, w, evs)
    decreases |evs|
  {
    if evs != [] {
      var next := Do(spec, w, evs[0]);
      if Loses(w, evs[0]) {
        LossShows(spec, w, evs[0]);
      } else {
        EventKeeps(spec, w, evs[0]);
        CountsIffFrom(spec, next, evs[1..]);
      }
    }
  }

  /**
   * Racing pollers, pauses and resumes: in every state of a run the windows fired strictly increase,
   * `fires` counts them and `lastFireAt` is the last of them, exactly when no write of the run, a
   * poller's whose compare-and-set passes or a resume's, is made from a row read before the latest
   * fire was committed.
   */
  lemma CountsIff(spec: Spec, clock: int, evs: seq<Event>)
    requires Proper(spec)
    ensures AlwaysCounts(spec, Init(spec, clock), evs) <==> LosesNothing(spec, Init(spec, clock), evs)
  {
    CountsIffFrom(spec, Init(spec, clock), evs);
  }

  /** A resume writes at the instant it takes its time at, and over the row it read. */
  predicate AtOnce(w: World, ev: Event) {
    ev.ResumeWrite? && ev.q in w.resumes && w.resumes[ev.q].now.Some? ==>
      w.resumes[ev.q].now == Some(w.clock) && w.resumes[ev.q].read.(paused := w.row.paused) == w.row
  }

  predicate ResumesAtOnce(spec: Spec, w: World, evs: seq<Event>)
    requires Proper(spec)
    decreases |evs|
  {
    evs == [] || (AtOnce(w, evs[0]) && ResumesAtOnce(spec, Do(spec, w, evs[0]), evs[1..]))
  }

  /** The row's next fire has not gone back behind any poller's, and has moved on from those of an older history. */
  predicate Ahead(w: World) {
    w.row.nextFireAt.Some? && forall p | p in w.polls ::
      && w.polls[p].read.nextFireAt.Some? && w.polls[p].read.nextFireAt.value <= w.row.nextFireAt.value
      && (w.polls[p].seen < |w.fired| ==> w.polls[p].read.nextFireAt.value < w.row.nextFireAt.value)
  }

  lemma AtOnceKeeps(spec: Spec, w: World, ev: Event)
    requires Proper(spec) && Valid(spec, w) && Ahead(w) && AtOnce(w, ev)
    ensures !Loses(w, ev) && Ahead(Do(spec, w, ev))
  {
    match ev
    case Commit(p) =>
      if Lands(w, p) {
        assert PollOk(spec, w, w.polls[p]);
        AdvanceMoves(spec, w.polls[p].read, w.polls[p].now, w.polls[p].fired);
      }
    case ResumeWrite(q) =>
      if q in w.resumes {
        assert ResumeOk(w, w.resumes[q]);
        forall p | p in w.polls ensures w.polls[p].read.nextFireAt.value <= w.clock {
          assert PollOk(spec, w, w.polls[p]);
        }
      }
    case _ =>
  }

  lemma AdvanceMoves(spec: Spec, read: Record, now: int, fired: bool)
    requires Proper(spec)
    ensures Advanced(spec, read, now, fired).nextFireAt.Some? && Advanced(spec, read, now, fired).nextFireAt.value > now
  {
    NoneBetween(spec, LatestWindow(spec, now), NextWindow(spec, LatestWindow(spec, now)));
  }

  lemma {:induction false} AtOnceLosesNothing(spec: Spec, w: World, evs: seq<Event>)
    requires Proper(spec) && Valid(spec, w) && Ahead(w) && ResumesAtOnce(spec, w, evs)
    ensures LosesNothing(spec, w, evs)
    decreases |evs|
  {
    if evs != [] {
      AtOnceKeeps(spec, w, evs[0]);
      EventKeeps(spec, w, evs[0]);
      AtOnceLosesNothing(spec, Do(spec, w, evs[0]), evs[1..]);
    }
  }

  /**
   * So pollers racing with one another and with pauses never lose a fire, nor with resumes that write
   * over the row they read at the instant they took: the windows fired strictly increase, `fires`
   * counts them, `lastFireAt` is the last of them, and each has its run.
   */
  lemma FiresInOrder(spec: Spec, clock: int, evs: seq<Event>)
    requires Proper(spec) && ResumesAtOnce(spec, Init(spec, clock), evs)
    ensures AlwaysCounts(spec, Init(spec, clock), evs)
    ensures var w := Run(spec, Init(spec, clock), evs);
            Counts(w.row, w.fired) && forall x | x in w.fired :: x in w.started
  {
    AtOnceLosesNothing(spec, Init(spec, clock), evs);
    CountsIff(spec, clock, evs);
    RunKeeps(spec, Init(spec, clock), evs);
  }

  // ---- what each event decides ---------------------------------------------------------------

  /** A multiple of the interval no later than `at`, with `at` before the next one, is the window. */
  lemma WindowIs(spec: Spec, at: int, window: int)
    requires Proper(spec) && window % spec.everyMs == 0 && window <= at < window + spec.everyMs
    ensures LatestWindow(spec, at) == window && NextWindow(spec, at) == window + spec.everyMs
  {
    var latest := LatestWindow(spec, at);
    if latest < window { NoneBetween(spec, latest, window); }
    if window < latest { NoneBetween(spec, window, latest); }
    Windows(at, spec.everyMs);
  }

  /** A poll takes the row up exactly when it is not paused and its fire time has come. */
  lemma ReadIff(spec: Spec, w: World, p: nat, now: int)
    requires Proper(spec) && p !in w.polls && now <= w.clock
    ensures var w' := Do(spec, w, Read(p, now));
            && (p in w'.polls <==> !w.row.paused && w.row.nextFireAt.Some? && w.row.nextFireAt.value <= now)
            && (p in w'.polls ==> w'.polls[p] == Poll(w.row, now, false, |w.fired|))
  {
  }

  /**
   * A poll starts the latest window's run exactly when it has not missed the window, or catches up;
   * when that window is not before the one the row waits for; and when no run overlaps, or may.
   */
  lemma StartRunIff(spec: Spec, w: World, p: nat, overlapping: bool, succeeds: bool, window: int)
    requires Proper(spec) && p in w.polls && window % spec.everyMs == 0
    requires window <= w.polls[p].now < window + spec.everyMs
    ensures var poll, w' := w.polls[p], Do(spec, w, StartRun(p, overlapping, succeeds));
            w' == if && succeeds
                     && (spec.skipMissed ==> poll.now - window <= 60_000 + spec.jitterMs)
                     && (poll.read.window.Some? ==> poll.read.window.value <= window)
                     && (spec.skipOverlap ==> !overlapping)
                  then w.(polls := w.polls[p := Poll(poll.read, poll.now, true, poll.seen)],
                          started := w.started + {window})
                  else w
  {
    WindowIs(spec, w.polls[p].now, window);
  }

  /**
   * A commit that lands waits for the next window, counts the fire if there was one, and leaves a
   * pause as it is.
   */
  lemma CommitIs(spec: Spec, w: World, p: nat, window: int)
    requires Proper(spec) && p in w.polls && window % spec.everyMs == 0
    requires window <= w.polls[p].now < window + spec.everyMs
    ensures var poll, w', next := w.polls[p], Do(spec, w, Commit(p)), window + spec.everyMs;
            if w.row.nextFireAt != poll.read.nextFireAt then w'.row == w.row && w'.fired == w.fired
            else
              && w'.row.paused == w.row.paused && w'.row.window == Some(next)
              && w'.row.nextFireAt == Some(next + if spec.jitterMs <= 0 then 0 else spec.offset(next) % spec.jitterMs)
              && w'.row.lastFireAt == (if poll.fired then Some(window) else poll.read.lastFireAt)
              && w'.row.fires == poll.read.fires + (if poll.fired then 1 else 0)
              && w'.fired == if poll.fired then w.fired + [window] else w.fired
  {
    WindowIs(spec, w.polls[p].now, window);
    WindowIs(spec, window, window);
  }

  /** A resume lifts the pause and waits for the first window after its time: none before it is caught up. */
  lemma ResumeIs(spec: Spec, w: World, q: nat, next: int)
    requires Proper(spec) && q in w.resumes && w.resumes[q].now.Some? && next % spec.everyMs == 0
    requires next - spec.everyMs <= w.resumes[q].now.value < next
    ensures var read, row := w.resumes[q].read, Do(spec, w, ResumeWrite(q)).row;
            row == Record(false, Some(next + if spec.jitterMs <= 0 then 0 else spec.offset(next) % spec.jitterMs),
                          Some(next), read.lastFireAt, read.fires)
  {
    var m := spec.everyMs;
    Multiple(next / m - 1, m);
    assert (next / m - 1) * m == next - m;
    WindowIs(spec, w.resumes[q].now.value, next - m);
  }

  /** What no write can break: pollers hold rows that were due, and what was fired has its run. */
  predicate Polled(spec: Spec, w: World)
    requires Proper(spec)
  {
    && (forall x | x in w.fired :: x in w.started)
    && forall p | p in w.polls ::
         && w.polls[p].read.nextFireAt.Some? && w.polls[p].read.nextFireAt.value <= w.polls[p].now <= w.clock
         && (w.polls[p].fired ==> LatestWindow(spec, w.polls[p].now) in w.started)
  }

  lemma {:induction false} RunPolled(spec: Spec, w: World, evs: seq<Event>)
    requires Proper(spec) && Polled(spec, w)
    ensures Polled(spec, Run(spec, w, evs))
    decreases |evs|
  {
    if evs != [] { RunPolled(spec, Do(spec, w, evs[0]), evs[1..]); }
  }

  /**
   * Whatever the resumes: every advance committed leaves the next fire beyond the poll's own time, and
   * later than it was.
   */
  lemma AdvanceGoesOn(spec: Spec, clock: int, evs: seq<Event>, p: nat)
    requires Proper(spec) && Lands(Run(spec, Init(spec, clock), evs), p)
    ensures var w := Run(spec, Init(spec, clock), evs); var w' := Do(spec, w, Commit(p));
            && w.row.nextFireAt.Some? && w'.row.nextFireAt.Some?
            && w'.row.nextFireAt.value > w.polls[p].now && w'.row.nextFireAt.value > w.row.nextFireAt.value
  {
    RunPolled(spec, Init(spec, clock), evs);
    var w := Run(spec, Init(spec, clock), evs);
    AdvanceMoves(spec, w.polls[p].read, w.polls[p].now, w.polls[p].fired);
  }

  // ---- fires lost to a resume ----------------------------------------------------------------

  lemma {:induction false} RunMore(spec: Spec, w: World, evs: seq<Event>, ev: Event)
    requires Proper(spec)
    ensures Run(spec, w, evs + [ev]) == Do(spec, Run(spec, w, evs), ev)
    decreases |evs|
  {
    if evs == [] {
      assert [ev][1..] == [];
    } else {
      assert (evs + [ev])[1..] == evs[1..] + [ev];
      RunMore(spec, Do(spec, w, evs[0]), evs[1..], ev);
    }
  }

  /** One more event of a run from a schedule written at time zero. */
  lemma Then(spec: Spec, evs: seq<Event>, w: World, ev: Event) returns (evs': seq<Event>, w': World)
    requires Proper(spec) && w == Run(spec, Init(spec, 0), evs)
    ensures evs' == evs + [ev] && w' == Do(spec, w, ev) == Run(spec, Init(spec, 0), evs')
  {
    RunMore(spec, Init(spec, 0), evs, ev);
    evs', w' := evs + [ev], Do(spec, w, ev);
  }

  /** Without jitter, overlap rule or catch-up rule. */
  predicate Plain(spec: Spec) { Proper(spec) && spec.jitterMs == 0 && !spec.skipOverlap && !spec.skipMissed }

  function RowAt(window: int, lastFireAt: Option<int>, fires: nat): Record {
    Record(false, Some(window), Some(window), lastFireAt, fires)
  }

  /** The first windows, and the rows written at them. */
  lemma FirstWindows(spec: Spec, last: Option<int>, fires: nat)
    requires Plain(spec)
    ensures var e := spec.everyMs;
            && NextWindow(spec, 0) == e && LatestWindow(spec, e) == e && LatestWindow(spec, 2 * e) == 2 * e
            && NextWindow(spec, e) == 2 * e && NextWindow(spec, 2 * e) == 3 * e
            && Starts(spec, RowAt(e, last, fires), e, false) && Starts(spec, RowAt(2 * e, last, fires), 2 * e, false)
  {
    var e := spec.everyMs;
    Multiple(0, e);
    Multiple(1, e);
    Multiple(2, e);
  }

  /** A schedule, a resume that has read it and taken its time, and the first window come due. */
  lemma ResumeHeld(spec: Spec) returns (evs: seq<Event>, w: World)
    requires Plain(spec)
    ensures w == Run(spec, Init(spec, 0), evs)
    ensures var e := spec.everyMs;
            w == World(e, RowAt(e, None, 0), map[], map[0 := Resuming(RowAt(e, None, 0), 0, Some(0))], [], {})
  {
    FirstWindows(spec, None, 0);
    evs, w := [], Init(spec, 0);
    evs, w := Then(spec, evs, w, ResumeRead(0));
    evs, w := Then(spec, evs, w, ResumeTime(0));
    evs, w := Then(spec, evs, w, Tick(spec.everyMs));
  }

  /** Read, started and committed by one poller without interruption. */
  lemma FiresOnce(spec: Spec, evs: seq<Event>, w: World, p: nat) returns (evs': seq<Event>, w': World)
    requires Plain(spec) && w == Run(spec, Init(spec, 0), evs) && w.clock == spec.everyMs && p !in w.polls
    requires w.row == RowAt(spec.everyMs, None, 0)
    ensures w' == Run(spec, Init(spec, 0), evs')
    ensures var e := spec.everyMs;
            w' == w.(row := RowAt(2 * e, Some(e), 1), fired := w.fired + [e], started := w.started + {e})
  {
    var e := spec.everyMs;
    FirstWindows(spec, None, 0);
    evs', w' := Then(spec, evs, w, Read(p, e));
    evs', w' := Then(spec, evs', w', StartRun(p, false, true));
    evs', w' := Then(spec, evs', w', Commit(p));
    assert w.polls[p := Poll(w.row, e, false, |w.fired|)][p := Poll(w.row, e, true, |w.fired|)] - {p} == w.polls;
  }

  /**
   * A resume that reads, lets a poller fire a window, and then writes, undoes the fire: the row no
   * longer counts it, and the next poll fires and commits the same window again.
   */
  lemma FiredTwiceRun(spec: Spec) returns (evs: seq<Event>)
    requires Plain(spec)
    ensures var e, w := spec.everyMs, Run(spec, Init(spec, 0), evs);
            w.fired == [e, e] && w.row.fires == 1 && !AlwaysCounts(spec, Init(spec, 0), evs)
  {
    var e := spec.everyMs;
    var w;
    evs, w := ResumeHeld(spec);
    evs, w := FiresOnce(spec, evs, w, 0);
    FirstWindows(spec, None, 0);
    evs, w := Then(spec, evs, w, ResumeWrite(0));
    assert w.row == RowAt(e, None, 0);
    evs, w := FiresOnce(spec, evs, w, 1);
    assert [] + [e] + [e] == [e, e];
    if AlwaysCounts(spec, Init(spec, 0), evs) { LastCounts(spec, Init(spec, 0), evs); }
  }

  /** The resume is under way; one poller has read the first window, another has moved the row on without firing it. */
  lemma SetBackHeld(spec: Spec) returns (evs: seq<Event>, w: World)
    requires Plain(spec)
    ensures w == Run(spec, Init(spec, 0), evs)
    ensures var e := spec.everyMs; var first := RowAt(e, None, 0);
            w == World(2 * e, RowAt(2 * e, None, 0),
                map[1 := Poll(first, e, false, 0), 2 := Poll(RowAt(2 * e, None, 0), 2 * e, true, 0)],
                       map[0 := Resuming(first, 0, Some(0))], [], {2 * e})
  {
    var e := spec.everyMs;
    FirstWindows(spec, None, 0);
    evs, w := ResumeHeld(spec);
    evs, w := Then(spec, evs, w, Read(1, e));
    evs, w := Then(spec, evs, w, Read(2, e));
    evs, w := Then(spec, evs, w, Commit(2));
    assert w.row == RowAt(2 * e, None, 0) && w.polls == map[1 := Poll(RowAt(e, None, 0), e, false, 0)];
    evs, w := Then(spec, evs, w, Tick(e));
    evs, w := Then(spec, evs, w, Read(2, 2 * e));
    evs, w := Then(spec, evs, w, StartRun(2, false, true));
    assert w.polls == map[1 := Poll(RowAt(e, None, 0), e, false, 0), 2 := Poll(RowAt(2 * e, None, 0), 2 * e, true, 0)];
  }

  /**
   * A resume loses a fire even when none is committed between its read and its write: by setting the
   * row back it lets two pollers that read different rows both pass their compare-and-sets.
   */
  lemma SetBackRun(spec: Spec) returns (evs: seq<Event>)
    requires Plain(spec)
    ensures var e, w := spec.everyMs, Run(spec, Init(spec, 0), evs); w.fired == [e, 2 * e] && w.row.fires == 1
  {
    var e := spec.everyMs;
    var w;
    evs, w := SetBackHeld(spec);
    FirstWindows(spec, None, 0);
    evs, w := Then(spec, evs, w, ResumeWrite(0));
    assert w.row == RowAt(e, None, 0) && w.fired == [];
    evs, w := Then(spec, evs, w, StartRun(1, false, true));
    evs, w := Then(spec, evs, w, Commit(1));
    assert w.row == RowAt(2 * e, Some(e), 1) && w.fired == [] + [e]
           && w.polls[2] == Poll(RowAt(2 * e, None, 0), 2 * e, true, 0);
    evs, w := Then(spec, evs, w, Commit(2));
  }

  lemma {:induction false} LastCounts(spec: Spec, w: World, evs: seq<Event>)
    requires Proper(spec) && AlwaysCounts(spec, w, evs)
    ensures var w' := Run(spec, w, evs); Counts(w'.row, w'.fired)
    decreases |evs|
  {
    if evs != [] { LastCounts(spec, Do(spec, w, evs[0]), evs[1..]); }
  }

  // ---- windows skipped -----------------------------------------------------------------------

  /** A poll that nothing interleaves with, of a schedule that allows overlap and catches up, whose start succeeds. */
  function PollOnce(spec: Spec, r: Record, now: int): Record
    requires Proper(spec)
  {
    if Due(r, now) then Advanced(spec, r, now, Starts(spec, r, now, false)) else r
  }

  /** The rows a sequence of polls makes, and the windows they fire. */
  function Polls(spec: Spec, r: Record, times: seq<int>): (Record, seq<int>)
    requires Proper(spec)
    decreases |times|
  {
    if times == [] then (r, [])
    else
      var (end, fired) := Polls(spec, PollOnce(spec, r, times[0]), times[1..]);
      (end, if Due(r, times[0]) && Starts(spec, r, times[0], false) then
          [LatestWindow(spec, times[0])] + fired else fired)
  }

  /** A due poll fires the row's own window exactly when it comes before the next one. */
  lemma SkipsIff(spec: Spec, r: Record, now: int)
    requires Proper(spec) && RowOk(spec, r) && Due(r, now)
    ensures LatestWindow(spec, now) == r.window.value <==> now < r.window.value + spec.everyMs
    ensures !spec.skipMissed ==> Starts(spec, r, now, false)
  {
    Advances(spec, r, now, true);
    var latest := LatestWindow(spec, now);
    if r.window.value < latest { NoneBetween(spec, r.window.value, latest); }
  }

  function MaxJitter(spec: Spec): int { if spec.jitterMs > 0 then spec.jitterMs else 0 }

  /** From `from` on, polls are at most the interval less the jitter apart. */
  predicate Frequent(spec: Spec, from: int, times: seq<int>)
    decreases |times|
  {
    times == [] || (from <= times[0] <= from + spec.everyMs - MaxJitter(spec) && Frequent(spec, times[0], times[1..]))
  }

  /** Windows `first`, `first + every`, and so on. */
  predicate Consecutive(spec: Spec, first: int, fired: seq<int>)
    decreases |fired|
  {
    fired == [] || (fired[0] == first && Consecutive(spec, first + spec.everyMs, fired[1..]))
  }

  /**
   * Polls that nothing interleaves with, frequent enough for the interval and its jitter, commit
   * consecutive windows.
   */
  lemma {:induction false} OnePoller(spec: Spec, r: Record, from: int, times: seq<int>)
    requires Proper(spec) && RowOk(spec, r) && !r.paused && !spec.skipMissed && MaxJitter(spec) < spec.everyMs
    requires from < r.nextFireAt.value && Frequent(spec, from, times)
    ensures var (end, fired) := Polls(spec, r, times);
            && Consecutive(spec, r.window.value, fired) && end.window == Some(r.window.value + |fired| * spec.everyMs)
    decreases |times|
  {
    if times != [] {
      var now := times[0];
      var next := PollOnce(spec, r, now);
      if Due(r, now) {
        SkipsIff(spec, r, now);
        Advances(spec, r, now, true);
        OnePoller(spec, next, now, times[1..]);
        var (end, fired) := Polls(spec, next, times[1..]);
        var all := [r.window.value] + fired;
        assert all[1..] == fired;
        assert (|fired| + 1) * spec.everyMs == |fired| * spec.everyMs + spec.everyMs;
      } else {
        OnePoller(spec, r, now, times[1..]);
      }
    }
  }

  // ---- the client ----------------------------------------------------------------------------

  class Client {
    const spec: Spec
    var rows: map<string, Record>

    constructor (spec: Spec)
      ensures this.spec == spec && rows == map[]
    {
      this.spec, rows := spec, map[];
    }

    /** The compare-and-set: writes only over the next fire time the caller read. */
    method UpdateSchedule(id: string, row: Record, expected: Option<int>) returns (written: bool)
      modifies this
      ensures written <==> id in old(rows) && old(rows)[id].nextFireAt == expected
      ensures rows == if written then old(rows)[id := row.(paused := old(rows)[id].paused)] else old(rows)
    {
      if id !in rows || rows[id].nextFireAt != expected {
        return false;
      }
      rows := rows[id := row.(paused := rows[id].paused)];
      written := true;
    }

    /** The end of `resume`: an update that expects nothing of the row, from the row read before. */
    method Resume(id: string, read: Record, now: int)
      requires Proper(spec)
      modifies this
      ensures rows == if id in old(rows) then old(rows)[id := Resumed(spec, read, now)] else old(rows)
    {
      if id in rows {
        var window := NextWindow(spec, now);
        rows := rows[id := read.(paused := false, nextFireAt := Some(window + Jitter(spec, window)),
            window := Some(window))];
      }
    }

    /** One due row: starts its window's run, and advances it unless another poller has. */
    method Fire(id: string, read: Record, now: int, overlapping: bool, succeeds: bool) returns (started: Option<int>)
      requires Proper(spec)
      modifies this
      ensures started == if Starts(spec, read, now, overlapping) && succeeds then
              Some(LatestWindow(spec, now)) else None
      ensures rows == if id in old(rows) && old(rows)[id].nextFireAt == read.nextFireAt
                      then old(rows)[id := Advanced(spec, read, now, started.Some?).(paused := old(rows)[id].paused)]
                        else old(rows)
    {
      var latest := LatestWindow(spec, now);
      var next := NextWindow(spec, latest);
      var onTime := now - latest <= ON_TIME_GRACE_MS + spec.jitterMs;
      started := None;
      if !(spec.skipMissed && !onTime) && !(read.window.Some? && latest < read.window.value)
        && !(spec.skipOverlap && overlapping) && succeeds {
        started := Some(latest);
      }
      var row := Record(read.paused, Some(next + Jitter(spec, next)), Some(next),
                        if started.Some? then Some(latest) else read.lastFireAt,
                        if started.Some? then read.fires + 1 else read.fires);
      var _ := UpdateSchedule(id, row, read.nextFireAt);
    }
  }
}
