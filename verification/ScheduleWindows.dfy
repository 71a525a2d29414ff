/** Which windows of a schedule start, while pollers race to read its row, start its runs and advance it. */
module ScheduleWindows {
  import opened Common
  import opened Schedules

  /**
   * How far apart reads may be: the interval less the jitter, and with a rule against missed windows
   * the grace it allows, whichever is less.
   */
  function MaxGap(spec: Spec): int {
    var gap, grace := spec.everyMs - MaxJitter(spec), ON_TIME_GRACE_MS + spec.jitterMs - MaxJitter(spec);
    if spec.skipMissed && grace < gap then grace else gap
  }

  /** The poll is to start its window's run: no run overlaps, and the window is not missed. */
  predicate ToStart(spec: Spec, poll: Poll)
    requires Proper(spec)
  {
    Starts(spec, poll.read, poll.now, false)
  }

  /**
   * Pollers take their times no further apart than `MaxGap` and go on until their window's run has
   * started, however they interleave, and nobody pauses or resumes the schedule. `last` is the latest
   * time taken.
   */
  predicate Steady(spec: Spec, w: World, last: int, evs: seq<Event>)
    requires Proper(spec)
    decreases |evs|
  {
    evs == [] || (
      && (match evs[0]
          case Tick(_) => true
          case Read(p, now) => p !in w.polls && now <= w.clock && now <= last + MaxGap(spec)
          case StartRun(_, _, _) => true
          case Commit(p) => p in w.polls && ToStart(spec, w.polls[p]) ==> w.polls[p].fired
          case _ => false)
      && Steady(spec, Do(spec, w, evs[0]), Later(last, evs[0]), evs[1..]))
  }

  function Later(last: int, ev: Event): int { if ev.Read? && ev.now > last then ev.now else last }

  /** The latest time at which a poller read. */
  function LastRead(last: int, evs: seq<Event>): int
    decreases |evs|
  {
    if evs == [] then last else LastRead(Later(last, evs[0]), evs[1..])
  }

  /** A poller has read the row at window `x`, and is still to start its run. */
  ghost predicate Held(spec: Spec, w: World, x: int)
    requires Proper(spec)
  {
    exists p :: p in w.polls && ToStart(spec, w.polls[p]) && LatestWindow(spec, w.polls[p].now) == x
  }

  ghost predicate Covered(spec: Spec, w: World, x: int)
    requires Proper(spec)
  {
    x in w.started || Held(spec, w, x)
  }

  /** A window of the schedule, from its first on. */
  predicate IsWindow(spec: Spec, first: int, x: int)
    requires Proper(spec)
  {
    x % spec.everyMs == 0 && first <= x
  }

  ghost predicate PollIn(spec: Spec, w: World, first: int, last: int, poll: Poll)
    requires Proper(spec)
  {
    && poll.now <= last && poll.read.window.Some? && first <= poll.read.window.value && RowOk(spec, poll.read)
    && poll.read.nextFireAt.value <= poll.now
    && (poll.fired ==> LatestWindow(spec, poll.now) in w.started)
  }

  /**
   * What steady polling keeps: every window before the row's is started or held, and if the row was
   * due at the latest read, so is every window up to that read.
   */
  ghost predicate KeepsUp(spec: Spec, w: World, first: int, last: int)
    requires Proper(spec)
  {
    && RowOk(spec, w.row) && first <= w.row.window.value && !w.row.paused
    && (last < first || MaxJitter(spec) <= spec.everyMs)
    && (forall p | p in w.polls :: PollIn(spec, w, first, last, w.polls[p]))
    && (forall x | IsWindow(spec, first, x) && x < w.row.window.value :: Covered(spec, w, x))
    && (w.row.nextFireAt.value <= last ==> forall x | IsWindow(spec, first, x) && x <= last :: Covered(spec, w, x))
    && (forall x | x in w.started :: IsWindow(spec, first, x) && x <= last)
  }

  /** Polls that stay and runs that stay started keep windows covered. */
  lemma StaysCovered(spec: Spec, w: World, w': World, x: int)
    requires Proper(spec) && Covered(spec, w, x) && w.started <= w'.started
    requires forall p | p in w.polls && ToStart(spec, w.polls[p]) ::
               || (p in w'.polls && w'.polls[p].read == w.polls[p].read && w'.polls[p].now == w.polls[p].now)
               || LatestWindow(spec, w.polls[p].now) in w'.started
    ensures Covered(spec, w', x)
  {
    if x !in w.started {
      var p :| p in w.polls && ToStart(spec, w.polls[p]) && LatestWindow(spec, w.polls[p].now) == x;
      if p in w'.polls && w'.polls[p].read == w.polls[p].read && w'.polls[p].now == w.polls[p].now {
        assert ToStart(spec, w'.polls[p]);
      }
    }
  }

  lemma AllStayCovered(spec: Spec, w: World, w': World)
    requires Proper(spec) && w.started <= w'.started
    requires forall p | p in w.polls && ToStart(spec, w.polls[p]) ::
               || (p in w'.polls && w'.polls[p].read == w.polls[p].read && w'.polls[p].now == w.polls[p].now)
               || LatestWindow(spec, w.polls[p].now) in w'.started
    ensures forall x | Covered(spec, w, x) :: Covered(spec, w', x)
  {
    forall x | Covered(spec, w, x) ensures Covered(spec, w', x) { StaysCovered(spec, w, w', x); }
  }

  /** A read of the due row at a later time than any before takes a window that is covered, or is on time for it. */
  lemma ReadTakes(spec: Spec, w: World, first: int, last: int, now: int)
    requires Proper(spec) && KeepsUp(spec, w, first, last) && last < now <= last + MaxGap(spec)
             && w.row.nextFireAt.value <= now
    ensures var latest := LatestWindow(spec, now);
            && IsWindow(spec, first, latest)
            && (Covered(spec, w, latest) || Starts(spec, w.row, now, false))
            && forall x | IsWindow(spec, first, x) && x <= now && x != latest :: Covered(spec, w, x)
  {
    var latest := LatestWindow(spec, now);
    Advances(spec, w.row, now, true);
    forall x | IsWindow(spec, first, x) && x <= now && x != latest ensures Covered(spec, w, x) {
      if latest < x { NoneBetween(spec, latest, x); }
      NoneBetween(spec, x, latest);
      if w.row.window.value <= x { NoneBetweenOrSame(spec, w.row.window.value, x); }
    }
  }

  lemma NoneBetweenOrSame(spec: Spec, a: int, b: int)
    requires Proper(spec) && a % spec.everyMs == 0 && b % spec.everyMs == 0 && a <= b
    ensures a == b || b >= a + spec.everyMs
  {
    if a < b { NoneBetween(spec, a, b); }
  }

  lemma ReadKeepsUp(spec: Spec, w: World, first: int, last: int, p: nat, now: int)
    requires Proper(spec) && KeepsUp(spec, w, first, last)
    requires p !in w.polls && now <= w.clock && now <= last + MaxGap(spec)
    ensures KeepsUp(spec, Do(spec, w, Read(p, now)), first, if now > last then now else last)
  {
    var w' := Do(spec, w, Read(p, now));
    AllStayCovered(spec, w, w');
    if Due(w.row, now) {
      Advances(spec, w.row, now, true);
      if now > last {
        ReadTakes(spec, w, first, last, now);
        var latest := LatestWindow(spec, now);
        if Starts(spec, w.row, now, false) { assert ToStart(spec, w'.polls[p]); assert Held(spec, w', latest); }
      }
    }
  }

  lemma StartKeepsUp(spec: Spec, w: World, first: int, last: int, p: nat, overlapping: bool, succeeds: bool)
    requires Proper(spec) && KeepsUp(spec, w, first, last)
    ensures KeepsUp(spec, Do(spec, w, StartRun(p, overlapping, succeeds)), first, last)
  {
    var w' := Do(spec, w, StartRun(p, overlapping, succeeds));
    AllStayCovered(spec, w, w');
    if p in w.polls { Advances(spec, w.polls[p].read, w.polls[p].now, true); }
  }

  lemma CommitKeepsUp(spec: Spec, w: World, first: int, last: int, p: nat)
    requires Proper(spec) && KeepsUp(spec, w, first, last)
    requires p in w.polls && ToStart(spec, w.polls[p]) ==> w.polls[p].fired
    ensures KeepsUp(spec, Do(spec, w, Commit(p)), first, last)
  {
    var w' := Do(spec, w, Commit(p));
    AllStayCovered(spec, w, w');
    if Lands(w, p) {
      var poll := w.polls[p];
      Advances(spec, poll.read, poll.now, poll.fired);
      forall x | IsWindow(spec, first, x) && x < w'.row.window.value ensures x <= last {
        if x > LatestWindow(spec, poll.now) { NoneBetween(spec, LatestWindow(spec, poll.now), x); }
      }
    }
  }

  lemma EventKeepsUp(spec: Spec, w: World, first: int, last: int, ev: Event)
    requires Proper(spec) && KeepsUp(spec, w, first, last) && Steady(spec, w, last, [ev])
    ensures KeepsUp(spec, Do(spec, w, ev), first, Later(last, ev))
  {
    match ev
    case Tick(_) => AllStayCovered(spec, w, Do(spec, w, ev));
    case Read(p, now) => ReadKeepsUp(spec, w, first, last, p, now);
    case StartRun(p, overlapping, succeeds) => StartKeepsUp(spec, w, first, last, p, overlapping, succeeds);
    case Commit(p) => CommitKeepsUp(spec, w, first, last, p);
  }

  lemma {:induction false} RunKeepsUp(spec: Spec, w: World, first: int, last: int, evs: seq<Event>)
    requires Proper(spec) && KeepsUp(spec, w, first, last) && Steady(spec, w, last, evs)
    ensures KeepsUp(spec, Run(spec, w, evs), first, LastRead(last, evs))
    decreases |evs|
  {
    if evs != [] {
      EventKeepsUp(spec, w, first, last, evs[0]);
      RunKeepsUp(spec, Do(spec, w, evs[0]), first, Later(last, evs[0]), evs[1..]);
    }
  }

  /**
   * No window is skipped, however pollers race: while they read at most `MaxGap` apart and none gives
   * up, every window from the schedule's first whose time, jitter included, has come by the latest
   * read has its run, or is held by a poller still to start it; and no other window ever has a run.
   */
  lemma NoWindowSkipped(spec: Spec, clock: int, evs: seq<Event>)
    requires Proper(spec) && Steady(spec, Init(spec, clock), clock, evs)
    ensures var w, first, last := Run(spec, Init(spec, clock), evs), NextWindow(spec, clock), LastRead(clock, evs);
            && (forall x | IsWindow(spec, first, x) && x + Jitter(spec, x) <= last ::
                 x in w.started || Held(spec, w, x))
            && (forall x | x in w.started :: IsWindow(spec, first, x) && x <= last)
  {
    var w, first, last := Run(spec, Init(spec, clock), evs), NextWindow(spec, clock), LastRead(clock, evs);
    RunKeepsUp(spec, Init(spec, clock), first, clock, evs);
    forall x | IsWindow(spec, first, x) && x + Jitter(spec, x) <= last ensures Covered(spec, w, x) {
      if w.row.window.value <= x { NoneBetweenOrSame(spec, w.row.window.value, x); }
    }
  }
}
