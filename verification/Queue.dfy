/** In-process admission: concurrency slots, a rate limit, and priority, fairness and arrival order. */
module Queue {
  import opened Common

  datatype Algorithm = Fixed | Sliding
  datatype RateLimit = RateLimit(limit: nat, periodMs: nat, algorithm: Algorithm)
  datatype Config = Config(concurrency: Option<nat>, rateLimit: Option<RateLimit>, retryMs: nat,
      fairByKey: bool, lifo: bool)

  /** `retryAt` is absent where the code's arithmetic yields no number (a sliding limit of zero). */
  datatype Admission = Admitted | Blocked(retryAt: Option<int>)

  datatype Item = Item(priority: Option<int>, key: Option<string>, waiterId: Option<string>)

  /** Arrival order; a call that is not registered comes after every waiter. */
  datatype Arrival = Seen(at: nat) | Unseen

  datatype Waiter = Waiter(priority: int, key: Option<string>, arrival: Arrival)

  predicate Earlier(a: Arrival, b: Arrival) { a.Seen? && (b == Unseen || a.at < b.at) }

  function PriorityOf(item: Item): int { if item.priority.Some? then item.priority.value else 0 }

  function ServedOf(served: map<string, nat>, key: Option<string>): nat {
    if key.Some? && key.value in served then served[key.value] else 0
  }

  /** `better`: `a` should be admitted before `b`. */
  predicate Better(c: Config, served: map<string, nat>, a: Waiter, b: Waiter) {
    if a.priority != b.priority then a.priority > b.priority
    else if c.fairByKey && ServedOf(served, a.key) != ServedOf(served, b.key) then
      ServedOf(served, a.key) < ServedOf(served, b.key)
    else if c.lifo then Earlier(b.arrival, a.arrival)
    else Earlier(a.arrival, b.arrival)
  }

  /** Strict and total on waiters that arrived apart. */
  lemma BetterIsOrder(c: Config, served: map<string, nat>, x: Waiter, y: Waiter, z: Waiter)
    ensures !Better(c, served, x, x)
    ensures Better(c, served, x, y) && Better(c, served, y, z) ==> Better(c, served, x, z)
    ensures x.arrival != y.arrival ==> Better(c, served, x, y) || Better(c, served, y, x)
    ensures !(Better(c, served, x, y) && Better(c, served, y, x))
  {
  }

  /**
   * The policy: the higher priority first; then, by key, the key served less recently; then the earlier
   * arrival, or the later one for a queue that is last in, first out, where a call not registered has
   * come last.
   */
  lemma BetterIs(c: Config, served: map<string, nat>, a: Waiter, b: Waiter)
    ensures a.priority > b.priority ==> Better(c, served, a, b)
    ensures a.priority == b.priority && !c.fairByKey && a.arrival.Seen? && b.arrival.Seen? ==>
              (Better(c, served, a, b) <==> if c.lifo then a.arrival.at > b.arrival.at else a.arrival.at < b.arrival.at)
    ensures a.priority == b.priority && !c.fairByKey && a.arrival == Unseen && b.arrival.Seen? ==>
              (Better(c, served, a, b) <==> c.lifo) && (Better(c, served, b, a) <==> !c.lifo)
    ensures a.priority == b.priority && c.fairByKey && b.key.Some? && b.key.value in served ==>
              && (a.key.Some? && a.key.value in served ==>
                    (served[a.key.value] < served[b.key.value] ==> Better(c, served, a, b)))
              && (served[b.key.value] > 0 && (a.key == None || a.key.value !in served) ==> Better(c, served, a, b))
  {
  }

  // ---- the rate limit, over a history of admissions ------------------------------------------

  predicate Rising(s: seq<int>) { forall i, j | 0 <= i < j < |s| :: s[i] <= s[j] }

  /** How many of the first `n` admissions fall in `from .. from + period`. */
  function InWindow(admits: seq<int>, n: nat, from: int, period: nat): nat
    requires n <= |admits|
  {
    if n == 0 then 0 else InWindow(admits, n - 1, from, period) + if from <= admits[n - 1] < from + period then 1 else 0
  }

  /** Admissions `gap` apart are a period apart. */
  ghost predicate Spaced(admits: seq<int>, gap: nat, period: nat) {
    forall i, j | 0 <= i && j == i + gap && j < |admits| :: admits[j] >= admits[i] + period
  }

  lemma {:induction false} EarlyOut(admits: seq<int>, n: nat, k: nat, from: int, period: nat)
    requires k <= n <= |admits| && forall i | 0 <= i < k :: admits[i] < from
    ensures InWindow(admits, n, from, period) <= n - k
  {
    if n > 0 { EarlyOut(admits, n - 1, if k < n then k else n - 1, from, period); }
  }

  /** Then no half-open window of a period's length holds more than `gap` of them. */
  lemma {:induction false} SpacedBoundsWindow(admits: seq<int>, n: nat, gap: nat, from: int, period: nat)
    requires Rising(admits) && Spaced(admits, gap, period) && n <= |admits|
    ensures InWindow(admits, n, from, period) <= gap
  {
    if n > 0 {
      SpacedBoundsWindow(admits, n - 1, gap, from, period);
      if from <= admits[n - 1] < from + period && gap < n {
        assert admits[n - 1] >= admits[n - 1 - gap] + period;
        EarlyOut(admits, n, n - gap, from, period);
      } else if gap >= n {
        EarlyOut(admits, n, 0, from, period);
      }
    }
  }

  // ---- what the controller keeps -------------------------------------------------------------

  /** The window each admission fell in, and where each window starts: the fixed algorithm's history. */
  datatype Windows = Windows(of: seq<nat>, starts: seq<int>)

  /** Slots taken are admissions less effective releases, within the limit. */
  ghost predicate Slots(c: Config, inFlight: nat, released: nat, admits: seq<int>) {
    inFlight + released == |admits| && (c.concurrency.Some? ==> inFlight <= c.concurrency.value)
  }

  ghost predicate Clocked(admits: seq<int>, last: int) {
    Rising(admits) && (admits != [] ==> admits[|admits| - 1] <= last)
  }

  /** The rolling list is the latest admissions, and lacks none younger than a period. */
  ghost predicate Rolling(rl: RateLimit, admits: seq<int>, sliding: seq<int>, last: int) {
    && |sliding| <= |admits| && sliding == admits[|admits| - |sliding|..]
    && |sliding| <= rl.limit
    && (forall i | 0 <= i < |admits| - |sliding| :: admits[i] <= last - rl.periodMs)
    && Spaced(admits, rl.limit, rl.periodMs)
  }

  /** The counter is the current window's admissions; windows start at least a period apart. */
  ghost predicate Stepping(rl: RateLimit, admits: seq<int>, w: Windows, start: int, count: nat, last: int) {
    && |w.of| == |admits| && |w.starts| > 0 && w.starts[|w.starts| - 1] == start
    && count <= |w.of| && count <= rl.limit
    && (forall i | 0 <= i < |w.of| :: w.of[i] < |w.starts| && (w.of[i] == |w.starts| - 1 <==> i >= |w.of| - count))
    && (forall i | 0 <= i < |w.of| - rl.limit :: w.of[i] < w.of[i + rl.limit])
    && (forall k | 0 < k < |w.starts| :: w.starts[k] >= w.starts[k - 1] + rl.periodMs)
    && (|w.starts| > 1 ==> start <= last)
    && (forall i | 0 <= i < |w.of| :: InItsWindow(w, admits, i))
  }

  ghost predicate InItsWindow(w: Windows, admits: seq<int>, i: nat)
    requires i < |w.of| && i < |admits| && w.of[i] < |w.starts|
  {
    (w.of[i] > 0 ==> w.starts[w.of[i]] <= admits[i])
      && (w.of[i] + 1 < |w.starts| ==> admits[i] <= w.starts[w.of[i] + 1])
  }

  ghost predicate Rated(c: Config, admits: seq<int>, sliding: seq<int>, w: Windows, start: int, count: nat, last: int) {
    match c.rateLimit
    case None => true
    case Some(rl) =>
      if rl.algorithm == Sliding then Rolling(rl, admits, sliding, last)
        else Stepping(rl, admits, w, start, count, last)
  }

  /** Waiters arrived apart, before the next arrival. */
  ghost predicate Queued(waiters: map<string, Waiter>, next: nat) {
    && (forall w | w in waiters :: waiters[w].arrival.Seen? && waiters[w].arrival.at < next)
    && (forall v, w | v in waiters && w in waiters && v != w :: waiters[v].arrival != waiters[w].arrival)
  }

  /** A key's tick is the place of its latest service. */
  ghost predicate Serving(keyServed: map<string, nat>, tick: nat, served: seq<string>) {
    && tick == |served|
    && (forall k | k in keyServed :: 0 < keyServed[k] <= |served| && served[keyServed[k] - 1] == k)
    && (forall i | 0 <= i < |served| :: served[i] in keyServed && i < keyServed[served[i]])
  }

  /** In two fixed windows' worth of admissions a whole window lies between the first and the last. */
  lemma FixedSpaced(rl: RateLimit, admits: seq<int>, w: Windows, start: int, count: nat, last: int)
    requires Stepping(rl, admits, w, start, count, last)
    ensures Spaced(admits, 2 * rl.limit, rl.periodMs)
  {
    forall i, j | 0 <= i && j == i + 2 * rl.limit && j < |admits| ensures admits[j] >= admits[i] + rl.periodMs {
      var n := rl.limit;
      assert w.of[i] < w.of[i + n] < w.of[i + n + n];
      assert InItsWindow(w, admits, i) && InItsWindow(w, admits, j);
      StartsApart(rl, w, w.of[i] + 1, w.of[j]);
    }
  }

  lemma {:induction false} StartsApart(rl: RateLimit, w: Windows, a: nat, b: nat)
    requires a < b < |w.starts| && forall k | 0 < k < |w.starts| :: w.starts[k] >= w.starts[k - 1] + rl.periodMs
    ensures w.starts[b] >= w.starts[a] + rl.periodMs
  {
    if a + 1 < b { StartsApart(rl, w, a, b - 1); }
  }

  lemma PruneOne(rl: RateLimit, admits: seq<int>, sliding: seq<int>, last: int)
    requires Rolling(rl, admits, sliding, last) && Rising(admits) && sliding != [] && sliding[0] <= last - rl.periodMs
    ensures Rolling(rl, admits, sliding[1..], last)
  {
    assert sliding[0] == admits[|admits| - |sliding|];
    assert sliding[1..] == admits[|admits| - |sliding| + 1..];
  }

  lemma NextWindow(rl: RateLimit, admits: seq<int>, w: Windows, start: int, count: nat, last: int, now: int)
    requires Stepping(rl, admits, w, start, count, last) && Clocked(admits, last) && last <= now
             && now - start >= rl.periodMs
    ensures Stepping(rl, admits, w.(starts := w.starts + [now]), now, 0, now)
  {
    var w' := w.(starts := w.starts + [now]);
    forall i | 0 <= i < |w.of| ensures w'.of[i] < |w'.starts| && InItsWindow(w', admits, i) {
      assert InItsWindow(w, admits, i);
      assert admits[i] <= admits[|admits| - 1];
    }
  }

  lemma RollMore(rl: RateLimit, admits: seq<int>, sliding: seq<int>, now: int)
    requires Rolling(rl, admits, sliding, now) && |sliding| < rl.limit
    ensures Rolling(rl, admits + [now], sliding + [now], now)
  {
    var more := admits + [now];
    assert sliding + [now] == more[|more| - |sliding + [now]|..];
    forall i, j | 0 <= i && j == i + rl.limit && j < |more| ensures more[j] >= more[i] + rl.periodMs {
      if j < |admits| { assert admits[j] >= admits[i] + rl.periodMs; }
    }
  }

  lemma StepMore(rl: RateLimit, admits: seq<int>, w: Windows, start: int, count: nat, now: int)
    requires Stepping(rl, admits, w, start, count, now) && count < rl.limit
    ensures Stepping(rl, admits + [now], w.(of := w.of + [|w.starts| - 1]), start, count + 1, now)
  {
    var w', more := w.(of := w.of + [|w.starts| - 1]), admits + [now];
    forall i | 0 <= i < |w'.of| ensures InItsWindow(w', more, i) {
      if i < |w.of| { assert InItsWindow(w, admits, i); }
    }
  }

  /** Would the rolling window let a call in at `t`, after these admissions? */
  ghost predicate SlidingPasses(rl: RateLimit, admits: seq<int>, t: int) {
    rl.limit > 0 && (|admits| < rl.limit || admits[|admits| - rl.limit] <= t - rl.periodMs)
  }

  lemma PassesIff(rl: RateLimit, admits: seq<int>, sliding: seq<int>, now: int)
    requires Rolling(rl, admits, sliding, now) && Rising(admits) && (sliding != [] ==> sliding[0] > now - rl.periodMs)
    ensures |sliding| < rl.limit <==> SlidingPasses(rl, admits, now)
    ensures |sliding| == rl.limit > 0 ==> forall t :: SlidingPasses(rl, admits, t) <==> t >= sliding[0] + rl.periodMs
  {
    if sliding != [] { assert sliding[0] == admits[|admits| - |sliding|]; }
  }

  lemma {:induction false} LateIn(admits: seq<int>, n: nat, k: nat, from: int, period: nat)
    requires k <= n <= |admits| && forall i | k <= i < n :: from <= admits[i] < from + period
    ensures InWindow(admits, n, from, period) >= n - k
  {
    if k < n { LateIn(admits, n - 1, k, from, period); }
  }

  /** The rolling window lets a call in exactly when fewer than `limit` were admitted in the last period. */
  lemma PassesByCount(rl: RateLimit, admits: seq<int>, now: int)
    requires Clocked(admits, now)
    ensures SlidingPasses(rl, admits, now) <==>
              InWindow(admits, |admits|, now - rl.periodMs + 1, rl.periodMs) < rl.limit
  {
    var n, from := |admits|, now - rl.periodMs + 1;
    if n < rl.limit {
      EarlyOut(admits, n, 0, from, rl.periodMs);
    } else if rl.limit > 0 {
      if SlidingPasses(rl, admits, now) {
        EarlyOut(admits, n, n - rl.limit + 1, from, rl.periodMs);
      } else {
        LateIn(admits, n, n - rl.limit, from, rl.periodMs);
      }
    }
  }

  // ---- the controller ------------------------------------------------------------------------

  class QueueController {
    const config: Config
    var inFlight: nat
    var windowStart: int
    var windowCount: nat
    var slidingAdmits: seq<int>
    var waiters: map<string, Waiter>
    var waiterSeq: nat
    var keyServed: map<string, nat>
    var servedTick: nat

    /** When every admission was, by clock; the last reading; effective releases; keys served, in order. */
    ghost var admits: seq<int>
    ghost var last: int
    ghost var released: nat
    ghost var served: seq<string>
    ghost var windows: Windows

    ghost predicate Valid()
      reads this
    {
      && Slots(config, inFlight, released, admits) && Clocked(admits, last)
      && Rated(config, admits, slidingAdmits, windows, windowStart, windowCount, last)
      && Queued(waiters, waiterSeq) && Serving(keyServed, servedTick, served)
    }

    constructor (config: Config)
      ensures Valid() && this.config == config && admits == [] && waiters == map[] && served == [] && released == 0
    {
      this.config := config;
      inFlight, windowStart, windowCount, slidingAdmits := 0, 0, 0, [];
      waiters, waiterSeq, keyServed, servedTick := map[], 0, map[], 0;
      admits, last, released, served, windows := [], 0, 0, [], Windows([], [0]);
    }

    method Release()
      requires Valid()
      modifies this`inFlight, this`released
      ensures Valid() && inFlight == (if old(inFlight) > 0 then old(inFlight) - 1 else 0)
    {
      if inFlight > 0 {
        inFlight, released := inFlight - 1, released + 1;
      }
    }

    /** The rolling window: prunes, and on a denial names the earliest instant it can pass. */
    method SlidingCheck(rl: RateLimit, now: int) returns (denied: Option<Admission>)
      requires Clocked(admits, last) && Rolling(rl, admits, slidingAdmits, last) && now >= last
      modifies this`slidingAdmits
      ensures Rolling(rl, admits, slidingAdmits, now) && (denied == None <==> |slidingAdmits| < rl.limit)
      ensures denied == None <==> SlidingPasses(rl, admits, now)
      ensures denied.Some? ==> denied.value.Blocked?
      ensures denied.Some? && rl.limit > 0 ==>
                denied.value.retryAt.Some? && forall t :: SlidingPasses(rl, admits, t) <==>
                  t >= denied.value.retryAt.value
    {
      var cutoff := now - rl.periodMs;
      while |slidingAdmits| > 0 && slidingAdmits[0] <= cutoff
        invariant Rolling(rl, admits, slidingAdmits, now)
        decreases |slidingAdmits|
      {
        PruneOne(rl, admits, slidingAdmits, now);
        slidingAdmits := slidingAdmits[1..];
      }
      PassesIff(rl, admits, slidingAdmits, now);
      if |slidingAdmits| >= rl.limit {
        denied := Some(Blocked(if slidingAdmits == [] then None else Some(slidingAdmits[0] + rl.periodMs)));
      } else {
        denied := None;
      }
    }

    /** The fixed window: a new one starts once the last is over. */
    method FixedCheck(rl: RateLimit, now: int) returns (denied: Option<Admission>)
      requires Clocked(admits, last) && Stepping(rl, admits, windows, windowStart, windowCount, last) && now >= last
      modifies this`windowStart, this`windowCount, this`windows
      ensures Stepping(rl, admits, windows, windowStart, windowCount, now)
              && (denied == None <==> windowCount < rl.limit)
      ensures windowStart == if now - old(windowStart) >= rl.periodMs then now else old(windowStart)
      ensures windowCount == if now - old(windowStart) >= rl.periodMs then 0 else old(windowCount)
      ensures denied.Some? ==> denied.value == Blocked(Some(windowStart + rl.periodMs))
    {
      if now - windowStart >= rl.periodMs {
        NextWindow(rl, admits, windows, windowStart, windowCount, last, now);
        windowStart, windowCount := now, 0;
        windows := windows.(starts := windows.starts + [now]);
      }
      denied := if windowCount >= rl.limit then Some(Blocked(Some(windowStart + rl.periodMs))) else None;
    }

    /** The history with the rate limit's own lists, at clock reading `now`. */
    ghost predicate RateOk(now: int)
      reads this
    {
      Clocked(admits, now) && Rated(config, admits, slidingAdmits, windows, windowStart, windowCount, now)
    }

    /** The rate limit leaves room for one more at `now`. */
    ghost predicate RateRoom()
      reads this
    {
      config.rateLimit.Some? ==>
        if config.rateLimit.value.algorithm == Sliding then |slidingAdmits| < config.rateLimit.value.limit
        else windowCount < config.rateLimit.value.limit
    }

    /** Would the rate limit let a call in at `now`? */
    ghost predicate RoomAt(now: int)
      reads this
    {
      config.rateLimit.Some? ==>
        var rl := config.rateLimit.value;
        if rl.algorithm == Sliding then SlidingPasses(rl, admits, now)
        else (if now - windowStart >= rl.periodMs then 0 else windowCount) < rl.limit
    }

    /** The rate limit's denial at `now`: the earliest instant a rolling window passes, or the end of the fixed one. */
    ghost predicate RateDenial(now: int, a: Admission)
      reads this
    {
      && config.rateLimit.Some? && a.Blocked?
      && var rl := config.rateLimit.value;
         if rl.algorithm == Sliding then
           rl.limit > 0 ==> a.retryAt.Some? && forall t :: SlidingPasses(rl, admits, t) <==> t >= a.retryAt.value
         else a.retryAt == Some((if now - windowStart >= rl.periodMs then now else windowStart) + rl.periodMs)
    }

    /** The rate limit's answer. */
    method RateCheck(now: int) returns (denied: Option<Admission>)
      requires RateOk(last) && now >= last
      modifies this`slidingAdmits, this`windowStart, this`windowCount, this`windows
      ensures RateOk(now) && (denied == None <==> RateRoom())
      ensures denied == None <==> old(RoomAt(now))
      ensures denied.Some? ==> old(RateDenial(now, denied.value))
    {
      denied := None;
      if config.rateLimit.Some? {
        if config.rateLimit.value.algorithm == Sliding {
          denied := SlidingCheck(config.rateLimit.value, now);
        } else {
          denied := FixedCheck(config.rateLimit.value, now);
        }
      }
    }

    function Self(item: Item): Waiter
      reads this
    {
      if item.waiterId.Some? && item.waiterId.value in waiters then waiters[item.waiterId.value]
      else Waiter(PriorityOf(item), item.key, Unseen)
    }

    /** `item` comes before every registered waiter but itself. */
    ghost predicate First(item: Item)
      reads this
    {
      forall w | w in waiters && Some(w) != item.waiterId :: !Better(config, keyServed, waiters[w], Self(item))
    }

    /** Tracks, or refreshes, a blocked call; its arrival is stamped once. */
    method Register(id: string, item: Item)
      requires Queued(waiters, waiterSeq)
      modifies this`waiters, this`waiterSeq
      ensures Queued(waiters, waiterSeq) && id in waiters && waiterSeq >= old(waiterSeq)
      ensures waiters == old(waiters)[id := waiters[id]]
      ensures waiters[id].priority == PriorityOf(item) && waiters[id].key == item.key
      ensures waiters[id].arrival == if id in old(waiters) then old(waiters)[id].arrival else Seen(old(waiterSeq))
    {
      if id in waiters {
        waiters := waiters[id := Waiter(PriorityOf(item), item.key, waiters[id].arrival)];
      } else {
        waiters := waiters[id := Waiter(PriorityOf(item), item.key, Seen(waiterSeq))];
        waiterSeq := waiterSeq + 1;
      }
    }

    /** The scan for the best waiter: is it the caller? */
    method IsNext(item: Item) returns (next: bool)
      requires Queued(waiters, waiterSeq)
      ensures next <==> First(item)
    {
      var self := Self(item);
      var best, bestIsSelf := self, true;
      var left := waiters.Keys;
      while left != {}
        invariant left <= waiters.Keys
        invariant bestIsSelf ==> best == self
        invariant !bestIsSelf ==>
                    exists w :: w in waiters && w !in left && Some(w) != item.waiterId
                                && waiters[w] == best && Better(config, keyServed, best, self)
        invariant forall w | w in waiters && w !in left && Some(w) != item.waiterId && bestIsSelf ::
                    !Better(config, keyServed, waiters[w], self)
        decreases |left|
      {
        var w :| w in left;
        left := left - {w};
        if Some(w) != item.waiterId {
          BetterIsOrder(config, keyServed, waiters[w], best, self);
          if Better(config, keyServed, waiters[w], best) {
            best, bestIsSelf := waiters[w], false;
          }
        } else {
          BetterIsOrder(config, keyServed, self, best, self);
        }
      }
      next := bestIsSelf;
    }

    /** Takes a slot and a tick of the rate window. */
    method TakeSlot(now: int)
      requires RateOk(now) && RateRoom() && Slots(config, inFlight, released, admits)
      requires config.concurrency.Some? ==> inFlight < config.concurrency.value
      modifies this`slidingAdmits, this`windowCount, this`inFlight, this`admits, this`windows
      ensures RateOk(now) && Slots(config, inFlight, released, admits) && admits == old(admits) + [now]
    {
      if config.rateLimit.Some? {
        var rl := config.rateLimit.value;
        if rl.algorithm == Sliding {
          RollMore(rl, admits, slidingAdmits, now);
          slidingAdmits := slidingAdmits + [now];
        } else {
          StepMore(rl, admits, windows, windowStart, windowCount, now);
          windowCount := windowCount + 1;
          windows := windows.(of := windows.of + [|windows.starts| - 1]);
        }
      }
      ClockedMore(admits, now);
      admits := admits + [now];
      inFlight := inFlight + 1;
    }

    /** Clears the caller's waiter, and notes its key as served last. */
    method Serve(item: Item)
      requires Queued(waiters, waiterSeq) && Serving(keyServed, servedTick, served)
      modifies this`waiters, this`keyServed, this`servedTick, this`served
      ensures Queued(waiters, waiterSeq) && Serving(keyServed, servedTick, served)
      ensures waiters == if item.waiterId.Some? then old(waiters) - {item.waiterId.value} else old(waiters)
      ensures served == if item.key.Some? then old(served) + [item.key.value] else old(served)
    {
      if item.waiterId.Some? {
        waiters := waiters - {item.waiterId.value};
      }
      if item.key.Some? {
        ServedMore(keyServed, servedTick, served, item.key.value);
        servedTick := servedTick + 1;
        keyServed := keyServed[item.key.value := servedTick];
        served := served + [item.key.value];
      }
    }

    /** The waiters as they stood, with the caller where it stands once registered, are all behind it. */
    ghost predicate Ahead(item: Item, ws: map<string, Waiter>, next: nat, ks: map<string, nat>) {
      forall w | w in ws && Some(w) != item.waiterId :: !Better(config, ks, ws[w], CallerOf(item, ws, next))
    }

    /** The call is one of those the order is for. */
    predicate UsesOrder(item: Item) { config.fairByKey || config.lifo || item.priority.Some? || item.waiterId.Some? }

    /** It is the call's turn: no order is used, no one waits, or everyone who waits is behind it. */
    ghost predicate Turn(item: Item)
      reads this
    {
      !UsesOrder(item) || waiters == map[] || Ahead(item, waiters, waiterSeq, keyServed)
    }

    /** A turn is a turn by the policy, whatever the waiters. */
    lemma TurnInOrder(item: Item)
      requires Queued(waiters, waiterSeq) && Serving(keyServed, servedTick, served)
      ensures config.fairByKey && Turn(item) ==> Fair(waiters, served, item)
      ensures !config.fairByKey ==>
                (Turn(item) <==> (!config.lifo && item.priority == None && item.waiterId == None)
                                 || ByArrival(config.lifo, waiters, item))
    {
      if config.fairByKey {
        if Turn(item) { TurnIsFair(config, keyServed, servedTick, served, waiters, item, waiterSeq); }
      } else {
        TurnIsByArrival(config, keyServed, waiters, item, waiterSeq);
      }
    }

    predicate SlotFree()
      reads this
    {
      config.concurrency.Some? ==> inFlight < config.concurrency.value
    }

    /** With a slot free: is it the caller's turn? */
    method MayPass(item: Item) returns (pass: bool)
      requires Queued(waiters, waiterSeq)
      modifies this`waiters, this`waiterSeq
      ensures Queued(waiters, waiterSeq) && (pass <==> old(Turn(item)))
      ensures waiters == if UsesOrder(item) && old(waiters) != map[] then Registered(item, old(waiters), old(waiterSeq))
              else old(waiters)
    {
      pass := true;
      if UsesOrder(item) && waiters != map[] {
        if item.waiterId.Some? {
          Register(item.waiterId.value, item);
        }
        pass := IsNext(item);
      }
    }

    /**
     * `tryAdmit`. A call is admitted exactly when the rate limit leaves room, a slot is free and it is
     * its turn; it then takes one of each, and waits no longer. A blocked call takes nothing: one
     * denied by the rate limit is told when that passes, any other to retry, and is registered if it
     * says who it is. With fairness by key, an admitted call passes no waiter of another key and no
     * lower priority that was not served since its own key last was; without it, a call with room
     * and a slot is admitted exactly when no other waiter comes before it by priority and arrival, or no
     * order applies to it.
     */
    method TryAdmit(now: int, item: Item) returns (a: Admission)
      requires Valid() && now >= last
      modifies this
      ensures Valid() && last == now && released == old(released)
      ensures a == Admitted <==> old(RoomAt(now) && SlotFree() && Turn(item))
      ensures old(!RoomAt(now)) ==> old(RateDenial(now, a))
      ensures old(RoomAt(now)) && a != Admitted ==> a == Blocked(Some(now + config.retryMs))
      ensures admits == (if a == Admitted then old(admits) + [now] else old(admits))
      ensures served == (if a == Admitted && item.key.Some? then old(served) + [item.key.value] else old(served))
      ensures waiters == if a == Admitted then Unregistered(item, old(waiters))
                         else if old(RoomAt(now)) then Registered(item, old(waiters), old(waiterSeq)) else old(waiters)
      ensures a == Admitted && config.fairByKey ==> Fair(old(waiters), old(served), item)
      ensures !config.fairByKey && old(RoomAt(now))
              && (config.concurrency.Some? ==> old(inFlight) < config.concurrency.value) ==>
                (a == Admitted <==>
                   (!config.lifo && item.priority == None && item.waiterId == None)
                     || ByArrival(config.lifo, old(waiters), item))
    {
      TurnInOrder(item);
      var denied := RateCheck(now);
      last := now;
      if denied.Some? {
        a := denied.value;
      } else {
        a := Contend(now, item);
      }
    }

    /** The concurrency gate, and the order among those who contend for a slot. */
    method Contend(now: int, item: Item) returns (a: Admission)
      requires RateOk(now) && RateRoom() && Slots(config, inFlight, released, admits)
      requires Queued(waiters, waiterSeq) && Serving(keyServed, servedTick, served)
      modifies this`slidingAdmits, this`windowCount, this`inFlight, this`admits, this`windows
      modifies this`waiters, this`waiterSeq, this`keyServed, this`servedTick, this`served
      ensures RateOk(now) && Slots(config, inFlight, released, admits)
      ensures Queued(waiters, waiterSeq) && Serving(keyServed, servedTick, served)
      ensures a == Admitted <==> old(SlotFree() && Turn(item))
      ensures a != Admitted ==> a == Blocked(Some(now + config.retryMs))
      ensures admits == (if a == Admitted then old(admits) + [now] else old(admits))
      ensures served == (if a == Admitted && item.key.Some? then old(served) + [item.key.value] else old(served))
      ensures waiters == if a == Admitted then Unregistered(item, old(waiters))
              else Registered(item, old(waiters), old(waiterSeq))
    {
      ghost var ws := waiters;
      if config.concurrency.Some? && inFlight >= config.concurrency.value {
        if item.waiterId.Some? {
          Register(item.waiterId.value, item);
        }
        return Blocked(Some(now + config.retryMs));
      }
      var pass := MayPass(item);
      if !pass {
        return Blocked(Some(now + config.retryMs));
      }
      assert Registered(item, ws, old(waiterSeq)) - (if item.waiterId.Some? then {item.waiterId.value} else {})
             == Unregistered(item, ws);
      Pass(now, item);
      a := Admitted;
    }

    /** An admitted call takes its slot and waits no longer. */
    method Pass(now: int, item: Item)
      requires RateOk(now) && RateRoom() && Slots(config, inFlight, released, admits) && SlotFree()
      requires Queued(waiters, waiterSeq) && Serving(keyServed, servedTick, served)
      modifies this`slidingAdmits, this`windowCount, this`inFlight, this`admits, this`windows
      modifies this`waiters, this`keyServed, this`servedTick, this`served
      ensures RateOk(now) && Slots(config, inFlight, released, admits)
      ensures Queued(waiters, waiterSeq) && Serving(keyServed, servedTick, served)
      ensures admits == old(admits) + [now] && waiters == Unregistered(item, old(waiters))
      ensures served == if item.key.Some? then old(served) + [item.key.value] else old(served)
    {
      TakeSlot(now);
      Serve(item);
    }

    /**
     * The bounds over every history of calls: a window of a period's length holds at most `limit`
     * sliding admissions, and at most twice `limit` fixed ones; what is in flight is what was admitted
     * less what was released, within the concurrency limit.
     */
    lemma Bounds(from: int)
      requires Valid() && config.rateLimit.Some?
      ensures var rl := config.rateLimit.value;
              InWindow(admits, |admits|, from, rl.periodMs) <= if rl.algorithm == Sliding then rl.limit
                else 2 * rl.limit
      ensures inFlight == |admits| - released && (config.concurrency.Some? ==> inFlight <= config.concurrency.value)
    {
      var rl := config.rateLimit.value;
      if rl.algorithm == Sliding {
        SpacedBoundsWindow(admits, |admits|, rl.limit, from, rl.periodMs);
      } else {
        FixedSpaced(rl, admits, windows, windowStart, windowCount, last);
        SpacedBoundsWindow(admits, |admits|, 2 * rl.limit, from, rl.periodMs);
      }
    }
  }

  lemma ClockedMore(admits: seq<int>, now: int)
    requires Clocked(admits, now)
    ensures Clocked(admits + [now], now)
  {
  }

  lemma ServedMore(keyServed: map<string, nat>, tick: nat, served: seq<string>, key: string)
    requires Serving(keyServed, tick, served)
    ensures Serving(keyServed[key := tick + 1], tick + 1, served + [key])
  {
  }

  /** The waiters once a call that says who it is has been registered, or cleared. */
  function Registered(item: Item, waiters: map<string, Waiter>, next: nat): map<string, Waiter> {
    if item.waiterId.Some? then waiters[item.waiterId.value := CallerOf(item, waiters, next)] else waiters
  }

  function Unregistered(item: Item, waiters: map<string, Waiter>): map<string, Waiter> {
    if item.waiterId.Some? then waiters - {item.waiterId.value} else waiters
  }

  /** Every waiter of another key and no lower priority was served since the call's own key last was. */
  ghost predicate Fair(ws: map<string, Waiter>, served: seq<string>, item: Item) {
    item.key.Some? ==>
      forall w, i | w in ws && Some(w) != item.waiterId && ws[w].key.Some? && ws[w].key != item.key
        && ws[w].priority >= PriorityOf(item)
                    && 0 <= i < |served| && served[i] == item.key.value ::
        exists m :: i < m < |served| && served[m] == ws[w].key.value
  }

  /** Nobody else who waits comes before the call by priority and arrival. */
  ghost predicate ByArrival(lifo: bool, ws: map<string, Waiter>, item: Item) {
    forall w | w in ws && Some(w) != item.waiterId :: NotBefore(lifo, ws, item, ws[w])
  }

  /**
   * The waiter has no higher priority and, with the same one, has arrived later than the call, or earlier
   * for a queue that is last in, first out. A call not registered has arrived after every waiter.
   */
  predicate NotBefore(lifo: bool, ws: map<string, Waiter>, item: Item, other: Waiter) {
    var priority := if item.priority.Some? then item.priority.value else 0;
    && other.priority <= priority
    && (other.priority == priority && other.arrival.Seen? ==>
          if item.waiterId.Some? && item.waiterId.value in ws && ws[item.waiterId.value].arrival.Seen? then
            if lifo then other.arrival.at < ws[item.waiterId.value].arrival.at
            else other.arrival.at > ws[item.waiterId.value].arrival.at
          else lifo)
  }

  /** The caller as a waiter: where it stands once registered. */
  function CallerOf(item: Item, waiters: map<string, Waiter>, next: nat): Waiter {
    Waiter(PriorityOf(item), item.key,
           if item.waiterId == None then Unseen
           else if item.waiterId.value in waiters then waiters[item.waiterId.value].arrival else Seen(next))
  }

  /**
   * Fairness: a call that passes a waiting call of another key, of the same or a higher priority, is
   * of a key that has not been served since that key was: between two services of its key there is
   * one of the other.
   */
  lemma NoSecondTurn(c: Config, ks: map<string, nat>, tick: nat, served: seq<string>, w: Waiter, self: Waiter, i: nat)
    requires c.fairByKey && Serving(ks, tick, served) && !Better(c, ks, w, self)
    requires w.key.Some? && self.key.Some? && w.key != self.key && w.priority >= self.priority
    requires i < |served| && served[i] == self.key.value
    ensures exists m :: i < m < |served| && served[m] == w.key.value
  {
    var k := ServedOf(ks, w.key);
    assert ks[self.key.value] > i;
    assert served[ks[self.key.value] - 1] == self.key.value;
    assert k > i + 1 && served[k - 1] == w.key.value;
  }

  /** Without fairness a turn is by priority and arrival alone. */
  lemma TurnIsByArrival(c: Config, ks: map<string, nat>, ws: map<string, Waiter>, item: Item, next: nat)
    requires !c.fairByKey && Queued(ws, next)
    ensures (forall w | w in ws && Some(w) != item.waiterId :: !Better(c, ks, ws[w], CallerOf(item, ws, next)))
            <==> ByArrival(c.lifo, ws, item)
  {
    forall w | w in ws && Some(w) != item.waiterId
      ensures !Better(c, ks, ws[w], CallerOf(item, ws, next)) <==> NotBefore(c.lifo, ws, item, ws[w])
    {
    }
  }

  /** So a call whose turn it is, is fair to every waiter. */
  lemma TurnIsFair(c: Config, ks: map<string, nat>, tick: nat, served: seq<string>, ws: map<string, Waiter>,
                   item: Item, next: nat)
    requires c.fairByKey && Serving(ks, tick, served)
    requires forall w | w in ws && Some(w) != item.waiterId :: !Better(c, ks, ws[w], CallerOf(item, ws, next))
    ensures Fair(ws, served, item)
  {
    forall w, i | item.key.Some? && w in ws && Some(w) != item.waiterId && ws[w].key.Some? && ws[w].key != item.key
                  && ws[w].priority >= PriorityOf(item) && 0 <= i < |served| && served[i] == item.key.value
      ensures exists m :: i < m < |served| && served[m] == ws[w].key.value
    {
      NoSecondTurn(c, ks, tick, served, ws[w], CallerOf(item, ws, next), i);
    }
  }
}
