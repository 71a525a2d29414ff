/** Event accumulators: batches and debounced bursts, with the ids already taken carried across re-arms. */
module Accumulators {
  import opened Common

  const SEEN_CAP: nat := 200

  /** A dedupe id, compared only for equality. */
  type Id(==, !new)

  /** What the accumulator's wait gives it: an event, or that its time is up. */
  datatype Input = Arrives(id: Option<Id>, payload: Value) | Elapsed

  function Elements(ids: seq<Id>): set<Id> { set x | x in ids }

  /** `ids` are the latest of `taken`, and at least as many as are carried across a re-arm. */
  ghost predicate Latest(ids: seq<Id>, taken: seq<Id>) {
    && |ids| <= |taken| && (forall k | 0 <= k < |ids| :: ids[k] == taken[|taken| - |ids| + k])
    && (|ids| >= SEEN_CAP || |ids| == |taken|)
  }

  class Seen {
    var ids: seq<Id>
    var members: set<Id>
    /** Every id ever taken, in order. */
    ghost var taken: seq<Id>

    ghost predicate Valid()
      reads this
    {
      members == Elements(ids) && Latest(ids, taken)
    }

    constructor ()
      ensures Valid() && taken == []
    {
      ids, members, taken := [], {}, [];
    }

    /** Records the id; false when it was already taken. An event without an id is always new. */
    method Take(id: Option<Id>) returns (isNew: bool)
      requires Valid()
      modifies this
      ensures Valid()
      ensures id == None ==> isNew && taken == old(taken)
      ensures id.Some? && isNew ==> taken == old(taken) + [id.value]
      ensures !isNew ==> id.Some? && taken == old(taken) && id.value in taken
      ensures id.Some? && Recent(old(taken), id.value) ==> !isNew
      ensures isNew <==> id == None || id.value !in old(ids)
      ensures ids == if id.Some? && isNew then old(ids) + [id.value] else old(ids)
    {
      if id == None {
        return true;
      }
      RecentIn(ids, taken, id.value);
      if id.value in members {
        return false;
      }
      TakenMore(ids, taken, id.value);
      ids := ids + [id.value];
      members := members + {id.value};
      taken := taken + [id.value];
      isNew := true;
    }

    /** The next burst starts with the last 200 ids, or with all of them when there are no more. */
    method Carry()
      requires Valid()
      modifies this`ids, this`members
      ensures Valid()
      ensures ids == if |old(ids)| > 200 then old(ids)[|old(ids)| - 200..] else old(ids)
    {
      if |ids| > SEEN_CAP {
        ids := ids[|ids| - SEEN_CAP..];
      }
      members := set x | x in ids;
    }
  }

  /** The id is among the latest taken, as many as a re-arm carries. */
  predicate Recent(taken: seq<Id>, id: Id) {
    exists p :: 0 <= p < |taken| && |taken| - SEEN_CAP <= p && taken[p] == id
  }

  lemma RecentIn(ids: seq<Id>, taken: seq<Id>, id: Id)
    requires Latest(ids, taken)
    ensures Recent(taken, id) ==> id in ids
    ensures id in ids ==> id in taken
  {
    if p :| 0 <= p < |taken| && |taken| - SEEN_CAP <= p && taken[p] == id {
      assert ids[p - (|taken| - |ids|)] == id;
    }
  }

  lemma TakenMore(ids: seq<Id>, taken: seq<Id>, id: Id)
    requires Latest(ids, taken)
    ensures Latest(ids + [id], taken + [id]) && Elements(ids + [id]) == Elements(ids) + {id}
  {
    assert forall x :: x in ids + [id] <==> x in ids || x == id;
  }

  // ---- what has been delivered ---------------------------------------------------------------

  /**
   * Which inputs have been delivered, in order; the ids among them, in order; and, for each delivery,
   * how many ids were delivered before it.
   */
  datatype History = History(kept: seq<nat>, ids: seq<Id>, marks: seq<nat>)

  ghost predicate Indexes(inputs: seq<Input>, kept: seq<nat>) {
    forall i | 0 <= i < |kept| :: kept[i] < |inputs| && inputs[kept[i]].Arrives?
  }

  ghost function Payloads(inputs: seq<Input>, kept: seq<nat>): seq<Value>
    requires Indexes(inputs, kept)
  {
    seq(|kept|, i requires 0 <= i < |kept| => inputs[kept[i]].payload)
  }

  /** `ids` are the ids of the deliveries, and `marks` their places. */
  ghost predicate Tallied(inputs: seq<Input>, h: History) {
    && Indexes(inputs, h.kept) && |h.marks| == |h.kept|
    && (forall i | 0 <= i < |h.kept| && inputs[h.kept[i]].id.Some? ::
          h.marks[i] < |h.ids| && h.ids[h.marks[i]] == inputs[h.kept[i]].id.value)
    && (forall i, j | 0 <= i < j < |h.kept| :: h.marks[i] + (if inputs[h.kept[i]].id.Some? then 1 else 0) <= h.marks[j])
    && (forall i | 0 <= i < |h.kept| :: h.marks[i] + (if inputs[h.kept[i]].id.Some? then 1 else 0) <= |h.ids|)
  }

  /** An id delivered twice has at least `SEEN_CAP` other ids delivered in between. */
  ghost predicate Apart(ids: seq<Id>) { forall p, q | 0 <= p < q < |ids| && ids[p] == ids[q] :: q - p > SEEN_CAP }

  ghost predicate Rising(kept: seq<nat>, n: nat) {
    && (forall i, j | 0 <= i < j < |kept| :: kept[i] < kept[j])
    && (forall i | 0 <= i < |kept| :: kept[i] < n)
  }

  /** An arrival not delivered repeats an id that was. */
  ghost predicate Repeats(inputs: seq<Input>, n: nat, h: History) {
    n <= |inputs| && forall k: nat | k < n && inputs[k].Arrives? && k !in h.kept ::
      inputs[k].id.Some? && inputs[k].id.value in h.ids
  }

  /**
   * Of the first `n` inputs exactly `kept` are delivered: an arrival is dropped only if its id was
   * delivered before.
   */
  ghost predicate Deduped(inputs: seq<Input>, n: nat, h: History) {
    Tallied(inputs, h) && Apart(h.ids) && Rising(h.kept, n) && Repeats(inputs, n, h)
  }

  function Kept(h: History, n: nat, id: Option<Id>): History {
    History(h.kept + [n], h.ids + (if id.Some? then [id.value] else []), h.marks + [|h.ids|])
  }

  lemma ApartMore(ids: seq<Id>, id: Id)
    requires Apart(ids) && !Recent(ids, id)
    ensures Apart(ids + [id])
  {
  }

  lemma TalliedMore(inputs: seq<Input>, n: nat, h: History)
    requires Tallied(inputs, h) && n < |inputs| && inputs[n].Arrives?
    ensures Tallied(inputs, Kept(h, n, inputs[n].id))
  {
  }

  lemma RepeatsMore(inputs: seq<Input>, n: nat, h: History)
    requires Repeats(inputs, n, h) && n < |inputs| && inputs[n].Arrives?
    ensures Repeats(inputs, n + 1, Kept(h, n, inputs[n].id))
  {
    var h' := Kept(h, n, inputs[n].id);
    assert h'.kept[|h.kept|] == n;
    assert forall k | k in h.kept :: k in h'.kept;
    assert forall x | x in h.ids :: x in h'.ids;
  }

  lemma PayloadsMore(inputs: seq<Input>, kept: seq<nat>, n: nat)
    requires Indexes(inputs, kept) && n < |inputs| && inputs[n].Arrives?
    ensures Indexes(inputs, kept + [n]) && Payloads(inputs, kept + [n]) == Payloads(inputs, kept) + [inputs[n].payload]
  {
  }

  lemma RisingMore(kept: seq<nat>, n: nat)
    requires Rising(kept, n)
    ensures Rising(kept + [n], n + 1) && Rising(kept, n + 1)
  {
  }

  lemma KeptMore(inputs: seq<Input>, n: nat, h: History)
    requires Deduped(inputs, n, h) && n < |inputs| && inputs[n].Arrives?
    requires inputs[n].id.Some? ==> !Recent(h.ids, inputs[n].id.value)
    ensures Deduped(inputs, n + 1, Kept(h, n, inputs[n].id))
  {
    TalliedMore(inputs, n, h);
    RepeatsMore(inputs, n, h);
    RisingMore(h.kept, n);
    if inputs[n].id.Some? { ApartMore(h.ids, inputs[n].id.value); } else { assert h.ids + [] == h.ids; }
  }

  lemma DroppedMore(inputs: seq<Input>, n: nat, h: History)
    requires Deduped(inputs, n, h) && n < |inputs|
    requires inputs[n].Arrives? ==> inputs[n].id.Some? && inputs[n].id.value in h.ids
    ensures Deduped(inputs, n + 1, h)
  {
    RisingMore(h.kept, n);
  }

  /** So an id repeated after fewer than `SEEN_CAP` later ids is never delivered again. */
  lemma NotDeliveredAgain(inputs: seq<Input>, n: nat, h: History, i: nat, j: nat)
    requires Deduped(inputs, n, h) && i < j < |h.kept|
    requires inputs[h.kept[i]].id.Some? && inputs[h.kept[j]].id == inputs[h.kept[i]].id
    ensures h.marks[j] - h.marks[i] - 1 >= 200
  {
  }

  function Flatten(bs: seq<seq<Value>>): seq<Value> { if bs == [] then [] else Flatten(bs[..|bs| - 1]) + bs[|bs| - 1] }

  lemma FlattenMore(bs: seq<seq<Value>>, b: seq<Value>)
    ensures Flatten(bs + [b]) == Flatten(bs) + b
  {
    assert (bs + [b])[..|bs|] == bs;
  }

  // ---- the loops -----------------------------------------------------------------------------

  /** The accumulator has been through `n` inputs, and `h` is what it delivered. */
  ghost predicate Synced(seen: Seen, inputs: seq<Input>, n: nat, h: History)
    reads seen
  {
    seen.Valid() && Deduped(inputs, n, h) && seen.taken == h.ids
  }

  /** One input: its payload is taken if its event is new. */
  method TakeInput(seen: Seen, inputs: seq<Input>, i: nat, ghost h: History)
    returns (taken: Option<Value>, ghost h': History)
    requires i < |inputs| && Synced(seen, inputs, i, h)
    modifies seen
    ensures Synced(seen, inputs, i + 1, h')
    ensures taken.Some? ==> inputs[i].Arrives? && taken.value == inputs[i].payload && h' == Kept(h, i, inputs[i].id)
    ensures taken == None ==> h' == h
    ensures Payloads(inputs, h'.kept) == Payloads(inputs, h.kept) + (if taken.Some? then [taken.value] else [])
  {
    taken, h' := None, h;
    match inputs[i] {
      case Elapsed => DroppedMore(inputs, i, h);
      case Arrives(id, payload) =>
        var isNew := seen.Take(id);
        if isNew {
          KeptMore(inputs, i, h);
          PayloadsMore(inputs, h.kept, i);
          taken, h' := Some(payload), Kept(h, i, id);
        } else {
          DroppedMore(inputs, i, h);
        }
    }
  }

  /** A window ends between two inputs. */
  predicate QuietBetween(inputs: seq<Input>, a: nat, b: nat)
    requires b <= |inputs|
  {
    exists q :: a < q < b && inputs[q].Elapsed?
  }

  /** A window ends before delivery `k`, since the one before it. */
  predicate Breaks(inputs: seq<Input>, kept: seq<nat>, k: nat)
    requires 0 < k < |kept| && kept[k] <= |inputs|
  {
    QuietBetween(inputs, kept[k - 1], kept[k])
  }

  ghost predicate Below(kept: seq<nat>, n: nat) { forall k | 0 <= k < |kept| :: kept[k] < n }

  /** From delivery `from` on no window ends between one delivery and the next. */
  ghost predicate Together(inputs: seq<Input>, kept: seq<nat>, from: nat)
    requires Below(kept, |inputs|)
  {
    forall k: nat | from < k < |kept| :: !Breaks(inputs, kept, k)
  }

  function Most(maxSize: int): nat { if maxSize > 1 then maxSize else 1 }

  /** Parks for the first new event. */
  method ParkForFirst(seen: Seen, inputs: seq<Input>, from: nat, ghost h: History)
    returns (first: Option<Value>, i: nat, ghost h': History)
    requires from <= |inputs| && Synced(seen, inputs, from, h)
    modifies seen
    ensures from <= i <= |inputs| && Synced(seen, inputs, i, h')
    ensures first == None ==> i == |inputs|
    ensures first.Some? ==> from < i
    ensures h'.kept == if first.Some? then h.kept + [i - 1] else h.kept
    ensures Payloads(inputs, h'.kept) == Payloads(inputs, h.kept) + (if first.Some? then [first.value] else [])
  {
    first, i, h' := None, from, h;
    assert Payloads(inputs, h.kept) + [] == Payloads(inputs, h.kept);
    while first == None && i < |inputs|
      invariant from <= i <= |inputs| && Synced(seen, inputs, i, h') && (first.Some? ==> from < i)
      invariant h'.kept == if first.Some? then h.kept + [i - 1] else h.kept
      invariant Payloads(inputs, h'.kept) == Payloads(inputs, h.kept) + (if first.Some? then [first.value] else [])
      decreases |inputs| - i
    {
      first, h' := TakeInput(seen, inputs, i, h');
      i := i + 1;
    }
  }

  ghost predicate Extends(kept: seq<nat>, more: seq<nat>) {
    |kept| <= |more| && forall k | 0 <= k < |kept| :: more[k] == kept[k]
  }

  /**
   * A batch of `size` under way, or over: its first delivery is the last of `before`. It is over exactly
   * when it is full or its window has ended.
   */
  ghost predicate Filling(maxSize: int, inputs: seq<Input>, before: seq<nat>, kept: seq<nat>, n: nat,
                          size: nat, over: bool)
  {
    && n <= |inputs| && before != [] && Extends(before, kept) && Below(kept, n)
    && |kept| == |before| + size - 1 && 1 <= size <= Most(maxSize)
    && Together(inputs, kept, |before| - 1)
    && (over <==> size == Most(maxSize) || QuietBetween(inputs, kept[|kept| - 1], n))
  }

  /** One input more. */
  lemma FillMore(maxSize: int, inputs: seq<Input>, before: seq<nat>, kept: seq<nat>, n: nat, size: nat, taken: bool)
    requires Filling(maxSize, inputs, before, kept, n, size, false) && n < |inputs| && (taken ==> inputs[n].Arrives?)
    ensures var size' := if taken then size + 1 else size;
            Filling(maxSize, inputs, before, if taken then kept + [n] else kept, n + 1, size',
                    inputs[n].Elapsed? || size' == Most(maxSize))
  {
    var last := kept[|kept| - 1];
    assert !QuietBetween(inputs, last, n);
    if taken {
      var more := kept + [n];
      forall k: nat | |before| - 1 < k < |more| ensures !Breaks(inputs, more, k) {
        if k < |kept| { assert !Breaks(inputs, kept, k); }
      }
      assert !QuietBetween(inputs, n, n + 1);
    } else {
      assert QuietBetween(inputs, last, n + 1) <==> inputs[n].Elapsed?;
    }
  }

  /** The deliveries since `before` are the events, but for the first. */
  ghost predicate Gathered(inputs: seq<Input>, before: seq<nat>, kept: seq<nat>, events: seq<Value>) {
    && Indexes(inputs, before) && Indexes(inputs, kept) && events != []
    && Payloads(inputs, kept) == Payloads(inputs, before) + events[1..]
  }

  /** One input of a batch under way. */
  method FillOne(maxSize: int, events: seq<Value>, seen: Seen, inputs: seq<Input>, i: nat, ghost before: seq<nat>,
                 ghost h: History)
    returns (events': seq<Value>, over: bool, ghost h': History)
    requires i < |inputs| && Synced(seen, inputs, i, h) && Gathered(inputs, before, h.kept, events)
    requires Filling(maxSize, inputs, before, h.kept, i, |events|, false)
    modifies seen
    ensures Synced(seen, inputs, i + 1, h') && Gathered(inputs, before, h'.kept, events')
    ensures Filling(maxSize, inputs, before, h'.kept, i + 1, |events'|, over) && events'[0] == events[0]
  {
    var taken;
    taken, h' := TakeInput(seen, inputs, i, h);
    FillMore(maxSize, inputs, before, h.kept, i, |events|, taken.Some?);
    events' := events;
    if taken.Some? {
      Appended(Payloads(inputs, before), events, taken.value);
      events' := events + [taken.value];
    }
    over := inputs[i].Elapsed? || |events'| >= maxSize;
  }

  /** Takes events until the batch is full or its window is over. */
  method Fill(maxSize: int, first: Value, seen: Seen, inputs: seq<Input>, from: nat, ghost h: History)
    returns (events: seq<Value>, i: nat, over: bool, ghost h': History)
    requires from <= |inputs| && Synced(seen, inputs, from, h)
    requires h.kept != [] && h.kept[|h.kept| - 1] == from - 1
    modifies seen
    ensures from <= i <= |inputs| && Synced(seen, inputs, i, h') && (!over ==> i == |inputs|)
    ensures Gathered(inputs, h.kept, h'.kept, events) && events[0] == first
    ensures Filling(maxSize, inputs, h.kept, h'.kept, i, |events|, over)
  {
    events, i, h' := [first], from, h;
    assert Payloads(inputs, h.kept) + [] == Payloads(inputs, h.kept);
    over := |events| >= maxSize;
    while !over && i < |inputs|
      invariant from <= i <= |inputs| && Synced(seen, inputs, i, h')
      invariant Gathered(inputs, h.kept, h'.kept, events) && events[0] == first
      invariant Filling(maxSize, inputs, h.kept, h'.kept, i, |events|, over)
      decreases |inputs| - i
    {
      events, over, h' := FillOne(maxSize, events, seen, inputs, i, h.kept, h');
      i := i + 1;
    }
  }

  lemma Appended(p: seq<Value>, events: seq<Value>, v: Value)
    requires |events| >= 1
    ensures p + events[1..] + [v] == p + (events + [v])[1..]
  {
  }

  lemma Joined(before: seq<Value>, parked: seq<Value>, now: seq<Value>, events: seq<Value>)
    requires |events| >= 1 && parked == before + [events[0]] && now == parked + events[1..]
    ensures now == before + events
  {
    assert [events[0]] + events[1..] == events;
  }

  /** The re-arm: the next burst starts with the latest ids. */
  method ReArm(seen: Seen, ghost inputs: seq<Input>, ghost n: nat, ghost h: History)
    requires Synced(seen, inputs, n, h)
    modifies seen
    ensures Synced(seen, inputs, n, h)
  {
    seen.Carry();
  }

  /** What a burst delivers after `before`: nothing, or one batch from input `from` on. */
  ghost predicate Bursting(maxSize: int, inputs: seq<Input>, before: seq<nat>, from: nat, kept: seq<nat>, n: nat,
                           size: nat, over: bool)
  {
    if size == 0 then kept == before && !over
    else |kept| > |before| && kept[|before|] >= from && Extends(before, kept)
         && Filling(maxSize, inputs, kept[..|before| + 1], kept, n, size, over)
  }

  /** One burst and, when it is over, the re-arm that carries the latest ids. */
  method Burst(maxSize: int, seen: Seen, inputs: seq<Input>, from: nat, ghost h: History)
    returns (events: seq<Value>, i: nat, over: bool, ghost h': History)
    requires from < |inputs| && Synced(seen, inputs, from, h)
    modifies seen
    ensures from < i <= |inputs| && Synced(seen, inputs, i, h')
    ensures |events| <= Most(maxSize) && (if over then events != [] else i == |inputs|)
    ensures Bursting(maxSize, inputs, h.kept, from, h'.kept, i, |events|, over)
    ensures Payloads(inputs, h'.kept) == Payloads(inputs, h.kept) + events
  {
    var first;
    first, i, h' := ParkForFirst(seen, inputs, from, h);
    if first == None {
      return [], i, false, h';
    }
    ghost var parked := Payloads(inputs, h'.kept);
    events, i, over, h' := Fill(maxSize, first.value, seen, inputs, i, h');
    Joined(Payloads(inputs, h.kept), parked, Payloads(inputs, h'.kept), events);
    if over {
      ReArm(seen, inputs, i, h');
    }
  }

  function StartOf(ends: seq<nat>, b: nat): nat
    requires b <= |ends|
  {
    if b == 0 then 0 else ends[b - 1]
  }

  /** Where the delivery after the first `end` ones is, or the end of the first `n` inputs. */
  function NextAt(kept: seq<nat>, end: nat, n: nat): nat { if end < |kept| then kept[end] else n }

  /** Batch `b` is full, or its window ends after its last delivery and before the next. */
  ghost predicate BatchAt(inputs: seq<Input>, n: nat, kept: seq<nat>, ends: seq<nat>, sizes: seq<nat>,
                          maxSize: int, b: nat)
    requires b < |ends| == |sizes| && n <= |inputs| && Below(kept, n)
  {
    && StartOf(ends, b) < ends[b] <= |kept| && sizes[b] == ends[b] - StartOf(ends, b) <= Most(maxSize)
    && (sizes[b] == Most(maxSize) || QuietBetween(inputs, kept[ends[b] - 1], NextAt(kept, ends[b], n)))
  }

  /**
   * The batches, by how many deliveries come before each one's end. One that is not full closes with its
   * window, and none goes on after its window has ended.
   */
  ghost predicate Batches(inputs: seq<Input>, n: nat, kept: seq<nat>, ends: seq<nat>, sizes: seq<nat>, maxSize: int) {
    && n <= |inputs| && Below(kept, n) && |ends| == |sizes|
    && (forall b: nat | b < |ends| :: BatchAt(inputs, n, kept, ends, sizes, maxSize, b))
    && (forall k: nat | 0 < k < |kept| && Breaks(inputs, kept, k) :: k in ends)
  }

  function Sizes(fired: seq<seq<Value>>): (sizes: seq<nat>)
    ensures |sizes| == |fired| && forall b | 0 <= b < |fired| :: sizes[b] == |fired[b]|
  {
    seq(|fired|, b requires 0 <= b < |fired| => |fired[b]|)
  }

  lemma StillBatch(inputs: seq<Input>, n: nat, m: nat, kept: seq<nat>, kept': seq<nat>, ends: seq<nat>, sizes: seq<nat>,
                   maxSize: int, b: nat)
    requires b < |ends| == |sizes| && n <= m <= |inputs| && Below(kept, n) && Below(kept', m)
    requires BatchAt(inputs, n, kept, ends, sizes, maxSize, b) && Extends(kept, kept')
    requires |kept'| > |kept| ==> kept'[|kept|] >= n
    ensures BatchAt(inputs, m, kept', ends, sizes, maxSize, b)
  {
    assert NextAt(kept, ends[b], n) <= NextAt(kept', ends[b], m);
  }

  /** The deliveries of one more burst. */
  lemma BatchOpens(inputs: seq<Input>, n: nat, m: nat, kept: seq<nat>, kept': seq<nat>, ends: seq<nat>, sizes: seq<nat>,
                   maxSize: int, size: nat, over: bool)
    requires Batches(inputs, n, kept, ends, sizes, maxSize) && |kept| == StartOf(ends, |ends|) && n <= m <= |inputs|
    requires Bursting(maxSize, inputs, kept, n, kept', m, size, over)
    ensures Batches(inputs, m, kept', ends, sizes, maxSize)
  {
    forall b: nat | b < |ends| ensures BatchAt(inputs, m, kept', ends, sizes, maxSize, b) {
      StillBatch(inputs, n, m, kept, kept', ends, sizes, maxSize, b);
    }
    forall k: nat | 0 < k < |kept'| && Breaks(inputs, kept', k) ensures k in ends {
      if k < |kept| {
        assert Breaks(inputs, kept, k);
      } else {
        assert k == |kept| && ends[|ends| - 1] == k;
      }
    }
  }

  lemma BatchCloses(inputs: seq<Input>, n: nat, kept: seq<nat>, ends: seq<nat>, sizes: seq<nat>, size: nat,
                    maxSize: int)
    requires Batches(inputs, n, kept, ends, sizes, maxSize) && |kept| == StartOf(ends, |ends|) + size
    requires 0 < size <= Most(maxSize) && (size == Most(maxSize) || QuietBetween(inputs, kept[|kept| - 1], n))
    ensures Batches(inputs, n, kept, ends + [|kept|], sizes + [size], maxSize)
  {
    var ends', sizes' := ends + [|kept|], sizes + [size];
    forall b: nat | b < |ends'| ensures BatchAt(inputs, n, kept, ends', sizes', maxSize, b) {
      if b < |ends| {
        assert BatchAt(inputs, n, kept, ends, sizes, maxSize, b);
        assert StartOf(ends', b) == StartOf(ends, b) && ends'[b] == ends[b] && sizes'[b] == sizes[b];
      }
    }
    forall k: nat | 0 < k < |kept| && Breaks(inputs, kept, k) ensures k in ends' {
      assert k in ends;
    }
  }

  /** The batches fired after `n` inputs, which hold every delivery so far. */
  ghost predicate Fired(maxSize: int, inputs: seq<Input>, n: nat, kept: seq<nat>, ends: seq<nat>,
                        fired: seq<seq<Value>>)
  {
    && Batches(inputs, n, kept, ends, Sizes(fired), maxSize) && |kept| == StartOf(ends, |ends|)
    && Indexes(inputs, kept) && Flatten(fired) == Payloads(inputs, kept)
  }

  /** The batch still open: not full, and its window goes on. */
  ghost predicate Opened(maxSize: int, inputs: seq<Input>, kept: seq<nat>, ends: seq<nat>, fired: seq<seq<Value>>,
                         open: seq<Value>)
  {
    && Batches(inputs, |inputs|, kept, ends, Sizes(fired), maxSize) && |kept| == StartOf(ends, |ends|) + |open|
    && Indexes(inputs, kept) && Flatten(fired) + open == Payloads(inputs, kept)
    && (open != [] ==> |open| < Most(maxSize) && !QuietBetween(inputs, kept[|kept| - 1], |inputs|))
  }

  lemma BurstFires(maxSize: int, inputs: seq<Input>, n: nat, m: nat, kept: seq<nat>, kept': seq<nat>, ends: seq<nat>,
                   fired: seq<seq<Value>>, events: seq<Value>, over: bool)
    requires Fired(maxSize, inputs, n, kept, ends, fired) && n <= m <= |inputs| && (!over ==> m == |inputs|)
    requires Bursting(maxSize, inputs, kept, n, kept', m, |events|, over)
    requires Indexes(inputs, kept') && Payloads(inputs, kept') == Payloads(inputs, kept) + events
    ensures over ==> Fired(maxSize, inputs, m, kept', ends + [|kept'|], fired + [events])
    ensures !over ==> Opened(maxSize, inputs, kept', ends, fired, events)
  {
    BatchOpens(inputs, n, m, kept, kept', ends, Sizes(fired), maxSize, |events|, over);
    if over {
      BatchCloses(inputs, m, kept', ends, Sizes(fired), |events|, maxSize);
      FlattenMore(fired, events);
      assert Sizes(fired + [events]) == Sizes(fired) + [|events|];
    }
  }

  /**
   * `batch`, over a stream of events and timeouts and every re-arm: the batches fired, and then the
   * one still open, are the new arrivals in order; each has from one to `maxSize` events. A batch is
   * fired when it is full or its window ends, and not before; the open one is not full and its window
   * goes on.
   */
  method Batch(maxSize: int, inputs: seq<Input>)
    returns (fired: seq<seq<Value>>, open: seq<Value>, ghost h: History, ghost ends: seq<nat>)
    ensures Deduped(inputs, |inputs|, h) && Opened(maxSize, inputs, h.kept, ends, fired, open)
    ensures forall b | b in fired :: 1 <= |b| <= if maxSize > 1 then maxSize else 1
    ensures open != [] ==> |open| < maxSize
  {
    var seen := new Seen();
    fired, open, h, ends := [], [], History([], [], []), [];
    var i := 0;
    while i < |inputs|
      invariant i <= |inputs| && fresh(seen) && Synced(seen, inputs, i, h)
      invariant Fired(maxSize, inputs, i, h.kept, ends, fired)
      invariant forall b | b in fired :: 1 <= |b| <= Most(maxSize)
      decreases |inputs| - i
    {
      ghost var before, from := h.kept, i;
      var events, over;
      events, i, over, h := Burst(maxSize, seen, inputs, i, h);
      BurstFires(maxSize, inputs, from, i, before, h.kept, ends, fired, events, over);
      if !over {
        open := events;
        return;
      }
      fired := fired + [events];
      ends := ends + [|h.kept|];
    }
  }

  /** The bursts, by how many deliveries come before each one's end: a burst ends where a quiet window follows. */
  ghost predicate Bursts(inputs: seq<Input>, kept: seq<nat>, ends: seq<nat>, fired: seq<Value>) {
    && Indexes(inputs, kept) && |ends| == |fired|
    && (forall b: nat | b < |ends| :: 0 < ends[b] <= |kept| && fired[b] == inputs[kept[ends[b] - 1]].payload)
    && (forall b: nat | 0 < b < |ends| :: ends[b - 1] < ends[b])
    && (forall k: nat | 0 < k < |kept| :: k in ends <==> Breaks(inputs, kept, k))
  }

  /** The burst under way, after `n` inputs: its last payload, unless a quiet window has ended it. */
  ghost predicate UnderWay(inputs: seq<Input>, n: nat, kept: seq<nat>, ends: seq<nat>, last: Option<Value>) {
    && n <= |inputs| && Indexes(inputs, kept) && (forall i | 0 <= i < |kept| :: kept[i] < n)
    && (last.Some? <==> kept != [] && |kept| !in ends)
    && (last.Some? ==> last.value == inputs[kept[|kept| - 1]].payload)
    && (kept != [] ==> (last == None <==> QuietBetween(inputs, kept[|kept| - 1], n)))
  }

  lemma BurstGrows(inputs: seq<Input>, n: nat, kept: seq<nat>, ends: seq<nat>, fired: seq<Value>, last: Option<Value>)
    requires Bursts(inputs, kept, ends, fired) && UnderWay(inputs, n, kept, ends, last) && n < |inputs|
             && inputs[n].Arrives?
    ensures Bursts(inputs, kept + [n], ends, fired)
            && UnderWay(inputs, n + 1, kept + [n], ends, Some(inputs[n].payload))
  {
    var more := kept + [n];
    forall k: nat | 0 < k < |more| ensures k in ends <==> Breaks(inputs, more, k) {
      if k < |kept| { assert k in ends <==> Breaks(inputs, kept, k); }
    }
    forall e | e in ends ensures e <= |kept| {
      var b: nat :| b < |ends| && ends[b] == e;
    }
  }

  lemma BurstEnds(inputs: seq<Input>, n: nat, kept: seq<nat>, ends: seq<nat>, fired: seq<Value>, last: Option<Value>)
    requires Bursts(inputs, kept, ends, fired) && UnderWay(inputs, n, kept, ends, last) && n < |inputs|
             && inputs[n].Elapsed?
    ensures last.Some? ==>
              Bursts(inputs, kept, ends + [|kept|], fired + [last.value])
              && UnderWay(inputs, n + 1, kept, ends + [|kept|], None)
    ensures last == None ==> UnderWay(inputs, n + 1, kept, ends, None)
  {
    if last.Some? {
      var more := ends + [|kept|];
      assert forall e :: e in more <==> e in ends || e == |kept|;
      forall b: nat | 0 < b < |more| ensures more[b - 1] < more[b] {
        if b == |ends| { assert ends[b - 1] in ends; }
      }
    }
  }

  lemma NothingNew(inputs: seq<Input>, n: nat, kept: seq<nat>, ends: seq<nat>, last: Option<Value>)
    requires UnderWay(inputs, n, kept, ends, last) && n < |inputs| && inputs[n].Arrives?
    ensures UnderWay(inputs, n + 1, kept, ends, last)
  {
  }

  /**
   * `debounce`: each burst of new events ends with the first quiet window after one of them, and fires
   * the last new payload of the burst; a repeated event neither fires nor becomes the payload. The
   * last burst fires exactly when a quiet window follows it before the stream ends.
   */
  method Debounce(inputs: seq<Input>) returns (fired: seq<Value>, ghost h: History, ghost ends: seq<nat>)
    ensures Deduped(inputs, |inputs|, h) && Bursts(inputs, h.kept, ends, fired)
    ensures h.kept != [] ==> (|h.kept| in ends <==> QuietBetween(inputs, h.kept[|h.kept| - 1], |inputs|))
  {
    var seen := new Seen();
    fired, h, ends := [], History([], [], []), [];
    var last: Option<Value> := None;
    for i := 0 to |inputs|
      invariant fresh(seen) && Synced(seen, inputs, i, h)
      invariant Bursts(inputs, h.kept, ends, fired) && UnderWay(inputs, i, h.kept, ends, last)
    {
      ghost var before := h;
      var taken;
      taken, h := TakeInput(seen, inputs, i, h);
      var fires := taken == None && inputs[i].Elapsed? && last.Some?;
      BurstStep(inputs, i, before.kept, h.kept, ends, fired, last, taken);
      if fires {
        fired := fired + [last.value];
        ends := ends + [|h.kept|];
        ReArm(seen, inputs, i + 1, h);
      }
      last := if taken.Some? then taken else if inputs[i].Elapsed? then None else last;
    }
  }

  /** One input of a burst. */
  lemma BurstStep(inputs: seq<Input>, n: nat, before: seq<nat>, kept: seq<nat>, ends: seq<nat>, fired: seq<Value>,
                  last: Option<Value>, taken: Option<Value>)
    requires Bursts(inputs, before, ends, fired) && UnderWay(inputs, n, before, ends, last) && n < |inputs|
    requires if taken.Some? then inputs[n].Arrives? && taken.value == inputs[n].payload && kept == before + [n]
             else kept == before
    ensures taken.Some? ==> Bursts(inputs, kept, ends, fired) && UnderWay(inputs, n + 1, kept, ends, taken)
    ensures taken == None && inputs[n].Elapsed? && last.Some? ==>
              Bursts(inputs, kept, ends + [|kept|], fired + [last.value])
                && UnderWay(inputs, n + 1, kept, ends + [|kept|], None)
    ensures taken == None && inputs[n].Elapsed? && last == None ==>
              Bursts(inputs, kept, ends, fired) && UnderWay(inputs, n + 1, kept, ends, None)
    ensures taken == None && inputs[n].Arrives? ==>
              Bursts(inputs, kept, ends, fired) && UnderWay(inputs, n + 1, kept, ends, last)
  {
    if taken.Some? {
      BurstGrows(inputs, n, before, ends, fired, last);
    } else if inputs[n].Elapsed? {
      BurstEnds(inputs, n, before, ends, fired, last);
    } else {
      NothingNew(inputs, n, before, ends, last);
    }
  }
}
