/**
 * Singleton admission: the decision over every active run of a key, and the runs of that key over
 * time. Runs are ordered by creation and then id; an id stands for its place in the id order.
 */
module Singleton {
  import opened Common
  import opened RunStatuses

  const ADMITTED := "durable:singleton:admitted"
  const TRACKED := "durable:singleton:tracked"

  datatype Run = Run(id: nat, createdAt: int, workflow: string, status: RunStatus, tags: set<string>)

  predicate Active(s: RunStatus) { s == Pending || s == Running || s == Suspended || s == Blocked }

  /** The statuses the scan admission of older replicas ranked runs in. */
  predicate Scanned(s: RunStatus) { s == Running || s == Suspended }

  predicate Holds(r: Run) { ADMITTED in r.tags }

  // ---- the order -----------------------------------------------------------------------------

  /** `byCreation`. */
  predicate Before(a: Run, b: Run) { a.createdAt < b.createdAt || (a.createdAt == b.createdAt && a.id < b.id) }

  predicate Distinct(s: seq<Run>) { forall i, j | 0 <= i < j < |s| :: s[i].id != s[j].id }

  predicate Sorted(s: seq<Run>) { forall i, j | 0 <= i < j < |s| :: Before(s[i], s[j]) }

  function Elements(s: seq<Run>): set<Run> { set r | r in s }

  lemma ElementsConcat(s: seq<Run>, t: seq<Run>)
    ensures Elements(s + t) == Elements(s) + Elements(t)
  {
    assert forall r | r in Elements(s + t) :: r in s || r in t;
  }

  function Insert(r: Run, s: seq<Run>): (t: seq<Run>)
    ensures Elements(t) == Elements(s) + {r} && |t| == |s| + 1
  {
    if s == [] || Before(r, s[0]) then ElementsConcat([r], s); [r] + s
    else
      assert s == [s[0]] + s[1..];
      ElementsConcat([s[0]], s[1..]);
      ElementsConcat([s[0]], Insert(r, s[1..]));
      [s[0]] + Insert(r, s[1..])
  }

  function Sort(s: seq<Run>): (t: seq<Run>)
    ensures Elements(t) == Elements(s) && |t| == |s|
  {
    if s == [] then []
    else
      assert s == s[..|s| - 1] + [s[|s| - 1]];
      Insert(s[|s| - 1], Sort(s[..|s| - 1]))
  }

  lemma {:induction false} InsertSorts(r: Run, s: seq<Run>)
    requires Sorted(s) && forall x | x in s :: x.id != r.id
    ensures Sorted(Insert(r, s))
  {
    if s != [] && !Before(r, s[0]) {
      InsertSorts(r, s[1..]);
      var t := Insert(r, s[1..]);
      forall k | 0 <= k < |t| ensures Before(s[0], t[k]) {
        assert t[k] in Elements(t);
        assert t[k] == r || t[k] in s[1..];
      }
    }
  }

  lemma {:induction false} SortSorts(s: seq<Run>)
    requires Distinct(s)
    ensures Sorted(Sort(s))
  {
    if s != [] {
      var init, last := s[..|s| - 1], s[|s| - 1];
      SortSorts(init);
      forall x | x in Sort(init) ensures x.id != last.id {
        assert x in Elements(Sort(init));
        assert x in init;
      }
      InsertSorts(last, Sort(init));
    }
  }

  /** The runs of `s` older than `r`. */
  function Older(s: set<Run>, r: Run): set<Run> { set x | x in s && Before(x, r) }

  /** The `n` oldest runs of `s`. */
  function Oldest(s: seq<Run>, n: nat): seq<Run> { var t := Sort(s); if n <= |t| then t[..n] else t }

  lemma {:induction false} SortedSize(s: seq<Run>)
    requires Sorted(s)
    ensures |Elements(s)| == |s|
  {
    if s == [] {
      assert Elements(s) == {};
    } else {
      var init, last := s[..|s| - 1], s[|s| - 1];
      SortedSize(init);
      assert Elements(s) == Elements(init) + {last};
      assert last !in init;
    }
  }

  /** Being among the `n` oldest is having fewer than `n` runs older. */
  lemma OldestByRank(s: seq<Run>, n: nat, r: Run)
    requires Distinct(s) && r in s
    ensures r in Oldest(s, n) <==> |Older(Elements(s), r)| < n
  {
    SortSorts(s);
    var t := Sort(s);
    assert r in Elements(t);
    var i :| 0 <= i < |t| && t[i] == r;
    assert forall x | x in Elements(s) :: x in Elements(t);
    assert Older(Elements(s), r) == Elements(t[..i]) by {
      forall x | x in Older(Elements(s), r) ensures x in t[..i] {
        assert x in Elements(t);
        var j :| 0 <= j < |t| && t[j] == x;
        assert j < i;
      }
      forall x | x in t[..i] ensures x in Older(Elements(s), r) {
        assert x in Elements(t);
      }
    }
    SortedSize(t[..i]);
  }

  function Filter(s: seq<Run>, p: Run -> bool): (t: seq<Run>)
    ensures Elements(t) == set r | r in s && p(r)
    ensures |t| <= |s|
  {
    if s == [] then []
    else
      var init, last := s[..|s| - 1], s[|s| - 1];
      assert s == init + [last];
      var rest := Filter(init, p);
      ElementsConcat(rest, [last]);
      if p(last) then rest + [last] else rest
  }

  lemma {:induction false} FilterDistinct(s: seq<Run>, p: Run -> bool)
    requires Distinct(s)
    ensures Distinct(Filter(s, p))
  {
    if s != [] {
      var init := s[..|s| - 1];
      FilterDistinct(init, p);
      forall r | r in Filter(init, p) ensures r.id != s[|s| - 1].id {
        assert r in Elements(Filter(init, p));
        var k :| 0 <= k < |init| && init[k] == r;
        assert s[k].id != s[|s| - 1].id;
      }
    }
  }

  // ---- the decision --------------------------------------------------------------------------

  /** `legacySingletonHolders`: the runs that may hold a slot without the tag, other than `runId`. */
  function LegacyHolders(active: seq<Run>, runId: nat, limit: nat): seq<Run> {
    var scanned := Sort(Filter(active, (r: Run) => Scanned(r.status)));
    var window := Oldest(Filter(active, (r: Run) => Scanned(r.status) || Holds(r)), limit);
    Filter(scanned, (r: Run) => r.id != runId && !Holds(r) && (TRACKED !in r.tags || r in window))
  }

  function ActiveOf(runs: seq<Run>, tag: string, workflow: string): seq<Run> {
    Filter(runs, (r: Run) => r.workflow == workflow && Active(r.status) && tag in r.tags)
  }

  function Find(s: seq<Run>, runId: nat): (f: Option<Run>)
    ensures f.Some? ==> f.value in s && f.value.id == runId
    ensures f == None ==> forall r | r in s :: r.id != runId
  {
    if s == [] then None else if s[0].id == runId then Some(s[0]) else Find(s[1..], runId)
  }

  datatype Decision = Rejected | Wait | Admit(tags: set<string>)

  /** `singletonAdmissionTags`; rejected when the limit is not a positive integer. */
  function AdmissionTags(runs: seq<Run>, runId: nat, tag: string, workflow: string, limit: int): Decision {
    if limit < 1 then Rejected
    else
      var active := ActiveOf(runs, tag, workflow);
      match Find(active, runId)
      case None => Wait
      case Some(candidate) =>
        if Holds(candidate) then Admit(candidate.tags)
        else
          var legacy := LegacyHolders(active, runId, limit);
          var free := limit - |Filter(active, (r: Run) => Holds(r))| - |legacy|;
          if free <= 0 then Wait
          else
            var waiters := Filter(active, (r: Run) => !Holds(r) && r !in legacy);
            if candidate in Oldest(waiters, free) then Admit(candidate.tags - {TRACKED} + {ADMITTED}) else Wait
  }

  // ---- the decision in terms of who is older -------------------------------------------------

  function Holders(a: set<Run>): set<Run> { set r | r in a && Holds(r) }

  function InScan(a: set<Run>): set<Run> { set r | r in a && (Scanned(r.status) || Holds(r)) }

  /** The runs that may hold a slot without the tag: never marked, or inside the old scan's window. */
  function Legacy(a: set<Run>, runId: nat, limit: nat): set<Run> {
    set r | r in a && Scanned(r.status) && r.id != runId && !Holds(r)
            && (TRACKED !in r.tags || |Older(InScan(a), r)| < limit)
  }

  function Waiters(a: set<Run>, legacy: set<Run>): set<Run> { set r | r in a && !Holds(r) && r !in legacy }

  /** A slot is free for `c`: the oldest waiters take the slots that holders and legacy holders leave. */
  predicate Free(a: set<Run>, legacy: set<Run>, limit: nat, c: Run) {
    |Older(Waiters(a, legacy), c)| < limit - |Holders(a)| - |legacy|
  }

  lemma DistinctSize(s: seq<Run>)
    requires Distinct(s)
    ensures |Elements(s)| == |s|
  {
    SortSorts(s);
    SortedSize(Sort(s));
  }

  lemma SortDistinct(s: seq<Run>)
    requires Distinct(s)
    ensures Distinct(Sort(s))
  {
    SortSorts(s);
    var t := Sort(s);
    forall i, j | 0 <= i < j < |t| ensures t[i].id != t[j].id {
      assert t[i] in Elements(t) && t[j] in Elements(t);
      assert Before(t[i], t[j]);
      var p, q :| 0 <= p < |s| && s[p] == t[i] && 0 <= q < |s| && s[q] == t[j];
      assert p != q;
    }
  }

  lemma LegacyIs(active: seq<Run>, runId: nat, limit: nat)
    requires Distinct(active)
    ensures Distinct(LegacyHolders(active, runId, limit))
    ensures Elements(LegacyHolders(active, runId, limit)) == Legacy(Elements(active), runId, limit)
  {
    var scan := Filter(active, (r: Run) => Scanned(r.status));
    var seated := Filter(active, (r: Run) => Scanned(r.status) || Holds(r));
    FilterDistinct(active, (r: Run) => Scanned(r.status));
    FilterDistinct(active, (r: Run) => Scanned(r.status) || Holds(r));
    SortDistinct(scan);
    assert Elements(seated) == InScan(Elements(active));
    var window := Oldest(seated, limit);
    FilterDistinct(Sort(scan), (r: Run) => r.id != runId && !Holds(r) && (TRACKED !in r.tags || r in window));
    forall r | r in active && Scanned(r.status) ensures r in window <==> |Older(InScan(Elements(active)), r)| < limit {
      assert r in Elements(seated);
      OldestByRank(seated, limit, r);
    }
    assert Elements(Sort(scan)) == Elements(scan);
    assert forall r :: r in Sort(scan) <==> r in Elements(scan);
  }

  lemma SameId(s: seq<Run>, a: Run, b: Run)
    requires Distinct(s) && a in s && b in s && a.id == b.id
    ensures a == b
  {
  }

  /** The free slots and the waiters, as the code computes them. */
  lemma WaiterIff(active: seq<Run>, c: Run, limit: nat)
    requires Distinct(active) && c in active && !Holds(c)
    ensures var a, legacy := Elements(active), LegacyHolders(active, c.id, limit);
            var free := limit - |Filter(active, (r: Run) => Holds(r))| - |legacy|;
            (free > 0 && c in Oldest(Filter(active, (r: Run) => !Holds(r) && r !in legacy), free))
            <==> Free(a, Legacy(a, c.id, limit), limit, c)
  {
    var a, legacy := Elements(active), LegacyHolders(active, c.id, limit);
    LegacyIs(active, c.id, limit);
    FilterDistinct(active, (r: Run) => Holds(r));
    DistinctSize(Filter(active, (r: Run) => Holds(r)));
    DistinctSize(legacy);
    assert Elements(Filter(active, (r: Run) => Holds(r))) == Holders(a);
    var free := limit - |Holders(a)| - |Elements(legacy)|;
    var waiters := Filter(active, (r: Run) => !Holds(r) && r !in legacy);
    FilterDistinct(active, (r: Run) => !Holds(r) && r !in legacy);
    assert forall r :: r in legacy <==> r in Elements(legacy);
    assert Elements(waiters) == Waiters(a, Elements(legacy));
    assert c !in legacy;
    assert c in Elements(waiters);
    if free > 0 { OldestByRank(waiters, free, c); }
  }

  /**
   * The admission decision: a run is admitted exactly when it is active under the key and either
   * holds a slot already or is among the oldest waiters that free slots are left for; it then holds
   * the admitted tag, no longer the tracked one, and every other tag it had.
   */
  lemma AdmissionIff(runs: seq<Run>, runId: nat, tag: string, workflow: string, limit: nat)
    requires Distinct(runs) && limit >= 1
    ensures var a, d := Elements(ActiveOf(runs, tag, workflow)), AdmissionTags(runs, runId, tag, workflow, limit);
            && (d.Admit? <==>
                  exists c :: c in a && c.id == runId && (Holds(c) || Free(a, Legacy(a, runId, limit), limit, c)))
            && (d.Admit? ==> forall c | c in a && c.id == runId ::
                  d.tags == if Holds(c) then c.tags else c.tags - {TRACKED} + {ADMITTED})
  {
    var active := ActiveOf(runs, tag, workflow);
    FilterDistinct(runs, (r: Run) => r.workflow == workflow && Active(r.status) && tag in r.tags);
    var f := Find(active, runId);
    if f.Some? {
      var c := f.value;
      assert c in Elements(active);
      forall d | d in Elements(active) && d.id == runId ensures d == c { SameId(active, c, d); }
      if !Holds(c) { WaiterIff(active, c, limit); }
    }
  }

  /** The rows that compete for a key. */
  function RowsOf(runs: seq<Run>, tag: string, workflow: string): set<Run> {
    set r | r in runs && r.workflow == workflow && tag in r.tags
            && (r.status == Pending || r.status == Running || r.status == Suspended || r.status == Blocked)
  }

  /** Those created before `c`, or at once with it and of a lower id. */
  function Ahead(s: set<Run>, c: Run): set<Run> {
    set x | x in s && (x.createdAt < c.createdAt || (x.createdAt == c.createdAt && x.id < c.id))
  }

  function Admitted(a: set<Run>): set<Run> { set r | r in a && "durable:singleton:admitted" in r.tags }

  /** Those that may have been let in by a replica that writes no tag. */
  function MayHold(a: set<Run>, runId: nat, limit: nat): set<Run> {
    var executing := set r | r in a && (r.status == Running || r.status == Suspended);
    set r | r in executing - Admitted(a) && r.id != runId
            && ("durable:singleton:tracked" !in r.tags || |Ahead(executing + Admitted(a), r)| < limit)
  }

  lemma AheadIs(s: set<Run>, c: Run)
    ensures Ahead(s, c) == Older(s, c)
  {
  }

  lemma MayHoldIs(a: set<Run>, runId: nat, limit: nat)
    ensures MayHold(a, runId, limit) == Legacy(a, runId, limit)
  {
    var executing := set r | r in a && (r.status == Running || r.status == Suspended);
    assert executing + Admitted(a) == InScan(a);
    forall r | r in a ensures Ahead(InScan(a), r) == Older(InScan(a), r) { AheadIs(InScan(a), r); }
  }

  /**
   * The decision by the rows themselves: a run is let in exactly when it competes, and is admitted
   * already or has fewer waiters ahead of it than the admitted runs, and those that may hold a slot
   * without the tag, leave slots.
   */
  lemma AdmissionByRows(runs: seq<Run>, runId: nat, tag: string, workflow: string, limit: nat)
    requires Distinct(runs) && limit >= 1
    ensures var a := RowsOf(runs, tag, workflow); var unmarked := MayHold(a, runId, limit);
            AdmissionTags(runs, runId, tag, workflow, limit).Admit? <==>
              exists c :: c in a && c.id == runId
                && (c in Admitted(a)
                    || |Ahead(a - Admitted(a) - unmarked, c)| < limit - |Admitted(a)| - |unmarked|)
  {
    var a := Elements(ActiveOf(runs, tag, workflow));
    AdmissionIff(runs, runId, tag, workflow, limit);
    MayHoldIs(a, runId, limit);
    assert a == RowsOf(runs, tag, workflow) && Admitted(a) == Holders(a);
    var waiters := a - Admitted(a) - MayHold(a, runId, limit);
    assert waiters == Waiters(a, Legacy(a, runId, limit));
    forall c | c in a ensures Ahead(waiters, c) == Older(waiters, c) { AheadIs(waiters, c); }
  }

  // ---- legacy accounting only delays ---------------------------------------------------------

  lemma {:induction false} SubsetSize<T>(s: set<T>, t: set<T>)
    requires s <= t
    ensures |s| <= |t|
  {
    if s != {} {
      var x :| x in s;
      SubsetSize(s - {x}, t - {x});
    }
  }

  /** Whatever the limit: admitted with legacy holders counted, admitted without. */
  lemma LegacyOnlyDelays(a: set<Run>, c: Run, limit: nat)
    requires c in a && !Holds(c) && Free(a, Legacy(a, c.id, limit), limit, c)
    ensures Free(a, {}, limit, c)
  {
    var legacy := Legacy(a, c.id, limit);
    var older := Older(Waiters(a, {}), c);
    assert older <= Older(Waiters(a, legacy), c) + legacy;
    SubsetSize(older, Older(Waiters(a, legacy), c) + legacy);
  }

  /** Every untagged run the old scan would rank is marked as tracked, but for `c`. */
  predicate AllTracked(a: set<Run>, c: Run) {
    forall r | r in a && r != c && Scanned(r.status) && !Holds(r) :: TRACKED in r.tags
  }

  predicate DistinctIds(a: set<Run>) { forall r, s | r in a && s in a && r.id == s.id :: r == s }

  /** With a limit of one, and every other run tracked, legacy accounting changes no decision. */
  lemma LimitOneUnchanged(a: set<Run>, c: Run)
    requires DistinctIds(a) && c in a && !Holds(c) && Scanned(c.status) && AllTracked(a, c)
    ensures Free(a, Legacy(a, c.id, 1), 1, c) <==> Free(a, {}, 1, c)
  {
    if Free(a, {}, 1, c) {
      assert Holders(a) == {};
      assert Older(Waiters(a, {}), c) == {};
      forall r | r in a && r.id != c.id && !Holds(r) ensures c in Older(InScan(a), r) {
        assert c in InScan(a) && r in Waiters(a, {});
        assert r !in Older(Waiters(a, {}), c);
      }
      assert Legacy(a, c.id, 1) == {};
    }
    if Free(a, Legacy(a, c.id, 1), 1, c) { LegacyOnlyDelays(a, c, 1); }
  }

  /** With no tagged holder and every other run tracked, the oldest waiter is admitted if it has run. */
  lemma OldestAdmitted(a: set<Run>, c: Run, limit: nat)
    requires DistinctIds(a) && c in a && Scanned(c.status) && limit >= 1 && AllTracked(a, c)
    requires Holders(a) == {} && forall r | r in a && r != c :: Before(c, r)
    ensures Free(a, Legacy(a, c.id, limit), limit, c)
  {
    var legacy := Legacy(a, c.id, limit);
    assert Older(Waiters(a, legacy), c) == {};
    assert forall r | r in legacy :: r in InScan(a) && |Older(InScan(a), r)| < limit;
    WindowSize(legacy + {c}, InScan(a), limit);
    assert c !in legacy;
  }

  /** The runs with fewer than `n` older ones. */
  function Window(s: set<Run>, n: nat): set<Run> { set r | r in s && |Older(s, r)| < n }

  /** There are `n` of them, when there are that many at all. */
  lemma {:induction false} WindowFull(s: set<Run>, n: nat)
    requires DistinctIds(s) && |s| >= n
    ensures |Window(s, n)| >= n
    decreases |s|
  {
    if |s| == n {
      forall r | r in s ensures |Older(s, r)| < n {
        assert Older(s, r) <= s - {r};
        SubsetSize(Older(s, r), s - {r});
      }
      assert Window(s, n) == s;
    } else {
      var last := Youngest(s);
      var rest := s - {last};
      WindowFull(rest, n);
      forall r | r in rest ensures Older(s, r) == Older(rest, r) { assert Before(r, last); }
      SubsetSize(Window(rest, n), Window(s, n));
    }
  }

  /** The slots left over go to the oldest waiter exactly when holders and legacy holders leave one. */
  lemma OldestIsFree(a: set<Run>, c: Run, limit: nat)
    requires c in a && !Holds(c) && Older(Waiters(a, {}), c) == {}
    ensures var legacy := Legacy(a, c.id, limit); Free(a, legacy, limit, c) <==> |Holders(a)| + |legacy| < limit
  {
    var legacy := Legacy(a, c.id, limit);
    assert Older(Waiters(a, legacy), c) <= Older(Waiters(a, {}), c);
  }

  /** All other runs tracked: the legacy holders are the waiters of the window. */
  lemma LegacyIsWindow(a: set<Run>, c: Run, limit: nat)
    requires DistinctIds(a) && c in a && !Holds(c) && AllTracked(a, c)
    ensures Legacy(a, c.id, limit) == Window(InScan(a), limit) - Holders(a) - {c}
    ensures DistinctIds(InScan(a))
  {
  }

  lemma HolderOutsideBlocks(a: set<Run>, c: Run, limit: nat, h: Run)
    requires DistinctIds(a) && c in a && !Holds(c) && AllTracked(a, c)
    requires h in Holders(a) && |Older(InScan(a), h)| >= limit
    ensures |Holders(a)| + |Legacy(a, c.id, limit)| >= limit
  {
    var legacy, window := Legacy(a, c.id, limit), Window(InScan(a), limit);
    LegacyIsWindow(a, c, limit);
    SubsetSize(Older(InScan(a), h), InScan(a));
    WindowFull(InScan(a), limit);
    assert window <= (Holders(a) - {h}) + legacy + {c};
    SubsetSize(window, (Holders(a) - {h}) + legacy + {c});
  }

  lemma HoldersInsideFree(a: set<Run>, c: Run, limit: nat)
    requires DistinctIds(a) && c in a && !Holds(c) && Scanned(c.status) && AllTracked(a, c)
    requires Older(Waiters(a, {}), c) == {} && |Holders(a)| < limit
    requires forall h | h in Holders(a) :: |Older(InScan(a), h)| < limit
    ensures |Holders(a)| + |Legacy(a, c.id, limit)| < limit
  {
    var legacy := Legacy(a, c.id, limit);
    LegacyIsWindow(a, c, limit);
    if |Older(InScan(a), c)| < limit {
      WindowSize(Holders(a) + legacy + {c}, InScan(a), limit);
    } else {
      forall r | r in legacy ensures false {
        assert r in Waiters(a, {}) && !Before(r, c) && r.id != c.id;
        assert Older(InScan(a), c) <= Older(InScan(a), r);
        SubsetSize(Older(InScan(a), c), Older(InScan(a), r));
      }
      assert legacy == {};
    }
  }

  /**
   * With every other run tracked and a slot free, the oldest waiter, running or suspended, takes it
   * exactly when every holder is inside the old scan's window: a holder younger than `limit` of the
   * runs ranked leaves the slot to waiters that count each other.
   */
  lemma FreeSlotIff(a: set<Run>, c: Run, limit: nat)
    requires DistinctIds(a) && c in a && !Holds(c) && Scanned(c.status) && AllTracked(a, c)
    requires Older(Waiters(a, {}), c) == {} && |Holders(a)| < limit
    ensures Free(a, Legacy(a, c.id, limit), limit, c) <==> forall h | h in Holders(a) :: |Older(InScan(a), h)| < limit
  {
    OldestIsFree(a, c, limit);
    if h :| h in Holders(a) && |Older(InScan(a), h)| >= limit {
      HolderOutsideBlocks(a, c, limit, h);
    } else {
      HoldersInsideFree(a, c, limit);
    }
  }

  /** One that has not run yet takes it exactly when the old scan does not fill its window. */
  lemma FreeSlotPendingIff(a: set<Run>, c: Run, limit: nat)
    requires DistinctIds(a) && c in a && !Holds(c) && !Scanned(c.status) && AllTracked(a, c)
    requires Older(Waiters(a, {}), c) == {} && |Holders(a)| < limit
    ensures Free(a, Legacy(a, c.id, limit), limit, c) <==> |InScan(a)| < limit
  {
    var legacy, window := Legacy(a, c.id, limit), Window(InScan(a), limit);
    OldestIsFree(a, c, limit);
    LegacyIsWindow(a, c, limit);
    if |InScan(a)| < limit {
      assert Holders(a) + legacy <= InScan(a);
      SubsetSize(Holders(a) + legacy, InScan(a));
    } else {
      WindowFull(InScan(a), limit);
      SubsetSize(window, Holders(a) + legacy);
    }
  }

  /** At most `n` runs have fewer than `n` older ones. */
  lemma {:induction false} WindowSize(w: set<Run>, s: set<Run>, n: nat)
    requires w <= s && DistinctIds(s) && forall r | r in w :: |Older(s, r)| < n
    ensures |w| <= n
  {
    if w != {} {
      var last := Youngest(w);
      assert w - {last} <= Older(s, last);
      SubsetSize(w - {last}, Older(s, last));
    }
  }

  lemma {:induction false} Youngest(w: set<Run>) returns (last: Run)
    requires w != {} && DistinctIds(w)
    ensures last in w && forall r | r in w && r != last :: Before(r, last)
  {
    var x :| x in w;
    if w == {x} {
      last := x;
    } else {
      var y := Youngest(w - {x});
      last := if Before(x, y) then y else x;
      assert x.id != y.id;
      forall r | r in w && r != last ensures Before(r, last) {
        assert r == x || r == y || Before(r, y);
      }
    }
  }
}
