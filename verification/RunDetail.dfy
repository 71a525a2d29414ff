/**
 * A run's detail two ways: from its whole checkpoint list, and from the store's `GROUP BY` buckets
 * plus the few rows they cannot speak for. Names, groups and child ids are opaque; a name stands for
 * its place in the order of names.
 */
module RunDetail {
  import opened Common

  datatype Status = Pending | Running | Completed | Failed | Other
  datatype Kind = Child | Folded | Spawn | Plain

  /**
   * A checkpoint. `reportsFailure`: its output says `ok: false`; `values`: how many children a folded
   * one stands for; `edges`: the child ids it points at.
   */
  datatype Step = Step(
    at: nat, name: int, kind: Kind, status: Status, group: Option<string>,
    enqueuedAt: int, startedAt: int, finishedAt: int, attempts: nat,
    reportsFailure: bool, values: nat, edges: seq<string>)

  /** What a fan's group says of it. */
  datatype Groups = Groups(size: string -> Option<nat>, failFast: string -> bool)

  predicate BySeq(s: seq<Step>) { forall i, j | 0 <= i < j < |s| :: s[i].at < s[j].at }

  predicate Ended(s: Status) { s != Pending && s != Running }

  /** `isFailedMember`. */
  predicate FailedMember(r: Step) {
    r.status == Failed || (r.kind == Child && r.status == Completed && r.reportsFailure)
  }

  /** A child row counts for one child, a plain one for none. */
  predicate EdgesOk(r: Step) {
    match r.kind
    case Child => |r.edges| == 1
    case Spawn => |r.edges| <= 1
    case Folded => true
    case Plain => r.edges == []
  }

  predicate Timeline(s: seq<Step>) { BySeq(s) && forall r | r in s :: EdgesOk(r) }

  // ---- lists ---------------------------------------------------------------------------------

  function Filter(s: seq<Step>, p: Step -> bool): seq<Step> {
    if s == [] then [] else Filter(s[..|s| - 1], p) + if p(s[|s| - 1]) then [s[|s| - 1]] else []
  }

  function Slice<T>(s: seq<T>, lo: nat, hi: nat): seq<T>
    requires lo <= hi
  {
    if hi <= |s| then s[lo..hi] else if lo <= |s| then s[lo..] else []
  }

  lemma {:induction false} FilterElements(s: seq<Step>, p: Step -> bool)
    ensures |Filter(s, p)| <= |s|
    ensures forall r :: r in Filter(s, p) <==> r in s && p(r)
  {
    if s != [] {
      FilterElements(s[..|s| - 1], p);
      assert s == s[..|s| - 1] + [s[|s| - 1]];
    }
  }

  lemma {:induction false} FilterBySeq(s: seq<Step>, p: Step -> bool)
    requires BySeq(s)
    ensures BySeq(Filter(s, p))
  {
    if s != [] {
      var init := s[..|s| - 1];
      FilterBySeq(init, p);
      FilterElements(init, p);
      forall r | r in Filter(init, p) ensures r.at < s[|s| - 1].at {
        var i :| 0 <= i < |init| && init[i] == r;
        assert s[i] == r;
      }
    }
  }

  lemma {:induction false} FilterSame(s: seq<Step>, p: Step -> bool, q: Step -> bool)
    requires forall r | r in s :: p(r) == q(r)
    ensures Filter(s, p) == Filter(s, q)
  {
    if s != [] {
      FilterSame(s[..|s| - 1], p, q);
    }
  }

  lemma {:induction false} FilterTwice(s: seq<Step>, p: Step -> bool, q: Step -> bool, both: Step -> bool)
    requires forall r | r in s :: both(r) == (p(r) && q(r))
    ensures Filter(Filter(s, p), q) == Filter(s, both)
  {
    if s != [] {
      var init, last := s[..|s| - 1], s[|s| - 1];
      FilterTwice(init, p, q, both);
      assert both(last) == (p(last) && q(last));
      assert Filter(init, p) + [] == Filter(init, p) && Filter(init, both) + [] == Filter(init, both);
      if p(last) { assert (Filter(init, p) + [last])[..|Filter(init, p) + [last]| - 1] == Filter(init, p); }
    }
  }

  lemma {:induction false} FilterAll(s: seq<Step>, p: Step -> bool)
    requires forall r | r in s :: p(r)
    ensures Filter(s, p) == s
  {
    if s != [] {
      FilterAll(s[..|s| - 1], p);
      assert s == s[..|s| - 1] + [s[|s| - 1]];
    }
  }

  /** `mergeBySeq`: both lists, sorted by position. */
  function Insert(r: Step, s: seq<Step>): seq<Step> {
    if s == [] || r.at < s[0].at then [r] + s else [s[0]] + Insert(r, s[1..])
  }

  function MergeBySeq(a: seq<Step>, b: seq<Step>): seq<Step> {
    if b == [] then a else Insert(b[|b| - 1], MergeBySeq(a, b[..|b| - 1]))
  }

  lemma {:induction false} InsertSorted(r: Step, s: seq<Step>)
    requires BySeq(s) && forall x | x in s :: x.at != r.at
    ensures BySeq(Insert(r, s)) && forall x :: x in Insert(r, s) <==> x == r || x in s
  {
    if s != [] && !(r.at < s[0].at) {
      assert s == [s[0]] + s[1..];
      InsertSorted(r, s[1..]);
      var t := Insert(r, s[1..]);
      forall k | 0 <= k < |t| ensures s[0].at < t[k].at {
        assert t[k] in t;
        assert t[k] == r || t[k] in s[1..];
        if t[k] in s[1..] { var i :| 0 <= i < |s[1..]| && s[1..][i] == t[k]; assert s[i + 1] == t[k]; }
      }
    }
  }

  lemma {:induction false} MergeSorted(a: seq<Step>, b: seq<Step>)
    requires BySeq(a) && BySeq(b) && forall x, y | x in a && y in b :: x.at != y.at
    ensures BySeq(MergeBySeq(a, b)) && forall x :: x in MergeBySeq(a, b) <==> x in a || x in b
  {
    if b != [] {
      var init, last := b[..|b| - 1], b[|b| - 1];
      assert b == init + [last];
      MergeSorted(a, init);
      forall x | x in MergeBySeq(a, init) ensures x.at != last.at {
        if x in init { var i :| 0 <= i < |init| && init[i] == x; assert b[i] == x; }
      }
      InsertSorted(last, MergeBySeq(a, init));
    }
  }

  /** A list in position order is told by its elements. */
  lemma {:induction false} SortedUnique(a: seq<Step>, b: seq<Step>)
    requires BySeq(a) && BySeq(b) && forall x :: x in a <==> x in b
    ensures a == b
    decreases |a|
  {
    if a == [] {
      HasElement(b);
    } else {
      assert a[0] in b;
      assert b[0] in a;
      assert a[0] == b[0];
      forall x ensures x in a[1..] <==> x in b[1..] {
        TailElements(a, x);
        TailElements(b, x);
      }
      SortedUnique(a[1..], b[1..]);
    }
  }

  lemma HasElement(s: seq<Step>)
    ensures s != [] ==> exists x :: x in s
  {
    if s != [] { assert s[0] in s; }
  }

  lemma TailElements(s: seq<Step>, x: Step)
    requires BySeq(s) && s != []
    ensures x in s[1..] <==> x in s && x != s[0]
  {
    if x in s && x != s[0] {
      var i :| 0 <= i < |s| && s[i] == x;
      assert s[1..][i - 1] == x;
    }
  }

  /** Two disjoint selections of a timeline, merged, are the selection of either. */
  lemma MergeSelections(s: seq<Step>, p: Step -> bool, q: Step -> bool, either: Step -> bool)
    requires BySeq(s) && forall r | r in s :: !(p(r) && q(r)) && either(r) == (p(r) || q(r))
    ensures MergeBySeq(Filter(s, p), Filter(s, q)) == Filter(s, either)
  {
    FilterElements(s, p);
    FilterElements(s, q);
    FilterElements(s, either);
    FilterBySeq(s, p);
    FilterBySeq(s, q);
    FilterBySeq(s, either);
    forall x, y | x in Filter(s, p) && y in Filter(s, q) ensures x.at != y.at {
      if x.at == y.at { SamePlace(s, x, y); }
    }
    MergeSorted(Filter(s, p), Filter(s, q));
    SortedUnique(MergeBySeq(Filter(s, p), Filter(s, q)), Filter(s, either));
  }

  lemma SamePlace(s: seq<Step>, x: Step, y: Step)
    requires BySeq(s) && x in s && y in s && x.at == y.at
    ensures x == y
  {
    var i :| 0 <= i < |s| && s[i] == x;
    var j :| 0 <= j < |s| && s[j] == y;
  }

  lemma {:induction false} InsertFirst(r: Step, s: seq<Step>, n: nat)
    ensures Slice(Insert(r, Slice(s, 0, n)), 0, n) == Slice(Insert(r, s), 0, n)
    decreases |s|
  {
    if n > 0 && s != [] && !(r.at < s[0].at) {
      InsertFirst(r, s[1..], n - 1);
      assert Slice(s, 0, n)[1..] == Slice(s[1..], 0, n - 1);
      assert Slice(Insert(r, s), 0, n) == [s[0]] + Slice(Insert(r, s[1..]), 0, n - 1);
      assert Slice(Insert(r, Slice(s, 0, n)), 0, n) == [s[0]] + Slice(Insert(r, Slice(s[1..], 0, n - 1)), 0, n - 1);
    }
  }

  /** The first `n` of a merge are among the first `n` of each side. */
  lemma {:induction false} MergeFirst(a: seq<Step>, b: seq<Step>, n: nat)
    ensures Slice(MergeBySeq(Slice(a, 0, n), b), 0, n) == Slice(MergeBySeq(a, b), 0, n)
    decreases |b|
  {
    if b != [] {
      var init, last := b[..|b| - 1], b[|b| - 1];
      MergeFirst(a, init, n);
      InsertFirst(last, MergeBySeq(a, init), n);
      InsertFirst(last, MergeBySeq(Slice(a, 0, n), init), n);
    }
  }

  // ---- what a list of members adds up to -----------------------------------------------------

  /** The running totals of a fan: `None` where nothing has been counted yet. */
  datatype Totals = Totals(
    first: Option<int>, last: Option<int>, started: Option<int>, finished: Option<int>,
    minName: Option<int>, maxName: Option<int>, children: bool, counts: map<Status, nat>, size: nat)

  const ZERO := Totals(None, None, None, None, None, None, false, map[], 0)

  function Least(a: Option<int>, b: Option<int>): Option<int> {
    match (a, b)
    case (Some(x), Some(y)) => if y < x then b else a
    case (Some(_), None) => a
    case _ => b
  }

  function Most(a: Option<int>, b: Option<int>): Option<int> {
    match (a, b)
    case (Some(x), Some(y)) => if y > x then b else a
    case (Some(_), None) => a
    case _ => b
  }

  function Count(m: map<Status, nat>, s: Status): nat { if s in m then m[s] else 0 }

  function AddCounts(a: map<Status, nat>, b: map<Status, nat>): map<Status, nat> {
    map s | s in a.Keys + b.Keys :: Count(a, s) + Count(b, s)
  }

  function Plus(a: Totals, b: Totals): Totals {
    Totals(Least(a.first, b.first), Most(a.last, b.last), Least(a.started, b.started), Most(a.finished, b.finished),
           Least(a.minName, b.minName), Most(a.maxName, b.maxName), a.children || b.children,
           AddCounts(a.counts, b.counts), a.size + b.size)
  }

  lemma PlusZero(a: Totals)
    ensures Plus(a, ZERO) == a && Plus(ZERO, a) == a
  {
    assert AddCounts(a.counts, map[]) == a.counts && AddCounts(map[], a.counts) == a.counts;
  }

  lemma PlusComm(a: Totals, b: Totals)
    ensures Plus(a, b) == Plus(b, a)
  {
    assert AddCounts(a.counts, b.counts) == AddCounts(b.counts, a.counts);
  }

  lemma PlusAssoc(a: Totals, b: Totals, c: Totals)
    ensures Plus(Plus(a, b), c) == Plus(a, Plus(b, c))
  {
    assert AddCounts(AddCounts(a.counts, b.counts), c.counts) == AddCounts(a.counts, AddCounts(b.counts, c.counts));
  }

  function StatusOf(r: Step): Status { if FailedMember(r) then Failed else r.status }

  function Weight(r: Step): nat { if r.kind == Folded then r.values else 1 }

  /** Only its payload says how a row counts: a folded one, or a completed child. */
  predicate ByPayload(kind: Kind, status: Status) { kind == Folded || (kind == Child && status == Completed) }

  /** What a row's own columns add, leaving out the counts only its payload can say. */
  function Columns(r: Step): Totals {
    var (started, finished) := if Ended(r.status) then (r.startedAt, Some(r.finishedAt)) else (r.enqueuedAt, None);
    Totals(Some(r.at), Some(r.at), Some(started), finished, Some(r.name), Some(r.name),
           r.kind == Child || r.kind == Folded,
           if ByPayload(r.kind, r.status) then map[] else map[r.status := 1],
           if ByPayload(r.kind, r.status) then 0 else 1)
  }

  function Payload(r: Step): Totals {
    if ByPayload(r.kind, r.status) then ZERO.(counts := map[StatusOf(r) := Weight(r)], size := Weight(r)) else ZERO
  }

  /** What a member adds to its fan. */
  function Member(r: Step): Totals {
    Columns(r).(counts := map[StatusOf(r) := Weight(r)], size := Weight(r))
  }

  lemma MemberSplits(r: Step)
    ensures Member(r) == Plus(Columns(r), Payload(r))
  {
    PlusZero(Columns(r));
    assert AddCounts(map[], map[StatusOf(r) := Weight(r)]) == map[StatusOf(r) := Weight(r)];
  }

  function Sum(s: seq<Step>, f: Step -> Totals): Totals {
    if s == [] then ZERO else Plus(Sum(s[..|s| - 1], f), f(s[|s| - 1]))
  }

  lemma {:induction false} SumSplits(s: seq<Step>)
    ensures Sum(s, Member) == Plus(Sum(s, Columns), Sum(s, Payload))
  {
    if s == [] {
      PlusZero(ZERO);
    } else {
      var init, last := s[..|s| - 1], s[|s| - 1];
      SumSplits(init);
      MemberSplits(last);
      Exchange(Sum(init, Columns), Sum(init, Payload), Columns(last), Payload(last));
    }
  }

  lemma Exchange(a: Totals, b: Totals, c: Totals, d: Totals)
    ensures Plus(Plus(a, b), Plus(c, d)) == Plus(Plus(a, c), Plus(b, d))
  {
    PlusAssoc(a, b, Plus(c, d));
    PlusAssoc(b, c, d);
    PlusComm(b, c);
    PlusAssoc(c, b, d);
    PlusAssoc(a, c, Plus(b, d));
  }
}
