/** What the totals of a list of members say of the members, row by row. */
module RunDetailTotals {
  import opened Common
  import opened RunDetail

  /** A failed step, or a completed child that reports a failure. */
  predicate Fails(r: Step) { r.status == Failed || (r.kind == Child && r.status == Completed && r.reportsFailure) }

  /** How many children the rows that satisfy `p` stand for: a folded row for those folded, any other for one. */
  function Weigh(s: seq<Step>, p: Step -> bool): nat {
    if s == [] then 0
    else
      var last := s[|s| - 1];
      Weigh(s[..|s| - 1], p) + if p(last) then (if last.kind == Folded then last.values else 1) else 0
  }

  /** Those counted under `status`: every failing member under `Failed`, any other under its own. */
  function Counted(s: seq<Step>, status: Status): nat {
    if status == Failed then Weigh(s, (r: Step) => Fails(r)) else Weigh(s, (r: Step) => !Fails(r) && r.status == status)
  }

  lemma WeighSnoc(s: seq<Step>, r: Step, p: Step -> bool)
    ensures Weigh(s + [r], p) == Weigh(s, p) + if p(r) then (if r.kind == Folded then r.values else 1) else 0
  {
    assert (s + [r])[..|s|] == s;
  }

  lemma CountedSnoc(s: seq<Step>, r: Step, status: Status)
    ensures Counted(s + [r], status)
            == Counted(s, status)
               + if Fails(r) == (status == Failed) && (Fails(r) || r.status == status)
                 then (if r.kind == Folded then r.values else 1) else 0
  {
    WeighSnoc(s, r, (x: Step) => Fails(x));
    WeighSnoc(s, r, (x: Step) => !Fails(x) && x.status == status);
  }

  /** `x` is the least of the keys that the rows have, if any has one. */
  ghost predicate IsLeast(s: seq<Step>, key: Step -> Option<int>, x: Option<int>) {
    if x == None then forall r | r in s :: key(r) == None
    else (exists r :: r in s && key(r) == x) && forall r | r in s && key(r).Some? :: x.value <= key(r).value
  }

  ghost predicate IsMost(s: seq<Step>, key: Step -> Option<int>, x: Option<int>) {
    if x == None then forall r | r in s :: key(r) == None
    else (exists r :: r in s && key(r) == x) && forall r | r in s && key(r).Some? :: x.value >= key(r).value
  }

  lemma LeastSnoc(s: seq<Step>, r: Step, key: Step -> Option<int>, x: Option<int>)
    requires IsLeast(s, key, x)
    ensures IsLeast(s + [r], key, Least(x, key(r)))
  {
    assert forall y :: y in s + [r] <==> y in s || y == r;
    if x.Some? { var y :| y in s && key(y) == x; assert y in s + [r]; }
  }

  lemma MostSnoc(s: seq<Step>, r: Step, key: Step -> Option<int>, x: Option<int>)
    requires IsMost(s, key, x)
    ensures IsMost(s + [r], key, Most(x, key(r)))
  {
    assert forall y :: y in s + [r] <==> y in s || y == r;
    if x.Some? { var y :| y in s && key(y) == x; assert y in s + [r]; }
  }

  function Place(r: Step): Option<int> { Some(r.at) }

  /** When a row's work began: queued, for one not begun or not over. */
  function Began(r: Step): Option<int> {
    Some(if r.status == Pending || r.status == Running then r.enqueuedAt else r.startedAt)
  }

  function Over(r: Step): Option<int> {
    if r.status == Pending || r.status == Running then None else Some(r.finishedAt)
  }

  /** The ranges of the totals are those of the rows. */
  ghost predicate RangesMean(s: seq<Step>, t: Totals) {
    && IsLeast(s, Place, t.first) && IsMost(s, Place, t.last)
    && IsLeast(s, Began, t.started) && IsMost(s, Over, t.finished)
  }

  /** Their counts are those of the rows, and add up to the size. */
  ghost predicate CountsMean(s: seq<Step>, counts: map<Status, nat>, size: nat) {
    && (forall status :: Count(counts, status) == Counted(s, status))
    && size == Counted(s, Pending) + Counted(s, Running) + Counted(s, Completed) + Counted(s, Failed)
       + Counted(s, Other)
  }

  lemma RangesSnoc(s: seq<Step>, t: Totals, r: Step)
    requires RangesMean(s, t)
    ensures RangesMean(s + [r], Plus(t, Member(r)))
  {
    LeastSnoc(s, r, Place, t.first);
    MostSnoc(s, r, Place, t.last);
    LeastSnoc(s, r, Began, t.started);
    MostSnoc(s, r, Over, t.finished);
  }

  lemma CountsSnoc(s: seq<Step>, t: Totals, r: Step)
    requires CountsMean(s, t.counts, t.size)
    ensures CountsMean(s + [r], Plus(t, Member(r)).counts, Plus(t, Member(r)).size)
  {
    var u := Plus(t, Member(r));
    forall status ensures Count(u.counts, status) == Counted(s + [r], status) {
      CountedSnoc(s, r, status);
      assert Count(u.counts, status) == Count(t.counts, status) + Count(Member(r).counts, status);
    }
    CountedSnoc(s, r, Pending);
    CountedSnoc(s, r, Running);
    CountedSnoc(s, r, Completed);
    CountedSnoc(s, r, Failed);
    CountedSnoc(s, r, Other);
  }

  /** The totals of a list of members: its counts by status, failures under their own, and its ranges. */
  lemma {:induction false} TotalsMean(s: seq<Step>)
    ensures RangesMean(s, Sum(s, Member)) && CountsMean(s, Sum(s, Member).counts, Sum(s, Member).size)
  {
    if s == [] {
      forall status ensures Counted([], status) == 0 {
      }
    } else {
      var init, last := s[..|s| - 1], s[|s| - 1];
      TotalsMean(init);
      RangesSnoc(init, Sum(init, Member), last);
      CountsSnoc(init, Sum(init, Member), last);
      assert s == init + [last];
    }
  }

  /** Some member is counted as failed exactly when one fails that stands for any child. */
  lemma {:induction false} FailedCounted(s: seq<Step>)
    ensures Counted(s, Failed) > 0 <==> exists r :: r in s && Fails(r) && (r.kind == Folded ==> r.values > 0)
  {
    if s != [] {
      var init, last := s[..|s| - 1], s[|s| - 1];
      FailedCounted(init);
      CountedSnoc(init, last, Failed);
      assert s == init + [last];
      assert forall y :: y in s <==> y in init || y == last;
    }
  }

  /** The rows among the first `n` that fail, in order. */
  ghost predicate FirstFailing(s: seq<Step>, n: nat, failures: seq<Step>) {
    && |failures| <= n && failures <= Filter(s, Fails) && (|failures| < n ==> failures == Filter(s, Fails))
  }

  lemma FailingIs(s: seq<Step>, n: nat)
    ensures FirstFailing(s, n, Slice(Filter(s, FailedMember), 0, n))
    ensures Filter(s, FailedMember) == Filter(s, Fails)
  {
    FilterSame(s, FailedMember, Fails);
  }
}
