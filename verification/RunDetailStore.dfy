/** The run detail read through the store's aggregates, against the one made of the whole list. */
module RunDetailStore {
  import opened Common
  import opened RunDetail
  import opened RunDetailStats
  import opened RunDetailTotals

  const SUMMARY_CHILD_LIMIT: nat := 200

  datatype Label = ChildRuns | Named(name: int) | Steps

  datatype FanSummary = FanSummary(
    group: string, heading: Label, firstSeq: Option<int>, lastSeq: Option<int>, size: nat,
    total: Option<nat>, notStarted: Option<nat>, failFast: bool,
    counts: map<Status, nat>, startedAt: Option<int>, finishedAt: Option<int>, failures: seq<Step>)

  predicate ChildEdge(r: Step) { r.kind == Child || r.kind == Folded }

  /** `fanLabel`. */
  function FanLabel(members: seq<Step>): Label
    requires members != []
  {
    if exists r :: r in members && ChildEdge(r) then ChildRuns
    else if forall r | r in members :: r.name == members[0].name then Named(members[0].name) else Steps
  }

  function Summary(gs: Groups, group: string, t: Totals, heading: Label, failures: seq<Step>): FanSummary {
    var total := gs.size(group);
    FanSummary(group, heading, t.first, t.last, t.size, total,
               if total == None then None else Some(if total.value >= t.size then total.value - t.size else 0),
               gs.failFast(group), t.counts, t.started, t.finished, failures)
  }

  /** `summarizeFan`. */
  function SummaryOf(gs: Groups, group: string, members: seq<Step>): FanSummary
    requires members != []
  {
    Summary(gs, group, Sum(members, Member), FanLabel(members),
        Slice(Filter(members, FailedMember), 0, FAN_SUMMARY_FAILURES))
  }

  /** What its members are called: child runs, or by their one name, or steps. */
  ghost predicate Headed(members: seq<Step>, heading: Label) {
    match heading
    case ChildRuns => exists r :: r in members && (r.kind == Child || r.kind == Folded)
    case Named(name) => forall r | r in members :: r.kind != Child && r.kind != Folded && r.name == name
    case Steps =>
      && (forall r | r in members :: r.kind != Child && r.kind != Folded)
      && exists x, y :: x in members && y in members && x.name != y.name
  }

  /** The first 20 rows that fail, some if any does; and a child is counted as failed if one of them stands for any. */
  ghost predicate FailuresMean(members: seq<Step>, counts: map<Status, nat>, failures: seq<Step>) {
    && FirstFailing(members, 20, failures) && (failures != [] <==> exists r :: r in members && Fails(r))
    && (Count(counts, Failed) > 0 <==> exists r :: r in members && Fails(r) && (r.kind == Folded ==> r.values > 0))
  }

  /**
   * What a fan's summary says of its members: how many children are in each status, a child that
   * reports a failure among the failed; their places and times; which fail; how many of the declared
   * children have no row yet; and what they are called.
   */
  ghost predicate Means(gs: Groups, group: string, members: seq<Step>, f: FanSummary) {
    && f.group == group && CountsMean(members, f.counts, f.size)
    && IsLeast(members, Place, f.firstSeq) && IsMost(members, Place, f.lastSeq)
    && IsLeast(members, Began, f.startedAt) && IsMost(members, Over, f.finishedAt)
    && FailuresMean(members, f.counts, f.failures)
    && f.total == gs.size(group) && f.failFast == gs.failFast(group)
    && f.notStarted == (match gs.size(group)
                        case None => None
                        case Some(n) => Some(if n > f.size then n - f.size else 0))
    && Headed(members, f.heading)
  }

  lemma HeadingMeans(members: seq<Step>)
    requires members != []
    ensures Headed(members, FanLabel(members))
  {
    forall r | r in members && (r.kind == Child || r.kind == Folded) ensures ChildEdge(r) {
    }
    assert members[0] in members;
  }

  lemma FirstFailuresMean(members: seq<Step>)
    ensures FailuresMean(members, Sum(members, Member).counts, Slice(Filter(members, FailedMember), 0, 20))
  {
    TotalsMean(members);
    FailedCounted(members);
    FailingIs(members, 20);
    FilterElements(members, Fails);
    HasElement(Filter(members, Fails));
  }

  lemma SummaryMeans(gs: Groups, group: string, members: seq<Step>)
    requires members != []
    ensures Means(gs, group, members, SummaryOf(gs, group, members))
  {
    TotalsMean(members);
    FirstFailuresMean(members);
    HeadingMeans(members);
  }

  /** The accumulators of a summary, updated row by row or bucket by bucket. */
  class Tally {
    var t: Totals

    constructor ()
      ensures t == ZERO
    {
      t := ZERO;
    }

    method Range(first: int, last: int, started: int, finished: Option<int>)
      modifies this
      ensures t == old(t).(first := Least(old(t.first), Some(first)), last := Most(old(t.last), Some(last)),
                           started := Least(old(t.started), Some(started)), finished := Most(old(t.finished), finished))
    {
      if t.first == None || first < t.first.value { t := t.(first := Some(first)); }
      if t.last == None || last > t.last.value { t := t.(last := Some(last)); }
      if t.started == None || started < t.started.value { t := t.(started := Some(started)); }
      if finished.Some? && (t.finished == None || finished.value > t.finished.value) { t := t.(finished := finished); }
    }

    method Names(min: int, max: int, child: bool)
      modifies this
      ensures t == old(t).(minName := Least(old(t.minName), Some(min)), maxName := Most(old(t.maxName), Some(max)),
                           children := old(t.children) || child)
    {
      if t.minName == None || min < t.minName.value { t := t.(minName := Some(min)); }
      if t.maxName == None || max > t.maxName.value { t := t.(maxName := Some(max)); }
      if child { t := t.(children := true); }
    }

    method Add(status: Status, n: nat)
      modifies this
      ensures t == old(t).(counts := AddCounts(old(t.counts), map[status := n]), size := old(t.size) + n)
    {
      t := t.(counts := t.counts[status := Count(t.counts, status) + n], size := t.size + n);
      assert t.counts == AddCounts(old(t.counts), map[status := n]);
    }

    method AddMember(r: Step)
      modifies this
      ensures t == Plus(old(t), Member(r))
    {
      if Ended(r.status) {
        Range(r.at, r.at, r.startedAt, Some(r.finishedAt));
      } else {
        Range(r.at, r.at, r.enqueuedAt, None);
      }
      Names(r.name, r.name, ChildEdge(r));
      Add(StatusOf(r), Weight(r));
    }

    method AddBucket(b: Bucket)
      modifies this
      ensures t == Plus(old(t), OfBucket(b))
    {
      if Ended(b.status) {
        Range(b.minSeq, b.maxSeq, b.minStarted, Some(b.maxFinished));
      } else {
        Range(b.minSeq, b.maxSeq, b.minEnqueued, None);
      }
      Names(b.minName, b.maxName, b.kind == Child || b.kind == Folded);
      if !ByPayload(b.kind, b.status) {
        Add(b.status, b.count);
      } else {
        assert AddCounts(old(t.counts), map[]) == old(t.counts);
      }
    }

    method AddPayload(r: Step)
      requires ByPayload(r.kind, r.status)
      modifies this
      ensures t == Plus(old(t), Payload(r))
    {
      Add(StatusOf(r), Weight(r));
    }
  }

  /** The full scan of one fan. */
  method SummarizeFan(gs: Groups, group: string, members: seq<Step>) returns (f: FanSummary)
    requires members != []
    ensures f == SummaryOf(gs, group, members)
    ensures Means(gs, group, members, f)
  {
    var tally := new Tally();
    var failures := [];
    for i := 0 to |members|
      invariant fresh(tally) && tally.t == Sum(members[..i], Member)
      invariant failures == Slice(Filter(members[..i], FailedMember), 0, FAN_SUMMARY_FAILURES)
    {
      assert members[..i + 1] == members[..i] + [members[i]];
      FailuresSnoc(members[..i], members[i]);
      SumSnoc(members[..i], members[i], Member);
      tally.AddMember(members[i]);
      if FailedMember(members[i]) && |failures| < FAN_SUMMARY_FAILURES {
        failures := failures + [members[i]];
      }
    }
    assert members[..|members|] == members;
    f := Summary(gs, group, tally.t, FanLabel(members), failures);
    SummaryMeans(gs, group, members);
  }

  lemma FailuresSnoc(s: seq<Step>, r: Step)
    ensures var n := FAN_SUMMARY_FAILURES; var failures := Slice(Filter(s, FailedMember), 0, n);
            Slice(Filter(s + [r], FailedMember), 0, n) == if FailedMember(r) && |failures| < n then failures + [r]
              else failures
  {
    FilterSnoc(s, r, FailedMember);
  }

  lemma SumSnoc(s: seq<Step>, r: Step, f: Step -> Totals)
    ensures Sum(s + [r], f) == Plus(Sum(s, f), f(r))
  {
    assert (s + [r])[..|s|] == s;
  }

  // ---- a fan from its buckets ----------------------------------------------------------------

  /** What the totals say of the members' names. */
  ghost predicate NamesIn(members: seq<Step>, t: Totals) {
    && (t.children <==> exists r :: r in members && ChildEdge(r))
    && t.minName.Some? && t.maxName.Some?
    && (forall r | r in members :: t.minName.value <= r.name <= t.maxName.value)
    && (exists r :: r in members && r.name == t.minName.value)
       && (exists r :: r in members && r.name == t.maxName.value)
  }

  lemma NamesGrow(init: seq<Step>, t: Totals, last: Step)
    requires NamesIn(init, t)
    ensures NamesIn(init + [last], Plus(t, Member(last)))
  {
    var members, u := init + [last], Plus(t, Member(last));
    assert forall r :: r in members <==> r in init || r == last;
    if u.minName == t.minName { var r :| r in init && r.name == t.minName.value; assert r in members; }
    if u.maxName == t.maxName { var r :| r in init && r.name == t.maxName.value; assert r in members; }
  }

  lemma NamesOfOne(r: Step)
    ensures NamesIn([r], Plus(ZERO, Member(r)))
  {
    assert r in [r];
  }

  lemma {:induction false} NamesOf(members: seq<Step>, t: Totals)
    requires members != [] && t == Sum(members, Member)
    ensures NamesIn(members, t)
  {
    var init, last := members[..|members| - 1], members[|members| - 1];
    var u := Sum(init, Member);
    assert members == init + [last];
    SumSnoc(init, last, Member);
    if init == [] {
      NamesOfOne(last);
      assert [] + [last] == [last];
    } else {
      NamesOf(init, u);
      NamesGrow(init, u, last);
    }
  }

  function LabelOf(t: Totals): Label {
    if t.children then ChildRuns
    else if t.minName == t.maxName then Named(if t.minName.Some? then t.minName.value else 0) else Steps
  }

  lemma LabelsAgree(members: seq<Step>)
    requires members != []
    ensures LabelOf(Sum(members, Member)) == FanLabel(members)
  {
    var t := Sum(members, Member);
    NamesOf(members, t);
    assert members[0] in members;
    if t.minName == t.maxName {
      forall r | r in members ensures r.name == members[0].name {
      }
    }
  }

  /** A read of the store: the rows that match, in position order. */
  datatype Query = Query(group: Option<string>, excluded: set<string>, statuses: Option<Status>, kinds: set<Kind>)

  predicate Matches(q: Query, r: Step) {
    && (q.group == None || r.group == q.group) && (r.group == None || r.group.value !in q.excluded)
    && (q.statuses == None || r.status == q.statuses.value) && r.kind in q.kinds
  }

  const EVERY := {Child, Folded, Spawn, Plain}

  /** `queryCheckpointsOf` on a list already in position order. */
  function QueryOf(s: seq<Step>, q: Query): seq<Step> { Filter(s, (r: Step) => Matches(q, r)) }

  /** `failedChildren`: the completed child rows of the group, if its buckets have any. */
  method CompletedChildren(s: seq<Step>, group: string, buckets: seq<Bucket>) returns (completed: seq<Step>)
    requires buckets == StatsOf(MembersOf(s, group))
    ensures completed == Filter(s, (r: Step) => r.group == Some(group) && r.kind == Child && r.status == Completed)
  {
    var p := (status: Status, kind: Kind) => kind == Child && status == Completed;
    var some := exists b :: b in buckets && b.kind == Child && b.status == Completed;
    var q := Query(Some(group), {}, Some(Completed), {Child});
    var wanted := (r: Step) => r.group == Some(group) && r.kind == Child && r.status == Completed;
    FilterSame(s, (r: Step) => Matches(q, r), wanted);
    if some {
      completed := QueryOf(s, q);
    } else {
      StatsHave(MembersOf(s, group), p);
      FilterElements(s, wanted);
      FilterElements(s, (r: Step) => r.group == Some(group));
      HasElement(Filter(s, wanted));
      completed := [];
    }
  }

  lemma PlainAdds(s: seq<Step>, r: Step, f: Step -> bool, rest: Totals)
    requires Payload(r) == ZERO && !f(r)
    ensures Sum(Filter(s + [r], f), Payload) == Sum(Filter(s, f), Payload) && Plus(rest, Payload(r)) == rest
  {
    FilterSnoc(s, r, f);
    PlusZero(rest);
  }

  lemma PickedAdds(s: seq<Step>, r: Step, f: Step -> bool)
    requires f(r)
    ensures Sum(Filter(s + [r], f), Payload) == Plus(Sum(Filter(s, f), Payload), Payload(r))
  {
    FilterSnoc(s, r, f);
    SumSnoc(Filter(s, f), r, Payload);
  }

  lemma SplitStep(s: seq<Step>, r: Step, folded: Step -> bool, done: Step -> bool, all: Totals)
    requires folded(r) == (r.kind == Folded) && done(r) == (r.kind == Child && r.status == Completed)
    requires all == Plus(Sum(Filter(s, folded), Payload), Sum(Filter(s, done), Payload))
    ensures Plus(all, Payload(r)) == Plus(Sum(Filter(s + [r], folded), Payload), Sum(Filter(s + [r], done), Payload))
  {
    var a, b := Sum(Filter(s, folded), Payload), Sum(Filter(s, done), Payload);
    if folded(r) {
      FilterSnoc(s, r, done);
      PickedAdds(s, r, folded);
      Swap(a, b, Payload(r));
    } else if done(r) {
      FilterSnoc(s, r, folded);
      PickedAdds(s, r, done);
      PlusAssoc(a, b, Payload(r));
    } else {
      PlainAdds(s, r, folded, all);
      PlainAdds(s, r, done, all);
    }
  }

  /** The rows the payload loops read add what all members' payloads do. */
  lemma {:induction false} PayloadSplits(ms: seq<Step>, folded: Step -> bool, done: Step -> bool)
    requires forall r | r in ms ::
               folded(r) == (r.kind == Folded) && done(r) == (r.kind == Child && r.status == Completed)
    ensures Sum(ms, Payload) == Plus(Sum(Filter(ms, folded), Payload), Sum(Filter(ms, done), Payload))
  {
    if ms == [] {
      PlusZero(ZERO);
    } else {
      var init, last := ms[..|ms| - 1], ms[|ms| - 1];
      assert ms == init + [last];
      assert last in ms;
      PayloadSplits(init, folded, done);
      SplitStep(init, last, folded, done, Sum(init, Payload));
      SumSnoc(init, last, Payload);
    }
  }

  /** The failed members, from the failed rows and the failed children. */
  lemma FailuresMerge(s: seq<Step>, group: string, failed: Step -> bool, child: Step -> bool, n: nat)
    requires BySeq(s)
    requires forall r :: failed(r) == (r.group == Some(group) && r.status == Failed)
    requires forall r ::
               child(r) == (r.group == Some(group) && r.kind == Child && r.status == Completed && r.reportsFailure)
    ensures MergeBySeq(Filter(s, failed), Filter(s, child)) == Filter(MembersOf(s, group), FailedMember)
    ensures Slice(MergeBySeq(Slice(Filter(s, failed), 0, n), Filter(s, child)), 0, n)
            == Slice(Filter(MembersOf(s, group), FailedMember), 0, n)
  {
    var mine := (r: Step) => r.group == Some(group);
    var either := (r: Step) => r.group == Some(group) && FailedMember(r);
    MergeSelections(s, failed, child, either);
    FilterTwice(s, mine, FailedMember, either);
    MergeFirst(Filter(s, failed), Filter(s, child), n);
  }

  function FailedRows(group: string): Query { Query(Some(group), {}, Some(Failed), EVERY) }

  /** The rows of a group that failed outright, if its buckets have any. */
  method FailedStatus(s: seq<Step>, group: string, buckets: seq<Bucket>, limit: nat) returns (rows: seq<Step>)
    requires buckets == StatsOf(MembersOf(s, group))
    ensures rows == Slice(QueryOf(s, FailedRows(group)), 0, limit)
  {
    if exists b :: b in buckets && b.status == Failed {
      rows := Slice(QueryOf(s, FailedRows(group)), 0, limit);
    } else {
      StatsHave(MembersOf(s, group), (status: Status, kind: Kind) => status == Failed);
      FilterElements(s, (r: Step) => Matches(FailedRows(group), r));
      FilterElements(s, (r: Step) => r.group == Some(group));
      HasElement(QueryOf(s, FailedRows(group)));
      rows := [];
    }
  }

  /** `summarizeFanFromStats`: the buckets, then the rows whose payload alone says how they count. */
  method SummarizeFanFromStats(gs: Groups, s: seq<Step>, group: string, buckets: seq<Bucket>, folded: seq<Step>)
    returns (f: FanSummary)
    requires BySeq(s) && MembersOf(s, group) != [] && buckets == StatsOf(MembersOf(s, group))
    requires folded == Filter(s, (r: Step) => r.group == Some(group) && r.kind == Folded)
    ensures f == SummaryOf(gs, group, MembersOf(s, group))
    ensures Means(gs, group, MembersOf(s, group), f)
  {
    var tally := new Tally();
    AddBuckets(tally, buckets);
    PayloadRows(s, group);
    AddPayloads(tally, folded);
    var completed := CompletedChildren(s, group, buckets);
    AddPayloads(tally, completed);
    PlusZeroLeft(SumBuckets(buckets));
    TotalsAgree(s, group, folded, completed);
    LabelsAgree(MembersOf(s, group));
    var failures := FirstFailures(s, group, buckets, completed);
    f := Summary(gs, group, tally.t, LabelOf(tally.t), failures);
    SummaryMeans(gs, group, MembersOf(s, group));
  }

  lemma PlusZeroLeft(t: Totals)
    ensures Plus(ZERO, t) == t
  {
    PlusZero(t);
  }

  lemma PayloadRows(s: seq<Step>, group: string)
    ensures forall r | r in Filter(s, (r: Step) => r.group == Some(group) && r.kind == Folded) ::
              ByPayload(r.kind, r.status)
    ensures forall r | r in Filter(s, (r: Step) =>
                                     r.group == Some(group) && r.kind == Child && r.status == Completed) ::
              ByPayload(r.kind, r.status)
  {
    FilterElements(s, (r: Step) => r.group == Some(group) && r.kind == Folded);
    FilterElements(s, (r: Step) => r.group == Some(group) && r.kind == Child && r.status == Completed);
  }

  method FirstFailures(s: seq<Step>, group: string, buckets: seq<Bucket>, completed: seq<Step>)
    returns (failures: seq<Step>)
    requires BySeq(s) && buckets == StatsOf(MembersOf(s, group))
    requires completed == Filter(s, (r: Step) => r.group == Some(group) && r.kind == Child && r.status == Completed)
    ensures failures == Slice(Filter(MembersOf(s, group), FailedMember), 0, FAN_SUMMARY_FAILURES)
  {
    var failedRows := FailedStatus(s, group, buckets, FAN_SUMMARY_FAILURES);
    FailuresAgree(s, group, completed, FAN_SUMMARY_FAILURES);
    failures := Slice(MergeBySeq(failedRows, Filter(completed, FailedMember)), 0, FAN_SUMMARY_FAILURES);
  }

  /** The buckets added, one after the other. */
  method AddBuckets(tally: Tally, buckets: seq<Bucket>)
    modifies tally
    ensures tally.t == Plus(old(tally.t), SumBuckets(buckets))
  {
    PlusZero(tally.t);
    for i := 0 to |buckets|
      invariant tally.t == Plus(old(tally.t), SumBuckets(buckets[..i]))
    {
      assert buckets[..i + 1][..i] == buckets[..i];
      PlusAssoc(old(tally.t), SumBuckets(buckets[..i]), OfBucket(buckets[i]));
      tally.AddBucket(buckets[i]);
    }
    assert buckets[..|buckets|] == buckets;
  }

  /** Buckets, folded rows and completed children together say what the members do. */
  lemma TotalsAgree(s: seq<Step>, group: string, folded: seq<Step>, completed: seq<Step>)
    requires folded == Filter(s, (r: Step) => r.group == Some(group) && r.kind == Folded)
    requires completed == Filter(s, (r: Step) => r.group == Some(group) && r.kind == Child && r.status == Completed)
    ensures Plus(Plus(SumBuckets(StatsOf(MembersOf(s, group))), Sum(folded, Payload)), Sum(completed, Payload))
            == Sum(MembersOf(s, group), Member)
  {
    var ms := MembersOf(s, group);
    var mine, isFolded := (r: Step) => r.group == Some(group), (r: Step) => r.kind == Folded;
    var isDone := (r: Step) => r.kind == Child && r.status == Completed;
    FilterTwice(s, mine, isFolded, (r: Step) => r.group == Some(group) && r.kind == Folded);
    FilterTwice(s, mine, isDone, (r: Step) => r.group == Some(group) && r.kind == Child && r.status == Completed);
    PayloadSplits(ms, isFolded, isDone);
    SumSplits(ms);
    StatsSum(ms);
    PlusAssoc(Sum(ms, Columns), Sum(folded, Payload), Sum(completed, Payload));
  }

  lemma FailuresAgree(s: seq<Step>, group: string, completed: seq<Step>, n: nat)
    requires BySeq(s)
    requires completed == Filter(s, (r: Step) => r.group == Some(group) && r.kind == Child && r.status == Completed)
    ensures var failed, children := QueryOf(s, FailedRows(group)), Filter(completed, FailedMember);
            && MergeBySeq(failed, children) == Filter(MembersOf(s, group), FailedMember)
            && Slice(MergeBySeq(Slice(failed, 0, n), children), 0, n)
               == Slice(Filter(MembersOf(s, group), FailedMember), 0, n)
  {
    var failed := (r: Step) => r.group == Some(group) && r.status == Failed;
    var child := (r: Step) => r.group == Some(group) && r.kind == Child && r.status == Completed && r.reportsFailure;
    FilterSame(s, (r: Step) => Matches(FailedRows(group), r), failed);
    FilterTwice(s, (r: Step) => r.group == Some(group) && r.kind == Child && r.status == Completed,
                FailedMember, child);
    FailuresMerge(s, group, failed, child, n);
  }

  /** Rows added by payload. */
  method AddPayloads(tally: Tally, rows: seq<Step>)
    requires forall r | r in rows :: ByPayload(r.kind, r.status)
    modifies tally
    ensures tally.t == Plus(old(tally.t), Sum(rows, Payload))
  {
    PlusZero(tally.t);
    for i := 0 to |rows|
      invariant tally.t == Plus(old(tally.t), Sum(rows[..i], Payload))
    {
      assert rows[..i + 1] == rows[..i] + [rows[i]];
      SumSnoc(rows[..i], rows[i], Payload);
      PlusAssoc(old(tally.t), Sum(rows[..i], Payload), Payload(rows[i]));
      tally.AddPayload(rows[i]);
    }
    assert rows[..|rows|] == rows;
  }
}
